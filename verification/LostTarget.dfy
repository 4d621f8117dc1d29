/** The safety theorem needs its hypothesis: for every plan that has an endangered target there is a run, without any outside
    interference, that ends with a SUCCEEDED task whose target is not there. Together: safe if and only if unendangered. The
    damage is for good: by `ProtocolRows.RunRemembers` the task stays SUCCEEDED, so no later run looks at it again. */
module LostTarget {
  import CopyModel
  import opened Common
  import opened Tasks
  import opened TaskTables
  import TI = TableInvariants
  import opened TempNames
  import opened Reconciler
  import opened Protocol
  import opened PlanRows
  import opened ProtocolRows
  import opened ProtocolSafety
  import opened ProtocolRuns
  import opened RunKit
  import opened MigrateRounds
  import opened AttemptRuns
  import opened ResumeRuns
  import opened ReadErrors
  import FileOrigins
  import Digests

  /** In every state of every run, the target of a SUCCEEDED task is there. */
  ghost predicate Safe(plan: Plan)
    requires PlanShape(plan)
  {
    forall trace: seq<World>, labels: seq<Label>, i: nat, t: string ::
      IsRun(plan, trace, labels) && Initial(trace[0]) && i < |trace|
      && t in trace[i].db.tasks && trace[i].db.tasks[t].state == Succeeded ==>
        t in plan.assets && plan.assets[t].spec.target in trace[i].files
  }

  /** Task `t` is SUCCEEDED and its target is not there. */
  predicate Lost(plan: Plan, w: World, t: string) {
    t in plan.assets && t in w.db.tasks && w.db.tasks[t].state == Succeeded && plan.assets[t].spec.target !in w.files
  }

  lemma UnendangeredIsSafe(plan: Plan)
    requires PlanShape(plan) && Unendangered(plan)
    ensures Safe(plan)
  {
    hide Next, Initial, Unendangered, PlanShape;
    forall trace: seq<World>, labels: seq<Label>, i: nat, t: string | IsRun(plan, trace, labels) && Initial(trace[0]) && i < |trace|
                                      && t in trace[i].db.tasks && trace[i].db.tasks[t].state == Succeeded
      ensures t in plan.assets && plan.assets[t].spec.target in trace[i].files
    {
      var a := SucceededForever(plan, trace, labels, i, i, t);
    }
  }

  // ---------------------------------------------------------------- a task whose target is its own temporary file

  /** A resume that adopts the target of `t`, up to the removal of the temporary file. */
  lemma AdoptsUpToUnlink(plan: Plan, w0: World, w: World, t: string, a: string, content: Bytes) returns (w': World)
    requires Viable(plan) && At(plan, w0, w) && w.proc.Idle? && w.db.epoch < INT64_MAX && Certified(plan, w, t, a, content)
    requires Holding(w.files, plan.assets[t].spec.target, content) && Holding(w.files, TempName(plan, t, a), content)
    ensures At(plan, w0, w') && w'.proc.Resuming? && w'.proc.step == UnlinkTemp(CaseFor(w.db, t))
    ensures w' == w.(db := w.db.(epoch := w.db.epoch + 1), proc := w'.proc)
  {
    hide Inv, Leads, Next, Materialize, PlanShape, Shows;
    CertifiedIsRipe(plan, w, t, a, content);
    var c := CaseFor(w.db, t);
    var w1 := ToDecision(plan, w0, w, t);
    var w2 := ConfirmsFinal(plan, w0, w1, c, true);
    w' := ConfirmsTemp(plan, w0, w2, c);
  }

  predicate Holding(files: map<string, Bytes>, name: string, content: Bytes) {
    name in files && files[name] == content
  }

  lemma UnlinkCase(plan: Plan, w: World, c: Case)
    requires Inv(plan, w) && w.materialized && w.proc.Resuming? && w.proc.step == UnlinkTemp(c)
    ensures DbInv(plan, true, w.db) && CaseOk(plan, w.db, c) && w.proc.epoch == w.db.epoch && c.task in w.db.tasks
  {
  }

  lemma LosesOwn(plan: Plan, t: string, n: nat) returns (w: World)
    requires Viable(plan) && Endangers(plan, t, n, t)
    ensures Leads(plan, EmptyWorld(plan), w) && Lost(plan, w, t)
  {
    hide Inv, Leads, Next, Materialize, PlanShape, DbInv, CaseOk;
    var w0, a, content := EmptyWorld(plan), GeneratedAttemptId(plan.id, t, n), CopyModel.Zeros(plan.assets[t].identity.size);
    var w1 := NthReceipt(plan, t, n);
    var c := CaseFor(w1.db, t);
    CertifiedIsRipe(plan, w1, t, a, content);
    var w2 := AdoptsUpToUnlink(plan, w0, w1, t, a, content);
    UnlinkCase(plan, w2, c);
    Unlinks(plan, w0, w2, c);
    w := Settles(plan, w0, UnlinkWorld(plan, w2, c), c, RecoverSucceeded);
  }

  // ---------------------------------------------------------------- a target that is the temporary file of another task

  predicate NoneDone(db: Tables) {
    forall t :: t in db.tasks ==> db.tasks[t].state != Succeeded
  }

  /** The n-th round, at the point where only `t` and `u` (which may be the same) are left with their workers. */
  lemma TwoWorkers(plan: Plan, t: string, n: nat, u: string) returns (w: World)
    requires Viable(plan) && t in plan.assets && u in plan.assets && 1 <= n <= UINT32_MAX
    ensures var w0, a, b := EmptyWorld(plan), GeneratedAttemptId(plan.id, t, n), GeneratedAttemptId(plan.id, u, n);
            && Standing(plan, w0, w, t, a, Queued) && Standing(plan, w0, w, u, b, Queued)
            && SameGround(w0, w) && w.proc.epoch == n && NoneDone(w.db)
            && IsRunning(w.db, t) && w.db.tasks[t].active == Some(a) && w.db.tasks[t].owner == Some(n)
            && IsRunning(w.db, u) && w.db.tasks[u].active == Some(b) && w.db.tasks[u].owner == Some(n)
  {
    hide Inv, Leads, Next, Materialize, PlanShape, InRound, At;
    var w0, keep := EmptyWorld(plan), {t, u};
    var w1 := NthRound(plan, n, keep);
    w := Drain(plan, w0, w1, n, keep);
    KeptIsClaimed(plan, w0, w, n, keep, t);
    KeptIsClaimed(plan, w0, w, n, keep, u);
    RoundHasNoneDone(plan, w0, w, n, keep);
  }

  /** Two tasks of one round have their receipts when the process dies. */
  lemma TwoReceipts(plan: Plan, t: string, n: nat, u: string) returns (w: World)
    requires Viable(plan) && Endangers(plan, t, n, u) && t != u && NthTemp(plan, u, n) != NthTemp(plan, t, n)
    requires SingleComponent(plan.assets[u].spec.target)
    ensures var w0, content := EmptyWorld(plan), CopyModel.Zeros(plan.assets[t].identity.size);
            && At(plan, w0, w) && w.proc.Idle? && w.db.epoch == n && NoneDone(w.db)
            && Certified(plan, w, t, GeneratedAttemptId(plan.id, t, n), content)
            && Certified(plan, w, u, GeneratedAttemptId(plan.id, u, n), content)
            && w.files == map[NthTemp(plan, t, n) := content, NthTemp(plan, u, n) := content]
  {
    hide Inv, Leads, Next, Materialize, PlanShape, TempName, GeneratedAttemptId, Certified, SourceAt, ReceiptFor, EmptyWorld;
    var w0, content := EmptyWorld(plan), CopyModel.Zeros(plan.assets[t].identity.size);
    var a, b := GeneratedAttemptId(plan.id, t, n), GeneratedAttemptId(plan.id, u, n);
    EmptyGround(plan);
    var w2 := TwoWorkers(plan, t, n, u);
    FreshSource(plan, w2, t);
    var w3 := ToReceipt(plan, w0, w2, t, a, content);
    BesideKeeps(w2, w3, t, u);
    FreshSource(plan, w3, u);
    var w4 := ToReceipt(plan, w0, w3, u, b, content);
    MigratingIsWritten(plan, w4);
    w := Crashes(plan, w0, w4);
    FreshSource(plan, w, t);
    FreshSource(plan, w, u);
    IsCertified(plan, w, t, a, n, content);
    IsCertified(plan, w, u, b, n, content);
  }

  lemma EmptyGround(plan: Plan)
    ensures EmptyWorld(plan).files == map[] && EmptyWorld(plan).db.receipts == map[]
  {
  }

  lemma FreshSource(plan: Plan, w: World, t: string)
    requires w.sources == EmptyWorld(plan).sources && t in plan.assets && plan.assets[t].identity.size <= INT64_MAX
    ensures SourceAt(plan, w, t, CopyModel.Zeros(plan.assets[t].identity.size))
  {
  }

  lemma IsCertified(plan: Plan, w: World, t: string, a: string, owner: nat, content: Bytes)
    requires SourceAt(plan, w, t, content) && SingleComponent(plan.assets[t].spec.target) && w.rootExists && w.materialized
    requires IsRunning(w.db, t) && w.db.tasks[t].active == Some(a) && w.db.tasks[t].owner == Some(owner)
    requires (t, a) in w.db.receipts && w.db.receipts[(t, a)] == ReceiptFor(plan, t, a, owner, |content|, plan.hash(content))
    ensures Certified(plan, w, t, a, content)
  {
  }

  lemma BesideKeeps(w: World, w': World, t: string, u: string)
    requires Beside(w, w', t) && u != t && u in w.proc.workers
    ensures u in w'.proc.workers && w'.proc.workers[u] == w.proc.workers[u]
  {
    assert u in w.proc.workers - {t};
    assert (w'.proc.workers - {t})[u] == (w.proc.workers - {t})[u];
  }

  lemma RoundHasNoneDone(plan: Plan, w0: World, w: World, n: nat, keep: set<string>)
    requires Viable(plan) && At(plan, w0, w) && InRound(plan, w, n, keep) && ReadySet(w.db) == {}
    ensures NoneDone(w.db)
  {
    hide Leads, Materialize, FilesInv, TI.Inv, PlanShape, AttemptShape, ReceiptShape, Numbered;
    forall t | t in w.db.tasks ensures w.db.tasks[t].state != Succeeded {
      assert TaskShape(plan, w.db, t);
      assert Progress(plan, w, t, n, keep);
    }
  }

  /** While no task is SUCCEEDED, removing a temporary file that is not the target of its own task keeps the invariant. */
  lemma UnlinkKeepsInv(plan: Plan, w: World, c: Case)
    requires Inv(plan, w) && NoneDone(w.db) && w.proc.Resuming? && w.proc.step == UnlinkTemp(c) && c.task in plan.assets
    requires IntentFor(plan, c).tempPath != plan.assets[c.task].spec.target
    ensures Inv(plan, UnlinkWorld(plan, w, c))
  {
    hide TI.Inv, TaskShape, ReceiptShape, Numbered;
    var files' := w.files - {IntentFor(plan, c).tempPath};
    forall b | b in w.db.attempts ensures CommitShown(plan, w.db, files', b) {
      assert AttemptShape(plan, w.db, b);
    }
  }

  /** The first resume adopts the temporary file of `t` as the target of `u`. */
  lemma AdoptsForeign(plan: Plan, w0: World, w: World, t: string, n: nat, u: string, content: Bytes) returns (w': World)
    requires Viable(plan) && At(plan, w0, w) && w.proc.Idle? && w.db.epoch < INT64_MAX && NoneDone(w.db)
    requires Endangers(plan, t, n, u) && t != u && NthTemp(plan, u, n) != NthTemp(plan, t, n)
    requires Certified(plan, w, t, GeneratedAttemptId(plan.id, t, n), content)
    requires Certified(plan, w, u, GeneratedAttemptId(plan.id, u, n), content)
    requires w.files == map[NthTemp(plan, t, n) := content, NthTemp(plan, u, n) := content]
    ensures At(plan, w0, w') && w'.proc.Idle? && w'.db.epoch == w.db.epoch + 1
    ensures Certified(plan, w', t, GeneratedAttemptId(plan.id, t, n), content)
    ensures w'.files == map[NthTemp(plan, t, n) := content]
    ensures u in w'.db.tasks && w'.db.tasks[u].state == Succeeded
  {
    hide Inv, Leads, Next, Materialize, PlanShape, CaseOk, DbInv, TempName, GeneratedAttemptId, MatchesPlan;
    var b := GeneratedAttemptId(plan.id, u, n);
    var c := CaseFor(w.db, u);
    CertifiedIsRipe(plan, w, u, b, content);
    var w1 := AdoptsUpToUnlink(plan, w0, w, u, b, content);
    Unlinks(plan, w0, w1, c);
    UnlinkKeepsInv(plan, w1, c);
    var w2 := SettlesWell(plan, w0, UnlinkWorld(plan, w1, c), c, RecoverSucceeded);
    w' := Crashes(plan, w0, w2);
  }

  /** The second resume publishes that file for `t`, and the target of `u` is gone. */
  lemma RenamesAway(plan: Plan, w0: World, w: World, t: string, n: nat, content: Bytes) returns (w': World)
    requires Viable(plan) && At(plan, w0, w) && w.proc.Idle? && w.db.epoch < INT64_MAX
    requires Certified(plan, w, t, GeneratedAttemptId(plan.id, t, n), content)
    requires w.files == map[NthTemp(plan, t, n) := content] && plan.assets[t].spec.target != NthTemp(plan, t, n)
    ensures Leads(plan, w0, w') && w'.db.tasks == w.db.tasks && w'.files == map[plan.assets[t].spec.target := content]
  {
    hide Inv, Leads, Next, Materialize, PlanShape;
    var a := GeneratedAttemptId(plan.id, t, n);
    CertifiedIsRipe(plan, w, t, a, content);
    var c := CaseFor(w.db, t);
    var w1 := ToDecision(plan, w0, w, t);
    var w2 := Rechecks(plan, w0, w1, c);
    Renames(plan, w0, w2, c);
    w' := RenameWorld(plan, w2, c);
  }

  /** A SUCCEEDED target disappears: at `before` task `u` is SUCCEEDED and its target is there, at `after` the task is still
      SUCCEEDED and the file is gone. */
  lemma SucceededTargetDisappears(plan: Plan, t: string, n: nat, u: string) returns (before: World, after: World)
    requires Viable(plan) && Endangers(plan, t, n, u) && t != u && plan.assets[t].spec.target != plan.assets[u].spec.target
    requires NthTemp(plan, u, n) != NthTemp(plan, t, n)
    ensures Leads(plan, EmptyWorld(plan), before) && Leads(plan, before, after)
    ensures u in before.db.tasks && before.db.tasks[u].state == Succeeded && plan.assets[u].spec.target in before.files
    ensures Lost(plan, after, u) && Leads(plan, EmptyWorld(plan), after)
  {
    hide Leads, Next, Materialize, PlanShape, Certified, Inv;
    var w0, content := EmptyWorld(plan), CopyModel.Zeros(plan.assets[t].identity.size);
    TempIsSingle(plan, t, n);
    var w1 := TwoReceipts(plan, t, n, u);
    before := AdoptsForeign(plan, w0, w1, t, n, u, content);
    LeadsNowhere(plan, before);
    after := RenamesAway(plan, before, before, t, n, content);
    LeadsChains(plan, w0, before, after);
  }

  /** Temporary names have one component. */
  lemma TempIsSingle(plan: Plan, t: string, n: nat)
    ensures SingleComponent(NthTemp(plan, t, n))
  {
    var name := NthTemp(plan, t, n);
    var hex := Digests.Hex(plan.hash(AsBytes(TempPayload(plan.id, t, GeneratedAttemptId(plan.id, t, n)))));
    forall i | 0 <= i < |name| ensures name[i] != '/' {
      if |TEMP_PREFIX| <= i < |TEMP_PREFIX| + |hex| {
        assert name[i] == hex[i - |TEMP_PREFIX|];
        assert Digests.IsLowerHex(hex[i - |TEMP_PREFIX|]);
      }
    }
  }

  // ---------------------------------------------------------------- safe if and only if unendangered

  lemma LossIsUnsafe(plan: Plan, w: World, t: string)
    requires Viable(plan) && Leads(plan, EmptyWorld(plan), w) && Lost(plan, w, t)
    ensures !Safe(plan)
  {
    hide Next, Materialize, PlanShape;
    EmptyWorldFits(plan);
    var trace: seq<World>, labels: seq<Label> :| CalmRun(plan, trace, labels) && trace[0] == EmptyWorld(plan) && trace[|labels|] == w;
    assert trace[|labels|].db.tasks[t].state == Succeeded;
  }

  lemma EndangeredIsUnsafe(plan: Plan, t: string, n: nat, u: string)
    requires Viable(plan) && Endangers(plan, t, n, u)
    ensures !Safe(plan)
  {
    hide Leads, Next, Materialize, PlanShape, Safe, Lost;
    if plan.assets[t].spec.target == plan.assets[u].spec.target {
      assert Endangers(plan, t, n, t);
      var w := LosesOwn(plan, t, n);
      LossIsUnsafe(plan, w, t);
    } else if NthTemp(plan, u, n) == NthTemp(plan, t, n) {
      TempIsSingle(plan, u, n);
      assert Endangers(plan, u, n, u);
      var w := LosesOwn(plan, u, n);
      LossIsUnsafe(plan, w, u);
    } else {
      var before, after := SucceededTargetDisappears(plan, t, n, u);
      LossIsUnsafe(plan, after, u);
    }
  }

  /** The safety theorem and its converse. A viable plan is safe if and only if no target of it is the temporary name of a
      claim of a task that has a target of one component and a source of the same size. */
  lemma SafeExactly(plan: Plan)
    requires Viable(plan)
    ensures Safe(plan) <==> Unendangered(plan)
  {
    hide Viable, Safe, Endangers;
    if Unendangered(plan) {
      assert PlanShape(plan) by { ViableShape(plan); }
      UnendangeredIsSafe(plan);
    } else {
      var t, n: nat, u :| Endangers(plan, t, n, u);
      EndangeredIsUnsafe(plan, t, n, u);
    }
  }

  lemma ViableShape(plan: Plan)
    requires Viable(plan)
    ensures PlanShape(plan)
  {
  }

  /** Two tasks that get the same temporary name from their n-th claims exhibit a collision of the hash: only then does
      `SucceededTargetDisappears` not apply, and one of the two loses its own target. */
  lemma ApartUnlessCollision(plan: Plan, t: string, u: string, n: nat)
    requires FileOrigins.ByteStrings(plan) && t in plan.assets && u in plan.assets && t != u
    ensures || NthTemp(plan, t, n) != NthTemp(plan, u, n)
            || Collides(plan.hash, AsBytes(TempPayload(plan.id, t, GeneratedAttemptId(plan.id, t, n))),
                        AsBytes(TempPayload(plan.id, u, GeneratedAttemptId(plan.id, u, n))))
  {
    if NthTemp(plan, t, n) == NthTemp(plan, u, n) {
      FileOrigins.GeneratedIsByteString(plan, t, n);
      FileOrigins.GeneratedIsByteString(plan, u, n);
      TempNamesDistinct(plan.hash, plan.id, t, GeneratedAttemptId(plan.id, t, n), plan.id, u, GeneratedAttemptId(plan.id, u, n));
    }
  }
}
