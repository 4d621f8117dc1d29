/** How a read error can cost a task: a published task is given back when its target cannot be read during the
    confirmation, and if the next attempt dies before its receipt, the following resume declares the task INCONSISTENT. */
module ReadErrors {
  import CopyModel
  import opened Common
  import opened Tasks
  import opened TaskTables
  import TI = TableInvariants
  import opened TempNames
  import opened Reconciler
  import opened Protocol
  import opened PlanRows
  import opened ProtocolRows
  import opened ProtocolSafety
  import opened ProtocolRuns
  import opened QuietInvariant
  import opened QuietResume
  import opened RunKit
  import opened MigrateRounds
  import opened AttemptRuns
  import opened ResumeRuns
  import opened Convergence

  /** In an undisturbed run the bytes of the only receipt are published, and the process dies before it can say so. */
  lemma Publishes(plan: Plan, w0: World, w: World, t: string, a: string, content: Bytes) returns (w': World)
    requires Viable(plan) && Unendangered(plan) && At(plan, w0, w) && w.proc.Idle? && w.db.epoch < INT64_MAX
    requires Certified(plan, w, t, a, content)
    requires w.files == map[TempName(plan, t, a) := content] && plan.assets[t].spec.target != TempName(plan, t, a)
    ensures At(plan, w0, w') && w'.proc.Idle? && Certified(plan, w', t, a, content)
    ensures w' == w.(db := w.db.(epoch := w.db.epoch + 1), files := map[plan.assets[t].spec.target := content])
  {
    hide Inv, Leads, Next, Materialize, PlanShape, Unendangered;
    CertifiedIsRipe(plan, w, t, a, content);
    var c := CaseFor(w.db, t);
    var w1 := ToDecision(plan, w0, w, t);
    var w2 := Rechecks(plan, w0, w1, c);
    Renames(plan, w0, w2, c);
    var w3 := RenameWorld(plan, w2, c);
    RenameIsStep(plan, w2, c);
    StepKeepsInv(plan, w2, ResumeRename, w3);
    w' := Crashes(plan, w0, w3);
  }

  lemma RenameIsStep(plan: Plan, w: World, c: Case)
    requires PlanShape(plan) && w.proc.Resuming? && w.proc.step == RenameTemp(c) && c.task in plan.assets && c.task in w.db.tasks
    requires IntentFor(plan, c).tempPath in w.files && IntentFor(plan, c).finalPath !in w.files
    ensures Next(plan, w, ResumeRename) == Some(RenameWorld(plan, w, c))
  {
    hide PlanShape, Decide, Shows;
  }

  /** The resume that cannot read the published target gives the task back. */
  lemma GivesBackPublished(plan: Plan, w0: World, w: World, t: string, a: string, content: Bytes) returns (w': World)
    requires Viable(plan) && At(plan, w0, w) && w.proc.Idle? && w.db.epoch < INT64_MAX && Certified(plan, w, t, a, content)
    requires w.files == map[plan.assets[t].spec.target := content]
    ensures At(plan, w0, w') && w'.proc.Idle? && w' == w.(db := w'.db) && w'.db.epoch == w.db.epoch + 1
    ensures OnlyTouches(w.db, w'.db, t, a) && w'.db.tasks[t].state == Retryable
    ensures w'.db.tasks[t].attemptCount == w.db.tasks[t].attemptCount
  {
    hide Inv, Leads, Next, Materialize, PlanShape;
    CertifiedIsRipe(plan, w, t, a, content);
    var c := CaseFor(w.db, t);
    var w1 := ToDecision(plan, w0, w, t);
    var w2 := FailsToRead(plan, w0, w1, c);
    var w3 := SettlesWell(plan, w0, w2, c, RecoverRetryable);
    w' := Crashes(plan, w0, w3);
  }

  /** Everything is claimed again, and the process dies at once. */
  lemma DiesAfterClaim(plan: Plan, w0: World, w: World, n: nat, t: string) returns (w': World)
    requires Viable(plan) && At(plan, w0, w) && w.proc.Idle? && Rested(plan, w, n) && n + 1 <= UINT32_MAX && w.db.epoch < INT64_MAX
    requires Attemptable(plan, t) && w.rootExists
    requires t in w.sources && w.sources[t].Present? && w.sources[t].identity == plan.assets[t].identity
    ensures At(plan, w0, w') && w'.proc.Idle? && w'.files == w.files && w'.sources == w.sources && w'.db.epoch == w.db.epoch + 1
    ensures Ripe(plan, w', t) && CaseFor(w'.db, t).receipt.None?
  {
    hide Inv, Leads, Next, Materialize, PlanShape, InRound, Standing, DbInv, FilesInv, Rested;
    var w1 := Begin(plan, w0, w, n, {t});
    var w2 := Drain(plan, w0, w1, n + 1, {t});
    KeptIsClaimed(plan, w0, w2, n + 1, {t}, t);
    RoundShape(plan, w2, n + 1, {t});
    MigratingIsWritten(plan, w2);
    w' := Crashes(plan, w0, w2);
  }

  /** The resume after that finds a target and no receipt. */
  lemma DeclaredInconsistent(plan: Plan, w0: World, w: World, t: string) returns (w': World)
    requires Viable(plan) && At(plan, w0, w) && w.proc.Idle? && w.db.epoch < INT64_MAX
    requires Ripe(plan, w, t) && CaseFor(w.db, t).receipt.None? && plan.assets[t].spec.target in w.files
    ensures At(plan, w0, w') && w'.files == w.files && w'.sources == w.sources && w'.db.receipts == w.db.receipts
    ensures t in w'.db.tasks && w'.db.tasks[t].state == Inconsistent
  {
    hide Inv, Leads, Next, Materialize, PlanShape;
    var w1 := ToDecision(plan, w0, w, t);
    w' := SettlesWell(plan, w0, w1, CaseFor(w.db, t), RecoverInconsistent);
  }

  /** The failing run, for every plan whose first steps can succeed and every task of it that can be attempted. */
  lemma RunToInconsistent(plan: Plan, t: string) returns (w: World)
    requires Viable(plan) && NoFinalIsTemp(plan) && Attemptable(plan, t)
    ensures Leads(plan, EmptyWorld(plan), w) && t in w.db.tasks && w.db.tasks[t].state == Inconsistent
    ensures w.files == map[plan.assets[t].spec.target := EmptyWorld(plan).sources[t].content]
    ensures w.sources == EmptyWorld(plan).sources
  {
    hide Inv, Leads, Next, Materialize, PlanShape, NoFinalIsTemp, Unendangered;
    var w0, a, content := EmptyWorld(plan), GeneratedAttemptId(plan.id, t, 1), CopyModel.Zeros(plan.assets[t].identity.size);
    NoClashNoDanger(plan);
    assert NthTemp(plan, t, 1) != plan.assets[t].spec.target by {
      FirstTempIsApart(plan, t);
    }
    var w1 := NthReceipt(plan, t, 1);
    var w2 := Publishes(plan, w0, w1, t, a, content);
    var w3 := GivesBackPublished(plan, w0, w2, t, a, content);
    var w4 := DiesAfterClaim(plan, w0, w3, 1, t);
    w := DeclaredInconsistent(plan, w0, w4, t);
  }

  lemma FirstTempIsApart(plan: Plan, t: string)
    requires NoFinalIsTemp(plan) && t in plan.assets
    ensures NthTemp(plan, t, 1) != plan.assets[t].spec.target
  {
    assert !NameClash(plan, t, 1, t);
  }

  /** `Convergence.InconsistentOnlyAfterReadError` cannot be improved: there is an undisturbed run, over unchanged sources
      and an empty target directory, at whose end a task whose target is published and intact is INCONSISTENT. */
  lemma ReadErrorLeadsToInconsistent(plan: Plan, t: string) returns (trace: seq<World>, labels: seq<Label>)
    requires Viable(plan) && NoFinalIsTemp(plan) && DistinctTargets(plan) && Attemptable(plan, t)
    ensures UndisturbedRun(plan, trace, labels) && trace[0].files == map[]
    ensures var w := trace[|labels|];
            && t in w.db.tasks && w.db.tasks[t].state == Inconsistent && t in w.sources && w.sources[t].Present?
            && plan.assets[t].spec.target in w.files && w.files[plan.assets[t].spec.target] == w.sources[t].content
    ensures exists k :: 0 <= k < |labels| && ReadFails(trace[k], labels[k], t)
  {
    hide Next, Materialize, PlanShape, NoFinalIsTemp, DistinctTargets;
    var w := RunToInconsistent(plan, t);
    EmptyWorldFits(plan);
    trace, labels :| CalmRun(plan, trace, labels) && trace[0] == EmptyWorld(plan) && trace[|labels|] == w;
    InconsistentOnlyAfterReadError(plan, trace, labels, |labels|, t);
  }
}
