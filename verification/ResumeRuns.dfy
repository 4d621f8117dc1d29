/** Runs of resume, built step by step. */
module ResumeRuns {
  import CopyModel
  import opened Common
  import opened Tasks
  import opened TaskTables
  import TI = TableInvariants
  import opened TempNames
  import opened Reconciler
  import opened Protocol
  import opened PlanRows
  import opened ProtocolRows
  import opened ProtocolSafety
  import opened ProtocolRuns
  import opened QuietInvariant
  import opened QuietResume
  import opened RunKit
  import opened MigrateRounds
  import opened AttemptRuns
  import opened Sites
  import Convergence

  /** Only the recovery step has changed. */
  predicate Looked(w: World, w': World) {
    && w.proc.Resuming? && w'.proc.Resuming? && w'.proc.epoch == w.proc.epoch && w'.proc.todo == w.proc.todo
    && w'.db == w.db && w'.files == w.files && w'.sources == w.sources && w'.materialized == w.materialized
    && w'.rootExists == w.rootExists
  }

  lemma Crashes(plan: Plan, w0: World, w: World) returns (w': World)
    requires Viable(plan) && At(plan, w0, w)
    ensures At(plan, w0, w') && w' == w.(proc := Idle)
  {
    hide Inv, Leads, Materialize, PlanShape, MigrateNext, WorkerNext, ResumeNext;
    w' := w.(proc := Idle);
    Walk(plan, w0, w, Stop, w');
  }

  /** A resume begins and has `t` on its list. */
  lemma Starts(plan: Plan, w0: World, w: World, t: string) returns (w': World)
    requires Viable(plan) && At(plan, w0, w) && w.proc.Idle? && w.materialized && IsRunning(w.db, t) && w.db.epoch < INT64_MAX
    ensures At(plan, w0, w') && w'.proc.Resuming? && w'.proc.step == Pick && t in w'.proc.todo
    ensures w' == w.(db := w.db.(epoch := w.db.epoch + 1), proc := w'.proc)
  {
    hide Leads, Next, Materialize, IsRun, TI.Inv, FilesInv, AttemptShape, ReceiptShape, Numbered;
    assert TaskShape(plan, w.db, t);
    Convergence.RunningIsListed(w.db, plan.order, t);
    LeadsNowhere(plan, w);
    StartMoves(plan, [w], [], w);
    w' := w.(db := w.db.(epoch := w.db.epoch + 1), proc := Resuming(w.db.epoch + 1, RunningIn(w.db, plan.order), Pick));
    WalkRun(plan, w0, w, ResumeStart, w');
  }

  /** recover_one fails for every task before `t`. */
  lemma {:induction false} SkipsTo(plan: Plan, w0: World, w: World, t: string) returns (w': World)
    requires Viable(plan) && At(plan, w0, w) && w.proc.Resuming? && w.proc.step == Pick && t in w.proc.todo
    ensures At(plan, w0, w') && w'.proc.Resuming? && w'.proc.step == Pick && w'.proc.todo != [] && w'.proc.todo[0] == t
    ensures w' == w.(proc := w.proc.(todo := w'.proc.todo))
    decreases |w.proc.todo|
  {
    hide At, Materialize, PlanShape;
    if w.proc.todo[0] == t {
      w' := w;
    } else {
      var w1 := SkipsOne(plan, w0, w);
      w' := SkipsTo(plan, w0, w1, t);
    }
  }

  lemma SkipsOne(plan: Plan, w0: World, w: World) returns (w': World)
    requires Viable(plan) && At(plan, w0, w) && w.proc.Resuming? && w.proc.step == Pick && w.proc.todo != []
    ensures At(plan, w0, w') && w' == w.(proc := w.proc.(todo := w.proc.todo[1..]))
  {
    hide Inv, Leads, Next, Materialize, PlanShape, IsRun;
    LeadsNowhere(plan, w);
    PassMoves(plan, [w], [], w);
    w' := w.(proc := w.proc.(todo := w.proc.todo[1..]));
    WalkRun(plan, w0, w, ResumeSkip, w');
  }

  /** Task `t` can be taken up: it has an owner and an attempt, and its receipt, if there is one, matches the plan. */
  ghost predicate Ripe(plan: Plan, w: World, t: string) {
    && t in plan.assets && IsRunning(w.db, t) && w.db.tasks[t].owner.Some? && w.db.tasks[t].active.Some?
    && SingleComponent(plan.assets[t].spec.target) && w.rootExists && w.materialized
    && t in w.sources && w.sources[t].Present? && w.sources[t].identity == plan.assets[t].identity
    && (CaseFor(w.db, t).receipt.Some? ==> MatchesPlan(plan, CaseFor(w.db, t)))
  }

  lemma Picks(plan: Plan, w0: World, w: World, t: string) returns (w': World)
    requires Viable(plan) && At(plan, w0, w) && Ripe(plan, w, t)
    requires w.proc.Resuming? && w.proc.step == Pick && w.proc.todo != [] && w.proc.todo[0] == t
    ensures At(plan, w0, w') && w'.proc.Resuming? && w'.proc.step == Loaded(CaseFor(w.db, t))
    ensures w' == w.(proc := w'.proc) && w'.proc.epoch == w.proc.epoch
  {
    hide Inv, Leads, Next, Materialize, PlanShape, IsRun, MatchesPlan;
    LeadsNowhere(plan, w);
    PickMoves(plan, [w], [], w, t);
    w' := w.(proc := w.proc.(todo := w.proc.todo[1..], step := Loaded(CaseFor(w.db, t))));
    WalkRun(plan, w0, w, ResumePick, w');
  }

  lemma Observes(plan: Plan, w0: World, w: World, c: Case) returns (w': World)
    requires Viable(plan) && At(plan, w0, w) && Ripe(plan, w, c.task) && w.proc.Resuming? && w.proc.step == Loaded(c)
    ensures At(plan, w0, w') && Looked(w, w')
    ensures w'.proc.step == TempSeen(c, ObserveTemp(plan, w.files, IntentFor(plan, c).tempPath, AVAILABLE))
  {
    hide Inv, Leads, Next, Materialize, PlanShape, IsRun, MatchesPlan;
    LeadsNowhere(plan, w);
    SourceMoves(plan, [w], [], w, c);
    var w1 := SetStep(w, SourceSeen(c, AVAILABLE));
    WalkRun(plan, w0, w, ResumeSource, w1);
    LeadsNowhere(plan, w1);
    TempMoves(plan, [w1], [], w1, c, AVAILABLE);
    w' := SetStep(w1, TempSeen(c, ObserveTemp(plan, w.files, IntentFor(plan, c).tempPath, AVAILABLE)));
    WalkRun(plan, w0, w1, ResumeTemp, w');
  }

  /** What recover_one goes on with when the source is there. */
  function StepAfter(plan: Plan, files: map<string, Bytes>, c: Case): RecoverStep
    requires c.task in plan.assets
  {
    var target, temp := plan.assets[c.task].spec.target, IntentFor(plan, c).tempPath;
    if c.receipt.None? then Settle(c, if target in files then RecoverInconsistent else RecoverRetryable)
    else if Shows(plan, files, target, c.receipt.value) then ConfirmFinal(c, Shows(plan, files, temp, c.receipt.value))
    else if target in files then Settle(c, RecoverInconsistent)
    else if Shows(plan, files, temp, c.receipt.value) then RecheckTemp(c)
    else if temp !in files then Settle(c, RecoverRetryable)
    else Settle(c, RecoverInconsistent)
  }

  lemma Decides(plan: Plan, w0: World, w: World, c: Case) returns (w': World)
    requires Viable(plan) && At(plan, w0, w) && w.materialized && w.proc.Resuming? && c.task in plan.assets
    requires c.task in w.sources && w.sources[c.task].Present? && w.sources[c.task].identity == plan.assets[c.task].identity
    requires w.proc.step == TempSeen(c, ObserveTemp(plan, w.files, IntentFor(plan, c).tempPath, AVAILABLE))
    ensures At(plan, w0, w') && Looked(w, w') && w'.proc.step == StepAfter(plan, w.files, c)
  {
    hide Leads, Next, Materialize, IsRun, MatchesPlan, DbInv, FilesInv, Decide, Shows, CaseOk;
    var seen := w.proc.step.seen;
    CaseHere(plan, w, c);
    DecideSucceeds(plan, w, c, seen);
    w' := DecideNext(plan, w, c, seen).value;
    assert w' == SetStep(w, w'.proc.step) by {
      DecideOk(plan, w, c, seen);
    }
    DecisionExact(plan, w, c, w'.proc.step);
    DecideIsStep(plan, w, c, seen, w');
    Walk(plan, w0, w, ResumeFinal, w');
  }

  lemma CaseHere(plan: Plan, w: World, c: Case)
    requires Inv(plan, w) && w.materialized && w.proc.Resuming? && w.proc.step.TempSeen? && w.proc.step.c == c
    ensures DbInv(plan, true, w.db) && CaseOk(plan, w.db, c) && c.task in w.db.tasks
    ensures c.receipt.Some? ==> c.task in plan.assets && MatchesPlan(plan, c)
  {
  }

  lemma DecideIsStep(plan: Plan, w: World, c: Case, seen: ObservedFileState, w': World)
    requires PlanShape(plan) && w.proc.Resuming? && w.proc.step == TempSeen(c, seen) && c.task in plan.assets && c.task in w.db.tasks
    requires DecideNext(plan, w, c, seen) == Some(w')
    ensures Next(plan, w, ResumeFinal) == Some(w')
  {
    hide DecideNext, PlanShape;
  }

  /** From the list to the decision about `t`. */
  lemma ToDecision(plan: Plan, w0: World, w: World, t: string) returns (w': World)
    requires Viable(plan) && At(plan, w0, w) && w.proc.Idle? && Ripe(plan, w, t) && w.db.epoch < INT64_MAX
    ensures At(plan, w0, w') && w'.proc.Resuming? && w'.proc.step == StepAfter(plan, w.files, CaseFor(w.db, t))
    ensures w' == w.(db := w.db.(epoch := w.db.epoch + 1), proc := w'.proc)
  {
    hide At, Materialize, PlanShape, Shows, MatchesPlan;
    var w1 := Starts(plan, w0, w, t);
    var w2 := SkipsTo(plan, w0, w1, t);
    var w3 := Picks(plan, w0, w2, t);
    var w4 := Observes(plan, w0, w3, CaseFor(w.db, t));
    w' := Decides(plan, w0, w4, CaseFor(w.db, t));
  }

  lemma ConfirmsFinal(plan: Plan, w0: World, w: World, c: Case, cleanup: bool) returns (w': World)
    requires Viable(plan) && At(plan, w0, w) && w.proc.Resuming? && w.proc.step == ConfirmFinal(c, cleanup)
    requires c.task in plan.assets && c.task in w.db.tasks && c.receipt.Some?
    requires Shows(plan, w.files, plan.assets[c.task].spec.target, c.receipt.value)
    ensures At(plan, w0, w') && Looked(w, w') && w'.proc.step == if cleanup then ConfirmTemp(c) else Settle(c, RecoverSucceeded)
  {
    hide Inv, Leads, Next, Materialize, PlanShape, IsRun, Shows;
    LeadsNowhere(plan, w);
    ConfirmFinalMoves(plan, [w], [], w, c, cleanup);
    w' := SetStep(w, if cleanup then ConfirmTemp(c) else Settle(c, RecoverSucceeded));
    WalkRun(plan, w0, w, ResumeConfirmFinal, w');
  }

  lemma ConfirmsTemp(plan: Plan, w0: World, w: World, c: Case) returns (w': World)
    requires Viable(plan) && At(plan, w0, w) && w.proc.Resuming? && w.proc.step == ConfirmTemp(c)
    requires c.task in plan.assets && c.task in w.db.tasks && c.receipt.Some?
    requires Shows(plan, w.files, IntentFor(plan, c).tempPath, c.receipt.value)
    ensures At(plan, w0, w') && Looked(w, w') && w'.proc.step == UnlinkTemp(c)
  {
    hide Inv, Leads, Next, Materialize, PlanShape, IsRun, Shows;
    LeadsNowhere(plan, w);
    ConfirmTempMoves(plan, [w], [], w, c);
    w' := SetStep(w, UnlinkTemp(c));
    WalkRun(plan, w0, w, ResumeConfirmTemp, w');
  }

  /** The target cannot be read while it is confirmed. */
  lemma FailsToRead(plan: Plan, w0: World, w: World, c: Case) returns (w': World)
    requires Viable(plan) && At(plan, w0, w) && w.proc.Resuming? && w.proc.step.ConfirmFinal? && w.proc.step.c == c
    requires c.task in plan.assets && c.task in w.db.tasks
    ensures At(plan, w0, w') && Looked(w, w') && w'.proc.step == Settle(c, RecoverRetryable)
  {
    hide Inv, Leads, Next, Materialize, PlanShape, IsRun;
    LeadsNowhere(plan, w);
    UnreadableMoves(plan, [w], [], w, c);
    w' := SetStep(w, Settle(c, RecoverRetryable));
    WalkRun(plan, w0, w, ResumeUnreadable, w');
  }

  lemma Rechecks(plan: Plan, w0: World, w: World, c: Case) returns (w': World)
    requires Viable(plan) && At(plan, w0, w) && w.proc.Resuming? && w.proc.step == RecheckTemp(c)
    requires c.task in plan.assets && c.task in w.db.tasks && c.receipt.Some?
    requires Shows(plan, w.files, IntentFor(plan, c).tempPath, c.receipt.value)
    ensures At(plan, w0, w') && Looked(w, w') && w'.proc.step == RenameTemp(c)
  {
    hide Inv, Leads, Next, Materialize, PlanShape, IsRun;
    LeadsNowhere(plan, w);
    RecheckMoves(plan, [w], [], w, c);
    w' := SetStep(w, RenameTemp(c));
    WalkRun(plan, w0, w, ResumeRecheck, w');
  }

  function UnlinkWorld(plan: Plan, w: World, c: Case): World
    requires w.proc.Resuming? && c.task in plan.assets
  {
    SetStep(w.(files := w.files - {IntentFor(plan, c).tempPath}), Settle(c, RecoverSucceeded))
  }

  /** The temporary file is removed, whatever its name is. */
  lemma Unlinks(plan: Plan, w0: World, w: World, c: Case)
    requires Viable(plan) && Leads(plan, w0, w) && w.proc.Resuming? && w.proc.step == UnlinkTemp(c)
    requires c.task in plan.assets && c.task in w.db.tasks && IntentFor(plan, c).tempPath in w.files
    ensures Leads(plan, w0, UnlinkWorld(plan, w, c))
  {
    hide Leads, Next, Materialize, PlanShape, IsRun;
    LeadsNowhere(plan, w);
    UnlinkMoves(plan, [w], [], w, c);
    StepOfRun(plan, w, ResumeUnlink, UnlinkWorld(plan, w, c));
    LeadsOn(plan, w0, w, ResumeUnlink, UnlinkWorld(plan, w, c));
  }

  function RenameWorld(plan: Plan, w: World, c: Case): World
    requires w.proc.Resuming? && c.task in plan.assets && IntentFor(plan, c).tempPath in w.files
  {
    var temp, final := IntentFor(plan, c).tempPath, IntentFor(plan, c).finalPath;
    SetStep(w.(files := (w.files - {temp})[final := w.files[temp]]), Settle(c, RecoverSucceeded))
  }

  /** The temporary file is published, whatever its name is. */
  lemma Renames(plan: Plan, w0: World, w: World, c: Case)
    requires Viable(plan) && Leads(plan, w0, w) && w.proc.Resuming? && w.proc.step == RenameTemp(c)
    requires c.task in plan.assets && c.task in w.db.tasks
    requires IntentFor(plan, c).tempPath in w.files && IntentFor(plan, c).finalPath !in w.files
    ensures Leads(plan, w0, RenameWorld(plan, w, c))
  {
    hide Leads, Next, Materialize, PlanShape, IsRun;
    LeadsNowhere(plan, w);
    RenameMoves(plan, [w], [], w, c);
    StepOfRun(plan, w, ResumeRename, RenameWorld(plan, w, c));
    LeadsOn(plan, w0, w, ResumeRename, RenameWorld(plan, w, c));
  }

  /** The verdict is written; the invariant holds before but need not hold after it. */
  lemma Settles(plan: Plan, w0: World, w: World, c: Case, verdict: Verdict) returns (w': World)
    requires Viable(plan) && Leads(plan, w0, w) && w.proc.Resuming? && w.proc.step == Settle(c, verdict)
    requires DbInv(plan, true, w.db) && CaseOk(plan, w.db, c) && w.proc.epoch == w.db.epoch <= INT64_MAX
    ensures Leads(plan, w0, w') && Next(plan, w, ResumeSettle) == Some(w')
    ensures w' == w.(db := w'.db, proc := w.proc.(step := Pick)) && w'.db.epoch == w.db.epoch
    ensures w'.db.receipts == w.db.receipts && OnlyTouches(w.db, w'.db, c.task, c.attempt)
    ensures w'.db.tasks[c.task].state == StateFor(verdict) && w'.db.tasks[c.task].attemptCount == w.db.tasks[c.task].attemptCount
  {
    hide Leads, Next, Materialize, PlanShape, IsRun, TI.Inv, DbShape, Recover;
    RecoverSucceeds(plan, w.db, c, verdict);
    RecoverTouches(w.db, w.proc.epoch, c, verdict);
    RecoverCounts(w.db, w.proc.epoch, c, verdict);
    LeadsNowhere(plan, w);
    SettleMoves(plan, [w], [], w, c, verdict);
    w' := SetStep(w.(db := Recover(w.db, c.task, w.proc.epoch, c.owner, c.attempt, verdict).value), Pick);
    StepOfRun(plan, w, ResumeSettle, w');
    LeadsOn(plan, w0, w, ResumeSettle, w');
  }

  lemma RecoverCounts(db: Tables, epoch: nat, c: Case, verdict: Verdict)
    requires Recover(db, c.task, epoch, c.owner, c.attempt, verdict).Ok?
    ensures var db' := Recover(db, c.task, epoch, c.owner, c.attempt, verdict).value;
            c.task in db.tasks && c.task in db'.tasks && db'.epoch == db.epoch
            && db'.tasks[c.task].attemptCount == db.tasks[c.task].attemptCount
  {
  }

  /** The same when the invariant holds before, and so after. */
  lemma SettlesWell(plan: Plan, w0: World, w: World, c: Case, verdict: Verdict) returns (w': World)
    requires Viable(plan) && At(plan, w0, w) && w.proc.Resuming? && w.proc.step == Settle(c, verdict) && w.materialized
    requires w.db.epoch <= INT64_MAX
    ensures At(plan, w0, w')
    ensures w' == w.(db := w'.db, proc := w.proc.(step := Pick)) && w'.db.epoch == w.db.epoch
    ensures w'.db.receipts == w.db.receipts && OnlyTouches(w.db, w'.db, c.task, c.attempt)
    ensures w'.db.tasks[c.task].state == StateFor(verdict) && w'.db.tasks[c.task].attemptCount == w.db.tasks[c.task].attemptCount
  {
    hide Leads, Next, Materialize, PlanShape, OnlyTouches, DbInv, FilesInv, CaseOk;
    w' := Settles(plan, w0, w, c, verdict);
    Walk(plan, w0, w, ResumeSettle, w');
  }

  // ---------------------------------------------------------------- a task with its receipt

  lemma MigratingIsWritten(plan: Plan, w: World)
    requires Inv(plan, w) && w.proc.Migrating?
    ensures w.materialized && DbInv(plan, true, w.db) && w.db.epoch == w.proc.epoch
  {
  }

  /** The n-th round is over for all tasks but those of `keep`, which were claimed. */
  lemma KeptIsClaimed(plan: Plan, w0: World, w: World, n: nat, keep: set<string>, t: string)
    requires Viable(plan) && At(plan, w0, w) && InRound(plan, w, n, keep) && ReadySet(w.db) == {} && t in plan.assets
    ensures t in w.db.tasks && w.db.tasks[t].attemptCount == n
    ensures t !in keep ==> w.db.tasks[t].state == Retryable
    ensures t in keep ==>
              && Standing(plan, w0, w, t, GeneratedAttemptId(plan.id, t, n), Queued)
              && IsRunning(w.db, t) && w.db.tasks[t].active == Some(GeneratedAttemptId(plan.id, t, n))
              && w.db.tasks[t].owner == Some(w.proc.epoch)
              && (t, GeneratedAttemptId(plan.id, t, n)) !in w.db.receipts
  {
    hide Leads, Materialize, FilesInv, TI.Inv, PlanShape;
    assert Progress(plan, w, t, n, keep);
    assert t !in ReadySet(w.db);
    if t in keep {
      WorkerHere(plan, w, t);
      NoReceiptYet(plan, w.db, t, GeneratedAttemptId(plan.id, t, n));
    }
  }

  /** What holds of a task with its receipt after a crash. */
  ghost predicate Certified(plan: Plan, w: World, t: string, a: string, content: Bytes) {
    && t in plan.assets && IsRunning(w.db, t) && w.db.tasks[t].active == Some(a) && w.db.tasks[t].owner.Some?
    && (t, a) in w.db.receipts
    && w.db.receipts[(t, a)] == ReceiptFor(plan, t, a, w.db.tasks[t].owner.value, |content|, plan.hash(content))
    && SourceAt(plan, w, t, content) && SingleComponent(plan.assets[t].spec.target) && w.rootExists && w.materialized
  }

  lemma CertifiedIsRipe(plan: Plan, w: World, t: string, a: string, content: Bytes)
    requires Certified(plan, w, t, a, content)
    ensures Ripe(plan, w, t) && CaseFor(w.db, t).task == t && CaseFor(w.db, t).receipt == Some(w.db.receipts[(t, a)])
    ensures IntentFor(plan, CaseFor(w.db, t)).tempPath == TempName(plan, t, a)
    ensures forall name :: Shows(plan, w.files, name, w.db.receipts[(t, a)]) <==>
              name in w.files && |w.files[name]| == |content| && plan.hash(w.files[name]) == plan.hash(content)
  {
  }

  /** Task `t` gets its receipt in the n-th round, and the process dies. */
  lemma NthReceipt(plan: Plan, t: string, n: nat) returns (w: World)
    requires Viable(plan) && Attemptable(plan, t) && 1 <= n <= UINT32_MAX
    ensures var w0, a, content := EmptyWorld(plan), GeneratedAttemptId(plan.id, t, n), CopyModel.Zeros(plan.assets[t].identity.size);
            && At(plan, w0, w) && w.proc.Idle? && w.db.epoch == n && Certified(plan, w, t, a, content)
            && w.files == map[TempName(plan, t, a) := content] && w.sources == w0.sources
    ensures w.db.tasks.Keys == plan.assets.Keys
    ensures forall u :: u in plan.assets ==>
              w.db.tasks[u].attemptCount == n && (u != t ==> w.db.tasks[u].state == Retryable)
  {
    hide Inv, Leads, Next, Materialize, PlanShape, InRound, ReceiptFor;
    var w0, a, content := EmptyWorld(plan), GeneratedAttemptId(plan.id, t, n), CopyModel.Zeros(plan.assets[t].identity.size);
    var w1 := NthRound(plan, n, {t});
    var w2 := Drain(plan, w0, w1, n, {t});
    forall u | u in plan.assets
      ensures u in w2.db.tasks && w2.db.tasks[u].attemptCount == n && (u != t ==> w2.db.tasks[u].state == Retryable)
    {
      KeptIsClaimed(plan, w0, w2, n, {t}, u);
    }
    KeptIsClaimed(plan, w0, w2, n, {t}, t);
    var w3 := ToReceipt(plan, w0, w2, t, a, content);
    MigratingIsWritten(plan, w3);
    w := Crashes(plan, w0, w3);
    RowsOfPlan(plan, w);
  }
}
