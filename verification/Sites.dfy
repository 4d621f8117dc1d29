/** The state the two services work on, with the run it has been through: every database call and file call of
    MigrationAttempt and RecoveryService is one step of the protocol machine. */
module Sites {
  import opened Common
  import opened Tasks
  import opened TaskTables
  import TI = TableInvariants
  import opened Reconciler
  import opened Protocol
  import opened PlanRows
  import opened ProtocolRows
  import opened ProtocolSafety
  import ProtocolRuns
  import Convergence
  import opened QuietResume
  import opened RowEffects

  /** A run with one more step. */
  lemma RunGrows(plan: Plan, trace: seq<World>, labels: seq<Label>, l: Label, w: World)
    requires PlanShape(plan) && IsRun(plan, trace, labels) && Next(plan, trace[|trace| - 1], l) == Some(w)
    ensures IsRun(plan, trace + [w], labels + [l])
  {
    var trace', labels' := trace + [w], labels + [l];
    forall i | 0 <= i < |labels'| ensures Next(plan, trace'[i], labels'[i]) == Some(trace'[i + 1]) {
      if i < |labels| {
        assert labels'[i] == labels[i] && trace'[i] == trace[i] && trace'[i + 1] == trace[i + 1];
      }
    }
  }

  /** The steps from `since` on are those of one resume that began at `start`; all of them are smooth unless it is
      marked rough. */
  ghost predicate Since(plan: Plan, trace: seq<World>, labels: seq<Label>, since: nat, start: World, rough: bool)
    requires |trace| == |labels| + 1
  {
    since > 0 ==>
      && since <= |labels| && labels[since - 1] == ResumeStart && trace[since - 1] == start
      && (!rough ==> forall k {:trigger labels[k]} :: since <= k < |labels| ==> Convergence.Smooth(plan, trace[k], labels[k]))
  }

  lemma UndisturbedBefore(plan: Plan, trace: seq<World>, labels: seq<Label>, l: Label, w: World)
    requires PlanShape(plan) && |trace| == |labels| + 1 && Convergence.UndisturbedRun(plan, trace + [w], labels + [l])
    ensures Convergence.UndisturbedRun(plan, trace, labels)
  {
    var trace', labels' := trace + [w], labels + [l];
    forall i | 0 <= i < |labels| ensures Next(plan, trace[i], labels[i]) == Some(trace[i + 1]) && !labels[i].SourceChanges? {
      assert labels'[i] == labels[i] && trace'[i] == trace[i] && trace'[i + 1] == trace[i + 1];
    }
  }

  lemma SinceFresh(plan: Plan, trace: seq<World>, labels: seq<Label>)
    requires |trace| == |labels| + 1 && |labels| > 0 && labels[|labels| - 1] == ResumeStart
    ensures Since(plan, trace, labels, |labels|, trace[|labels| - 1], false)
  {
  }

  lemma SinceGrows(
    plan: Plan, trace: seq<World>, labels: seq<Label>, since: nat, start: World, rough: bool, l: Label, w: World, smooth: bool)
    requires |trace| == |labels| + 1 && Since(plan, trace, labels, since, start, rough)
    requires smooth ==> Convergence.Smooth(plan, trace[|trace| - 1], l)
    ensures Since(plan, trace + [w], labels + [l], since, start, rough || !smooth)
  {
    var trace', labels' := trace + [w], labels + [l];
    forall k | 0 <= k < |labels| ensures labels'[k] == labels[k] && trace'[k] == trace[k] {
    }
  }

  // ---------------------------------------------------------------- what an error-free call finds

  lemma RecoverSucceeds(plan: Plan, db: Tables, c: Case, verdict: Verdict)
    requires DbInv(plan, true, db) && CaseOk(plan, db, c) && db.epoch <= INT64_MAX
    ensures Recover(db, c.task, db.epoch, c.owner, c.attempt, verdict).Ok?
  {
    assert TI.TaskOk(db, c.task);
    assert TI.AttemptOk(db, c.attempt);
  }

  lemma IntentIsValid(plan: Plan, db: Tables, c: Case)
    requires PlanShape(plan) && DbInv(plan, true, db) && CaseOk(plan, db, c)
    ensures ValidIntent(plan.assets[c.task].spec, RuntimeOf(db, c.task), IntentFor(plan, c))
  {
    assert TI.TaskOk(db, c.task);
    assert TI.AttemptOk(db, c.attempt);
    if c.receipt.Some? {
      assert TI.ReceiptOk(db, (c.task, c.attempt));
    }
  }

  lemma ReceiptFits(plan: Plan, c: Case)
    requires c.task in plan.assets && (c.receipt.Some? ==> MatchesPlan(plan, c))
    ensures ReceiptFitsIntent(IntentFor(plan, c), c.receipt)
  {
  }

  lemma DecideAnswers(spec: TaskSpec, runtime: TaskRuntime, intent: Intent, c: Case, o: ObservedFileState)
    requires ValidIntent(spec, runtime, intent) && ReceiptFitsIntent(intent, c.receipt) && runtime.state == Running
    ensures Decide(spec, runtime, intent, c.receipt, o).Ok?
    ensures StepFor(c, Decide(spec, runtime, intent, c.receipt, o).value).Some?
  {
  }

  /** The decision never fails for a case in hand. */
  lemma DecideSucceeds(plan: Plan, w: World, c: Case, seen: ObservedFileState)
    requires PlanShape(plan) && DbInv(plan, true, w.db) && CaseOk(plan, w.db, c) && (c.receipt.Some? ==> MatchesPlan(plan, c))
    requires w.proc.Resuming?
    ensures DecideNext(plan, w, c, seen).Some?
  {
    IntentIsValid(plan, w.db, c);
    ReceiptFits(plan, c);
    DecideAnswers(plan.assets[c.task].spec, RuntimeOf(w.db, c.task), IntentFor(plan, c), c,
                  ObserveFinal(plan, w.files, IntentFor(plan, c).finalPath, seen));
  }

  /** Why recover_one would not pick up task t. */
  predicate Refused(plan: Plan, db: Tables, t: string) {
    t !in plan.assets || !IsRunning(db, t) || db.tasks[t].owner.None? || db.tasks[t].active.None?
    || !SingleComponent(plan.assets[t].spec.target)
  }

  function PickedStep(plan: Plan, c: Case): RecoverStep
    requires c.task in plan.assets
  {
    if c.receipt.Some? && !MatchesPlan(plan, c) then Settle(c, RecoverInconsistent) else Loaded(c)
  }

  lemma PickMoves(plan: Plan, trace: seq<World>, labels: seq<Label>, w: World, t: string)
    requires PlanShape(plan) && IsRun(plan, trace, labels) && trace[|trace| - 1] == w
    requires w.proc.Resuming? && w.proc.step == Pick && w.proc.todo != [] && w.proc.todo[0] == t
    requires !Refused(plan, w.db, t)
    ensures CaseOk(plan, w.db, CaseFor(w.db, t))
    ensures var next := w.(proc := w.proc.(todo := w.proc.todo[1..], step := PickedStep(plan, CaseFor(w.db, t))));
            IsRun(plan, trace + [next], labels + [ResumePick])
  {
    var next := w.(proc := w.proc.(todo := w.proc.todo[1..], step := PickedStep(plan, CaseFor(w.db, t))));
    RunGrows(plan, trace, labels, ResumePick, next);
  }

  lemma PassMoves(plan: Plan, trace: seq<World>, labels: seq<Label>, w: World)
    requires PlanShape(plan) && IsRun(plan, trace, labels) && trace[|trace| - 1] == w
    requires w.proc.Resuming? && w.proc.step == Pick && w.proc.todo != []
    ensures var next := w.(proc := w.proc.(todo := w.proc.todo[1..]));
            IsRun(plan, trace + [next], labels + [ResumeSkip])
  {
    var next := w.(proc := w.proc.(todo := w.proc.todo[1..]));
    RunGrows(plan, trace, labels, ResumeSkip, next);
  }

  lemma AbandonMoves(plan: Plan, trace: seq<World>, labels: seq<Label>, w: World)
    requires PlanShape(plan) && IsRun(plan, trace, labels) && trace[|trace| - 1] == w
    requires w.proc.Resuming? && w.proc.step != Pick
    ensures IsRun(plan, trace + [SetStep(w, Pick)], labels + [ResumeSkip])
  {
    RunGrows(plan, trace, labels, ResumeSkip, SetStep(w, Pick));
  }

  lemma StopMoves(plan: Plan, trace: seq<World>, labels: seq<Label>, w: World)
    requires PlanShape(plan) && IsRun(plan, trace, labels) && trace[|trace| - 1] == w
    ensures IsRun(plan, trace + [w.(proc := Idle)], labels + [Stop])
  {
    RunGrows(plan, trace, labels, Stop, w.(proc := Idle));
  }

  lemma StartMoves(plan: Plan, trace: seq<World>, labels: seq<Label>, w: World)
    requires PlanShape(plan) && IsRun(plan, trace, labels) && trace[|trace| - 1] == w
    requires w.proc.Idle? && w.materialized && RunningIn(w.db, plan.order) != [] && AcquireEpoch(w.db).Ok?
    ensures var next := w.(db := w.db.(epoch := w.db.epoch + 1), proc := Resuming(w.db.epoch + 1, RunningIn(w.db, plan.order), Pick));
            IsRun(plan, trace + [next], labels + [ResumeStart])
  {
    var next := w.(db := w.db.(epoch := w.db.epoch + 1), proc := Resuming(w.db.epoch + 1, RunningIn(w.db, plan.order), Pick));
    RunGrows(plan, trace, labels, ResumeStart, next);
  }

  lemma SourceMoves(plan: Plan, trace: seq<World>, labels: seq<Label>, w: World, c: Case)
    requires PlanShape(plan) && IsRun(plan, trace, labels) && trace[|trace| - 1] == w
    requires w.proc.Resuming? && w.proc.step == Loaded(c) && c.task in plan.assets && c.task in w.db.tasks
    requires w.rootExists
    ensures var next := SetStep(w, SourceSeen(c, ObserveSource(plan, w.sources, c.task)));
            IsRun(plan, trace + [next], labels + [ResumeSource])
  {
    var next := SetStep(w, SourceSeen(c, ObserveSource(plan, w.sources, c.task)));
    RunGrows(plan, trace, labels, ResumeSource, next);
  }

  lemma TempMoves(plan: Plan, trace: seq<World>, labels: seq<Label>, w: World, c: Case, seen: ObservedFileState)
    requires PlanShape(plan) && IsRun(plan, trace, labels) && trace[|trace| - 1] == w
    requires w.proc.Resuming? && w.proc.step == SourceSeen(c, seen) && c.task in plan.assets && c.task in w.db.tasks
    ensures var next := SetStep(w, TempSeen(c, ObserveTemp(plan, w.files, IntentFor(plan, c).tempPath, seen)));
            IsRun(plan, trace + [next], labels + [ResumeTemp])
  {
    hide IsRun, PlanShape, MigrateNext, WorkerNext, PickNext, StartNext, Shows, TempName, Decide, ObserveFinal;
    var next := SetStep(w, TempSeen(c, ObserveTemp(plan, w.files, IntentFor(plan, c).tempPath, seen)));
    RunGrows(plan, trace, labels, ResumeTemp, next);
  }

  /** The decision as the code makes it, on a look at both files. */
  function Decided(plan: Plan, db: Tables, files: map<string, Bytes>, c: Case, seen: ObservedFileState): Outcome<Action>
    requires c.task in plan.assets && c.task in db.tasks
  {
    Decide(plan.assets[c.task].spec, RuntimeOf(db, c.task), IntentFor(plan, c), c.receipt,
           ObserveFinal(plan, files, IntentFor(plan, c).finalPath, seen))
  }

  lemma FinalMoves(plan: Plan, trace: seq<World>, labels: seq<Label>, w: World, c: Case, seen: ObservedFileState)
    requires PlanShape(plan) && IsRun(plan, trace, labels) && trace[|trace| - 1] == w
    requires w.proc.Resuming? && w.proc.step == TempSeen(c, seen) && c.task in plan.assets && c.task in w.db.tasks
    requires Decided(plan, w.db, w.files, c, seen).Ok? && StepFor(c, Decided(plan, w.db, w.files, c, seen).value).Some?
    ensures var next := SetStep(w, StepFor(c, Decided(plan, w.db, w.files, c, seen).value).value);
            IsRun(plan, trace + [next], labels + [ResumeFinal])
  {
    hide IsRun, PlanShape, MigrateNext, WorkerNext, PickNext, StartNext, Shows, TempName, Decide, ObserveFinal;
    var next := SetStep(w, StepFor(c, Decided(plan, w.db, w.files, c, seen).value).value);
    RunGrows(plan, trace, labels, ResumeFinal, next);
  }

  /** What recover_one is to do, from what the source, the target and the temporary name hold. */
  function ActionDue(plan: Plan, files: map<string, Bytes>, sources: map<string, Source>, c: Case): Action
    requires c.task in plan.assets
  {
    var target, temp := plan.assets[c.task].spec.target, IntentFor(plan, c).tempPath;
    var there := c.task in sources && sources[c.task].Present?;
    if there && sources[c.task].identity != plan.assets[c.task].identity then DeclareInconsistent
    else if c.receipt.None? then if target in files then TargetConflict else RetryTask
    else if Shows(plan, files, target, c.receipt.value) then
      if Shows(plan, files, temp, c.receipt.value) then AdoptFinalAndCleanupTemp else AdoptFinal
    else if target in files then TargetConflict
    else if Shows(plan, files, temp, c.receipt.value) then ResumeCommitFromTemp
    else if temp !in files && there then RetryTask
    else DeclareInconsistent
  }

  /** The decision on a look at the source and both names. */
  lemma DecidedExactly(plan: Plan, db: Tables, files: map<string, Bytes>, sources: map<string, Source>, c: Case)
    requires c.task in plan.assets && c.task in db.tasks && IsRunning(db, c.task)
    requires var seen := ObserveTemp(plan, files, IntentFor(plan, c).tempPath, ObserveSource(plan, sources, c.task));
             Decided(plan, db, files, c, seen).Ok?
    ensures var seen := ObserveTemp(plan, files, IntentFor(plan, c).tempPath, ObserveSource(plan, sources, c.task));
            Decided(plan, db, files, c, seen) == Ok(ActionDue(plan, files, sources, c))
  {
    hide TempName, ValidIntent, ReceiptFitsIntent;
  }

  lemma ConfirmFinalMoves(plan: Plan, trace: seq<World>, labels: seq<Label>, w: World, c: Case, cleanup: bool)
    requires PlanShape(plan) && IsRun(plan, trace, labels) && trace[|trace| - 1] == w
    requires w.proc.Resuming? && w.proc.step == ConfirmFinal(c, cleanup)
    requires c.task in plan.assets && c.task in w.db.tasks && c.receipt.Some?
    ensures var next := SetStep(w,
              if !Shows(plan, w.files, IntentFor(plan, c).finalPath, c.receipt.value) then Settle(c, RecoverRetryable)
              else if cleanup then ConfirmTemp(c) else Settle(c, RecoverSucceeded));
            IsRun(plan, trace + [next], labels + [ResumeConfirmFinal])
  {
    var next := SetStep(w,
              if !Shows(plan, w.files, IntentFor(plan, c).finalPath, c.receipt.value) then Settle(c, RecoverRetryable)
              else if cleanup then ConfirmTemp(c) else Settle(c, RecoverSucceeded));
    RunGrows(plan, trace, labels, ResumeConfirmFinal, next);
  }

  lemma ConfirmTempMoves(plan: Plan, trace: seq<World>, labels: seq<Label>, w: World, c: Case)
    requires PlanShape(plan) && IsRun(plan, trace, labels) && trace[|trace| - 1] == w
    requires w.proc.Resuming? && w.proc.step == ConfirmTemp(c)
    requires c.task in plan.assets && c.task in w.db.tasks && c.receipt.Some?
    ensures var next := SetStep(w,
              if !Shows(plan, w.files, IntentFor(plan, c).tempPath, c.receipt.value) then Settle(c, RecoverRetryable)
              else UnlinkTemp(c));
            IsRun(plan, trace + [next], labels + [ResumeConfirmTemp])
  {
    var next := SetStep(w,
              if !Shows(plan, w.files, IntentFor(plan, c).tempPath, c.receipt.value) then Settle(c, RecoverRetryable)
              else UnlinkTemp(c));
    RunGrows(plan, trace, labels, ResumeConfirmTemp, next);
  }

  lemma UnreadableMoves(plan: Plan, trace: seq<World>, labels: seq<Label>, w: World, c: Case)
    requires PlanShape(plan) && IsRun(plan, trace, labels) && trace[|trace| - 1] == w
    requires w.proc.Resuming? && (w.proc.step.ConfirmFinal? || w.proc.step.ConfirmTemp?) && w.proc.step.c == c
    requires c.task in plan.assets && c.task in w.db.tasks
    ensures var next := SetStep(w, Settle(c, RecoverRetryable));
            IsRun(plan, trace + [next], labels + [ResumeUnreadable])
  {
    var next := SetStep(w, Settle(c, RecoverRetryable));
    RunGrows(plan, trace, labels, ResumeUnreadable, next);
  }

  lemma RecheckMoves(plan: Plan, trace: seq<World>, labels: seq<Label>, w: World, c: Case)
    requires PlanShape(plan) && IsRun(plan, trace, labels) && trace[|trace| - 1] == w
    requires w.proc.Resuming? && w.proc.step == RecheckTemp(c)
    requires c.task in plan.assets && c.task in w.db.tasks && c.receipt.Some? && IntentFor(plan, c).tempPath in w.files
    ensures var next := SetStep(w,
              if !Shows(plan, w.files, IntentFor(plan, c).tempPath, c.receipt.value) then Settle(c, RecoverRetryable)
              else RenameTemp(c));
            IsRun(plan, trace + [next], labels + [ResumeRecheck])
  {
    var next := SetStep(w,
              if !Shows(plan, w.files, IntentFor(plan, c).tempPath, c.receipt.value) then Settle(c, RecoverRetryable)
              else RenameTemp(c));
    RunGrows(plan, trace, labels, ResumeRecheck, next);
  }

  lemma UnlinkMoves(plan: Plan, trace: seq<World>, labels: seq<Label>, w: World, c: Case)
    requires PlanShape(plan) && IsRun(plan, trace, labels) && trace[|trace| - 1] == w
    requires w.proc.Resuming? && w.proc.step == UnlinkTemp(c)
    requires c.task in plan.assets && c.task in w.db.tasks && IntentFor(plan, c).tempPath in w.files
    ensures var next := SetStep(w.(files := w.files - {IntentFor(plan, c).tempPath}), Settle(c, RecoverSucceeded));
            IsRun(plan, trace + [next], labels + [ResumeUnlink])
  {
    hide IsRun, PlanShape, MigrateNext, WorkerNext, PickNext, StartNext, Shows, TempName, DecideNext;
    var next := SetStep(w.(files := w.files - {IntentFor(plan, c).tempPath}), Settle(c, RecoverSucceeded));
    RunGrows(plan, trace, labels, ResumeUnlink, next);
  }

  lemma RenameMoves(plan: Plan, trace: seq<World>, labels: seq<Label>, w: World, c: Case)
    requires PlanShape(plan) && IsRun(plan, trace, labels) && trace[|trace| - 1] == w
    requires w.proc.Resuming? && w.proc.step == RenameTemp(c) && c.task in plan.assets && c.task in w.db.tasks
    requires IntentFor(plan, c).tempPath in w.files && IntentFor(plan, c).finalPath !in w.files
    ensures var temp, final := IntentFor(plan, c).tempPath, IntentFor(plan, c).finalPath;
            var next := SetStep(w.(files := (w.files - {temp})[final := w.files[temp]]), Settle(c, RecoverSucceeded));
            IsRun(plan, trace + [next], labels + [ResumeRename])
  {
    hide IsRun, PlanShape, MigrateNext, WorkerNext, PickNext, StartNext, Shows, TempName, DecideNext;
    var temp, final := IntentFor(plan, c).tempPath, IntentFor(plan, c).finalPath;
    var next := SetStep(w.(files := (w.files - {temp})[final := w.files[temp]]), Settle(c, RecoverSucceeded));
    RunGrows(plan, trace, labels, ResumeRename, next);
  }

  lemma SettleMoves(plan: Plan, trace: seq<World>, labels: seq<Label>, w: World, c: Case, verdict: Verdict)
    requires PlanShape(plan) && IsRun(plan, trace, labels) && trace[|trace| - 1] == w
    requires w.proc.Resuming? && w.proc.step == Settle(c, verdict) && c.task in plan.assets && c.task in w.db.tasks
    requires Recover(w.db, c.task, w.proc.epoch, c.owner, c.attempt, verdict).Ok?
    ensures var next := SetStep(w.(db := Recover(w.db, c.task, w.proc.epoch, c.owner, c.attempt, verdict).value), Pick);
            IsRun(plan, trace + [next], labels + [ResumeSettle])
  {
    hide IsRun, PlanShape, MigrateNext, WorkerNext, PickNext, StartNext, Shows, TempName, DecideNext, Recover;
    var next := SetStep(w.(db := Recover(w.db, c.task, w.proc.epoch, c.owner, c.attempt, verdict).value), Pick);
    RunGrows(plan, trace, labels, ResumeSettle, next);
  }

  lemma SettledRow(db: Tables, c: Case, epoch: nat, verdict: Verdict)
    requires Recover(db, c.task, epoch, c.owner, c.attempt, verdict).Ok?
    ensures var db' := Recover(db, c.task, epoch, c.owner, c.attempt, verdict).value;
            && c.task in db'.tasks && db'.tasks[c.task].state == StateFor(verdict)
            && db'.epoch == db.epoch && db'.tasks.Keys == db.tasks.Keys
            && forall u :: u != c.task && u in db.tasks ==> db'.tasks[u] == db.tasks[u]
  {
  }

  class Site {
    const plan: Plan
    var materialized: bool
    var db: Tables
    var rootExists: bool
    var files: map<string, Bytes>
    var sources: map<string, Source>

    /** The machine's control state and the run so far; the number of steps of it that were taken when the last resume
        had begun, the state it began in, and whether it has met an error. */
    ghost var proc: Proc
    ghost var trace: seq<World>
    ghost var labels: seq<Label>
    ghost var since: nat
    ghost var start: World
    ghost var rough: bool

    ghost function Now(): World
      reads this
    {
      World(materialized, db, rootExists, files, sources, proc)
    }

    ghost predicate Valid()
      reads this
    {
      && PlanShape(plan) && IsRun(plan, trace, labels) && Initial(trace[0]) && trace[|trace| - 1] == Now()
      && Since(plan, trace, labels, since, start, rough)
    }

    /** The state satisfies what is proved of the reachable states of every plan. */
    lemma Reached()
      requires Valid()
      ensures RowInv(plan, Now()) && StepSeen(plan, files, proc)
    {
      RunRows(plan, trace, labels, |trace| - 1);
      ProtocolRuns.RunSeen(plan, trace, labels, |trace| - 1);
    }

    /** Writes down that the state has moved by step `l`. */
    ghost method Record(l: Label, smooth: bool)
      requires PlanShape(plan) && IsRun(plan, trace, labels) && Initial(trace[0])
      requires IsRun(plan, trace + [Now()], labels + [l]) && Since(plan, trace, labels, since, start, rough)
      requires smooth ==> Convergence.Smooth(plan, trace[|trace| - 1], l)
      modifies this`trace, this`labels, this`rough
      ensures Valid() && trace == old(trace) + [Now()] && labels == old(labels) + [l]
      ensures rough == (old(rough) || !smooth)
    {
      hide Next, Convergence.Smooth, Initial;
      SinceGrows(plan, trace, labels, since, start, rough, l, Now(), smooth);
      rough := rough || !smooth;
      trace := trace + [Now()];
      labels := labels + [l];
    }

    // ------------------------------------------------------------ resume

    /** recover_one returns before it has taken up the task. */
    ghost method PassOver()
      requires Valid() && proc.Resuming? && proc.step == Pick && proc.todo != []
      modifies this`proc, this`trace, this`labels, this`rough
      ensures Valid() && proc == old(proc).(todo := old(proc).todo[1..])
      ensures Convergence.IsMulti(plan, old(proc).todo[0]) ==> rough == old(rough)
    {
      PassMoves(plan, trace, labels, Now());
      ghost var multi := Convergence.IsMulti(plan, proc.todo[0]);
      proc := proc.(todo := proc.todo[1..]);
      Record(ResumeSkip, multi);
    }

    /** recover_one returns early. */
    ghost method Abandon()
      requires Valid() && proc.Resuming? && proc.step != Pick
      modifies this`proc, this`trace, this`labels, this`rough
      ensures Valid() && proc == old(proc).(step := Pick)
    {
      AbandonMoves(plan, trace, labels, Now());
      proc := proc.(step := Pick);
      Record(ResumeSkip, false);
    }

    /** The machine takes the step `l` that only moves the control state. */
    ghost method Advance(l: Label, step: RecoverStep)
      requires Valid() && proc.Resuming? && IsRun(plan, trace + [SetStep(Now(), step)], labels + [l])
      requires IsLook(l) || l.ResumeFinal?
      modifies this`proc, this`trace, this`labels, this`rough
      ensures Valid() && proc == old(proc).(step := step)
      ensures !l.ResumeUnreadable? ==> rough == old(rough)
    {
      hide IsRun, Initial;
      proc := proc.(step := step);
      Record(l, !l.ResumeUnreadable?);
    }

    /** What the two reads of recover_one find for a RUNNING task. */
    lemma ReadsHere(t: string)
      requires Valid() && IsRunning(db, t)
      ensures db.tasks[t].owner.Some? && db.tasks[t].active.Some?
      ensures ReadRuntime(db, t).Ok? && ReadRuntime(db, t).value.ownerEpoch != 0
      ensures ReadRuntime(db, t).value.attempt == db.tasks[t].active
      ensures var read := ReadReceipt(db, t, db.tasks[t].active.value);
              if (t, db.tasks[t].active.value) in db.receipts then read == Ok(db.receipts[(t, db.tasks[t].active.value)])
              else read == Err(NotFound)
    {
      Reached();
      assert TI.TaskOk(db, t);
      assert TI.AttemptOk(db, db.tasks[t].active.value);
    }

    /** ReadRuntime, the path check and ReadVerifiedReceipt. */
    method ReadCase(t: string) returns (c: Option<Case>, ghost faulted: bool)
      requires Valid() && proc.Resuming? && proc.step == Pick && proc.todo != [] && proc.todo[0] == t && t in plan.assets
      modifies this`proc, this`trace, this`labels, this`rough
      ensures Valid() && proc.Resuming? && proc.epoch == old(proc).epoch && proc.todo == old(proc).todo[1..]
      ensures c.None? ==> proc.step == Pick
      ensures c.None? && !faulted ==> IsRunning(db, t) ==> Convergence.IsMulti(plan, t)
      ensures c.None? && !faulted && Convergence.IsMulti(plan, t) ==> rough == old(rough)
      ensures c.Some? ==> !faulted && rough == old(rough) && c.value.task == t && CaseOk(plan, db, c.value)
                          && proc.step == PickedStep(plan, c.value)
    {
      var broken: bool := *;
      var runtime := ReadRuntime(db, t);
      faulted := broken;
      if IsRunning(db, t) {
        ReadsHere(t);
      }
      if broken || runtime.Err? || runtime.value.state != Running || runtime.value.attempt.None?
         || runtime.value.ownerEpoch == 0 || !SingleComponent(plan.assets[t].spec.target) {
        PassOver();
        return None, faulted;
      }
      var read := ReadReceipt(db, t, runtime.value.attempt.value);
      c := Some(Case(t, runtime.value.attempt.value, runtime.value.ownerEpoch, if read.Ok? then Some(read.value) else None));
      TakeUp(t);
    }

    ghost method TakeUp(t: string)
      requires Valid() && proc.Resuming? && proc.step == Pick && proc.todo != [] && proc.todo[0] == t && !Refused(plan, db, t)
      modifies this`proc, this`trace, this`labels, this`rough
      ensures Valid() && rough == old(rough) && CaseOk(plan, db, CaseFor(db, t))
      ensures proc == old(proc).(todo := old(proc).todo[1..], step := PickedStep(plan, CaseFor(db, t)))
    {
      PickMoves(plan, trace, labels, Now(), t);
      proc := proc.(todo := proc.todo[1..], step := PickedStep(plan, CaseFor(db, t)));
      Record(ResumePick, true);
    }

    /** The source guard and the observation of both files, then the decision. */
    method Observe(c: Case) returns (action: Option<Action>, ghost faulted: bool)
      requires Valid() && proc.Resuming? && proc.step == Loaded(c) && CaseOk(plan, db, c) && (c.receipt.Some? ==> MatchesPlan(plan, c))
      modifies this`proc, this`trace, this`labels, this`rough
      ensures Valid() && proc.Resuming? && proc.epoch == old(proc).epoch && proc.todo == old(proc).todo
      ensures action.None? ==> faulted && proc.step == Pick
      ensures action.Some? ==> !faulted && rough == old(rough) && Some(proc.step) == StepFor(c, action.value)
      ensures action.Some? ==> action.value == ActionDue(plan, files, sources, c)
    {
      hide IsRun, Initial, Since;
      var broken: bool := *;
      faulted := broken || !rootExists;
      if broken || !rootExists {
        Abandon();
        return None, true;
      }
      var source := ObserveSource(plan, sources, c.task);
      var seen := ObserveTemp(plan, files, IntentFor(plan, c).tempPath, source);
      LookAtBoth(c);
      action, faulted := DecideHere(c, seen);
      if action.Some? {
        DecidedExactly(plan, db, files, sources, c);
      }
    }

    ghost method LookAtSource(c: Case)
      requires Valid() && Working(c) && proc.step == Loaded(c) && rootExists
      modifies this`proc, this`trace, this`labels, this`rough
      ensures Valid() && OnlyLooked() && proc.step == SourceSeen(c, ObserveSource(plan, sources, c.task))
    {
      SourceMoves(plan, trace, labels, Now(), c);
      Advance(ResumeSource, SourceSeen(c, ObserveSource(plan, sources, c.task)));
    }

    ghost method LookAtTemp(c: Case, seen: ObservedFileState)
      requires Valid() && Working(c) && proc.step == SourceSeen(c, seen)
      modifies this`proc, this`trace, this`labels, this`rough
      ensures Valid() && OnlyLooked() && proc.step == TempSeen(c, ObserveTemp(plan, files, IntentFor(plan, c).tempPath, seen))
    {
      TempMoves(plan, trace, labels, Now(), c, seen);
      Advance(ResumeTemp, TempSeen(c, ObserveTemp(plan, files, IntentFor(plan, c).tempPath, seen)));
    }

    ghost method LookAtBoth(c: Case)
      requires Valid() && Working(c) && proc.step == Loaded(c) && rootExists
      modifies this`proc, this`trace, this`labels, this`rough
      ensures Valid() && OnlyLooked()
      ensures proc.step == TempSeen(c, ObserveTemp(plan, files, IntentFor(plan, c).tempPath, ObserveSource(plan, sources, c.task)))
    {
      LookAtSource(c);
      LookAtTemp(c, ObserveSource(plan, sources, c.task));
    }

    lemma DecidableHere(c: Case, seen: ObservedFileState)
      requires Valid() && proc.Resuming? && CaseOk(plan, db, c) && (c.receipt.Some? ==> MatchesPlan(plan, c))
      ensures Decided(plan, db, files, c, seen).Ok? && StepFor(c, Decided(plan, db, files, c, seen).value).Some?
    {
      Reached();
      DecideSucceeds(plan, Now(), c, seen);
    }

    method DecideHere(c: Case, seen: ObservedFileState) returns (action: Option<Action>, ghost faulted: bool)
      requires Valid() && proc.Resuming? && proc.step == TempSeen(c, seen) && CaseOk(plan, db, c)
      requires c.receipt.Some? ==> MatchesPlan(plan, c)
      modifies this`proc, this`trace, this`labels, this`rough
      ensures Valid() && proc.Resuming? && proc.epoch == old(proc).epoch && proc.todo == old(proc).todo
      ensures action.None? ==> faulted && proc.step == Pick
      ensures action.Some? ==> !faulted && rough == old(rough) && Some(proc.step) == StepFor(c, action.value)
      ensures action.Some? ==> Decided(plan, db, files, c, seen) == Ok(action.value)
    {
      var broken: bool := *;
      faulted := broken;
      if broken {
        Abandon();
        return None, true;
      }
      DecidableHere(c, seen);
      var decision := Decided(plan, db, files, c, seen);
      FinalMoves(plan, trace, labels, Now(), c, seen);
      Advance(ResumeFinal, StepFor(c, decision.value).value);
      action := Some(decision.value);
    }

    ghost predicate Working(c: Case)
      reads this
    {
      proc.Resuming? && c.task in plan.assets && c.task in db.tasks && CaseOk(plan, db, c)
    }

    /** Everything but the control state and the run is as before. */
    twostate predicate OnlyLooked()
      reads this
    {
      && proc.Resuming? && old(proc).Resuming? && proc.epoch == old(proc).epoch && proc.todo == old(proc).todo
      && db == old(db) && files == old(files) && rough == old(rough)
    }

    /** The final file is read again; an unreadable file counts as changed. */
    method ConfirmFinalFile(c: Case, cleanup: bool) returns (confirmed: bool, ghost faulted: bool)
      requires Valid() && Working(c) && proc.step == ConfirmFinal(c, cleanup) && c.receipt.Some?
      modifies this`proc, this`trace, this`labels, this`rough
      ensures Valid() && proc.Resuming? && proc.epoch == old(proc).epoch && proc.todo == old(proc).todo
      ensures !confirmed ==> proc.step == Settle(c, RecoverRetryable)
      ensures confirmed ==> Shows(plan, files, IntentFor(plan, c).finalPath, c.receipt.value)
      ensures !faulted && Shows(plan, files, IntentFor(plan, c).finalPath, c.receipt.value) ==> confirmed
      ensures confirmed ==> proc.step == if cleanup then ConfirmTemp(c) else Settle(c, RecoverSucceeded)
      ensures !faulted ==> rough == old(rough)
    {
      var broken: bool := *;
      faulted := broken;
      confirmed := !broken && Shows(plan, files, IntentFor(plan, c).finalPath, c.receipt.value);
      if broken {
        UnreadableMoves(plan, trace, labels, Now(), c);
        Advance(ResumeUnreadable, Settle(c, RecoverRetryable));
      } else {
        ConfirmFinalMoves(plan, trace, labels, Now(), c, cleanup);
        Advance(ResumeConfirmFinal,
          if !Shows(plan, files, IntentFor(plan, c).finalPath, c.receipt.value) then Settle(c, RecoverRetryable)
          else if cleanup then ConfirmTemp(c) else Settle(c, RecoverSucceeded));
      }
    }

    method ConfirmTempFile(c: Case) returns (confirmed: bool, ghost faulted: bool)
      requires Valid() && Working(c) && proc.step == ConfirmTemp(c) && c.receipt.Some?
      modifies this`proc, this`trace, this`labels, this`rough
      ensures Valid() && proc.Resuming? && proc.epoch == old(proc).epoch && proc.todo == old(proc).todo
      ensures !confirmed ==> proc.step == Settle(c, RecoverRetryable)
      ensures confirmed ==> Shows(plan, files, IntentFor(plan, c).tempPath, c.receipt.value) && proc.step == UnlinkTemp(c)
      ensures !faulted && Shows(plan, files, IntentFor(plan, c).tempPath, c.receipt.value) ==> confirmed
      ensures !faulted ==> rough == old(rough)
    {
      var broken: bool := *;
      faulted := broken;
      confirmed := !broken && Shows(plan, files, IntentFor(plan, c).tempPath, c.receipt.value);
      if broken {
        UnreadableMoves(plan, trace, labels, Now(), c);
        Advance(ResumeUnreadable, Settle(c, RecoverRetryable));
      } else {
        ConfirmTempMoves(plan, trace, labels, Now(), c);
        Advance(ResumeConfirmTemp,
          if !Shows(plan, files, IntentFor(plan, c).tempPath, c.receipt.value) then Settle(c, RecoverRetryable) else UnlinkTemp(c));
      }
    }

    /** unlinkat and the directory sync; on an error of either recover_one returns. */
    method UnlinkTempFile(c: Case) returns (done: bool, ghost faulted: bool)
      requires Valid() && Working(c) && proc.step == UnlinkTemp(c) && IntentFor(plan, c).tempPath in files
      modifies this`proc, this`trace, this`labels, this`rough, this`files
      ensures done <==> !faulted
      ensures Valid() && proc.Resuming? && proc.epoch == old(proc).epoch && proc.todo == old(proc).todo
      ensures faulted ==> proc.step == Pick
      ensures !faulted ==> rough == old(rough) && proc.step == Settle(c, RecoverSucceeded)
      ensures !faulted ==> files == old(files) - {IntentFor(plan, c).tempPath}
    {
      var broken, unsynced: bool := *, *;
      faulted := broken || unsynced;
      done := !broken && !unsynced;
      if !broken {
        RemoveTemp(c);
      }
      if broken || unsynced {
        Abandon();
      }
    }

    method RemoveTemp(c: Case)
      requires Valid() && Working(c) && proc.step == UnlinkTemp(c) && IntentFor(plan, c).tempPath in files
      modifies this`proc, this`trace, this`labels, this`rough, this`files
      ensures Valid() && proc == old(proc).(step := Settle(c, RecoverSucceeded)) && rough == old(rough)
      ensures files == old(files) - {IntentFor(plan, c).tempPath}
    {
      UnlinkMoves(plan, trace, labels, Now(), c);
      files := files - {IntentFor(plan, c).tempPath};
      proc := proc.(step := Settle(c, RecoverSucceeded));
      Record(ResumeUnlink, true);
    }

    /** The temporary file is verified once more before it is published. */
    method RecheckTempFile(c: Case) returns (same: Option<bool>, ghost faulted: bool)
      requires Valid() && Working(c) && proc.step == RecheckTemp(c) && IntentFor(plan, c).tempPath in files && c.receipt.Some?
      modifies this`proc, this`trace, this`labels, this`rough
      ensures same.None? <==> faulted
      ensures same.Some? ==> same.value == Shows(plan, files, IntentFor(plan, c).tempPath, c.receipt.value)
      ensures Valid() && proc.Resuming? && proc.epoch == old(proc).epoch && proc.todo == old(proc).todo
      ensures faulted ==> proc.step == Pick
      ensures !faulted ==>
                && OnlyLooked()
                && proc.step == if !Shows(plan, files, IntentFor(plan, c).tempPath, c.receipt.value) then Settle(c, RecoverRetryable)
                                else RenameTemp(c)
    {
      var broken: bool := *;
      faulted := broken;
      same := if broken then None else Some(Shows(plan, files, IntentFor(plan, c).tempPath, c.receipt.value));
      if broken {
        Abandon();
      } else {
        RecheckMoves(plan, trace, labels, Now(), c);
        Advance(ResumeRecheck,
          if !Shows(plan, files, IntentFor(plan, c).tempPath, c.receipt.value) then Settle(c, RecoverRetryable) else RenameTemp(c));
      }
    }

    /** renameat2 with RENAME_NOREPLACE and the directory sync; on an error of either recover_one returns. */
    method RenameTempFile(c: Case) returns (done: bool, ghost faulted: bool)
      requires Valid() && Working(c) && proc.step == RenameTemp(c)
      requires IntentFor(plan, c).tempPath in files && IntentFor(plan, c).finalPath !in files
      modifies this`proc, this`trace, this`labels, this`rough, this`files
      ensures done <==> !faulted
      ensures Valid() && proc.Resuming? && proc.epoch == old(proc).epoch && proc.todo == old(proc).todo
      ensures faulted ==> proc.step == Pick
      ensures !faulted ==> rough == old(rough) && proc.step == Settle(c, RecoverSucceeded)
      ensures !faulted ==> files == (old(files) - {IntentFor(plan, c).tempPath})[
                  IntentFor(plan, c).finalPath := old(files)[IntentFor(plan, c).tempPath]]
    {
      var broken, unsynced: bool := *, *;
      faulted := broken || unsynced;
      done := !broken && !unsynced;
      if !broken {
        MoveTemp(c);
      }
      if broken || unsynced {
        Abandon();
      }
    }

    method MoveTemp(c: Case)
      requires Valid() && Working(c) && proc.step == RenameTemp(c)
      requires IntentFor(plan, c).tempPath in files && IntentFor(plan, c).finalPath !in files
      modifies this`proc, this`trace, this`labels, this`rough, this`files
      ensures Valid() && proc == old(proc).(step := Settle(c, RecoverSucceeded)) && rough == old(rough)
      ensures files == (old(files) - {IntentFor(plan, c).tempPath})[
                IntentFor(plan, c).finalPath := old(files)[IntentFor(plan, c).tempPath]]
    {
      RenameMoves(plan, trace, labels, Now(), c);
      var temp, final := IntentFor(plan, c).tempPath, IntentFor(plan, c).finalPath;
      files := (files - {temp})[final := files[temp]];
      proc := proc.(step := Settle(c, RecoverSucceeded));
      Record(ResumeRename, true);
    }

    lemma RecoverableHere(c: Case, verdict: Verdict)
      requires Valid() && Working(c) && db.epoch <= INT64_MAX
      ensures db.epoch == proc.epoch && Recover(db, c.task, proc.epoch, c.owner, c.attempt, verdict).Ok?
    {
      Reached();
      RecoverSucceeds(plan, db, c, verdict);
    }

    /** A task is only ever settled as SUCCEEDED while its target shows the receipt, unless the target is its own temporary
        file. */
    lemma ShownHere(c: Case, verdict: Verdict)
      requires Valid() && Working(c) && proc.step == Settle(c, verdict)
      ensures verdict == RecoverSucceeded ==> c.receipt.Some? && (OwnClash(plan, c) || TargetShown(plan, files, c))
    {
      hide DbInv, IsRun, TargetShown, OwnClash;
      Reached();
    }

    /** RecoverSucceeded, RecoverRetryable or RecoverInconsistent. */
    method SettleCase(c: Case, verdict: Verdict, epoch: nat) returns (done: bool, ghost faulted: bool)
      requires Valid() && Working(c) && proc.step == Settle(c, verdict) && db.epoch <= INT64_MAX && epoch == proc.epoch
      modifies this`proc, this`trace, this`labels, this`rough, this`db
      ensures done <==> !faulted
      ensures Valid() && proc == old(proc).(step := Pick) && db.epoch == old(db).epoch && db.tasks.Keys == old(db).tasks.Keys
      ensures forall u :: u != c.task && u in old(db).tasks ==> db.tasks[u] == old(db).tasks[u]
      ensures faulted ==> db == old(db)
      ensures !faulted ==> rough == old(rough) && c.task in db.tasks && db.tasks[c.task].state == StateFor(verdict)
      ensures !faulted ==> Did(old(db), OpRecover(c.task, epoch, c.owner, c.attempt, verdict), db)
      ensures verdict == RecoverSucceeded ==> c.receipt.Some? && (OwnClash(plan, c) || TargetShown(plan, files, c))
    {
      hide IsRun, Initial, Since, PlanShape, TempName, OwnClash, TargetShown, Recover, Did, TI.Inv;
      ShownHere(c, verdict);
      var broken: bool := *;
      faulted := broken;
      done := !broken;
      if broken {
        Abandon();
      } else {
        RecoverableHere(c, verdict);
        SettledRow(db, c, epoch, verdict);
        ApplyExactly(db, OpRecover(c.task, epoch, c.owner, c.attempt, verdict));
        WriteVerdict(c, verdict, epoch);
      }
    }

    method WriteVerdict(c: Case, verdict: Verdict, epoch: nat)
      requires Valid() && Working(c) && proc.step == Settle(c, verdict) && epoch == proc.epoch
      requires Recover(db, c.task, epoch, c.owner, c.attempt, verdict).Ok?
      modifies this`proc, this`trace, this`labels, this`rough, this`db
      ensures Valid() && proc == old(proc).(step := Pick) && rough == old(rough)
      ensures db == Recover(old(db), c.task, epoch, c.owner, c.attempt, verdict).value
    {
      SettleMoves(plan, trace, labels, Now(), c, verdict);
      db := Recover(db, c.task, epoch, c.owner, c.attempt, verdict).value;
      proc := proc.(step := Pick);
      Record(ResumeSettle, true);
    }

    /** The lock is held and the list is made: a newer epoch begins the resume. */
    method BeginResume(todo: seq<string>) returns (epoch: Option<nat>, ghost faulted: bool)
      requires Valid() && proc.Idle? && materialized && todo == RunningIn(db, plan.order) && todo != []
      modifies this`proc, this`trace, this`labels, this`rough, this`db, this`since, this`start
      ensures Valid()
      ensures epoch.None? ==> proc.Idle? && db == old(db) && (!faulted ==> db.epoch >= INT64_MAX)
      ensures epoch.Some? ==>
                && !faulted && proc == Resuming(epoch.value, todo, Pick) && db == old(db).(epoch := epoch.value)
                && epoch.value <= INT64_MAX && !rough && since == |labels| && start == old(Now())
    {
      var broken: bool := *;
      faulted := broken;
      if broken || AcquireEpoch(db).Err? {
        return None, faulted;
      }
      ghost var steps := |labels|;
      TakeEpoch(todo);
      MarkStart(steps);
      return Some(db.epoch), false;
    }

    method TakeEpoch(todo: seq<string>)
      requires Valid() && proc.Idle? && materialized && todo == RunningIn(db, plan.order) && todo != [] && AcquireEpoch(db).Ok?
      modifies this`proc, this`trace, this`labels, this`rough, this`db
      ensures Valid() && db == old(db).(epoch := old(db).epoch + 1) && proc == Resuming(db.epoch, todo, Pick)
      ensures trace == old(trace) + [Now()] && labels == old(labels) + [ResumeStart]
    {
      StartMoves(plan, trace, labels, Now());
      db := AcquireEpoch(db).value;
      proc := Resuming(db.epoch, todo, Pick);
      Record(ResumeStart, false);
    }

    ghost method MarkStart(steps: nat)
      requires Valid() && |labels| == steps + 1 && labels[steps] == ResumeStart
      modifies this`rough, this`since, this`start
      ensures Valid() && !rough && since == |labels| && start == trace[steps]
    {
      SinceFresh(plan, trace, labels);
      rough, since, start := false, |labels|, trace[steps];
    }

    /** The end of a resume that met no error, in an undisturbed run. */
    lemma Promise(t: string)
      requires Valid() && proc.Resuming? && proc.todo == [] && proc.step == Pick && !rough && since > 0
      requires Convergence.UndisturbedRun(plan, trace, labels) && IsRunning(start.db, t)
      ensures t in plan.assets && t in db.tasks
      ensures !Convergence.IsMulti(plan, t) ==> db.tasks[t].state == Convergence.Promised(plan, start.db, start.files, t)
    {
      Convergence.ResumeConverges(plan, trace, labels, since - 1, |labels|, t);
    }

    /** The service returns and the lock is released; a crash looks the same. */
    ghost method Leave()
      requires Valid()
      modifies this`proc, this`trace, this`labels, this`rough
      ensures Valid() && proc == Idle
      ensures trace == old(trace) + [Now()] && labels == old(labels) + [Stop]
    {
      StopMoves(plan, trace, labels, Now());
      proc := Idle;
      Record(Stop, false);
    }
  }
}
