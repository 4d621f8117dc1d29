/** The rows in every run. Which rows a run can reach is decided without a look at the files: each step of `migrate` and of
    `resume`, and every crash, keeps the shape of the rows and the fit between rows and process, and every change of a
    row is an edge of its transition table, whatever the plan calls its targets. */
module ProtocolRows {
  import opened Common
  import opened Tasks
  import opened TaskTables
  import TI = TableInvariants
  import opened Reconciler
  import opened TempNames
  import opened Protocol
  import opened PlanRows

  // ---------------------------------------------------------------- invariant

  predicate PcFits(pc: WorkerPc, state: AttemptState) {
    match pc
    case Queued => state == AttemptRunning
    case Opened => state == AttemptRunning
    case IntentMarked => state == CommitIntent
    case Copying => state == CommitIntent
    case Copied(_, _) => state == CommitIntent
    case TempMarked(_, _) => state == TempWritten
    case Checked(_, _) => state == TempWritten
    case Failing(_) => state in {AttemptRunning, CommitIntent, TempWritten}
  }

  /** The worker owns its task, and its attempt is where the worker is. */
  ghost predicate WorkerOk(plan: Plan, db: Tables, epoch: nat, t: string, worker: Worker) {
    && t in plan.assets
    && Ownership(db, t, epoch, worker.attempt).Ok? && HasAttempt(db, t, epoch, worker.attempt)
    && PcFits(worker.pc, db.attempts[worker.attempt].state)
    && (!worker.pc.Queued? && !worker.pc.Opened? && !worker.pc.Failing? ==> SingleComponent(plan.assets[t].spec.target))
  }

  ghost predicate WorkersOk(plan: Plan, db: Tables, epoch: nat, workers: map<string, Worker>) {
    forall t {:trigger WorkerOk(plan, db, epoch, t, workers[t])} :: t in workers ==> WorkerOk(plan, db, epoch, t, workers[t])
  }

  /** What recover_one knows from the rows at each of its steps. */
  ghost predicate StepOk(plan: Plan, db: Tables, step: RecoverStep) {
    match step
    case Pick => true
    case Loaded(c) => CaseOk(plan, db, c) && (c.receipt.Some? ==> MatchesPlan(plan, c))
    case SourceSeen(c, _) => CaseOk(plan, db, c) && (c.receipt.Some? ==> MatchesPlan(plan, c))
    case TempSeen(c, _) => CaseOk(plan, db, c) && (c.receipt.Some? ==> MatchesPlan(plan, c))
    case ConfirmFinal(c, _) => CaseProven(plan, db, c)
    case ConfirmTemp(c) => CaseProven(plan, db, c)
    case UnlinkTemp(c) => CaseProven(plan, db, c)
    case RecheckTemp(c) => CaseProven(plan, db, c)
    case RenameTemp(c) => CaseProven(plan, db, c)
    case Settle(c, v) => CaseOk(plan, db, c) && (v == RecoverSucceeded ==> CaseProven(plan, db, c))
  }

  ghost predicate ProcOk(plan: Plan, db: Tables, proc: Proc) {
    match proc
    case Idle => true
    case MigrateStarting => true
    case MigrateReadying => NoneRunning(db)
    case Migrating(epoch, workers) => epoch == db.epoch && WorkersOk(plan, db, epoch, workers)
    case Resuming(epoch, _, step) => epoch == db.epoch && StepOk(plan, db, step)
  }

  ghost predicate RowInv(plan: Plan, w: World) {
    && DbInv(plan, w.materialized, w.db)
    && (!w.materialized ==> w.proc.Idle? || w.proc.MigrateStarting?)
    && ProcOk(plan, w.db, w.proc)
  }

  /** The rows after a step that commits nothing. */
  ghost predicate RowsMove(plan: Plan, w: World, w': World) {
    RowInv(plan, w') && NoNewCommit(w.db, w'.db)
  }

  // ---------------------------------------------------------------- workers

  lemma WorkerFrame(plan: Plan, db: Tables, db': Tables, epoch: nat, t: string, a: string, u: string, worker: Worker)
    requires OnlyTouches(db, db', t, a) && u != t && WorkerOk(plan, db, epoch, u, worker)
    ensures WorkerOk(plan, db', epoch, u, worker)
  {
  }

  lemma WorkersFrame(plan: Plan, db: Tables, db': Tables, epoch: nat, t: string, a: string, workers: map<string, Worker>)
    requires OnlyTouches(db, db', t, a) && WorkersOk(plan, db, epoch, workers)
    ensures WorkersOk(plan, db', epoch, workers - {t})
  {
    var rest := workers - {t};
    forall u | u in rest ensures WorkerOk(plan, db', epoch, u, rest[u]) {
      assert WorkerOk(plan, db, epoch, u, workers[u]);
      WorkerFrame(plan, db, db', epoch, t, a, u, workers[u]);
    }
  }

  /** Workers other than `t` are as in `rest`, and `t` fits if it is there. */
  lemma WorkersMerge(plan: Plan, db: Tables, epoch: nat, t: string, rest: map<string, Worker>, workers: map<string, Worker>)
    requires WorkersOk(plan, db, epoch, rest) && workers - {t} == rest - {t}
    requires t in workers ==> WorkerOk(plan, db, epoch, t, workers[t])
    ensures WorkersOk(plan, db, epoch, workers)
  {
    forall u | u in workers ensures WorkerOk(plan, db, epoch, u, workers[u]) {
      if u != t {
        assert u in workers - {t} && (workers - {t})[u] == workers[u];
        assert WorkerOk(plan, db, epoch, u, rest[u]);
      }
    }
  }

  lemma WorkerFits(plan: Plan, w: World, t: string)
    requires RowInv(plan, w) && w.proc.Migrating? && t in w.proc.workers
    ensures w.materialized && DbInv(plan, true, w.db) && w.proc.epoch == w.db.epoch
    ensures WorkerOk(plan, w.db, w.proc.epoch, t, w.proc.workers[t])
  {
  }

  /** A step that leaves the rows alone and moves or drops one worker. */
  lemma MoveWorker(plan: Plan, w: World, w': World, t: string)
    requires RowInv(plan, w) && w.proc.Migrating? && w'.proc.Migrating?
    requires w'.db == w.db && w'.materialized == w.materialized && w'.proc.epoch == w.proc.epoch
    requires w'.proc.workers - {t} == w.proc.workers - {t}
    requires t in w'.proc.workers ==> WorkerOk(plan, w.db, w.proc.epoch, t, w'.proc.workers[t])
    ensures RowsMove(plan, w, w')
  {
    SameRows(plan, w.db);
    WorkersMerge(plan, w.db, w.proc.epoch, t, w.proc.workers, w'.proc.workers);
  }

  lemma WorkerFileForm(plan: Plan, w: World, t: string, l: Label, w': World)
    requires IsWorkerLabel(l) && !IsRowLabel(l)
    requires w.proc.Migrating? && t in w.proc.workers && t in plan.assets && WorkerFileNext(plan, w, t, l) == Some(w')
    requires WorkerOk(plan, w.db, w.proc.epoch, t, w.proc.workers[t])
    ensures w'.proc.Migrating? && w'.proc.epoch == w.proc.epoch && w'.db == w.db && w'.materialized == w.materialized
    ensures t in w'.proc.workers ==> WorkerOk(plan, w.db, w.proc.epoch, t, w'.proc.workers[t])
    ensures w'.proc.workers - {t} == w.proc.workers - {t}
  {
    hide Ownership, TempName;
  }

  lemma WorkerFileRows(plan: Plan, w: World, t: string, l: Label, w': World)
    requires RowInv(plan, w) && IsWorkerLabel(l) && !IsRowLabel(l)
    requires w.proc.Migrating? && t in w.proc.workers && t in plan.assets && WorkerFileNext(plan, w, t, l) == Some(w')
    ensures RowsMove(plan, w, w')
  {
    hide RowInv, RowsMove, DbInv, WorkerFileNext, WorkerOk;
    WorkerFits(plan, w, t);
    WorkerFileForm(plan, w, t, l, w');
    MoveWorker(plan, w, w', t);
  }

  /** A transaction on task `t` after which either `t` has no worker or its worker still fits the rows. */
  lemma RowStepRows(plan: Plan, w: World, db': Tables, t: string, a: string, workers': map<string, Worker>)
    requires RowInv(plan, w) && w.proc.Migrating? && RowStep(plan, w.db, db', t, a)
    requires workers' - {t} == w.proc.workers - {t}
    requires t in workers' ==> WorkerOk(plan, db', w.proc.epoch, t, workers'[t])
    ensures RowsMove(plan, w, w.(db := db', proc := w.proc.(workers := workers')))
  {
    hide TI.Inv, DbShape, NoNewCommit, WorkerOk;
    WorkersFrame(plan, w.db, db', w.proc.epoch, t, a, w.proc.workers);
    WorkersMerge(plan, db', w.proc.epoch, t, w.proc.workers - {t}, workers');
  }

  lemma AdvanceStep(plan: Plan, w: World, t: string, next: AttemptState, pc: WorkerPc)
    requires RowInv(plan, w) && w.proc.Migrating? && t in w.proc.workers && next in {CommitIntent, TempWritten} && PcFits(pc, next)
    requires t in plan.assets && SingleComponent(plan.assets[t].spec.target)
    requires Advance(w.db, t, w.proc.epoch, w.proc.workers[t].attempt, next).Ok?
    ensures RowsMove(plan, w, SetPc(w.(db := Advance(w.db, t, w.proc.epoch, w.proc.workers[t].attempt, next).value), t, pc))
  {
    hide RowInv, RowsMove, TI.Inv, DbShape;
    var a, e := w.proc.workers[t].attempt, w.proc.epoch;
    WorkerFits(plan, w, t);
    AdvanceDb(plan, w.db, t, e, a, next);
    AdvanceTouches(w.db, t, e, a, next);
    RowStepRows(plan, w, Advance(w.db, t, e, a, next).value, t, a, w.proc.workers[t := w.proc.workers[t].(pc := pc)]);
  }

  lemma DropStep(plan: Plan, w: World, db': Tables, t: string)
    requires RowInv(plan, w) && w.proc.Migrating? && t in w.proc.workers && RowStep(plan, w.db, db', t, w.proc.workers[t].attempt)
    ensures RowsMove(plan, w, DropWorker(w.(db := db'), t))
  {
    RowStepRows(plan, w, db', t, w.proc.workers[t].attempt, w.proc.workers - {t});
  }

  lemma ReceiptStep(plan: Plan, w: World, t: string, size: nat, digest: Digest)
    requires RowInv(plan, w) && w.proc.Migrating? && t in w.proc.workers && t in plan.assets && w.proc.workers[t].pc.Checked?
    requires PersistReceipt(w.db, ReceiptFor(plan, t, w.proc.workers[t].attempt, w.proc.epoch, size, digest)).Ok?
    ensures RowsMove(plan, w, DropWorker(w.(db := PersistReceipt(w.db,
              ReceiptFor(plan, t, w.proc.workers[t].attempt, w.proc.epoch, size, digest)).value), t))
  {
    var a, e := w.proc.workers[t].attempt, w.proc.epoch;
    hide RowInv, RowsMove, DbInv, RowStep, PersistReceipt;
    WorkerFits(plan, w, t);
    ReceiptDb(plan, w.db, t, e, a, size, digest);
    DropStep(plan, w, PersistReceipt(w.db, ReceiptFor(plan, t, a, e, size, digest)).value, t);
  }

  lemma RetryStep(plan: Plan, w: World, t: string, code: Code)
    requires RowInv(plan, w) && w.proc.Migrating? && t in w.proc.workers
    requires Finish(w.db, t, w.proc.epoch, w.proc.workers[t].attempt, Some(code)).Ok?
    ensures RowsMove(plan, w, DropWorker(w.(db := Finish(w.db, t, w.proc.epoch, w.proc.workers[t].attempt, Some(code)).value), t))
  {
    var a, e := w.proc.workers[t].attempt, w.proc.epoch;
    hide RowInv, RowsMove, DbInv, RowStep, Release;
    WorkerFits(plan, w, t);
    ReleaseDb(plan, w.db, t, e, a, Retryable, AttemptRetryable, Some(code));
    DropStep(plan, w, Release(w.db, t, e, a, Retryable, AttemptRetryable, Some(code)).value, t);
  }

  lemma WorkerRowRows(plan: Plan, w: World, t: string, l: Label, w': World)
    requires RowInv(plan, w) && IsRowLabel(l)
    requires w.proc.Migrating? && t in w.proc.workers && t in plan.assets && WorkerRowNext(plan, w, t, l) == Some(w')
    ensures RowsMove(plan, w, w')
  {
    hide RowInv, RowsMove, DbInv, Advance, PersistReceipt, Release;
    WorkerFits(plan, w, t);
    var pc := w.proc.workers[t].pc;
    match l
    case WorkerIntent(_) => AdvanceStep(plan, w, t, CommitIntent, IntentMarked);
    case WorkerTempWritten(_) => AdvanceStep(plan, w, t, TempWritten, TempMarked(pc.size, pc.digest));
    case WorkerReceipt(_) => ReceiptStep(plan, w, t, pc.size, pc.digest);
    case WorkerRetry(_) => RetryStep(plan, w, t, pc.code);
  }

  lemma WorkerRows(plan: Plan, w: World, t: string, l: Label, w': World)
    requires RowInv(plan, w) && IsWorkerLabel(l) && WorkerNext(plan, w, t, l) == Some(w')
    ensures RowsMove(plan, w, w')
  {
    hide RowInv, RowsMove, WorkerRowNext, WorkerFileNext;
    if IsRowLabel(l) {
      WorkerRowRows(plan, w, t, l, w');
    } else {
      WorkerFileRows(plan, w, t, l, w');
    }
  }

  // ---------------------------------------------------------------- migrate

  lemma ClaimedIsPlanned(plan: Plan, db: Tables, t: string)
    requires DbShape(plan, db) && t in db.tasks
    ensures t in plan.assets
  {
    assert TaskShape(plan, db, t);
  }

  lemma ClaimStep(plan: Plan, w: World, t: string, a: string, taken: set<string>)
    requires RowInv(plan, w) && w.proc.Migrating? && Claimable(w.db, t) && Claim(w.db, t, w.proc.epoch, a, taken).Ok?
    requires a == GeneratedAttemptId(plan.id, t, w.db.tasks[t].attemptCount + 1)
    ensures RowsMove(plan, w, w.(db := Claim(w.db, t, w.proc.epoch, a, taken).value,
                         proc := w.proc.(workers := w.proc.workers[t := Worker(a, false, Queued)])))
  {
    hide TI.Inv, DbShape, RowsMove;
    ClaimDb(plan, w.db, t, w.proc.epoch, a, taken);
    ClaimTouches(w.db, t, w.proc.epoch, a, taken);
    ClaimedIsPlanned(plan, w.db, t);
    RowStepRows(plan, w, Claim(w.db, t, w.proc.epoch, a, taken).value, t, a, w.proc.workers[t := Worker(a, false, Queued)]);
  }

  /** A new epoch is taken at the start of both services. */
  lemma EpochStep(plan: Plan, w: World, proc: Proc)
    requires RowInv(plan, w) && w.materialized
    requires proc == Migrating(w.db.epoch + 1, map[]) || (proc.Resuming? && proc.epoch == w.db.epoch + 1 && proc.step == Pick)
    ensures RowsMove(plan, w, w.(db := w.db.(epoch := w.db.epoch + 1), proc := proc))
  {
    EpochDb(plan, w.db);
  }

  lemma SetReadyStep(plan: Plan, w: World, t: string)
    requires RowInv(plan, w) && w.proc.MigrateReadying? && SetReady(w.db, t).Ok?
    ensures RowsMove(plan, w, w.(db := SetReady(w.db, t).value))
  {
    SetReadyDb(plan, w.db, t);
  }

  lemma MaterializeStep(plan: Plan, w: World, w': World)
    requires PlanShape(plan) && RowInv(plan, w) && MaterializeNext(plan, w) == Some(w')
    ensures RowsMove(plan, w, w')
  {
    hide TI.Inv, DbShape;
    if w.materialized {
      SameRows(plan, w.db);
    } else {
      MaterializeInv(plan);
      MaterializeRows(plan, |plan.order|);
    }
  }

  lemma ClaimNextStep(plan: Plan, w: World, t: string, taken: set<string>, w': World)
    requires PlanShape(plan) && RowInv(plan, w) && ClaimNext(plan, w, t, taken) == Some(w')
    ensures RowsMove(plan, w, w')
  {
    hide RowInv, RowsMove, Claim;
    ClaimStep(plan, w, t, GeneratedAttemptId(plan.id, t, w.db.tasks[t].attemptCount + 1), taken);
  }

  /** A crash, or a move between the phases of migrate before its workers start. */
  lemma PhaseRows(plan: Plan, w: World, proc: Proc)
    requires RowInv(plan, w) && (proc.Idle? || proc.MigrateStarting? || (proc.MigrateReadying? && w.materialized && NoneRunning(w.db)))
    ensures RowsMove(plan, w, w.(proc := proc))
  {
    SameRows(plan, w.db);
  }

  lemma MigrateRows(plan: Plan, w: World, l: Label, w': World)
    requires PlanShape(plan) && RowInv(plan, w) && IsMigrateLabel(l) && MigrateNext(plan, w, l) == Some(w')
    ensures RowsMove(plan, w, w')
  {
    hide RowInv, RowsMove, ClaimNext, MaterializeNext, SetReady, NoneRunning, PlanShape;
    match l
    case MigrateLock => PhaseRows(plan, w, MigrateStarting);
    case MigrateMaterialize => MaterializeStep(plan, w, w');
    case MigrateCheck => PhaseRows(plan, w, MigrateReadying);
    case MigrateReady(t) => SetReadyStep(plan, w, t);
    case MigrateEpoch => WrittenBeforeEpoch(plan, w); EpochStep(plan, w, Migrating(w.db.epoch + 1, map[]));
    case MigrateClaim(t, taken) => ClaimNextStep(plan, w, t, taken, w');
  }

  lemma WrittenBeforeEpoch(plan: Plan, w: World)
    requires RowInv(plan, w) && w.proc.MigrateReadying?
    ensures w.materialized
  {
  }

  // ---------------------------------------------------------------- resume

  predicate IsLook(l: Label) {
    l.ResumeSource? || l.ResumeTemp? || l.ResumeConfirmFinal? || l.ResumeConfirmTemp? || l.ResumeUnreadable? || l.ResumeRecheck?
  }

  lemma RecoverOneLabels(plan: Plan, w: World, l: Label)
    requires w.proc.Resuming? && w.proc.step != Pick
    requires w.proc.step.c.task in plan.assets && w.proc.step.c.task in w.db.tasks && RecoverOneNext(plan, w, l).Some?
    ensures IsLook(l) || l.ResumeFinal? || l.ResumeUnlink? || l.ResumeRename? || l.ResumeSettle?
  {
  }

  /** The steps that only read leave the world alone. */
  lemma RecoverOneForm(plan: Plan, w: World, l: Label, w': World)
    requires w.proc.Resuming? && w.proc.step != Pick && w.proc.step.c.task in plan.assets && w.proc.step.c.task in w.db.tasks
    requires RecoverOneNext(plan, w, l) == Some(w') && (IsLook(l) || l.ResumeFinal?)
    ensures w'.proc.Resuming? && w' == SetStep(w, w'.proc.step) && !w.proc.step.Settle?
    ensures l.ResumeFinal? ==> w.proc.step.TempSeen? && DecideNext(plan, w, w.proc.step.c, w.proc.step.seen) == Some(w')
  {
    hide Decide, Shows, ObserveTemp, ObserveSource, TempName;
  }

  lemma CaseInHand(plan: Plan, w: World)
    requires RowInv(plan, w) && w.proc.Resuming?
    ensures w.materialized && DbInv(plan, true, w.db) && w.proc.epoch == w.db.epoch && StepOk(plan, w.db, w.proc.step)
    ensures w.proc.step != Pick ==> CaseOk(plan, w.db, w.proc.step.c)
  {
  }

  lemma ResumeMoves(plan: Plan, w: World, w': World)
    requires RowInv(plan, w) && w.proc.Resuming? && w'.proc.Resuming? && w'.proc.epoch == w.proc.epoch
    requires w'.db == w.db && w'.materialized == w.materialized && StepOk(plan, w.db, w'.proc.step)
    ensures RowsMove(plan, w, w')
  {
    SameRows(plan, w.db);
  }

  /** Whatever Decide answers, the step taken for it is justified by the rows in hand. */
  lemma DecideOk(plan: Plan, w: World, c: Case, seen: ObservedFileState)
    requires w.proc.Resuming? && CaseOk(plan, w.db, c) && (c.receipt.Some? ==> MatchesPlan(plan, c))
    requires DecideNext(plan, w, c, seen).Some?
    ensures var step := DecideNext(plan, w, c, seen).value.proc.step;
            DecideNext(plan, w, c, seen).value == SetStep(w, step) && StepOk(plan, w.db, step)
    ensures var step := DecideNext(plan, w, c, seen).value.proc.step;
            step.ConfirmFinal? || step.RecheckTemp? || (step.Settle? && step.verdict != RecoverSucceeded)
  {
  }

  lemma PickOk(plan: Plan, w: World, w': World)
    requires w.proc.Resuming? && PickNext(plan, w) == Some(w')
    ensures w'.proc.Resuming? && StepOk(plan, w.db, w'.proc.step)
    ensures w' == w.(proc := w.proc.(todo := w'.proc.todo, step := w'.proc.step))
    ensures w'.proc.step.Loaded? || (w'.proc.step.Settle? && w'.proc.step.verdict == RecoverInconsistent)
  {
  }

  /** The steps that only read leave the world alone and move to a step that the rows justify. */
  lemma LookOk(plan: Plan, w: World, l: Label, w': World)
    requires w.proc.Resuming? && w.proc.step != Pick && StepOk(plan, w.db, w.proc.step) && IsLook(l)
    requires w.proc.step.c.task in plan.assets && w.proc.step.c.task in w.db.tasks && RecoverOneNext(plan, w, l) == Some(w')
    ensures w'.proc.Resuming? && w' == SetStep(w, w'.proc.step) && StepOk(plan, w.db, w'.proc.step)
  {
    hide Shows, CaseOk, MatchesPlan, DecideNext, ObserveSource, ObserveTemp, TempName;
  }

  /** Removing and publishing the temporary file. */
  lemma FileActForm(plan: Plan, w: World, l: Label, w': World)
    requires w.proc.Resuming? && w.proc.step != Pick && StepOk(plan, w.db, w.proc.step) && (l.ResumeUnlink? || l.ResumeRename?)
    requires w.proc.step.c.task in plan.assets && w.proc.step.c.task in w.db.tasks && RecoverOneNext(plan, w, l) == Some(w')
    ensures w'.proc.Resuming? && w' == SetStep(w.(files := w'.files), w'.proc.step) && StepOk(plan, w.db, w'.proc.step)
  {
    hide Shows, CaseFor, MatchesPlan, IsRunning, DecideNext;
  }

  lemma SettleRows(plan: Plan, w: World, w': World)
    requires RowInv(plan, w) && w.proc.Resuming? && w.proc.step.Settle? && w.proc.step.c.task in plan.assets
    requires w.proc.step.c.task in w.db.tasks && RecoverOneNext(plan, w, ResumeSettle) == Some(w')
    ensures RowInv(plan, w')
    ensures w.proc.step.verdict != RecoverSucceeded ==> NoNewCommit(w.db, w'.db)
  {
    hide Recover, DbInv, DecideNext, Shows, MatchesPlan;
    SettleDb(plan, w.db, w.proc.step.c, w.proc.step.verdict);
  }

  lemma RecoverOneRows(plan: Plan, w: World, l: Label, w': World)
    requires RowInv(plan, w) && w.proc.Resuming? && w.proc.step != Pick && !l.ResumeSettle?
    requires w.proc.step.c.task in plan.assets && w.proc.step.c.task in w.db.tasks && RecoverOneNext(plan, w, l) == Some(w')
    ensures RowsMove(plan, w, w')
  {
    hide RowInv, RowsMove, DbInv, CaseOk, DecideNext, Shows;
    CaseInHand(plan, w);
    RecoverOneLabels(plan, w, l);
    if l.ResumeFinal? {
      DecideOk(plan, w, w.proc.step.c, w.proc.step.seen);
    } else if IsLook(l) {
      LookOk(plan, w, l, w');
    } else {
      FileActForm(plan, w, l, w');
    }
    ResumeMoves(plan, w, w');
  }

  lemma StartRows(plan: Plan, w: World, w': World)
    requires RowInv(plan, w) && StartNext(plan, w) == Some(w')
    ensures RowsMove(plan, w, w')
  {
    hide RowInv, RowsMove;
    EpochStep(plan, w, w'.proc);
  }

  lemma PickRows(plan: Plan, w: World, w': World)
    requires RowInv(plan, w) && w.proc.Resuming? && PickNext(plan, w) == Some(w')
    ensures RowsMove(plan, w, w')
  {
    hide RowInv, RowsMove, PickNext;
    PickOk(plan, w, w');
    ResumeMoves(plan, w, w');
  }

  lemma SkipRows(plan: Plan, w: World, w': World)
    requires RowInv(plan, w) && ResumeNext(plan, w, ResumeSkip) == Some(w')
    ensures RowsMove(plan, w, w')
  {
    hide RowInv, RowsMove, RecoverOneNext;
    ResumeMoves(plan, w, w');
  }

  lemma ResumeRows(plan: Plan, w: World, l: Label, w': World)
    requires RowInv(plan, w) && ResumeNext(plan, w, l) == Some(w') && !l.ResumeSettle?
    ensures RowsMove(plan, w, w')
  {
    hide RowInv, RowsMove, RecoverOneNext, StartNext, PickNext;
    if l.ResumeStart? {
      StartRows(plan, w, w');
    } else if l.ResumePick? {
      PickRows(plan, w, w');
    } else if l.ResumeSkip? {
      SkipRows(plan, w, w');
    } else {
      RecoverOneRows(plan, w, l, w');
    }
  }

  lemma SettleForm(plan: Plan, w: World, w': World)
    requires ResumeNext(plan, w, ResumeSettle) == Some(w')
    ensures w.proc.Resuming? && w.proc.step.Settle? && w.proc.step.c.task in plan.assets && w.proc.step.c.task in w.db.tasks
    ensures RecoverOneNext(plan, w, ResumeSettle) == Some(w')
    ensures var c := w.proc.step.c;
            var r := Recover(w.db, c.task, w.proc.epoch, c.owner, c.attempt, w.proc.step.verdict);
            r.Ok? && w' == SetStep(w.(db := r.value), Pick)
  {
    hide Recover, DecideNext, PickNext, StartNext;
  }

  // ---------------------------------------------------------------- every step

  lemma SourceRows(plan: Plan, w: World, t: string, source: Source)
    requires RowInv(plan, w)
    ensures RowsMove(plan, w, w.(sources := w.sources[t := source], proc := TouchWorker(w.proc, t)))
  {
    SameRows(plan, w.db);
    if w.proc.Migrating? && t in w.proc.workers {
      assert WorkerOk(plan, w.db, w.proc.epoch, t, w.proc.workers[t]);
      var workers' := w.proc.workers[t := w.proc.workers[t].(touched := true)];
      assert workers' - {t} == w.proc.workers - {t};
      WorkersMerge(plan, w.db, w.proc.epoch, t, w.proc.workers, workers');
    }
  }

  /** Every step but the settling of a task. */
  lemma OtherStepsKeepRows(plan: Plan, w: World, l: Label, w': World)
    requires PlanShape(plan) && RowInv(plan, w) && Next(plan, w, l) == Some(w') && !l.ResumeSettle?
    ensures RowsMove(plan, w, w')
  {
    hide RowInv, RowsMove, MigrateNext, WorkerNext, ResumeNext, PlanShape;
    if l.Stop? {
      PhaseRows(plan, w, Idle);
    } else if l.SourceChanges? {
      SourceRows(plan, w, l.task, l.source);
    } else if IsMigrateLabel(l) {
      MigrateRows(plan, w, l, w');
    } else if IsWorkerLabel(l) {
      WorkerRows(plan, w, l.task, l, w');
    } else {
      ResumeRows(plan, w, l, w');
    }
  }

  /** Which part of the machine a step belongs to. */
  lemma StepPart(plan: Plan, w: World, l: Label, w': World)
    requires PlanShape(plan) && Next(plan, w, l) == Some(w')
    ensures IsWorkerLabel(l) ==> WorkerNext(plan, w, l.task, l) == Some(w')
    ensures !l.Stop? && !l.SourceChanges? && !IsMigrateLabel(l) && !IsWorkerLabel(l) ==> ResumeNext(plan, w, l) == Some(w')
  {
    hide MigrateNext, WorkerNext, ResumeNext, PlanShape;
  }

  /** Each step, crash or outside change of a source keeps the rows and the process in order. */
  lemma StepKeepsRows(plan: Plan, w: World, l: Label, w': World)
    requires PlanShape(plan) && RowInv(plan, w) && Next(plan, w, l) == Some(w')
    ensures RowInv(plan, w')
  {
    hide RowInv, PlanShape, Next, NoNewCommit, Recover, RecoverOneNext, ResumeNext;
    if l.ResumeSettle? {
      StepPart(plan, w, l, w');
      SettleForm(plan, w, w');
      SettleRows(plan, w, w');
    } else {
      OtherStepsKeepRows(plan, w, l, w');
    }
  }

  lemma InitialRows(plan: Plan, w: World)
    requires Initial(w)
    ensures RowInv(plan, w)
  {
    TI.EmptyInv();
  }

  /** In every run, of every plan, the rows and the process are in order. */
  lemma {:induction false} RunRows(plan: Plan, trace: seq<World>, labels: seq<Label>, i: nat)
    requires PlanShape(plan) && IsRun(plan, trace, labels) && Initial(trace[0]) && i < |trace|
    ensures RowInv(plan, trace[i])
  {
    hide RowInv, Next, PlanShape;
    if i == 0 {
      InitialRows(plan, trace[0]);
    } else {
      RunRows(plan, trace, labels, i - 1);
      assert Next(plan, trace[i - 1], labels[i - 1]) == Some(trace[i]);
      StepKeepsRows(plan, trace[i - 1], labels[i - 1], trace[i]);
    }
  }

  // ---------------------------------------------------------------- how rows evolve

  ghost predicate TaskMoves(db: Tables, db': Tables, t: string)
    requires t in db.tasks
  {
    && t in db'.tasks
    && (db.tasks[t].state == db'.tasks[t].state || TaskEdge(db.tasks[t].state, db'.tasks[t].state))
  }

  ghost predicate AttemptMoves(db: Tables, db': Tables, a: string)
    requires a in db.attempts
  {
    && a in db'.attempts && db'.attempts[a].task == db.attempts[a].task && db'.attempts[a].epoch == db.attempts[a].epoch
    && (db.attempts[a].state == db'.attempts[a].state || AttemptEdge(db.attempts[a].state, db'.attempts[a].state))
  }

  /** Rows only move along the two transition tables, new attempts start RUNNING, and receipts are written once. */
  ghost predicate Evolves(db: Tables, db': Tables) {
    && db.epoch <= db'.epoch
    && (forall t {:trigger TaskMoves(db, db', t)} :: t in db.tasks ==> TaskMoves(db, db', t))
    && (forall a {:trigger AttemptMoves(db, db', a)} :: a in db.attempts ==> AttemptMoves(db, db', a))
    && (forall a :: a in db'.attempts && a !in db.attempts ==> db'.attempts[a].state == AttemptRunning)
    && (forall k :: k in db.receipts ==> k in db'.receipts && db'.receipts[k] == db.receipts[k])
  }

  lemma TouchEvolves(db: Tables, db': Tables, t: string, a: string)
    requires OnlyTouches(db, db', t, a) && db.epoch <= db'.epoch && TaskMoves(db, db', t)
    requires if a in db.attempts then AttemptMoves(db, db', a) else a in db'.attempts && db'.attempts[a].state == AttemptRunning
    requires (t, a) in db.receipts ==> db'.receipts[(t, a)] == db.receipts[(t, a)]
    ensures Evolves(db, db')
  {
    forall u | u in db.tasks ensures TaskMoves(db, db', u) {
      assert u != t ==> db'.tasks[u] == db.tasks[u];
    }
    forall b | b in db.attempts ensures AttemptMoves(db, db', b) {
      assert b != a ==> db'.attempts[b] == db.attempts[b];
    }
  }

  lemma AdvanceEvolves(plan: Plan, db: Tables, t: string, e: nat, a: string, next: AttemptState)
    requires Advance(db, t, e, a, next).Ok?
    ensures Evolves(db, Advance(db, t, e, a, next).value)
  {
    AdvanceTouches(db, t, e, a, next);
    TouchEvolves(db, Advance(db, t, e, a, next).value, t, a);
  }

  lemma ReceiptEvolves(plan: Plan, db: Tables, r: VerifiedReceipt)
    requires DbShape(plan, db) && PersistReceipt(db, r).Ok?
    requires r.attempt in db.attempts && db.attempts[r.attempt].state == TempWritten
    ensures Evolves(db, PersistReceipt(db, r).value)
  {
    NoReceiptYet(plan, db, r.task, r.attempt);
    ReceiptTouches(db, r);
    TouchEvolves(db, PersistReceipt(db, r).value, r.task, r.attempt);
  }

  lemma ReleaseEvolves(
    db: Tables, t: string, owner: nat, a: string, next: TaskState, attemptNext: AttemptState, error: Option<Code>)
    requires Release(db, t, owner, a, next, attemptNext, error).Ok?
    requires TaskEdge(Running, next) && AttemptEdge(db.attempts[a].state, attemptNext)
    ensures Evolves(db, Release(db, t, owner, a, next, attemptNext, error).value)
  {
    ReleaseTouches(db, t, owner, a, next, attemptNext, error);
    TouchEvolves(db, Release(db, t, owner, a, next, attemptNext, error).value, t, a);
  }

  lemma ClaimEvolves(db: Tables, t: string, e: nat, a: string, taken: set<string>)
    requires Claimable(db, t) && Claim(db, t, e, a, taken).Ok?
    ensures Evolves(db, Claim(db, t, e, a, taken).value)
  {
    ClaimTouches(db, t, e, a, taken);
    TouchEvolves(db, Claim(db, t, e, a, taken).value, t, a);
  }

  lemma SameEvolves(db: Tables, db': Tables)
    requires db' == db || db' == db.(epoch := db.epoch + 1) || (db == EMPTY && db'.attempts == map[])
    ensures Evolves(db, db')
  {
  }

  lemma SetReadyEvolves(db: Tables, t: string)
    requires SetReady(db, t).Ok?
    ensures Evolves(db, SetReady(db, t).value)
  {
  }

  lemma WorkerReceiptEvolves(plan: Plan, db: Tables, e: nat, t: string, worker: Worker)
    requires DbShape(plan, db) && WorkerOk(plan, db, e, t, worker) && worker.pc.Checked?
    requires PersistReceipt(db, ReceiptFor(plan, t, worker.attempt, e, worker.pc.size, worker.pc.digest)).Ok?
    ensures Evolves(db, PersistReceipt(db, ReceiptFor(plan, t, worker.attempt, e, worker.pc.size, worker.pc.digest)).value)
  {
    ReceiptEvolves(plan, db, ReceiptFor(plan, t, worker.attempt, e, worker.pc.size, worker.pc.digest));
  }

  lemma WorkerRetryEvolves(plan: Plan, db: Tables, e: nat, t: string, worker: Worker, code: Code)
    requires WorkerOk(plan, db, e, t, worker) && Finish(db, t, e, worker.attempt, Some(code)).Ok?
    ensures Evolves(db, Finish(db, t, e, worker.attempt, Some(code)).value)
  {
    ReleaseEvolves(db, t, e, worker.attempt, Retryable, AttemptRetryable, Some(code));
  }

  lemma WorkerRowEvolves(plan: Plan, w: World, t: string, l: Label, w': World)
    requires RowInv(plan, w) && IsRowLabel(l)
    requires w.proc.Migrating? && t in w.proc.workers && t in plan.assets && WorkerRowNext(plan, w, t, l) == Some(w')
    ensures Evolves(w.db, w'.db)
  {
    var worker, e := w.proc.workers[t], w.proc.epoch;
    hide RowInv, Advance, PersistReceipt, Finish, Evolves, Ownership, DbShape, TI.Inv, PcFits;
    WorkerFits(plan, w, t);
    match l
    case WorkerIntent(_) => AdvanceEvolves(plan, w.db, t, e, worker.attempt, CommitIntent);
    case WorkerTempWritten(_) => AdvanceEvolves(plan, w.db, t, e, worker.attempt, TempWritten);
    case WorkerReceipt(_) => WorkerReceiptEvolves(plan, w.db, e, t, worker);
    case WorkerRetry(_) => WorkerRetryEvolves(plan, w.db, e, t, worker, worker.pc.code);
  }

  lemma WorkerFileSameDb(plan: Plan, w: World, t: string, l: Label)
    requires w.proc.Migrating? && t in w.proc.workers && t in plan.assets && WorkerFileNext(plan, w, t, l).Some?
    ensures WorkerFileNext(plan, w, t, l).value.db == w.db
  {
  }

  lemma MigrateEvolves(plan: Plan, w: World, l: Label, w': World)
    requires PlanShape(plan) && RowInv(plan, w) && IsMigrateLabel(l) && MigrateNext(plan, w, l) == Some(w')
    ensures Evolves(w.db, w'.db)
  {
    hide TI.Inv, DbShape, ProcOk, SetReady, Claim, Evolves, Materialize;
    match l
    case MigrateMaterialize =>
      if !w.materialized {
        MaterializeRows(plan, |plan.order|);
      }
      SameEvolves(w.db, w'.db);
    case MigrateReady(t) => SetReadyEvolves(w.db, t);
    case MigrateClaim(t, taken) =>
      ClaimEvolves(w.db, t, w.proc.epoch, GeneratedAttemptId(plan.id, t, w.db.tasks[t].attemptCount + 1), taken);
    case _ => SameEvolves(w.db, w'.db);
  }

  /** The attempt behind a case in hand: it has not ended, and with a receipt it is VERIFIED_DURABLE. */
  lemma CaseAttempt(plan: Plan, db: Tables, c: Case)
    requires DbInv(plan, true, db) && CaseOk(plan, db, c)
    ensures HasAttempt(db, c.task, c.owner, c.attempt)
    ensures !Ended(db.attempts[c.attempt].state) && AttemptShape(plan, db, c.attempt)
    ensures c.receipt.Some? ==> db.attempts[c.attempt].state == VerifiedDurable
  {
    RunningIsHeld(plan, db, c.task);
    assert AttemptShape(plan, db, c.attempt);
    if c.receipt.Some? {
      assert ReceiptShape(plan, db, (c.task, c.attempt));
    }
  }

  lemma SettleEvolves(plan: Plan, w: World, c: Case, verdict: Verdict)
    requires RowInv(plan, w) && w.proc.Resuming? && w.proc.step == Settle(c, verdict)
    requires Recover(w.db, c.task, w.proc.epoch, c.owner, c.attempt, verdict).Ok?
    ensures Evolves(w.db, Recover(w.db, c.task, w.proc.epoch, c.owner, c.attempt, verdict).value)
  {
    hide RowInv, Release, Evolves, DbInv, AttemptShape, CaseOk;
    CaseInHand(plan, w);
    CaseAttempt(plan, w.db, c);
    match verdict
    case RecoverSucceeded => ReleaseEvolves(w.db, c.task, c.owner, c.attempt, Succeeded, Committed, None);
    case RecoverRetryable => ReleaseEvolves(w.db, c.task, c.owner, c.attempt, Retryable, AttemptRetryable, Some(IoError));
    case RecoverInconsistent => ReleaseEvolves(w.db, c.task, c.owner, c.attempt, Inconsistent, AttemptInconsistent, Some(Internal));
  }

  lemma RecoverOneSameDb(plan: Plan, w: World, l: Label)
    requires w.proc.Resuming? && w.proc.step != Pick && l != ResumeSettle
    requires w.proc.step.c.task in plan.assets && w.proc.step.c.task in w.db.tasks && RecoverOneNext(plan, w, l).Some?
    ensures RecoverOneNext(plan, w, l).value.db == w.db
  {
  }

  lemma ResumeEvolves(plan: Plan, w: World, l: Label, w': World)
    requires RowInv(plan, w) && ResumeNext(plan, w, l) == Some(w')
    ensures Evolves(w.db, w'.db)
  {
    if l == ResumeSettle {
      SettleEvolves(plan, w, w.proc.step.c, w.proc.step.verdict);
    } else {
      if l != ResumeStart && l != ResumePick && l != ResumeSkip {
        RecoverOneSameDb(plan, w, l);
      }
      SameEvolves(w.db, w'.db);
    }
  }

  /** Receipt, finish and recovery writes never consult the transition tables, yet in the runs of the two services
      every change of a task's or an attempt's state is an edge of its table. */
  lemma StepEvolves(plan: Plan, w: World, l: Label, w': World)
    requires PlanShape(plan) && RowInv(plan, w) && Next(plan, w, l) == Some(w')
    ensures Evolves(w.db, w'.db)
  {
    if l.Stop? || l.SourceChanges? {
      SameEvolves(w.db, w'.db);
    } else if IsMigrateLabel(l) {
      MigrateEvolves(plan, w, l, w');
    } else if IsRowLabel(l) {
      WorkerRowEvolves(plan, w, l.task, l, w');
    } else if IsWorkerLabel(l) {
      WorkerFileSameDb(plan, w, l.task, l);
      SameEvolves(w.db, w'.db);
    } else {
      ResumeEvolves(plan, w, l, w');
    }
  }

  lemma RunEvolves(plan: Plan, trace: seq<World>, labels: seq<Label>, i: nat)
    requires PlanShape(plan) && IsRun(plan, trace, labels) && Initial(trace[0]) && i < |labels|
    ensures Evolves(trace[i].db, trace[i + 1].db)
  {
    RunRows(plan, trace, labels, i);
    assert Next(plan, trace[i], labels[i]) == Some(trace[i + 1]);
    StepEvolves(plan, trace[i], labels[i], trace[i + 1]);
  }

  /** What a later state keeps of an earlier one: terminal states, committed attempts, receipts, the epoch. */
  ghost predicate Remembers(db: Tables, db': Tables) {
    && db.epoch <= db'.epoch
    && (forall t :: t in db.tasks && db.tasks[t].state in {Succeeded, Inconsistent} ==>
          t in db'.tasks && db'.tasks[t].state == db.tasks[t].state)
    && (forall a :: a in db.attempts && db.attempts[a].state == Committed ==>
          a in db'.attempts && db'.attempts[a].state == Committed && db'.attempts[a].task == db.attempts[a].task)
    && (forall k :: k in db.receipts ==> k in db'.receipts && db'.receipts[k] == db.receipts[k])
  }

  lemma EvolvesRemembers(db: Tables, db': Tables)
    requires Evolves(db, db')
    ensures Remembers(db, db')
  {
    forall t | t in db.tasks && db.tasks[t].state in {Succeeded, Inconsistent}
      ensures t in db'.tasks && db'.tasks[t].state == db.tasks[t].state
    {
      assert TaskMoves(db, db', t);
    }
    forall a | a in db.attempts && db.attempts[a].state == Committed
      ensures a in db'.attempts && db'.attempts[a].state == Committed && db'.attempts[a].task == db.attempts[a].task
    {
      assert AttemptMoves(db, db', a);
    }
  }

  lemma {:induction false} RunRemembers(plan: Plan, trace: seq<World>, labels: seq<Label>, i: nat, j: nat)
    requires PlanShape(plan) && IsRun(plan, trace, labels) && Initial(trace[0]) && i <= j < |trace|
    ensures Remembers(trace[i].db, trace[j].db)
    decreases j - i
  {
    if i < j {
      RunRemembers(plan, trace, labels, i, j - 1);
      RunEvolves(plan, trace, labels, j - 1);
      EvolvesRemembers(trace[j - 1].db, trace[j].db);
    }
  }
}
