/** Safety of every run of the commit protocol: what the files show for a SUCCEEDED task and which files a step may touch,
    whatever the interleaving, the failures and the crashes. */
module ProtocolSafety {
  import opened Common
  import opened Tasks
  import opened TaskTables
  import TI = TableInvariants
  import opened Reconciler
  import opened TempNames
  import opened Protocol
  import opened PlanRows
  import opened ProtocolRows

  // ---------------------------------------------------------------- names

  /** The temporary file of the n-th claim of task `t`. */
  function NthTemp(plan: Plan, t: string, n: nat): string {
    TempName(plan, t, GeneratedAttemptId(plan.id, t, n))
  }

  /** The target of `u` is the name of the temporary file of the n-th claim of `t`, and the attempt of `t` gets as far as
      its temporary file. */
  predicate NameClash(plan: Plan, t: string, n: nat, u: string) {
    && t in plan.assets && u in plan.assets && SingleComponent(plan.assets[t].spec.target)
    && 1 <= n <= UINT32_MAX && NthTemp(plan, t, n) == plan.assets[u].spec.target
  }

  ghost predicate NoFinalIsTemp(plan: Plan) {
    forall t, n: nat, u :: !NameClash(plan, t, n, u)
  }

  /** A clash of names that can cost the target of `u`: the bytes that the attempt of `t` writes there can pass for those
      of `u`. */
  predicate Endangers(plan: Plan, t: string, n: nat, u: string) {
    NameClash(plan, t, n, u) && plan.assets[t].identity.size == plan.assets[u].identity.size <= INT64_MAX
  }

  /** The hypothesis of the safety theorem; `LostTarget.SafeExactly` shows that it cannot be weakened. */
  ghost predicate Unendangered(plan: Plan) {
    forall t, n: nat, u :: !Endangers(plan, t, n, u)
  }

  /** The hypothesis can be read off the plan: a target that does not look like a temporary name is none. */
  lemma OrdinaryTargetsSuffice(plan: Plan)
    requires forall u :: u in plan.assets ==> !TempShaped(plan.assets[u].spec.target)
    requires forall x :: plan.hash(x) != []
    ensures NoFinalIsTemp(plan) && Unendangered(plan)
  {
    forall t, n: nat, u ensures !NameClash(plan, t, n, u) {
      TempNameShape(plan.hash, plan.id, t, GeneratedAttemptId(plan.id, t, n));
    }
  }

  /** A name that some claim of some task of the plan gives its temporary file. */
  ghost predicate IsTempOf(plan: Plan, name: string) {
    exists t, n: nat ::
      t in plan.assets && SingleComponent(plan.assets[t].spec.target) && 1 <= n <= UINT32_MAX && name == NthTemp(plan, t, n)
  }

  lemma TargetNotTemp(plan: Plan, u: string)
    requires NoFinalIsTemp(plan) && u in plan.assets
    ensures !IsTempOf(plan, plan.assets[u].spec.target)
  {
    forall t, n: nat | t in plan.assets && SingleComponent(plan.assets[t].spec.target) && 1 <= n <= UINT32_MAX
      ensures plan.assets[u].spec.target != NthTemp(plan, t, n)
    {
      assert !NameClash(plan, t, n, u);
    }
  }

  lemma NoClashNoDanger(plan: Plan)
    requires NoFinalIsTemp(plan)
    ensures Unendangered(plan)
  {
    forall t, n: nat, u ensures !Endangers(plan, t, n, u) {
      assert !NameClash(plan, t, n, u);
    }
  }

  lemma AttemptTemp(plan: Plan, db: Tables, a: string)
    requires DbShape(plan, db) && a in db.attempts && db.attempts[a].task in plan.assets
    requires SingleComponent(plan.assets[db.attempts[a].task].spec.target)
    ensures IsTempOf(plan, TempName(plan, db.attempts[a].task, a))
  {
    assert Numbered(plan, db, a);
    var n: nat :| IsGenerated(plan, db.attempts[a].task, a, n);
    assert NthTemp(plan, db.attempts[a].task, n) == TempName(plan, db.attempts[a].task, a);
  }

  // ---------------------------------------------------------------- which files a step may touch

  predicate SameBytes(files: map<string, Bytes>, files': map<string, Bytes>, name: string) {
    name in files ==> name in files' && files'[name] == files[name]
  }

  /** Every file that no claim would use for its temporary file is still there with the same bytes. */
  ghost predicate SparesForeign(plan: Plan, files: map<string, Bytes>, files': map<string, Bytes>) {
    forall name :: !IsTempOf(plan, name) ==> SameBytes(files, files', name)
  }

  /** Every published target is still there with the same bytes. */
  ghost predicate KeepsPublished(plan: Plan, db: Tables, files: map<string, Bytes>, files': map<string, Bytes>) {
    forall a :: a in db.attempts && db.attempts[a].state == Committed && db.attempts[a].task in plan.assets ==>
      SameBytes(files, files', plan.assets[db.attempts[a].task].spec.target)
  }

  predicate WritesTemp(l: Label) {
    l.WorkerCreate? || l.WorkerWrite?
  }

  predicate MovesFiles(l: Label) {
    l.ResumeUnlink? || l.ResumeRename?
  }

  /** The name of the temporary file that step `l` creates, writes, removes or renames. */
  function TempOf(plan: Plan, w: World, l: Label): string {
    if WritesTemp(l) && w.proc.Migrating? && l.task in w.proc.workers then TempName(plan, l.task, w.proc.workers[l.task].attempt)
    else if MovesFiles(l) && w.proc.Resuming? && w.proc.step != Pick && w.proc.step.c.task in plan.assets then
      IntentFor(plan, w.proc.step.c).tempPath
    else ""
  }

  lemma WorkerTempStep(plan: Plan, w: World, l: Label, w': World)
    requires RowInv(plan, w) && WritesTemp(l) && WorkerNext(plan, w, l.task, l) == Some(w')
    ensures IsTempOf(plan, TempOf(plan, w, l))
    ensures forall name :: name != TempOf(plan, w, l) ==> SameBytes(w.files, w'.files, name)
  {
    hide RowInv, TI.Inv, DbShape, TempName, IsTempOf, Ownership;
    WorkerFits(plan, w, l.task);
    AttemptTemp(plan, w.db, w.proc.workers[l.task].attempt);
  }

  lemma CaseTemp(plan: Plan, db: Tables, c: Case)
    requires DbInv(plan, true, db) && CaseOk(plan, db, c)
    ensures IsTempOf(plan, IntentFor(plan, c).tempPath)
  {
    RunningIsHeld(plan, db, c.task);
    AttemptTemp(plan, db, c.attempt);
    if c.receipt.Some? {
      CaseReceipt(plan, db, c);
    }
  }

  lemma ActStep(plan: Plan, w: World, l: Label, w': World)
    requires MovesFiles(l) && ResumeNext(plan, w, l) == Some(w')
    ensures w.proc.Resuming? && w.proc.step != Pick && w.proc.step.c.task in plan.assets && w.proc.step.c.task in w.db.tasks
    ensures RecoverOneNext(plan, w, l) == Some(w') && (w.proc.step.UnlinkTemp? || w.proc.step.RenameTemp?)
  {
    hide Decide, Shows, PickNext, StartNext;
  }

  lemma MoveForm(plan: Plan, w: World, l: Label, w': World)
    requires w.proc.Resuming? && w.proc.step != Pick && MovesFiles(l)
    requires w.proc.step.c.task in plan.assets && w.proc.step.c.task in w.db.tasks && RecoverOneNext(plan, w, l) == Some(w')
    ensures forall name :: name != IntentFor(plan, w.proc.step.c).tempPath ==> SameBytes(w.files, w'.files, name)
  {
    hide DecideNext, Shows, TempName;
  }

  lemma RecoverTempStep(plan: Plan, w: World, l: Label, w': World)
    requires RowInv(plan, w) && MovesFiles(l) && ResumeNext(plan, w, l) == Some(w')
    ensures IsTempOf(plan, TempOf(plan, w, l))
    ensures forall name :: name != TempOf(plan, w, l) ==> SameBytes(w.files, w'.files, name)
  {
    hide RowInv, TI.Inv, DbShape, TempName, MatchesPlan, RecoverOneNext, ResumeNext, StepOk, IsTempOf;
    ActStep(plan, w, l, w');
    var c := w.proc.step.c;
    CaseInHand(plan, w);
    CaseTemp(plan, w.db, c);
    MoveForm(plan, w, l, w');
  }

  lemma OtherMigrateFiles(plan: Plan, w: World, l: Label, w': World)
    requires PlanShape(plan) && MigrateNext(plan, w, l) == Some(w')
    ensures w'.files == w.files
  {
  }

  lemma OtherWorkerFiles(plan: Plan, w: World, l: Label, w': World)
    requires IsWorkerLabel(l) && !WritesTemp(l) && WorkerNext(plan, w, l.task, l) == Some(w')
    ensures w'.files == w.files
  {
    hide Advance, PersistReceipt, Finish, TempName;
  }

  lemma RecoverOneFiles(plan: Plan, w: World, l: Label, w': World)
    requires w.proc.Resuming? && w.proc.step != Pick && !MovesFiles(l)
    requires w.proc.step.c.task in plan.assets && w.proc.step.c.task in w.db.tasks && RecoverOneNext(plan, w, l) == Some(w')
    ensures w'.files == w.files
  {
    hide DecideNext, Shows, ObserveTemp, ObserveSource, Recover, TempName;
    RecoverOneLabels(plan, w, l);
    if !l.ResumeSettle? {
      RecoverOneForm(plan, w, l, w');
    }
  }

  lemma OtherResumeFiles(plan: Plan, w: World, l: Label, w': World)
    requires ResumeNext(plan, w, l) == Some(w') && !MovesFiles(l)
    ensures w'.files == w.files
  {
    hide RecoverOneNext, MatchesPlan, CaseFor, RunningIn, SingleComponent;
    if !l.ResumeStart? && !l.ResumePick? && !l.ResumeSkip? {
      RecoverOneFiles(plan, w, l, w');
    }
  }

  /** A step touches no file, or only the temporary file of an attempt; a rename also adds a file where there was none. */
  lemma StepFiles(plan: Plan, w: World, l: Label, w': World)
    requires PlanShape(plan) && RowInv(plan, w) && Next(plan, w, l) == Some(w')
    ensures !WritesTemp(l) && !MovesFiles(l) ==> w'.files == w.files
    ensures WritesTemp(l) || MovesFiles(l) ==> IsTempOf(plan, TempOf(plan, w, l))
    ensures forall name :: name != TempOf(plan, w, l) ==> SameBytes(w.files, w'.files, name)
  {
    hide RowInv, PlanShape, MigrateNext, WorkerNext, ResumeNext, TempOf, IsTempOf;
    if WritesTemp(l) {
      WorkerTempStep(plan, w, l, w');
    } else if MovesFiles(l) {
      RecoverTempStep(plan, w, l, w');
    } else if IsMigrateLabel(l) {
      OtherMigrateFiles(plan, w, l, w');
    } else if IsWorkerLabel(l) {
      OtherWorkerFiles(plan, w, l, w');
    } else if !l.Stop? && !l.SourceChanges? {
      OtherResumeFiles(plan, w, l, w');
    }
  }

  lemma StepSparesForeign(plan: Plan, w: World, l: Label, w': World)
    requires PlanShape(plan) && RowInv(plan, w) && Next(plan, w, l) == Some(w')
    ensures SparesForeign(plan, w.files, w'.files)
  {
    hide RowInv, PlanShape, Next, TempOf, IsTempOf;
    StepFiles(plan, w, l, w');
  }

  // ---------------------------------------------------------------- invariant

  /** The target file shows the evidence of a committed attempt. */
  ghost predicate CommitShown(plan: Plan, db: Tables, files: map<string, Bytes>, a: string)
    requires a in db.attempts
  {
    var t := db.attempts[a].task;
    db.attempts[a].state == Committed && t in plan.assets && (t, a) in db.receipts ==>
      Shows(plan, files, plan.assets[t].spec.target, db.receipts[(t, a)])
  }

  ghost predicate FilesInv(plan: Plan, db: Tables, files: map<string, Bytes>) {
    forall a {:trigger CommitShown(plan, db, files, a)} :: a in db.attempts ==> CommitShown(plan, db, files, a)
  }

  /** No committed attempt has published under `name`. */
  ghost predicate FreeOfCommits(plan: Plan, db: Tables, name: string) {
    forall a :: a in db.attempts && db.attempts[a].state == Committed && db.attempts[a].task in plan.assets ==>
      plan.assets[db.attempts[a].task].spec.target != name
  }

  /** Who has just created a temporary file writes into no published target. */
  ghost predicate CopiesFree(plan: Plan, db: Tables, workers: map<string, Worker>) {
    forall t {:trigger workers[t]} :: t in workers && workers[t].pc.Copying? ==>
      FreeOfCommits(plan, db, TempName(plan, t, workers[t].attempt))
  }

  /** What recover_one has seen of the files at each of its steps. */
  predicate StepShown(plan: Plan, files: map<string, Bytes>, step: RecoverStep) {
    match step
    case ConfirmTemp(c) => TargetShown(plan, files, c)
    case UnlinkTemp(c) => TargetShown(plan, files, c) && Shows(plan, files, c.receipt.value.tempPath, c.receipt.value)
    case RenameTemp(c) => c.receipt.Some? && Shows(plan, files, c.receipt.value.tempPath, c.receipt.value)
    case Settle(c, v) => v == RecoverSucceeded ==> TargetShown(plan, files, c)
    case _ => true
  }

  predicate TargetShown(plan: Plan, files: map<string, Bytes>, c: Case) {
    c.receipt.Some? && c.task in plan.assets && Shows(plan, files, plan.assets[c.task].spec.target, c.receipt.value)
  }

  ghost predicate ProcShown(plan: Plan, db: Tables, files: map<string, Bytes>, proc: Proc) {
    && (proc.Migrating? ==> CopiesFree(plan, db, proc.workers))
    && (proc.Resuming? ==> StepShown(plan, files, proc.step))
  }

  ghost predicate Inv(plan: Plan, w: World) {
    RowInv(plan, w) && FilesInv(plan, w.db, w.files) && ProcShown(plan, w.db, w.files, w.proc)
  }

  lemma InvRows(plan: Plan, w: World)
    requires Inv(plan, w)
    ensures RowInv(plan, w) && DbInv(plan, w.materialized, w.db)
  {
  }

  lemma ResumeHere(plan: Plan, w: World)
    requires Inv(plan, w) && w.proc.Resuming?
    ensures RowInv(plan, w) && DbInv(plan, true, w.db) && StepShown(plan, w.files, w.proc.step)
  {
    CaseInHand(plan, w);
  }

  lemma WorkerHere(plan: Plan, w: World, t: string)
    requires Inv(plan, w) && w.proc.Migrating? && t in w.proc.workers
    ensures RowInv(plan, w) && DbInv(plan, true, w.db) && FilesInv(plan, w.db, w.files) && w.proc.epoch == w.db.epoch
    ensures WorkerOk(plan, w.db, w.proc.epoch, t, w.proc.workers[t])
  {
    WorkerFits(plan, w, t);
  }

  // ---------------------------------------------------------------- published targets

  /** A temporary file that shows a receipt matching the plan is nobody's published target. */
  lemma ProvenTempIsFree(plan: Plan, db: Tables, files: map<string, Bytes>, c: Case)
    requires Unendangered(plan) && DbInv(plan, true, db) && FilesInv(plan, db, files) && CaseProven(plan, db, c)
    requires c.receipt.value.tempPath == TempName(plan, c.task, c.attempt)
    requires Shows(plan, files, c.receipt.value.tempPath, c.receipt.value)
    ensures IsTempOf(plan, c.receipt.value.tempPath) && FreeOfCommits(plan, db, c.receipt.value.tempPath)
    ensures c.receipt.value.tempPath != plan.assets[c.task].spec.target
  {
    RunningIsHeld(plan, db, c.task);
    AttemptTemp(plan, db, c.attempt);
    assert TI.ReceiptOk(db, (c.task, c.attempt));
    assert Numbered(plan, db, c.attempt);
    var n: nat :| IsGenerated(plan, c.task, c.attempt, n);
    assert !Endangers(plan, c.task, n, c.task);
    forall b | b in db.attempts && db.attempts[b].state == Committed && db.attempts[b].task in plan.assets
      ensures plan.assets[db.attempts[b].task].spec.target != c.receipt.value.tempPath
    {
      assert AttemptShape(plan, db, b) && CommitShown(plan, db, files, b);
      assert !Endangers(plan, c.task, n, db.attempts[b].task);
    }
  }

  /** A name that is not in the directory is nobody's published target. */
  lemma AbsentIsFree(plan: Plan, db: Tables, files: map<string, Bytes>, name: string)
    requires DbShape(plan, db) && FilesInv(plan, db, files) && name !in files
    ensures FreeOfCommits(plan, db, name)
  {
    forall b | b in db.attempts && db.attempts[b].state == Committed && db.attempts[b].task in plan.assets
      ensures plan.assets[db.attempts[b].task].spec.target != name
    {
      assert AttemptShape(plan, db, b) && CommitShown(plan, db, files, b);
    }
  }

  lemma OneTempChanges(plan: Plan, db: Tables, files: map<string, Bytes>, files': map<string, Bytes>, temp: string)
    requires FreeOfCommits(plan, db, temp) && (forall name :: name != temp ==> SameBytes(files, files', name))
    ensures KeepsPublished(plan, db, files, files')
  {
  }

  lemma FilesKept(plan: Plan, db: Tables, files: map<string, Bytes>, files': map<string, Bytes>)
    requires FilesInv(plan, db, files) && KeepsPublished(plan, db, files, files')
    ensures FilesInv(plan, db, files')
  {
    forall a | a in db.attempts ensures CommitShown(plan, db, files', a) {
      assert CommitShown(plan, db, files, a);
    }
  }

  lemma CommitsKept(plan: Plan, db: Tables, db': Tables, files: map<string, Bytes>)
    requires FilesInv(plan, db, files) && NoNewCommit(db, db')
    ensures FilesInv(plan, db', files)
  {
    forall a | a in db'.attempts ensures CommitShown(plan, db', files, a) {
      if db'.attempts[a].state == Committed {
        assert CommitShown(plan, db, files, a);
      }
    }
  }

  /** A step that commits nothing and touches no published target. */
  lemma FilesMove(plan: Plan, w: World, w': World)
    requires Inv(plan, w) && RowsMove(plan, w, w') && KeepsPublished(plan, w.db, w.files, w'.files)
    requires ProcShown(plan, w'.db, w'.files, w'.proc)
    ensures Inv(plan, w')
  {
    hide RowInv, NoNewCommit, FilesInv, KeepsPublished, ProcShown;
    FilesKept(plan, w.db, w.files, w'.files);
    CommitsKept(plan, w.db, w'.db, w'.files);
  }

  // ---------------------------------------------------------------- migrate

  /** Every worker that copies already did. */
  predicate CopiesAmong(workers: map<string, Worker>, workers': map<string, Worker>) {
    forall t :: t in workers' && workers'[t].pc.Copying? ==>
      t in workers && workers[t].pc.Copying? && workers[t].attempt == workers'[t].attempt
  }

  lemma CopiesStayFree(plan: Plan, db: Tables, db': Tables, workers: map<string, Worker>, workers': map<string, Worker>)
    requires CopiesFree(plan, db, workers) && NoNewCommit(db, db') && CopiesAmong(workers, workers')
    ensures CopiesFree(plan, db', workers')
  {
  }

  lemma MigrateShown(plan: Plan, w: World, l: Label, w': World)
    requires PlanShape(plan) && MigrateNext(plan, w, l) == Some(w')
    ensures !w'.proc.Resuming?
    ensures w'.proc.Migrating? ==> w'.proc.workers == map[] || (w.proc.Migrating? && CopiesAmong(w.proc.workers, w'.proc.workers))
  {
    hide PlanShape, Claim, IsNextReady, NoneRunning, SetReady;
  }

  lemma WorkerRowShown(plan: Plan, w: World, l: Label, w': World)
    requires IsRowLabel(l) && w.proc.Migrating? && l.task in w.proc.workers && l.task in plan.assets
    requires WorkerRowNext(plan, w, l.task, l) == Some(w')
    ensures w'.proc.Migrating? && CopiesAmong(w.proc.workers, w'.proc.workers)
  {
    hide Advance, PersistReceipt, Finish, TempName;
  }

  lemma WorkerFileShown(plan: Plan, w: World, l: Label, w': World)
    requires IsWorkerLabel(l) && !IsRowLabel(l) && !l.WorkerCreate?
    requires w.proc.Migrating? && l.task in w.proc.workers && l.task in plan.assets
    requires WorkerFileNext(plan, w, l.task, l) == Some(w')
    ensures w'.proc.Migrating? && CopiesAmong(w.proc.workers, w'.proc.workers)
  {
    hide TempName, CopyResultPossible;
  }

  lemma WorkerShown(plan: Plan, w: World, l: Label, w': World)
    requires IsWorkerLabel(l) && !l.WorkerCreate? && WorkerNext(plan, w, l.task, l) == Some(w')
    ensures w.proc.Migrating? && w'.proc.Migrating? && CopiesAmong(w.proc.workers, w'.proc.workers)
  {
    hide WorkerRowNext, WorkerFileNext;
    if IsRowLabel(l) {
      WorkerRowShown(plan, w, l, w');
    } else {
      WorkerFileShown(plan, w, l, w');
    }
  }

  lemma CreateShown(plan: Plan, w: World, l: Label, w': World)
    requires l.WorkerCreate? && WorkerNext(plan, w, l.task, l) == Some(w')
    ensures w.proc.Migrating? && w'.proc.Migrating? && l.task in w.proc.workers && TempOf(plan, w, l) !in w.files
    ensures w'.proc.workers == w.proc.workers[l.task := w.proc.workers[l.task].(pc := Copying)] && w'.db == w.db
  {
    hide TempName;
  }

  lemma WriteShown(plan: Plan, w: World, l: Label, w': World)
    requires l.WorkerWrite? && WorkerNext(plan, w, l.task, l) == Some(w')
    ensures w.proc.Migrating? && w'.proc == w.proc && l.task in w.proc.workers && w.proc.workers[l.task].pc.Copying? && w'.db == w.db
  {
    hide TempName;
  }

  /** Creating the temporary file exclusively, or writing to it, touches nobody's published target. */
  lemma WritesAreSafe(plan: Plan, w: World, l: Label, w': World)
    requires Inv(plan, w) && WritesTemp(l) && WorkerNext(plan, w, l.task, l) == Some(w')
    ensures FreeOfCommits(plan, w.db, TempOf(plan, w, l)) && ProcShown(plan, w'.db, w'.files, w'.proc)
  {
    hide RowInv, FilesInv, WorkerNext, FreeOfCommits, TempName;
    if l.WorkerCreate? {
      CreateShown(plan, w, l, w');
      WorkerHere(plan, w, l.task);
      AbsentIsFree(plan, w.db, w.files, TempOf(plan, w, l));
    } else {
      WriteShown(plan, w, l, w');
    }
  }

  // ---------------------------------------------------------------- resume

  /** The steps that only read move on with what they have seen. */
  lemma LookShown(plan: Plan, w: World, l: Label, w': World)
    requires w.proc.Resuming? && w.proc.step != Pick && StepShown(plan, w.files, w.proc.step) && IsLook(l)
    requires w.proc.step.c.task in plan.assets && w.proc.step.c.task in w.db.tasks && RecoverOneNext(plan, w, l) == Some(w')
    ensures w'.proc.Resuming? && w'.files == w.files && StepShown(plan, w'.files, w'.proc.step)
  {
    hide ObserveSource, ObserveTemp, DecideNext, Recover, Shows, TempName;
  }

  /** After the removal or the rename the target shows the receipt. */
  lemma MoveShown(plan: Plan, w: World, l: Label, w': World)
    requires w.proc.Resuming? && w.proc.step != Pick && StepShown(plan, w.files, w.proc.step) && MovesFiles(l)
    requires w.proc.step.c.task in plan.assets && w.proc.step.c.task in w.db.tasks && RecoverOneNext(plan, w, l) == Some(w')
    requires TempOf(plan, w, l) != plan.assets[w.proc.step.c.task].spec.target
    ensures w'.proc.Resuming? && StepShown(plan, w'.files, w'.proc.step)
  {
    hide DecideNext, Recover;
  }

  lemma FinalShown(plan: Plan, w: World, w': World)
    requires RowInv(plan, w) && w.proc.Resuming? && w.proc.step != Pick
    requires w.proc.step.c.task in plan.assets && w.proc.step.c.task in w.db.tasks && RecoverOneNext(plan, w, ResumeFinal) == Some(w')
    ensures w'.proc.Resuming? && StepShown(plan, w'.files, w'.proc.step)
  {
    hide RowInv, DecideNext, CaseOk, Shows, MatchesPlan;
    CaseInHand(plan, w);
    DecideOk(plan, w, w.proc.step.c, w.proc.step.seen);
  }

  /** The file that resume removes or renames is nobody's published target. */
  lemma MovesAreSafe(plan: Plan, w: World, l: Label, w': World)
    requires Unendangered(plan) && Inv(plan, w) && MovesFiles(l) && ResumeNext(plan, w, l) == Some(w')
    ensures FreeOfCommits(plan, w.db, TempOf(plan, w, l)) && w'.proc.Resuming? && StepShown(plan, w'.files, w'.proc.step)
  {
    hide RowInv, TI.Inv, DbShape, FilesInv, Unendangered, FreeOfCommits, MatchesPlan, Decide, RecoverOneNext, IsTempOf;
    var c := w.proc.step.c;
    CaseInHand(plan, w);
    ActStep(plan, w, l, w');
    CaseReceipt(plan, w.db, c);
    ProvenTempIsFree(plan, w.db, w.files, c);
    MoveShown(plan, w, l, w');
  }

  lemma OtherResumeShown(plan: Plan, w: World, l: Label, w': World)
    requires RowInv(plan, w) && (w.proc.Resuming? ==> StepShown(plan, w.files, w.proc.step))
    requires ResumeNext(plan, w, l) == Some(w') && !MovesFiles(l) && !l.ResumeSettle?
    ensures w'.proc.Resuming? && StepShown(plan, w'.files, w'.proc.step)
  {
    hide RowInv, RecoverOneNext, PickNext, StepShown;
    if l.ResumePick? {
      PickOk(plan, w, w');
      PickedShown(plan, w'.files, w'.proc.step);
    } else if l.ResumeStart? || l.ResumeSkip? {
      PickedShown(plan, w'.files, Pick);
    } else {
      RecoverOneLabels(plan, w, l);
      if l.ResumeFinal? {
        FinalShown(plan, w, w');
      } else {
        LookShown(plan, w, l, w');
      }
    }
  }

  lemma PickedShown(plan: Plan, files: map<string, Bytes>, step: RecoverStep)
    requires step.Pick? || step.Loaded? || (step.Settle? && step.verdict == RecoverInconsistent)
    ensures StepShown(plan, files, step)
  {
  }

  /** The target of the case is called like its temporary file. */
  predicate OwnClash(plan: Plan, c: Case) {
    c.task in plan.assets && IntentFor(plan, c).tempPath == plan.assets[c.task].spec.target
  }

  /** What holds within one resume even where names clash: only the cleanup of a task whose target is its own temporary
      file can settle it without a target. */
  predicate StepSeen(plan: Plan, files: map<string, Bytes>, proc: Proc) {
    proc.Resuming? ==> StepShown(plan, files, proc.step) || (proc.step.Settle? && OwnClash(plan, proc.step.c))
  }

  lemma MoveSeen(plan: Plan, w: World, l: Label, w': World)
    requires RowInv(plan, w) && StepSeen(plan, w.files, w.proc) && MovesFiles(l) && ResumeNext(plan, w, l) == Some(w')
    ensures StepSeen(plan, w'.files, w'.proc)
  {
    hide RowInv, RecoverOneNext, ResumeNext, StepShown, TempName;
    ActStep(plan, w, l, w');
    MoveEnds(plan, w, l, w');
    if !OwnClash(plan, w.proc.step.c) {
      MoveShown(plan, w, l, w');
    }
  }

  lemma MoveEnds(plan: Plan, w: World, l: Label, w': World)
    requires w.proc.Resuming? && w.proc.step != Pick && MovesFiles(l)
    requires w.proc.step.c.task in plan.assets && w.proc.step.c.task in w.db.tasks && RecoverOneNext(plan, w, l) == Some(w')
    ensures w'.proc.Resuming? && w'.proc.step == Settle(w.proc.step.c, RecoverSucceeded)
  {
    hide DecideNext, Shows, TempName;
  }

  lemma ResumeSeen(plan: Plan, w: World, l: Label, w': World)
    requires RowInv(plan, w) && StepSeen(plan, w.files, w.proc) && ResumeNext(plan, w, l) == Some(w')
    ensures StepSeen(plan, w'.files, w'.proc)
  {
    hide RowInv, RecoverOneNext, StartNext, PickNext, StepShown, OwnClash, Recover;
    PickedShown(plan, w'.files, Pick);
    if MovesFiles(l) {
      MoveSeen(plan, w, l, w');
    } else if l.ResumeSettle? {
      SettleForm(plan, w, w');
    } else if l.ResumeStart? || l.ResumePick? || l.ResumeSkip? {
      NotShownBefore(plan, w, l, w');
    } else {
      RecoverOneLabels(plan, w, l);
      RecoverOneForm(plan, w, l, w');
      OtherResumeShown(plan, w, l, w');
    }
  }

  lemma NotShownBefore(plan: Plan, w: World, l: Label, w': World)
    requires ResumeNext(plan, w, l) == Some(w') && (l.ResumeStart? || l.ResumePick? || l.ResumeSkip?)
    ensures StepSeen(plan, w'.files, w'.proc)
  {
    hide RecoverOneNext, PickNext;
    if l.ResumePick? {
      PickOk(plan, w, w');
    }
  }

  /** Every step keeps what one resume has seen, whatever the plan calls its targets. */
  lemma StepKeepsSeen(plan: Plan, w: World, l: Label, w': World)
    requires PlanShape(plan) && RowInv(plan, w) && StepSeen(plan, w.files, w.proc) && Next(plan, w, l) == Some(w')
    ensures StepSeen(plan, w'.files, w'.proc)
  {
    hide RowInv, PlanShape, WorkerNext, ResumeNext, MigrateNext, StepShown, OwnClash;
    if IsMigrateLabel(l) {
      MigrateShown(plan, w, l, w');
    } else if IsWorkerLabel(l) {
      WorkerKeepsPhase(plan, w, l, w');
    } else if !l.Stop? && !l.SourceChanges? {
      ResumeSeen(plan, w, l, w');
    }
  }

  lemma WorkerKeepsPhase(plan: Plan, w: World, l: Label, w': World)
    requires IsWorkerLabel(l) && WorkerNext(plan, w, l.task, l) == Some(w')
    ensures w'.proc.Migrating?
  {
    hide Advance, PersistReceipt, Finish, TempName, CopyResultPossible;
  }

  lemma CommitKeepsShown(plan: Plan, db: Tables, files: map<string, Bytes>, c: Case)
    requires FilesInv(plan, db, files) && CaseOk(plan, db, c) && TargetShown(plan, files, c)
    requires Release(db, c.task, c.owner, c.attempt, Succeeded, Committed, None).Ok?
    ensures FilesInv(plan, Release(db, c.task, c.owner, c.attempt, Succeeded, Committed, None).value, files)
  {
    var db' := Release(db, c.task, c.owner, c.attempt, Succeeded, Committed, None).value;
    forall b | b in db'.attempts ensures CommitShown(plan, db', files, b) {
      assert CommitShown(plan, db, files, b);
    }
  }

  lemma SettleStep(plan: Plan, w: World, w': World)
    requires Inv(plan, w) && ResumeNext(plan, w, ResumeSettle) == Some(w')
    ensures Inv(plan, w') && w'.files == w.files
  {
    hide RowInv, FilesInv, Release, NoNewCommit, CaseOk, RecoverOneNext, ResumeNext, TargetShown;
    SettleForm(plan, w, w');
    SettleRows(plan, w, w');
    CaseInHand(plan, w);
    if w.proc.step.verdict == RecoverSucceeded {
      CommitKeepsShown(plan, w.db, w.files, w.proc.step.c);
    } else {
      CommitsKept(plan, w.db, w'.db, w.files);
    }
  }

  // ---------------------------------------------------------------- every step

  lemma SameFilesKept(plan: Plan, db: Tables, files: map<string, Bytes>)
    ensures KeepsPublished(plan, db, files, files)
  {
  }

  /** The evidence in hand after a step that touches no file. */
  lemma QuietShown(plan: Plan, w: World, l: Label, w': World)
    requires PlanShape(plan) && Inv(plan, w) && Next(plan, w, l) == Some(w') && NoNewCommit(w.db, w'.db)
    requires !WritesTemp(l) && !MovesFiles(l) && !l.ResumeSettle?
    ensures ProcShown(plan, w'.db, w'.files, w'.proc)
  {
    hide RowInv, FilesInv, NoNewCommit, PlanShape, MigrateNext, WorkerNext, ResumeNext, CopiesFree, StepShown;
    if l.SourceChanges? {
      if w.proc.Migrating? {
        CopiesStayFree(plan, w.db, w'.db, w.proc.workers, w'.proc.workers);
      }
    } else if IsMigrateLabel(l) {
      MigrateShown(plan, w, l, w');
      if w'.proc.Migrating? {
        NoCopies(plan, w'.db);
        if w'.proc.workers != map[] {
          CopiesStayFree(plan, w.db, w'.db, w.proc.workers, w'.proc.workers);
        }
      }
    } else if IsWorkerLabel(l) {
      WorkerShown(plan, w, l, w');
      CopiesStayFree(plan, w.db, w'.db, w.proc.workers, w'.proc.workers);
    } else if !l.Stop? {
      OtherResumeShown(plan, w, l, w');
    }
  }

  lemma NoCopies(plan: Plan, db: Tables)
    ensures CopiesFree(plan, db, map[])
  {
  }

  /** The steps on temporary files spare the published targets. */
  lemma FileStep(plan: Plan, w: World, l: Label, w': World)
    requires PlanShape(plan) && Inv(plan, w) && Next(plan, w, l) == Some(w') && (WritesTemp(l) || MovesFiles(l))
    requires MovesFiles(l) ==> Unendangered(plan)
    ensures KeepsPublished(plan, w.db, w.files, w'.files) && ProcShown(plan, w'.db, w'.files, w'.proc)
  {
    hide Inv, RowInv, PlanShape, Unendangered, FreeOfCommits, KeepsPublished, Next, WorkerNext, ResumeNext, TempOf, StepShown, IsTempOf;
    StepPart(plan, w, l, w');
    InvRows(plan, w);
    StepFiles(plan, w, l, w');
    if WritesTemp(l) {
      WritesAreSafe(plan, w, l, w');
    } else {
      MovesAreSafe(plan, w, l, w');
    }
    OneTempChanges(plan, w.db, w.files, w'.files, TempOf(plan, w, l));
  }

  /** Each step, crash or outside change of a source keeps the invariant and every published target. Only the steps of
      resume that move files need the hypothesis on the names. */
  lemma StepKeepsInv(plan: Plan, w: World, l: Label, w': World)
    requires PlanShape(plan) && Inv(plan, w) && Next(plan, w, l) == Some(w') && (MovesFiles(l) ==> Unendangered(plan))
    ensures KeepsPublished(plan, w.db, w.files, w'.files) && Inv(plan, w')
  {
    hide Inv, RowInv, NoNewCommit, PlanShape, KeepsPublished, Unendangered, Next, ResumeNext, ProcShown;
    SameFilesKept(plan, w.db, w.files);
    if l.ResumeSettle? {
      StepPart(plan, w, l, w');
      SettleStep(plan, w, w');
    } else {
      InvRows(plan, w);
      OtherStepsKeepRows(plan, w, l, w');
      if WritesTemp(l) || MovesFiles(l) {
        FileStep(plan, w, l, w');
      } else {
        StepFiles(plan, w, l, w');
        QuietShown(plan, w, l, w');
      }
      FilesMove(plan, w, w');
    }
  }

  lemma InitialInv(plan: Plan, w: World)
    requires Initial(w)
    ensures Inv(plan, w)
  {
    hide RowInv;
    InitialRows(plan, w);
  }
}
