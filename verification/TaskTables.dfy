/** The rows one plan owns in the runtime database, and each transaction of
    src/app/task_runtime_repository.cpp as a total function from rows to rows or an error code.
    An error always means the transaction was rolled back. */
module TaskTables {
  import opened Common
  import opened Tasks
  import opened StringOrder
  import Dependencies

  datatype TaskRow = TaskRow(
    key: string, kind: TaskType, state: TaskState, owner: Option<nat>, active: Option<string>, attemptCount: nat,
    target: string, expectedSize: nat, expectedDigest: Option<Digest>, lastError: Option<Code>)

  datatype AttemptRow = AttemptRow(
    task: string, epoch: nat, state: AttemptState, finished: bool, result: Option<TaskState>, error: Option<Code>)

  /** migration.current_epoch, plan_task, task_dependency, task_attempt and verified_receipt of one plan. */
  datatype Tables = Tables(
    epoch: nat,
    tasks: map<string, TaskRow>,
    deps: set<(string, string)>,
    attempts: map<string, AttemptRow>,
    receipts: map<(string, string), VerifiedReceipt>)

  const EMPTY := Tables(0, map[], {}, map[], map[])

  predicate EpochAttemptOk(epoch: nat, attempt: string) {
    0 < epoch <= INT64_MAX && ValidId(attempt)
  }

  /** CheckTaskOwnership. */
  function Ownership(db: Tables, task: string, epoch: nat, attempt: string): Status {
    if task !in db.tasks then Err(NotFound)
    else
      var row := db.tasks[task];
      if row.owner.None? || row.active.None? then Err(Internal)
      else if row.state != Running || row.owner != Some(epoch) || row.active != Some(attempt) then Err(InvalidArgument)
      else Ok(())
  }

  /** The WHERE clause of UpdateAttemptState selects exactly one row. */
  predicate HasAttempt(db: Tables, task: string, epoch: nat, attempt: string) {
    attempt in db.attempts && db.attempts[attempt].task == task && db.attempts[attempt].epoch == epoch
  }

  function SetAttempt(
    db: Tables, attempt: string, state: AttemptState, finished: bool, result: Option<TaskState>, error: Option<Code>): Tables
    requires attempt in db.attempts
  {
    db.(attempts := db.attempts[attempt :=
      db.attempts[attempt].(state := state, finished := finished, result := result, error := error)])
  }

  function AcquireEpoch(db: Tables): Outcome<Tables> {
    if db.epoch >= INT64_MAX then Err(InvalidArgument) else Ok(db.(epoch := db.epoch + 1))
  }

  function AddTask(db: Tables, spec: TaskSpec): Outcome<Tables> {
    if !ValidTaskSpec(spec) || spec.estimatedBytes > INT64_MAX then Err(InvalidArgument)
    else if spec.id in db.tasks || exists t :: t in db.tasks && db.tasks[t].key == spec.key then Err(AlreadyExists)
    else Ok(db.(tasks := db.tasks[spec.id := TaskRow(
      spec.key, spec.kind, Planned, None, None, 0, spec.target, spec.estimatedBytes, spec.expectedDigest, None)]))
  }

  /** The dependency insert; `Dependencies.Reaches` is the recursive query over ancestors. */
  ghost function AddDependency(db: Tables, task: string, dependsOn: string): Outcome<Tables> {
    if !ValidId(task) || !ValidId(dependsOn) || task == dependsOn then Err(InvalidArgument)
    else if Dependencies.Reaches(db.deps, dependsOn, task) then Err(InvalidArgument)
    else if task !in db.tasks || dependsOn !in db.tasks then Err(NotFound)
    else if (task, dependsOn) in db.deps then Err(IoError)
    else Ok(db.(deps := db.deps + {(task, dependsOn)}))
  }

  /** NOT EXISTS a recorded dependency whose row is not SUCCEEDED. */
  predicate DependenciesMet(db: Tables, task: string) {
    forall d :: d in db.deps && d.0 == task && d.1 in db.tasks ==> db.tasks[d.1].state == Succeeded
  }

  function SetReady(db: Tables, task: string): Outcome<Tables> {
    if ValidId(task) && task in db.tasks && db.tasks[task].state in {Planned, Retryable} && DependenciesMet(db, task) then
      Ok(db.(tasks := db.tasks[task := db.tasks[task].(
        state := Ready, owner := None, active := None, lastError := None)]))
    else Err(InvalidArgument)
  }

  predicate Claimable(db: Tables, task: string) {
    task in db.tasks && db.tasks[task].state == Ready && DependenciesMet(db, task)
  }

  /** The row picked by ORDER BY task_id LIMIT 1. */
  ghost predicate IsNextReady(db: Tables, task: string) {
    Claimable(db, task) && forall t :: Claimable(db, t) ==> Le(task, t)
  }

  /** ClaimNextReadyImpl once the query has returned `task`; `taken` are attempt ids other plans use,
      since task_attempt.attempt_id is one primary key for the whole database. */
  function Claim(db: Tables, task: string, epoch: nat, attempt: string, taken: set<string>): Outcome<Tables>
    requires task in db.tasks
  {
    var row := db.tasks[task];
    if !EpochAttemptOk(epoch, attempt) || db.epoch != epoch then Err(InvalidArgument)
    else if row.attemptCount >= UINT32_MAX || row.active.Some? then Err(InvalidArgument)
    else if attempt in db.attempts || attempt in taken then Err(IoError)
    else Ok(db.(
      tasks := db.tasks[task := row.(
        state := Running, owner := Some(epoch), active := Some(attempt),
        attemptCount := row.attemptCount + 1, lastError := None)],
      attempts := db.attempts[attempt := AttemptRow(task, epoch, AttemptRunning, false, None, None)]))
  }

  /** AdvanceAttempt, behind MarkCommitIntent and MarkTempWritten. */
  function Advance(db: Tables, task: string, epoch: nat, attempt: string, next: AttemptState): Outcome<Tables> {
    if !ValidId(task) || !EpochAttemptOk(epoch, attempt) || db.epoch != epoch then Err(InvalidArgument)
    else
      var owned := Ownership(db, task, epoch, attempt);
      if owned.Err? then Err(owned.code)
      else if !HasAttempt(db, task, epoch, attempt) then Err(NotFound)
      else if db.attempts[attempt].state == next then Ok(db)
      else if !AttemptEdge(db.attempts[attempt].state, next) then Err(InvalidArgument)
      else Ok(SetAttempt(db, attempt, next, false, None, None))
  }

  predicate ReceiptComplete(r: VerifiedReceipt) {
    && ValidId(r.task) && EpochAttemptOk(r.ownerEpoch, r.attempt)
    && r.tempPath != "" && r.finalPath != "" && r.sourceDigest.Some? && r.sourceIdentity.Some?
    && r.contentSize <= INT64_MAX
  }

  /** PersistVerifiedReceipt: writes VERIFIED_DURABLE without consulting the attempt's previous state. */
  function PersistReceipt(db: Tables, r: VerifiedReceipt): Outcome<Tables> {
    if !ReceiptComplete(r) || db.epoch != r.ownerEpoch then Err(InvalidArgument)
    else
      var owned := Ownership(db, r.task, r.ownerEpoch, r.attempt);
      if owned.Err? then Err(owned.code)
      else if (r.task, r.attempt) in db.receipts then
        if db.receipts[(r.task, r.attempt)] == r then Ok(db) else Err(Internal)
      else if r.attempt !in db.attempts then Err(IoError)
      else if !HasAttempt(db, r.task, r.ownerEpoch, r.attempt) then Err(InvalidArgument)
      else Ok(SetAttempt(db.(receipts := db.receipts[(r.task, r.attempt) := r]),
                         r.attempt, VerifiedDurable, false, None, None))
  }

  /** The guarded UPDATE shared by FinishTask and RecoverTask, followed by the attempt update. */
  function Release(
    db: Tables, task: string, owner: nat, attempt: string, next: TaskState, attemptNext: AttemptState, error: Option<Code>)
    : Outcome<Tables>
  {
    if task !in db.tasks || db.tasks[task].owner != Some(owner) || db.tasks[task].active != Some(attempt)
       || db.tasks[task].state != Running then Err(InvalidArgument)
    else if !HasAttempt(db, task, owner, attempt) then Err(InvalidArgument)
    else Ok(SetAttempt(
      db.(tasks := db.tasks[task := db.tasks[task].(state := next, owner := None, active := None, lastError := error)]),
      attempt, attemptNext, true, Some(next), error))
  }

  /** FinishTask, behind MarkSucceeded (no error) and MarkRetryable. */
  function Finish(db: Tables, task: string, epoch: nat, attempt: string, error: Option<Code>): Outcome<Tables> {
    if !ValidId(task) || !EpochAttemptOk(epoch, attempt) || db.epoch != epoch then Err(InvalidArgument)
    else if error.None? then Release(db, task, epoch, attempt, Succeeded, Committed, None)
    else Release(db, task, epoch, attempt, Retryable, AttemptRetryable, error)
  }

  datatype Verdict = RecoverSucceeded | RecoverRetryable | RecoverInconsistent

  /** RecoverTask: a newer epoch settles a task still owned by `owner`. */
  function Recover(db: Tables, task: string, epoch: nat, owner: nat, attempt: string, verdict: Verdict): Outcome<Tables> {
    if !ValidId(task) || !EpochAttemptOk(epoch, attempt) || !EpochAttemptOk(owner, attempt) || db.epoch != epoch then
      Err(InvalidArgument)
    else match verdict
      case RecoverSucceeded => Release(db, task, owner, attempt, Succeeded, Committed, None)
      case RecoverRetryable => Release(db, task, owner, attempt, Retryable, AttemptRetryable, Some(IoError))
      case RecoverInconsistent => Release(db, task, owner, attempt, Inconsistent, AttemptInconsistent, Some(Internal))
  }

  /** The row of a task as the readers see it. */
  function RuntimeOf(db: Tables, task: string): TaskRuntime
    requires task in db.tasks
  {
    var row := db.tasks[task];
    TaskRuntime(task, row.state, if row.owner.Some? then row.owner.value else 0, row.active, row.attemptCount, row.lastError)
  }

  function ReadRuntime(db: Tables, task: string): Outcome<TaskRuntime> {
    if !ValidId(task) then Err(InvalidArgument)
    else if task !in db.tasks then Err(NotFound)
    else Ok(RuntimeOf(db, task))
  }

  function ReadReceipt(db: Tables, task: string, attempt: string): Outcome<VerifiedReceipt> {
    if !ValidId(task) || !ValidId(attempt) then Err(InvalidArgument)
    else if (task, attempt) !in db.receipts then Err(NotFound)
    else Ok(db.receipts[(task, attempt)])
  }

  /** Every repository call that can write, with its arguments. */
  datatype Op =
    | OpAcquireEpoch
    | OpAddTask(spec: TaskSpec)
    | OpAddDependency(task: string, dependsOn: string)
    | OpSetReady(task: string)
    | OpClaim(task: string, epoch: nat, attempt: string, taken: set<string>)
    | OpAdvance(task: string, epoch: nat, attempt: string, next: AttemptState)
    | OpReceipt(receipt: VerifiedReceipt)
    | OpFinish(task: string, epoch: nat, attempt: string, error: Option<Code>)
    | OpRecover(task: string, epoch: nat, owner: nat, attempt: string, verdict: Verdict)

  ghost function Apply(db: Tables, op: Op): Outcome<Tables> {
    match op
    case OpAcquireEpoch => AcquireEpoch(db)
    case OpAddTask(spec) => AddTask(db, spec)
    case OpAddDependency(t, d) => AddDependency(db, t, d)
    case OpSetReady(t) => SetReady(db, t)
    case OpClaim(t, e, a, taken) => if IsNextReady(db, t) then Claim(db, t, e, a, taken) else Err(NotFound)
    case OpAdvance(t, e, a, next) =>
      if next == CommitIntent || next == TempWritten then Advance(db, t, e, a, next) else Err(InvalidArgument)
    case OpReceipt(r) => PersistReceipt(db, r)
    case OpFinish(t, e, a, error) => Finish(db, t, e, a, error)
    case OpRecover(t, e, o, a, v) => Recover(db, t, e, o, a, v)
  }

  /** A failed call is rolled back, so it leaves the rows alone. */
  ghost function After(db: Tables, op: Op): Tables {
    var r := Apply(db, op);
    if r.Ok? then r.value else db
  }
}
