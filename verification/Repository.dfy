/** TaskRuntimeRepository of src/app/task_runtime_repository.cpp: the rows of all plans, the open transaction and the
    write batch. Any statement may fail; a failed call leaves the rows as its transaction found them. */
module Repository {
  import opened Common
  import opened Tasks
  import opened TaskTables
  import opened StringOrder
  import opened TempNames
  import opened RowEffects
  import Dependencies
  import Decimal

  type Database = map<string, Tables>

  /** Attempt ids used by other plans: task_attempt.attempt_id is unique in the whole database. */
  function Taken(db: Database, plan: string): set<string> {
    set p, a | p in db && p != plan && a in db[p].attempts :: a
  }

  /** The repository calls of the migrate workers. */
  datatype Command =
    | ClaimNext(plan: string, epoch: nat)
    | MarkCommitIntent(plan: string, task: string, epoch: nat, attempt: string)
    | MarkTempWritten(plan: string, task: string, epoch: nat, attempt: string)
    | SaveReceipt(plan: string, receipt: VerifiedReceipt)
    | MarkRetryable(plan: string, task: string, epoch: nat, attempt: string, error: Code)

  datatype Answer = Nothing | Claimed(task: string, runtime: TaskRuntime)

  function TaskOf(c: Command): string {
    match c
    case ClaimNext(_, _) => "claim"
    case SaveReceipt(_, r) => r.task
    case _ => c.task
  }

  function EpochOf(c: Command): nat {
    match c
    case SaveReceipt(_, r) => r.ownerEpoch
    case _ => c.epoch
  }

  function AttemptOf(c: Command): string {
    match c
    case ClaimNext(_, _) => "generated"
    case SaveReceipt(_, r) => r.attempt
    case _ => c.attempt
  }

  /** The checks made before any transaction begins. */
  predicate ArgumentsOk(c: Command) {
    && ValidId(c.plan) && ValidId(TaskOf(c)) && EpochAttemptOk(EpochOf(c), AttemptOf(c))
    && (c.SaveReceipt? ==> ReceiptComplete(c.receipt))
  }

  ghost predicate SomeReady(t: Tables) {
    exists u :: IsNextReady(t, u)
  }

  ghost function NextReady(t: Tables): string
    requires SomeReady(t)
  {
    var u :| IsNextReady(t, u); u
  }

  lemma NextReadyUnique(t: Tables, u: string, v: string)
    requires IsNextReady(t, u) && IsNextReady(t, v)
    ensures u == v
  {
    LeAntisymmetric(u, v);
  }

  function RowsOnly(r: Outcome<Tables>): Outcome<(Tables, Answer)> {
    if r.Ok? then Ok((r.value, Nothing)) else Err(r.code)
  }

  /** The claim of the next task, with a generated attempt id or the supplied one. */
  ghost function ClaimEffect(t: Tables, plan: string, epoch: nat, supplied: Option<string>, taken: set<string>)
    : Outcome<(Tables, Answer)>
  {
    if t.epoch != epoch then Err(InvalidArgument)
    else if !SomeReady(t) then Err(NotFound)
    else
      var u := NextReady(t);
      var attempt := if supplied.Some? then supplied.value else GeneratedAttemptId(plan, u, t.tasks[u].attemptCount + 1);
      var r := Claim(t, u, epoch, attempt, taken);
      if r.Err? then Err(r.code) else Ok((r.value, Claimed(u, RuntimeOf(r.value, u))))
  }

  /** A command as one transaction: the new rows and the answer, or the error after which nothing has changed. */
  ghost function PlanEffect(t: Tables, taken: set<string>, c: Command): Outcome<(Tables, Answer)> {
    match c
    case ClaimNext(plan, epoch) => ClaimEffect(t, plan, epoch, None, taken)
    case MarkCommitIntent(_, task, epoch, attempt) => RowsOnly(Advance(t, task, epoch, attempt, CommitIntent))
    case MarkTempWritten(_, task, epoch, attempt) => RowsOnly(Advance(t, task, epoch, attempt, TempWritten))
    case SaveReceipt(_, receipt) => RowsOnly(PersistReceipt(t, receipt))
    case MarkRetryable(_, task, epoch, attempt, error) => RowsOnly(Finish(t, task, epoch, attempt, Some(error)))
  }

  ghost function Effect(db: Database, c: Command): Outcome<(Database, Answer)> {
    if !ArgumentsOk(c) then Err(InvalidArgument)
    else if c.plan !in db then Err(NotFound)
    else
      var r := PlanEffect(db[c.plan], Taken(db, c.plan), c);
      if r.Ok? then Ok((db[c.plan := r.value.0], r.value.1)) else Err(r.code)
  }

  lemma EffectKeepsEpoch(db: Database, c: Command)
    requires Effect(db, c).Ok?
    ensures c.plan in db && c.plan in Effect(db, c).value.0
    ensures Effect(db, c).value.0[c.plan].epoch == db[c.plan].epoch
  {
    match c
    case ClaimNext(_, _) =>
    case MarkCommitIntent(_, _, _, _) =>
    case MarkTempWritten(_, _, _, _) =>
    case SaveReceipt(_, _) =>
    case MarkRetryable(_, _, _, _, _) =>
  }

  // ---------------------------------------------------------------- commands as guard and effect

  /** The answer to a claim: a task that was READY, the least that could be claimed, is RUNNING under the new attempt, and
      the caller learns the row as it is now. */
  ghost predicate ClaimAnswered(t: Tables, t': Tables, epoch: nat, attempt: string, answer: Answer) {
    && answer.Claimed? && FirstReady(t, answer.task) && Started(t, t', answer.task, epoch, attempt)
    && answer.runtime == TaskRuntime(answer.task, Running, epoch, Some(attempt), t.tasks[answer.task].attemptCount + 1, None)
  }

  /** The attempt id of a claim that brings none: plan, task and the number of the claim. */
  function NextAttempt(t: Tables, plan: string, task: string): string
    requires task in t.tasks
  {
    "attempt-" + plan + "-" + task + "-" + Decimal.Print(t.tasks[task].attemptCount + 1)
  }

  /** What a command that is answered OK has done to the rows of its plan, said of the rows before and after it. */
  ghost predicate PlanDid(t: Tables, c: Command, t': Tables, answer: Answer) {
    match c
    case ClaimNext(plan, epoch) =>
      answer.Claimed? && answer.task in t.tasks && ClaimAnswered(t, t', epoch, NextAttempt(t, plan, answer.task), answer)
    case MarkCommitIntent(_, task, epoch, attempt) => answer == Nothing && Advanced(t, t', task, epoch, attempt, CommitIntent)
    case MarkTempWritten(_, task, epoch, attempt) => answer == Nothing && Advanced(t, t', task, epoch, attempt, TempWritten)
    case SaveReceipt(_, receipt) => answer == Nothing && Recorded(t, t', receipt)
    case MarkRetryable(_, task, epoch, attempt, error) =>
      answer == Nothing && Released(t, t', task, epoch, attempt, Retryable, AttemptRetryable, Some(error))
  }

  /** No other plan is touched. */
  ghost predicate Performed(before: Database, c: Command, after: Database, answer: Answer) {
    && c.plan in before && c.plan in after && after == before[c.plan := after[c.plan]]
    && PlanDid(before[c.plan], c, after[c.plan], answer)
  }

  /** The guard of a command. */
  ghost predicate PlanAllows(t: Tables, taken: set<string>, c: Command) {
    match c
    case ClaimNext(plan, epoch) =>
      exists u :: u in t.tasks && Allowed(t, OpClaim(u, epoch, NextAttempt(t, plan, u), taken))
    case MarkCommitIntent(_, task, epoch, attempt) => Allowed(t, OpAdvance(task, epoch, attempt, CommitIntent))
    case MarkTempWritten(_, task, epoch, attempt) => Allowed(t, OpAdvance(task, epoch, attempt, TempWritten))
    case SaveReceipt(_, receipt) => Allowed(t, OpReceipt(receipt))
    case MarkRetryable(_, task, epoch, attempt, error) => Allowed(t, OpFinish(task, epoch, attempt, Some(error)))
  }

  ghost predicate Permitted(db: Database, c: Command) {
    c.plan != "" && '\0' !in c.plan && c.plan in db && PlanAllows(db[c.plan], Taken(db, c.plan), c)
  }

  lemma ClaimEffectExactly(t: Tables, plan: string, epoch: nat, supplied: Option<string>, taken: set<string>)
    requires 0 < epoch <= INT64_MAX
    ensures ClaimEffect(t, plan, epoch, supplied, taken).Ok? <==>
              exists u :: u in t.tasks && Allowed(t, OpClaim(u, epoch, if supplied.Some? then supplied.value else NextAttempt(t, plan, u), taken))
    ensures ClaimEffect(t, plan, epoch, supplied, taken).Ok? ==>
              var r := ClaimEffect(t, plan, epoch, supplied, taken).value;
              r.1.Claimed? && r.1.task in t.tasks
              && ClaimAnswered(t, r.0, epoch, if supplied.Some? then supplied.value else NextAttempt(t, plan, r.1.task), r.1)
  {
    hide Claim, Started, IsNextReady, FirstReady;
    if SomeReady(t) {
      var u := NextReady(t);
      ReadyIsRecorded(t, u);
      NextReadyExactly(t, u);
      var attempt := if supplied.Some? then supplied.value else NextAttempt(t, plan, u);
      ClaimExactly(t, u, epoch, attempt, taken);
      if Claim(t, u, epoch, attempt, taken).Ok? {
        RuntimeAfterClaim(t, u, epoch, attempt, taken);
      }
    }
    forall u, a: string | u in t.tasks && Allowed(t, OpClaim(u, epoch, a, taken)) ensures SomeReady(t) && u == NextReady(t) {
      NextReadyExactly(t, u);
      assert IsNextReady(t, u);
      NextReadyUnique(t, u, NextReady(t));
    }
  }

  lemma ReadyIsRecorded(t: Tables, u: string)
    requires IsNextReady(t, u)
    ensures u in t.tasks
  {
  }

  lemma RuntimeAfterClaim(t: Tables, u: string, epoch: nat, attempt: string, taken: set<string>)
    requires u in t.tasks && Claim(t, u, epoch, attempt, taken).Ok?
    ensures RuntimeOf(Claim(t, u, epoch, attempt, taken).value, u)
         == TaskRuntime(u, Running, epoch, Some(attempt), t.tasks[u].attemptCount + 1, None)
  {
  }

  lemma PlanEffectExactly(t: Tables, taken: set<string>, c: Command)
    requires ArgumentsOk(c)
    ensures PlanEffect(t, taken, c).Ok? <==> PlanAllows(t, taken, c)
    ensures PlanEffect(t, taken, c).Ok? ==> PlanDid(t, c, PlanEffect(t, taken, c).value.0, PlanEffect(t, taken, c).value.1)
  {
    hide ClaimEffect, ClaimAnswered, Advance, PersistReceipt, Finish, Allowed, Advanced, Recorded, Released, ReceiptComplete, NextAttempt;
    match c
    case ClaimNext(plan, epoch) => ClaimEffectExactly(t, plan, epoch, None, taken);
    case MarkCommitIntent(_, task, epoch, attempt) => AdvanceExactly(t, task, epoch, attempt, CommitIntent);
    case MarkTempWritten(_, task, epoch, attempt) => AdvanceExactly(t, task, epoch, attempt, TempWritten);
    case SaveReceipt(_, receipt) => ReceiptExactly(t, receipt);
    case MarkRetryable(_, task, epoch, attempt, error) => RetryExactly(t, task, epoch, attempt, error);
  }

  lemma RetryExactly(t: Tables, task: string, epoch: nat, attempt: string, error: Code)
    ensures Finish(t, task, epoch, attempt, Some(error)).Ok? <==> Allowed(t, OpFinish(task, epoch, attempt, Some(error)))
    ensures Finish(t, task, epoch, attempt, Some(error)).Ok? ==>
              Released(t, Finish(t, task, epoch, attempt, Some(error)).value, task, epoch, attempt,
                       Retryable, AttemptRetryable, Some(error))
  {
    hide Released;
    ReleaseExactly(t, task, epoch, attempt, Retryable, AttemptRetryable, Some(error));
  }

  /** The guard of a command covers the checks made before its transaction. */
  lemma PermittedArguments(db: Database, c: Command)
    requires Permitted(db, c)
    ensures ArgumentsOk(c)
  {
    hide FirstReady, NextAttempt;
    assert ValidId("claim") && ValidId("generated");
  }

  /** A command is answered OK exactly when its guard holds, and has then done exactly what it says. */
  lemma EffectExactly(db: Database, c: Command)
    ensures Effect(db, c).Ok? <==> Permitted(db, c)
    ensures Effect(db, c).Ok? ==> Performed(db, c, Effect(db, c).value.0, Effect(db, c).value.1)
  {
    hide PlanEffect, PlanAllows, PlanDid, Taken, ReceiptComplete, EpochAttemptOk;
    if ArgumentsOk(c) && c.plan in db {
      PlanEffectExactly(db[c.plan], Taken(db, c.plan), c);
    }
    if Permitted(db, c) {
      PermittedArguments(db, c);
    }
  }

  /** Task ids were checked when the rows were inserted. */
  predicate IdsValid(db: Database) {
    forall p, t :: p in db && t in db[p].tasks ==> ValidId(t)
  }

  lemma EffectKeepsTasks(db: Database, c: Command)
    requires Effect(db, c).Ok?
    ensures Effect(db, c).value.0.Keys == db.Keys
    ensures forall p :: p in db ==> Effect(db, c).value.0[p].tasks.Keys == db[p].tasks.Keys
  {
    match c
    case ClaimNext(_, _) =>
    case MarkCommitIntent(_, _, _, _) =>
    case MarkTempWritten(_, _, _, _) =>
    case SaveReceipt(_, _) =>
    case MarkRetryable(_, _, _, _, _) =>
  }

  lemma GeneratedIdValid(plan: string, task: string, n: nat)
    requires ValidId(plan) && ValidId(task)
    ensures ValidId(GeneratedAttemptId(plan, task, n))
  {
    assert Decimal.AllDigits(Decimal.Print(n));
    assert NulFree("attempt-") && NulFree("-") && NulFree(Decimal.Print(n));
  }

  /** The checks made before a claim. */
  predicate ClaimArgumentsOk(plan: string, epoch: nat, supplied: Option<string>) {
    ValidId(plan) && EpochAttemptOk(epoch, if supplied.Some? then supplied.value else "generated")
  }

  class TaskRuntimeRepository {
    var db: Database
    /** The rows at BEGIN IMMEDIATE while a transaction is open. */
    var saved: Option<Database>
    var batchActive: bool
    var batchPlan: string
    var batchEpoch: nat

    constructor (db: Database)
      ensures this.db == db && Idle()
    {
      this.db := db;
      saved, batchActive, batchPlan, batchEpoch := None, false, "", 0;
    }

    ghost predicate Idle()
      reads this
    {
      saved.None? && !batchActive
    }

    /** Inside a write batch: the epoch checked at its beginning is still the plan's epoch. */
    ghost predicate InBatch(plan: string)
      reads this
    {
      && batchActive && batchPlan == plan && saved.Some?
      && plan in db && db[plan].epoch == batchEpoch
    }

    /** What a failed call leaves: outside a batch the old rows; inside, the batch open as it was or rolled back. */
    twostate predicate Undone()
      reads this
    {
      && batchActive == old(batchActive) && batchPlan == old(batchPlan) && batchEpoch == old(batchEpoch)
      && (old(saved).None? ==> saved.None? && db == old(db))
      && (old(saved).Some? ==> saved == old(saved) || (saved.None? && db == old(saved).value))
    }

    /** What a call that succeeds leaves besides its rows. */
    twostate predicate SameBracket()
      reads this
    {
      saved == old(saved) && batchActive == old(batchActive) && batchPlan == old(batchPlan) && batchEpoch == old(batchEpoch)
    }

    /** An error is a failing statement, a missing plan, or the error the rows call for. */
    ghost predicate Explained(before: Database, plan: string, code: Code, expected: Tables -> bool) {
      code == IoError || if plan in before then expected(before[plan]) else code == NotFound
    }

    method Begin() returns (status: Status)
      modifies this`saved
      ensures status.Ok? ==> old(saved).None? && saved == Some(db)
      ensures status.Err? ==> saved == old(saved) && status.code == IoError
    {
      if saved.Some? {
        return Err(IoError);
      }
      if * {
        return Err(IoError);
      }
      saved := Some(db);
      return Ok(());
    }

    method Rollback()
      modifies this`db, this`saved
      ensures saved.None? && db == if old(saved).Some? then old(saved).value else old(db)
    {
      if saved.Some? {
        db := saved.value;
        saved := None;
      }
    }

    /** COMMIT; when it fails the transaction is rolled back. */
    method Commit() returns (status: Status)
      requires saved.Some?
      modifies this`db, this`saved
      ensures saved.None? && db == if status.Ok? then old(db) else old(saved).value
      ensures status.Err? ==> status.code == IoError
    {
      if * {
        Rollback();
        return Err(IoError);
      }
      saved := None;
      return Ok(());
    }

    /** The start of a call: its own transaction, or the batch it runs in. */
    method Enter(plan: string) returns (epoch: Outcome<nat>)
      requires Idle() || InBatch(plan)
      modifies this`db, this`saved
      ensures db == old(db)
      ensures epoch.Ok? ==> plan in db && epoch.value == db[plan].epoch && saved == (if batchActive then old(saved) else Some(db))
      ensures epoch.Err? ==> saved == old(saved) && !batchActive
      ensures epoch.Err? ==> epoch.code == IoError || (epoch.code == NotFound && plan !in db)
    {
      if batchActive {
        return Ok(batchEpoch);
      }
      var status := Begin();
      if status.Err? {
        return Err(status.code);
      }
      if plan !in db {
        Rollback();
        return Err(NotFound);
      }
      return Ok(db[plan].epoch);
    }

    method Leave() returns (status: Status)
      requires saved.Some?
      modifies this`db, this`saved
      ensures batchActive ==> status.Ok? && saved == old(saved) && db == old(db)
      ensures !batchActive ==> saved.None? && db == if status.Ok? then old(db) else old(saved).value
      ensures status.Err? ==> status.code == IoError
    {
      if batchActive {
        return Ok(());
      }
      status := Commit();
    }

    /** UPDATE task_attempt ... WHERE plan, task, attempt and owner epoch match. */
    method UpdateAttempt(
      plan: string, task: string, epoch: nat, attempt: string,
      state: AttemptState, finished: bool, result: Option<TaskState>, error: Option<Code>)
      returns (status: Status)
      requires plan in db
      modifies this`db
      ensures status.Ok? ==>
                && HasAttempt(old(db)[plan], task, epoch, attempt)
                && db == old(db)[plan := SetAttempt(old(db)[plan], attempt, state, finished, result, error)]
      ensures status.Err? ==> db == old(db)
      ensures status == Err(InvalidArgument) ==> !HasAttempt(old(db)[plan], task, epoch, attempt)
      ensures status.Err? ==> status.code in {IoError, InvalidArgument}
    {
      if * {
        return Err(IoError);
      }
      if !HasAttempt(db[plan], task, epoch, attempt) {
        return Err(InvalidArgument);
      }
      db := db[plan := SetAttempt(db[plan], attempt, state, finished, result, error)];
      return Ok(());
    }

    /** AppendTaskEvent; the event log carries no state, but writing it can fail. */
    method AppendEvent() returns (status: Status)
      ensures status.Err? ==> status.code == IoError
    {
      if * {
        return Err(IoError);
      }
      return Ok(());
    }

    method AdvanceAttempt(plan: string, task: string, epoch: nat, attempt: string, next: AttemptState) returns (status: Status)
      requires ValidId(plan) && ValidId(task) && EpochAttemptOk(epoch, attempt)
      requires Idle() || InBatch(plan)
      modifies this`db, this`saved
      ensures status.Ok? ==>
                && SameBracket() && plan in old(db) && Advance(old(db)[plan], task, epoch, attempt, next).Ok?
                && db == old(db)[plan := Advance(old(db)[plan], task, epoch, attempt, next).value]
      ensures status.Err? ==> Undone()
      ensures status.Err? ==> Explained(old(db), plan, status.code, t => Advance(t, task, epoch, attempt, next).Err?
                                        && Advance(t, task, epoch, attempt, next).code == status.code)
    {
      var current := Enter(plan);
      if current.Err? {
        return Err(current.code);
      }
      if current.value != epoch {
        Rollback();
        return Err(InvalidArgument);
      }
      status := Ownership(db[plan], task, epoch, attempt);
      if status.Err? {
        Rollback();
        return;
      }
      if !HasAttempt(db[plan], task, epoch, attempt) {
        Rollback();
        return Err(NotFound);
      }
      var previous := db[plan].attempts[attempt].state;
      if previous == next {
        assert db[plan := db[plan]] == db;
        status := Leave();
        return;
      }
      if !AttemptEdge(previous, next) {
        Rollback();
        return Err(InvalidArgument);
      }
      status := UpdateAttempt(plan, task, epoch, attempt, next, false, None, None);
      if status.Ok? {
        status := AppendEvent();
      }
      if status.Err? {
        Rollback();
        return;
      }
      status := Leave();
    }

    method PersistVerifiedReceipt(plan: string, receipt: VerifiedReceipt) returns (status: Status)
      requires ValidId(plan) && ReceiptComplete(receipt)
      requires Idle() || InBatch(plan)
      modifies this`db, this`saved
      ensures status.Ok? ==>
                && SameBracket() && plan in old(db) && PersistReceipt(old(db)[plan], receipt).Ok?
                && db == old(db)[plan := PersistReceipt(old(db)[plan], receipt).value]
      ensures status.Ok? ==> plan in old(db) && plan in db && Recorded(old(db)[plan], db[plan], receipt)
      ensures status.Err? ==> Undone()
      ensures status.Err? ==> Explained(old(db), plan, status.code, t => PersistReceipt(t, receipt).Err?
                                        && PersistReceipt(t, receipt).code == status.code)
    {
      if plan in db {
        ReceiptExactly(db[plan], receipt);
      }
      var current := Enter(plan);
      if current.Err? {
        return Err(current.code);
      }
      if current.value != receipt.ownerEpoch {
        Rollback();
        return Err(InvalidArgument);
      }
      status := Ownership(db[plan], receipt.task, receipt.ownerEpoch, receipt.attempt);
      if status.Err? {
        Rollback();
        return;
      }
      var key := (receipt.task, receipt.attempt);
      if key in db[plan].receipts {
        if db[plan].receipts[key] != receipt {
          Rollback();
          return Err(Internal);
        }
        assert db[plan := db[plan]] == db;
        status := Leave();
        return;
      }
      var broken: bool := *;
      if broken || receipt.attempt !in db[plan].attempts {
        Rollback();
        return Err(IoError);
      }
      db := db[plan := db[plan].(receipts := db[plan].receipts[key := receipt])];
      status := UpdateAttempt(plan, receipt.task, receipt.ownerEpoch, receipt.attempt, VerifiedDurable, false, None, None);
      if status.Ok? {
        status := AppendEvent();
      }
      if status.Err? {
        Rollback();
        return;
      }
      status := Leave();
    }

    /** The guarded UPDATE of plan_task that FinishTask and RecoverTask share, then the attempt row and the event. */
    method ReleaseTask(
      plan: string, task: string, owner: nat, attempt: string,
      next: TaskState, attemptNext: AttemptState, error: Option<Code>)
      returns (status: Status)
      requires plan in db
      modifies this`db
      ensures status.Ok? ==>
                && Release(old(db)[plan], task, owner, attempt, next, attemptNext, error).Ok?
                && db == old(db)[plan := Release(old(db)[plan], task, owner, attempt, next, attemptNext, error).value]
      ensures status.Err? && status.code != IoError ==>
                Release(old(db)[plan], task, owner, attempt, next, attemptNext, error) == Err(status.code)
    {
      if * {
        return Err(IoError);
      }
      var rows := db[plan].tasks;
      if task !in rows || rows[task].owner != Some(owner) || rows[task].active != Some(attempt) || rows[task].state != Running {
        return Err(InvalidArgument);
      }
      db := db[plan := db[plan].(tasks := rows[task := rows[task].(
        state := next, owner := None, active := None, lastError := error)])];
      status := UpdateAttempt(plan, task, owner, attempt, attemptNext, true, Some(next), error);
      if status.Ok? {
        status := AppendEvent();
      }
    }

    method FinishTask(plan: string, task: string, epoch: nat, attempt: string, error: Option<Code>) returns (status: Status)
      requires ValidId(plan) && ValidId(task) && EpochAttemptOk(epoch, attempt)
      requires Idle() || InBatch(plan)
      modifies this`db, this`saved
      ensures status.Ok? ==>
                && SameBracket() && plan in old(db) && Finish(old(db)[plan], task, epoch, attempt, error).Ok?
                && db == old(db)[plan := Finish(old(db)[plan], task, epoch, attempt, error).value]
      ensures status.Ok? ==> plan in old(db) && plan in db && Did(old(db)[plan], OpFinish(task, epoch, attempt, error), db[plan])
      ensures status.Err? ==> Undone()
      ensures status.Err? ==> Explained(old(db), plan, status.code, t => Finish(t, task, epoch, attempt, error).Err?
                                        && Finish(t, task, epoch, attempt, error).code == status.code)
    {
      if plan in db {
        ApplyExactly(db[plan], OpFinish(task, epoch, attempt, error));
      }
      var current := Enter(plan);
      if current.Err? {
        return Err(current.code);
      }
      if current.value != epoch {
        Rollback();
        return Err(InvalidArgument);
      }
      if error.None? {
        status := ReleaseTask(plan, task, epoch, attempt, Succeeded, Committed, None);
      } else {
        status := ReleaseTask(plan, task, epoch, attempt, Retryable, AttemptRetryable, error);
      }
      if status.Err? {
        Rollback();
        return;
      }
      status := Leave();
    }

    /** RecoverSucceeded, RecoverRetryable and RecoverInconsistent; never part of a batch. */
    method RecoverTask(plan: string, task: string, epoch: nat, owner: nat, attempt: string, verdict: Verdict)
      returns (status: Status)
      requires Idle()
      modifies this`db, this`saved
      ensures status.Ok? ==>
                && Idle() && plan in old(db) && Recover(old(db)[plan], task, epoch, owner, attempt, verdict).Ok?
                && db == old(db)[plan := Recover(old(db)[plan], task, epoch, owner, attempt, verdict).value]
      ensures status.Ok? ==>
                plan in old(db) && plan in db && Did(old(db)[plan], OpRecover(task, epoch, owner, attempt, verdict), db[plan])
      ensures status.Err? ==> Idle() && db == old(db)
      ensures status.Err? && ValidId(plan) ==>
                || status.code == IoError || (plan !in db && status.code in {InvalidArgument, NotFound})
                || (plan in db && Recover(db[plan], task, epoch, owner, attempt, verdict) == Err(status.code))
    {
      if plan in db {
        ApplyExactly(db[plan], OpRecover(task, epoch, owner, attempt, verdict));
      }
      if !ValidId(plan) || !ValidId(task) || !EpochAttemptOk(epoch, attempt) || !EpochAttemptOk(owner, attempt) {
        return Err(InvalidArgument);
      }
      var current := Enter(plan);
      if current.Err? {
        return Err(current.code);
      }
      if current.value != epoch {
        Rollback();
        return Err(InvalidArgument);
      }
      match verdict {
        case RecoverSucceeded => status := ReleaseTask(plan, task, owner, attempt, Succeeded, Committed, None);
        case RecoverRetryable => status := ReleaseTask(plan, task, owner, attempt, Retryable, AttemptRetryable, Some(IoError));
        case RecoverInconsistent =>
          status := ReleaseTask(plan, task, owner, attempt, Inconsistent, AttemptInconsistent, Some(Internal));
      }
      if status.Err? {
        Rollback();
        return;
      }
      status := Leave();
    }

    method AcquireNextExecutionEpoch(plan: string) returns (epoch: Outcome<nat>)
      requires Idle()
      modifies this`db, this`saved
      ensures Idle()
      ensures epoch.Ok? ==>
                && plan in old(db) && AcquireEpoch(old(db)[plan]).Ok?
                && db == old(db)[plan := AcquireEpoch(old(db)[plan]).value] && epoch.value == old(db)[plan].epoch + 1
      ensures epoch.Err? ==> db == old(db)
      ensures epoch.Err? && ValidId(plan) ==>
                || epoch.code == IoError || (plan !in db && epoch.code == NotFound)
                || (plan in db && AcquireEpoch(db[plan]) == Err(epoch.code))
    {
      if !ValidId(plan) {
        return Err(InvalidArgument);
      }
      var current := Enter(plan);
      if current.Err? {
        return Err(current.code);
      }
      if current.value >= INT64_MAX {
        Rollback();
        return Err(InvalidArgument);
      }
      var broken: bool := *;
      if broken {
        Rollback();
        return Err(IoError);
      }
      db := db[plan := db[plan].(epoch := current.value + 1)];
      var status := Leave();
      if status.Err? {
        return Err(status.code);
      }
      return Ok(current.value + 1);
    }

    /** One guarded UPDATE statement. */
    method MakeReady(plan: string, task: string) returns (status: Status)
      requires Idle()
      modifies this`db
      ensures status.Ok? ==>
                plan in old(db) && SetReady(old(db)[plan], task).Ok? && db == old(db)[plan := SetReady(old(db)[plan], task).value]
      ensures status.Ok? ==> plan in old(db) && plan in db && Did(old(db)[plan], OpSetReady(task), db[plan])
      ensures status.Err? ==> db == old(db)
      ensures status.Err? && status.code != IoError && plan in old(db) && ValidId(plan) ==>
                SetReady(old(db)[plan], task) == Err(status.code)
    {
      if plan in db {
        ApplyExactly(db[plan], OpSetReady(task));
      }
      if !ValidId(plan) || !ValidId(task) {
        return Err(InvalidArgument);
      }
      if * {
        return Err(IoError);
      }
      if plan !in db || task !in db[plan].tasks || db[plan].tasks[task].state !in {Planned, Retryable}
         || !DependenciesMet(db[plan], task) {
        return Err(InvalidArgument);
      }
      db := db[plan := db[plan].(tasks := db[plan].tasks[task := db[plan].tasks[task].(
        state := Ready, owner := None, active := None, lastError := None)])];
      return Ok(());
    }

    /** The recursive ancestor query and the guarded INSERT. */
    method InsertDependency(plan: string, task: string, dependsOn: string) returns (status: Status)
      requires Idle()
      modifies this`db
      ensures status.Ok? ==>
                && plan in old(db) && AddDependency(old(db)[plan], task, dependsOn).Ok?
                && db == old(db)[plan := AddDependency(old(db)[plan], task, dependsOn).value]
      ensures status.Err? ==> db == old(db)
      ensures status.Err? && status.code != IoError && plan in old(db) && ValidId(plan) ==>
                AddDependency(old(db)[plan], task, dependsOn) == Err(status.code)
    {
      if !ValidId(plan) || !ValidId(task) || !ValidId(dependsOn) || task == dependsOn {
        return Err(InvalidArgument);
      }
      if * {
        return Err(IoError);
      }
      if plan !in db {
        return Err(NotFound);
      }
      var ancestors := Dependencies.Ancestors(db[plan].deps, dependsOn);
      if task in ancestors {
        return Err(InvalidArgument);
      }
      if task !in db[plan].tasks || dependsOn !in db[plan].tasks {
        return Err(NotFound);
      }
      if (task, dependsOn) in db[plan].deps {
        return Err(IoError);
      }
      db := db[plan := db[plan].(deps := db[plan].deps + {(task, dependsOn)})];
      return Ok(());
    }

    /** SELECT ... WHERE READY and no unfinished dependency ORDER BY task_id LIMIT 1. */
    method SelectNextReady(plan: string) returns (task: Option<string>)
      requires plan in db
      ensures task.Some? ==> IsNextReady(db[plan], task.value)
      ensures task.None? ==> !SomeReady(db[plan])
      ensures task.Some? ==> FirstReady(db[plan], task.value)
      ensures task.None? ==>
                forall u :: u in db[plan].tasks && db[plan].tasks[u].state == Ready ==> !DependenciesDone(db[plan], u)
    {
      hide DependenciesDone, DependenciesMet;
      task := None;
      var rest := db[plan].tasks.Keys;
      while rest != {}
        invariant rest <= db[plan].tasks.Keys
        invariant task.None? ==> forall u :: Claimable(db[plan], u) ==> u in rest
        invariant task.Some? ==> Claimable(db[plan], task.value)
                                 && forall u :: Claimable(db[plan], u) ==> u in rest || Le(task.value, u)
      {
        var u :| u in rest;
        if Claimable(db[plan], u) && (task.None? || Le(u, task.value)) {
          if task.Some? {
            forall v | Claimable(db[plan], v) && Le(task.value, v) ensures Le(u, v) {
              LeTransitive(u, task.value, v);
            }
          }
          LeReflexive(u);
          task := Some(u);
        } else if task.Some? {
          LeTotal(task.value, u);
        }
        rest := rest - {u};
      }
      if task.Some? {
        NextReadyExactly(db[plan], task.value);
      } else {
        forall u | u in db[plan].tasks && db[plan].tasks[u].state == Ready ensures !DependenciesDone(db[plan], u) {
          DependenciesAgree(db[plan], u);
          assert !Claimable(db[plan], u);
        }
      }
    }

    /** The UPDATE of plan_task and the INSERT of the attempt row for the selected task. */
    method ClaimSelected(plan: string, task: string, epoch: nat, attempt: string) returns (status: Status)
      requires plan in db && task in db[plan].tasks && db[plan].tasks[task].state == Ready
      requires EpochAttemptOk(epoch, attempt) && db[plan].epoch == epoch
      requires db[plan].tasks[task].attemptCount < UINT32_MAX
      modifies this`db
      ensures status.Ok? ==>
                && Claim(old(db)[plan], task, epoch, attempt, Taken(old(db), plan)).Ok?
                && db == old(db)[plan := Claim(old(db)[plan], task, epoch, attempt, Taken(old(db), plan)).value]
      ensures status.Err? && status.code != IoError ==>
                Claim(old(db)[plan], task, epoch, attempt, Taken(old(db), plan)) == Err(status.code)
    {
      var row := db[plan].tasks[task];
      if row.active.Some? {
        return Err(InvalidArgument);
      }
      var broken: bool := *;
      if broken || attempt in db[plan].attempts || attempt in Taken(db, plan) {
        return Err(IoError);
      }
      db := db[plan := db[plan].(
        tasks := db[plan].tasks[task := row.(
          state := Running, owner := Some(epoch), active := Some(attempt), attemptCount := row.attemptCount + 1, lastError := None)],
        attempts := db[plan].attempts[attempt := AttemptRow(task, epoch, AttemptRunning, false, None, None)])];
      status := AppendEvent();
    }

    /** The transaction of a claim, with the supplied attempt id or a generated one. */
    method ClaimNextReadyImpl(plan: string, epoch: nat, supplied: Option<string>) returns (r: Outcome<Answer>)
      requires Idle() && IdsValid(db)
      modifies this`db, this`saved
      ensures Idle() && (r.Ok? ==> ClaimArgumentsOk(plan, epoch, supplied))
      ensures r.Ok? ==>
                && plan in old(db) && ClaimEffect(old(db)[plan], plan, epoch, supplied, Taken(old(db), plan)).Ok?
                && db == old(db)[plan := ClaimEffect(old(db)[plan], plan, epoch, supplied, Taken(old(db), plan)).value.0]
                && r.value == ClaimEffect(old(db)[plan], plan, epoch, supplied, Taken(old(db), plan)).value.1
      ensures r.Err? ==> db == old(db)
      ensures r.Err? && r.code != IoError ==>
              if !ClaimArgumentsOk(plan, epoch, supplied) then r.code == InvalidArgument
              else if plan in old(db) then ClaimEffect(old(db)[plan], plan, epoch, supplied, Taken(old(db), plan)) == Err(r.code)
              else r.code == NotFound
    {
      if !ClaimArgumentsOk(plan, epoch, supplied) {
        return Err(InvalidArgument);
      }
      var current := Enter(plan);
      if current.Err? {
        return Err(current.code);
      }
      if current.value != epoch {
        Rollback();
        return Err(InvalidArgument);
      }
      var selected := SelectNextReady(plan);
      if selected.None? {
        Rollback();
        return Err(NotFound);
      }
      var task := selected.value;
      NextReadyUnique(db[plan], task, NextReady(db[plan]));
      var attempt :=
        if supplied.Some? then supplied.value else GeneratedAttemptId(plan, task, db[plan].tasks[task].attemptCount + 1);
      GeneratedIdValid(plan, task, db[plan].tasks[task].attemptCount + 1);
      if db[plan].tasks[task].attemptCount >= UINT32_MAX {
        Rollback();
        return Err(InvalidArgument);
      }
      var status := ClaimSelected(plan, task, epoch, attempt);
      if status.Err? {
        Rollback();
        return Err(status.code);
      }
      var runtime := RuntimeOf(db[plan], task);
      status := Leave();
      if status.Err? {
        return Err(status.code);
      }
      return Ok(Claimed(task, runtime));
    }

    /** Claims the next task under the current epoch. On success the answer names the least task that could be claimed, which
        is now RUNNING under the attempt the caller is told; no other row changes but the new attempt's. */
    method ClaimNextReady(plan: string, epoch: nat, supplied: Option<string>) returns (r: Outcome<Answer>)
      requires Idle() && IdsValid(db)
      modifies this`db, this`saved
      ensures Idle()
      ensures r.Ok? ==>
                && plan in old(db) && plan in db && ClaimEffect(old(db)[plan], plan, epoch, supplied, Taken(old(db), plan)).Ok?
                && (db[plan], r.value) == ClaimEffect(old(db)[plan], plan, epoch, supplied, Taken(old(db), plan)).value
                && db == old(db)[plan := db[plan]]
                && r.value.Claimed? && r.value.task in old(db)[plan].tasks
                && ClaimAnswered(old(db)[plan], db[plan], epoch,
                     if supplied.Some? then supplied.value else NextAttempt(old(db)[plan], plan, r.value.task), r.value)
      ensures r.Err? ==> db == old(db)
      ensures r.Err? && r.code != IoError ==>
              if !ClaimArgumentsOk(plan, epoch, supplied) then r.code == InvalidArgument
              else if plan in old(db) then ClaimEffect(old(db)[plan], plan, epoch, supplied, Taken(old(db), plan)) == Err(r.code)
              else r.code == NotFound
    {
      hide ClaimEffect, ClaimAnswered, NextAttempt, Taken, IdsValid;
      if plan in db && 0 < epoch <= INT64_MAX {
        ClaimEffectExactly(db[plan], plan, epoch, supplied, Taken(db, plan));
      }
      r := ClaimNextReadyImpl(plan, epoch, supplied);
    }

    // ------------------------------------------------------------ write batches

    /** Opens a batch, exactly under the plan's current epoch when no statement fails; an open batch is left as it is. */
    method BeginWriteBatch(plan: string, epoch: nat) returns (status: Status)
      requires batchActive || Idle()
      modifies this
      ensures db == old(db)
      ensures old(batchActive) ==> status == Err(Internal) && SameBracket()
      ensures status.Ok? ==> InBatch(plan) && batchEpoch == epoch && saved == Some(db)
      ensures !old(batchActive) && status.Err? ==>
                && Idle()
                && (status.code == IoError || !ValidId(plan) || !EpochAttemptOk(epoch, "batch")
                    || (if plan in db then db[plan].epoch != epoch && status.code == InvalidArgument else status.code == NotFound))
    {
      if batchActive {
        return Err(Internal);
      }
      if !ValidId(plan) || !EpochAttemptOk(epoch, "batch") {
        return Err(InvalidArgument);
      }
      status := Begin();
      if status.Err? {
        return;
      }
      if plan !in db {
        Rollback();
        return Err(NotFound);
      }
      if db[plan].epoch != epoch {
        Rollback();
        return Err(InvalidArgument);
      }
      batchActive, batchPlan, batchEpoch := true, plan, epoch;
    }

    /** Commits the open batch; when that fails the rows are those before it. */
    method CommitWriteBatch() returns (status: Status)
      requires batchActive ==> saved.Some?
      modifies this
      ensures old(batchActive) ==> Idle() && db == if status.Ok? then old(db) else old(saved).value
      ensures !old(batchActive) ==> status == Err(Internal) && db == old(db) && SameBracket()
    {
      if !batchActive {
        return Err(Internal);
      }
      status := Commit();
      batchActive, batchPlan, batchEpoch := false, "", 0;
    }

    /** A call that failed inside the batch may already have rolled the transaction back. */
    method RollbackWriteBatch()
      modifies this
      ensures !batchActive && (old(batchActive) ==> Idle())
      ensures db == if old(batchActive) && old(saved).Some? then old(saved).value else old(db)
    {
      if batchActive {
        Rollback();
        batchActive, batchPlan, batchEpoch := false, "", 0;
      }
    }

    /** The repository call behind a command, in its own transaction or inside a batch for its plan. */
    method Perform(c: Command) returns (r: Outcome<Answer>)
      requires IdsValid(db) && (Idle() || (InBatch(c.plan) && !c.ClaimNext?))
      modifies this`db, this`saved
      ensures r.Ok? ==> SameBracket() && Effect(old(db), c) == Ok((db, r.value))
      ensures r.Ok? ==> Performed(old(db), c, db, r.value)
      ensures r.Err? ==> Undone()
      ensures r.Err? && r.code != IoError ==> Effect(old(db), c) == Err(r.code) && !Permitted(old(db), c)
    {
      EffectExactly(db, c);
      if !ArgumentsOk(c) {
        return Err(InvalidArgument);
      }
      var status: Status;
      match c {
        case ClaimNext(plan, epoch) =>
          r := ClaimNextReady(plan, epoch, None);
          return;
        case MarkCommitIntent(plan, task, epoch, attempt) =>
          status := AdvanceAttempt(plan, task, epoch, attempt, CommitIntent);
        case MarkTempWritten(plan, task, epoch, attempt) =>
          status := AdvanceAttempt(plan, task, epoch, attempt, TempWritten);
        case SaveReceipt(plan, receipt) =>
          status := PersistVerifiedReceipt(plan, receipt);
        case MarkRetryable(plan, task, epoch, attempt, error) =>
          status := FinishTask(plan, task, epoch, attempt, Some(error));
      }
      r := if status.Ok? then Ok(Nothing) else Err(status.code);
    }
  }
}
