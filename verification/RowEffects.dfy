/** Each transaction of src/app/task_runtime_repository.cpp as a guard and an effect, said of the rows before and after it
    alone; `TaskTables` says the same as functions with error codes. */
module RowEffects {
  import opened Common
  import opened StringOrder
  import opened Tasks
  import opened TaskTables
  import Dependencies

  /** The task is RUNNING under the current epoch `epoch` with the attempt `attempt`, whose row is there. */
  predicate Holds(db: Tables, task: string, epoch: nat, attempt: string) {
    && db.epoch == epoch && Owned(db, task, epoch, attempt)
  }

  predicate Owned(db: Tables, task: string, owner: nat, attempt: string) {
    && task in db.tasks && db.tasks[task].state == Running
    && db.tasks[task].owner == Some(owner) && db.tasks[task].active == Some(attempt)
    && attempt in db.attempts && db.attempts[attempt].task == task && db.attempts[attempt].epoch == owner
  }

  predicate Names(task: string, epoch: nat, attempt: string) {
    task != "" && '\0' !in task && attempt != "" && '\0' !in attempt && 0 < epoch <= INT64_MAX
  }

  predicate Complete(r: VerifiedReceipt) {
    && Names(r.task, r.ownerEpoch, r.attempt) && r.tempPath != "" && r.finalPath != ""
    && r.sourceDigest.Some? && r.sourceIdentity.Some? && r.contentSize <= INT64_MAX
  }

  predicate DependenciesDone(db: Tables, task: string) {
    forall d :: (task, d) in db.deps && d in db.tasks ==> db.tasks[d].state == Succeeded
  }

  /** Of the READY tasks whose dependencies are done, the one whose id comes first. */
  ghost predicate FirstReady(db: Tables, task: string) {
    && task in db.tasks && db.tasks[task].state == Ready && DependenciesDone(db, task)
    && forall t :: t in db.tasks && db.tasks[t].state == Ready && DependenciesDone(db, t) ==> t == task || Lt(task, t)
  }

  lemma NextReadyExactly(db: Tables, task: string)
    ensures IsNextReady(db, task) <==> FirstReady(db, task)
  {
    hide DependenciesMet, DependenciesDone;
    DependenciesAgree(db, task);
    forall t ensures Claimable(db, t) <==> t in db.tasks && db.tasks[t].state == Ready && DependenciesDone(db, t) {
      DependenciesAgree(db, t);
    }
    LeReflexive(task);
  }

  /** The guard of a call. */
  ghost predicate Allowed(db: Tables, op: Op) {
    match op
    case OpAcquireEpoch => db.epoch < INT64_MAX
    case OpAddTask(spec) =>
      && ValidTaskSpec(spec) && spec.estimatedBytes <= INT64_MAX
      && spec.id !in db.tasks && forall t :: t in db.tasks ==> db.tasks[t].key != spec.key
    case OpAddDependency(t, d) =>
      && t != "" && '\0' !in t && d != "" && '\0' !in d && t != d && t in db.tasks && d in db.tasks
      && !Dependencies.Reaches(db.deps, d, t) && (t, d) !in db.deps
    case OpSetReady(t) =>
      && t != "" && '\0' !in t && t in db.tasks && (db.tasks[t].state == Planned || db.tasks[t].state == Retryable)
      && DependenciesDone(db, t)
    case OpClaim(t, e, a, taken) =>
      && FirstReady(db, t) && 0 < e <= INT64_MAX && a != "" && '\0' !in a && db.epoch == e
      && db.tasks[t].attemptCount < UINT32_MAX && db.tasks[t].active.None? && a !in db.attempts && a !in taken
    case OpAdvance(t, e, a, next) =>
      && (next == CommitIntent || next == TempWritten) && Names(t, e, a) && Holds(db, t, e, a)
      && (db.attempts[a].state == next || (db.attempts[a].state == AttemptRunning && next == CommitIntent)
          || (db.attempts[a].state == CommitIntent && next == TempWritten))
    case OpReceipt(r) =>
      && Complete(r) && db.epoch == r.ownerEpoch && r.task in db.tasks && db.tasks[r.task].state == Running
      && db.tasks[r.task].owner == Some(r.ownerEpoch) && db.tasks[r.task].active == Some(r.attempt)
      && if (r.task, r.attempt) in db.receipts then db.receipts[(r.task, r.attempt)] == r
         else Owned(db, r.task, r.ownerEpoch, r.attempt)
    case OpFinish(t, e, a, _) => Names(t, e, a) && Holds(db, t, e, a)
    case OpRecover(t, e, o, a, _) => Names(t, e, a) && 0 < o <= INT64_MAX && db.epoch == e && Owned(db, t, o, a)
  }

  // ---------------------------------------------------------------- effects

  /** Nothing but one attempt row has changed: it is in state `next`. */
  predicate Advanced(db: Tables, db': Tables, task: string, epoch: nat, attempt: string, next: AttemptState) {
    && attempt in db.attempts && db'.epoch == db.epoch && db'.tasks == db.tasks && db'.deps == db.deps && db'.receipts == db.receipts
    && attempt in db'.attempts && db'.attempts[attempt].state == next
    && db'.attempts == db.attempts[attempt :=
         if db.attempts[attempt].state == next then db.attempts[attempt] else AttemptRow(task, epoch, next, false, None, None)]
  }

  /** The receipt is there, and its attempt VERIFIED_DURABLE unless the receipt was there before. */
  predicate Recorded(db: Tables, db': Tables, r: VerifiedReceipt) {
    var key := (r.task, r.attempt);
    && db'.epoch == db.epoch && db'.tasks == db.tasks && db'.deps == db.deps
    && key in db'.receipts && db'.receipts[key] == r
    && if key in db.receipts then db' == db
       else
         && db'.receipts == db.receipts[key := r]
         && db'.attempts == db.attempts[r.attempt := AttemptRow(r.task, r.ownerEpoch, VerifiedDurable, false, None, None)]
  }

  /** The task is in `state` and belongs to nobody, and its attempt has ended in `attemptState`; no other row has changed. */
  predicate Released(
    db: Tables, db': Tables, task: string, owner: nat, attempt: string,
    state: TaskState, attemptState: AttemptState, error: Option<Code>)
  {
    && task in db.tasks && db'.epoch == db.epoch && db'.deps == db.deps && db'.receipts == db.receipts
    && db'.tasks == db.tasks[task := db.tasks[task].(state := state, owner := None, active := None, lastError := error)]
    && db'.attempts == db.attempts[attempt := AttemptRow(task, owner, attemptState, true, Some(state), error)]
  }

  /** A READY task is RUNNING under a new attempt. */
  predicate Started(db: Tables, db': Tables, task: string, epoch: nat, attempt: string) {
    && task in db.tasks && db.tasks[task].state == Ready && attempt !in db.attempts
    && db'.epoch == db.epoch && db'.deps == db.deps && db'.receipts == db.receipts
    && db'.tasks == db.tasks[task := db.tasks[task].(state := Running, owner := Some(epoch), active := Some(attempt),
                                                     attemptCount := db.tasks[task].attemptCount + 1, lastError := None)]
    && db'.attempts == db.attempts[attempt := AttemptRow(task, epoch, AttemptRunning, false, None, None)]
  }

  /** The effect of a call. */
  ghost predicate Did(db: Tables, op: Op, db': Tables) {
    match op
    case OpAcquireEpoch => db' == db.(epoch := db.epoch + 1)
    case OpAddTask(spec) =>
      db' == db.(tasks := db.tasks[spec.id := TaskRow(
        spec.key, spec.kind, Planned, None, None, 0, spec.target, spec.estimatedBytes, spec.expectedDigest, None)])
    case OpAddDependency(t, d) => db' == db.(deps := db.deps + {(t, d)})
    case OpSetReady(t) =>
      && t in db.tasks
      && db' == db.(tasks := db.tasks[t := db.tasks[t].(state := Ready, owner := None, active := None, lastError := None)])
    case OpClaim(t, e, a, _) => Started(db, db', t, e, a)
    case OpAdvance(t, e, a, next) => Advanced(db, db', t, e, a, next)
    case OpReceipt(r) => Recorded(db, db', r)
    case OpFinish(t, e, a, error) =>
      if error.None? then Released(db, db', t, e, a, Succeeded, Committed, None)
      else Released(db, db', t, e, a, Retryable, AttemptRetryable, error)
    case OpRecover(t, _, o, a, v) =>
      match v
      case RecoverSucceeded => Released(db, db', t, o, a, Succeeded, Committed, None)
      case RecoverRetryable => Released(db, db', t, o, a, Retryable, AttemptRetryable, Some(IoError))
      case RecoverInconsistent => Released(db, db', t, o, a, Inconsistent, AttemptInconsistent, Some(Internal))
  }

  lemma DependenciesAgree(db: Tables, task: string)
    ensures DependenciesMet(db, task) <==> DependenciesDone(db, task)
  {
    if DependenciesDone(db, task) {
      forall d | d in db.deps && d.0 == task && d.1 in db.tasks ensures db.tasks[d.1].state == Succeeded {
        assert (task, d.1) == d;
      }
    }
  }

  lemma ReceiptExactly(db: Tables, r: VerifiedReceipt)
    ensures PersistReceipt(db, r).Ok? <==> Allowed(db, OpReceipt(r))
    ensures PersistReceipt(db, r).Ok? ==> Recorded(db, PersistReceipt(db, r).value, r)
  {
  }

  lemma AdvanceExactly(db: Tables, t: string, e: nat, a: string, next: AttemptState)
    requires next == CommitIntent || next == TempWritten
    ensures Advance(db, t, e, a, next).Ok? <==> Allowed(db, OpAdvance(t, e, a, next))
    ensures Advance(db, t, e, a, next).Ok? ==> Advanced(db, Advance(db, t, e, a, next).value, t, e, a, next)
  {
  }

  lemma ReleaseExactly(
    db: Tables, t: string, owner: nat, a: string, next: TaskState, attemptNext: AttemptState, error: Option<Code>)
    ensures Release(db, t, owner, a, next, attemptNext, error).Ok? <==> Owned(db, t, owner, a)
    ensures Owned(db, t, owner, a) ==>
              Released(db, Release(db, t, owner, a, next, attemptNext, error).value, t, owner, a, next, attemptNext, error)
  {
  }

  lemma ClaimExactly(db: Tables, t: string, e: nat, a: string, taken: set<string>)
    requires FirstReady(db, t)
    ensures Claim(db, t, e, a, taken).Ok? <==> Allowed(db, OpClaim(t, e, a, taken))
    ensures Claim(db, t, e, a, taken).Ok? ==> Started(db, Claim(db, t, e, a, taken).value, t, e, a)
  {
  }

  /** A call succeeds exactly when its guard holds, and then has exactly its effect. */
  lemma ApplyExactly(db: Tables, op: Op)
    ensures Apply(db, op).Ok? <==> Allowed(db, op)
    ensures Apply(db, op).Ok? ==> Did(db, op, Apply(db, op).value)
  {
    hide Owned, Release, Released, PersistReceipt, Recorded, Advance, Advanced, Claim, Started, DependenciesMet, DependenciesDone,
         Complete, Dependencies.Reaches, ValidTaskSpec, IsNextReady, FirstReady;
    match op
    case OpSetReady(t) => DependenciesAgree(db, t);
    case OpClaim(t, e, a, taken) =>
      NextReadyExactly(db, t);
      if IsNextReady(db, t) {
        ClaimExactly(db, t, e, a, taken);
      }
    case OpAdvance(t, e, a, next) =>
      if next == CommitIntent || next == TempWritten {
        AdvanceExactly(db, t, e, a, next);
      }
    case OpReceipt(r) => ReceiptExactly(db, r);
    case OpFinish(t, e, a, error) =>
      if error.None? {
        ReleaseExactly(db, t, e, a, Succeeded, Committed, None);
      } else {
        ReleaseExactly(db, t, e, a, Retryable, AttemptRetryable, error);
      }
    case OpRecover(t, _, o, a, v) =>
      match v {
        case RecoverSucceeded => ReleaseExactly(db, t, o, a, Succeeded, Committed, None);
        case RecoverRetryable => ReleaseExactly(db, t, o, a, Retryable, AttemptRetryable, Some(IoError));
        case RecoverInconsistent => ReleaseExactly(db, t, o, a, Inconsistent, AttemptInconsistent, Some(Internal));
      }
    case _ =>
  }
}
