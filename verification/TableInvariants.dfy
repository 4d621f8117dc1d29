/** What every sequence of repository calls keeps: ownership, attempt accounting, fencing and dependency order. */
module TableInvariants {
  import opened Common
  import opened Tasks
  import opened TaskTables
  import opened Dependencies

  ghost function AttemptsOf(db: Tables, task: string): set<string> {
    set a | a in db.attempts && db.attempts[a].task == task
  }

  /** A task is RUNNING exactly when it has an owner epoch and an active attempt; that attempt is its row. */
  ghost predicate TaskOk(db: Tables, task: string)
    requires task in db.tasks
  {
    var row := db.tasks[task];
    && ValidId(task)
    && (row.state == Running <==> row.owner.Some?)
    && (row.owner.Some? <==> row.active.Some?)
    && (row.active.Some? ==>
          HasAttempt(db, task, row.owner.value, row.active.value) && !db.attempts[row.active.value].finished)
    && row.attemptCount == |AttemptsOf(db, task)|
  }

  /** An unfinished attempt is the active attempt of its task, and no owner epoch is in the future. */
  ghost predicate AttemptOk(db: Tables, attempt: string)
    requires attempt in db.attempts
  {
    var row := db.attempts[attempt];
    && EpochAttemptOk(row.epoch, attempt)
    && row.epoch <= db.epoch
    && row.task in db.tasks
    && (!row.finished ==> db.tasks[row.task].active == Some(attempt))
  }

  ghost predicate ReceiptOk(db: Tables, k: (string, string))
    requires k in db.receipts
  {
    var r := db.receipts[k];
    && ReceiptComplete(r) && k == (r.task, r.attempt)
    && HasAttempt(db, r.task, r.ownerEpoch, r.attempt)
  }

  ghost predicate Inv(db: Tables) {
    && (forall t {:trigger TaskOk(db, t)} :: t in db.tasks ==> TaskOk(db, t))
    && (forall a {:trigger AttemptOk(db, a)} :: a in db.attempts ==> AttemptOk(db, a))
    && (forall k {:trigger ReceiptOk(db, k)} :: k in db.receipts ==> ReceiptOk(db, k))
    && (forall d :: d in db.deps ==> d.0 in db.tasks && d.1 in db.tasks)
    && Acyclic(db.deps)
  }

  lemma EmptyInv()
    ensures Inv(EMPTY)
  {
    forall p: seq<string> | |p| >= 2 ensures !IsPath(EMPTY.deps, p) {
      assert (p[0], p[1]) !in EMPTY.deps;
    }
  }

  /** Rewriting attempt rows without changing which task they belong to keeps the per-task sets. */
  lemma SameAttemptSets(db: Tables, db': Tables)
    requires db'.attempts.Keys == db.attempts.Keys
    requires forall a :: a in db.attempts ==> db'.attempts[a].task == db.attempts[a].task
    ensures forall t :: AttemptsOf(db', t) == AttemptsOf(db, t)
  {
  }

  lemma ClaimKeepsTask(db: Tables, task: string, epoch: nat, attempt: string, taken: set<string>, t: string)
    requires task in db.tasks && db.tasks[task].state == Ready && Claim(db, task, epoch, attempt, taken).Ok?
    requires t in db.tasks && TaskOk(db, t)
    ensures TaskOk(Claim(db, task, epoch, attempt, taken).value, t)
  {
    var db' := Claim(db, task, epoch, attempt, taken).value;
    if t == task {
      assert AttemptsOf(db', t) == AttemptsOf(db, t) + {attempt};
    } else {
      assert AttemptsOf(db', t) == AttemptsOf(db, t);
    }
  }

  lemma ClaimKeepsInv(db: Tables, task: string, epoch: nat, attempt: string, taken: set<string>)
    requires Inv(db) && Claimable(db, task) && Claim(db, task, epoch, attempt, taken).Ok?
    ensures Inv(Claim(db, task, epoch, attempt, taken).value)
  {
    var db' := Claim(db, task, epoch, attempt, taken).value;
    forall t | t in db'.tasks ensures TaskOk(db', t) {
      assert TaskOk(db, t);
      ClaimKeepsTask(db, task, epoch, attempt, taken, t);
    }
    assert TaskOk(db, task);
    forall a | a in db'.attempts ensures AttemptOk(db', a) {
      assert a in db.attempts ==> AttemptOk(db, a);
    }
    forall k | k in db'.receipts ensures ReceiptOk(db', k) {
      assert ReceiptOk(db, k);
    }
  }

  lemma AttemptRewriteKeepsInv(db: Tables, task: string, epoch: nat, attempt: string, next: AttemptState)
    requires Inv(db) && Ownership(db, task, epoch, attempt).Ok? && HasAttempt(db, task, epoch, attempt)
    ensures Inv(SetAttempt(db, attempt, next, false, None, None))
  {
    var db' := SetAttempt(db, attempt, next, false, None, None);
    SameAttemptSets(db, db');
    forall t | t in db'.tasks ensures TaskOk(db', t) {
      assert TaskOk(db, t);
    }
    forall a | a in db'.attempts ensures AttemptOk(db', a) {
      assert AttemptOk(db, a);
    }
    forall k | k in db'.receipts ensures ReceiptOk(db', k) {
      assert ReceiptOk(db, k);
    }
  }

  lemma ReceiptKeepsInv(db: Tables, r: VerifiedReceipt)
    requires Inv(db) && PersistReceipt(db, r).Ok?
    ensures Inv(PersistReceipt(db, r).value)
  {
    if (r.task, r.attempt) !in db.receipts {
      AttemptRewriteKeepsInv(db, r.task, r.ownerEpoch, r.attempt, VerifiedDurable);
      var base := SetAttempt(db, r.attempt, VerifiedDurable, false, None, None);
      var db' := PersistReceipt(db, r).value;
      assert db' == base.(receipts := db.receipts[(r.task, r.attempt) := r]);
      SameAttemptSets(base, db');
      forall t | t in db'.tasks ensures TaskOk(db', t) {
        assert TaskOk(base, t);
      }
      forall a | a in db'.attempts ensures AttemptOk(db', a) {
        assert AttemptOk(base, a);
      }
      forall k | k in db'.receipts ensures ReceiptOk(db', k) {
        assert k in base.receipts ==> ReceiptOk(base, k);
      }
    }
  }

  lemma ReleaseKeepsInv(
    db: Tables, task: string, owner: nat, attempt: string, next: TaskState, attemptNext: AttemptState, error: Option<Code>)
    requires Inv(db) && next != Running && Release(db, task, owner, attempt, next, attemptNext, error).Ok?
    ensures Inv(Release(db, task, owner, attempt, next, attemptNext, error).value)
  {
    var db' := Release(db, task, owner, attempt, next, attemptNext, error).value;
    SameAttemptSets(db, db');
    forall t | t in db'.tasks ensures TaskOk(db', t) {
      assert TaskOk(db, t);
    }
    forall a | a in db'.attempts ensures AttemptOk(db', a) {
      assert AttemptOk(db, a);
    }
    forall k | k in db'.receipts ensures ReceiptOk(db', k) {
      assert ReceiptOk(db, k);
    }
  }

  lemma TaskRowKeepsInv(db: Tables, task: string, row: TaskRow)
    requires Inv(db) && ValidId(task) && row.state != Running && row.owner.None? && row.active.None?
    requires if task in db.tasks then db.tasks[task].state != Running && row.attemptCount == db.tasks[task].attemptCount
             else row.attemptCount == 0
    ensures Inv(db.(tasks := db.tasks[task := row]))
  {
    var db' := db.(tasks := db.tasks[task := row]);
    SameAttemptSets(db, db');
    assert task in db.tasks ==> TaskOk(db, task);
    forall t | t in db'.tasks ensures TaskOk(db', t) {
      if t in db.tasks {
        assert TaskOk(db, t);
      } else {
        assert AttemptsOf(db', t) == {} by {
          forall a | a in db.attempts ensures db.attempts[a].task != t {
            assert AttemptOk(db, a);
          }
        }
      }
    }
    forall a | a in db'.attempts ensures AttemptOk(db', a) {
      assert AttemptOk(db, a);
    }
    forall k | k in db'.receipts ensures ReceiptOk(db', k) {
      assert ReceiptOk(db, k);
    }
  }

  lemma DependencyKeepsInv(db: Tables, task: string, dependsOn: string)
    requires Inv(db) && AddDependency(db, task, dependsOn).Ok?
    ensures Inv(AddDependency(db, task, dependsOn).value)
  {
    var db' := AddDependency(db, task, dependsOn).value;
    EdgeKeepsAcyclicIff(db.deps, task, dependsOn);
    SameAttemptSets(db, db');
    forall t | t in db'.tasks ensures TaskOk(db', t) {
      assert TaskOk(db, t);
    }
    forall a | a in db'.attempts ensures AttemptOk(db', a) {
      assert AttemptOk(db, a);
    }
    forall k | k in db'.receipts ensures ReceiptOk(db', k) {
      assert ReceiptOk(db, k);
    }
  }

  lemma EpochKeepsInv(db: Tables)
    requires Inv(db)
    ensures Inv(db.(epoch := db.epoch + 1))
  {
    var db' := db.(epoch := db.epoch + 1);
    SameAttemptSets(db, db');
    forall t | t in db'.tasks ensures TaskOk(db', t) {
      assert TaskOk(db, t);
    }
    forall a | a in db'.attempts ensures AttemptOk(db', a) {
      assert AttemptOk(db, a);
    }
    forall k | k in db'.receipts ensures ReceiptOk(db', k) {
      assert ReceiptOk(db, k);
    }
  }

  /** Every repository call, successful or not, keeps the row invariant. */
  lemma ApplyKeepsInv(db: Tables, op: Op)
    requires Inv(db)
    ensures Inv(After(db, op))
  {
    if Apply(db, op).Ok? {
      match op
      case OpAcquireEpoch => EpochKeepsInv(db);
      case OpAddTask(spec) =>
        TaskRowKeepsInv(db, spec.id, After(db, op).tasks[spec.id]);
      case OpAddDependency(t, d) => DependencyKeepsInv(db, t, d);
      case OpSetReady(t) => TaskRowKeepsInv(db, t, After(db, op).tasks[t]);
      case OpClaim(t, e, a, taken) => ClaimKeepsInv(db, t, e, a, taken);
      case OpAdvance(t, e, a, next) =>
        if db.attempts[a].state != next {
          AttemptRewriteKeepsInv(db, t, e, a, next);
        }
      case OpReceipt(r) => ReceiptKeepsInv(db, r);
      case OpFinish(t, e, a, error) =>
        if error.None? {
          ReleaseKeepsInv(db, t, e, a, Succeeded, Committed, None);
        } else {
          ReleaseKeepsInv(db, t, e, a, Retryable, AttemptRetryable, error);
        }
      case OpRecover(t, e, o, a, v) =>
        match v {
          case RecoverSucceeded => ReleaseKeepsInv(db, t, o, a, Succeeded, Committed, None);
          case RecoverRetryable => ReleaseKeepsInv(db, t, o, a, Retryable, AttemptRetryable, Some(IoError));
          case RecoverInconsistent => ReleaseKeepsInv(db, t, o, a, Inconsistent, AttemptInconsistent, Some(Internal));
        }
    }
  }

  // ---------------------------------------------------------------- whole runs of repository calls

  ghost function Run(db: Tables, ops: seq<Op>): Tables
    decreases |ops|
  {
    if ops == [] then db else After(Run(db, ops[..|ops| - 1]), ops[|ops| - 1])
  }

  /** In every run from an empty plan: ownership is exact, at most one attempt row per task is unfinished and it is
      the active one, attempt_count counts the rows, and no epoch is ahead of the migration. */
  lemma {:induction false} RunKeepsInv(ops: seq<Op>)
    ensures Inv(Run(EMPTY, ops))
    decreases |ops|
  {
    if ops == [] {
      EmptyInv();
    } else {
      RunKeepsInv(ops[..|ops| - 1]);
      ApplyKeepsInv(Run(EMPTY, ops[..|ops| - 1]), ops[|ops| - 1]);
    }
  }

  /** After any sequence of calls: who owns a task, and which of its attempts is unfinished. */
  lemma RunningHasOneUnfinishedAttempt(ops: seq<Op>, task: string)
    requires task in Run(EMPTY, ops).tasks
    ensures var db := Run(EMPTY, ops);
            var unfinished := set a | a in db.attempts && db.attempts[a].task == task && !db.attempts[a].finished;
            && (db.tasks[task].state == Running <==> db.tasks[task].owner.Some? && db.tasks[task].active.Some?)
            && (db.tasks[task].state == Running ==>
                  && unfinished == {db.tasks[task].active.value}
                  && db.attempts[db.tasks[task].active.value].epoch == db.tasks[task].owner.value)
            && (db.tasks[task].state != Running ==> unfinished == {})
            && db.tasks[task].attemptCount == |AttemptsOf(db, task)|
            && forall a :: a in AttemptsOf(db, task) ==> db.attempts[a].epoch <= db.epoch
  {
    RunKeepsInv(ops);
    var db := Run(EMPTY, ops);
    assert TaskOk(db, task);
    forall a | a in AttemptsOf(db, task)
      ensures db.attempts[a].epoch <= db.epoch
      ensures !db.attempts[a].finished ==> db.tasks[task].active == Some(a)
    {
      assert AttemptOk(db, a);
    }
  }

  /** The epoch a call is issued under; the others are not fenced. */
  function IssuedEpoch(op: Op): Option<nat> {
    match op
    case OpClaim(_, e, _, _) => Some(e)
    case OpAdvance(_, e, _, _) => Some(e)
    case OpReceipt(r) => Some(r.ownerEpoch)
    case OpFinish(_, e, _, _) => Some(e)
    case OpRecover(_, e, _, _, _) => Some(e)
    case _ => None
  }

  /** Epochs never fall, and a successful acquire is strictly above everything before it. */
  lemma {:induction false} EpochsOnlyGrow(db: Tables, ops: seq<Op>, more: seq<Op>)
    ensures Run(db, ops).epoch <= Run(db, ops + more).epoch
    decreases |more|
  {
    if more == [] {
      assert ops + more == ops;
    } else {
      var shorter := more[..|more| - 1];
      EpochsOnlyGrow(db, ops, shorter);
      assert (ops + more)[..|ops + more| - 1] == ops + shorter;
      assert (ops + more)[|ops + more| - 1] == more[|more| - 1];
    }
  }

  lemma StaleRefused(db: Tables, op: Op)
    requires IssuedEpoch(op).Some? && db.epoch > IssuedEpoch(op).value
    ensures Apply(db, op).Err?
  {
  }

  lemma RunNext(db: Tables, ops: seq<Op>, op: Op)
    ensures Run(db, ops + [op]) == After(Run(db, ops), op)
  {
    assert (ops + [op])[..|ops|] == ops;
  }

  /** Fencing over whole runs: once the epoch has passed e, no call issued under e changes any row, whatever
      happened in between. */
  lemma StaleEpochChangesNothing(db: Tables, ops: seq<Op>, more: seq<Op>, stale: Op)
    requires IssuedEpoch(stale).Some? && Run(db, ops).epoch > IssuedEpoch(stale).value
    ensures Apply(Run(db, ops + more), stale).Err?
    ensures Run(db, ops + more + [stale]) == Run(db, ops + more)
  {
    EpochsOnlyGrow(db, ops, more);
    StaleRefused(Run(db, ops + more), stale);
    RunNext(db, ops + more, stale);
  }

  lemma AcquiredEpochIsNew(db: Tables, ops: seq<Op>, more: seq<Op>)
    requires Apply(Run(db, ops + more), OpAcquireEpoch).Ok?
    ensures Run(db, ops + more + [OpAcquireEpoch]).epoch > Run(db, ops).epoch
  {
    EpochsOnlyGrow(db, ops, more);
    RunNext(db, ops + more, OpAcquireEpoch);
  }

  // ---------------------------------------------------------------- task states and dependencies

  /** Every change a call makes to a task's state is an edge of the task transition table, and no task disappears. */
  lemma TaskStatesFollowTable(db: Tables, op: Op, task: string)
    requires task in db.tasks
    ensures task in After(db, op).tasks
    ensures var from, to := db.tasks[task].state, After(db, op).tasks[task].state;
            from == to || TaskEdge(from, to)
  {
    if Apply(db, op).Ok? {
      match op
      case OpAcquireEpoch =>
      case OpAddTask(_) =>
      case OpAddDependency(_, _) =>
      case OpSetReady(_) =>
      case OpClaim(_, _, _, _) =>
      case OpAdvance(_, _, _, _) =>
      case OpReceipt(_) =>
      case OpFinish(_, _, _, _) =>
      case OpRecover(_, _, _, _, _) =>
    }
  }

  lemma {:induction false} SucceededStays(ops: seq<Op>, more: seq<Op>, task: string)
    requires task in Run(EMPTY, ops).tasks && Run(EMPTY, ops).tasks[task].state in {Succeeded, Inconsistent}
    ensures task in Run(EMPTY, ops + more).tasks
    ensures Run(EMPTY, ops + more).tasks[task].state == Run(EMPTY, ops).tasks[task].state
    decreases |more|
  {
    if more == [] {
      assert ops + more == ops;
    } else {
      var shorter := more[..|more| - 1];
      SucceededStays(ops, shorter, task);
      assert (ops + more)[..|ops + more| - 1] == ops + shorter;
      assert (ops + more)[|ops + more| - 1] == more[|more| - 1];
      TaskStatesFollowTable(Run(EMPTY, ops + shorter), more[|more| - 1], task);
    }
  }

  lemma {:induction false} DependencyEdgesStay(db: Tables, ops: seq<Op>, more: seq<Op>)
    ensures Run(db, ops).deps <= Run(db, ops + more).deps
    decreases |more|
  {
    if more == [] {
      assert ops + more == ops;
    } else {
      var shorter := more[..|more| - 1];
      DependencyEdgesStay(db, ops, shorter);
      assert (ops + more)[..|ops + more| - 1] == ops + shorter;
      assert (ops + more)[|ops + more| - 1] == more[|more| - 1];
    }
  }

  /** A claim happens only when every dependency recorded so far has SUCCEEDED, and it stays so for the rest of the run. */
  lemma ClaimSeesDependenciesDone(ops: seq<Op>, claim: Op, more: seq<Op>, d: (string, string))
    requires claim.OpClaim? && Apply(Run(EMPTY, ops), claim).Ok?
    requires d in Run(EMPTY, ops).deps && d.0 == claim.task
    ensures d.1 in Run(EMPTY, ops + more).tasks && Run(EMPTY, ops + more).tasks[d.1].state == Succeeded
    ensures d in Run(EMPTY, ops + more).deps
  {
    RunKeepsInv(ops);
    assert DependenciesMet(Run(EMPTY, ops), claim.task);
    SucceededStays(ops, more, d.1);
    DependencyEdgesStay(EMPTY, ops, more);
  }

  /** An edge between two distinct recorded tasks, not yet recorded, is refused if and only if it would close a cycle. */
  lemma DependencyRefusedIffCycle(ops: seq<Op>, task: string, dependsOn: string)
    requires var db := Run(EMPTY, ops);
             task in db.tasks && dependsOn in db.tasks && task != dependsOn && (task, dependsOn) !in db.deps
    ensures var db := Run(EMPTY, ops);
            && Acyclic(db.deps)
            && (AddDependency(db, task, dependsOn).Err? <==> !Acyclic(db.deps + {(task, dependsOn)}))
  {
    RunKeepsInv(ops);
    var db := Run(EMPTY, ops);
    assert TaskOk(db, task) && TaskOk(db, dependsOn);
    EdgeKeepsAcyclicIff(db.deps, task, dependsOn);
  }

  /** No deadlock: if nothing is RUNNING and nothing ended other than SUCCEEDED, and some task is unfinished,
      then some unfinished task has all its dependencies SUCCEEDED and can be made or found READY. */
  lemma SomeTaskCanProceed(ops: seq<Op>) returns (task: string)
    requires var db := Run(EMPTY, ops);
             && (exists t :: t in db.tasks && db.tasks[t].state != Succeeded)
             && forall t :: t in db.tasks ==> db.tasks[t].state in {Planned, Ready, Retryable, Succeeded}
    ensures var db := Run(EMPTY, ops);
            && task in db.tasks && db.tasks[task].state != Succeeded && DependenciesMet(db, task)
            && (Claimable(db, task) || SetReady(db, task).Ok?)
  {
    RunKeepsInv(ops);
    var db := Run(EMPTY, ops);
    var open := set t | t in db.tasks && db.tasks[t].state != Succeeded;
    var t :| t in db.tasks && db.tasks[t].state != Succeeded;
    assert t in open;
    task := MinimalExists(db.deps, open);
    assert TaskOk(db, task);
  }
}
