/** What the rows of a plan look like in every run of the two services, and that each transaction the services use keeps
    this. */
module PlanRows {
  import opened Common
  import opened Tasks
  import opened TaskTables
  import TI = TableInvariants
  import opened Reconciler
  import opened TempNames
  import opened Protocol

  // ---------------------------------------------------------------- the shape of the rows

  ghost predicate TaskShape(plan: Plan, db: Tables, t: string)
    requires t in db.tasks
  {
    && t in plan.assets
    && db.tasks[t].target == plan.assets[t].spec.target
    && db.tasks[t].state in {Ready, Running, Succeeded, Retryable, Inconsistent}
    && (db.tasks[t].state == Succeeded ==>
          exists a :: a in db.attempts && db.attempts[a].task == t && db.attempts[a].state == Committed)
  }

  predicate Ended(state: AttemptState) {
    state in {Committed, AttemptRetryable, AttemptInconsistent}
  }

  ghost predicate AttemptShape(plan: Plan, db: Tables, a: string)
    requires a in db.attempts
  {
    var row := db.attempts[a];
    && row.state in {AttemptRunning, CommitIntent, TempWritten, VerifiedDurable, Committed, AttemptRetryable, AttemptInconsistent}
    && (row.finished <==> Ended(row.state))
    && (row.state in {VerifiedDurable, Committed} ==> (row.task, a) in db.receipts)
    && (row.state == Committed ==>
          && row.task in db.tasks && db.tasks[row.task].state == Succeeded && row.task in plan.assets
          && MatchesPlan(plan, Case(row.task, a, row.epoch, Some(db.receipts[(row.task, a)]))))
  }

  ghost predicate ReceiptShape(plan: Plan, db: Tables, k: (string, string))
    requires k in db.receipts
  {
    var r := db.receipts[k];
    && k.0 in plan.assets && SingleComponent(plan.assets[k.0].spec.target)
    && r.tempPath == TempName(plan, k.0, k.1) && r.finalPath == plan.assets[k.0].spec.target
    && r.sourceDigest == Some(r.targetDigest) && r.sourceIdentity == Some(plan.assets[k.0].identity)
    && k.1 in db.attempts
    && (db.attempts[k.1].state == VerifiedDurable || Ended(db.attempts[k.1].state))
  }

  predicate IsGenerated(plan: Plan, t: string, a: string, n: nat) {
    1 <= n <= UINT32_MAX && a == GeneratedAttemptId(plan.id, t, n)
  }

  /** Every attempt id was generated by a claim of its task, with the number of that claim. */
  ghost predicate Numbered(plan: Plan, db: Tables, a: string)
    requires a in db.attempts
  {
    var t := db.attempts[a].task;
    t in plan.assets && t in db.tasks && exists n: nat :: IsGenerated(plan, t, a, n) && n <= db.tasks[t].attemptCount
  }

  ghost predicate DbShape(plan: Plan, db: Tables) {
    && (forall a {:trigger Numbered(plan, db, a)} :: a in db.attempts ==> Numbered(plan, db, a))
    && (forall t {:trigger TaskShape(plan, db, t)} :: t in db.tasks ==> TaskShape(plan, db, t))
    && (forall a {:trigger AttemptShape(plan, db, a)} :: a in db.attempts ==> AttemptShape(plan, db, a))
    && (forall k {:trigger ReceiptShape(plan, db, k)} :: k in db.receipts ==> ReceiptShape(plan, db, k))
    && db.deps == {}
  }

  ghost predicate DbInv(plan: Plan, materialized: bool, db: Tables) {
    && TI.Inv(db) && DbShape(plan, db)
    && (materialized ==>
          db.tasks.Keys == plan.assets.Keys && forall t :: t in plan.assets ==> ValidTaskSpec(plan.assets[t].spec))
    && (!materialized ==> db == EMPTY)
  }

  // ---------------------------------------------------------------- the rows a transaction leaves alone

  /** The row changes of one transaction: task `t`, its attempt `a` and the receipt for the pair. */
  ghost predicate OnlyTouches(db: Tables, db': Tables, t: string, a: string) {
    && t in db.tasks && db'.tasks.Keys == db.tasks.Keys && db.tasks[t].attemptCount <= db'.tasks[t].attemptCount
    && (forall u :: u in db.tasks && u != t ==> db'.tasks[u] == db.tasks[u])
    && (forall b :: b in db.attempts && b != a ==> b in db'.attempts && db'.attempts[b] == db.attempts[b])
    && (forall b :: b in db'.attempts && b != a ==> b in db.attempts)
    && (forall k :: k in db.receipts && k != (t, a) ==> k in db'.receipts && db'.receipts[k] == db.receipts[k])
    && (forall k :: k in db'.receipts && k != (t, a) ==> k in db.receipts)
    && db'.deps == db.deps
    && (a in db.attempts ==> db.attempts[a].task == t && a in db'.attempts)
    && (a in db'.attempts ==> db'.attempts[a].task == t)
    && ((t, a) in db.receipts ==> (t, a) in db'.receipts)
  }

  lemma TaskFrame(plan: Plan, db: Tables, db': Tables, t: string, a: string, u: string)
    requires OnlyTouches(db, db', t, a) && u in db.tasks && u != t && TaskShape(plan, db, u)
    ensures TaskShape(plan, db', u)
  {
    if db.tasks[u].state == Succeeded {
      var b :| b in db.attempts && db.attempts[b].task == u && db.attempts[b].state == Committed;
      assert b in db'.attempts && db'.attempts[b] == db.attempts[b];
    }
  }

  lemma AttemptFrame(plan: Plan, db: Tables, db': Tables, t: string, a: string, b: string)
    requires OnlyTouches(db, db', t, a) && db.tasks[t].state != Succeeded
    requires b in db.attempts && b != a && AttemptShape(plan, db, b)
    ensures AttemptShape(plan, db', b)
  {
    assert (db.attempts[b].task, b) != (t, a);
  }

  lemma ReceiptFrame(plan: Plan, db: Tables, db': Tables, t: string, a: string, k: (string, string))
    requires OnlyTouches(db, db', t, a) && k in db.receipts && k != (t, a) && ReceiptShape(plan, db, k)
    requires TI.ReceiptOk(db, k)
    ensures ReceiptShape(plan, db', k)
  {
    assert db.attempts[k.1].task == k.0;
  }

  lemma NumberedFrame(plan: Plan, db: Tables, db': Tables, t: string, a: string, b: string)
    requires OnlyTouches(db, db', t, a) && b in db.attempts && b in db'.attempts && Numbered(plan, db, b)
    ensures Numbered(plan, db', b)
  {
    var u := db.attempts[b].task;
    var n: nat :| IsGenerated(plan, u, b, n) && n <= db.tasks[u].attemptCount;
    assert n <= db'.tasks[u].attemptCount;
  }

  lemma ShapeFrame(plan: Plan, db: Tables, db': Tables, t: string, a: string)
    requires DbShape(plan, db) && OnlyTouches(db, db', t, a) && db.tasks[t].state != Succeeded
    requires forall k :: k in db.receipts ==> TI.ReceiptOk(db, k)
    requires TaskShape(plan, db', t)
    requires a in db'.attempts ==> AttemptShape(plan, db', a)
    requires (t, a) in db'.receipts ==> ReceiptShape(plan, db', (t, a))
    requires a in db'.attempts && a !in db.attempts ==> Numbered(plan, db', a)
    ensures DbShape(plan, db')
  {
    forall b | b in db'.attempts ensures Numbered(plan, db', b) {
      if b in db.attempts {
        NumberedFrame(plan, db, db', t, a, b);
      }
    }
    forall u | u in db'.tasks ensures TaskShape(plan, db', u) {
      if u != t {
        TaskFrame(plan, db, db', t, a, u);
      }
    }
    forall b | b in db'.attempts ensures AttemptShape(plan, db', b) {
      if b != a {
        AttemptFrame(plan, db, db', t, a, b);
      }
    }
    forall k | k in db'.receipts ensures ReceiptShape(plan, db', k) {
      if k != (t, a) {
        ReceiptFrame(plan, db, db', t, a, k);
      }
    }
  }

  // ---------------------------------------------------------------- the rows of a new plan

  lemma MaterializeOne(before: Tables, spec: TaskSpec)
    requires TI.Inv(before) && AddTask(before, spec).Ok? && SetReady(AddTask(before, spec).value, spec.id).Ok?
    ensures var db := SetReady(AddTask(before, spec).value, spec.id).value;
            && TI.Inv(db) && db.attempts == before.attempts && db.receipts == before.receipts && db.deps == before.deps
            && db.epoch == before.epoch && spec.id !in before.tasks && ValidTaskSpec(spec)
            && db.tasks.Keys == before.tasks.Keys + {spec.id}
            && db.tasks[spec.id].state == Ready && db.tasks[spec.id].target == spec.target
            && forall t :: t in before.tasks ==> db.tasks[t] == before.tasks[t]
  {
    TI.ApplyKeepsInv(before, OpAddTask(spec));
    TI.ApplyKeepsInv(AddTask(before, spec).value, OpSetReady(spec.id));
  }

  ghost predicate FreshRows(plan: Plan, db: Tables) {
    && TI.Inv(db) && db.attempts == map[] && db.receipts == map[] && db.deps == {} && db.epoch == 0
    && forall t :: t in db.tasks ==>
         t in plan.assets && db.tasks[t].state == Ready && db.tasks[t].target == plan.assets[t].spec.target
         && ValidTaskSpec(plan.assets[t].spec)
  }

  lemma FreshRowsStep(plan: Plan, before: Tables, t: string)
    requires FreshRows(plan, before) && t in plan.assets && plan.assets[t].spec.id == t
    requires AddTask(before, plan.assets[t].spec).Ok? && SetReady(AddTask(before, plan.assets[t].spec).value, t).Ok?
    ensures var db := SetReady(AddTask(before, plan.assets[t].spec).value, t).value;
            FreshRows(plan, db) && db.tasks.Keys == before.tasks.Keys + {t}
  {
    MaterializeOne(before, plan.assets[t].spec);
  }

  lemma MembersOfPrefix(s: seq<string>, k: nat)
    requires 0 < k <= |s|
    ensures Members(s[..k]) == Members(s[..k - 1]) + {s[k - 1]}
  {
    assert s[..k] == s[..k - 1] + [s[k - 1]];
  }

  /** Materialisation inserts exactly the plan's tasks, all READY, or nothing. */
  lemma {:induction false} MaterializeRows(plan: Plan, k: nat)
    requires PlanShape(plan) && k <= |plan.order| && Materialize(plan, k).Ok?
    ensures FreshRows(plan, Materialize(plan, k).value)
    ensures Materialize(plan, k).value.tasks.Keys == Members(plan.order[..k])
    decreases k
  {
    if k == 0 {
      TI.EmptyInv();
      assert plan.order[..0] == [];
    } else {
      MaterializeRows(plan, k - 1);
      var t := plan.order[k - 1];
      assert t in plan.order && plan.assets[t].spec.id == t;
      MembersOfPrefix(plan.order, k);
      FreshRowsStep(plan, Materialize(plan, k - 1).value, t);
    }
  }

  lemma MaterializeInv(plan: Plan)
    requires PlanShape(plan) && Materialize(plan, |plan.order|).Ok?
    ensures DbInv(plan, true, Materialize(plan, |plan.order|).value)
  {
    MaterializeRows(plan, |plan.order|);
    assert plan.order[..|plan.order|] == plan.order;
    assert Members(plan.order) == plan.assets.Keys;
  }

  // ---------------------------------------------------------------- the shape after each transaction

  lemma EpochShape(plan: Plan, db: Tables)
    requires DbShape(plan, db)
    ensures DbShape(plan, db.(epoch := db.epoch + 1))
  {
    var db' := db.(epoch := db.epoch + 1);
    forall b | b in db'.attempts ensures Numbered(plan, db', b) {
      assert Numbered(plan, db, b);
    }
    forall u | u in db'.tasks ensures TaskShape(plan, db', u) {
      assert TaskShape(plan, db, u);
    }
    forall b | b in db'.attempts ensures AttemptShape(plan, db', b) {
      assert AttemptShape(plan, db, b);
    }
    forall k | k in db'.receipts ensures ReceiptShape(plan, db', k) {
      assert ReceiptShape(plan, db, k);
    }
  }

  lemma ClaimShape(plan: Plan, db: Tables, t: string, epoch: nat, a: string, taken: set<string>)
    requires DbShape(plan, db) && (forall k :: k in db.receipts ==> TI.ReceiptOk(db, k))
    requires t in db.tasks && db.tasks[t].state == Ready && Claim(db, t, epoch, a, taken).Ok?
    requires a == GeneratedAttemptId(plan.id, t, db.tasks[t].attemptCount + 1)
    ensures DbShape(plan, Claim(db, t, epoch, a, taken).value)
  {
    var db' := Claim(db, t, epoch, a, taken).value;
    assert TaskShape(plan, db, t);
    NoReceiptYet(plan, db, t, a);
    assert IsGenerated(plan, t, a, db'.tasks[t].attemptCount);
    ShapeFrame(plan, db, db', t, a);
  }

  lemma SetReadyShape(plan: Plan, db: Tables, t: string)
    requires DbShape(plan, db) && SetReady(db, t).Ok?
    ensures DbShape(plan, SetReady(db, t).value)
  {
    var db' := SetReady(db, t).value;
    forall b | b in db'.attempts ensures Numbered(plan, db', b) {
      assert Numbered(plan, db, b);
    }
    forall u | u in db'.tasks ensures TaskShape(plan, db', u) {
      assert TaskShape(plan, db, u);
    }
    forall b | b in db'.attempts ensures AttemptShape(plan, db', b) {
      assert AttemptShape(plan, db, b);
    }
    forall k | k in db'.receipts ensures ReceiptShape(plan, db', k) {
      assert ReceiptShape(plan, db, k);
    }
  }

  /** What the row invariant says about a task that is RUNNING under (owner, a). */
  ghost predicate Held(plan: Plan, db: Tables, t: string, owner: nat, a: string) {
    && IsRunning(db, t) && db.tasks[t].owner == Some(owner) && db.tasks[t].active == Some(a)
    && HasAttempt(db, t, owner, a) && !db.attempts[a].finished
    && DbShape(plan, db) && (forall k :: k in db.receipts ==> TI.ReceiptOk(db, k))
  }

  lemma RunningIsHeld(plan: Plan, db: Tables, t: string)
    requires TI.Inv(db) && DbShape(plan, db) && IsRunning(db, t)
    ensures db.tasks[t].owner.Some? && db.tasks[t].active.Some?
    ensures Held(plan, db, t, db.tasks[t].owner.value, db.tasks[t].active.value)
  {
    assert TI.TaskOk(db, t);
  }

  lemma NoReceiptYet(plan: Plan, db: Tables, t: string, a: string)
    requires DbShape(plan, db)
    requires a in db.attempts ==> db.attempts[a].state in {AttemptRunning, CommitIntent, TempWritten}
    ensures (t, a) !in db.receipts
  {
    forall k | k in db.receipts ensures k != (t, a) {
      assert ReceiptShape(plan, db, k);
    }
  }

  lemma AdvanceShape(plan: Plan, db: Tables, t: string, epoch: nat, a: string, next: AttemptState)
    requires Held(plan, db, t, epoch, a) && Advance(db, t, epoch, a, next).Ok? && next in {CommitIntent, TempWritten}
    ensures DbShape(plan, Advance(db, t, epoch, a, next).value)
  {
    hide Numbered, MatchesPlan, TI.ReceiptOk;
    var db' := Advance(db, t, epoch, a, next).value;
    assert TaskShape(plan, db, t) && AttemptShape(plan, db, a);
    if db' != db {
      assert (t, a) in db.receipts ==> ReceiptShape(plan, db, (t, a));
      ShapeFrame(plan, db, db', t, a);
    }
  }

  lemma ReceiptShapeKept(plan: Plan, db: Tables, t: string, epoch: nat, a: string, size: nat, digest: Digest)
    requires Held(plan, db, t, epoch, a) && t in plan.assets && (t, a) !in db.receipts
    requires SingleComponent(plan.assets[t].spec.target)
    requires PersistReceipt(db, ReceiptFor(plan, t, a, epoch, size, digest)).Ok?
    ensures DbShape(plan, PersistReceipt(db, ReceiptFor(plan, t, a, epoch, size, digest)).value)
  {
    var db' := PersistReceipt(db, ReceiptFor(plan, t, a, epoch, size, digest)).value;
    assert TaskShape(plan, db, t) && AttemptShape(plan, db, a);
    ShapeFrame(plan, db, db', t, a);
  }

  /** Releasing a task that did not commit: RETRYABLE or INCONSISTENT. */
  lemma ReleaseUncommitted(
    plan: Plan, db: Tables, t: string, owner: nat, a: string, next: TaskState, attemptNext: AttemptState, error: Option<Code>)
    requires Held(plan, db, t, owner, a)
    requires (next == Retryable && attemptNext == AttemptRetryable) || (next == Inconsistent && attemptNext == AttemptInconsistent)
    ensures Release(db, t, owner, a, next, attemptNext, error).Ok?
    ensures DbShape(plan, Release(db, t, owner, a, next, attemptNext, error).value)
  {
    var db' := Release(db, t, owner, a, next, attemptNext, error).value;
    assert TaskShape(plan, db, t) && AttemptShape(plan, db, a);
    assert (t, a) in db.receipts ==> ReceiptShape(plan, db, (t, a));
    ShapeFrame(plan, db, db', t, a);
  }

  ghost predicate CaseOk(plan: Plan, db: Tables, c: Case) {
    && c.task in plan.assets && IsRunning(db, c.task)
    && db.tasks[c.task].owner.Some? && db.tasks[c.task].active.Some?
    && c == CaseFor(db, c.task) && SingleComponent(plan.assets[c.task].spec.target)
  }

  ghost predicate CaseProven(plan: Plan, db: Tables, c: Case) {
    CaseOk(plan, db, c) && c.receipt.Some? && MatchesPlan(plan, c)
  }

  /** Releasing a task as SUCCEEDED, with evidence that matches the plan. */
  lemma ReleaseCommitted(plan: Plan, db: Tables, c: Case)
    requires Held(plan, db, c.task, c.owner, c.attempt) && CaseProven(plan, db, c)
    ensures Release(db, c.task, c.owner, c.attempt, Succeeded, Committed, None).Ok?
    ensures DbShape(plan, Release(db, c.task, c.owner, c.attempt, Succeeded, Committed, None).value)
  {
    var t, a := c.task, c.attempt;
    var db' := Release(db, t, c.owner, a, Succeeded, Committed, None).value;
    assert TaskShape(plan, db, t) && AttemptShape(plan, db, a) && ReceiptShape(plan, db, (t, a));
    assert db'.attempts[a].task == t && db'.attempts[a].state == Committed;
    ShapeFrame(plan, db, db', t, a);
  }

  /** A task that can get a receipt: its target has one component and its size fits the column. */
  predicate Attemptable(plan: Plan, t: string) {
    t in plan.assets && SingleComponent(plan.assets[t].spec.target) && plan.assets[t].identity.size <= INT64_MAX
  }

  lemma CaseAttemptable(plan: Plan, db: Tables, c: Case)
    requires DbInv(plan, true, db) && CaseProven(plan, db, c)
    ensures Attemptable(plan, c.task)
  {
    assert TI.ReceiptOk(db, (c.task, c.attempt));
  }

  lemma CaseReceipt(plan: Plan, db: Tables, c: Case)
    requires DbInv(plan, true, db) && CaseOk(plan, db, c) && c.receipt.Some?
    ensures c.receipt.value.tempPath == TempName(plan, c.task, c.attempt)
    ensures c.receipt.value.finalPath == plan.assets[c.task].spec.target
    ensures IntentFor(plan, c).tempPath == TempName(plan, c.task, c.attempt)
  {
    assert ReceiptShape(plan, db, (c.task, c.attempt));
  }

  // ---------------------------------------------------------------- the invariant after each transaction

  /** No new committed attempt, and no receipt rewritten. */
  ghost predicate NoNewCommit(db: Tables, db': Tables) {
    && (forall a :: a in db'.attempts && db'.attempts[a].state == Committed ==> a in db.attempts && db.attempts[a] == db'.attempts[a])
    && (forall k :: k in db'.receipts && k in db.receipts ==> db'.receipts[k] == db.receipts[k])
    && (forall a :: a in db.attempts && db.attempts[a].state == Committed ==> (db.attempts[a].task, a) in db.receipts)
  }

  lemma CommittedHaveReceipts(plan: Plan, db: Tables, a: string)
    requires DbShape(plan, db) && a in db.attempts && db.attempts[a].state == Committed
    ensures (db.attempts[a].task, a) in db.receipts
  {
    assert AttemptShape(plan, db, a);
  }

  lemma NoNewCommitFrame(plan: Plan, db: Tables, db': Tables, t: string, a: string)
    requires DbShape(plan, db) && OnlyTouches(db, db', t, a)
    requires a in db'.attempts ==> db'.attempts[a].state != Committed
    requires (t, a) in db.receipts ==> db'.receipts[(t, a)] == db.receipts[(t, a)]
    ensures NoNewCommit(db, db')
  {
    forall b | b in db.attempts && db.attempts[b].state == Committed ensures (db.attempts[b].task, b) in db.receipts {
      CommittedHaveReceipts(plan, db, b);
    }
  }

  /** What one transaction on task `t` and attempt `a` guarantees to the rest of the world. */
  ghost predicate RowStep(plan: Plan, db: Tables, db': Tables, t: string, a: string) {
    DbInv(plan, true, db') && NoNewCommit(db, db') && OnlyTouches(db, db', t, a) && db'.epoch == db.epoch
  }

  lemma SetAttemptTouches(
    db: Tables, t: string, a: string, state: AttemptState, finished: bool, result: Option<TaskState>, error: Option<Code>)
    requires t in db.tasks && a in db.attempts && db.attempts[a].task == t
    ensures OnlyTouches(db, SetAttempt(db, a, state, finished, result, error), t, a)
  {
  }

  lemma AdvanceTouches(db: Tables, t: string, e: nat, a: string, next: AttemptState)
    requires Advance(db, t, e, a, next).Ok?
    ensures HasAttempt(db, t, e, a) && IsRunning(db, t) && db.tasks[t].owner == Some(e) && db.tasks[t].active == Some(a)
    ensures var db' := Advance(db, t, e, a, next).value;
            && OnlyTouches(db, db', t, a) && db'.epoch == db.epoch && db'.receipts == db.receipts
            && db'.tasks == db.tasks && HasAttempt(db', t, e, a) && db'.attempts[a].state == next
  {
    SetAttemptTouches(db, t, a, next, false, None, None);
  }

  lemma AdvanceDb(plan: Plan, db: Tables, t: string, e: nat, a: string, next: AttemptState)
    requires DbInv(plan, true, db) && next in {CommitIntent, TempWritten}
    requires Advance(db, t, e, a, next).Ok?
    ensures RowStep(plan, db, Advance(db, t, e, a, next).value, t, a)
  {
    AdvanceTouches(db, t, e, a, next);
    RunningIsHeld(plan, db, t);
    AdvanceShape(plan, db, t, e, a, next);
    if db.attempts[a].state != next {
      TI.AttemptRewriteKeepsInv(db, t, e, a, next);
    }
    NoNewCommitFrame(plan, db, Advance(db, t, e, a, next).value, t, a);
  }

  lemma ReceiptTouches(db: Tables, r: VerifiedReceipt)
    requires PersistReceipt(db, r).Ok? && (r.task, r.attempt) !in db.receipts
    ensures HasAttempt(db, r.task, r.ownerEpoch, r.attempt) && IsRunning(db, r.task)
    ensures var db' := PersistReceipt(db, r).value;
            && OnlyTouches(db, db', r.task, r.attempt) && db'.epoch == db.epoch && db'.tasks == db.tasks
            && db'.attempts[r.attempt].state == VerifiedDurable
            && db'.receipts == db.receipts[(r.task, r.attempt) := r]
  {
  }

  lemma ReceiptDb(plan: Plan, db: Tables, t: string, e: nat, a: string, size: nat, digest: Digest)
    requires DbInv(plan, true, db) && t in plan.assets && a in db.attempts && db.attempts[a].state == TempWritten
    requires SingleComponent(plan.assets[t].spec.target)
    requires PersistReceipt(db, ReceiptFor(plan, t, a, e, size, digest)).Ok?
    ensures RowStep(plan, db, PersistReceipt(db, ReceiptFor(plan, t, a, e, size, digest)).value, t, a)
  {
    var r := ReceiptFor(plan, t, a, e, size, digest);
    NoReceiptYet(plan, db, t, a);
    ReceiptTouches(db, r);
    RunningIsHeld(plan, db, t);
    ReceiptShapeKept(plan, db, t, e, a, size, digest);
    TI.ReceiptKeepsInv(db, r);
    NoNewCommitFrame(plan, db, PersistReceipt(db, r).value, t, a);
  }

  lemma ReleaseTouches(
    db: Tables, t: string, owner: nat, a: string, next: TaskState, attemptNext: AttemptState, error: Option<Code>)
    requires Release(db, t, owner, a, next, attemptNext, error).Ok?
    ensures var db' := Release(db, t, owner, a, next, attemptNext, error).value;
            && OnlyTouches(db, db', t, a) && db'.epoch == db.epoch && db'.receipts == db.receipts
            && db'.attempts[a].state == attemptNext && db'.tasks[t].state == next
  {
  }

  lemma ReleaseDb(
    plan: Plan, db: Tables, t: string, owner: nat, a: string, next: TaskState, attemptNext: AttemptState, error: Option<Code>)
    requires DbInv(plan, true, db) && IsRunning(db, t) && db.tasks[t].owner == Some(owner) && db.tasks[t].active == Some(a)
    requires (next == Retryable && attemptNext == AttemptRetryable) || (next == Inconsistent && attemptNext == AttemptInconsistent)
    ensures Release(db, t, owner, a, next, attemptNext, error).Ok?
    ensures RowStep(plan, db, Release(db, t, owner, a, next, attemptNext, error).value, t, a)
  {
    RunningIsHeld(plan, db, t);
    ReleaseUncommitted(plan, db, t, owner, a, next, attemptNext, error);
    ReleaseTouches(db, t, owner, a, next, attemptNext, error);
    TI.ReleaseKeepsInv(db, t, owner, a, next, attemptNext, error);
    NoNewCommitFrame(plan, db, Release(db, t, owner, a, next, attemptNext, error).value, t, a);
  }

  lemma ClaimTouches(db: Tables, t: string, e: nat, a: string, taken: set<string>)
    requires t in db.tasks && Claim(db, t, e, a, taken).Ok?
    ensures var db' := Claim(db, t, e, a, taken).value;
            && OnlyTouches(db, db', t, a) && db'.epoch == db.epoch && db'.receipts == db.receipts
            && db'.attempts[a].state == AttemptRunning && Ownership(db', t, e, a).Ok? && HasAttempt(db', t, e, a)
  {
  }

  lemma ClaimDb(plan: Plan, db: Tables, t: string, e: nat, a: string, taken: set<string>)
    requires DbInv(plan, true, db) && Claimable(db, t) && Claim(db, t, e, a, taken).Ok?
    requires a == GeneratedAttemptId(plan.id, t, db.tasks[t].attemptCount + 1)
    ensures RowStep(plan, db, Claim(db, t, e, a, taken).value, t, a)
  {
    ClaimShape(plan, db, t, e, a, taken);
    ClaimTouches(db, t, e, a, taken);
    TI.ClaimKeepsInv(db, t, e, a, taken);
    NoNewCommitFrame(plan, db, Claim(db, t, e, a, taken).value, t, a);
  }

  lemma EpochDb(plan: Plan, db: Tables)
    requires DbInv(plan, true, db)
    ensures DbInv(plan, true, db.(epoch := db.epoch + 1))
    ensures NoNewCommit(db, db.(epoch := db.epoch + 1))
  {
    EpochShape(plan, db);
    TI.EpochKeepsInv(db);
    forall b | b in db.attempts && db.attempts[b].state == Committed ensures (db.attempts[b].task, b) in db.receipts {
      CommittedHaveReceipts(plan, db, b);
    }
  }

  lemma SetReadyDb(plan: Plan, db: Tables, t: string)
    requires DbInv(plan, true, db) && SetReady(db, t).Ok?
    ensures DbInv(plan, true, SetReady(db, t).value)
    ensures NoNewCommit(db, SetReady(db, t).value)
  {
    SetReadyShape(plan, db, t);
    TI.TaskRowKeepsInv(db, t, SetReady(db, t).value.tasks[t]);
    forall b | b in db.attempts && db.attempts[b].state == Committed ensures (db.attempts[b].task, b) in db.receipts {
      CommittedHaveReceipts(plan, db, b);
    }
  }

  lemma SameRows(plan: Plan, db: Tables)
    requires DbShape(plan, db)
    ensures NoNewCommit(db, db)
  {
    forall b | b in db.attempts && db.attempts[b].state == Committed ensures (db.attempts[b].task, b) in db.receipts {
      CommittedHaveReceipts(plan, db, b);
    }
  }

  /** Settling the case in hand, with evidence if it is to be SUCCEEDED. */
  lemma SettleDb(plan: Plan, db: Tables, c: Case, verdict: Verdict)
    requires DbInv(plan, true, db) && CaseOk(plan, db, c) && (verdict == RecoverSucceeded ==> CaseProven(plan, db, c))
    requires Recover(db, c.task, db.epoch, c.owner, c.attempt, verdict).Ok?
    ensures var db' := Recover(db, c.task, db.epoch, c.owner, c.attempt, verdict).value;
            && DbInv(plan, true, db') && db'.epoch == db.epoch
            && (verdict != RecoverSucceeded ==> NoNewCommit(db, db'))
  {
    match verdict
    case RecoverSucceeded =>
      RunningIsHeld(plan, db, c.task);
      ReleaseCommitted(plan, db, c);
      TI.ReleaseKeepsInv(db, c.task, c.owner, c.attempt, Succeeded, Committed, None);
    case RecoverRetryable =>
      ReleaseDb(plan, db, c.task, c.owner, c.attempt, Retryable, AttemptRetryable, Some(IoError));
    case RecoverInconsistent =>
      ReleaseDb(plan, db, c.task, c.owner, c.attempt, Inconsistent, AttemptInconsistent, Some(Internal));
  }
}
