/** Runs of migrate, built step by step: rounds in which every task is claimed and all but some are given back, and
    attempts that get as far as their receipt. */
module MigrateRounds {
  import opened Common
  import opened StringOrder
  import opened Tasks
  import opened TaskTables
  import TI = TableInvariants
  import opened TempNames
  import opened Protocol
  import opened PlanRows
  import opened ProtocolRows
  import opened ProtocolSafety
  import opened ProtocolRuns
  import opened QuietInvariant
  import opened RunKit
  import CopyModel
  import MigrationAttempt
  import Repository

  /** The rows of the plan can be written, and its attempt ids are valid. */
  ghost predicate Viable(plan: Plan) {
    PlanShape(plan) && Materialize(plan, |plan.order|).Ok? && ValidId(plan.id)
  }

  function Claimed(plan: Plan, t: string, n: nat): Worker {
    Worker(GeneratedAttemptId(plan.id, t, n), false, Queued)
  }

  /** Where task `t` is in the n-th round: not yet claimed, given back, or kept by its worker. */
  predicate Progress(plan: Plan, w: World, t: string, n: nat, keep: set<string>)
    requires w.proc.Migrating?
  {
    t in w.db.tasks &&
    var row := w.db.tasks[t];
    || (row.state == Ready && row.attemptCount + 1 == n && t !in w.proc.workers)
    || (t !in keep && row.state == Retryable && row.attemptCount == n && t !in w.proc.workers)
    || (t in keep && row.state == Running && row.attemptCount == n && t in w.proc.workers && w.proc.workers[t] == Claimed(plan, t, n))
  }

  ghost predicate InRound(plan: Plan, w: World, n: nat, keep: set<string>) {
    && w.proc.Migrating? && 1 <= n <= UINT32_MAX && 1 <= w.proc.epoch <= INT64_MAX
    && forall t {:trigger Progress(plan, w, t, n, keep)} :: t in plan.assets ==> Progress(plan, w, t, n, keep)
  }

  /** Every task waits for its next claim. */
  ghost predicate Rested(plan: Plan, w: World, n: nat) {
    w.materialized && forall t :: t in plan.assets ==> t in w.db.tasks && w.db.tasks[t].state == Retryable && w.db.tasks[t].attemptCount == n
  }

  predicate SameGround(w: World, w': World) {
    w'.files == w.files && w'.sources == w.sources && w'.rootExists == w.rootExists && w'.db.receipts == w.db.receipts
  }

  function ReadySet(db: Tables): set<string> {
    set t | t in db.tasks && db.tasks[t].state == Ready
  }

  // ---------------------------------------------------------------- one claim

  lemma NewAttemptIsFresh(plan: Plan, db: Tables, t: string, n: nat)
    requires DbShape(plan, db) && t in db.tasks && db.tasks[t].attemptCount < n
    ensures GeneratedAttemptId(plan.id, t, n) !in db.attempts
  {
    var a := GeneratedAttemptId(plan.id, t, n);
    if a in db.attempts {
      assert Numbered(plan, db, a);
      var k: nat :| IsGenerated(plan, db.attempts[a].task, a, k) && k <= db.tasks[db.attempts[a].task].attemptCount;
      GeneratedIdsDistinct(plan.id, t, n, db.attempts[a].task, k);
    }
  }

  function ClaimWorld(plan: Plan, w: World, t: string, n: nat): World
    requires w.proc.Migrating? && t in w.db.tasks
  {
    var a := GeneratedAttemptId(plan.id, t, n);
    var row := w.db.tasks[t].(state := Running, owner := Some(w.proc.epoch), active := Some(a),
                              attemptCount := w.db.tasks[t].attemptCount + 1, lastError := None);
    w.(db := w.db.(tasks := w.db.tasks[t := row],
                   attempts := w.db.attempts[a := AttemptRow(t, w.proc.epoch, AttemptRunning, false, None, None)]),
       proc := w.proc.(workers := w.proc.workers[t := Claimed(plan, t, n)]))
  }

  /** The claim transaction of a READY task succeeds. */
  lemma ClaimWrites(plan: Plan, w: World, t: string, n: nat)
    requires ValidId(plan.id) && DbInv(plan, true, w.db) && w.proc.Migrating? && w.proc.epoch == w.db.epoch
    requires 1 <= n <= UINT32_MAX && 1 <= w.proc.epoch <= INT64_MAX
    requires t in w.db.tasks && w.db.tasks[t].state == Ready && w.db.tasks[t].attemptCount + 1 == n
    ensures Claim(w.db, t, w.proc.epoch, GeneratedAttemptId(plan.id, t, n), {}) == Ok(ClaimWorld(plan, w, t, n).db)
  {
    hide TaskShape, AttemptShape, ReceiptShape, Numbered;
    assert TI.TaskOk(w.db, t);
    NewAttemptIsFresh(plan, w.db, t, n);
    Repository.GeneratedIdValid(plan.id, t, n);
  }

  lemma LeastIsNext(plan: Plan, db: Tables, t: string)
    requires DbShape(plan, db) && t in ReadySet(db) && forall u :: u in ReadySet(db) ==> Le(t, u)
    ensures IsNextReady(db, t)
  {
    hide TaskShape, AttemptShape, ReceiptShape, Numbered;
    forall u | Claimable(db, u) ensures Le(t, u) {
      assert u in ReadySet(db);
    }
  }

  lemma ClaimGoes(plan: Plan, w: World, t: string, n: nat)
    requires Viable(plan) && w.proc.Migrating? && IsNextReady(w.db, t) && w.db.tasks[t].attemptCount + 1 == n
    requires Claim(w.db, t, w.proc.epoch, GeneratedAttemptId(plan.id, t, n), {}) == Ok(ClaimWorld(plan, w, t, n).db)
    ensures Next(plan, w, MigrateClaim(t, {})) == Some(ClaimWorld(plan, w, t, n))
  {
    hide Materialize, PlanShape, IsNextReady, Claim, MaterializeNext;
  }

  lemma RowsHere(plan: Plan, w: World)
    requires Inv(plan, w) && w.proc.Migrating?
    ensures DbInv(plan, true, w.db) && w.proc.epoch == w.db.epoch
  {
  }

  /** Claim the least READY task. */
  lemma ClaimOne(plan: Plan, w0: World, w: World, n: nat, keep: set<string>, t: string) returns (w': World)
    requires Viable(plan) && At(plan, w0, w) && InRound(plan, w, n, keep)
    requires t in ReadySet(w.db) && t in plan.assets && (forall u :: u in ReadySet(w.db) ==> Le(t, u))
    ensures At(plan, w0, w') && SameGround(w, w') && w'.proc.Migrating? && w'.proc.epoch == w.proc.epoch
    ensures w' == ClaimWorld(plan, w, t, n) && w.db.tasks[t].attemptCount + 1 == n
  {
    hide Inv, Next, Leads, Materialize, PlanShape;
    assert Progress(plan, w, t, n, keep);
    w' := ClaimWorld(plan, w, t, n);
    RowsHere(plan, w);
    ClaimWrites(plan, w, t, n);
    LeastIsNext(plan, w.db, t);
    ClaimGoes(plan, w, t, n);
    Walk(plan, w0, w, MigrateClaim(t, {}), w');
  }

  function FailedWorld(w: World, t: string): World
    requires w.proc.Migrating? && t in w.proc.workers
  {
    SetPc(w, t, Failing(IoError))
  }

  /** A worker fails at once and gives its task back. */
  lemma GiveBack(plan: Plan, w0: World, w: World, t: string) returns (w': World)
    requires Viable(plan) && At(plan, w0, w) && w.proc.Migrating? && t in w.proc.workers && w.proc.workers[t].pc.Queued?
    ensures At(plan, w0, w') && SameGround(w, w') && w'.proc.Migrating? && w'.proc.epoch == w.proc.epoch
    ensures w'.proc.workers == w.proc.workers - {t}
    ensures t in w'.db.tasks && t in w.db.tasks && w'.db.tasks[t].state == Retryable
    ensures w'.db.tasks[t].attemptCount == w.db.tasks[t].attemptCount
    ensures forall u :: u in w.db.tasks && u != t ==> u in w'.db.tasks && w'.db.tasks[u] == w.db.tasks[u]
    ensures w'.db.tasks.Keys == w.db.tasks.Keys
  {
    hide Next, Leads, Materialize, PlanShape, IsRun, At;
    FailsAtOnce(plan, w0, w, t);
    w' := Retried(plan, w0, FailedWorld(w, t), t, w.proc.workers[t].attempt);
    assert FailedWorld(w, t).proc.workers - {t} == w.proc.workers - {t};
  }

  lemma FailsAtOnce(plan: Plan, w0: World, w: World, t: string)
    requires Viable(plan) && At(plan, w0, w) && w.proc.Migrating? && t in w.proc.workers && w.proc.workers[t].pc.Queued?
    ensures At(plan, w0, FailedWorld(w, t))
  {
    hide Inv, Next, Leads, Materialize, PlanShape, IsRun, DbInv, FilesInv, Ownership;
    WorkerHere(plan, w, t);
    LeadsNowhere(plan, w);
    MigrationAttempt.FailMoves(plan, [w], [], w, t, IoError);
    WalkRun(plan, w0, w, WorkerFail(t, IoError), FailedWorld(w, t));
  }

  lemma Retried(plan: Plan, w0: World, w: World, t: string, a: string) returns (w': World)
    requires Viable(plan) && At(plan, w0, w) && w.proc.Migrating? && t in w.proc.workers
    requires w.proc.workers[t].pc == Failing(IoError) && w.proc.workers[t].attempt == a
    ensures At(plan, w0, w') && SameGround(w, w') && w'.proc.Migrating? && w'.proc.epoch == w.proc.epoch
    ensures w'.proc.workers == w.proc.workers - {t}
    ensures t in w'.db.tasks && t in w.db.tasks && w'.db.tasks[t].state == Retryable
    ensures w'.db.tasks[t].attemptCount == w.db.tasks[t].attemptCount
    ensures forall u :: u in w.db.tasks && u != t ==> u in w'.db.tasks && w'.db.tasks[u] == w.db.tasks[u]
    ensures w'.db.tasks.Keys == w.db.tasks.Keys
  {
    hide Inv, Next, Leads, Materialize, PlanShape, IsRun, Finish, DbInv;
    WorkerHere(plan, w, t);
    FinishGoes(plan, w.db, w.proc.epoch, t, a);
    LeadsNowhere(plan, w);
    MigrationAttempt.RetryMoves(plan, [w], [], w, t, a, IoError);
    w' := DropWorker(w.(db := Finish(w.db, t, w.proc.epoch, a, Some(IoError)).value), t);
    WalkRun(plan, w0, w, WorkerRetry(t), w');
  }

  lemma FinishGoes(plan: Plan, db: Tables, epoch: nat, t: string, a: string)
    requires DbInv(plan, true, db) && epoch == db.epoch && Ownership(db, t, epoch, a).Ok? && HasAttempt(db, t, epoch, a)
    ensures Finish(db, t, epoch, a, Some(IoError)).Ok?
    ensures var db' := Finish(db, t, epoch, a, Some(IoError)).value;
            && db'.tasks.Keys == db.tasks.Keys && t in db.tasks && db'.tasks[t].state == Retryable && db'.receipts == db.receipts
            && db'.tasks[t].attemptCount == db.tasks[t].attemptCount
            && forall u :: u in db.tasks && u != t ==> db'.tasks[u] == db.tasks[u]
  {
    hide DbShape;
    assert TI.TaskOk(db, t) && TI.AttemptOk(db, a);
  }

  lemma ClaimedProgress(plan: Plan, w: World, n: nat, keep: set<string>, t: string)
    requires InRound(plan, w, n, keep) && t in plan.assets && t in ReadySet(w.db) && w.db.tasks[t].attemptCount + 1 == n && t in keep
    ensures InRound(plan, ClaimWorld(plan, w, t, n), n, keep)
    ensures ReadySet(ClaimWorld(plan, w, t, n).db) == ReadySet(w.db) - {t}
  {
    var w' := ClaimWorld(plan, w, t, n);
    forall u | u in plan.assets ensures Progress(plan, w', u, n, keep) {
      assert Progress(plan, w, u, n, keep);
    }
  }

  lemma GivenBackProgress(plan: Plan, w: World, w': World, n: nat, keep: set<string>, t: string)
    requires InRound(plan, w, n, keep) && t in plan.assets && t in ReadySet(w.db) && t !in keep
    requires w'.proc.Migrating? && w'.proc.epoch == w.proc.epoch && w'.proc.workers == w.proc.workers[t := Claimed(plan, t, n)] - {t}
    requires w'.db.tasks.Keys == w.db.tasks.Keys && w'.db.tasks[t].state == Retryable && w'.db.tasks[t].attemptCount == n
    requires forall u :: u in w.db.tasks && u != t ==> w'.db.tasks[u] == w.db.tasks[u]
    ensures InRound(plan, w', n, keep) && ReadySet(w'.db) == ReadySet(w.db) - {t}
  {
    forall u | u in plan.assets ensures Progress(plan, w', u, n, keep) {
      assert Progress(plan, w, u, n, keep);
    }
  }

  /** The rest of a round: every task is claimed in the order of the ids, and given back unless it is to be kept. */
  lemma {:induction false} Drain(plan: Plan, w0: World, w: World, n: nat, keep: set<string>) returns (w': World)
    requires Viable(plan) && At(plan, w0, w) && InRound(plan, w, n, keep) && w.db.tasks.Keys == plan.assets.Keys
    ensures At(plan, w0, w') && InRound(plan, w', n, keep) && SameGround(w, w') && ReadySet(w'.db) == {}
    ensures w'.proc.epoch == w.proc.epoch
    decreases ReadySet(w.db)
  {
    hide Inv, Next, Leads, Materialize, PlanShape, InRound, At;
    if ReadySet(w.db) == {} {
      w' := w;
    } else {
      var t := LeastExists(ReadySet(w.db));
      RoundShape(plan, w, n, keep);
      var w1 := ClaimOne(plan, w0, w, n, keep, t);
      if t in keep {
        ClaimedProgress(plan, w, n, keep, t);
        w' := Drain(plan, w0, w1, n, keep);
      } else {
        var w2 := GiveBack(plan, w0, w1, t);
        GivenBackProgress(plan, w, w2, n, keep, t);
        w' := Drain(plan, w0, w2, n, keep);
      }
    }
  }

  lemma RoundShape(plan: Plan, w: World, n: nat, keep: set<string>)
    requires InRound(plan, w, n, keep)
    ensures w.proc.Migrating?
  {
  }

  // ---------------------------------------------------------------- from one round to the next

  /** Every RETRYABLE task is made READY again. */
  lemma {:induction false} ReadyAll(plan: Plan, w0: World, w: World, n: nat, left: set<string>) returns (w': World)
    requires Viable(plan) && At(plan, w0, w) && w.proc.MigrateReadying?
    requires w.db.tasks.Keys == plan.assets.Keys && left <= plan.assets.Keys
    requires forall t :: t in plan.assets ==>
               w.db.tasks[t].attemptCount == n && w.db.tasks[t].state == if t in left then Retryable else Ready
    ensures At(plan, w0, w') && w'.proc.MigrateReadying? && SameGround(w, w') && w'.db.epoch == w.db.epoch
    ensures w'.db.tasks.Keys == plan.assets.Keys
    ensures forall t :: t in plan.assets ==> w'.db.tasks[t].attemptCount == n && w'.db.tasks[t].state == Ready
    decreases left
  {
    hide Leads, Materialize, At, Inv, Next, PlanShape, DependenciesMet;
    if left == {} {
      w' := w;
    } else {
      var t :| t in left;
      ReadyGoes(plan, w0, w, t);
      var w1 := w.(db := SetReady(w.db, t).value);
      Walk(plan, w0, w, MigrateReady(t), w1);
      w' := ReadyAll(plan, w0, w1, n, left - {t});
    }
  }

  lemma ReadyGoes(plan: Plan, w0: World, w: World, t: string)
    requires Viable(plan) && At(plan, w0, w) && w.proc.MigrateReadying? && t in plan.assets && t in w.db.tasks
    requires w.db.tasks[t].state == Retryable
    ensures SetReady(w.db, t).Ok? && Next(plan, w, MigrateReady(t)) == Some(w.(db := SetReady(w.db, t).value))
  {
    hide Leads, Materialize, TaskShape, AttemptShape, ReceiptShape, Numbered, FilesInv;
    assert TI.TaskOk(w.db, t);
  }

  /** A migrate that finds nothing RUNNING reaches its first claim. */
  lemma Begin(plan: Plan, w0: World, w: World, n: nat, keep: set<string>) returns (w': World)
    requires Viable(plan) && At(plan, w0, w) && w.proc.Idle? && Rested(plan, w, n) && n + 1 <= UINT32_MAX && w.db.epoch < INT64_MAX
    ensures At(plan, w0, w') && InRound(plan, w', n + 1, keep) && SameGround(w, w') && w'.proc.epoch == w.db.epoch + 1
    ensures w'.db.tasks.Keys == plan.assets.Keys
  {
    hide Leads, Materialize, Inv;
    RowsOfPlan(plan, w);
    var w1 := w.(proc := MigrateStarting);
    Walk(plan, w0, w, MigrateLock, w1);
    Walk(plan, w0, w1, MigrateMaterialize, w1);
    var w2 := w.(proc := MigrateReadying);
    Walk(plan, w0, w1, MigrateCheck, w2);
    var w3 := ReadyAll(plan, w0, w2, n, plan.assets.Keys);
    w' := TakeEpoch(plan, w0, w3, n, keep);
  }

  lemma RowsOfPlan(plan: Plan, w: World)
    requires Inv(plan, w) && w.materialized
    ensures w.db.tasks.Keys == plan.assets.Keys
  {
  }

  lemma TakeEpoch(plan: Plan, w0: World, w: World, n: nat, keep: set<string>) returns (w': World)
    requires Viable(plan) && At(plan, w0, w) && w.proc.MigrateReadying? && n + 1 <= UINT32_MAX && w.db.epoch < INT64_MAX
    requires w.db.tasks.Keys == plan.assets.Keys
    requires forall t :: t in plan.assets ==> w.db.tasks[t].attemptCount == n && w.db.tasks[t].state == Ready
    ensures At(plan, w0, w') && InRound(plan, w', n + 1, keep) && SameGround(w, w') && w'.proc.epoch == w.db.epoch + 1
    ensures w'.db.tasks.Keys == plan.assets.Keys
  {
    hide Leads, Materialize, Inv;
    w' := w.(db := w.db.(epoch := w.db.epoch + 1), proc := Migrating(w.db.epoch + 1, map[]));
    Walk(plan, w0, w, MigrateEpoch, w');
    forall t | t in plan.assets ensures Progress(plan, w', t, n + 1, keep) {
    }
  }

  /** An empty target directory, and sources as the plan knows them; equal sizes mean equal bytes. */
  function EmptyWorld(plan: Plan): World {
    World(false, EMPTY, false, map[],
          map t | t in plan.assets :: Present(plan.assets[t].identity, CopyModel.Zeros(plan.assets[t].identity.size)), Idle)
  }

  lemma EmptyWorldFits(plan: Plan)
    ensures Initial(EmptyWorld(plan)) && SourcesFit(plan, EmptyWorld(plan).sources)
  {
  }

  /** The first migrate of a plan reaches its first claim. */
  lemma FirstRound(plan: Plan, keep: set<string>) returns (w': World)
    requires Viable(plan)
    ensures At(plan, EmptyWorld(plan), w') && InRound(plan, w', 1, keep) && SameGround(EmptyWorld(plan), w') && w'.proc.epoch == 1
    ensures w'.db.tasks.Keys == plan.assets.Keys
  {
    hide Leads, Materialize, Inv, FreshRows;
    var w0 := EmptyWorld(plan);
    EmptyWorldFits(plan);
    InitialInv(plan, w0);
    LeadsNowhere(plan, w0);
    var w1 := w0.(proc := MigrateStarting);
    Walk(plan, w0, w0, MigrateLock, w1);
    var w2 := w1.(materialized := true, db := Materialize(plan, |plan.order|).value);
    Walk(plan, w0, w1, MigrateMaterialize, w2);
    RowsOfPlan(plan, w2);
    FreshlyReady(plan);
    var w3 := w2.(proc := MigrateReadying);
    Walk(plan, w0, w2, MigrateCheck, w3);
    w' := TakeEpoch(plan, w0, w3, 0, keep);
  }

  lemma FreshlyReady(plan: Plan)
    requires Viable(plan)
    ensures var db := Materialize(plan, |plan.order|).value;
            db.epoch == 0 && db.receipts == map[] && forall t :: t in db.tasks ==> db.tasks[t].state == Ready && db.tasks[t].attemptCount == 0
  {
    hide Materialize;
    MaterializeRows(plan, |plan.order|);
    var db := Materialize(plan, |plan.order|).value;
    forall t | t in db.tasks ensures db.tasks[t].attemptCount == 0 {
      assert TI.TaskOk(db, t);
      assert TI.AttemptsOf(db, t) == {};
    }
  }

  /** The n-th round of migrate can be reached for every n that fits the attempt counter: in all rounds before it every
      task is given back. */
  lemma {:induction false} NthRound(plan: Plan, n: nat, keep: set<string>) returns (w': World)
    requires Viable(plan) && 1 <= n <= UINT32_MAX
    ensures At(plan, EmptyWorld(plan), w') && InRound(plan, w', n, keep) && SameGround(EmptyWorld(plan), w') && w'.proc.epoch == n
    ensures w'.db.tasks.Keys == plan.assets.Keys
    decreases n
  {
    hide Leads, Materialize, Inv, Next, InRound;
    var w0 := EmptyWorld(plan);
    if n == 1 {
      w' := FirstRound(plan, keep);
    } else {
      var w1 := NthRound(plan, n - 1, {});
      var w2 := Drain(plan, w0, w1, n - 1, {});
      var w3 := EndRound(plan, w0, w2, n - 1);
      w' := Begin(plan, w0, w3, n - 1, keep);
    }
  }

  /** The process ends after a round in which everything was given back. */
  lemma EndRound(plan: Plan, w0: World, w: World, n: nat) returns (w': World)
    requires Viable(plan) && At(plan, w0, w) && InRound(plan, w, n, {}) && ReadySet(w.db) == {}
    ensures At(plan, w0, w') && w'.proc.Idle? && Rested(plan, w', n) && SameGround(w, w') && w'.db.epoch == w.proc.epoch
  {
    hide Leads, Materialize;
    w' := w.(proc := Idle);
    Walk(plan, w0, w, Stop, w');
    forall t | t in plan.assets ensures t in w.db.tasks && w.db.tasks[t].state == Retryable && w.db.tasks[t].attemptCount == n {
      assert Progress(plan, w, t, n, {});
      assert t !in ReadySet(w.db);
    }
  }
}
