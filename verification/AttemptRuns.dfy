/** Runs of one attempt, built step by step from the claim to the durable receipt. */
module AttemptRuns {
  import opened Common
  import opened Tasks
  import opened TaskTables
  import TI = TableInvariants
  import opened TempNames
  import opened Protocol
  import opened PlanRows
  import opened ProtocolRows
  import opened ProtocolSafety
  import opened RunKit
  import opened MigrateRounds
  import MigrationAttempt

  /** The worker of `t` stands at `pc`. */
  ghost predicate Standing(plan: Plan, w0: World, w: World, t: string, a: string, pc: WorkerPc)
    requires PlanShape(plan)
  {
    At(plan, w0, w) && w.proc.Migrating? && t in w.proc.workers && t in plan.assets && w.proc.workers[t] == Worker(a, false, pc)
  }

  /** Only the worker of `t`, attempt rows and files have changed. */
  predicate Beside(w: World, w': World, t: string) {
    && w.proc.Migrating? && w'.proc.Migrating? && w'.proc.epoch == w.proc.epoch
    && w'.proc.workers - {t} == w.proc.workers - {t} && w'.db.tasks == w.db.tasks && w'.sources == w.sources
  }

  lemma Opens(plan: Plan, w0: World, w: World, t: string, a: string) returns (w': World)
    requires Viable(plan) && Standing(plan, w0, w, t, a, Queued)
    requires t in w.sources && w.sources[t].Present? && w.sources[t].identity == plan.assets[t].identity
    ensures Standing(plan, w0, w', t, a, Opened) && Beside(w, w', t) && w'.rootExists
    ensures w'.files == w.files && w'.db.receipts == w.db.receipts
  {
    hide Inv, Next, Leads, Materialize, PlanShape, IsRun;
    LeadsNowhere(plan, w);
    MigrationAttempt.OpenMoves(plan, [w], [], w, t, a);
    w' := w.(rootExists := true, proc := w.proc.(workers := w.proc.workers[t := Worker(a, false, Opened)]));
    WalkRun(plan, w0, w, WorkerOpen(t), w');
  }

  lemma MarksIntent(plan: Plan, w0: World, w: World, t: string, a: string) returns (w': World)
    requires Viable(plan) && Standing(plan, w0, w, t, a, Opened) && SingleComponent(plan.assets[t].spec.target)
    ensures Standing(plan, w0, w', t, a, IntentMarked) && Beside(w, w', t)
    ensures w'.files == w.files && w'.db.receipts == w.db.receipts && w'.rootExists == w.rootExists
  {
    hide Inv, Next, Leads, Materialize, PlanShape, IsRun, DbInv, FilesInv, Advance, WorkerOk;
    WorkerHere(plan, w, t);
    MigrationAttempt.AdvanceSucceeds(plan, w.db, w.proc.epoch, t, w.proc.workers[t], CommitIntent);
    AdvanceTouches(w.db, t, w.proc.epoch, a, CommitIntent);
    LeadsNowhere(plan, w);
    MigrationAttempt.IntentMoves(plan, [w], [], w, t, a);
    w' := SetPc(w.(db := Advance(w.db, t, w.proc.epoch, a, CommitIntent).value), t, IntentMarked);
    WalkRun(plan, w0, w, WorkerIntent(t), w');
  }

  lemma Creates(plan: Plan, w0: World, w: World, t: string, a: string) returns (w': World)
    requires Viable(plan) && Standing(plan, w0, w, t, a, IntentMarked) && TempName(plan, t, a) !in w.files
    ensures Standing(plan, w0, w', t, a, Copying) && Beside(w, w', t)
    ensures w'.files == w.files[TempName(plan, t, a) := []] && w'.db.receipts == w.db.receipts && w'.rootExists == w.rootExists
  {
    hide Inv, Next, Leads, Materialize, PlanShape, IsRun;
    LeadsNowhere(plan, w);
    MigrationAttempt.CreateMoves(plan, [w], [], w, t, a);
    w' := SetPc(w.(files := w.files[TempName(plan, t, a) := []]), t, Copying);
    WalkRun(plan, w0, w, WorkerCreate(t), w');
  }

  lemma Writes(plan: Plan, w0: World, w: World, t: string, a: string, content: Bytes) returns (w': World)
    requires Viable(plan) && Standing(plan, w0, w, t, a, Copying)
    ensures Standing(plan, w0, w', t, a, Copying) && Beside(w, w', t)
    ensures w'.files == w.files[TempName(plan, t, a) := content] && w'.db.receipts == w.db.receipts && w'.rootExists == w.rootExists
  {
    hide Inv, Next, Leads, Materialize, PlanShape, IsRun;
    LeadsNowhere(plan, w);
    MigrationAttempt.WriteMoves(plan, [w], [], w, t, a, content);
    w' := w.(files := w.files[TempName(plan, t, a) := content]);
    WalkRun(plan, w0, w, WorkerWrite(t, content), w');
  }

  lemma Copies(plan: Plan, w0: World, w: World, t: string, a: string) returns (w': World)
    requires Viable(plan) && Standing(plan, w0, w, t, a, Copying) && t in w.sources && w.sources[t].Present?
    requires TempName(plan, t, a) in w.files && w.files[TempName(plan, t, a)] == w.sources[t].content
    ensures var content := w.sources[t].content; Standing(plan, w0, w', t, a, Copied(|content|, plan.hash(content)))
    ensures Beside(w, w', t) && w'.files == w.files && w'.db.receipts == w.db.receipts && w'.rootExists == w.rootExists
  {
    hide Inv, Next, Leads, Materialize, PlanShape, IsRun;
    LeadsNowhere(plan, w);
    MigrationAttempt.CopiedMoves(plan, [w], [], w, t, a);
    var content := w.sources[t].content;
    w' := SetPc(w, t, Copied(|content|, plan.hash(content)));
    WalkRun(plan, w0, w, WorkerCopied(t, |content|, plan.hash(content)), w');
  }

  lemma MarksWritten(plan: Plan, w0: World, w: World, t: string, a: string, size: nat, digest: Digest) returns (w': World)
    requires Viable(plan) && Standing(plan, w0, w, t, a, Copied(size, digest))
    ensures Standing(plan, w0, w', t, a, TempMarked(size, digest)) && Beside(w, w', t)
    ensures w'.files == w.files && w'.db.receipts == w.db.receipts && w'.rootExists == w.rootExists
  {
    hide Inv, Next, Leads, Materialize, PlanShape, IsRun, DbInv, FilesInv, Advance, WorkerOk;
    WorkerHere(plan, w, t);
    MigrationAttempt.AdvanceSucceeds(plan, w.db, w.proc.epoch, t, w.proc.workers[t], TempWritten);
    AdvanceTouches(w.db, t, w.proc.epoch, a, TempWritten);
    LeadsNowhere(plan, w);
    MigrationAttempt.TempWrittenMoves(plan, [w], [], w, t, a, size, digest);
    w' := SetPc(w.(db := Advance(w.db, t, w.proc.epoch, a, TempWritten).value), t, TempMarked(size, digest));
    WalkRun(plan, w0, w, WorkerTempWritten(t), w');
  }

  lemma Verifies(plan: Plan, w0: World, w: World, t: string, a: string, size: nat, digest: Digest) returns (w': World)
    requires Viable(plan) && Standing(plan, w0, w, t, a, TempMarked(size, digest)) && TempName(plan, t, a) in w.files
    requires |w.files[TempName(plan, t, a)]| == size && plan.hash(w.files[TempName(plan, t, a)]) == digest
    ensures Standing(plan, w0, w', t, a, Checked(size, digest)) && Beside(w, w', t)
    ensures w'.files == w.files && w'.db.receipts == w.db.receipts && w'.rootExists == w.rootExists
  {
    hide Inv, Next, Leads, Materialize, PlanShape, IsRun;
    LeadsNowhere(plan, w);
    MigrationAttempt.VerifyMoves(plan, [w], [], w, t, a, size, digest);
    w' := SetPc(w, t, Checked(size, digest));
    WalkRun(plan, w0, w, WorkerVerify(t), w');
  }

  lemma Certifies(plan: Plan, w0: World, w: World, t: string, a: string, size: nat, digest: Digest) returns (w': World)
    requires Viable(plan) && Standing(plan, w0, w, t, a, Checked(size, digest)) && size <= INT64_MAX
    ensures At(plan, w0, w') && Beside(w, w', t) && t !in w'.proc.workers
    ensures w'.files == w.files && w'.rootExists == w.rootExists
    ensures w'.db.receipts == w.db.receipts[(t, a) := ReceiptFor(plan, t, a, w.proc.epoch, size, digest)]
    ensures t in w'.db.tasks && w'.db.tasks[t].state == Running && w'.db.tasks[t].active == Some(a)
            && w'.db.tasks[t].owner == Some(w.proc.epoch)
  {
    hide Inv, Next, Leads, Materialize, PlanShape, IsRun, DbInv, FilesInv, PersistReceipt;
    WorkerHere(plan, w, t);
    var r := ReceiptFor(plan, t, a, w.proc.epoch, size, digest);
    MigrationAttempt.ReceiptSucceeds(plan, w.db, w.proc.epoch, t, w.proc.workers[t], size, digest);
    NotYetCertified(plan, w.db, t, a);
    ReceiptTouches(w.db, r);
    LeadsNowhere(plan, w);
    MigrationAttempt.ReceiptMoves(plan, [w], [], w, t, a, size, digest);
    w' := DropWorker(w.(db := PersistReceipt(w.db, r).value), t);
    WalkRun(plan, w0, w, WorkerReceipt(t), w');
  }

  lemma NotYetCertified(plan: Plan, db: Tables, t: string, a: string)
    requires DbInv(plan, true, db) && a in db.attempts && db.attempts[a].state == TempWritten
    ensures (t, a) !in db.receipts
  {
    hide TI.Inv;
    NoReceiptYet(plan, db, t, a);
  }

  /** The source of `t` is there, as the plan knows it. */
  predicate SourceAt(plan: Plan, w: World, t: string, content: Bytes) {
    t in plan.assets && t in w.sources && w.sources[t] == Present(plan.assets[t].identity, content)
    && |content| == plan.assets[t].identity.size <= INT64_MAX
  }

  /** A claimed task whose temporary name is free gets its receipt. */
  lemma ToReceipt(plan: Plan, w0: World, w: World, t: string, a: string, content: Bytes) returns (w': World)
    requires Viable(plan) && Standing(plan, w0, w, t, a, Queued) && SingleComponent(plan.assets[t].spec.target)
    requires SourceAt(plan, w, t, content) && TempName(plan, t, a) !in w.files
    ensures At(plan, w0, w') && Beside(w, w', t) && t !in w'.proc.workers && w'.rootExists
    ensures w'.files == w.files[TempName(plan, t, a) := content]
    ensures w'.db.receipts == w.db.receipts[(t, a) := ReceiptFor(plan, t, a, w.proc.epoch, |content|, plan.hash(content))]
    ensures t in w'.db.tasks && w'.db.tasks[t].state == Running && w'.db.tasks[t].active == Some(a)
            && w'.db.tasks[t].owner == Some(w.proc.epoch)
  {
    hide At, Materialize, PlanShape;
    var w1 := Opens(plan, w0, w, t, a);
    var w2 := MarksIntent(plan, w0, w1, t, a);
    var w3 := Creates(plan, w0, w2, t, a);
    var w4 := Writes(plan, w0, w3, t, a, content);
    var w5 := Copies(plan, w0, w4, t, a);
    var w6 := MarksWritten(plan, w0, w5, t, a, |content|, plan.hash(content));
    var w7 := Verifies(plan, w0, w6, t, a, |content|, plan.hash(content));
    w' := Certifies(plan, w0, w7, t, a, |content|, plan.hash(content));
  }
}
