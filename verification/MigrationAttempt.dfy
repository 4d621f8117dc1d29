/** One migrate attempt in the form of src/pipeline/migration_service.cpp (ExecuteClaimedTask) and
    src/app/migration_attempt_preparer.cpp (Prepare). Each call is a step of the protocol machine. */
module MigrationAttempt {
  import opened Common
  import opened Tasks
  import opened TaskTables
  import TI = TableInvariants
  import opened CopyModel
  import opened IoUringCopy
  import opened Reconciler
  import opened Protocol
  import opened PlanRows
  import opened ProtocolRows
  import opened ProtocolSafety
  import opened QuietInvariant
  import opened Sites
  import opened RowEffects

  /** The worker of task t stands at `pc`. */
  ghost predicate Stands(site: Site, t: string, attempt: string, pc: WorkerPc)
    reads site
  {
    && site.proc.Migrating? && t in site.proc.workers && t in site.plan.assets
    && site.proc.workers[t] == Worker(attempt, false, pc)
  }

  /** The worker of t is gone; the others are as before. */
  twostate predicate Left(site: Site, t: string)
    reads site
  {
    old(site.proc).Migrating? && site.proc == old(site.proc).(workers := old(site.proc).workers - {t})
  }

  twostate predicate OthersStay(site: Site, t: string)
    reads site
  {
    && old(site.proc).Migrating? && site.proc.Migrating? && site.proc.epoch == old(site.proc).epoch
    && site.proc.workers - {t} == old(site.proc).workers - {t}
  }

  /** The names hold what they held; only the temporary name may hold something new. */
  predicate OnlyTemp(files0: map<string, Bytes>, files: map<string, Bytes>, temp: string) {
    files == files0 || (temp !in files0 && temp in files && files == files0[temp := files[temp]])
  }

  /** No row but that of attempt `a` has changed. */
  predicate OnlyAttempt(db0: Tables, db: Tables, a: string) {
    && db.epoch == db0.epoch && db.tasks == db0.tasks && db.deps == db0.deps && db.receipts == db0.receipts
    && (db.attempts == db0.attempts || (a in db.attempts && db.attempts == db0.attempts[a := db.attempts[a]]))
  }

  // ---------------------------------------------------------------- the machine's worker steps, spelled out

  lemma OpenMoves(plan: Plan, trace: seq<World>, labels: seq<Label>, w: World, t: string, a: string)
    requires PlanShape(plan) && IsRun(plan, trace, labels) && trace[|trace| - 1] == w
    requires w.proc.Migrating? && t in w.proc.workers && t in plan.assets && w.proc.workers[t] == Worker(a, false, Queued)
    requires t in w.sources && w.sources[t].Present? && w.sources[t].identity == plan.assets[t].identity
    ensures var next := w.(rootExists := true, proc := w.proc.(workers := w.proc.workers[t := Worker(a, false, Opened)]));
            IsRun(plan, trace + [next], labels + [WorkerOpen(t)])
  {
    var next := w.(rootExists := true, proc := w.proc.(workers := w.proc.workers[t := Worker(a, false, Opened)]));
    RunGrows(plan, trace, labels, WorkerOpen(t), next);
  }

  lemma IntentMoves(plan: Plan, trace: seq<World>, labels: seq<Label>, w: World, t: string, a: string)
    requires PlanShape(plan) && IsRun(plan, trace, labels) && trace[|trace| - 1] == w
    requires w.proc.Migrating? && t in w.proc.workers && t in plan.assets && w.proc.workers[t] == Worker(a, false, Opened)
    requires SingleComponent(plan.assets[t].spec.target) && Advance(w.db, t, w.proc.epoch, a, CommitIntent).Ok?
    ensures var next := SetPc(w.(db := Advance(w.db, t, w.proc.epoch, a, CommitIntent).value), t, IntentMarked);
            IsRun(plan, trace + [next], labels + [WorkerIntent(t)])
  {
    var next := SetPc(w.(db := Advance(w.db, t, w.proc.epoch, a, CommitIntent).value), t, IntentMarked);
    RunGrows(plan, trace, labels, WorkerIntent(t), next);
  }

  lemma CreateMoves(plan: Plan, trace: seq<World>, labels: seq<Label>, w: World, t: string, a: string)
    requires PlanShape(plan) && IsRun(plan, trace, labels) && trace[|trace| - 1] == w
    requires w.proc.Migrating? && t in w.proc.workers && t in plan.assets && w.proc.workers[t] == Worker(a, false, IntentMarked)
    requires TempName(plan, t, a) !in w.files
    ensures var next := SetPc(w.(files := w.files[TempName(plan, t, a) := []]), t, Copying);
            IsRun(plan, trace + [next], labels + [WorkerCreate(t)])
  {
    var next := SetPc(w.(files := w.files[TempName(plan, t, a) := []]), t, Copying);
    RunGrows(plan, trace, labels, WorkerCreate(t), next);
  }

  lemma WriteMoves(plan: Plan, trace: seq<World>, labels: seq<Label>, w: World, t: string, a: string, content: Bytes)
    requires PlanShape(plan) && IsRun(plan, trace, labels) && trace[|trace| - 1] == w
    requires w.proc.Migrating? && t in w.proc.workers && t in plan.assets && w.proc.workers[t] == Worker(a, false, Copying)
    ensures var next := w.(files := w.files[TempName(plan, t, a) := content]);
            IsRun(plan, trace + [next], labels + [WorkerWrite(t, content)])
  {
    var next := w.(files := w.files[TempName(plan, t, a) := content]);
    RunGrows(plan, trace, labels, WorkerWrite(t, content), next);
  }

  lemma CopiedMoves(plan: Plan, trace: seq<World>, labels: seq<Label>, w: World, t: string, a: string)
    requires PlanShape(plan) && IsRun(plan, trace, labels) && trace[|trace| - 1] == w
    requires w.proc.Migrating? && t in w.proc.workers && t in plan.assets && w.proc.workers[t] == Worker(a, false, Copying)
    requires t in w.sources && w.sources[t].Present? && TempName(plan, t, a) in w.files
    requires w.files[TempName(plan, t, a)] == w.sources[t].content
    ensures var content := w.sources[t].content;
            var next := SetPc(w, t, Copied(|content|, plan.hash(content)));
            IsRun(plan, trace + [next], labels + [WorkerCopied(t, |content|, plan.hash(content))])
  {
    var content := w.sources[t].content;
    var next := SetPc(w, t, Copied(|content|, plan.hash(content)));
    RunGrows(plan, trace, labels, WorkerCopied(t, |content|, plan.hash(content)), next);
  }

  lemma TempWrittenMoves(plan: Plan, trace: seq<World>, labels: seq<Label>, w: World, t: string, a: string, size: nat, digest: Digest)
    requires PlanShape(plan) && IsRun(plan, trace, labels) && trace[|trace| - 1] == w
    requires w.proc.Migrating? && t in w.proc.workers && t in plan.assets
    requires w.proc.workers[t] == Worker(a, false, Copied(size, digest)) && Advance(w.db, t, w.proc.epoch, a, TempWritten).Ok?
    ensures var next := SetPc(w.(db := Advance(w.db, t, w.proc.epoch, a, TempWritten).value), t, TempMarked(size, digest));
            IsRun(plan, trace + [next], labels + [WorkerTempWritten(t)])
  {
    var next := SetPc(w.(db := Advance(w.db, t, w.proc.epoch, a, TempWritten).value), t, TempMarked(size, digest));
    RunGrows(plan, trace, labels, WorkerTempWritten(t), next);
  }

  lemma VerifyMoves(plan: Plan, trace: seq<World>, labels: seq<Label>, w: World, t: string, a: string, size: nat, digest: Digest)
    requires PlanShape(plan) && IsRun(plan, trace, labels) && trace[|trace| - 1] == w
    requires w.proc.Migrating? && t in w.proc.workers && t in plan.assets
    requires w.proc.workers[t] == Worker(a, false, TempMarked(size, digest)) && TempName(plan, t, a) in w.files
    requires |w.files[TempName(plan, t, a)]| == size && plan.hash(w.files[TempName(plan, t, a)]) == digest
    ensures var next := SetPc(w, t, Checked(size, digest));
            IsRun(plan, trace + [next], labels + [WorkerVerify(t)])
  {
    var next := SetPc(w, t, Checked(size, digest));
    RunGrows(plan, trace, labels, WorkerVerify(t), next);
  }

  lemma ReceiptMoves(plan: Plan, trace: seq<World>, labels: seq<Label>, w: World, t: string, a: string, size: nat, digest: Digest)
    requires PlanShape(plan) && IsRun(plan, trace, labels) && trace[|trace| - 1] == w
    requires w.proc.Migrating? && t in w.proc.workers && t in plan.assets
    requires w.proc.workers[t] == Worker(a, false, Checked(size, digest))
    requires PersistReceipt(w.db, ReceiptFor(plan, t, a, w.proc.epoch, size, digest)).Ok?
    ensures var next := DropWorker(w.(db := PersistReceipt(w.db, ReceiptFor(plan, t, a, w.proc.epoch, size, digest)).value), t);
            IsRun(plan, trace + [next], labels + [WorkerReceipt(t)])
  {
    var next := DropWorker(w.(db := PersistReceipt(w.db, ReceiptFor(plan, t, a, w.proc.epoch, size, digest)).value), t);
    RunGrows(plan, trace, labels, WorkerReceipt(t), next);
  }

  lemma FailMoves(plan: Plan, trace: seq<World>, labels: seq<Label>, w: World, t: string, code: Code)
    requires PlanShape(plan) && IsRun(plan, trace, labels) && trace[|trace| - 1] == w
    requires w.proc.Migrating? && t in w.proc.workers && t in plan.assets && !w.proc.workers[t].pc.Failing?
    ensures var next := SetPc(w, t, Failing(code));
            IsRun(plan, trace + [next], labels + [WorkerFail(t, code)])
  {
    var next := SetPc(w, t, Failing(code));
    RunGrows(plan, trace, labels, WorkerFail(t, code), next);
  }

  lemma RetryMoves(plan: Plan, trace: seq<World>, labels: seq<Label>, w: World, t: string, a: string, code: Code)
    requires PlanShape(plan) && IsRun(plan, trace, labels) && trace[|trace| - 1] == w
    requires w.proc.Migrating? && t in w.proc.workers && t in plan.assets
    requires w.proc.workers[t].attempt == a && w.proc.workers[t].pc == Failing(code)
    requires Finish(w.db, t, w.proc.epoch, a, Some(code)).Ok?
    ensures var next := DropWorker(w.(db := Finish(w.db, t, w.proc.epoch, a, Some(code)).value), t);
            IsRun(plan, trace + [next], labels + [WorkerRetry(t)])
  {
    var next := DropWorker(w.(db := Finish(w.db, t, w.proc.epoch, a, Some(code)).value), t);
    RunGrows(plan, trace, labels, WorkerRetry(t), next);
  }

  lemma GiveUpMoves(plan: Plan, trace: seq<World>, labels: seq<Label>, w: World, t: string)
    requires PlanShape(plan) && IsRun(plan, trace, labels) && trace[|trace| - 1] == w
    requires w.proc.Migrating? && t in w.proc.workers && t in plan.assets && w.proc.workers[t].pc.Failing?
    ensures var next := DropWorker(w, t);
            IsRun(plan, trace + [next], labels + [WorkerGiveUp(t)])
  {
    var next := DropWorker(w, t);
    RunGrows(plan, trace, labels, WorkerGiveUp(t), next);
  }

  // ---------------------------------------------------------------- what an error-free call finds

  lemma MigrateKeepsSources(plan: Plan, w: World, l: Label)
    requires PlanShape(plan) && MigrateNext(plan, w, l).Some?
    ensures MigrateNext(plan, w, l).value.sources == w.sources
  {
  }

  lemma WorkerKeepsSources(plan: Plan, w: World, t: string, l: Label)
    requires WorkerNext(plan, w, t, l).Some?
    ensures WorkerNext(plan, w, t, l).value.sources == w.sources
  {
    hide Advance, PersistReceipt, Finish, TempName;
  }

  lemma RecoverKeepsSources(plan: Plan, w: World, l: Label)
    requires w.proc.Resuming? && w.proc.step != Pick && w.proc.step.c.task in plan.assets && w.proc.step.c.task in w.db.tasks
    requires RecoverOneNext(plan, w, l).Some?
    ensures RecoverOneNext(plan, w, l).value.sources == w.sources
  {
    hide Decide, Shows;
  }

  lemma StepKeepsSources(plan: Plan, w: World, l: Label, w': World)
    requires PlanShape(plan) && Next(plan, w, l) == Some(w') && !l.SourceChanges?
    ensures w'.sources == w.sources
  {
    hide MigrateNext, WorkerNext, RecoverOneNext, Decide;
    if IsMigrateLabel(l) {
      MigrateKeepsSources(plan, w, l);
    } else if IsWorkerLabel(l) {
      WorkerKeepsSources(plan, w, l.task, l);
    } else if !l.Stop? && !l.ResumeStart? && !l.ResumePick? && !l.ResumeSkip? {
      RecoverKeepsSources(plan, w, l);
    }
  }

  predicate SourcesOk(sources: map<string, Source>) {
    forall t :: t in sources ==> SourceOk(sources[t])
  }

  /** In every run a source that is present is as long as its identity says. */
  lemma {:induction false} RunSourcesOk(plan: Plan, trace: seq<World>, labels: seq<Label>, i: nat)
    requires PlanShape(plan) && IsRun(plan, trace, labels) && Initial(trace[0]) && i < |trace|
    ensures SourcesOk(trace[i].sources)
  {
    if i > 0 {
      RunSourcesOk(plan, trace, labels, i - 1);
      assert Next(plan, trace[i - 1], labels[i - 1]) == Some(trace[i]);
      if !labels[i - 1].SourceChanges? {
        StepKeepsSources(plan, trace[i - 1], labels[i - 1], trace[i]);
      }
    }
  }

  lemma AdvanceSucceeds(plan: Plan, db: Tables, epoch: nat, t: string, worker: Worker, next: AttemptState)
    requires DbInv(plan, true, db) && epoch == db.epoch && WorkerOk(plan, db, epoch, t, worker)
    requires (worker.pc.Opened? && next == CommitIntent) || (worker.pc.Copied? && next == TempWritten)
    ensures Advance(db, t, epoch, worker.attempt, next).Ok?
  {
    assert TI.TaskOk(db, t);
    assert TI.AttemptOk(db, worker.attempt);
  }

  lemma ReceiptSucceeds(plan: Plan, db: Tables, epoch: nat, t: string, worker: Worker, size: nat, digest: Digest)
    requires PlanShape(plan) && DbInv(plan, true, db) && epoch == db.epoch && WorkerOk(plan, db, epoch, t, worker)
    requires worker.pc == Checked(size, digest) && size <= INT64_MAX
    ensures PersistReceipt(db, ReceiptFor(plan, t, worker.attempt, epoch, size, digest)).Ok?
  {
    assert TI.TaskOk(db, t);
    assert TI.AttemptOk(db, worker.attempt);
    NoReceiptYet(plan, db, t, worker.attempt);
  }

  // ---------------------------------------------------------------- the calls of one attempt

  const CHUNK := 0x100000
  const QUEUE_DEPTH := 4

  /** The worker fits the rows of its task. */
  lemma FitsHere(site: Site, t: string)
    requires site.Valid() && site.proc.Migrating? && t in site.proc.workers
    ensures site.proc.epoch == site.db.epoch && DbInv(site.plan, true, site.db)
    ensures WorkerOk(site.plan, site.db, site.proc.epoch, t, site.proc.workers[t])
  {
    site.Reached();
    assert WorkerOk(site.plan, site.db, site.proc.epoch, t, site.proc.workers[t]);
  }

  lemma SourceHere(site: Site, t: string)
    requires site.Valid() && t in site.sources
    ensures SourceOk(site.sources[t])
  {
    RunSourcesOk(site.plan, site.trace, site.labels, |site.trace| - 1);
  }

  /** The source guard and the target root. */
  method OpenBoth(site: Site, t: string, a: string) returns (status: Status, ghost faulted: bool)
    requires site.Valid() && Stands(site, t, a, Queued)
    modifies site`proc, site`trace, site`labels, site`rough, site`rootExists
    ensures site.Valid() && OthersStay(site, t)
    ensures Stands(site, t, a, if status.Ok? then Opened else Queued)
    ensures status.Ok? ==> t in site.sources && site.sources[t].Present? && site.sources[t].identity == site.plan.assets[t].identity
    ensures status.Err? && !faulted ==>
              if t in site.sources && site.sources[t].Present?
              then site.sources[t].identity != site.plan.assets[t].identity && status == Err(Internal)
              else status == Err(NotFound)
  {
    var broken: bool := *;
    faulted := broken;
    if broken {
      return Err(IoError), true;
    }
    if t !in site.sources || site.sources[t].Missing? {
      return Err(NotFound), false;
    }
    if site.sources[t].identity != site.plan.assets[t].identity {
      return Err(Internal), false;
    }
    OpenMoves(site.plan, site.trace, site.labels, site.Now(), t, a);
    site.rootExists := true;
    site.proc := site.proc.(workers := site.proc.workers[t := Worker(a, false, Opened)]);
    site.Record(WorkerOpen(t), false);
    status := Ok(());
  }

  method MarkCommitIntent(site: Site, t: string, a: string, epoch: nat) returns (ok: bool, ghost faulted: bool)
    requires site.Valid() && Stands(site, t, a, Opened) && epoch == site.proc.epoch && SingleComponent(site.plan.assets[t].spec.target)
    modifies site`proc, site`trace, site`labels, site`rough, site`db
    ensures site.Valid() && OthersStay(site, t) && ok == !faulted
    ensures Stands(site, t, a, if ok then IntentMarked else Opened)
    ensures if ok then Advanced(old(site.db), site.db, t, epoch, a, CommitIntent) else site.db == old(site.db)
  {
    var broken: bool := *;
    faulted := broken;
    ok := !broken;
    if !broken {
      FitsHere(site, t);
      AdvanceSucceeds(site.plan, site.db, site.proc.epoch, t, site.proc.workers[t], CommitIntent);
      WriteIntent(site, t, a, epoch);
    }
  }

  method WriteIntent(site: Site, t: string, a: string, epoch: nat)
    requires site.Valid() && Stands(site, t, a, Opened) && epoch == site.proc.epoch && SingleComponent(site.plan.assets[t].spec.target)
    requires Advance(site.db, t, epoch, a, CommitIntent).Ok?
    modifies site`proc, site`trace, site`labels, site`rough, site`db
    ensures site.Valid() && OthersStay(site, t) && Stands(site, t, a, IntentMarked)
    ensures Advanced(old(site.db), site.db, t, epoch, a, CommitIntent)
  {
    AdvanceExactly(site.db, t, epoch, a, CommitIntent);
    IntentMoves(site.plan, site.trace, site.labels, site.Now(), t, a);
    site.db := Advance(site.db, t, epoch, a, CommitIntent).value;
    site.proc := site.proc.(workers := site.proc.workers[t := Worker(a, false, IntentMarked)]);
    site.Record(WorkerIntent(t), false);
  }

  /** openat with O_CREAT and O_EXCL. */
  method CreateTemp(site: Site, t: string, a: string) returns (ok: bool, ghost faulted: bool)
    requires site.Valid() && Stands(site, t, a, IntentMarked)
    modifies site`proc, site`trace, site`labels, site`rough, site`files
    ensures site.Valid() && OthersStay(site, t)
    ensures Stands(site, t, a, if ok then Copying else IntentMarked)
    ensures !ok ==> site.files == old(site.files) && (!faulted ==> TempName(site.plan, t, a) in site.files)
    ensures ok ==> TempName(site.plan, t, a) !in old(site.files) && site.files == old(site.files)[TempName(site.plan, t, a) := []]
  {
    var broken: bool := *;
    faulted := broken;
    if broken || TempName(site.plan, t, a) in site.files {
      return false, broken;
    }
    WriteCreate(site, t, a);
    ok := true;
  }

  method WriteCreate(site: Site, t: string, a: string)
    requires site.Valid() && Stands(site, t, a, IntentMarked) && TempName(site.plan, t, a) !in site.files
    modifies site`proc, site`trace, site`labels, site`rough, site`files
    ensures site.Valid() && OthersStay(site, t) && Stands(site, t, a, Copying)
    ensures site.files == old(site.files)[TempName(site.plan, t, a) := []]
  {
    CreateMoves(site.plan, site.trace, site.labels, site.Now(), t, a);
    site.files := site.files[TempName(site.plan, t, a) := []];
    site.proc := site.proc.(workers := site.proc.workers[t := Worker(a, false, Copying)]);
    site.Record(WorkerCreate(t), false);
  }

  /** The copy engine, or the synchronous copy where there is no io_uring. */
  method CopyBytes(hash: Bytes -> Digest, content: Bytes, size: nat)
    returns (target: Bytes, result: Option<CopyResult>)
    requires |content| == size
    ensures result.Some? ==> target == content && result.value == CopyResult(size, hash(content))
  {
    var hasher := new Hasher(hash);
    var available: bool := *;
    var failure;
    target, result, failure := TryCopyAndHash(hasher, content, [], size, CHUNK, QUEUE_DEPTH, available);
    assert content[..size] == content && [] + content == content;
    if failure.None? && result.None? {
      var streams := new Streams(content);
      var copied := CopyAndHash(hasher, streams, CHUNK);
      assert content[0..] == content;
      target := streams.target;
      result := if copied.Ok? then Some(copied.value) else None;
    }
  }

  /** The copy into the temporary file, between two checks of the source. */
  method CopyIntoTemp(site: Site, t: string, a: string) returns (copied: Option<CopyResult>)
    requires site.Valid() && Stands(site, t, a, Copying)
    requires t in site.sources && site.sources[t].Present? && site.sources[t].identity == site.plan.assets[t].identity
    modifies site`proc, site`trace, site`labels, site`rough, site`files
    ensures site.Valid() && OthersStay(site, t)
    ensures copied.None? ==> Stands(site, t, a, Copying)
    ensures TempName(site.plan, t, a) in site.files
            && site.files == old(site.files)[TempName(site.plan, t, a) := site.files[TempName(site.plan, t, a)]]
    ensures copied.Some? ==>
              var content := site.sources[t].content;
              && copied.value == CopyResult(|content|, site.plan.hash(content))
              && Stands(site, t, a, Copied(|content|, site.plan.hash(content)))
              && TempName(site.plan, t, a) in site.files && site.files[TempName(site.plan, t, a)] == content
  {
    SourceHere(site, t);
    var content := site.sources[t].content;
    var target, result := CopyBytes(site.plan.hash, content, site.plan.assets[t].identity.size);
    WriteTemp(site, t, a, target);
    if result.None? {
      return None;
    }
    FinishCopy(site, t, a);
    copied := result;
  }

  method WriteTemp(site: Site, t: string, a: string, content: Bytes)
    requires site.Valid() && Stands(site, t, a, Copying)
    modifies site`trace, site`labels, site`rough, site`files
    ensures site.Valid() && Stands(site, t, a, Copying)
    ensures site.files == old(site.files)[TempName(site.plan, t, a) := content]
  {
    WriteMoves(site.plan, site.trace, site.labels, site.Now(), t, a, content);
    site.files := site.files[TempName(site.plan, t, a) := content];
    site.Record(WorkerWrite(t, content), false);
  }

  ghost method FinishCopy(site: Site, t: string, a: string)
    requires site.Valid() && Stands(site, t, a, Copying) && t in site.sources && site.sources[t].Present?
    requires TempName(site.plan, t, a) in site.files && site.files[TempName(site.plan, t, a)] == site.sources[t].content
    modifies site`proc, site`trace, site`labels, site`rough
    ensures var content := site.sources[t].content; Stands(site, t, a, Copied(|content|, site.plan.hash(content)))
    ensures site.Valid() && OthersStay(site, t)
  {
    CopiedMoves(site.plan, site.trace, site.labels, site.Now(), t, a);
    var content := site.sources[t].content;
    site.proc := site.proc.(workers := site.proc.workers[t := Worker(a, false, Copied(|content|, site.plan.hash(content)))]);
    site.Record(WorkerCopied(t, |content|, site.plan.hash(content)), false);
  }

  method MarkTempWritten(site: Site, t: string, a: string, epoch: nat, ghost size: nat, ghost digest: Digest)
    returns (ok: bool, ghost faulted: bool)
    requires site.Valid() && Stands(site, t, a, Copied(size, digest)) && epoch == site.proc.epoch
    modifies site`proc, site`trace, site`labels, site`rough, site`db
    ensures site.Valid() && OthersStay(site, t) && ok == !faulted
    ensures Stands(site, t, a, if ok then TempMarked(size, digest) else Copied(size, digest))
    ensures if ok then Advanced(old(site.db), site.db, t, epoch, a, TempWritten) else site.db == old(site.db)
  {
    var broken: bool := *;
    faulted := broken;
    ok := !broken;
    if !broken {
      FitsHere(site, t);
      AdvanceSucceeds(site.plan, site.db, site.proc.epoch, t, site.proc.workers[t], TempWritten);
      WriteTempWritten(site, t, a, epoch, size, digest);
    }
  }

  method WriteTempWritten(site: Site, t: string, a: string, epoch: nat, ghost size: nat, ghost digest: Digest)
    requires site.Valid() && Stands(site, t, a, Copied(size, digest)) && epoch == site.proc.epoch
    requires Advance(site.db, t, epoch, a, TempWritten).Ok?
    modifies site`proc, site`trace, site`labels, site`rough, site`db
    ensures site.Valid() && OthersStay(site, t) && Stands(site, t, a, TempMarked(size, digest))
    ensures Advanced(old(site.db), site.db, t, epoch, a, TempWritten)
  {
    AdvanceExactly(site.db, t, epoch, a, TempWritten);
    TempWrittenMoves(site.plan, site.trace, site.labels, site.Now(), t, a, size, digest);
    site.db := Advance(site.db, t, epoch, a, TempWritten).value;
    site.proc := site.proc.(workers := site.proc.workers[t := Worker(a, false, TempMarked(size, digest))]);
    site.Record(WorkerTempWritten(t), false);
  }

  /** The independent verification reads the temporary file back. */
  method VerifyTemp(site: Site, t: string, a: string, size: nat, digest: Digest) returns (ok: bool, ghost faulted: bool)
    requires site.Valid() && Stands(site, t, a, TempMarked(size, digest))
    modifies site`proc, site`trace, site`labels, site`rough
    ensures site.Valid() && OthersStay(site, t) && Stands(site, t, a, if ok then Checked(size, digest) else TempMarked(size, digest))
    ensures !ok && !faulted ==>
              var temp := TempName(site.plan, t, a);
              !(temp in site.files && |site.files[temp]| == size && site.plan.hash(site.files[temp]) == digest)
  {
    var temp := TempName(site.plan, t, a);
    if temp !in site.files {
      return false, false;
    }
    var checked := VerifyBytes(site.plan.hash, site.files[temp], size, digest);
    ok := checked == Ok(true);
    faulted := checked.Err?;
    if ok {
      WriteChecked(site, t, a, size, digest);
    }
  }

  /** The bytes of a file against a size and a digest. */
  method VerifyBytes(hash: Bytes -> Digest, content: Bytes, size: nat, digest: Digest) returns (r: Outcome<bool>)
    ensures r.Ok? ==> (r.value <==> |content| == size && hash(content) == digest)
  {
    var hasher := new Hasher(hash);
    var streams := new Streams(content);
    var found := VerifyBinary(hasher, streams, size, Some(digest), CHUNK);
    r := if found.Ok? then Ok(found.value.status == Identical) else Err(found.code);
  }

  ghost method WriteChecked(site: Site, t: string, a: string, size: nat, digest: Digest)
    requires site.Valid() && Stands(site, t, a, TempMarked(size, digest)) && TempName(site.plan, t, a) in site.files
    requires |site.files[TempName(site.plan, t, a)]| == size && site.plan.hash(site.files[TempName(site.plan, t, a)]) == digest
    modifies site`proc, site`trace, site`labels, site`rough
    ensures site.Valid() && OthersStay(site, t) && Stands(site, t, a, Checked(size, digest))
  {
    VerifyMoves(site.plan, site.trace, site.labels, site.Now(), t, a, size, digest);
    site.proc := site.proc.(workers := site.proc.workers[t := Worker(a, false, Checked(size, digest))]);
    site.Record(WorkerVerify(t), false);
  }

  method PersistVerifiedReceipt(site: Site, t: string, a: string, epoch: nat, size: nat, digest: Digest)
    returns (ok: bool, ghost faulted: bool)
    requires site.Valid() && Stands(site, t, a, Checked(size, digest)) && epoch == site.proc.epoch && size <= INT64_MAX
    modifies site`proc, site`trace, site`labels, site`rough, site`db
    ensures site.Valid() && ok == !faulted
    ensures !ok ==> OthersStay(site, t) && Stands(site, t, a, Checked(size, digest)) && site.db == old(site.db)
    ensures ok ==> NewReceipt(old(site.db), site.db, ReceiptFor(site.plan, t, a, epoch, size, digest))
    ensures ok ==> Left(site, t) && Saved(site, t, a, ReceiptFor(site.plan, t, a, epoch, size, digest))
  {
    var broken: bool := *;
    faulted := broken;
    ok := !broken;
    if !broken {
      FitsHere(site, t);
      ReceiptSucceeds(site.plan, site.db, site.proc.epoch, t, site.proc.workers[t], size, digest);
      NoReceiptYet(site.plan, site.db, t, a);
      WriteReceipt(site, t, a, epoch, size, digest);
    }
  }

  /** The receipt is new, its attempt is VERIFIED_DURABLE, and nothing else has changed. */
  predicate NewReceipt(db0: Tables, db: Tables, r: VerifiedReceipt) {
    && (r.task, r.attempt) !in db0.receipts
    && db == db0.(receipts := db0.receipts[(r.task, r.attempt) := r],
                  attempts := db0.attempts[r.attempt := AttemptRow(r.task, r.ownerEpoch, VerifiedDurable, false, None, None)])
  }

  /** The durable receipt of the active attempt of a RUNNING task. */
  ghost predicate Saved(site: Site, t: string, a: string, r: VerifiedReceipt)
    reads site
  {
    IsRunning(site.db, t) && site.db.tasks[t].active == Some(a) && (t, a) in site.db.receipts && site.db.receipts[(t, a)] == r
  }

  method WriteReceipt(site: Site, t: string, a: string, epoch: nat, size: nat, digest: Digest)
    requires site.Valid() && Stands(site, t, a, Checked(size, digest)) && epoch == site.proc.epoch && (t, a) !in site.db.receipts
    requires PersistReceipt(site.db, ReceiptFor(site.plan, t, a, epoch, size, digest)).Ok?
    modifies site`proc, site`trace, site`labels, site`rough, site`db
    ensures site.Valid() && Left(site, t) && Saved(site, t, a, ReceiptFor(site.plan, t, a, epoch, size, digest))
    ensures NewReceipt(old(site.db), site.db, ReceiptFor(site.plan, t, a, epoch, size, digest))
  {
    ReceiptExactly(site.db, ReceiptFor(site.plan, t, a, epoch, size, digest));
    ReceiptMoves(site.plan, site.trace, site.labels, site.Now(), t, a, size, digest);
    site.db := PersistReceipt(site.db, ReceiptFor(site.plan, t, a, epoch, size, digest)).value;
    site.proc := site.proc.(workers := site.proc.workers - {t});
    site.Record(WorkerReceipt(t), false);
  }

  /** The task is RETRYABLE with this error and belongs to nobody, its attempt has ended, and nothing else has changed. */
  predicate GivenBack(db0: Tables, db: Tables, t: string, epoch: nat, a: string, code: Code) {
    && t in db0.tasks
    && db == db0.(tasks := db0.tasks[t := db0.tasks[t].(state := Retryable, owner := None, active := None, lastError := Some(code))],
                  attempts := db0.attempts[a := AttemptRow(t, epoch, AttemptRetryable, true, Some(Retryable), Some(code))])
  }

  lemma RetrySucceeds(plan: Plan, db: Tables, epoch: nat, t: string, worker: Worker, code: Code)
    requires DbInv(plan, true, db) && epoch == db.epoch && WorkerOk(plan, db, epoch, t, worker)
    ensures Finish(db, t, epoch, worker.attempt, Some(code)).Ok?
  {
    assert TI.TaskOk(db, t);
    assert TI.AttemptOk(db, worker.attempt);
  }

  /** MarkRetryable after a failure; if that fails too the task is left RUNNING for a resume. */
  method Retry(site: Site, t: string, a: string, epoch: nat, code: Code, ghost pc: WorkerPc) returns (done: bool)
    requires site.Valid() && Stands(site, t, a, pc) && !pc.Failing? && epoch == site.proc.epoch
    modifies site`proc, site`trace, site`labels, site`rough, site`db
    ensures site.Valid() && Left(site, t)
    ensures if done then GivenBack(old(site.db), site.db, t, epoch, a, code) else site.db == old(site.db)
  {
    FitsHere(site, t);
    RetrySucceeds(site.plan, site.db, epoch, t, site.proc.workers[t], code);
    NoticeFailure(site, t, a, code, pc);
    var broken: bool := *;
    done := !broken;
    if done {
      WriteRetryable(site, t, a, epoch, code);
    } else {
      GiveUpMoves(site.plan, site.trace, site.labels, site.Now(), t);
      site.proc := site.proc.(workers := site.proc.workers - {t});
      site.Record(WorkerGiveUp(t), false);
    }
  }

  ghost method NoticeFailure(site: Site, t: string, a: string, code: Code, pc: WorkerPc)
    requires site.Valid() && Stands(site, t, a, pc) && !pc.Failing?
    modifies site`proc, site`trace, site`labels, site`rough
    ensures site.Valid() && OthersStay(site, t) && Stands(site, t, a, Failing(code))
  {
    FailMoves(site.plan, site.trace, site.labels, site.Now(), t, code);
    site.proc := site.proc.(workers := site.proc.workers[t := Worker(a, false, Failing(code))]);
    site.Record(WorkerFail(t, code), false);
  }

  method WriteRetryable(site: Site, t: string, a: string, epoch: nat, code: Code)
    requires site.Valid() && Stands(site, t, a, Failing(code)) && epoch == site.proc.epoch
    requires Finish(site.db, t, epoch, a, Some(code)).Ok?
    modifies site`proc, site`trace, site`labels, site`rough, site`db
    ensures site.Valid() && Left(site, t) && GivenBack(old(site.db), site.db, t, epoch, a, code)
  {
    ReleaseExactly(site.db, t, epoch, a, Retryable, AttemptRetryable, Some(code));
    RetryMoves(site.plan, site.trace, site.labels, site.Now(), t, a, code);
    site.db := Finish(site.db, t, epoch, a, Some(code)).value;
    site.proc := site.proc.(workers := site.proc.workers - {t});
    site.Record(WorkerRetry(t), false);
  }

  lemma AdvancedIsOnly(db0: Tables, db1: Tables, db: Tables, t: string, epoch: nat, a: string, next: AttemptState)
    requires OnlyAttempt(db0, db1, a) && Advanced(db1, db, t, epoch, a, next)
    ensures OnlyAttempt(db0, db, a)
  {
  }

  lemma ReceiptAfter(db0: Tables, db1: Tables, db: Tables, r: VerifiedReceipt)
    requires OnlyAttempt(db0, db1, r.attempt) && NewReceipt(db1, db, r)
    ensures NewReceipt(db0, db, r)
  {
  }

  lemma OnlyAttemptTwice(db0: Tables, db1: Tables, db: Tables, a: string)
    requires OnlyAttempt(db0, db1, a) && OnlyAttempt(db1, db, a)
    ensures OnlyAttempt(db0, db, a)
  {
  }

  lemma GivenBackAfter(db0: Tables, db1: Tables, db: Tables, t: string, epoch: nat, a: string, code: Code)
    requires OnlyAttempt(db0, db1, a) && GivenBack(db1, db, t, epoch, a, code)
    ensures GivenBack(db0, db, t, epoch, a, code)
  {
  }

  // ---------------------------------------------------------------- the attempt

  /** From the commit intent to the durable receipt. On success the receipt describes the source content exactly; without
      a failing call it does not succeed only where the target has several components or the name is already taken. */
  method Prepare(site: Site, t: string, a: string, epoch: nat)
    returns (r: Outcome<VerifiedReceipt>, ghost pc: WorkerPc, ghost faulted: bool)
    requires site.Valid() && Stands(site, t, a, Opened) && epoch == site.proc.epoch
    requires t in site.sources && site.sources[t].Present? && site.sources[t].identity == site.plan.assets[t].identity
    requires site.plan.assets[t].identity.size <= INT64_MAX
    modifies site`proc, site`trace, site`labels, site`rough, site`db, site`files
    ensures site.Valid()
    ensures r.Ok? ==>
              var content := site.sources[t].content;
              && Left(site, t) && Saved(site, t, a, r.value)
              && r.value == ReceiptFor(site.plan, t, a, epoch, |content|, site.plan.hash(content))
    ensures r.Err? ==> OthersStay(site, t) && Stands(site, t, a, pc) && !pc.Failing?
    ensures r.Err? && !faulted ==>
              if '/' !in site.plan.assets[t].spec.target
              then TempName(site.plan, t, a) in old(site.files) && r.code == AlreadyExists
              else r.code == InvalidArgument
    ensures r.Ok? ==>
              && '/' !in site.plan.assets[t].spec.target && TempName(site.plan, t, a) !in old(site.files)
              && site.files == old(site.files)[TempName(site.plan, t, a) := site.sources[t].content]
              && NewReceipt(old(site.db), site.db, r.value)
    ensures r.Err? ==> OnlyTemp(old(site.files), site.files, TempName(site.plan, t, a)) && OnlyAttempt(old(site.db), site.db, a)
  {
    hide IsRun, Initial, Since, PlanShape, TempName, Advanced, NewReceipt, OnlyAttempt, OnlyTemp, Saved;
    var plan := site.plan;
    ghost var db0, files0 := site.db, site.files;
    NothingDone(db0, a);
    OnlyOwn(files0, TempName(plan, t, a));
    if !SingleComponent(plan.assets[t].spec.target) {
      return Err(InvalidArgument), Opened, false;
    }
    var ok;
    ok, faulted := MarkCommitIntent(site, t, a, epoch);
    if !ok {
      return Err(IoError), Opened, faulted;
    }
    AdvancedIsOnly(db0, db0, site.db, t, epoch, a, CommitIntent);
    ghost var db1 := site.db;
    ok, faulted := CreateTemp(site, t, a);
    if !ok {
      return Err(if TempName(plan, t, a) in site.files then AlreadyExists else IoError), IntentMarked, faulted;
    }
    var copied := CopyIntoTemp(site, t, a);
    OnlyNew(files0, site.files, TempName(plan, t, a));
    if copied.None? {
      return Err(IoError), Copying, true;
    }
    SourceHere(site, t);
    r, pc, faulted := Certify(site, t, a, epoch, copied.value.bytesCopied, copied.value.sourceDigest);
    if r.Ok? {
      ReceiptAfter(db0, db1, site.db, r.value);
    } else {
      OnlyAttemptTwice(db0, db1, site.db, a);
    }
  }

  lemma OnlyOwn(files: map<string, Bytes>, temp: string)
    ensures OnlyTemp(files, files, temp)
  {
  }

  lemma OnlyNew(files0: map<string, Bytes>, files: map<string, Bytes>, temp: string)
    requires temp !in files0 && temp in files && files == files0[temp := []][temp := files[temp]]
    ensures OnlyTemp(files0, files, temp) && files == files0[temp := files[temp]]
  {
  }

  lemma NothingDone(db: Tables, a: string)
    ensures OnlyAttempt(db, db, a)
  {
  }

  /** The second half: mark the temporary file written, read it back, record the receipt. */
  method Certify(site: Site, t: string, a: string, epoch: nat, size: nat, digest: Digest)
    returns (r: Outcome<VerifiedReceipt>, ghost pc: WorkerPc, ghost faulted: bool)
    requires site.Valid() && Stands(site, t, a, Copied(size, digest)) && epoch == site.proc.epoch && size <= INT64_MAX
    modifies site`proc, site`trace, site`labels, site`rough, site`db
    ensures site.Valid()
    ensures r.Ok? ==> Left(site, t) && Saved(site, t, a, r.value) && r.value == ReceiptFor(site.plan, t, a, epoch, size, digest)
    ensures if r.Ok? then NewReceipt(old(site.db), site.db, r.value) else OnlyAttempt(old(site.db), site.db, a)
    ensures r.Err? ==> OthersStay(site, t) && Stands(site, t, a, pc) && !pc.Failing?
    ensures r.Err? && !faulted ==>
              var temp := TempName(site.plan, t, a);
              !(temp in site.files && |site.files[temp]| == size && site.plan.hash(site.files[temp]) == digest)
  {
    hide IsRun, Initial, Since, PlanShape, TempName, Advanced, NewReceipt, OnlyAttempt, Saved;
    ghost var db0 := site.db;
    NothingDone(db0, a);
    var ok;
    ok, faulted := MarkTempWritten(site, t, a, epoch, size, digest);
    if !ok {
      return Err(IoError), Copied(size, digest), faulted;
    }
    AdvancedIsOnly(db0, db0, site.db, t, epoch, a, TempWritten);
    ghost var db1 := site.db;
    ok, faulted := VerifyTemp(site, t, a, size, digest);
    if !ok {
      return Err(Internal), TempMarked(size, digest), faulted;
    }
    ok, faulted := PersistVerifiedReceipt(site, t, a, epoch, size, digest);
    if !ok {
      return Err(IoError), Checked(size, digest), faulted;
    }
    ReceiptAfter(db0, db1, site.db, ReceiptFor(site.plan, t, a, epoch, size, digest));
    return Ok(ReceiptFor(site.plan, t, a, epoch, size, digest)), Checked(size, digest), false;
  }

  /** ExecuteClaimedTask: one claimed task to its receipt, or back to RETRYABLE. */
  method ExecuteClaimedTask(site: Site, t: string, a: string, epoch: nat) returns (r: Outcome<VerifiedReceipt>, ghost faulted: bool)
    requires site.Valid() && Stands(site, t, a, Queued) && epoch == site.proc.epoch && site.plan.assets[t].identity.size <= INT64_MAX
    modifies site`proc, site`trace, site`labels, site`rough, site`db, site`files, site`rootExists
    ensures site.Valid() && Left(site, t)
    ensures r.Ok? ==>
              && t in site.sources && site.sources[t].Present?
              && Saved(site, t, a, r.value)
              && r.value == ReceiptFor(site.plan, t, a, epoch, |site.sources[t].content|, site.plan.hash(site.sources[t].content))
    ensures r.Ok? ==>
              var content, asset, temp := site.sources[t].content, site.plan.assets[t], TempName(site.plan, t, a);
              && site.sources[t].identity == asset.identity && '/' !in asset.spec.target
              && temp !in old(site.files) && site.files == old(site.files)[temp := content]
              && r.value == VerifiedReceipt(t, a, epoch, temp, asset.spec.target, |content|, Some(site.plan.hash(content)),
                                            site.plan.hash(content), Some(asset.identity))
              && NewReceipt(old(site.db), site.db, r.value)
    ensures r.Err? && !faulted ==>
              && GivenBack(old(site.db), site.db, t, epoch, a, r.code)
              && if t !in site.sources || site.sources[t].Missing? then r.code == NotFound
                 else if site.sources[t].identity != site.plan.assets[t].identity then r.code == Internal
                 else if '/' in site.plan.assets[t].spec.target then r.code == InvalidArgument
                 else TempName(site.plan, t, a) in old(site.files) && r.code == AlreadyExists
    ensures r.Err? ==> OnlyTemp(old(site.files), site.files, TempName(site.plan, t, a))
  {
    hide IsRun, Initial, Since, PlanShape, TempName, NewReceipt, OnlyAttempt, OnlyTemp, GivenBack, Saved;
    var done, status;
    ghost var pc;
    ghost var db0 := site.db;
    OnlyOwn(site.files, TempName(site.plan, t, a));
    status, faulted := OpenBoth(site, t, a);
    if status.Err? {
      done := Retry(site, t, a, epoch, status.code, Queued);
      return Err(if done then status.code else IoError), faulted || !done;
    }
    r, pc, faulted := Prepare(site, t, a, epoch);
    if r.Err? {
      ghost var db1 := site.db;
      done := Retry(site, t, a, epoch, r.code, pc);
      if done {
        GivenBackAfter(db0, db1, site.db, t, epoch, a, r.code);
      }
      r, faulted := Err(if done then r.code else IoError), faulted || !done;
    }
  }
}
