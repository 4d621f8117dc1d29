/** The steps of `migrate` keep the invariant of undisturbed runs. */
module QuietMigrate {
  import opened Common
  import opened Tasks
  import opened TaskTables
  import TI = TableInvariants
  import opened TempNames
  import opened Protocol
  import opened PlanRows
  import opened ProtocolRows
  import opened ProtocolSafety
  import opened QuietInvariant

  // ---------------------------------------------------------------- outside the workers

  lemma AssetsRelax(plan: Plan, db: Tables, files: map<string, Bytes>, migrating: bool, sources: map<string, Source>, hurt: set<string>)
    requires AssetsQuiet(plan, db, files, migrating, sources, hurt)
    ensures AssetsQuiet(plan, db, files, false, sources, hurt)
  {
    forall u | u in plan.assets ensures AssetQuiet(plan, db, files, false, u, Content(plan, sources, u), hurt) {
      assert AssetQuiet(plan, db, files, migrating, u, Content(plan, sources, u), hurt);
    }
  }

  /** A crash, or a move between the phases of migrate before its workers start. */
  lemma PhaseQuiet(plan: Plan, w: World, proc: Proc, hurt: set<string>)
    requires Quiet(plan, w, hurt) && !proc.Migrating? && !proc.Resuming?
    ensures Quiet(plan, w.(proc := proc), hurt)
  {
    AssetsRelax(plan, w.db, w.files, w.proc.Migrating?, w.sources, hurt);
    OwnedFrame(plan, w.db, w.proc, w.db, proc);
  }

  lemma FreshQuiet(plan: Plan, w: World, db': Tables, hurt: set<string>)
    requires Quiet(plan, w, hurt) && w.db == EMPTY && w.proc.MigrateStarting? && FreshRows(plan, db')
    ensures Quiet(plan, w.(materialized := true, db := db'), hurt)
  {
    hide TI.Inv;
    forall u | u in plan.assets ensures AssetQuiet(plan, db', w.files, false, u, Content(plan, w.sources, u), hurt) {
      assert AssetQuiet(plan, w.db, w.files, false, u, Content(plan, w.sources, u), hurt);
    }
  }

  lemma MaterializeQuiet(plan: Plan, w: World, hurt: set<string>)
    requires PlanShape(plan) && Inv(plan, w) && Quiet(plan, w, hurt) && MaterializeNext(plan, w).Some?
    ensures Quiet(plan, MaterializeNext(plan, w).value, hurt)
  {
    hide Quiet, Materialize, FreshRows, TI.Inv, DbShape, FilesInv, ProcOk, ProcShown;
    if !w.materialized {
      MaterializeRows(plan, |plan.order|);
      FreshQuiet(plan, w, Materialize(plan, |plan.order|).value, hurt);
    }
  }

  lemma ReadyQuiet(plan: Plan, w: World, t: string, hurt: set<string>)
    requires Quiet(plan, w, hurt) && w.proc.MigrateReadying? && t in plan.assets && SetReady(w.db, t).Ok?
    ensures Quiet(plan, w.(db := SetReady(w.db, t).value), hurt)
  {
    var db' := SetReady(w.db, t).value;
    assert AssetQuiet(plan, w.db, w.files, false, t, Content(plan, w.sources, t), hurt);
    AssetsMerge(plan, w.db, db', w.files, w.files, false, w.sources, t, hurt);
    OwnedFrame(plan, w.db, w.proc, db', w.proc);
  }

  /** The epoch of a migrate is taken when nothing is RUNNING, so every published target is already SUCCEEDED. */
  lemma MigrateEpochQuiet(plan: Plan, w: World, hurt: set<string>)
    requires Quiet(plan, w, hurt) && NoneRunning(w.db)
    ensures Quiet(plan, w.(db := w.db.(epoch := w.db.epoch + 1), proc := Migrating(w.db.epoch + 1, map[])), hurt)
  {
    var db' := w.db.(epoch := w.db.epoch + 1);
    forall u | u in plan.assets ensures AssetQuiet(plan, db', w.files, true, u, Content(plan, w.sources, u), hurt) {
      assert AssetQuiet(plan, w.db, w.files, w.proc.Migrating?, u, Content(plan, w.sources, u), hurt);
    }
  }

  // ---------------------------------------------------------------- one worker moves

  /** What a step of worker `t` must leave alone. */
  ghost predicate OthersSame(plan: Plan, w: World, db': Tables, files': map<string, Bytes>, t: string)
    requires w.proc.Migrating?
  {
    && (forall u {:trigger SameTask(w.db, db', u)} :: u in plan.assets && u != t ==>
          SameTask(w.db, db', u) && SameFiles(plan, w.db, w.files, files', u))
    && (forall u {:trigger w.proc.workers[u]} :: u in w.proc.workers && u != t && Writing(w.proc.workers[u].pc) ==>
          var temp := TempName(plan, u, w.proc.workers[u].attempt);
          temp in w.files ==> Holds(files', temp, w.files[temp]))
  }

  lemma OtherTempKept(plan: Plan, w: World, db': Tables, files': map<string, Bytes>, t: string, u: string)
    requires w.proc.Migrating? && OthersSame(plan, w, db', files', t) && u in w.proc.workers && u != t
    requires Writing(w.proc.workers[u].pc)
    ensures var temp := TempName(plan, u, w.proc.workers[u].attempt);
            temp in w.files ==> Holds(files', temp, w.files[temp])
  {
  }

  lemma OtherWorkers(plan: Plan, w: World, db': Tables, files': map<string, Bytes>, t: string, workers': map<string, Worker>)
    requires w.proc.Migrating? && WorkersQuiet(plan, w.files, w.sources, w.proc.workers)
    requires OthersSame(plan, w, db', files', t) && workers' - {t} == w.proc.workers - {t}
    requires t in workers' ==> WorkerQuiet(plan, files', t, workers'[t], Content(plan, w.sources, t))
    ensures WorkersQuiet(plan, files', w.sources, workers')
  {
    forall u | u in workers' ensures WorkerQuiet(plan, files', u, workers'[u], Content(plan, w.sources, u)) {
      if u != t {
        assert u in workers' - {t} && (workers' - {t})[u] == (w.proc.workers - {t})[u];
        assert u in w.proc.workers && workers'[u] == w.proc.workers[u];
        assert WorkerQuiet(plan, w.files, u, w.proc.workers[u], Content(plan, w.sources, u));
        if Writing(w.proc.workers[u].pc) {
          OtherTempKept(plan, w, db', files', t, u);
        }
      }
    }
  }

  lemma WorkerMoves(
    plan: Plan, w: World, root: bool, db': Tables, files': map<string, Bytes>, t: string, workers': map<string, Worker>, hurt: set<string>)
    requires Quiet(plan, w, hurt) && w.proc.Migrating? && t in plan.assets
    requires OthersSame(plan, w, db', files', t) && workers' - {t} == w.proc.workers - {t}
    requires AssetQuiet(plan, db', files', true, t, Content(plan, w.sources, t), hurt)
    requires t in workers' ==> WorkerQuiet(plan, files', t, workers'[t], Content(plan, w.sources, t))
    requires TempsOwned(plan, db', w.proc.(workers := workers'))
    ensures Quiet(plan, w.(rootExists := root, db := db', files := files', proc := w.proc.(workers := workers')), hurt)
  {
    OtherWorkers(plan, w, db', files', t, workers');
    AssetsMerge(plan, w.db, db', w.files, files', true, w.sources, t, hurt);
  }

  lemma OthersSameRows(plan: Plan, w: World, db': Tables, t: string)
    requires w.proc.Migrating? && (forall u :: u in plan.assets && u != t ==> SameTask(w.db, db', u))
    ensures OthersSame(plan, w, db', w.files, t)
  {
  }

  lemma OwnedWhenLess(plan: Plan, db: Tables, db': Tables, proc: Proc, t: string, workers': map<string, Worker>)
    requires proc.Migrating? && TempsOwned(plan, db, proc) && workers' - {t} == proc.workers - {t}
    requires forall u :: u != t ==> SameTask(db, db', u)
    requires Evident(db', proc.(workers := workers'), t) ==>
               Evident(db, proc, t) && ActiveTemp(plan, db', t) == ActiveTemp(plan, db, t)
    ensures TempsOwned(plan, db', proc.(workers := workers'))
  {
    var proc' := proc.(workers := workers');
    forall u | Evident(db', proc', u)
      ensures Evident(db, proc, u) && ActiveTemp(plan, db', u) == ActiveTemp(plan, db, u)
    {
      if u != t {
        assert SameTask(db, db', u);
        assert u in workers' <==> u in workers' - {t};
        assert u in proc.workers <==> u in proc.workers - {t};
        assert u in workers' ==> (workers' - {t})[u] == (proc.workers - {t})[u];
      }
    }
    OwnedFrame(plan, db, proc, db', proc');
  }

  lemma ClaimedTask(
    plan: Plan, db: Tables, db': Tables, files: map<string, Bytes>, proc: Proc, t: string, a: string, content: Bytes, hurt: set<string>)
    requires OnlyTouches(db, db', t, a) && t in plan.assets && AssetQuiet(plan, db, files, true, t, content, hurt)
    requires db.tasks[t].state == Ready && (t, a) !in db'.receipts
    requires db'.tasks[t].state == Running && db'.tasks[t].active == Some(a)
    ensures AssetQuiet(plan, db', files, true, t, content, hurt) && !HasReceipt(db', t)
    ensures forall u :: u != t ==> SameTask(db, db', u)
  {
    forall u | u != t ensures SameTask(db, db', u) {
      TouchSame(db, db', t, a, u);
    }
  }

  lemma ClaimQuiet(plan: Plan, w: World, t: string, a: string, taken: set<string>, hurt: set<string>)
    requires Inv(plan, w) && Quiet(plan, w, hurt) && w.proc.Migrating? && Claimable(w.db, t) && Claim(w.db, t, w.proc.epoch, a, taken).Ok?
    ensures Quiet(plan, w.(db := Claim(w.db, t, w.proc.epoch, a, taken).value,
                           proc := w.proc.(workers := w.proc.workers[t := Worker(a, false, Queued)])), hurt)
  {
    var db', workers' := Claim(w.db, t, w.proc.epoch, a, taken).value, w.proc.workers[t := Worker(a, false, Queued)];
    assert TaskShape(plan, w.db, t);
    NoReceiptYet(plan, w.db, t, a);
    ClaimTouches(w.db, t, w.proc.epoch, a, taken);
    ClaimedTask(plan, w.db, db', w.files, w.proc, t, a, Content(plan, w.sources, t), hurt);
    OwnedWhenLess(plan, w.db, db', w.proc, t, workers');
    OthersSameRows(plan, w, db', t);
    WorkerMoves(plan, w, w.rootExists, db', w.files, t, workers', hurt);
  }

  /** The link between a worker and the row it works for. */
  ghost predicate Works(plan: Plan, w: World, t: string) {
    && w.proc.Migrating? && t in w.proc.workers && t in plan.assets
    && IsRunning(w.db, t) && w.db.tasks[t].active == Some(w.proc.workers[t].attempt)
  }

  lemma WorkerWorks(plan: Plan, w: World, t: string)
    requires Inv(plan, w) && w.proc.Migrating? && t in w.proc.workers
    ensures Works(plan, w, t)
  {
    assert WorkerOk(plan, w.db, w.proc.epoch, t, w.proc.workers[t]);
  }

  /** A worker of a migrate never finds its own target published. */
  lemma NotPublished(plan: Plan, w: World, t: string, hurt: set<string>)
    requires Quiet(plan, w, hurt) && Works(plan, w, t)
    ensures t in hurt || plan.assets[t].spec.target !in w.files
    ensures AssetQuiet(plan, w.db, w.files, true, t, Content(plan, w.sources, t), hurt)
    ensures WorkerQuiet(plan, w.files, t, w.proc.workers[t], Content(plan, w.sources, t))
  {
    assert AssetQuiet(plan, w.db, w.files, true, t, Content(plan, w.sources, t), hurt);
    assert WorkerQuiet(plan, w.files, t, w.proc.workers[t], Content(plan, w.sources, t));
  }

  /** The worker only moves to another program point, or leaves. */
  lemma PcMoveQuiet(plan: Plan, w: World, root: bool, t: string, workers': map<string, Worker>, hurt: set<string>)
    requires Quiet(plan, w, hurt) && Works(plan, w, t) && workers' - {t} == w.proc.workers - {t}
    requires t in workers' ==>
               && WorkerQuiet(plan, w.files, t, workers'[t], Content(plan, w.sources, t))
               && (Writing(workers'[t].pc) ==> Writing(w.proc.workers[t].pc))
    ensures Quiet(plan, w.(rootExists := root, proc := w.proc.(workers := workers')), hurt)
  {
    NotPublished(plan, w, t, hurt);
    OwnedWhenLess(plan, w.db, w.db, w.proc, t, workers');
    OthersSameRows(plan, w, w.db, t);
    WorkerMoves(plan, w, root, w.db, w.files, t, workers', hurt);
  }

  lemma SetPcQuiet(plan: Plan, w: World, t: string, pc: WorkerPc, hurt: set<string>)
    requires Quiet(plan, w, hurt) && Works(plan, w, t) && (Writing(pc) ==> Writing(w.proc.workers[t].pc))
    requires WorkerQuiet(plan, w.files, t, w.proc.workers[t].(pc := pc), Content(plan, w.sources, t))
    ensures Quiet(plan, SetPc(w, t, pc), hurt)
  {
    PcMoveQuiet(plan, w, w.rootExists, t, w.proc.workers[t := w.proc.workers[t].(pc := pc)], hurt);
  }

  lemma DropQuiet(plan: Plan, w: World, t: string, hurt: set<string>)
    requires Quiet(plan, w, hurt) && Works(plan, w, t)
    ensures Quiet(plan, DropWorker(w, t), hurt)
  {
    PcMoveQuiet(plan, w, w.rootExists, t, w.proc.workers - {t}, hurt);
  }

  /** MarkCommitIntent and MarkTempWritten change only attempt rows. */
  lemma AdvanceQuiet(plan: Plan, w: World, t: string, db': Tables, hurt: set<string>)
    requires Quiet(plan, w, hurt) && Works(plan, w, t) && db'.tasks == w.db.tasks && db'.receipts == w.db.receipts
    ensures Quiet(plan, w.(db := db'), hurt) && Works(plan, w.(db := db'), t)
  {
    NotPublished(plan, w, t, hurt);
    assert w.proc.(workers := w.proc.workers) == w.proc;
    OwnedWhenLess(plan, w.db, db', w.proc, t, w.proc.workers);
    OthersSameRows(plan, w, db', t);
    AssetFrame(plan, w.db, db', w.files, w.files, true, t, Content(plan, w.sources, t), hurt);
    WorkerMoves(plan, w, w.rootExists, db', w.files, t, w.proc.workers, hurt);
  }

  /** The receipt of a checked copy describes the source and its bytes are in the temporary file. */
  lemma ReceiptQuiet(plan: Plan, w: World, t: string, db': Tables, hurt: set<string>)
    requires Quiet(plan, w, hurt) && Works(plan, w, t) && w.proc.workers[t].pc.Checked?
    requires var worker := w.proc.workers[t];
             var r := ReceiptFor(plan, t, worker.attempt, w.proc.epoch, worker.pc.size, worker.pc.digest);
             OnlyTouches(w.db, db', t, worker.attempt) && db'.tasks == w.db.tasks
             && db'.receipts == w.db.receipts[(t, worker.attempt) := r]
    ensures Quiet(plan, DropWorker(w.(db := db'), t), hurt)
  {
    NotPublished(plan, w, t, hurt);
    forall u | u != t ensures SameTask(w.db, db', u) {
      TouchSame(w.db, db', t, w.proc.workers[t].attempt, u);
    }
    OwnedWhenLess(plan, w.db, db', w.proc, t, w.proc.workers - {t});
    OthersSameRows(plan, w, db', t);
    WorkerMoves(plan, w, w.rootExists, db', w.files, t, w.proc.workers - {t}, hurt);
  }

  lemma RetryQuiet(plan: Plan, w: World, t: string, db': Tables, hurt: set<string>)
    requires Quiet(plan, w, hurt) && Works(plan, w, t)
    requires OnlyTouches(w.db, db', t, w.proc.workers[t].attempt) && db'.tasks[t].state == Retryable
    ensures Quiet(plan, DropWorker(w.(db := db'), t), hurt)
  {
    NotPublished(plan, w, t, hurt);
    forall u | u != t ensures SameTask(w.db, db', u) {
      TouchSame(w.db, db', t, w.proc.workers[t].attempt, u);
    }
    OwnedWhenLess(plan, w.db, db', w.proc, t, w.proc.workers - {t});
    OthersSameRows(plan, w, db', t);
    WorkerMoves(plan, w, w.rootExists, db', w.files, t, w.proc.workers - {t}, hurt);
  }

  // ---------------------------------------------------------------- writing the temporary file

  /** The name `temp` is not the temporary file of any other attempt that still needs one. */
  ghost predicate Apart(plan: Plan, db: Tables, proc: Proc, t: string, temp: string) {
    forall u :: u != t && Evident(db, proc, u) ==> ActiveTemp(plan, db, u) != temp
  }

  /** Exclusive creation succeeds only on a name nobody else holds. */
  lemma CreatedApart(plan: Plan, w: World, t: string, temp: string, hurt: set<string>)
    requires Quiet(plan, w, hurt) && Inv(plan, w) && w.proc.Migrating? && temp !in w.files
    ensures Apart(plan, w.db, w.proc, t, temp)
  {
    forall u | u != t && Evident(w.db, w.proc, u) ensures ActiveTemp(plan, w.db, u) != temp {
      assert TaskShape(plan, w.db, u);
      assert AssetQuiet(plan, w.db, w.files, true, u, Content(plan, w.sources, u), hurt);
      if !HasReceipt(w.db, u) {
        WorkerWorks(plan, w, u);
        NotPublished(plan, w, u, hurt);
      }
    }
  }

  lemma WrittenSameFiles(plan: Plan, w: World, t: string, a: string, content: Bytes, u: string)
    requires NoFinalIsTemp(plan) && u in plan.assets && u != t && Apart(plan, w.db, w.proc, t, TempName(plan, t, a))
    requires IsTempOf(plan, TempName(plan, t, a))
    ensures SameFiles(plan, w.db, w.files, w.files[TempName(plan, t, a) := content], u)
  {
    TargetNotTemp(plan, u);
    assert HasReceipt(w.db, u) ==> Evident(w.db, w.proc, u);
  }

  lemma OtherTempApart(plan: Plan, w: World, t: string, temp: string, u: string)
    requires Inv(plan, w) && w.proc.Migrating? && Apart(plan, w.db, w.proc, t, temp)
    requires u in w.proc.workers && u != t && Writing(w.proc.workers[u].pc)
    ensures TempName(plan, u, w.proc.workers[u].attempt) != temp
  {
    WorkerWorks(plan, w, u);
    assert Evident(w.db, w.proc, u);
  }

  lemma WorkerTemp(plan: Plan, w: World, t: string)
    requires Inv(plan, w) && Works(plan, w, t) && (Writing(w.proc.workers[t].pc) || w.proc.workers[t].pc.IntentMarked?)
    ensures IsTempOf(plan, TempName(plan, t, w.proc.workers[t].attempt))
  {
    hide TI.Inv, FilesInv;
    WorkerHere(plan, w, t);
    AttemptTemp(plan, w.db, w.proc.workers[t].attempt);
  }

  lemma WrittenApart(plan: Plan, w: World, t: string, content: Bytes)
    requires NoFinalIsTemp(plan) && Inv(plan, w) && Works(plan, w, t)
    requires Writing(w.proc.workers[t].pc) || w.proc.workers[t].pc.IntentMarked?
    requires Apart(plan, w.db, w.proc, t, TempName(plan, t, w.proc.workers[t].attempt))
    ensures OthersSame(plan, w, w.db, w.files[TempName(plan, t, w.proc.workers[t].attempt) := content], t)
  {
    hide Inv;
    WorkerTemp(plan, w, t);
    var temp := TempName(plan, t, w.proc.workers[t].attempt);
    var files' := w.files[temp := content];
    forall u | u in w.proc.workers && u != t && Writing(w.proc.workers[u].pc)
      ensures TempName(plan, u, w.proc.workers[u].attempt) != temp
    {
      OtherTempApart(plan, w, t, temp, u);
    }
    forall u | u in plan.assets && u != t ensures SameTask(w.db, w.db, u) && SameFiles(plan, w.db, w.files, files', u) {
      WrittenSameFiles(plan, w, t, w.proc.workers[t].attempt, content, u);
    }
  }

  lemma WriteQuiet(plan: Plan, w: World, t: string, content: Bytes, hurt: set<string>)
    requires NoFinalIsTemp(plan) && Inv(plan, w) && Quiet(plan, w, hurt) && Works(plan, w, t) && w.proc.workers[t].pc.Copying?
    requires !HasReceipt(w.db, t)
    ensures Quiet(plan, w.(files := w.files[TempName(plan, t, w.proc.workers[t].attempt) := content]), hurt)
  {
    hide Inv;
    var files' := w.files[TempName(plan, t, w.proc.workers[t].attempt) := content];
    assert Evident(w.db, w.proc, t);
    WorkerTemp(plan, w, t);
    TargetNotTemp(plan, t);
    NotPublished(plan, w, t, hurt);
    WrittenApart(plan, w, t, content);
    assert w.proc.(workers := w.proc.workers) == w.proc;
    WorkerMoves(plan, w, w.rootExists, w.db, files', t, w.proc.workers, hurt);
  }

  lemma CreateQuiet(plan: Plan, w: World, t: string, hurt: set<string>)
    requires NoFinalIsTemp(plan) && Inv(plan, w) && Quiet(plan, w, hurt) && Works(plan, w, t)
    requires TempName(plan, t, w.proc.workers[t].attempt) !in w.files && !HasReceipt(w.db, t) && w.proc.workers[t].pc.IntentMarked?
    ensures Quiet(plan, SetPc(w.(files := w.files[TempName(plan, t, w.proc.workers[t].attempt) := []]), t, Copying), hurt)
  {
    hide Inv, TempsOwned, WorkersQuiet, AssetsQuiet;
    WorkerTemp(plan, w, t);
    TargetNotTemp(plan, t);
    var files' := w.files[TempName(plan, t, w.proc.workers[t].attempt) := []];
    var workers' := w.proc.workers[t := w.proc.workers[t].(pc := Copying)];
    NotPublished(plan, w, t, hurt);
    CreatedApart(plan, w, t, TempName(plan, t, w.proc.workers[t].attempt), hurt);
    WrittenApart(plan, w, t, []);
    OwnedWithNew(plan, w, t, workers', hurt);
    WorkerMoves(plan, w, w.rootExists, w.db, files', t, workers', hurt);
  }

  lemma OwnedWithNew(plan: Plan, w: World, t: string, workers': map<string, Worker>, hurt: set<string>)
    requires Quiet(plan, w, hurt) && Works(plan, w, t) && workers' - {t} == w.proc.workers - {t}
    requires Apart(plan, w.db, w.proc, t, TempName(plan, t, w.proc.workers[t].attempt))
    ensures TempsOwned(plan, w.db, w.proc.(workers := workers'))
  {
    var proc' := w.proc.(workers := workers');
    forall u | u != t && Evident(w.db, proc', u) ensures Evident(w.db, w.proc, u) {
      assert u in workers' <==> u in workers' - {t};
      assert u in w.proc.workers <==> u in w.proc.workers - {t};
      assert u in workers' ==> (workers' - {t})[u] == (w.proc.workers - {t})[u];
    }
    forall u, v | Evident(w.db, proc', u) && Evident(w.db, proc', v) && u != v
      ensures ActiveTemp(plan, w.db, u) != ActiveTemp(plan, w.db, v)
    {
      assert u != t && v != t ==> Evident(w.db, w.proc, u) && Evident(w.db, w.proc, v);
    }
  }

  // ---------------------------------------------------------------- all steps of migrate

  lemma WorkerHasNoReceipt(plan: Plan, w: World, t: string)
    requires Inv(plan, w) && w.proc.Migrating? && t in w.proc.workers
    ensures !HasReceipt(w.db, t)
  {
    var worker := w.proc.workers[t];
    assert WorkerOk(plan, w.db, w.proc.epoch, t, worker);
    NoReceiptYet(plan, w.db, t, worker.attempt);
  }

  lemma WorkerFileQuiet(plan: Plan, w: World, t: string, l: Label, w': World, hurt: set<string>)
    requires NoFinalIsTemp(plan) && Inv(plan, w) && Quiet(plan, w, hurt) && Works(plan, w, t) && !HasReceipt(w.db, t)
    requires IsWorkerLabel(l) && !IsRowLabel(l) && WorkerFileNext(plan, w, t, l) == Some(w')
    ensures Quiet(plan, w', hurt)
  {
    hide Inv, Quiet, NoFinalIsTemp, AssetQuiet, HasReceipt, TempName;
    NotPublished(plan, w, t, hurt);
    var worker := w.proc.workers[t];
    match l
    case WorkerOpen(_) => PcMoveQuiet(plan, w, true, t, w'.proc.workers, hurt);
    case WorkerCreate(_) => CreateQuiet(plan, w, t, hurt);
    case WorkerWrite(_, content) => WriteQuiet(plan, w, t, content, hurt);
    case WorkerCopied(_, size, digest) => SetPcQuiet(plan, w, t, Copied(size, digest), hurt);
    case WorkerVerify(_) => SetPcQuiet(plan, w, t, Checked(worker.pc.size, worker.pc.digest), hurt);
    case WorkerFail(_, code) => SetPcQuiet(plan, w, t, Failing(code), hurt);
    case WorkerGiveUp(_) => DropQuiet(plan, w, t, hurt);
  }

  lemma WorkerAdvanceQuiet(plan: Plan, w: World, t: string, next: AttemptState, pc: WorkerPc, hurt: set<string>)
    requires Quiet(plan, w, hurt) && Works(plan, w, t) && Advance(w.db, t, w.proc.epoch, w.proc.workers[t].attempt, next).Ok?
    requires Writing(pc) ==> Writing(w.proc.workers[t].pc)
    requires WorkerQuiet(plan, w.files, t, w.proc.workers[t].(pc := pc), Content(plan, w.sources, t))
    ensures Quiet(plan, SetPc(w.(db := Advance(w.db, t, w.proc.epoch, w.proc.workers[t].attempt, next).value), t, pc), hurt)
  {
    var db' := Advance(w.db, t, w.proc.epoch, w.proc.workers[t].attempt, next).value;
    AdvanceTouches(w.db, t, w.proc.epoch, w.proc.workers[t].attempt, next);
    AdvanceQuiet(plan, w, t, db', hurt);
    SetPcQuiet(plan, w.(db := db'), t, pc, hurt);
  }

  lemma WorkerReceiptQuiet(plan: Plan, w: World, t: string, hurt: set<string>)
    requires Quiet(plan, w, hurt) && Works(plan, w, t) && !HasReceipt(w.db, t) && w.proc.workers[t].pc.Checked?
    requires var worker := w.proc.workers[t];
             PersistReceipt(w.db, ReceiptFor(plan, t, worker.attempt, w.proc.epoch, worker.pc.size, worker.pc.digest)).Ok?
    ensures var worker := w.proc.workers[t];
            var r := ReceiptFor(plan, t, worker.attempt, w.proc.epoch, worker.pc.size, worker.pc.digest);
            Quiet(plan, DropWorker(w.(db := PersistReceipt(w.db, r).value), t), hurt)
  {
    var worker := w.proc.workers[t];
    var r := ReceiptFor(plan, t, worker.attempt, w.proc.epoch, worker.pc.size, worker.pc.digest);
    ReceiptTouches(w.db, r);
    ReceiptQuiet(plan, w, t, PersistReceipt(w.db, r).value, hurt);
  }

  lemma WorkerRetryQuiet(plan: Plan, w: World, t: string, code: Code, hurt: set<string>)
    requires Quiet(plan, w, hurt) && Works(plan, w, t) && Finish(w.db, t, w.proc.epoch, w.proc.workers[t].attempt, Some(code)).Ok?
    ensures Quiet(plan, DropWorker(w.(db := Finish(w.db, t, w.proc.epoch, w.proc.workers[t].attempt, Some(code)).value), t), hurt)
  {
    ReleaseTouches(w.db, t, w.proc.epoch, w.proc.workers[t].attempt, Retryable, AttemptRetryable, Some(code));
    RetryQuiet(plan, w, t, Finish(w.db, t, w.proc.epoch, w.proc.workers[t].attempt, Some(code)).value, hurt);
  }

  lemma WorkerRowQuiet(plan: Plan, w: World, t: string, l: Label, w': World, hurt: set<string>)
    requires Quiet(plan, w, hurt) && Works(plan, w, t) && !HasReceipt(w.db, t) && IsRowLabel(l)
    requires WorkerRowNext(plan, w, t, l) == Some(w')
    ensures Quiet(plan, w', hurt)
  {
    NotPublished(plan, w, t, hurt);
    var pc := w.proc.workers[t].pc;
    match l
    case WorkerIntent(_) => WorkerAdvanceQuiet(plan, w, t, CommitIntent, IntentMarked, hurt);
    case WorkerTempWritten(_) => WorkerAdvanceQuiet(plan, w, t, TempWritten, TempMarked(pc.size, pc.digest), hurt);
    case WorkerReceipt(_) => WorkerReceiptQuiet(plan, w, t, hurt);
    case WorkerRetry(_) => WorkerRetryQuiet(plan, w, t, pc.code, hurt);
  }

  lemma WorkerStepQuiet(plan: Plan, w: World, t: string, l: Label, w': World, hurt: set<string>)
    requires NoFinalIsTemp(plan) && Inv(plan, w) && Quiet(plan, w, hurt) && IsWorkerLabel(l) && WorkerNext(plan, w, t, l) == Some(w')
    ensures Quiet(plan, w', hurt)
  {
    WorkerWorks(plan, w, t);
    WorkerHasNoReceipt(plan, w, t);
    if IsRowLabel(l) {
      WorkerRowQuiet(plan, w, t, l, w', hurt);
    } else {
      WorkerFileQuiet(plan, w, t, l, w', hurt);
    }
  }

  lemma ClaimNextQuiet(plan: Plan, w: World, t: string, taken: set<string>, hurt: set<string>)
    requires Inv(plan, w) && Quiet(plan, w, hurt) && ClaimNext(plan, w, t, taken).Some?
    ensures Quiet(plan, ClaimNext(plan, w, t, taken).value, hurt)
  {
    ClaimQuiet(plan, w, t, GeneratedAttemptId(plan.id, t, w.db.tasks[t].attemptCount + 1), taken, hurt);
  }

  lemma MigratePhaseQuiet(plan: Plan, w: World, l: Label, w': World, hurt: set<string>)
    requires PlanShape(plan) && Quiet(plan, w, hurt) && (w.proc.MigrateReadying? ==> NoneRunning(w.db))
    requires l.MigrateLock? || l.MigrateCheck? || l.MigrateReady? || l.MigrateEpoch?
    requires MigrateNext(plan, w, l) == Some(w')
    ensures Quiet(plan, w', hurt)
  {
    match l
    case MigrateLock => PhaseQuiet(plan, w, MigrateStarting, hurt);
    case MigrateCheck => PhaseQuiet(plan, w, MigrateReadying, hurt);
    case MigrateReady(t) => ReadyQuiet(plan, w, t, hurt);
    case MigrateEpoch => MigrateEpochQuiet(plan, w, hurt);
  }

  lemma NoneRunningWhileReadying(plan: Plan, w: World)
    requires Inv(plan, w)
    ensures w.proc.MigrateReadying? ==> NoneRunning(w.db)
  {
  }

  lemma MigrateStepQuiet(plan: Plan, w: World, l: Label, w': World, hurt: set<string>)
    requires PlanShape(plan) && Inv(plan, w) && Quiet(plan, w, hurt) && IsMigrateLabel(l) && MigrateNext(plan, w, l) == Some(w')
    ensures Quiet(plan, w', hurt)
  {
    hide Inv, Quiet, ClaimNext, MaterializeNext;
    NoneRunningWhileReadying(plan, w);
    match l
    case MigrateMaterialize => MaterializeQuiet(plan, w, hurt);
    case MigrateClaim(t, taken) => ClaimNextQuiet(plan, w, t, taken, hurt);
    case _ => MigratePhaseQuiet(plan, w, l, w', hurt);
  }
}
