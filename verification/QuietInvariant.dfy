/** Runs in which nobody disturbs the sources or the target directory: the invariant behind convergence. `hurt` are the
    tasks whose confirmation by a resume has met a read error; of those less is known. No assumption is made on the hash
    beyond NoFinalIsTemp: that two live attempts never share a temporary file follows from its exclusive creation. */
module QuietInvariant {
  import opened Common
  import opened Tasks
  import opened TaskTables
  import opened Reconciler
  import opened Protocol
  import opened PlanRows
  import opened ProtocolRows
  import opened ProtocolSafety

  /** No two tasks share a target that one of them can publish. */
  ghost predicate DistinctTargets(plan: Plan) {
    forall t, u :: Attemptable(plan, t) && u in plan.assets && t != u ==> plan.assets[t].spec.target != plan.assets[u].spec.target
  }

  /** Every source is there, unchanged since the plan was frozen. */
  ghost predicate SourcesFit(plan: Plan, sources: map<string, Source>) {
    forall t :: t in plan.assets ==>
      t in sources && sources[t].Present? && sources[t].identity == plan.assets[t].identity && SourceOk(sources[t])
  }

  function Content(plan: Plan, sources: map<string, Source>, t: string): Bytes {
    if t in sources && sources[t].Present? then sources[t].content else []
  }

  predicate HasReceipt(db: Tables, t: string) {
    IsRunning(db, t) && db.tasks[t].active.Some? && (t, db.tasks[t].active.value) in db.receipts
  }

  predicate Settled(db: Tables, t: string) {
    t in db.tasks && db.tasks[t].state == Succeeded
  }

  predicate Writing(pc: WorkerPc) {
    pc.Copying? || pc.Copied? || pc.TempMarked? || pc.Checked?
  }

  predicate WritesIn(proc: Proc, t: string) {
    proc.Migrating? && t in proc.workers && Writing(proc.workers[t].pc)
  }

  /** The attempt of `t` created its temporary file and may still need it. */
  predicate Evident(db: Tables, proc: Proc, t: string) {
    IsRunning(db, t) && db.tasks[t].active.Some? && (HasReceipt(db, t) || WritesIn(proc, t))
  }

  function ActiveTemp(plan: Plan, db: Tables, t: string): string {
    if t in db.tasks && db.tasks[t].active.Some? then TempName(plan, t, db.tasks[t].active.value) else ""
  }

  predicate Holds(files: map<string, Bytes>, name: string, content: Bytes) {
    name in files && files[name] == content
  }

  /** A published target holds the source content and belongs to a task that is SUCCEEDED or about to be, unless the task
      is hurt; a durable receipt describes the source, and the bytes it vouches for are there. */
  ghost predicate AssetQuiet(plan: Plan, db: Tables, files: map<string, Bytes>, migrating: bool, t: string, content: Bytes, hurt: set<string>)
    requires t in plan.assets
  {
    var target := plan.assets[t].spec.target;
    && (t in db.tasks && db.tasks[t].state == Inconsistent ==> t in hurt)
    && (target in files ==> files[target] == content && (t in hurt || Settled(db, t) || (HasReceipt(db, t) && !migrating)))
    && (HasReceipt(db, t) ==>
          var r := db.receipts[(t, db.tasks[t].active.value)];
          && r.contentSize == |content| && r.targetDigest == plan.hash(content)
          && ((target in files && !migrating) || Holds(files, ActiveTemp(plan, db, t), content)))
  }

  ghost predicate WorkerQuiet(plan: Plan, files: map<string, Bytes>, t: string, worker: Worker, content: Bytes) {
    var temp := TempName(plan, t, worker.attempt);
    && !worker.touched
    && (worker.pc.Copying? ==> temp in files)
    && (worker.pc.Copied? || worker.pc.TempMarked? || worker.pc.Checked? ==>
          Holds(files, temp, content) && worker.pc.size == |content| && worker.pc.digest == plan.hash(content))
  }

  ghost predicate TempsOwned(plan: Plan, db: Tables, proc: Proc) {
    forall t, u {:trigger Evident(db, proc, t), Evident(db, proc, u)} ::
      Evident(db, proc, t) && Evident(db, proc, u) && t != u ==> ActiveTemp(plan, db, t) != ActiveTemp(plan, db, u)
  }

  const AVAILABLE := NOTHING_OBSERVED.(sourceAvailable := true)

  /** What a resume that can read its files makes of a case. */
  function Expected(plan: Plan, files: map<string, Bytes>, c: Case): Verdict
    requires c.task in plan.assets
  {
    if c.receipt.Some? then RecoverSucceeded
    else if plan.assets[c.task].spec.target in files then RecoverInconsistent else RecoverRetryable
  }

  /** The confirmation met a read error and the task is being given back. */
  predicate GivenBack(plan: Plan, step: RecoverStep, hurt: set<string>) {
    step.Settle? && step.verdict == RecoverRetryable && step.c.task in plan.assets && step.c.task in hurt
  }

  ghost predicate StepQuiet(plan: Plan, files: map<string, Bytes>, step: RecoverStep) {
    step.Pick? ||
    (step.c.task in plan.assets &&
     var c := step.c;
     var published := plan.assets[c.task].spec.target in files;
     match step
     case Pick => true
     case Loaded(_) => true
     case SourceSeen(_, seen) => seen == AVAILABLE
     case TempSeen(_, seen) => seen == ObserveTemp(plan, files, IntentFor(plan, c).tempPath, AVAILABLE)
     case ConfirmFinal(_, cleanup) =>
       published && c.receipt.Some? && (cleanup ==> Shows(plan, files, IntentFor(plan, c).tempPath, c.receipt.value))
     case ConfirmTemp(_) => c.receipt.Some? && Shows(plan, files, IntentFor(plan, c).tempPath, c.receipt.value)
     case UnlinkTemp(_) => published && c.receipt.Some?
     case RecheckTemp(_) => !published && c.receipt.Some?
     case RenameTemp(_) => !published && c.receipt.Some?
     case Settle(_, v) => v == Expected(plan, files, c))
  }

  ghost predicate AssetsQuiet(plan: Plan, db: Tables, files: map<string, Bytes>, migrating: bool, sources: map<string, Source>, hurt: set<string>) {
    forall t {:trigger AssetQuiet(plan, db, files, migrating, t, Content(plan, sources, t), hurt)} :: t in plan.assets ==>
      AssetQuiet(plan, db, files, migrating, t, Content(plan, sources, t), hurt)
  }

  ghost predicate WorkersQuiet(plan: Plan, files: map<string, Bytes>, sources: map<string, Source>, workers: map<string, Worker>) {
    forall t {:trigger WorkerQuiet(plan, files, t, workers[t], Content(plan, sources, t))} :: t in workers ==>
      WorkerQuiet(plan, files, t, workers[t], Content(plan, sources, t))
  }

  ghost predicate ProcQuiet(plan: Plan, files: map<string, Bytes>, sources: map<string, Source>, proc: Proc, hurt: set<string>) {
    && (proc.Migrating? ==> WorkersQuiet(plan, files, sources, proc.workers))
    && (proc.Resuming? ==> StepQuiet(plan, files, proc.step) || GivenBack(plan, proc.step, hurt))
  }

  ghost predicate Quiet(plan: Plan, w: World, hurt: set<string>) {
    && SourcesFit(plan, w.sources)
    && AssetsQuiet(plan, w.db, w.files, w.proc.Migrating?, w.sources, hurt)
    && TempsOwned(plan, w.db, w.proc)
    && ProcQuiet(plan, w.files, w.sources, w.proc, hurt)
  }

  // ---------------------------------------------------------------- frames

  /** Task `u` looks the same in both databases. */
  predicate SameTask(db: Tables, db': Tables, u: string) {
    && (u in db.tasks <==> u in db'.tasks)
    && (u in db.tasks ==> db'.tasks[u].state == db.tasks[u].state && db'.tasks[u].active == db.tasks[u].active)
    && (u in db.tasks && db.tasks[u].active.Some? ==>
          var k := (u, db.tasks[u].active.value);
          (k in db.receipts <==> k in db'.receipts) && (k in db.receipts ==> db'.receipts[k] == db.receipts[k]))
  }

  lemma TouchSame(db: Tables, db': Tables, t: string, a: string, u: string)
    requires OnlyTouches(db, db', t, a) && u != t
    ensures SameTask(db, db', u)
  {
  }

  /** The files that task `u` depends on are the same in both directories. */
  predicate SameFiles(plan: Plan, db: Tables, files: map<string, Bytes>, files': map<string, Bytes>, u: string)
    requires u in plan.assets
  {
    var target, temp := plan.assets[u].spec.target, ActiveTemp(plan, db, u);
    && (target in files <==> target in files') && (target in files ==> files'[target] == files[target])
    && (HasReceipt(db, u) && temp in files ==> temp in files' && files'[temp] == files[temp])
  }

  lemma AssetFrame(
    plan: Plan, db: Tables, db': Tables, files: map<string, Bytes>, files': map<string, Bytes>,
    migrating: bool, u: string, content: Bytes, hurt: set<string>)
    requires u in plan.assets && AssetQuiet(plan, db, files, migrating, u, content, hurt)
    requires SameTask(db, db', u) && SameFiles(plan, db, files, files', u)
    ensures AssetQuiet(plan, db', files', migrating, u, content, hurt)
  {
  }

  /** All assets but `t` are framed; `t` itself is shown. */
  lemma AssetsMerge(
    plan: Plan, db: Tables, db': Tables, files: map<string, Bytes>, files': map<string, Bytes>,
    migrating: bool, sources: map<string, Source>, t: string, hurt: set<string>)
    requires AssetsQuiet(plan, db, files, migrating, sources, hurt)
    requires forall u :: u in plan.assets && u != t ==> SameTask(db, db', u) && SameFiles(plan, db, files, files', u)
    requires t in plan.assets ==> AssetQuiet(plan, db', files', migrating, t, Content(plan, sources, t), hurt)
    ensures AssetsQuiet(plan, db', files', migrating, sources, hurt)
  {
    forall u | u in plan.assets ensures AssetQuiet(plan, db', files', migrating, u, Content(plan, sources, u), hurt) {
      if u != t {
        assert AssetQuiet(plan, db, files, migrating, u, Content(plan, sources, u), hurt);
        AssetFrame(plan, db, db', files, files', migrating, u, Content(plan, sources, u), hurt);
      }
    }
  }

  /** No task gains evidence and the active temporaries stay, so ownership stays exclusive. */
  lemma OwnedFrame(plan: Plan, db: Tables, proc: Proc, db': Tables, proc': Proc)
    requires TempsOwned(plan, db, proc)
    requires forall u :: Evident(db', proc', u) ==> Evident(db, proc, u) && ActiveTemp(plan, db', u) == ActiveTemp(plan, db, u)
    ensures TempsOwned(plan, db', proc')
  {
  }
}
