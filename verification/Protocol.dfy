/** The commit and recovery protocol as a step machine: what `migrate` and `resume` do to the database and to the target
    directory, one transaction or one file call at a time, with the process able to die between any two steps.
    Sources: src/pipeline/migration_service.cpp, src/app/migration_attempt_preparer.cpp, src/pipeline/recovery_service.cpp,
    src/pipeline/pipeline_shared.cpp. */
module Protocol {
  import opened Common
  import opened Tasks
  import opened TaskTables
  import opened Reconciler
  import opened TempNames

  /** One frozen plan asset with the task derived from it (TaskSpecForPlanAsset). */
  datatype Asset = Asset(spec: TaskSpec, identity: FileIdentity)

  /** The frozen plan; `order` is the artifact order of its task ids and `hash` stands for BLAKE3. */
  datatype Plan = Plan(id: string, order: seq<string>, assets: map<string, Asset>, hash: HashFunction)

  datatype Source = Missing | Present(identity: FileIdentity, content: Bytes)

  datatype World = World(
    materialized: bool,
    db: Tables,
    rootExists: bool,
    files: map<string, Bytes>,
    sources: map<string, Source>,
    proc: Proc)

  /** The process holding the plan lock; everything here is lost when it dies. */
  datatype Proc =
    | Idle
    | MigrateStarting
    | MigrateReadying
    | Migrating(epoch: nat, workers: map<string, Worker>)
    | Resuming(epoch: nat, todo: seq<string>, step: RecoverStep)

  /** A claimed task in flight. `touched` records that its source changed after it was opened. */
  datatype Worker = Worker(attempt: string, touched: bool, pc: WorkerPc)

  datatype WorkerPc =
    | Queued
    | Opened
    | IntentMarked
    | Copying
    | Copied(size: nat, digest: Digest)
    | TempMarked(size: nat, digest: Digest)
    | Checked(size: nat, digest: Digest)
    | Failing(code: Code)

  /** What recover_one has read about the task it works on. */
  datatype Case = Case(task: string, attempt: string, owner: nat, receipt: Option<VerifiedReceipt>)

  datatype RecoverStep =
    | Pick
    | Loaded(c: Case)
    | SourceSeen(c: Case, seen: ObservedFileState)
    | TempSeen(c: Case, seen: ObservedFileState)
    | ConfirmFinal(c: Case, cleanup: bool)
    | ConfirmTemp(c: Case)
    | UnlinkTemp(c: Case)
    | RecheckTemp(c: Case)
    | RenameTemp(c: Case)
    | Settle(c: Case, verdict: Verdict)

  datatype Label =
    | Stop
    | SourceChanges(task: string, source: Source)
    | MigrateLock
    | MigrateMaterialize
    | MigrateCheck
    | MigrateReady(task: string)
    | MigrateEpoch
    | MigrateClaim(task: string, taken: set<string>)
    | WorkerOpen(task: string)
    | WorkerIntent(task: string)
    | WorkerCreate(task: string)
    | WorkerWrite(task: string, content: Bytes)
    | WorkerCopied(task: string, size: nat, digest: Digest)
    | WorkerTempWritten(task: string)
    | WorkerVerify(task: string)
    | WorkerReceipt(task: string)
    | WorkerFail(task: string, code: Code)
    | WorkerRetry(task: string)
    | WorkerGiveUp(task: string)
    | ResumeStart
    | ResumePick
    | ResumeSource
    | ResumeTemp
    | ResumeFinal
    | ResumeConfirmFinal
    | ResumeConfirmTemp
    | ResumeUnreadable
    | ResumeUnlink
    | ResumeRecheck
    | ResumeRename
    | ResumeSettle
    | ResumeSkip

  predicate SingleComponent(name: string) {
    '/' !in name
  }

  function TempName(plan: Plan, task: string, attempt: string): string {
    TempNameFor(plan.hash, plan.id, task, attempt)
  }

  /** st_size is the length of the content. */
  predicate SourceOk(source: Source) {
    source.Present? ==> |source.content| == source.identity.size
  }

  // ---------------------------------------------------------------- migrate

  /** MaterializePlan's loop: the rows after the first k assets, inserted as PLANNED and made READY. */
  function Materialize(plan: Plan, k: nat): Outcome<Tables>
    requires k <= |plan.order| && forall t :: t in plan.order ==> t in plan.assets
  {
    if k == 0 then Ok(EMPTY)
    else
      var before := Materialize(plan, k - 1);
      if before.Err? then before
      else
        var spec := plan.assets[plan.order[k - 1]].spec;
        var added := AddTask(before.value, spec);
        if added.Err? then added else SetReady(added.value, spec.id)
  }

  lemma {:induction false} MaterializeFails(plan: Plan, j: nat, k: nat)
    requires j <= k <= |plan.order| && (forall t :: t in plan.order ==> t in plan.assets) && Materialize(plan, j).Err?
    ensures Materialize(plan, k) == Materialize(plan, j)
    decreases k
  {
    hide AddTask, SetReady;
    if j < k {
      MaterializeFails(plan, j, k - 1);
    }
  }

  /** The insert loop of MaterializePlan; the first failure rolls the transaction back. */
  method InsertPlanRows(plan: Plan) returns (rows: Outcome<Tables>)
    requires forall t :: t in plan.order ==> t in plan.assets
    ensures rows == Materialize(plan, |plan.order|)
  {
    hide AddTask, SetReady;
    var db := EMPTY;
    for k := 0 to |plan.order|
      invariant Materialize(plan, k) == Ok(db)
    {
      var spec := plan.assets[plan.order[k]].spec;
      var added := AddTask(db, spec);
      var ready := if added.Ok? then SetReady(added.value, spec.id) else added;
      if ready.Err? {
        MaterializeFails(plan, k + 1, |plan.order|);
        return ready;
      }
      db := ready.value;
    }
    return Ok(db);
  }

  predicate NoneRunning(db: Tables) {
    forall t :: t in db.tasks ==> db.tasks[t].state != Running
  }

  ghost predicate PlanShape(plan: Plan) {
    && (forall t :: t in plan.order <==> t in plan.assets)
    && (forall t :: t in plan.assets ==> plan.assets[t].spec.id == t && plan.assets[t].spec.kind == MigrateFile)
  }

  /** ClaimNextReady with a generated attempt id, and a worker for the claimed task. */
  ghost function ClaimNext(plan: Plan, w: World, t: string, taken: set<string>): Option<World> {
    if !w.proc.Migrating? || !IsNextReady(w.db, t) then None
    else
      var attempt := GeneratedAttemptId(plan.id, t, w.db.tasks[t].attemptCount + 1);
      var claimed := Claim(w.db, t, w.proc.epoch, attempt, taken);
      if claimed.Err? then None
      else Some(w.(db := claimed.value, proc := w.proc.(workers := w.proc.workers[t := Worker(attempt, false, Queued)])))
  }

  /** One transaction writes every row of the plan, or none does. */
  ghost function MaterializeNext(plan: Plan, w: World): Option<World>
    requires PlanShape(plan)
  {
    if !w.proc.MigrateStarting? then None
    else if w.materialized then Some(w)
    else
      var rows := Materialize(plan, |plan.order|);
      if rows.Ok? then Some(w.(materialized := true, db := rows.value)) else None
  }

  ghost function MigrateNext(plan: Plan, w: World, l: Label): Option<World>
    requires PlanShape(plan)
  {
    match l
    case MigrateLock => if w.proc.Idle? then Some(w.(proc := MigrateStarting)) else None
    case MigrateMaterialize => MaterializeNext(plan, w)
    case MigrateCheck =>
      if w.proc.MigrateStarting? && w.materialized && NoneRunning(w.db) then Some(w.(proc := MigrateReadying)) else None
    case MigrateReady(t) =>
      if w.proc.MigrateReadying? && t in plan.assets && t in w.db.tasks && w.db.tasks[t].state == Retryable
         && SetReady(w.db, t).Ok?
      then Some(w.(db := SetReady(w.db, t).value)) else None
    case MigrateEpoch =>
      if w.proc.MigrateReadying? && AcquireEpoch(w.db).Ok? then
        var db := AcquireEpoch(w.db).value;
        Some(w.(db := db, proc := Migrating(db.epoch, map[])))
      else None
    case MigrateClaim(t, taken) => ClaimNext(plan, w, t, taken)
    case _ => None
  }

  function SetPc(w: World, t: string, pc: WorkerPc): World
    requires w.proc.Migrating? && t in w.proc.workers
  {
    w.(proc := w.proc.(workers := w.proc.workers[t := w.proc.workers[t].(pc := pc)]))
  }

  function DropWorker(w: World, t: string): World
    requires w.proc.Migrating?
  {
    w.(proc := w.proc.(workers := w.proc.workers - {t}))
  }

  function ReceiptFor(plan: Plan, t: string, attempt: string, epoch: nat, size: nat, digest: Digest): VerifiedReceipt
    requires t in plan.assets
  {
    VerifiedReceipt(t, attempt, epoch, TempName(plan, t, attempt), plan.assets[t].spec.target, size, Some(digest), digest,
                    Some(plan.assets[t].identity))
  }

  /** An uninterrupted copy of an unchanged source reproduces it (the theorem of the copy engines);
      of a changing source nothing is known. */
  predicate CopyResultPossible(plan: Plan, w: World, t: string, temp: string, worker: Worker, size: nat, digest: Digest) {
    worker.touched ||
    (t in w.sources && w.sources[t].Present? && temp in w.files && w.files[temp] == w.sources[t].content
     && size == |w.sources[t].content| && digest == plan.hash(w.sources[t].content))
  }

  /** A worker step that is one transaction. */
  function WorkerRowNext(plan: Plan, w: World, t: string, l: Label): Option<World>
    requires w.proc.Migrating? && t in w.proc.workers && t in plan.assets
  {
    var worker, epoch := w.proc.workers[t], w.proc.epoch;
    match l
    case WorkerIntent(_) =>
      var r := Advance(w.db, t, epoch, worker.attempt, CommitIntent);
      if worker.pc == Opened && SingleComponent(plan.assets[t].spec.target) && r.Ok? then
        Some(SetPc(w.(db := r.value), t, IntentMarked))
      else None
    case WorkerTempWritten(_) =>
      var r := Advance(w.db, t, epoch, worker.attempt, TempWritten);
      if worker.pc.Copied? && r.Ok? then
        Some(SetPc(w.(db := r.value), t, TempMarked(worker.pc.size, worker.pc.digest)))
      else None
    case WorkerReceipt(_) =>
      if worker.pc.Checked? then
        var r := PersistReceipt(w.db, ReceiptFor(plan, t, worker.attempt, epoch, worker.pc.size, worker.pc.digest));
        if r.Ok? then Some(DropWorker(w.(db := r.value), t)) else None
      else None
    case WorkerRetry(_) =>
      if worker.pc.Failing? then
        var r := Finish(w.db, t, epoch, worker.attempt, Some(worker.pc.code));
        if r.Ok? then Some(DropWorker(w.(db := r.value), t)) else None
      else None
    case _ => None
  }

  /** A worker step that is a file call, a check, or a failure noticed by the worker. */
  function WorkerFileNext(plan: Plan, w: World, t: string, l: Label): Option<World>
    requires w.proc.Migrating? && t in w.proc.workers && t in plan.assets
  {
    var worker := w.proc.workers[t];
    var temp := TempName(plan, t, worker.attempt);
    match l
    case WorkerOpen(_) =>
      if worker.pc == Queued && t in w.sources && w.sources[t].Present? && w.sources[t].identity == plan.assets[t].identity then
        Some(w.(rootExists := true,
                proc := w.proc.(workers := w.proc.workers[t := Worker(worker.attempt, false, Opened)])))
      else None
    case WorkerCreate(_) =>
      if worker.pc == IntentMarked && temp !in w.files then
        Some(SetPc(w.(files := w.files[temp := []]), t, Copying))
      else None
    case WorkerWrite(_, content) =>
      if worker.pc == Copying then Some(w.(files := w.files[temp := content])) else None
    case WorkerCopied(_, size, digest) =>
      if worker.pc == Copying && CopyResultPossible(plan, w, t, temp, worker, size, digest) then
        Some(SetPc(w, t, Copied(size, digest)))
      else None
    case WorkerVerify(_) =>
      if worker.pc.TempMarked? && temp in w.files && |w.files[temp]| == worker.pc.size
         && plan.hash(w.files[temp]) == worker.pc.digest then
        Some(SetPc(w, t, Checked(worker.pc.size, worker.pc.digest)))
      else None
    case WorkerFail(_, code) =>
      if worker.pc.Failing? then None else Some(SetPc(w, t, Failing(code)))
    case WorkerGiveUp(_) =>
      if worker.pc.Failing? then Some(DropWorker(w, t)) else None
    case _ => None
  }

  predicate IsRowLabel(l: Label) {
    l.WorkerIntent? || l.WorkerTempWritten? || l.WorkerReceipt? || l.WorkerRetry?
  }

  function WorkerNext(plan: Plan, w: World, t: string, l: Label): Option<World> {
    if !w.proc.Migrating? || t !in w.proc.workers || t !in plan.assets then None
    else if IsRowLabel(l) then WorkerRowNext(plan, w, t, l) else WorkerFileNext(plan, w, t, l)
  }

  // ---------------------------------------------------------------- resume

  predicate IsRunning(db: Tables, t: string) {
    t in db.tasks && db.tasks[t].state == Running
  }

  /** running_indices: the RUNNING tasks in artifact order. */
  function RunningIn(db: Tables, order: seq<string>): seq<string> {
    if order == [] then []
    else (if IsRunning(db, order[0]) then [order[0]] else []) + RunningIn(db, order[1..])
  }

  /** receipt_matches_plan. */
  predicate MatchesPlan(plan: Plan, c: Case)
    requires c.task in plan.assets && c.receipt.Some?
  {
    var r, asset := c.receipt.value, plan.assets[c.task];
    && r.task == c.task && r.attempt == c.attempt && r.ownerEpoch == c.owner
    && r.finalPath == asset.spec.target
    && r.contentSize == asset.identity.size
    && r.sourceIdentity == Some(asset.identity)
    && r.sourceDigest == Some(r.targetDigest)
  }

  function IntentFor(plan: Plan, c: Case): Intent
    requires c.task in plan.assets
  {
    Intent(c.task, c.attempt, c.owner,
           if c.receipt.Some? then c.receipt.value.tempPath else TempName(plan, c.task, c.attempt),
           plan.assets[c.task].spec.target)
  }

  function ObserveSource(plan: Plan, sources: map<string, Source>, t: string): ObservedFileState
    requires t in plan.assets
  {
    if t !in sources || sources[t].Missing? then NOTHING_OBSERVED
    else if sources[t].identity == plan.assets[t].identity then NOTHING_OBSERVED.(sourceAvailable := true)
    else NOTHING_OBSERVED.(sourceChanged := true)
  }

  function ObserveTemp(plan: Plan, files: map<string, Bytes>, name: string, seen: ObservedFileState): ObservedFileState {
    if name in files then
      seen.(tempExists := true, tempSize := |files[name]|, tempDigest := Some(plan.hash(files[name])))
    else seen
  }

  function ObserveFinal(plan: Plan, files: map<string, Bytes>, name: string, seen: ObservedFileState): ObservedFileState {
    if name in files then
      seen.(finalExists := true, finalSize := |files[name]|, finalDigest := Some(plan.hash(files[name])))
    else seen
  }

  /** A file whose size and digest are those of the receipt. */
  predicate Shows(plan: Plan, files: map<string, Bytes>, name: string, r: VerifiedReceipt) {
    name in files && |files[name]| == r.contentSize && plan.hash(files[name]) == r.targetDigest
  }

  function StepFor(c: Case, action: Action): Option<RecoverStep> {
    match action
    case RetryTask => Some(Settle(c, RecoverRetryable))
    case TargetConflict => Some(Settle(c, RecoverInconsistent))
    case DeclareInconsistent => Some(Settle(c, RecoverInconsistent))
    case AdoptFinal => Some(ConfirmFinal(c, false))
    case AdoptFinalAndCleanupTemp => Some(ConfirmFinal(c, true))
    case ResumeCommitFromTemp => Some(RecheckTemp(c))
    case ReverifyCommitted => None
  }

  function SetStep(w: World, step: RecoverStep): World
    requires w.proc.Resuming?
  {
    w.(proc := w.proc.(step := step))
  }

  function CaseFor(db: Tables, t: string): Case
    requires t in db.tasks && db.tasks[t].owner.Some? && db.tasks[t].active.Some?
  {
    var row := db.tasks[t];
    var key := (t, row.active.value);
    Case(t, row.active.value, row.owner.value, if key in db.receipts then Some(db.receipts[key]) else None)
  }

  function PickNext(plan: Plan, w: World): Option<World>
    requires w.proc.Resuming?
  {
    if w.proc.step != Pick || w.proc.todo == [] then None
    else
      var t := w.proc.todo[0];
      if t !in plan.assets || !IsRunning(w.db, t) || w.db.tasks[t].owner.None? || w.db.tasks[t].active.None?
         || !SingleComponent(plan.assets[t].spec.target) then None
      else
        var c := CaseFor(w.db, t);
        var step := if c.receipt.Some? && !MatchesPlan(plan, c) then Settle(c, RecoverInconsistent) else Loaded(c);
        Some(w.(proc := w.proc.(todo := w.proc.todo[1..], step := step)))
  }

  function DecideNext(plan: Plan, w: World, c: Case, seen: ObservedFileState): Option<World>
    requires w.proc.Resuming? && c.task in plan.assets && c.task in w.db.tasks
  {
    var intent := IntentFor(plan, c);
    var all := ObserveFinal(plan, w.files, intent.finalPath, seen);
    var decision := Decide(plan.assets[c.task].spec, RuntimeOf(w.db, c.task), intent, c.receipt, all);
    if decision.Err? || StepFor(c, decision.value).None? then None
    else Some(SetStep(w, StepFor(c, decision.value).value))
  }

  /** The list of RUNNING tasks, then a newer epoch. */
  function StartNext(plan: Plan, w: World): Option<World> {
    var todo := RunningIn(w.db, plan.order);
    if w.proc.Idle? && w.materialized && todo != [] && AcquireEpoch(w.db).Ok? then
      var db := AcquireEpoch(w.db).value;
      Some(w.(db := db, proc := Resuming(db.epoch, todo, Pick)))
    else None
  }

  function ResumeNext(plan: Plan, w: World, l: Label): Option<World> {
    if l == ResumeStart then StartNext(plan, w)
    else if !w.proc.Resuming? then None
    else if l == ResumePick then PickNext(plan, w)
    else if l == ResumeSkip then
      if w.proc.step != Pick then Some(SetStep(w, Pick))
      else if w.proc.todo != [] then Some(w.(proc := w.proc.(todo := w.proc.todo[1..]))) else None
    else if w.proc.step == Pick || w.proc.step.c.task !in plan.assets || w.proc.step.c.task !in w.db.tasks then None
    else RecoverOneNext(plan, w, l)
  }

  function RecoverOneNext(plan: Plan, w: World, l: Label): Option<World>
    requires w.proc.Resuming? && w.proc.step != Pick
    requires w.proc.step.c.task in plan.assets && w.proc.step.c.task in w.db.tasks
  {
    var step := w.proc.step;
    var c := step.c;
    var intent := IntentFor(plan, c);
    match l
    case ResumeSource =>
      if step.Loaded? && w.rootExists then Some(SetStep(w, SourceSeen(c, ObserveSource(plan, w.sources, c.task)))) else None
    case ResumeTemp =>
      if step.SourceSeen? then Some(SetStep(w, TempSeen(c, ObserveTemp(plan, w.files, intent.tempPath, step.seen)))) else None
    case ResumeFinal =>
      if step.TempSeen? then DecideNext(plan, w, c, step.seen) else None
    case ResumeConfirmFinal =>
      if !step.ConfirmFinal? || c.receipt.None? then None
      else if !Shows(plan, w.files, intent.finalPath, c.receipt.value) then Some(SetStep(w, Settle(c, RecoverRetryable)))
      else Some(SetStep(w, if step.cleanup then ConfirmTemp(c) else Settle(c, RecoverSucceeded)))
    case ResumeConfirmTemp =>
      if !step.ConfirmTemp? || c.receipt.None? then None
      else if !Shows(plan, w.files, intent.tempPath, c.receipt.value) then Some(SetStep(w, Settle(c, RecoverRetryable)))
      else Some(SetStep(w, UnlinkTemp(c)))
    case ResumeUnreadable =>
      if step.ConfirmFinal? || step.ConfirmTemp? then Some(SetStep(w, Settle(c, RecoverRetryable))) else None
    case ResumeUnlink =>
      if step.UnlinkTemp? && intent.tempPath in w.files then
        Some(SetStep(w.(files := w.files - {intent.tempPath}), Settle(c, RecoverSucceeded)))
      else None
    case ResumeRecheck =>
      if !step.RecheckTemp? || c.receipt.None? || intent.tempPath !in w.files then None
      else if !Shows(plan, w.files, intent.tempPath, c.receipt.value) then Some(SetStep(w, Settle(c, RecoverRetryable)))
      else Some(SetStep(w, RenameTemp(c)))
    case ResumeRename =>
      if step.RenameTemp? && intent.tempPath in w.files && intent.finalPath !in w.files then
        Some(SetStep(w.(files := (w.files - {intent.tempPath})[intent.finalPath := w.files[intent.tempPath]]),
                     Settle(c, RecoverSucceeded)))
      else None
    case ResumeSettle =>
      if step.Settle? then
        var r := Recover(w.db, c.task, w.proc.epoch, c.owner, c.attempt, step.verdict);
        if r.Ok? then Some(SetStep(w.(db := r.value), Pick)) else None
      else None
    case _ => None
  }

  // ---------------------------------------------------------------- the machine

  function TouchWorker(proc: Proc, t: string): Proc {
    if proc.Migrating? && t in proc.workers then
      proc.(workers := proc.workers[t := proc.workers[t].(touched := true)])
    else proc
  }

  predicate IsWorkerLabel(l: Label) {
    l.WorkerOpen? || l.WorkerIntent? || l.WorkerCreate? || l.WorkerWrite? || l.WorkerCopied? || l.WorkerTempWritten?
    || l.WorkerVerify? || l.WorkerReceipt? || l.WorkerFail? || l.WorkerRetry? || l.WorkerGiveUp?
  }

  predicate IsMigrateLabel(l: Label) {
    l.MigrateLock? || l.MigrateMaterialize? || l.MigrateCheck? || l.MigrateReady? || l.MigrateEpoch? || l.MigrateClaim?
  }

  /** The world after step `l`, or None when the step is not possible here. */
  ghost function Next(plan: Plan, w: World, l: Label): Option<World>
    requires PlanShape(plan)
  {
    if l.Stop? then Some(w.(proc := Idle))
    else if l.SourceChanges? then
      if SourceOk(l.source) then
        Some(w.(sources := w.sources[l.task := l.source], proc := TouchWorker(w.proc, l.task)))
      else None
    else if IsMigrateLabel(l) then MigrateNext(plan, w, l)
    else if IsWorkerLabel(l) then WorkerNext(plan, w, l.task, l)
    else ResumeNext(plan, w, l)
  }

  /** Nothing has run yet; the target directory may already hold anything. */
  ghost predicate Initial(w: World) {
    && !w.materialized && w.db == EMPTY && w.proc == Idle
    && (w.files != map[] ==> w.rootExists)
    && forall t :: t in w.sources ==> SourceOk(w.sources[t])
  }

  /** `trace` is a run: it starts at `trace[0]` and takes step labels[i] from state i to state i+1. */
  ghost predicate IsRun(plan: Plan, trace: seq<World>, labels: seq<Label>)
    requires PlanShape(plan)
  {
    |trace| == |labels| + 1 &&
    forall i {:trigger labels[i]} :: 0 <= i < |labels| ==> Next(plan, trace[i], labels[i]) == Some(trace[i + 1])
  }
}
