# PhotoBridge: a verified model

PhotoBridge migrates photo archives and survives being killed at any moment. This project models its hard parts in
Dafny 4.11 and proves what they are for. `dafny verify dfyconfig.toml` checks everything.

## What is modelled

**The commit and recovery protocol.** `migrate` takes an execution epoch, claims tasks and drives each attempt through
commit intent, temporary file, independent verification and durable receipt; `resume` takes a newer epoch, looks at the
files, applies a pure decision rule and publishes by no-replace rename or gives the task back. `Protocol` is this as a
state machine: every SQL transaction is one step, every file call is one step, several workers interleave, sources may
change, and the process may die between any two steps (the lock, the queue and all local state are lost; rows and files
stay). `PlanRows` and `ProtocolRows` prove what holds of the rows in every run of every plan, `ProtocolSafety` and
`ProtocolRuns` what the files add to it, `FileOrigins` where those files come from. `QuietInvariant`, `QuietMigrate`,
`QuietResume` and `Convergence` prove what undisturbed runs converge to. `RunKit`, `MigrateRounds`, `AttemptRuns` and
`ResumeRuns` build runs step by step; `LostTarget`, `ReadErrors` and `NameClashes` use them to show that the two theorems
cannot be improved. `MigrationAttempt`, `RecoveryService` and `Sites` are the service code in the
form of the source: methods over a database and a directory, in which any call may fail, each call recorded as a step of
the machine, so that all theorems about runs hold of them.

**What lies under it.** `TaskTables` and `TableInvariants` give every repository transaction as a function of the rows and
prove ownership, attempt accounting, epoch fencing and dependency order over all sequences of calls. `Repository` is the
class that runs those transactions, with rollback and write batches; `RowEffects` says of each transaction, in terms of the
rows before and after it alone, when it succeeds and what it changes; `DbWriter` is the worker thread that groups queued
commands. `Dependencies` is the recursive ancestor query. `IoUringState` and `IoUringCopy` are the io_uring copy engine,
`CopyModel` the synchronous copy. `Reconciler` is the decision rule.

**Canonical forms.** `Components`, `AssociationGraphs` and `LogicalAssets` are union-find and logical asset ids;
`CanonicalPlan` the canonical payload; `TaskKeys` and `TempNames` the derived names; `Base64`, `Decimal`, `Digests` and
`PlanArtifact` the plan artifact.

**Uploads.** `UploadNames` and `UploadStore` are the upload session store.

BLAKE3 is a function parameter of which nothing is assumed; where a statement needs two digests to differ, it says "or the
hash collides" and names the colliding inputs. Strings stand for byte strings.

## Results about the code worth knowing

- Safety has an exact condition (`LostTarget.SafeExactly`). A target must not be the temporary name that some claim of
  some task generates, when that task has a target of one component and a source of the same size. The code does not
  check it, and a plan file can name its targets and its id freely. If it is violated, resume takes the temporary file of
  one task for the published target of the other, and then renames it away (`SucceededTargetDisappears`), or removes it as
  its own temporary file (`LosesOwn`). The damage is permanent: the task stays SUCCEEDED in every continuation
  (`RunRemembers`). `OrdinaryTargetsSuffice` gives a check on the plan that is enough. Files that were in the target
  directory before are safe whatever they are called (`UserFilesSurvive`).
- Rows are in order whatever the names are: transition tables, ownership and receipts need no hypothesis on the plan
  (`RunRows`, `RunEvolves`, `RunRemembers`).
- A task whose target has several components is claimed and then refused by the attempt. If the process dies in between,
  `resume` refuses it and `migrate` refuses to start, for ever (`MultiComponentStuckForever`). Convergence is therefore
  stated for targets of one component, and exactly those (`ResumeConverges`).
- When reading the final file fails during its confirmation, `recover_one` gives back a task that is already published
  (src/pipeline/recovery_service.cpp:342-352). If the next attempt dies before its receipt, the following resume finds a
  target without a receipt and declares the task INCONSISTENT, over unchanged sources and with the target intact: such a
  run exists for every task that can be attempted (`ReadErrorLeadsToInconsistent`). Nothing else makes a task INCONSISTENT
  in an undisturbed run (`InconsistentOnlyAfterReadError`), and `ResumeConverges` says exactly which resume does it.
- A run is undisturbed when sources stay, targets were absent, no target is a temporary name that a task with a
  one-component target generates, and no two tasks share a target that one of them can publish. The last two are
  conditions on the plan that the reader of a plan file does not check, and they are exactly what is needed: without
  either, a task can become INCONSISTENT over unchanged sources although every file could be read (`CleanExactly`).
- The decimal overflow guard accepts some numbers above 2^64 (`WrapAcceptedForOutOfRange`); it is exact if and only if the
  number fits (`ParseExactIffInRange`).
- The base64 decoder ignores left-over pad bits; encode-after-decode is the identity on exactly the accepted texts in which
  they are 0 (`PadBitsIgnored`).
- A varied upload name can exceed the 255 bytes asked of the original; `SuffixCanExceedLimit` and `LimitKeptExactly` say
  when, `LimitKept` gives a condition on the request that rules it out.

## Model

| member | source | states |
|---|---|---|
| ProtocolRuns.SucceededForever | src/pipeline/recovery_service.cpp:127-448 | In every run of attempts, crashes, source changes and resumes of a plan without endangered targets, a SUCCEEDED task has a committed attempt whose receipt matches the frozen plan and a target with the receipt's size and digest; at every later state the task is SUCCEEDED, the receipt the same and the target byte for byte the same |
| LostTarget.SafeExactly | src/pipeline/recovery_service.cpp:314-431 | A plan whose rows can be written is safe, in that no run ever leaves a SUCCEEDED task without its target, if and only if no target of it is endangered |
| LostTarget.SucceededTargetDisappears | src/pipeline/recovery_service.cpp:390-431 | For every endangered target of another task, when the two tasks' targets and the temporary names of their n-th claims differ: a run from an empty directory in which the task is SUCCEEDED with its target there, and its continuation in which the target is gone |
| LostTarget.LosesOwn | src/pipeline/recovery_service.cpp:353-378 | For every task whose target is its own temporary name: a run in which its cleanup removes the target and the task is then marked SUCCEEDED |
| LostTarget.ApartUnlessCollision | src/pipeline/pipeline_shared.cpp:262-286 | The temporary names of the n-th claims of two tasks, byte strings all, differ unless the hash collides on inputs that are named |
| ProtocolRuns.ForeignFilesSurvive | src/pipeline/recovery_service.cpp:314-431 | From any state of any run of any plan on, no file whose name no claim of the plan generates for a temporary file is overwritten or removed |
| ProtocolRuns.PublishedFilesSurvive | src/pipeline/recovery_service.cpp:314-431 | From any state of a run of a plan without endangered targets on, no published target is overwritten or removed |
| FileOrigins.UserFilesSurvive | src/app/migration_attempt_preparer.cpp:47-48 | No run ever overwrites or removes a file that was in the target directory before it, whatever its name and without any hypothesis on the plan |
| FileOrigins.RetryGetsFreshTemp | src/app/task_runtime_repository.cpp:1230-1233 | In every run of every plan with byte-string ids, a worker that finds the name of its temporary file taken has met a file from before the run, a target of the plan with that name, or two inputs on which the hash collides |
| ProtocolSafety.StepKeepsInv | src/pipeline/migration_service.cpp:89-251 | Every step of migrate and resume, every crash and every source change keeps the safety invariant (receipt evidence, attempt lifecycle, ownership by workers, justification of the recovery step in hand) and every published target; only the removal and the rename of a temporary file need that no target is endangered |
| ProtocolRows.RunRows | src/pipeline/migration_service.cpp:89-251 | In every run of every plan the rows are well-formed, every worker owns its task and stands where its attempt row says, and every recovery step in hand is justified by the rows |
| ProtocolRows.RunEvolves | src/model/task.cpp:154-222 | In every run of every plan each change of a task or attempt state is an edge of its transition table, new attempts start RUNNING, receipts are written once and the epoch never falls, although receipt, finish and recovery writes do not consult the tables |
| ProtocolRows.RunRemembers | src/model/task.cpp:169-175 | In every run of every plan SUCCEEDED and INCONSISTENT are never left, committed attempts stay committed, receipts never change |
| ProtocolRuns.DecisionExact | src/filesystem/reconciler.cpp:91-162 | Exactly when a RUNNING task is retried, adopted, published or declared INCONSISTENT, as a table over what its source is (missing, as planned, changed) and what the two names hold; a changed source always ends INCONSISTENT |
| ProtocolSafety.OrdinaryTargetsSuffice | src/pipeline/pipeline_shared.cpp:262-286 | A plan none of whose targets has the prefix and suffix of temporary names has no target that is a temporary name, so no endangered one, when digests are not empty |
| PlanRows.MaterializeRows | src/pipeline/pipeline_shared.cpp:384-555 | Materialisation inserts exactly the plan's tasks, all READY, in one transaction |
| Protocol.InsertPlanRows | src/pipeline/pipeline_shared.cpp:384-555 | The insert loop gives the rows of the materialised plan or the first error |
| Convergence.ResumeConverges | src/pipeline/recovery_service.cpp:102-125 | In an undisturbed run, from every state that crashes and failing calls can lead to, a resume that runs to its end without an error turns each RUNNING task with a receipt into SUCCEEDED; one without becomes INCONSISTENT if its target is published, which takes an earlier read error, and RETRYABLE otherwise; only targets of several components stay RUNNING |
| Convergence.InconsistentOnlyAfterReadError | src/filesystem/reconciler.cpp:97-162 | In an undisturbed run a task is INCONSISTENT only if an earlier resume could not read its files while it confirmed its target, and a published target always holds exactly the source bytes |
| NameClashes.CleanExactly | src/pipeline/recovery_service.cpp:127-448 | For every plan whose rows can be written: over unchanged sources and absent targets, only a read error can make a task INCONSISTENT if and only if no target is a temporary name and no two tasks share a target that one of them can publish |
| NameClashes.ClashIsUnclean | src/filesystem/reconciler.cpp:97-162 | If the target of a task is the temporary name of some claim, there is such a run without a read error in which the task becomes INCONSISTENT |
| NameClashes.SharedIsUnclean | src/filesystem/reconciler.cpp:97-162 | If two tasks share a target that one of them can publish, there is such a run without a read error in which the other becomes INCONSISTENT |
| ReadErrors.ReadErrorLeadsToInconsistent | src/pipeline/recovery_service.cpp:342-352 | For every plan without name clashes and shared targets and every task that can be attempted there is such a run, over unchanged sources and an empty directory, at whose end the task is INCONSISTENT and its target intact |
| ReadErrors.GivesBackPublished | src/pipeline/recovery_service.cpp:333-352 | A resume that cannot read a published target gives its task back as RETRYABLE |
| ResumeRuns.NthReceipt | src/pipeline/migration_service.cpp:89-251 | The n-th claim of every task that can be attempted can reach its receipt, for every n that fits the attempt counter |
| Convergence.MultiComponentStuckForever | src/app/migration_attempt_preparer.cpp:38-41 | In every run of every plan: if the process dies while a worker has a task whose target has several components, the task stays RUNNING in every continuation and nothing of the plan is ever claimed again |
| Convergence.CrashLeavesStuck | src/app/migration_attempt_preparer.cpp:38-41 | From every state in which rows and process fit, a crash while a worker has such a task leads to the stuck state |
| QuietMigrate.CreatedApart | src/app/migration_attempt_preparer.cpp:47-48 | Exclusive creation of a temporary file succeeds only on a name no live attempt still needs, whatever the hash |
| QuietResume.DecideQuiet | src/filesystem/reconciler.cpp:97-162 | In an undisturbed run the decision is to publish or adopt with a receipt, and without one to retry unless the target is published |
| RecoveryService.Execute | src/pipeline/recovery_service.cpp:72-448 | The resume service: every call is a step of the machine; it returns success exactly when something was RUNNING and all of it has become SUCCEEDED; without a failing call no task with a target of one component is left RUNNING, each whose source has changed is INCONSISTENT and an error is returned, and in an undisturbed run each has become what was promised |
| RecoveryService.RecoverOne | src/pipeline/recovery_service.cpp:127-440 | One recovered task, with a possible failure of every call: success means SUCCEEDED with a target that shows the receipt, unless the target is the task's own temporary name, and an error that it is not SUCCEEDED; the other tasks' rows are untouched. Without a failing call the rows, the files and the answer are the ones of a table over receipt, source, target and temporary file; a task with a target of one component whose source has changed is INCONSISTENT, no file is touched and the answer is Internal |
| RecoveryService.SizeDecides | src/pipeline/recovery_service.cpp:172-194 | Of the receipts that the rows can hold, exactly those with another size than the plan's fail to match it |
| RecoveryService.CommitFromTemp | src/pipeline/recovery_service.cpp:390-431 | Publication by no-replace rename after a last check of the bytes; success means SUCCEEDED and the target shows the receipt; without a failing call it succeeds exactly when the temporary file still shows the receipt, and moves it, and otherwise gives the task back |
| RecoveryService.AdoptFinalFile | src/pipeline/recovery_service.cpp:330-389 | Adoption of a verified target, with cleanup of the temporary file; success means SUCCEEDED and the target shows the receipt, unless it is the task's own temporary name; without a failing call it succeeds exactly when the files that are to show the receipt still do, and nothing but the temporary file is removed |
| RecoveryService.ListRunning | src/pipeline/recovery_service.cpp:103-117 | Exactly the RUNNING tasks, at increasing places of the artifact's order |
| MigrationAttempt.ExecuteClaimedTask | src/pipeline/migration_service.cpp:20-83 | One claimed task. On success the source is the planned one, the only new file is the temporary one and holds the source bytes, the receipt says so in every field, and the rows changed are that receipt and its attempt. Without a failing call it fails exactly for a missing or changed source, a target of several components or a taken temporary name, each with its error; the task is then RETRYABLE with that error and nobody's, and no other row has changed |
| MigrationAttempt.Prepare | src/app/migration_attempt_preparer.cpp:21-113 | The ordered steps of an attempt; on success the receipt has the size and digest of the source, is new, and the temporary file is the only file written; on an error at most the attempt's own row and its temporary file differ |
| MigrationAttempt.CopyBytes | src/app/migration_attempt_preparer.cpp:50-69 | Whichever engine copies, a successful copy of the file reproduces it and returns its size and digest |
| MigrateQueue.MigrateQueue.Take | src/pipeline/migration_service.cpp:177-189 | A waiting worker takes the oldest item, or returns when nothing is left to come |
| MigrateQueue.MigrateQueue.Push | src/pipeline/migration_service.cpp:207-235 | The queue never holds more than its capacity and keeps the order of claims |
| MigrateQueue.MigrateQueue.NoDeadlock | src/pipeline/migration_service.cpp:177-240 | While some worker has not returned, the producer or some worker can go on |
| MigrateQueue.MigrateQueue.AllExecuted | src/pipeline/migration_service.cpp:236-241 | When all workers have returned, every claimed task has been executed exactly once |
| TableInvariants.RunningHasOneUnfinishedAttempt | src/app/task_runtime_repository.cpp:1167-1321 | After any sequence of calls a task is RUNNING exactly when it has owner and active attempt; then exactly its active attempt is unfinished and carries the owner epoch, otherwise none is unfinished; attempt_count counts its attempt rows; no epoch is ahead of the migration |
| TableInvariants.ApplyKeepsInv | src/app/task_runtime_repository.cpp:405-637 | Every repository call, successful or not, keeps the row invariant |
| TableInvariants.StaleEpochChangesNothing | src/app/task_runtime_repository.cpp:424-436 | Once the epoch has passed e, no claim, advance, receipt, finish or recovery issued under e changes any row, whatever happened in between |
| TableInvariants.EpochsOnlyGrow | src/app/task_runtime_repository.cpp:904-944 | Over any calls the epoch never falls |
| TableInvariants.AcquiredEpochIsNew | src/app/task_runtime_repository.cpp:904-944 | An acquired epoch is above every epoch before it |
| TableInvariants.TaskStatesFollowTable | src/model/task.cpp:154-177 | Every change a repository call makes to a task's state is an edge of the task transition table |
| TableInvariants.SucceededStays | src/model/task.cpp:169-175 | Over any calls SUCCEEDED and INCONSISTENT are never left |
| TableInvariants.DependencyRefusedIffCycle | src/app/task_runtime_repository.cpp:1033-1105 | The dependency graph stays acyclic, and a new edge between two recorded tasks is refused if and only if it would close a cycle |
| TableInvariants.SomeTaskCanProceed | src/app/task_runtime_repository.cpp:1107-1150 | If nothing is RUNNING or ended other than SUCCEEDED and something is unfinished, some unfinished task can be made or found READY |
| TableInvariants.ClaimSeesDependenciesDone | src/app/task_runtime_repository.cpp:1187-1197 | A claim happens only when every recorded dependency has SUCCEEDED, and they stay so |
| Dependencies.Ancestors | src/app/task_runtime_repository.cpp:1046-1071 | The recursive query returns exactly the tasks reachable along dependencies |
| Dependencies.EdgeKeepsAcyclicIff | src/app/task_runtime_repository.cpp:1046-1071 | An edge keeps an acyclic graph acyclic if and only if its end does not already reach its start |
| Repository.TaskRuntimeRepository.AdvanceAttempt | src/app/task_runtime_repository.cpp:647-753 | Either the rows of the specified transaction, or the rows as before, with the specified error unless a statement failed |
| Repository.TaskRuntimeRepository.PersistVerifiedReceipt | src/app/task_runtime_repository.cpp:1528-1673 | The receipt insert with its idempotent and conflicting cases: the receipt is there and its attempt VERIFIED_DURABLE, or nothing has changed |
| Repository.TaskRuntimeRepository.ReleaseTask | src/app/task_runtime_repository.cpp:438-518 | The guarded task update and the attempt update that FinishTask and RecoverTask share |
| Repository.TaskRuntimeRepository.FinishTask | src/app/task_runtime_repository.cpp:405-524 | SUCCEEDED with a COMMITTED attempt, or RETRYABLE with the error, under the current epoch and nobody's afterwards, or nothing |
| Repository.TaskRuntimeRepository.RecoverTask | src/app/task_runtime_repository.cpp:526-637 | A newer epoch settles a task of an older one, or nothing changes |
| Repository.TaskRuntimeRepository.AcquireNextExecutionEpoch | src/app/task_runtime_repository.cpp:904-944 | The next epoch, or nothing |
| Repository.TaskRuntimeRepository.MakeReady | src/app/task_runtime_repository.cpp:1107-1150 | The guarded update to READY |
| Repository.TaskRuntimeRepository.InsertDependency | src/app/task_runtime_repository.cpp:1033-1105 | The cycle query and the guarded insert |
| Repository.TaskRuntimeRepository.SelectNextReady | src/app/task_runtime_repository.cpp:1187-1221 | The READY task with the smallest id among those whose dependencies are all SUCCEEDED, or none if there is none |
| Repository.TaskRuntimeRepository.ClaimNextReady | src/app/task_runtime_repository.cpp:1152-1321 | Claims that task with the supplied attempt id or a generated one and answers its row as it is after the claim: RUNNING under this epoch with the new attempt and one more in its count; or changes nothing |
| Repository.TaskRuntimeRepository.BeginWriteBatch | src/app/task_runtime_repository.cpp:843-868 | Opens a batch only under the plan's current epoch, with the error that explains a refusal; an open batch is refused and left as it is |
| Repository.TaskRuntimeRepository.RollbackWriteBatch | src/app/task_runtime_repository.cpp:884-894 | After it the rows are those before the batch, also when a failed call has already rolled back |
| Repository.TaskRuntimeRepository.Perform | src/app/runtime_db_writer.cpp:134-180 | A command run alone or inside a batch for its plan does exactly what it says to the rows: advances the attempt, records the receipt, gives the task back with the error or claims the next task; no other row and no other plan changes; refused only when its guard fails, and then undone |
| Repository.EffectExactly | src/app/runtime_db_writer.cpp:134-180 | A command succeeds exactly when its guard holds, and then has exactly the effect that is said of the rows before and after it |
| Repository.NextReadyUnique | src/app/task_runtime_repository.cpp:1197 | Only one task can be the next to claim |
| RowEffects.ApplyExactly | src/app/task_runtime_repository.cpp:405-637 | Every repository call succeeds exactly when its guard holds and then changes exactly the rows it is for, both said of the rows alone |
| RowEffects.NextReadyExactly | src/app/task_runtime_repository.cpp:1187-1197 | The ordered query picks the READY task with the smallest id among those with no unfinished dependency |
| DbWriter.RuntimeDbWriter.Run | src/app/runtime_db_writer.cpp:254-340 | When the worker ends, every accepted command has been answered once, in order, the queue is empty, processed equals accepted, and the rows are those of one transaction per OK-answered command |
| DbWriter.RuntimeDbWriter.ExecuteBatch | src/app/runtime_db_writer.cpp:194-247 | A group is committed whole and answered OK, or the rows are as before and all of it is answered with errors |
| DbWriter.RuntimeDbWriter.Execute | src/app/runtime_db_writer.cpp:134-156 | A single command in its own transaction; an error leaves the rows alone |
| DbWriter.SplitGroup | src/app/runtime_db_writer.cpp:265-306 | A group is the longest admissible front of the queue: the same call under one plan and epoch for pairwise different tasks, no claims, at most the maximum size |
| DbWriter.GroupExactly | src/app/runtime_db_writer.cpp:265-306 | What is run as one transaction are exactly the lists of at most the maximum size whose members may pairwise share one |
| DbWriter.OkMeansCommitted | src/app/runtime_db_writer.cpp:245-246 | A caller that got OK has its effect, with its answer, in the serial execution |
| DbWriter.OkMeansPerformed | src/app/runtime_db_writer.cpp:245-246 | A caller that got OK finds in the serial execution that the guard of its command held and that the rows changed as the command says |
| DbWriter.ReplayAppend | src/app/runtime_db_writer.cpp:225-232 | Serial execution of two stretches one after the other is serial execution of both |
| DbWriter.RuntimeDbWriter.Enqueue | src/app/runtime_db_writer.cpp:72-83 | A command is accepted at the end of the queue unless the writer is stopping |
| IoUringCopy.TryCopyAndHash | src/filesystem/io_uring_copy_engine.cpp:63-263 | For every order of completions and every pattern of short transfers, a successful copy leaves the source bytes in the target, feeds them to the hasher in order and returns their digest; it fails only for reasons outside the engine |
| IoUringCopy.CopyEngine.Run | src/filesystem/io_uring_copy_engine.cpp:184-262 | The copy never finds its queue full nor itself ended early |
| IoUringCopy.CopyEngine.OnCompletion | src/filesystem/io_uring_copy_engine.cpp:199-248 | Every successful completion strictly reduces the bytes left to read and write and keeps the engine's invariant; index and phase of a completion always fit |
| IoUringCopy.CopyEngine.Pump | src/filesystem/io_uring_copy_engine.cpp:190-257 | The completion loop ends for every pattern of completions, also after a failure, with nothing in flight unless waiting itself failed |
| IoUringCopy.CopyEngine.HashReady | src/filesystem/io_uring_copy_engine.cpp:161-182 | Every chunk whose turn has come is hashed and its write begun |
| IoUringCopy.CopyEngine.Flush | src/filesystem/io_uring_copy_engine.cpp:115-127 | Everything prepared is submitted, or the submission failed |
| IoUringCopy.AllFree | src/filesystem/io_uring_copy_engine.cpp:190-257 | With nothing in flight every slot is free: the engine never stalls |
| IoUringCopy.Complete | src/filesystem/io_uring_copy_engine.cpp:255-258 | With nothing in flight all chunks are written and hashed and all bytes counted |
| IoUringCopy.CompletionRing | src/filesystem/io_uring_copy_engine.cpp:129-149 | Requests outstanding and slots reading or writing correspond one to one, in flight plus queued is their number |
| IoUringCopy.CopyBothWays | src/filesystem/copy_and_hash.cpp:88-143 | Both engines run on one source: when both succeed they agree in target and result if and only if the given size is the length of the file |
| IoUringState.ChunksPartition | src/filesystem/io_uring_copy_engine.cpp:100-103 | The chunks partition the bytes to be copied |
| IoUringState.ReceiveOk | src/filesystem/io_uring_copy_engine.cpp:228-246 | A read completion keeps the invariant and reduces the work by its bytes |
| IoUringState.SendOk | src/filesystem/io_uring_copy_engine.cpp:228-243 | A write completion keeps the invariant, also of what other writes landed, and reduces the work by its bytes |
| IoUringState.BeginWriteOk | src/filesystem/io_uring_copy_engine.cpp:172-179 | Hashing the next chunk extends the hashed prefix and begins its write |
| CopyModel.CopyAndHash | src/filesystem/copy_and_hash.cpp:88-143 | For every pattern of short reads and writes a successful copy appends the rest of the source to the target and to the hasher and returns its length and digest |
| CopyModel.WriteAll | src/filesystem/copy_and_hash.cpp:18-42 | Short writes are continued until all bytes are out |
| CopyModel.VerifyBinary | src/filesystem/binary_verifier.cpp:17-78 | The whole file is read between two looks at its identity; it is identical exactly when length and digest are the expected ones, and not applicable exactly without an expected digest |
| Components.ComponentsUnique | src/model/association_graph.cpp:135-159 | The list of components is determined by the vertices and the links as sets |
| Components.FindRoot | src/model/association_graph.cpp:89-98 | Path compression returns the root and changes no root; it ends because a parent is never above its child |
| Components.CompressKeepsRoots | src/model/association_graph.cpp:92-96 | Pointing a node at its root changes no root |
| Components.LinkMovesRoots | src/model/association_graph.cpp:131-132 | Linking moves exactly the nodes of the higher root |
| AssociationGraphs.AssociationGraph.BuildLogicalAssets | src/model/association_graph.cpp:82-159 | The member lists of the returned assets are exactly the connected components of the confirmed composition edges: every vertex is in one asset, two vertices share an asset if and only if they are connected; members are in increasing order, assets are ordered by id, and each id is the digest of the asset's own members |
| AssociationGraphs.FindClasses | src/model/association_graph.cpp:84-138 | Union-find over the sorted vertices computes exactly the components; no edge ever loses a vertex |
| AssociationGraphs.Union | src/model/association_graph.cpp:126-132 | One edge joins the trees of its ends and keeps every earlier join |
| AssociationGraphs.OrderDoesNotMatter | src/model/association_graph.cpp:82-159 | Vertices and edges added in any order give the same logical assets |
| AssociationGraphs.FinishIsSorted | src/model/association_graph.cpp:152-157 | The answer is a permutation of the components' assets in the order of their ids |
| AssociationGraphs.IdsTellComponentsApart | src/model/logical_asset.cpp:76-128 | Equal ids mean equal member lists unless the hash collides |
| AssociationGraphs.AssociationGraph.AddVertex | src/model/association_graph.cpp:34-48 | Empty and repeated vertices are refused, others appended |
| AssociationGraphs.AssociationGraph.AddEdge | src/model/association_graph.cpp:50-80 | Edges without known distinct ends and repeated edges are refused, others appended |
| LogicalAssets.LogicalAssetIdForMembers | src/model/logical_asset.cpp:76-128 | The id depends on the set of members only; empty lists, empty and repeated ids are refused |
| LogicalAssets.MembersJsonInjective | src/model/logical_asset.cpp:18-72 | The canonical JSON text determines the member list |
| LogicalAssets.CanonicalMembersJson | src/model/logical_asset.cpp:59-72 | The loop builds that text |
| LogicalAssets.JsonExamples | src/model/logical_asset.cpp:18-72 | The text of two members and every kind of escape |
| CanonicalPlan.PayloadInjective | src/model/canonical_plan.cpp:180-219 | Equal payload bytes mean equal plans |
| CanonicalPlan.PermutationInvariant | src/model/canonical_plan.cpp:121-143 | A permuted input is valid exactly when the input is, and has the same canonical form and payload |
| CanonicalPlan.Build | src/model/canonical_plan.cpp:49-143 | Accepts exactly the inputs that meet the listed conditions; the result has every field unchanged and the same assets in strictly increasing order of their logical ids |
| StringOrder.LtExactly | src/model/canonical_plan.cpp:124-132 | The order of strings is decided by their first difference, and a proper beginning comes first |
| CanonicalPlan.ValidateCapabilities | src/model/capability.cpp:59-107 | Accepts exactly non-empty lists of known capabilities in strictly increasing order |
| CanonicalPlan.ComponentsExactly | src/model/relative_path.cpp:38-67 | The components of a path are exactly the texts between neighbouring slashes and ends |
| CanonicalPlan.CanonicalPlanPayload | src/model/canonical_plan.cpp:180-219 | The buffer-building loops give the payload |
| CanonicalPlan.PayloadExample | src/model/canonical_plan.cpp:180-219 | The layout of a plan whose fields all differ: every field once and in this order, with the lengths of strings and lists |
| CanonicalPlan.AppendUint64 | src/model/canonical_plan.cpp:18-23 | The loop appends the specified eight bytes, also of negative timestamps |
| CanonicalPlan.U64Exactly | src/model/canonical_plan.cpp:18-23 | The eight bytes, lowest first, make up the number modulo 2^64 |
| CanonicalPlan.IdentitySplits | src/model/canonical_plan.cpp:36-47 | The encoding of a file identity can be split off in only one way |
| TaskKeys.TaskKeyFor | src/model/task.cpp:128-152 | The key of a task, or an error for missing parts |
| TaskKeys.KeyExamples | src/model/task.cpp:128-152 | The task of a plan asset field by field, and the text its key is the digest of |
| TaskKeys.KeysDistinct | src/model/task.cpp:128-152 | Equal keys mean the same asset, type, target and source unless the hash collides |
| TaskKeys.PlanTasksDistinct | src/pipeline/pipeline_shared.cpp:241-260 | The assets of a valid plan give tasks with different ids unless the hash collides |
| TempNames.TempNamesDistinct | src/pipeline/pipeline_shared.cpp:262-286 | Equal temporary names mean equal plan, task and attempt unless the hash collides |
| TempNames.ClaimsGetDistinctTemps | src/app/task_runtime_repository.cpp:1230-1233 | Two claims of a task get different temporary names unless the hash collides |
| TempNames.GeneratedIdsDistinct | src/app/task_runtime_repository.cpp:1230-1233 | No two claims of one plan, of one task or of two, generate the same attempt id |
| TempNames.AttemptIdsDistinct | src/app/task_runtime_repository.cpp:1230-1233 | Successive claims of a task generate different attempt ids |
| TempNames.BuildTempName | src/pipeline/pipeline_shared.cpp:262-286 | The buffer-building form gives the temporary name |
| TempNames.PayloadExample | src/pipeline/pipeline_shared.cpp:262-286 | The text that is hashed for a temporary name |
| TempNames.NameExample | src/pipeline/pipeline_shared.cpp:262-286 | The name made of a digest |
| TempNames.AttemptIdExample | src/app/task_runtime_repository.cpp:1230-1233 | A generated attempt id |
| PlanArtifact.ReadWritten | src/model/plan_artifact.cpp:726-759 | Reading a written artifact gives back plan, id and both digests, when the JSON library reads its own lines back and they stay within the size limit |
| PlanArtifact.RecordsRead | src/model/plan_artifact.cpp:431-696 | Reading the records of a canonical plan gives back the plan field for field |
| PlanArtifact.RecordsSay | src/model/plan_artifact.cpp:431-696 | What an accepted artifact says: a header with the two versions, one record per asset, the four sections in their order and the end; the plan that is read has exactly the values of their members, the assets in increasing order of their logical ids |
| PlanArtifact.WrittenSays | src/model/plan_artifact.cpp:407-429 | The records that are written say the same, member by member, of the plan they are written for |
| PlanArtifact.IdentityRead | src/model/plan_artifact.cpp:191-316 | A file identity survives printing and parsing, down to the int64 minimum and with or without a mount id |
| PlanArtifact.LinesRead | src/model/plan_artifact.cpp:435-462 | Lines written with line feeds are split back into the same lines |
| PlanArtifact.LinesExactly | src/model/plan_artifact.cpp:435-462 | A text has these lines exactly when it is made of them, each ended by a line feed, none empty, longer than 2^20 bytes or with a carriage return at an end |
| PlanArtifact.SplitIntoLines | src/model/plan_artifact.cpp:435-462 | The splitting loop gives the specified lines or the specified error |
| PlanArtifact.WriteFrozenPlan | src/model/plan_artifact.cpp:407-429 | The serialising loop gives the lines of the records, and the plan comes with the digest of the bytes and of its payload; refused exactly for an empty id or one with NUL |
| PlanArtifact.ReadFrozenPlan | src/model/plan_artifact.cpp:745-759 | The parsing loops give the specified plan, with the digest of the bytes and of its payload, or an error |
| PlanArtifact.ParseLines | src/model/plan_artifact.cpp:464-474 | One record a line; the first line that is none ends the parsing |
| Base64.DecodeEncode | src/model/plan_artifact.cpp:26-126 | Decoding an encoded byte string gives it back (section 4 of RFC 4648) |
| Base64.PadBitsIgnored | src/model/plan_artifact.cpp:73-126 | Encode-after-decode is the identity on exactly the accepted texts whose left-over pad bits are 0, and two accepted texts decode alike if and only if they differ only in those bits (section 3.5 of RFC 4648) |
| Base64.EncodeDecode | src/model/plan_artifact.cpp:26-126 | Encoding what a text decodes to gives back the text with its left-over bits cleared |
| Base64.PadBitsExample | src/model/plan_artifact.cpp:73-126 | Two texts for one byte |
| Base64.Base64Encode | src/model/plan_artifact.cpp:26-51 | Every character is the one of the RFC 4648 alphabet at the six bits of the input it stands for, and padding where the input has ended |
| Base64.EncodedChar | src/model/plan_artifact.cpp:26-51 | The same of the specified text, for every byte string and position |
| Base64.Base64Decode | src/model/plan_artifact.cpp:73-126 | Accepts exactly whole quads of characters of the RFC 4648 alphabet with at most two padding characters at the very end; the bytes are then the bits of the characters; everything else is an invalid argument |
| Base64.DecodeExactly | src/model/plan_artifact.cpp:73-126 | The same of the specified decoding |
| Decimal.ParseExactIffInRange | src/model/plan_artifact.cpp:154-169 | The uint64 parser is exact if and only if the number fits in 64 bits |
| Decimal.WrapAcceptedForOutOfRange | src/model/plan_artifact.cpp:161-167 | 30000000000000000000 is accepted and read as another number |
| Decimal.ParsePrintedSigned | src/model/plan_artifact.cpp:234-281 | Signed timestamps survive printing and parsing, down to the int64 minimum |
| Decimal.ParseUint64 | src/model/plan_artifact.cpp:141-170 | The parsing loop gives the specified number or error |
| Decimal.PrintExactly | src/model/plan_artifact.cpp:191-205 | Numbers are printed with the digits 0 to 9, lowest last and without leading zeros |
| Digests.UnhexHex | src/common/digest.cpp:27-60 | Reading a printed digest gives it back |
| Digests.ToHex | src/common/digest.cpp:27-37 | Two lower-case digits a byte, the high half first |
| Digests.FromHex | src/common/digest.cpp:39-60 | Accepts exactly 64 hexadecimal digits of either case and reads each pair as a byte |
| Reconciler.DecideForRunningTask | src/filesystem/reconciler.cpp:91-162 | For a RUNNING task the decision depends only on source, receipt and how the two names compare with it; publishing and adopting need a receipt |
| UploadNames.Allocate | src/filesystem/upload_session_store.cpp:285-290 | The collision loop ends within one more than the number of used names, with an unused safe name |
| UploadNames.SuffixedExactly | src/filesystem/upload_session_store.cpp:69-80 | A varied name is the name with two underscores and the number before its last dot, or at its end when there is no dot after the first character |
| UploadNames.SuffixedExamples | src/filesystem/upload_session_store.cpp:69-80 | Names with two extensions, one, none, a dot at the front and a dot at the end |
| UploadNames.SuffixesDiffer | src/filesystem/upload_session_store.cpp:69-80 | Different suffixes give different names, even when the name already looks suffixed |
| UploadNames.SuffixKeepsSafe | src/filesystem/upload_session_store.cpp:69-80 | A varied name is still a safe single component |
| UploadNames.SuffixCanExceedLimit | src/filesystem/upload_session_store.cpp:56-80 | A varied name keeps to 255 bytes if and only if the original leaves room for two underscores and the digits of the suffix |
| UploadStore.LimitKeptExactly | src/filesystem/upload_session_store.cpp:265-291 | The names given to an accepted request keep to the limit exactly when each requested name has room for the suffix it gets |
| UploadStore.TwoFilesOneName | src/filesystem/upload_session_store.cpp:265-291 | The second of two files of one name gets the suffix 2 and is too long exactly when the name has more than 252 bytes |
| UploadStore.LimitKept | src/filesystem/upload_session_store.cpp:265-291 | Pairwise different names, or names that leave room for the digits of the number of files, keep to the limit |
| UploadStore.NamesUnique | src/filesystem/upload_session_store.cpp:285-290 | The names given are determined by the request |
| UploadNames.SafeFilename | src/filesystem/upload_session_store.cpp:51-67 | Accepts exactly safe single components of at most 255 bytes |
| UploadStore.NameFiles | src/filesystem/upload_session_store.cpp:265-291 | Accepts exactly the requests within the quotas with safe names, and gives every file the first variation of its name that is still free |
| UploadStore.UploadSessionStore.CreateSession | src/filesystem/upload_session_store.cpp:258-435 | A new session whose totals are the sums over its files, within the reserved-byte quota, or nothing |
| UploadStore.UploadSessionStore.BeginUpload | src/filesystem/upload_session_store.cpp:620-687 | Without a failing call: starts exactly a pending or failed file, and reports an unknown, received or busy one |
| UploadStore.UploadSessionStore.MarkUploadFailed | src/filesystem/upload_session_store.cpp:689-712 | Only a file that is being received becomes failed |
| UploadStore.UploadSessionStore.CommitUpload | src/filesystem/upload_session_store.cpp:714-784 | Without a failing call: accepts exactly the registered number of bytes of a file that is being received, and raises the session's received total by it |
| UploadStore.UploadSessionStore.CompleteSession | src/filesystem/upload_session_store.cpp:786-854 | Without a failing call: completes exactly an open session all of whose files are received, and the error says what is missing |
| UploadStore.UploadSessionStore.RecoverInterruptedUploads | src/filesystem/upload_session_store.cpp:540-602 | At start-up a file that was being received becomes received, with its final file's digest, if that file is there with the registered size, and failed otherwise; every other file is left as it is |
| UploadStore.CompleteIsWhole | src/filesystem/upload_session_store.cpp:786-854 | A complete session has received exactly what it expected |
| UploadStore.GrowsTransitive | src/filesystem/upload_session_store.cpp:620-854 | What every call keeps (no session lost, received files and complete sessions unchanged) is kept over any sequence of calls |

## Left out

- SQLite itself: binding, statement caching, pragmas, schema migration. A transaction is an atomic update or nothing; event rows, timestamps and message texts carry no state here.
- Power loss: process death is the crash modelled. Adopting a target does not sync the directory again, so a model of power loss would need more than the code gives.
- BLAKE3, liburing and the JSON library: an abstract hash, a kernel that completes requests in any order with any honest result, and a codec assumed to read its own lines back.
- The spelling of the JSON member names of the plan artifact: they are abstract keys; which members there are, and their values and types, is modelled.
- POSIX plumbing: walking directories, errno mapping, EINTR, descriptors. The observable file calls are read, exclusive create, write, no-replace rename and unlink.
- DbWriter.RuntimeDbWriter.Enqueue: does not model the fatal status, to which only an exception in the writer thread leads; such exceptions are not part of this model.
- Repository.TaskRuntimeRepository.RollbackWriteBatch: a ROLLBACK statement is taken to succeed; its status is ignored by the callers.
- IoUringCopy.CopyEngine.Pump: what the kernel does to the buffers of requests still in flight after a failed wait is not part of this model.
- Interleaving of workers inside `MigrationAttempt` and outside changes inside `Sites`: those methods show one worker, or one resume, running alone; all interleavings are in the machine.
- File identities of the temporary and target files, which the observations carry for the audit text only.
- Migrate's refusal to start when nothing is READY: the machine may take an epoch and claim nothing.
- RecoveryService.Execute: a target root that does not exist counts as a failing call, since resume opens it as existing; the task ids of the plan are taken to be pairwise different, which `PlanTasksDistinct` gives unless the hash collides.
- Protocol.InsertPlanRows: does not model the comparison with an already materialised plan; a materialised plan is taken as it is.
- UploadStore.UploadSessionStore.CreateSession: creating the session's directories is part of the calls that may fail. The reserved-byte quota is taken to be below 2^63, so that sums fit the signed columns.
- UploadStore.UploadSessionStore.RecoverInterruptedUploads: removing the temporary file after a recovered upload is not modelled.
- AssociationGraphs.AssociationGraph.BuildLogicalAssets: std::sort is an insertion sort; with equal ids, which need a hash collision, its order among them is not that of the library.
- The HTTP server, upload page, command line, logging, benchmarks, metadata resolver, provenance, diff engine, loss analysis and name matching: they would mostly add easy members.
