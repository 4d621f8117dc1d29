/** Task and attempt vocabulary of src/model/task.cpp: states, the two transition tables and the validators. */
module Tasks {
  import opened Common

  datatype TaskType = MigrateFile | WriteAssetManifest | WriteRelationIndex | VerifyAsset | WriteReport

  datatype TaskState =
    | Planned | Ready | Running | Succeeded | Retryable | Failed | NeedsReview | Inconsistent | Skipped

  datatype AttemptState =
    | AttemptPlanned | AttemptReady | AttemptRunning | CommitIntent | TempWritten | VerifiedDurable
    | Committed | AttemptRetryable | AttemptFailed | AttemptNeedsReview | AttemptInconsistent | AttemptSkipped

  datatype FileIdentity = FileIdentity(
    device: nat, inode: nat, size: nat, mtimeNs: int, ctimeNs: int, mountId: Option<nat>)

  datatype TaskSpec = TaskSpec(
    id: string, key: string, kind: TaskType, assetId: string, sourceAssetId: Option<string>,
    target: string, estimatedBytes: nat, expectedDigest: Option<Digest>)

  /** Row view handed out by ReadRuntime; owner epoch 0 stands for SQL NULL. */
  datatype TaskRuntime = TaskRuntime(
    id: string, state: TaskState, ownerEpoch: nat, attempt: Option<string>, attemptCount: nat, lastError: Option<Code>)

  datatype VerifiedReceipt = VerifiedReceipt(
    task: string, attempt: string, ownerEpoch: nat, tempPath: string, finalPath: string,
    contentSize: nat, sourceDigest: Option<Digest>, targetDigest: Digest, sourceIdentity: Option<FileIdentity>)

  predicate NulFree(s: string) {
    '\0' !in s
  }

  predicate ValidId(s: string) {
    s != "" && NulFree(s)
  }

  predicate ValidTaskSpec(t: TaskSpec) {
    && ValidId(t.id) && ValidId(t.key) && ValidId(t.assetId) && t.target != ""
    && (t.sourceAssetId.Some? ==> ValidId(t.sourceAssetId.value))
    && (t.kind == MigrateFile ==> t.sourceAssetId.Some?)
  }

  predicate ValidTaskRuntime(r: TaskRuntime) {
    && ValidId(r.id)
    && (r.attempt.Some? ==> ValidId(r.attempt.value))
    && (r.state == Running ==> r.ownerEpoch != 0 && r.attempt.Some?)
  }

  predicate TaskEdge(from: TaskState, to: TaskState) {
    match from
    case Planned => to == Ready || to == Skipped
    case Ready => to == Running || to == Skipped
    case Running => to == Succeeded || to == Retryable || to == Failed || to == NeedsReview || to == Inconsistent
    case Retryable => to == Ready
    case _ => false
  }

  predicate AttemptAborts(to: AttemptState) {
    to == AttemptRetryable || to == AttemptFailed || to == AttemptNeedsReview || to == AttemptInconsistent
  }

  predicate AttemptEdge(from: AttemptState, to: AttemptState) {
    match from
    case AttemptPlanned => to == AttemptReady || to == AttemptSkipped
    case AttemptReady => to == AttemptRunning || to == AttemptSkipped
    case AttemptRunning => to == CommitIntent || AttemptAborts(to)
    case CommitIntent => to == TempWritten || AttemptAborts(to)
    case TempWritten => to == VerifiedDurable || AttemptAborts(to)
    case VerifiedDurable => to == Committed || AttemptAborts(to)
    case AttemptRetryable => to == AttemptReady
    case _ => false
  }
}
