/** The pure recovery rule of src/filesystem/reconciler.cpp. */
module Reconciler {
  import opened Common
  import opened Tasks

  datatype Intent = Intent(task: string, attempt: string, ownerEpoch: nat, tempPath: string, finalPath: string)

  datatype ObservedFileState = ObservedFileState(
    sourceAvailable: bool, sourceChanged: bool,
    tempExists: bool, finalExists: bool,
    tempSize: nat, finalSize: nat,
    tempDigest: Option<Digest>, finalDigest: Option<Digest>)

  const NOTHING_OBSERVED := ObservedFileState(false, false, false, false, 0, 0, None, None)

  datatype Action =
    | RetryTask | ResumeCommitFromTemp | AdoptFinal | AdoptFinalAndCleanupTemp
    | ReverifyCommitted | TargetConflict | DeclareInconsistent

  predicate ValidIntent(spec: TaskSpec, runtime: TaskRuntime, intent: Intent) {
    && spec.kind == MigrateFile && ValidTaskSpec(spec) && ValidTaskRuntime(runtime)
    && intent.task != "" && intent.attempt != "" && intent.tempPath != "" && intent.finalPath != ""
    && intent.task == spec.id && intent.task == runtime.id
    && (runtime.attempt.Some? ==> runtime.attempt.value == intent.attempt)
    && (runtime.ownerEpoch != 0 ==> runtime.ownerEpoch == intent.ownerEpoch)
    && intent.finalPath == spec.target
  }

  predicate ReceiptFitsIntent(intent: Intent, receipt: Option<VerifiedReceipt>) {
    receipt.Some? ==>
      && receipt.value.task == intent.task && receipt.value.attempt == intent.attempt
      && receipt.value.ownerEpoch == intent.ownerEpoch
      && receipt.value.tempPath == intent.tempPath && receipt.value.finalPath == intent.finalPath
  }

  predicate Matches(exists_: bool, size: nat, digest: Option<Digest>, receipt: VerifiedReceipt) {
    exists_ && size == receipt.contentSize && digest.Some? && digest.value == receipt.targetDigest
  }

  function Decide(
    spec: TaskSpec, runtime: TaskRuntime, intent: Intent, receipt: Option<VerifiedReceipt>, o: ObservedFileState)
    : Outcome<Action>
  {
    if !ValidIntent(spec, runtime, intent) || !ReceiptFitsIntent(intent, receipt) then Err(InvalidArgument)
    else if o.sourceChanged then Ok(DeclareInconsistent)
    else if receipt.None? then
      if o.finalExists then Ok(TargetConflict) else Ok(RetryTask)
    else
      var tempMatches := Matches(o.tempExists, o.tempSize, o.tempDigest, receipt.value);
      var finalMatches := Matches(o.finalExists, o.finalSize, o.finalDigest, receipt.value);
      if o.finalExists && !finalMatches then Ok(TargetConflict)
      else if runtime.state == Succeeded then
        if finalMatches then Ok(ReverifyCommitted) else Ok(DeclareInconsistent)
      else if finalMatches && tempMatches then Ok(AdoptFinalAndCleanupTemp)
      else if finalMatches then Ok(AdoptFinal)
      else if tempMatches && !o.finalExists then Ok(ResumeCommitFromTemp)
      else if !o.tempExists && !o.finalExists then
        if o.sourceAvailable then Ok(RetryTask) else Ok(DeclareInconsistent)
      else Ok(DeclareInconsistent)
  }

  /** What a file under a name is, compared with the durable evidence. */
  datatype Sight = Absent | Verified | Foreign

  function Sighting(exists_: bool, size: nat, digest: Option<Digest>, receipt: VerifiedReceipt): Sight {
    if !exists_ then Absent else if Matches(exists_, size, digest, receipt) then Verified else Foreign
  }

  /** For a task that is still RUNNING, the decision depends only on whether the source changed, whether a receipt
      exists, and how each of the two names compares with it. Publishing or adopting needs durable evidence. */
  lemma DecideForRunningTask(
    spec: TaskSpec, runtime: TaskRuntime, intent: Intent, receipt: Option<VerifiedReceipt>, o: ObservedFileState)
    requires runtime.state == Running && Decide(spec, runtime, intent, receipt, o).Ok?
    ensures var action := Decide(spec, runtime, intent, receipt, o).value;
            && action != ReverifyCommitted
            && (o.sourceChanged ==> action == DeclareInconsistent)
            && (!o.sourceChanged && receipt.None? ==>
                  action == if o.finalExists then TargetConflict else RetryTask)
            && (!o.sourceChanged && receipt.Some? ==>
                  var temp := Sighting(o.tempExists, o.tempSize, o.tempDigest, receipt.value);
                  var final := Sighting(o.finalExists, o.finalSize, o.finalDigest, receipt.value);
                  && (action == AdoptFinalAndCleanupTemp <==> final == Verified && temp == Verified)
                  && (action == AdoptFinal <==> final == Verified && temp != Verified)
                  && (action == ResumeCommitFromTemp <==> final == Absent && temp == Verified)
                  && (action == TargetConflict <==> final == Foreign)
                  && (action == RetryTask <==> final == Absent && temp == Absent && o.sourceAvailable)
                  && (action == DeclareInconsistent <==>
                        final == Absent && (temp == Foreign || (temp == Absent && !o.sourceAvailable))))
  {
  }
}
