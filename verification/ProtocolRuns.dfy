/** The theorems about whole runs of `migrate`, `resume` and crashes. */
module ProtocolRuns {
  import opened Common
  import opened Tasks
  import opened TaskTables
  import TI = TableInvariants
  import opened Reconciler
  import opened TempNames
  import opened Protocol
  import opened PlanRows
  import opened ProtocolRows
  import opened ProtocolSafety

  /** What recovery does with a RUNNING task, exactly. If the source is there but is not the file that was planned, the task is
      INCONSISTENT. Otherwise, without a receipt, it is retried if and only if its target is absent; with one, a target
      that shows it is adopted, an absent target is published from a temporary file that shows it, a task whose files are
      both gone is retried if the source is there, and everything else is INCONSISTENT. */
  lemma DecisionExact(plan: Plan, w: World, c: Case, step: RecoverStep)
    requires w.proc.Resuming? && CaseOk(plan, w.db, c) && (c.receipt.Some? ==> MatchesPlan(plan, c))
    requires DecideNext(plan, w, c, ObserveTemp(plan, w.files, IntentFor(plan, c).tempPath, ObserveSource(plan, w.sources, c.task)))
          == Some(SetStep(w, step))
    ensures var target, temp := plan.assets[c.task].spec.target, IntentFor(plan, c).tempPath;
            var there := c.task in w.sources && w.sources[c.task].Present?;
            step ==
              if there && w.sources[c.task].identity != plan.assets[c.task].identity then Settle(c, RecoverInconsistent)
              else if c.receipt.None? then Settle(c, if target in w.files then RecoverInconsistent else RecoverRetryable)
              else if Shows(plan, w.files, target, c.receipt.value) then
                ConfirmFinal(c, Shows(plan, w.files, temp, c.receipt.value))
              else if target in w.files then Settle(c, RecoverInconsistent)
              else if Shows(plan, w.files, temp, c.receipt.value) then RecheckTemp(c)
              else if temp !in w.files && there then Settle(c, RecoverRetryable)
              else Settle(c, RecoverInconsistent)
  {
  }

  lemma {:induction false} RunInv(plan: Plan, trace: seq<World>, labels: seq<Label>, i: nat)
    requires PlanShape(plan) && Unendangered(plan) && IsRun(plan, trace, labels) && Initial(trace[0]) && i < |trace|
    ensures Inv(plan, trace[i])
  {
    hide Inv, Next, PlanShape, Unendangered;
    if i == 0 {
      InitialInv(plan, trace[0]);
    } else {
      RunInv(plan, trace, labels, i - 1);
      assert Next(plan, trace[i - 1], labels[i - 1]) == Some(trace[i]);
      StepKeepsInv(plan, trace[i - 1], labels[i - 1], trace[i]);
    }
  }

  /** What one resume has seen, in every run of every plan. */
  lemma {:induction false} RunSeen(plan: Plan, trace: seq<World>, labels: seq<Label>, i: nat)
    requires PlanShape(plan) && IsRun(plan, trace, labels) && Initial(trace[0]) && i < |trace|
    ensures StepSeen(plan, trace[i].files, trace[i].proc)
  {
    hide RowInv, Next, PlanShape, StepShown, OwnClash;
    if i > 0 {
      RunSeen(plan, trace, labels, i - 1);
      RunRows(plan, trace, labels, i - 1);
      assert Next(plan, trace[i - 1], labels[i - 1]) == Some(trace[i]);
      StepKeepsSeen(plan, trace[i - 1], labels[i - 1], trace[i]);
    }
  }

  lemma SparesChains(plan: Plan, files: map<string, Bytes>, files': map<string, Bytes>, files'': map<string, Bytes>)
    requires SparesForeign(plan, files, files') && SparesForeign(plan, files', files'')
    ensures SparesForeign(plan, files, files'')
  {
    forall name | !IsTempOf(plan, name) ensures SameBytes(files, files'', name) {
      assert SameBytes(files, files', name) && SameBytes(files', files'', name);
    }
  }

  /** From any state of any run on, no file whose name no claim would use for a temporary file is ever overwritten or
      removed. (`FileOrigins.UserFilesSurvive` is about the files of the user, whatever their names.) */
  lemma {:induction false} ForeignFilesSurvive(plan: Plan, trace: seq<World>, labels: seq<Label>, i: nat, j: nat)
    requires PlanShape(plan) && IsRun(plan, trace, labels) && Initial(trace[0]) && i <= j < |trace|
    ensures SparesForeign(plan, trace[i].files, trace[j].files)
    decreases j - i
  {
    hide Next, RowInv, PlanShape, IsTempOf;
    if i < j {
      ForeignFilesSurvive(plan, trace, labels, i, j - 1);
      RunRows(plan, trace, labels, j - 1);
      assert Next(plan, trace[j - 1], labels[j - 1]) == Some(trace[j]);
      StepSparesForeign(plan, trace[j - 1], labels[j - 1], trace[j]);
      SparesChains(plan, trace[i].files, trace[j - 1].files, trace[j].files);
    }
  }

  lemma PublishedChains(
    plan: Plan, db: Tables, db': Tables, files: map<string, Bytes>, files': map<string, Bytes>, files'': map<string, Bytes>)
    requires Remembers(db, db') && KeepsPublished(plan, db, files, files') && KeepsPublished(plan, db', files', files'')
    ensures KeepsPublished(plan, db, files, files'')
  {
    forall a | a in db.attempts && db.attempts[a].state == Committed && db.attempts[a].task in plan.assets
      ensures SameBytes(files, files'', plan.assets[db.attempts[a].task].spec.target)
    {
      assert a in db'.attempts && db'.attempts[a].state == Committed && db'.attempts[a].task == db.attempts[a].task;
    }
  }

  /** From any state of a run of an unendangered plan on, no published target is ever overwritten or removed. */
  lemma {:induction false} PublishedFilesSurvive(plan: Plan, trace: seq<World>, labels: seq<Label>, i: nat, j: nat)
    requires PlanShape(plan) && Unendangered(plan) && IsRun(plan, trace, labels) && Initial(trace[0]) && i <= j < |trace|
    ensures KeepsPublished(plan, trace[i].db, trace[i].files, trace[j].files)
    decreases j - i
  {
    hide Next, Inv, Unendangered, KeepsPublished, Remembers;
    SameFilesKept(plan, trace[i].db, trace[i].files);
    if i < j {
      PublishedFilesSurvive(plan, trace, labels, i, j - 1);
      RunRemembers(plan, trace, labels, i, j - 1);
      RunInv(plan, trace, labels, j - 1);
      assert Next(plan, trace[j - 1], labels[j - 1]) == Some(trace[j]);
      StepKeepsInv(plan, trace[j - 1], labels[j - 1], trace[j]);
      PublishedChains(plan, trace[i].db, trace[j - 1].db, trace[i].files, trace[j - 1].files, trace[j].files);
    }
  }

  /** The evidence for a SUCCEEDED task: a committed attempt, its receipt, and a target file that shows it. */
  ghost predicate Proven(plan: Plan, w: World, t: string, a: string) {
    && t in plan.assets && a in w.db.attempts && w.db.attempts[a].task == t && w.db.attempts[a].state == Committed
    && (t, a) in w.db.receipts
    && MatchesPlan(plan, Case(t, a, w.db.attempts[a].epoch, Some(w.db.receipts[(t, a)])))
    && Shows(plan, w.files, plan.assets[t].spec.target, w.db.receipts[(t, a)])
  }

  lemma SucceededIsProven(plan: Plan, w: World, t: string) returns (a: string)
    requires Inv(plan, w) && t in w.db.tasks && w.db.tasks[t].state == Succeeded
    ensures Proven(plan, w, t, a)
  {
    assert TaskShape(plan, w.db, t);
    a :| a in w.db.attempts && w.db.attempts[a].task == t && w.db.attempts[a].state == Committed;
    assert AttemptShape(plan, w.db, a);
    assert CommitShown(plan, w.db, w.files, a);
  }

  /** The safety theorem. In every run that mixes migrate attempts, crashes at any step, source changes and resumes,
      a task that is SUCCEEDED at some state has a durable receipt that matches the frozen plan and a target file with
      the receipt's size and digest, and at every later state the task is still SUCCEEDED, the receipt is the same
      and the target file holds the same bytes. */
  lemma SucceededForever(plan: Plan, trace: seq<World>, labels: seq<Label>, i: nat, j: nat, t: string) returns (a: string)
    requires PlanShape(plan) && Unendangered(plan) && IsRun(plan, trace, labels) && Initial(trace[0]) && i <= j < |trace|
    requires t in trace[i].db.tasks && trace[i].db.tasks[t].state == Succeeded
    ensures Proven(plan, trace[i], t, a) && Proven(plan, trace[j], t, a)
    ensures t in trace[j].db.tasks && trace[j].db.tasks[t].state == Succeeded
    ensures trace[j].db.receipts[(t, a)] == trace[i].db.receipts[(t, a)]
    ensures trace[j].files[plan.assets[t].spec.target] == trace[i].files[plan.assets[t].spec.target]
  {
    RunInv(plan, trace, labels, i);
    a := SucceededIsProven(plan, trace[i], t);
    RunRemembers(plan, trace, labels, i, j);
    PublishedFilesSurvive(plan, trace, labels, i, j);
    RunInv(plan, trace, labels, j);
    assert AttemptShape(plan, trace[j].db, a);
  }
}
