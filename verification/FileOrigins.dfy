/** Where the files of the target directory come from: the files that were there before the first run are never touched,
    whatever their names, and a temporary name can only be taken by one of them. */
module FileOrigins {
  import opened Common
  import opened Tasks
  import opened TaskTables
  import TI = TableInvariants
  import opened Reconciler
  import opened TempNames
  import opened Protocol
  import opened PlanRows
  import opened ProtocolRows
  import opened QuietResume

  // ---------------------------------------------------------------- the files of the user

  /** Worker `t` may still need the temporary file `name`. */
  predicate Uses(plan: Plan, proc: Proc, t: string, name: string) {
    proc.Migrating? && t in proc.workers && TempName(plan, t, proc.workers[t].attempt) == name
    && !proc.workers[t].pc.Queued? && !proc.workers[t].pc.Opened? && !proc.workers[t].pc.IntentMarked? && !proc.workers[t].pc.Failing?
  }

  predicate CaseSpares(c: Case, name: string) {
    c.receipt.Some? ==> c.receipt.value.tempPath != name
  }

  predicate StepSpares(step: RecoverStep, name: string) {
    step.Pick? || (CaseSpares(step.c, name) && (step.UnlinkTemp? || step.RenameTemp? ==> step.c.receipt.Some?))
  }

  predicate RowsSpare(db: Tables, name: string) {
    forall k :: k in db.receipts ==> db.receipts[k].tempPath != name
  }

  /** Neither a receipt nor the process has anything to do with the file. */
  ghost predicate Untouched(plan: Plan, w: World, name: string, content: Bytes) {
    && name in w.files && w.files[name] == content && RowsSpare(w.db, name)
    && (forall t :: !Uses(plan, w.proc, t, name))
    && (w.proc.Resuming? ==> StepSpares(w.proc.step, name))
  }

  lemma MigrateSpares(plan: Plan, w: World, l: Label, w': World, name: string, content: Bytes)
    requires PlanShape(plan) && Untouched(plan, w, name, content) && MigrateNext(plan, w, l) == Some(w')
    ensures Untouched(plan, w', name, content)
  {
    if l.MigrateMaterialize? && !w.materialized {
      MaterializeRows(plan, |plan.order|);
    }
    forall u ensures !Uses(plan, w'.proc, u, name) {
      assert !Uses(plan, w.proc, u, name);
    }
  }

  lemma RowSpares(plan: Plan, w: World, t: string, l: Label, w': World, name: string, content: Bytes)
    requires Untouched(plan, w, name, content) && IsRowLabel(l)
    requires w.proc.Migrating? && t in w.proc.workers && t in plan.assets && WorkerRowNext(plan, w, t, l) == Some(w')
    ensures Untouched(plan, w', name, content)
  {
    hide Advance, Finish, TempName, ReceiptComplete, Ownership;
    RowsKept(plan, w, t, l, w');
    assert !Uses(plan, w.proc, t, name);
    forall u ensures !Uses(plan, w'.proc, u, name) {
      assert !Uses(plan, w.proc, u, name);
    }
  }

  /** Only the receipt of a worker whose copy is checked adds a receipt, and it names the worker's temporary file. */
  lemma RowsKept(plan: Plan, w: World, t: string, l: Label, w': World)
    requires IsRowLabel(l)
    requires w.proc.Migrating? && t in w.proc.workers && t in plan.assets && WorkerRowNext(plan, w, t, l) == Some(w')
    ensures forall k :: k in w'.db.receipts ==>
              || (k in w.db.receipts && w'.db.receipts[k] == w.db.receipts[k])
              || (w.proc.workers[t].pc.Checked? && w'.db.receipts[k].tempPath == TempName(plan, t, w.proc.workers[t].attempt))
  {
    hide TempName;
  }

  lemma FileSpares(plan: Plan, w: World, t: string, l: Label, w': World, name: string, content: Bytes)
    requires Untouched(plan, w, name, content) && !IsRowLabel(l)
    requires w.proc.Migrating? && t in w.proc.workers && t in plan.assets && WorkerFileNext(plan, w, t, l) == Some(w')
    ensures Untouched(plan, w', name, content)
  {
    assert !Uses(plan, w.proc, t, name);
    forall u ensures !Uses(plan, w'.proc, u, name) {
      assert !Uses(plan, w.proc, u, name);
    }
  }

  lemma DecideSpares(plan: Plan, w: World, c: Case, seen: ObservedFileState, w': World)
    requires w.proc.Resuming? && c.task in plan.assets && c.task in w.db.tasks && DecideNext(plan, w, c, seen) == Some(w')
    ensures w'.proc.Resuming? && w' == SetStep(w, w'.proc.step) && !w'.proc.step.Pick? && w'.proc.step.c == c
    ensures w'.proc.step.Settle? || c.receipt.Some?
  {
  }

  lemma LookSpares(plan: Plan, w: World, l: Label, w': World, name: string)
    requires w.proc.Resuming? && !w.proc.step.Pick? && StepSpares(w.proc.step, name) && IsLook(l)
    requires w.proc.step.c.task in plan.assets && w.proc.step.c.task in w.db.tasks && RecoverOneNext(plan, w, l) == Some(w')
    ensures w'.proc.Resuming? && w' == SetStep(w, w'.proc.step) && StepSpares(w'.proc.step, name)
  {
    hide DecideNext, Shows, ObserveTemp, ObserveSource;
  }

  lemma ActSpares(plan: Plan, w: World, l: Label, w': World, name: string, content: Bytes)
    requires Untouched(plan, w, name, content) && w.proc.Resuming? && !w.proc.step.Pick?
    requires l.ResumeUnlink? || l.ResumeRename? || l.ResumeSettle?
    requires w.proc.step.c.task in plan.assets && w.proc.step.c.task in w.db.tasks && RecoverOneNext(plan, w, l) == Some(w')
    ensures Untouched(plan, w', name, content)
  {
    hide Recover;
    if l.ResumeSettle? {
      RecoverTouches(w.db, w.proc.epoch, w.proc.step.c, w.proc.step.verdict);
    }
  }

  lemma RecoverSpares(plan: Plan, w: World, l: Label, w': World, name: string, content: Bytes)
    requires Untouched(plan, w, name, content) && w.proc.Resuming? && !w.proc.step.Pick?
    requires w.proc.step.c.task in plan.assets && w.proc.step.c.task in w.db.tasks && RecoverOneNext(plan, w, l) == Some(w')
    ensures Untouched(plan, w', name, content)
  {
    hide RecoverOneNext, StepSpares;
    RecoverOneLabels(plan, w, l);
    if l.ResumeFinal? {
      FinalSpares(plan, w, w', name);
    } else if IsLook(l) {
      LookSpares(plan, w, l, w', name);
    } else {
      ActSpares(plan, w, l, w', name, content);
    }
  }

  lemma FinalSpares(plan: Plan, w: World, w': World, name: string)
    requires w.proc.Resuming? && !w.proc.step.Pick? && StepSpares(w.proc.step, name)
    requires w.proc.step.c.task in plan.assets && w.proc.step.c.task in w.db.tasks && RecoverOneNext(plan, w, ResumeFinal) == Some(w')
    ensures w'.proc.Resuming? && w' == SetStep(w, w'.proc.step) && StepSpares(w'.proc.step, name)
  {
    hide DecideNext;
    DecideSpares(plan, w, w.proc.step.c, w.proc.step.seen, w');
  }

  lemma PickSpares(plan: Plan, w: World, w': World, name: string, content: Bytes)
    requires Untouched(plan, w, name, content) && w.proc.Resuming? && PickNext(plan, w) == Some(w')
    ensures Untouched(plan, w', name, content)
  {
    hide MatchesPlan;
    var c := CaseFor(w.db, w.proc.todo[0]);
    assert CaseSpares(c, name);
  }

  lemma ResumeSpares(plan: Plan, w: World, l: Label, w': World, name: string, content: Bytes)
    requires Untouched(plan, w, name, content) && ResumeNext(plan, w, l) == Some(w')
    ensures Untouched(plan, w', name, content)
  {
    hide RecoverOneNext, PickNext;
    if l.ResumePick? {
      PickSpares(plan, w, w', name, content);
    } else if !l.ResumeStart? && !l.ResumeSkip? {
      RecoverSpares(plan, w, l, w', name, content);
    }
  }

  lemma StepSparesFile(plan: Plan, w: World, l: Label, w': World, name: string, content: Bytes)
    requires PlanShape(plan) && Untouched(plan, w, name, content) && Next(plan, w, l) == Some(w')
    ensures Untouched(plan, w', name, content)
  {
    hide MigrateNext, WorkerRowNext, WorkerFileNext, ResumeNext, PlanShape;
    if IsMigrateLabel(l) {
      MigrateSpares(plan, w, l, w', name, content);
    } else if IsRowLabel(l) {
      RowSpares(plan, w, l.task, l, w', name, content);
    } else if IsWorkerLabel(l) {
      FileSpares(plan, w, l.task, l, w', name, content);
    } else if l.Stop? || l.SourceChanges? {
      forall u ensures !Uses(plan, w'.proc, u, name) {
        assert !Uses(plan, w.proc, u, name);
      }
    } else {
      ResumeSpares(plan, w, l, w', name, content);
    }
  }

  /** No run ever overwrites or removes a file that was in the target directory before it, whatever its name and without
      any assumption on the plan. */
  lemma {:induction false} UserFilesSurvive(plan: Plan, trace: seq<World>, labels: seq<Label>, j: nat, name: string)
    requires PlanShape(plan) && IsRun(plan, trace, labels) && Initial(trace[0]) && j < |trace| && name in trace[0].files
    ensures name in trace[j].files && trace[j].files[name] == trace[0].files[name]
    ensures Untouched(plan, trace[j], name, trace[0].files[name])
  {
    hide Next, PlanShape;
    if j > 0 {
      UserFilesSurvive(plan, trace, labels, j - 1, name);
      assert Next(plan, trace[j - 1], labels[j - 1]) == Some(trace[j]);
      StepSparesFile(plan, trace[j - 1], labels[j - 1], trace[j], name, trace[0].files[name]);
    }
  }

  // ---------------------------------------------------------------- fresh names for retries

  /** A worker has attempt `a` and has not created its temporary file yet. */
  predicate Pending(proc: Proc, t: string, a: string) {
    proc.Migrating? && t in proc.workers && proc.workers[t].attempt == a
    && (proc.workers[t].pc.Queued? || proc.workers[t].pc.Opened? || proc.workers[t].pc.IntentMarked?)
  }

  /** Attempt `a` is past the creation of its temporary file, which is called `name`. */
  predicate Created(plan: Plan, w: World, a: string, name: string) {
    a in w.db.attempts && name == TempName(plan, w.db.attempts[a].task, a) && !Pending(w.proc, w.db.attempts[a].task, a)
  }

  predicate IsTarget(plan: Plan, name: string) {
    exists u :: u in plan.assets && plan.assets[u].spec.target == name
  }

  ghost predicate Explained(plan: Plan, w: World, first: map<string, Bytes>, name: string) {
    name in first || IsTarget(plan, name) || exists a :: Created(plan, w, a, name)
  }

  ghost predicate AllExplained(plan: Plan, w: World, first: map<string, Bytes>) {
    forall name {:trigger Explained(plan, w, first, name)} :: name in w.files ==> Explained(plan, w, first, name)
  }

  /** Attempts stay, with their tasks, and none becomes pending again. */
  ghost predicate NonePends(w: World, w': World) {
    forall a :: a in w.db.attempts ==>
      && a in w'.db.attempts && w'.db.attempts[a].task == w.db.attempts[a].task
      && (Pending(w'.proc, w.db.attempts[a].task, a) ==> Pending(w.proc, w.db.attempts[a].task, a))
  }

  lemma ClaimPends(plan: Plan, w: World, t: string, taken: set<string>, w': World)
    requires ClaimNext(plan, w, t, taken) == Some(w')
    ensures NonePends(w, w') && w'.files == w.files
  {
  }

  lemma MigratePends(plan: Plan, w: World, l: Label, w': World)
    requires PlanShape(plan) && RowInv(plan, w) && MigrateNext(plan, w, l) == Some(w')
    ensures NonePends(w, w') && w'.files == w.files
  {
    hide ClaimNext, DbShape, TI.Inv;
    if l.MigrateClaim? {
      ClaimPends(plan, w, l.task, l.taken, w');
    }
  }

  lemma RowPends(plan: Plan, w: World, t: string, l: Label, w': World)
    requires IsRowLabel(l)
    requires w.proc.Migrating? && t in w.proc.workers && t in plan.assets && WorkerRowNext(plan, w, t, l) == Some(w')
    ensures NonePends(w, w') && w'.files == w.files
  {
    hide TempName, ReceiptComplete, Ownership, AttemptEdge;
  }

  lemma FilePends(plan: Plan, w: World, t: string, l: Label, w': World)
    requires w.proc.Migrating? && t in w.proc.workers && t in plan.assets && WorkerFileNext(plan, w, t, l) == Some(w')
    requires !IsRowLabel(l) && WorkerOk(plan, w.db, w.proc.epoch, t, w.proc.workers[t])
    ensures NonePends(w, w')
    ensures forall name :: name in w'.files && name !in w.files ==> Created(plan, w', w.proc.workers[t].attempt, name)
  {
    hide TempName, Ownership, CopyResultPossible, PcFits, SingleComponent;
  }

  lemma ActPends(plan: Plan, w: World, l: Label, w': World)
    requires w.proc.Resuming? && !w.proc.step.Pick? && (l.ResumeUnlink? || l.ResumeRename? || l.ResumeSettle?)
    requires w.proc.step.c.task in plan.assets && w.proc.step.c.task in w.db.tasks && RecoverOneNext(plan, w, l) == Some(w')
    ensures NonePends(w, w')
    ensures forall name :: name in w'.files && name !in w.files ==> IsTarget(plan, name)
  {
    hide Recover;
    if l.ResumeSettle? {
      RecoverTouches(w.db, w.proc.epoch, w.proc.step.c, w.proc.step.verdict);
    }
  }

  lemma RecoverPends(plan: Plan, w: World, l: Label, w': World)
    requires w.proc.Resuming? && !w.proc.step.Pick?
    requires w.proc.step.c.task in plan.assets && w.proc.step.c.task in w.db.tasks && RecoverOneNext(plan, w, l) == Some(w')
    ensures NonePends(w, w')
    ensures forall name :: name in w'.files && name !in w.files ==> IsTarget(plan, name)
  {
    hide RecoverOneNext;
    RecoverOneLabels(plan, w, l);
    if IsLook(l) || l.ResumeFinal? {
      RecoverOneForm(plan, w, l, w');
    } else {
      ActPends(plan, w, l, w');
    }
  }

  lemma ResumePends(plan: Plan, w: World, l: Label, w': World)
    requires ResumeNext(plan, w, l) == Some(w')
    ensures NonePends(w, w')
    ensures forall name :: name in w'.files && name !in w.files ==> IsTarget(plan, name)
  {
    hide RecoverOneNext;
    if !l.ResumeStart? && !l.ResumePick? && !l.ResumeSkip? {
      RecoverPends(plan, w, l, w');
    }
  }

  lemma StillExplained(plan: Plan, w: World, w': World, first: map<string, Bytes>, name: string)
    requires Explained(plan, w, first, name) && NonePends(w, w')
    ensures Explained(plan, w', first, name)
  {
    if name !in first && !IsTarget(plan, name) {
      var a :| Created(plan, w, a, name);
      assert Created(plan, w', a, name);
    }
  }

  lemma ExplainedGrows(plan: Plan, w: World, w': World, first: map<string, Bytes>)
    requires AllExplained(plan, w, first) && NonePends(w, w')
    requires forall name :: name in w'.files && name !in w.files ==> Explained(plan, w', first, name)
    ensures AllExplained(plan, w', first)
  {
    forall name | name in w'.files ensures Explained(plan, w', first, name) {
      if name in w.files {
        assert Explained(plan, w, first, name);
        StillExplained(plan, w, w', first, name);
      }
    }
  }

  lemma StepExplains(plan: Plan, w: World, l: Label, w': World, first: map<string, Bytes>)
    requires PlanShape(plan) && RowInv(plan, w) && AllExplained(plan, w, first) && Next(plan, w, l) == Some(w')
    ensures AllExplained(plan, w', first)
  {
    hide RowInv, MigrateNext, WorkerRowNext, WorkerFileNext, ResumeNext, PlanShape, AllExplained, IsTarget, Created;
    if IsMigrateLabel(l) {
      MigratePends(plan, w, l, w');
    } else if IsRowLabel(l) {
      RowPends(plan, w, l.task, l, w');
    } else if IsWorkerLabel(l) {
      WorkerFits(plan, w, l.task);
      FilePends(plan, w, l.task, l, w');
    } else if !l.Stop? && !l.SourceChanges? {
      ResumePends(plan, w, l, w');
    }
    ExplainedGrows(plan, w, w', first);
  }

  lemma {:induction false} RunExplains(plan: Plan, trace: seq<World>, labels: seq<Label>, i: nat)
    requires PlanShape(plan) && IsRun(plan, trace, labels) && Initial(trace[0]) && i < |trace|
    ensures AllExplained(plan, trace[i], trace[0].files)
  {
    hide Next, PlanShape, RowInv, Initial;
    if i > 0 {
      RunExplains(plan, trace, labels, i - 1);
      RunRows(plan, trace, labels, i - 1);
      assert Next(plan, trace[i - 1], labels[i - 1]) == Some(trace[i]);
      StepExplains(plan, trace[i - 1], labels[i - 1], trace[i], trace[0].files);
    }
  }

  predicate ByteStrings(plan: Plan) {
    IsByteString(plan.id) && forall t :: t in plan.assets ==> IsByteString(t)
  }

  lemma GeneratedIsByteString(plan: Plan, t: string, n: nat)
    requires IsByteString(plan.id) && IsByteString(t)
    ensures IsByteString(GeneratedAttemptId(plan.id, t, n))
  {
    assert Decimal.AllDigits(Decimal.Print(n));
  }

  lemma AttemptIsByteString(plan: Plan, db: Tables, a: string)
    requires ByteStrings(plan) && DbShape(plan, db) && a in db.attempts
    ensures IsByteString(a) && IsByteString(db.attempts[a].task)
  {
    hide ReceiptShape, AttemptShape, TaskShape;
    assert Numbered(plan, db, a);
    var n: nat :| IsGenerated(plan, db.attempts[a].task, a, n);
    GeneratedIsByteString(plan, db.attempts[a].task, n);
  }

  lemma TwoAttemptsCollide(plan: Plan, db: Tables, a: string, b: string)
    requires ByteStrings(plan) && DbShape(plan, db) && a in db.attempts && b in db.attempts && a != b
    requires TempName(plan, db.attempts[a].task, a) == TempName(plan, db.attempts[b].task, b)
    ensures Collides(plan.hash, AsBytes(TempPayload(plan.id, db.attempts[a].task, a)),
                     AsBytes(TempPayload(plan.id, db.attempts[b].task, b)))
  {
    hide DbShape;
    AttemptIsByteString(plan, db, a);
    AttemptIsByteString(plan, db, b);
    TempNamesDistinct(plan.hash, plan.id, db.attempts[a].task, a, plan.id, db.attempts[b].task, b);
  }

  /** No retry runs into a temporary file left by an earlier attempt: in every run of every plan, a worker that finds the
      name of its temporary file taken has met a file that was there before the first run, a target of the plan that is
      called like it, or two inputs on which the hash collides. */
  lemma RetryGetsFreshTemp(plan: Plan, trace: seq<World>, labels: seq<Label>, i: nat, t: string)
    requires PlanShape(plan) && ByteStrings(plan)
    requires IsRun(plan, trace, labels) && Initial(trace[0]) && i < |trace|
    requires trace[i].proc.Migrating? && t in trace[i].proc.workers && trace[i].proc.workers[t].pc.IntentMarked?
    requires Next(plan, trace[i], WorkerCreate(t)).None?
    ensures var a := trace[i].proc.workers[t].attempt;
            || TempName(plan, t, a) in trace[0].files || IsTarget(plan, TempName(plan, t, a))
            || exists b :: b in trace[i].db.attempts && b != a &&
                 Collides(plan.hash, AsBytes(TempPayload(plan.id, t, a)),
                          AsBytes(TempPayload(plan.id, trace[i].db.attempts[b].task, b)))
  {
    hide RowInv, IsRun, Initial, DbInv, ByteStrings, Collides, AllExplained, Next, IsTarget;
    RunRows(plan, trace, labels, i);
    RunExplains(plan, trace, labels, i);
    WorkerFits(plan, trace[i], t);
    CreateFails(plan, trace[i], t);
    TakenName(plan, trace[i], t, trace[0].files);
  }

  lemma CreateFails(plan: Plan, w: World, t: string)
    requires PlanShape(plan) && w.proc.Migrating? && t in w.proc.workers && t in plan.assets && w.proc.workers[t].pc.IntentMarked?
    requires Next(plan, w, WorkerCreate(t)).None?
    ensures TempName(plan, t, w.proc.workers[t].attempt) in w.files
  {
    hide PlanShape, MigrateNext, ResumeNext, WorkerRowNext;
  }

  lemma TakenName(plan: Plan, w: World, t: string, first: map<string, Bytes>)
    requires ByteStrings(plan) && DbInv(plan, true, w.db) && AllExplained(plan, w, first)
    requires w.proc.Migrating? && t in w.proc.workers && w.proc.workers[t].pc.IntentMarked?
    requires WorkerOk(plan, w.db, w.proc.epoch, t, w.proc.workers[t])
    requires TempName(plan, t, w.proc.workers[t].attempt) in w.files
    ensures var a := w.proc.workers[t].attempt;
            || TempName(plan, t, a) in first || IsTarget(plan, TempName(plan, t, a))
            || exists b :: b in w.db.attempts && b != a &&
                 Collides(plan.hash, AsBytes(TempPayload(plan.id, t, a)), AsBytes(TempPayload(plan.id, w.db.attempts[b].task, b)))
  {
    hide TI.Inv, DbShape, ByteStrings, Collides, IsTarget;
    var a := w.proc.workers[t].attempt;
    var name := TempName(plan, t, a);
    assert Explained(plan, w, first, name);
    if name !in first && !IsTarget(plan, name) {
      var b :| Created(plan, w, b, name);
      TwoAttemptsCollide(plan, w.db, a, b);
    }
  }
}
