/** The convergence theorem needs its hypotheses on the names of the plan: if a target is a temporary name, or two tasks share
    a target that can be published, there is a run over unchanged sources and an empty directory in which a task becomes
    INCONSISTENT although every file could be read. Together: only read errors lead to INCONSISTENT if and only if the
    names are apart. */
module NameClashes {
  import CopyModel
  import opened Common
  import opened Tasks
  import opened TaskTables
  import opened TempNames
  import opened Reconciler
  import opened Protocol
  import opened PlanRows
  import opened ProtocolRows
  import opened ProtocolSafety
  import opened QuietInvariant
  import opened RunKit
  import opened MigrateRounds
  import opened AttemptRuns
  import opened ResumeRuns
  import opened Convergence
  import opened ReadErrors
  import opened LostTarget

  /** In every state of every clean run, an INCONSISTENT task has met a read error before. */
  ghost predicate OnlyAfterReadErrors(plan: Plan)
    requires PlanShape(plan)
  {
    forall trace: seq<World>, labels: seq<Label>, i: nat, t: string ::
      CleanRun(plan, trace, labels) && i < |trace|
      && t in trace[i].db.tasks && trace[i].db.tasks[t].state == Inconsistent ==>
        exists k :: 0 <= k < i && ReadFails(trace[k], labels[k], t)
  }

  lemma ApartIsClean(plan: Plan)
    requires PlanShape(plan) && NoFinalIsTemp(plan) && DistinctTargets(plan)
    ensures OnlyAfterReadErrors(plan)
  {
    hide Next, Initial, SourcesFit, NoFinalIsTemp, DistinctTargets, PlanShape;
    forall trace: seq<World>, labels: seq<Label>, i: nat, t: string | CleanRun(plan, trace, labels) && i < |trace|
                                      && t in trace[i].db.tasks && trace[i].db.tasks[t].state == Inconsistent
      ensures exists k :: 0 <= k < i && ReadFails(trace[k], labels[k], t)
    {
      RunRows(plan, trace, labels, i);
      RecordedIsPlanned(plan, trace[i], t);
      InconsistentOnlyAfterReadError(plan, trace, labels, i, t);
    }
  }

  lemma RecordedIsPlanned(plan: Plan, w: World, t: string)
    requires RowInv(plan, w) && t in w.db.tasks
    ensures t in plan.assets
  {
    assert TaskShape(plan, w.db, t);
  }

  // ---------------------------------------------------------------- no receipt, no read error

  predicate NeverCertified(db: Tables, t: string) {
    forall k :: k in db.receipts ==> k.0 != t
  }

  /** Only what a receipt vouches for is read again. */
  lemma ReadFailureNeedsReceipt(plan: Plan, w: World, l: Label, w': World, t: string)
    requires PlanShape(plan) && RowInv(plan, w) && Next(plan, w, l) == Some(w') && ReadFails(w, l, t)
    ensures !NeverCertified(w.db, t)
  {
    hide RowInv, MigrateNext, WorkerNext, DbInv, MatchesPlan, Decide, Shows, PickNext, StartNext;
    CaseInHand(plan, w);
    var c := w.proc.step.c;
    assert CaseProven(plan, w.db, c);
    assert (c.task, c.attempt) in w.db.receipts;
  }

  /** Receipts stay, so a task that has none in the end never met a read error. */
  lemma NoReadFailedBefore(plan: Plan, trace: seq<World>, labels: seq<Label>, i: nat, k: nat, t: string)
    requires PlanShape(plan) && IsRun(plan, trace, labels) && Initial(trace[0]) && k < i < |trace|
    requires NeverCertified(trace[i].db, t)
    ensures !ReadFails(trace[k], labels[k], t)
  {
    hide Next, RowInv, PlanShape, ReadFails;
    if ReadFails(trace[k], labels[k], t) {
      RunRows(plan, trace, labels, k);
      assert Next(plan, trace[k], labels[k]) == Some(trace[k + 1]);
      ReadFailureNeedsReceipt(plan, trace[k], labels[k], trace[k + 1], t);
      RunRemembers(plan, trace, labels, k, i);
    }
  }

  /** A calm run from the empty directory to an INCONSISTENT task without a receipt. */
  lemma RefutedBy(plan: Plan, w: World, t: string)
    requires Viable(plan) && Leads(plan, EmptyWorld(plan), w)
    requires t in w.db.tasks && w.db.tasks[t].state == Inconsistent && NeverCertified(w.db, t)
    ensures !OnlyAfterReadErrors(plan)
  {
    hide Next, Materialize, PlanShape, NeverCertified, ReadFails;
    EmptyWorldFits(plan);
    var trace: seq<World>, labels: seq<Label> :| CalmRun(plan, trace, labels) && trace[0] == EmptyWorld(plan) && trace[|labels|] == w;
    assert CleanRun(plan, trace, labels);
    forall k | 0 <= k < |labels| ensures !ReadFails(trace[k], labels[k], t) {
      NoReadFailedBefore(plan, trace, labels, |labels|, k, t);
    }
    assert trace[|labels|].db.tasks[t].state == Inconsistent;
  }

  // ---------------------------------------------------------------- a target that is a temporary name

  /** The attempt of `t` has created the temporary file that is called like the target of `u` when the process dies. */
  lemma DiesAfterCreate(plan: Plan, t: string, n: nat, u: string) returns (w: World)
    requires Viable(plan) && NameClash(plan, t, n, u)
    ensures At(plan, EmptyWorld(plan), w) && w.proc.Idle? && w.db.epoch == n && w.db.receipts == map[]
    ensures Ripe(plan, w, u) && CaseFor(w.db, u).receipt.None? && plan.assets[u].spec.target in w.files
  {
    hide Inv, Leads, Next, Materialize, PlanShape, NoneDone;
    var w0, a := EmptyWorld(plan), GeneratedAttemptId(plan.id, t, n);
    TempIsSingle(plan, t, n);
    var w1 := TwoWorkers(plan, t, n, u);
    var w2 := Opens(plan, w0, w1, t, a);
    var w3 := MarksIntent(plan, w0, w2, t, a);
    var w4 := Creates(plan, w0, w3, t, a);
    MigratingIsWritten(plan, w4);
    w := Crashes(plan, w0, w4);
  }

  lemma ClashIsUnclean(plan: Plan, t: string, n: nat, u: string)
    requires Viable(plan) && NameClash(plan, t, n, u)
    ensures !OnlyAfterReadErrors(plan)
  {
    hide Inv, Leads, Next, Materialize, PlanShape, Ripe, OnlyAfterReadErrors;
    var w1 := DiesAfterCreate(plan, t, n, u);
    var w := DeclaredInconsistent(plan, EmptyWorld(plan), w1, u);
    RefutedBy(plan, w, u);
  }

  // ---------------------------------------------------------------- a target of two tasks

  /** Both tasks are claimed, `t` gets its receipt, and the process dies. */
  lemma OneReceiptOfTwo(plan: Plan, t: string, u: string) returns (w: World)
    requires Viable(plan) && Attemptable(plan, t) && u in plan.assets && t != u
    requires plan.assets[t].spec.target == plan.assets[u].spec.target
    ensures var a, content := GeneratedAttemptId(plan.id, t, 1), CopyModel.Zeros(plan.assets[t].identity.size);
            && At(plan, EmptyWorld(plan), w) && w.proc.Idle? && w.db.epoch == 1
            && Certified(plan, w, t, a, content) && w.files == map[TempName(plan, t, a) := content]
    ensures Ripe(plan, w, u) && CaseFor(w.db, u).receipt.None? && NeverCertified(w.db, u)
  {
    hide Inv, Leads, Next, Materialize, PlanShape, NoneDone;
    var w0, a, content := EmptyWorld(plan), GeneratedAttemptId(plan.id, t, 1), CopyModel.Zeros(plan.assets[t].identity.size);
    var w1 := TwoWorkers(plan, t, 1, u);
    var w2 := ToReceipt(plan, w0, w1, t, a, content);
    MigratingIsWritten(plan, w2);
    w := Crashes(plan, w0, w2);
  }

  lemma SharedIsUnclean(plan: Plan, t: string, u: string)
    requires Viable(plan) && NoFinalIsTemp(plan) && Attemptable(plan, t) && u in plan.assets && t != u
    requires plan.assets[t].spec.target == plan.assets[u].spec.target
    ensures !OnlyAfterReadErrors(plan)
  {
    hide Inv, Leads, Next, Materialize, PlanShape, NoFinalIsTemp, Unendangered, Certified, OnlyAfterReadErrors;
    var w0, a, content := EmptyWorld(plan), GeneratedAttemptId(plan.id, t, 1), CopyModel.Zeros(plan.assets[t].identity.size);
    NoClashNoDanger(plan);
    FirstTempIsApart(plan, t);
    var w1 := OneReceiptOfTwo(plan, t, u);
    var w2 := Publishes(plan, w0, w1, t, a, content);
    var w := DeclaredInconsistent(plan, w0, w2, u);
    RefutedBy(plan, w, u);
  }

  // ---------------------------------------------------------------- only read errors, if and only if the names are apart

  /** The theorem on INCONSISTENT and its converse. Over unchanged sources and absent targets, only read errors make the
      tasks of a viable plan INCONSISTENT if and only if no target is a temporary name and no two tasks share a target
      that one of them can publish. */
  lemma CleanExactly(plan: Plan)
    requires Viable(plan)
    ensures OnlyAfterReadErrors(plan) <==> NoFinalIsTemp(plan) && DistinctTargets(plan)
  {
    hide Viable, OnlyAfterReadErrors, NameClash;
    assert PlanShape(plan) by { ViableShape(plan); }
    if !NoFinalIsTemp(plan) {
      var t, n: nat, u :| NameClash(plan, t, n, u);
      ClashIsUnclean(plan, t, n, u);
    } else if DistinctTargets(plan) {
      ApartIsClean(plan);
    } else {
      var t, u :| Attemptable(plan, t) && u in plan.assets && t != u && plan.assets[t].spec.target == plan.assets[u].spec.target;
      SharedIsUnclean(plan, t, u);
    }
  }
}
