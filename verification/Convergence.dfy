/** What undisturbed runs converge to: a task becomes INCONSISTENT only after a read error, and a resume that runs to its
    end turns every RUNNING task with a durable receipt into SUCCEEDED and the others into RETRYABLE. */
module Convergence {
  import opened Common
  import opened Tasks
  import opened TaskTables
  import TI = TableInvariants
  import opened Reconciler
  import opened Protocol
  import opened PlanRows
  import opened ProtocolRows
  import opened ProtocolSafety
  import opened ProtocolRuns
  import opened QuietInvariant
  import opened QuietMigrate
  import opened QuietResume

  /** A run over unchanged sources whose targets were absent at the start. Crashes and failing calls may occur anywhere. */
  ghost predicate CleanRun(plan: Plan, trace: seq<World>, labels: seq<Label>)
    requires PlanShape(plan)
  {
    && IsRun(plan, trace, labels) && Initial(trace[0]) && SourcesFit(plan, trace[0].sources)
    && (forall t :: t in plan.assets ==> plan.assets[t].spec.target !in trace[0].files)
    && (forall i :: 0 <= i < |labels| ==> !labels[i].SourceChanges?)
  }

  /** The same of a plan whose names disturb nobody either (`NameClashes.CleanExactly` shows that this is needed). */
  ghost predicate UndisturbedRun(plan: Plan, trace: seq<World>, labels: seq<Label>)
    requires PlanShape(plan)
  {
    NoFinalIsTemp(plan) && DistinctTargets(plan) && CleanRun(plan, trace, labels)
  }

  lemma StepKeepsQuiet(plan: Plan, w: World, l: Label, w': World, hurt: set<string>)
    requires PlanShape(plan) && NoFinalIsTemp(plan) && DistinctTargets(plan) && Inv(plan, w) && Quiet(plan, w, hurt)
    requires Next(plan, w, l) == Some(w') && !l.SourceChanges?
    ensures Quiet(plan, w', HurtBy(w, l, hurt))
  {
    hide Inv, Quiet, NoFinalIsTemp, DistinctTargets, MigrateNext, WorkerNext, RecoverOneNext, StartNext, PickNext;
    if l.Stop? {
      PhaseQuiet(plan, w, Idle, hurt);
    } else if IsMigrateLabel(l) {
      MigrateStepQuiet(plan, w, l, w', hurt);
    } else if IsWorkerLabel(l) {
      WorkerStepQuiet(plan, w, l.task, l, w', hurt);
    } else if l.ResumeStart? {
      StartNextQuiet(plan, w, w', hurt);
    } else if l.ResumePick? {
      PickNextQuiet(plan, w, w', hurt);
    } else if l.ResumeSkip? {
      SkipNextQuiet(plan, w, w', hurt);
    } else {
      OtherNextQuiet(plan, w, l, w', hurt);
    }
  }

  /** The tasks whose confirmation by a resume has met a read error before state i. */
  ghost function HurtBefore(trace: seq<World>, labels: seq<Label>, i: nat): set<string>
    requires |trace| == |labels| + 1 && i < |trace|
  {
    if i == 0 then {} else HurtBy(trace[i - 1], labels[i - 1], HurtBefore(trace, labels, i - 1))
  }

  /** Step `l` fails to read the target or the temporary file of `t` while its target is confirmed. */
  predicate ReadFails(w: World, l: Label, t: string) {
    l.ResumeUnreadable? && w.proc.Resuming? && w.proc.step != Pick && w.proc.step.c.task == t
  }

  lemma {:induction false} HurtByReadError(trace: seq<World>, labels: seq<Label>, i: nat, t: string)
    requires |trace| == |labels| + 1 && i < |trace|
    ensures t in HurtBefore(trace, labels, i) <==> exists k :: 0 <= k < i && ReadFails(trace[k], labels[k], t)
  {
    if i > 0 {
      HurtByReadError(trace, labels, i - 1, t);
      assert ReadFails(trace[i - 1], labels[i - 1], t) ==> t in HurtBefore(trace, labels, i);
    }
  }

  lemma InitialQuiet(plan: Plan, w: World)
    requires Initial(w) && SourcesFit(plan, w.sources)
    requires forall t :: t in plan.assets ==> plan.assets[t].spec.target !in w.files
    ensures Quiet(plan, w, {})
  {
  }

  lemma UndisturbedInv(plan: Plan, trace: seq<World>, labels: seq<Label>, i: nat)
    requires PlanShape(plan) && UndisturbedRun(plan, trace, labels) && i < |trace|
    ensures Inv(plan, trace[i])
  {
    hide Inv, Next, Initial, SourcesFit;
    NoClashNoDanger(plan);
    RunInv(plan, trace, labels, i);
  }

  lemma RunStepQuiet(plan: Plan, trace: seq<World>, labels: seq<Label>, i: nat, hurt: set<string>)
    requires PlanShape(plan) && UndisturbedRun(plan, trace, labels) && i < |labels| && Quiet(plan, trace[i], hurt)
    ensures Quiet(plan, trace[i + 1], HurtBy(trace[i], labels[i], hurt))
  {
    hide Inv, Next, Quiet, Initial, SourcesFit;
    UndisturbedInv(plan, trace, labels, i);
    assert Next(plan, trace[i], labels[i]) == Some(trace[i + 1]);
    StepKeepsQuiet(plan, trace[i], labels[i], trace[i + 1], hurt);
  }

  lemma {:induction false} RunQuiet(plan: Plan, trace: seq<World>, labels: seq<Label>, i: nat)
    requires PlanShape(plan) && UndisturbedRun(plan, trace, labels) && i < |trace|
    ensures Quiet(plan, trace[i], HurtBefore(trace, labels, i))
  {
    hide Next, Quiet, Initial, SourcesFit, HurtBy;
    if i == 0 {
      InitialQuiet(plan, trace[0]);
    } else {
      RunQuiet(plan, trace, labels, i - 1);
      RunStepQuiet(plan, trace, labels, i - 1, HurtBefore(trace, labels, i - 1));
    }
  }

  /** In an undisturbed run a task becomes INCONSISTENT only if an earlier resume could not read its files while it
      confirmed its target (and `ReadErrorLeadsToInconsistent` shows that it then can). Whatever happens, a published
      target holds exactly the source bytes, and unless there was such a read error it belongs to a task that is
      SUCCEEDED or has its receipt. */
  lemma InconsistentOnlyAfterReadError(plan: Plan, trace: seq<World>, labels: seq<Label>, i: nat, t: string)
    requires PlanShape(plan) && UndisturbedRun(plan, trace, labels) && i < |trace| && t in plan.assets
    ensures t in trace[i].db.tasks && trace[i].db.tasks[t].state == Inconsistent ==>
              exists k :: 0 <= k < i && ReadFails(trace[k], labels[k], t)
    ensures var target := plan.assets[t].spec.target;
            target in trace[i].files ==>
              && t in trace[i].sources && trace[i].sources[t].Present? && trace[i].files[target] == trace[i].sources[t].content
              && (IsRunningOrDone(trace[i].db, t) || exists k :: 0 <= k < i && ReadFails(trace[k], labels[k], t))
  {
    hide Next, Initial;
    RunQuiet(plan, trace, labels, i);
    HurtByReadError(trace, labels, i, t);
    var w := trace[i];
    assert AssetQuiet(plan, w.db, w.files, w.proc.Migrating?, t, Content(plan, w.sources, t), HurtBefore(trace, labels, i));
  }

  predicate IsRunningOrDone(db: Tables, t: string) {
    t in db.tasks && (db.tasks[t].state == Succeeded || HasReceipt(db, t))
  }

  // ---------------------------------------------------------------- one whole resume

  predicate IsMulti(plan: Plan, t: string) {
    t in plan.assets && !SingleComponent(plan.assets[t].spec.target)
  }

  /** A step of a resume that meets no error: recover_one is abandoned only where it always is, at a target of several
      components. */
  predicate Smooth(plan: Plan, w: World, l: Label) {
    && !IsMigrateLabel(l) && !IsWorkerLabel(l) && !l.Stop? && !l.ResumeStart? && !l.SourceChanges? && !l.ResumeUnreadable?
    && (l.ResumeSkip? ==> w.proc.Resuming? && w.proc.step.Pick? && w.proc.todo != [] && IsMulti(plan, w.proc.todo[0]))
  }

  /** What a resume that begins with these rows and files makes of a RUNNING task. */
  function Promised(plan: Plan, db: Tables, files: map<string, Bytes>, t: string): TaskState {
    if HasReceipt(db, t) then Succeeded
    else if t in plan.assets && plan.assets[t].spec.target in files then Inconsistent else Retryable
  }

  predicate AtHand(proc: Proc, t: string) {
    proc.Resuming? && (t in proc.todo || (!proc.step.Pick? && proc.step.c.task == t))
  }

  /** Task `t` was RUNNING when the resume began: it still is and is on the list, or it has been settled as promised. */
  ghost predicate OnTrack(plan: Plan, start: World, w: World, t: string) {
    && t in w.db.tasks && t in start.db.tasks && t in plan.assets
    && ((&& w.db.tasks[t] == start.db.tasks[t] && (AtHand(w.proc, t) || IsMulti(plan, t))
         && (HasReceipt(start.db, t) || (plan.assets[t].spec.target in w.files <==> plan.assets[t].spec.target in start.files)))
        || (!IsMulti(plan, t) && w.db.tasks[t].state == Promised(plan, start.db, start.files, t)))
  }

  ghost predicate Segment(plan: Plan, start: World, w: World) {
    && w.proc.Resuming? && w.db.receipts == start.db.receipts
    && (!w.proc.step.Pick? ==> !IsMulti(plan, w.proc.step.c.task))
    && StepQuiet(plan, w.files, w.proc.step)
    && forall t {:trigger OnTrack(plan, start, w, t)} :: IsRunning(start.db, t) ==> OnTrack(plan, start, w, t)
  }

  lemma {:induction false} RunningIsListed(db: Tables, order: seq<string>, t: string)
    requires t in order && IsRunning(db, t)
    ensures t in RunningIn(db, order)
  {
    if order[0] != t {
      RunningIsListed(db, order[1..], t);
    }
  }

  lemma SegmentStarts(plan: Plan, w: World, w': World)
    requires PlanShape(plan) && DbInv(plan, w.materialized, w.db) && StartNext(plan, w) == Some(w')
    ensures Segment(plan, w, w')
  {
    forall t | IsRunning(w.db, t) ensures OnTrack(plan, w, w', t) {
      assert TaskShape(plan, w.db, t);
      RunningIsListed(w.db, plan.order, t);
    }
  }

  lemma PickOnTrack(plan: Plan, start: World, w: World, w': World, t: string)
    requires w.proc.Resuming? && OnTrack(plan, start, w, t) && PickNext(plan, w) == Some(w')
    ensures OnTrack(plan, start, w', t)
  {
    assert w.proc.todo == [w.proc.todo[0]] + w.proc.todo[1..];
  }

  lemma PickSegment(plan: Plan, start: World, w: World, w': World)
    requires Segment(plan, start, w) && w.proc.Resuming? && PickNext(plan, w) == Some(w') && w'.proc.step.Loaded?
    ensures Segment(plan, start, w')
  {
    hide OnTrack;
    forall t | IsRunning(start.db, t) ensures OnTrack(plan, start, w', t) {
      assert OnTrack(plan, start, w, t);
      PickOnTrack(plan, start, w, w', t);
    }
  }

  lemma SkipOnTrack(plan: Plan, start: World, w: World, t: string)
    requires w.proc.Resuming? && w.proc.step.Pick? && w.proc.todo != [] && IsMulti(plan, w.proc.todo[0]) && OnTrack(plan, start, w, t)
    ensures OnTrack(plan, start, w.(proc := w.proc.(todo := w.proc.todo[1..])), t)
  {
    assert w.proc.todo == [w.proc.todo[0]] + w.proc.todo[1..];
  }

  lemma SkipSegment(plan: Plan, start: World, w: World)
    requires Segment(plan, start, w) && w.proc.step.Pick? && w.proc.todo != [] && IsMulti(plan, w.proc.todo[0])
    ensures Segment(plan, start, w.(proc := w.proc.(todo := w.proc.todo[1..])))
  {
    hide OnTrack;
    forall t | IsRunning(start.db, t) ensures OnTrack(plan, start, w.(proc := w.proc.(todo := w.proc.todo[1..])), t) {
      assert OnTrack(plan, start, w, t);
      SkipOnTrack(plan, start, w, t);
    }
  }

  /** Every step on the way to settling keeps the case. */
  lemma CaseStays(plan: Plan, w: World, l: Label)
    requires w.proc.Resuming? && !w.proc.step.Pick? && w.proc.step.c.task in plan.assets && w.proc.step.c.task in w.db.tasks
    requires RecoverOneNext(plan, w, l).Some? && !l.ResumeSettle?
    ensures var w' := RecoverOneNext(plan, w, l).value;
            w'.proc.Resuming? && w'.proc.todo == w.proc.todo && !w'.proc.step.Pick? && w'.proc.step.c == w.proc.step.c
            && w'.db == w.db && !l.ResumePick? && !l.ResumeSkip? && !l.ResumeStart?
  {
    hide Decide, Shows, ObserveTemp, ObserveFinal, ObserveSource, Recover;
  }

  /** Which files a step of recover_one touches. */
  lemma FileMoves(plan: Plan, w: World, l: Label)
    requires w.proc.Resuming? && !w.proc.step.Pick? && w.proc.step.c.task in plan.assets && w.proc.step.c.task in w.db.tasks
    requires RecoverOneNext(plan, w, l).Some?
    ensures var files' := RecoverOneNext(plan, w, l).value.files;
            var intent := IntentFor(plan, w.proc.step.c);
            && (forall name :: name != intent.tempPath && name != intent.finalPath ==> (name in files' <==> name in w.files))
            && ((l.ResumeUnlink? && w.proc.step.UnlinkTemp?) || (l.ResumeRename? && w.proc.step.RenameTemp?) || files' == w.files)
  {
    hide Decide, Shows;
  }

  /** A step that moves files works for a task with a receipt, and touches no target of another task. */
  lemma MovedNames(plan: Plan, w: World, t: string)
    requires NoFinalIsTemp(plan) && DistinctTargets(plan) && DbInv(plan, true, w.db) && t in plan.assets
    requires w.proc.Resuming? && (w.proc.step.UnlinkTemp? || w.proc.step.RenameTemp?) && StepOk(plan, w.db, w.proc.step)
    ensures var c := w.proc.step.c;
            && HasReceipt(w.db, c.task) && IntentFor(plan, c).tempPath != plan.assets[t].spec.target
            && (t != c.task ==> IntentFor(plan, c).finalPath != plan.assets[t].spec.target)
  {
    hide TI.Inv, DbShape, NoFinalIsTemp, Shows, MatchesPlan;
    var c := w.proc.step.c;
    CaseAttemptable(plan, w.db, c);
    CaseReceipt(plan, w.db, c);
    RunningIsHeld(plan, w.db, c.task);
    AttemptTemp(plan, w.db, c.attempt);
    TargetNotTemp(plan, t);
  }

  /** A step of recover_one before the settling keeps every task on track. */
  lemma LookOnTrack(plan: Plan, start: World, w: World, l: Label, w': World, t: string)
    requires NoFinalIsTemp(plan) && DistinctTargets(plan) && Inv(plan, w)
    requires w.proc.Resuming? && !w.proc.step.Pick? && w.proc.step.c.task in plan.assets && w.proc.step.c.task in w.db.tasks
    requires w.db.receipts == start.db.receipts && StepOk(plan, w.db, w.proc.step)
    requires OnTrack(plan, start, w, t) && RecoverOneNext(plan, w, l) == Some(w') && !l.ResumeSettle?
    ensures OnTrack(plan, start, w', t)
  {
    hide RecoverOneNext, Inv, DbInv, StepOk, NoFinalIsTemp, DistinctTargets, Promised;
    InvRows(plan, w);
    ResumingIsWritten(plan, w);
    CaseStays(plan, w, l);
    FileMoves(plan, w, l);
    if w'.files != w.files {
      MovedNames(plan, w, t);
    }
  }

  lemma SettleSegment(plan: Plan, start: World, w: World, c: Case, w': World)
    requires Segment(plan, start, w) && CaseOk(plan, w.db, c) && w.proc.step == Settle(c, Expected(plan, w.files, c))
    requires Recover(w.db, c.task, w.proc.epoch, c.owner, c.attempt, Expected(plan, w.files, c)).Ok?
    requires w' == SetStep(w.(db := Recover(w.db, c.task, w.proc.epoch, c.owner, c.attempt, Expected(plan, w.files, c)).value), Pick)
    ensures Segment(plan, start, w')
  {
    hide Recover, MatchesPlan;
    RecoverTouches(w.db, w.proc.epoch, c, Expected(plan, w.files, c));
    forall t | IsRunning(start.db, t) ensures OnTrack(plan, start, w', t) {
      assert OnTrack(plan, start, w, t);
    }
  }

  lemma LookSegment(plan: Plan, start: World, w: World, l: Label, w': World, hurt: set<string>)
    requires NoFinalIsTemp(plan) && DistinctTargets(plan) && Inv(plan, w) && Quiet(plan, w, hurt) && Segment(plan, start, w)
    requires !w.proc.step.Pick? && w.proc.step.c.task in plan.assets && w.proc.step.c.task in w.db.tasks
    requires RecoverOneNext(plan, w, l) == Some(w') && !l.ResumeSettle? && !l.ResumeUnreadable?
    ensures Segment(plan, start, w')
  {
    hide RecoverOneNext, OnTrack, NoFinalIsTemp, DistinctTargets, DbInv, FilesInv, SourcesFit, AssetsQuiet, TempsOwned;
    CaseStays(plan, w, l);
    StrictStep(plan, w, l, w', hurt);
    forall t | IsRunning(start.db, t) ensures OnTrack(plan, start, w', t) {
      assert OnTrack(plan, start, w, t);
      LookOnTrack(plan, start, w, l, w', t);
    }
  }

  /** A step of recover_one that meets no read error keeps to the expected verdict. */
  lemma StrictStep(plan: Plan, w: World, l: Label, w': World, hurt: set<string>)
    requires Inv(plan, w) && Quiet(plan, w, hurt) && w.proc.Resuming? && StepQuiet(plan, w.files, w.proc.step)
    requires !w.proc.step.Pick? && w.proc.step.c.task in plan.assets && w.proc.step.c.task in w.db.tasks
    requires RecoverOneNext(plan, w, l) == Some(w') && !l.ResumeSettle? && !l.ResumeUnreadable?
    ensures w'.proc.Resuming? && StepQuiet(plan, w'.files, w'.proc.step)
  {
    hide DecideNext, DbInv, FilesInv, AssetsQuiet, TempsOwned, Shows, MatchesPlan;
    StepCase(plan, w, hurt);
    RecoverOneLabels(plan, w, l);
    if l.ResumeFinal? {
      RecoverOneForm(plan, w, l, w');
      DecideQuiet(plan, w, w.proc.step.c, w'.proc.step, hurt);
    } else if IsLook(l) {
      RecoverOneForm(plan, w, l, w');
      LookQuiet(plan, w, l, w'.proc.step, hurt);
    }
  }

  lemma SegmentStep(plan: Plan, start: World, w: World, l: Label, w': World, hurt: set<string>)
    requires PlanShape(plan) && NoFinalIsTemp(plan) && DistinctTargets(plan) && Inv(plan, w) && Quiet(plan, w, hurt)
    requires Segment(plan, start, w) && ResumeNext(plan, w, l) == Some(w') && Smooth(plan, w, l)
    ensures Segment(plan, start, w')
  {
    hide Inv, Quiet, NoFinalIsTemp, DistinctTargets, PickNext, RecoverOneNext, OnTrack;
    if l.ResumeSettle? {
      SettleExpected(plan, w, w');
      SettleSegment(plan, start, w, w.proc.step.c, w');
    } else if l.ResumePick? {
      PickIsLoaded(plan, w, w', hurt);
      PickSegment(plan, start, w, w');
    } else if l.ResumeSkip? {
      SkipSegment(plan, start, w);
    } else {
      LookSegment(plan, start, w, l, w', hurt);
    }
  }

  lemma SettleExpected(plan: Plan, w: World, w': World)
    requires Inv(plan, w) && ResumeNext(plan, w, ResumeSettle) == Some(w') && StepQuiet(plan, w.files, w.proc.step)
    ensures w.proc.Resuming? && w.proc.step.Settle? && CaseOk(plan, w.db, w.proc.step.c)
    ensures var c := w.proc.step.c;
            && w.proc.step == Settle(c, Expected(plan, w.files, c))
            && Recover(w.db, c.task, w.proc.epoch, c.owner, c.attempt, Expected(plan, w.files, c)).Ok?
            && w' == SetStep(w.(db := Recover(w.db, c.task, w.proc.epoch, c.owner, c.attempt, Expected(plan, w.files, c)).value), Pick)
  {
    hide DbInv, FilesInv, Recover, PickNext, StartNext, DecideNext;
  }

  lemma PickIsLoaded(plan: Plan, w: World, w': World, hurt: set<string>)
    requires Inv(plan, w) && Quiet(plan, w, hurt) && ResumeNext(plan, w, ResumePick) == Some(w')
    ensures w.proc.Resuming? && PickNext(plan, w) == Some(w') && w'.proc.Resuming? && w'.proc.step.Loaded?
  {
    hide Inv, Quiet, RecoverOneNext, StartNext;
    PickQuiet(plan, w, hurt);
  }

  /** Steps first+1 .. last of the run are those of one resume that meets no error. */
  ghost predicate SmoothFrom(plan: Plan, trace: seq<World>, labels: seq<Label>, first: nat, last: nat)
    requires |trace| == |labels| + 1
  {
    && first < last < |trace| && labels[first] == ResumeStart
    && forall k {:trigger labels[k]} :: first < k < last ==> Smooth(plan, trace[k], labels[k])
  }

  lemma SmoothIsResume(plan: Plan, w: World, l: Label, w': World)
    requires PlanShape(plan) && Smooth(plan, w, l) && Next(plan, w, l) == Some(w')
    ensures ResumeNext(plan, w, l) == Some(w')
  {
    hide MigrateNext, WorkerNext, ResumeNext;
  }

  lemma SegmentAdvances(plan: Plan, trace: seq<World>, labels: seq<Label>, first: nat, k: nat)
    requires PlanShape(plan) && UndisturbedRun(plan, trace, labels) && first < k < |labels|
    requires Segment(plan, trace[first], trace[k]) && Smooth(plan, trace[k], labels[k])
    ensures Segment(plan, trace[first], trace[k + 1])
  {
    hide Inv, Quiet, Next, Segment, Smooth, Initial, SourcesFit;
    UndisturbedInv(plan, trace, labels, k);
    RunQuiet(plan, trace, labels, k);
    assert Next(plan, trace[k], labels[k]) == Some(trace[k + 1]);
    SmoothIsResume(plan, trace[k], labels[k], trace[k + 1]);
    SegmentStep(plan, trace[first], trace[k], labels[k], trace[k + 1], HurtBefore(trace, labels, k));
  }

  lemma StartIsResume(plan: Plan, w: World, w': World)
    requires PlanShape(plan) && Next(plan, w, ResumeStart) == Some(w')
    ensures StartNext(plan, w) == Some(w')
  {
    hide StartNext, MigrateNext, WorkerNext;
  }

  lemma ResumingIsWritten(plan: Plan, w: World)
    requires Inv(plan, w) && w.proc.Resuming?
    ensures w.materialized
  {
  }

  lemma SegmentBegins(plan: Plan, trace: seq<World>, labels: seq<Label>, first: nat)
    requires PlanShape(plan) && UndisturbedRun(plan, trace, labels) && first < |labels| && labels[first] == ResumeStart
    ensures Segment(plan, trace[first], trace[first + 1])
  {
    hide Inv, Next, Segment, Initial, SourcesFit;
    UndisturbedInv(plan, trace, labels, first);
    InvRows(plan, trace[first]);
    assert Next(plan, trace[first], labels[first]) == Some(trace[first + 1]);
    StartIsResume(plan, trace[first], trace[first + 1]);
    SegmentStarts(plan, trace[first], trace[first + 1]);
  }

  lemma {:induction false} SegmentHolds(plan: Plan, trace: seq<World>, labels: seq<Label>, first: nat, last: nat)
    requires PlanShape(plan) && UndisturbedRun(plan, trace, labels) && SmoothFrom(plan, trace, labels, first, last)
    ensures Segment(plan, trace[first], trace[last])
    decreases last
  {
    hide Next, Segment, Smooth, Initial, SourcesFit;
    if last == first + 1 {
      SegmentBegins(plan, trace, labels, first);
    } else {
      SegmentHolds(plan, trace, labels, first, last - 1);
      assert Smooth(plan, trace[last - 1], labels[last - 1]);
      SegmentAdvances(plan, trace, labels, first, last - 1);
    }
  }

  /** The convergence theorem. In an undisturbed run, from any state that crashes and failing calls can lead to, a resume
      that runs to the end of its list without an error settles every RUNNING task whose target has one component: as
      SUCCEEDED if and only if it has a durable receipt; without one, as INCONSISTENT if its target is published, which
      takes an earlier read error, and as RETRYABLE otherwise. */
  lemma ResumeConverges(plan: Plan, trace: seq<World>, labels: seq<Label>, first: nat, last: nat, t: string)
    requires PlanShape(plan) && UndisturbedRun(plan, trace, labels) && SmoothFrom(plan, trace, labels, first, last)
    requires trace[last].proc.Resuming? && trace[last].proc.todo == [] && trace[last].proc.step.Pick?
    requires IsRunning(trace[first].db, t)
    ensures t in plan.assets && t in trace[last].db.tasks
    ensures trace[last].db.tasks[t].state ==
              if !SingleComponent(plan.assets[t].spec.target) then Running
              else if HasReceipt(trace[first].db, t) then Succeeded
              else if plan.assets[t].spec.target in trace[first].files then Inconsistent else Retryable
    ensures !HasReceipt(trace[first].db, t) && plan.assets[t].spec.target in trace[first].files ==>
              exists k :: 0 <= k < first && ReadFails(trace[k], labels[k], t)
  {
    hide Next, Initial, SourcesFit, StepQuiet;
    SegmentHolds(plan, trace, labels, first, last);
    assert OnTrack(plan, trace[first], trace[last], t);
    InconsistentOnlyAfterReadError(plan, trace, labels, first, t);
  }

  // ---------------------------------------------------------------- targets of several components

  /** Nothing in hand can settle `t`. */
  ghost predicate Stuck(plan: Plan, w: World, t: string) {
    && IsMulti(plan, t) && IsRunning(w.db, t) && w.materialized
    && !w.proc.MigrateReadying? && !w.proc.Migrating?
    && (w.proc.Resuming? && !w.proc.step.Pick? ==> w.proc.step.c.task != t)
  }

  lemma SettleKeepsStuck(plan: Plan, w: World, t: string)
    requires Stuck(plan, w, t) && w.proc.Resuming? && w.proc.step.Settle?
    requires var c := w.proc.step.c; Recover(w.db, c.task, w.proc.epoch, c.owner, c.attempt, w.proc.step.verdict).Ok?
    ensures var c := w.proc.step.c; IsRunning(Recover(w.db, c.task, w.proc.epoch, c.owner, c.attempt, w.proc.step.verdict).value, t)
  {
  }

  lemma ResumeKeepsStuck(plan: Plan, w: World, l: Label, w': World, t: string)
    requires Stuck(plan, w, t) && ResumeNext(plan, w, l) == Some(w')
    ensures Stuck(plan, w', t)
  {
    if l.ResumeSettle? {
      SettleKeepsStuck(plan, w, t);
    } else if !l.ResumeStart? && !l.ResumePick? && !l.ResumeSkip? {
      CaseStays(plan, w, l);
    }
  }

  lemma StepKeepsStuck(plan: Plan, w: World, l: Label, w': World, t: string)
    requires PlanShape(plan) && Stuck(plan, w, t) && Next(plan, w, l) == Some(w')
    ensures Stuck(plan, w', t)
  {
    if !l.Stop? && !l.SourceChanges? && !IsMigrateLabel(l) {
      ResumeKeepsStuck(plan, w, l, w', t);
    }
  }

  /** A claim puts a task at risk: if the process dies before its worker has given the task back, it is stuck. */
  lemma CrashLeavesStuck(plan: Plan, w: World, t: string)
    requires PlanShape(plan) && RowInv(plan, w) && w.proc.Migrating? && t in w.proc.workers && IsMulti(plan, t)
    ensures Next(plan, w, Stop).Some? && Stuck(plan, Next(plan, w, Stop).value, t)
  {
    hide RowInv, DbInv;
    WorkerFits(plan, w, t);
  }

  lemma {:induction false} StuckStays(plan: Plan, trace: seq<World>, labels: seq<Label>, i: nat, j: nat, t: string)
    requires PlanShape(plan) && IsRun(plan, trace, labels) && i <= j < |trace| && Stuck(plan, trace[i], t)
    ensures Stuck(plan, trace[j], t)
    decreases j
  {
    hide Next, Stuck;
    if i < j {
      StuckStays(plan, trace, labels, i, j - 1, t);
      assert Next(plan, trace[j - 1], labels[j - 1]) == Some(trace[j]);
      StepKeepsStuck(plan, trace[j - 1], labels[j - 1], trace[j], t);
    }
  }

  lemma StuckClaimsNothing(plan: Plan, w: World, l: Label, t: string)
    requires PlanShape(plan) && Stuck(plan, w, t) && Next(plan, w, l).Some?
    ensures !l.MigrateClaim?
  {
  }

  /** In every run of every plan, disturbed or not: if the process dies while a worker has a task whose target has several components,
      that task stays RUNNING in every continuation. Resume refuses it and migrate refuses to start while it is there, so
      no task of the plan is ever claimed again. */
  lemma MultiComponentStuckForever(plan: Plan, trace: seq<World>, labels: seq<Label>, i: nat, j: nat, t: string)
    requires PlanShape(plan) && IsRun(plan, trace, labels) && Initial(trace[0]) && i < j < |trace|
    requires IsMulti(plan, t) && trace[i].proc.Migrating? && t in trace[i].proc.workers && labels[i] == Stop
    ensures IsRunning(trace[j].db, t)
    ensures j < |labels| ==> !labels[j].MigrateClaim?
  {
    hide Next, RowInv, Initial;
    RunRows(plan, trace, labels, i);
    CrashLeavesStuck(plan, trace[i], t);
    assert Next(plan, trace[i], labels[i]) == Some(trace[i + 1]);
    StuckStays(plan, trace, labels, i + 1, j, t);
    if j < |labels| {
      assert Next(plan, trace[j], labels[j]) == Some(trace[j + 1]);
      StuckClaimsNothing(plan, trace[j], labels[j], t);
    }
  }
}
