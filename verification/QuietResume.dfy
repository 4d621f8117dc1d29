/** The steps of `resume` keep the invariant of undisturbed runs, and settle every task as its receipt says. */
module QuietResume {
  import opened Common
  import opened Tasks
  import opened TaskTables
  import TI = TableInvariants
  import opened Reconciler
  import opened Protocol
  import opened PlanRows
  import opened ProtocolRows
  import opened ProtocolSafety
  import opened QuietInvariant

  /** The hurt tasks after step `l`. */
  function HurtBy(w: World, l: Label, hurt: set<string>): set<string> {
    if l.ResumeUnreadable? && w.proc.Resuming? && w.proc.step != Pick then hurt + {w.proc.step.c.task} else hurt
  }

  lemma ResumeStartQuiet(plan: Plan, w: World, proc: Proc, hurt: set<string>)
    requires Quiet(plan, w, hurt) && w.proc.Idle? && proc.Resuming? && proc.step == Pick
    ensures Quiet(plan, w.(db := w.db.(epoch := w.db.epoch + 1), proc := proc), hurt)
  {
    var db' := w.db.(epoch := w.db.epoch + 1);
    forall u | u in plan.assets ensures AssetQuiet(plan, db', w.files, false, u, Content(plan, w.sources, u), hurt) {
      assert AssetQuiet(plan, w.db, w.files, false, u, Content(plan, w.sources, u), hurt);
    }
    OwnedFrame(plan, w.db, w.proc, db', proc);
  }

  /** Only the recovery step and the work list change. */
  lemma MoveStepQuiet(plan: Plan, w: World, todo: seq<string>, step: RecoverStep, hurt: set<string>)
    requires Quiet(plan, w, hurt) && w.proc.Resuming? && StepQuiet(plan, w.files, step)
    ensures Quiet(plan, w.(proc := w.proc.(todo := todo, step := step)), hurt)
  {
    OwnedFrame(plan, w.db, w.proc, w.db, w.proc.(todo := todo, step := step));
  }

  /** What is known of a task that recover_one works on. */
  ghost predicate CaseQuiet(plan: Plan, w: World, c: Case, hurt: set<string>) {
    && c.task in plan.assets && CaseOk(plan, w.db, c)
    && AssetQuiet(plan, w.db, w.files, false, c.task, Content(plan, w.sources, c.task), hurt)
    && IntentFor(plan, c).tempPath == ActiveTemp(plan, w.db, c.task) && IsTempOf(plan, ActiveTemp(plan, w.db, c.task))
    && (HasReceipt(w.db, c.task) <==> c.receipt.Some?)
  }

  lemma CaseIsQuiet(plan: Plan, w: World, c: Case, hurt: set<string>)
    requires Quiet(plan, w, hurt) && w.proc.Resuming? && DbInv(plan, true, w.db) && CaseOk(plan, w.db, c)
    ensures CaseQuiet(plan, w, c, hurt)
  {
    assert AssetQuiet(plan, w.db, w.files, false, c.task, Content(plan, w.sources, c.task), hurt);
    RunningIsHeld(plan, w.db, c.task);
    AttemptTemp(plan, w.db, c.attempt);
    if c.receipt.Some? {
      CaseReceipt(plan, w.db, c);
    }
  }

  /** Where the bytes vouched for by a receipt are. */
  lemma ReceiptShown(plan: Plan, w: World, c: Case, hurt: set<string>)
    requires CaseQuiet(plan, w, c, hurt) && c.receipt.Some?
    ensures var target := plan.assets[c.task].spec.target;
            if target in w.files then Shows(plan, w.files, target, c.receipt.value)
            else Shows(plan, w.files, IntentFor(plan, c).tempPath, c.receipt.value)
  {
  }

  /** No receipt of an undisturbed run contradicts the plan. */
  lemma ReceiptMatches(plan: Plan, w: World, c: Case, hurt: set<string>)
    requires CaseQuiet(plan, w, c, hurt) && DbInv(plan, true, w.db) && SourcesFit(plan, w.sources) && c.receipt.Some?
    ensures MatchesPlan(plan, c)
  {
    assert ReceiptShape(plan, w.db, (c.task, c.attempt));
    assert TI.ReceiptOk(w.db, (c.task, c.attempt));
    assert TI.TaskOk(w.db, c.task);
  }

  lemma PickQuiet(plan: Plan, w: World, hurt: set<string>)
    requires Quiet(plan, w, hurt) && Inv(plan, w) && w.proc.Resuming? && PickNext(plan, w).Some?
    ensures Quiet(plan, PickNext(plan, w).value, hurt) && PickNext(plan, w).value.proc.step.Loaded?
  {
    var c := CaseFor(w.db, w.proc.todo[0]);
    CaseIsQuiet(plan, w, c, hurt);
    if c.receipt.Some? {
      ReceiptMatches(plan, w, c, hurt);
    }
    MoveStepQuiet(plan, w, w.proc.todo[1..], Loaded(c), hurt);
  }

  /** The decision in an undisturbed run: publish or adopt with a receipt, retry without one. */
  lemma DecideQuiet(plan: Plan, w: World, c: Case, step: RecoverStep, hurt: set<string>)
    requires w.proc.Resuming? && CaseQuiet(plan, w, c, hurt)
    requires DecideNext(plan, w, c, ObserveTemp(plan, w.files, IntentFor(plan, c).tempPath, AVAILABLE)) == Some(SetStep(w, step))
    ensures StepQuiet(plan, w.files, step) && step.c == c
  {
    if c.receipt.Some? {
      ReceiptShown(plan, w, c, hurt);
    }
  }

  predicate IsConfirm(l: Label) {
    l.ResumeConfirmFinal? || l.ResumeConfirmTemp? || l.ResumeRecheck?
  }

  /** A second look at the bytes finds what the first one saw. */
  lemma ConfirmQuiet(plan: Plan, w: World, l: Label, step: RecoverStep, hurt: set<string>)
    requires w.proc.Resuming? && w.proc.step != Pick && CaseQuiet(plan, w, w.proc.step.c, hurt)
    requires StepShown(plan, w.files, w.proc.step) && StepQuiet(plan, w.files, w.proc.step)
    requires IsConfirm(l) && RecoverOneNext(plan, w, l) == Some(SetStep(w, step))
    ensures StepQuiet(plan, w.files, step)
  {
    hide DecideNext, AssetQuiet, IsTempOf, SourcesFit;
    ReceiptShown(plan, w, w.proc.step.c, hurt);
  }

  lemma LookQuiet(plan: Plan, w: World, l: Label, step: RecoverStep, hurt: set<string>)
    requires w.proc.Resuming? && w.proc.step != Pick && CaseQuiet(plan, w, w.proc.step.c, hurt) && SourcesFit(plan, w.sources)
    requires StepShown(plan, w.files, w.proc.step) && StepQuiet(plan, w.files, w.proc.step)
    requires IsLook(l) && !l.ResumeUnreadable? && RecoverOneNext(plan, w, l) == Some(SetStep(w, step))
    ensures StepQuiet(plan, w.files, step)
  {
    if IsConfirm(l) {
      ConfirmQuiet(plan, w, l, step, hurt);
    }
  }

  // ---------------------------------------------------------------- steps that change files or rows

  lemma FileMoveQuiet(plan: Plan, w: World, files': map<string, Bytes>, t: string, step: RecoverStep, hurt: set<string>)
    requires Quiet(plan, w, hurt) && w.proc.Resuming? && StepQuiet(plan, files', step) && t in plan.assets
    requires forall u :: u in plan.assets && u != t ==> SameFiles(plan, w.db, w.files, files', u)
    requires AssetQuiet(plan, w.db, files', false, t, Content(plan, w.sources, t), hurt)
    ensures Quiet(plan, SetStep(w.(files := files'), step), hurt)
  {
    AssetsMerge(plan, w.db, w.db, w.files, files', false, w.sources, t, hurt);
    OwnedFrame(plan, w.db, w.proc, w.db, w.proc.(step := step));
  }

  /** Removing or renaming the temporary file of one case leaves the files of every other task alone. */
  lemma OthersKeepFiles(plan: Plan, w: World, c: Case, u: string, hurt: set<string>)
    requires NoFinalIsTemp(plan) && Quiet(plan, w, hurt) && CaseQuiet(plan, w, c, hurt) && c.receipt.Some?
    requires u in plan.assets && u != c.task
    ensures SameFiles(plan, w.db, w.files, w.files - {ActiveTemp(plan, w.db, c.task)}, u)
  {
    TargetNotTemp(plan, u);
    assert Evident(w.db, w.proc, c.task);
    assert HasReceipt(w.db, u) ==> Evident(w.db, w.proc, u);
  }

  lemma UnlinkQuiet(plan: Plan, w: World, c: Case, hurt: set<string>)
    requires NoFinalIsTemp(plan) && Quiet(plan, w, hurt) && w.proc.Resuming? && w.proc.step == UnlinkTemp(c) && CaseQuiet(plan, w, c, hurt)
    ensures Quiet(plan, SetStep(w.(files := w.files - {IntentFor(plan, c).tempPath}), Settle(c, RecoverSucceeded)), hurt)
  {
    TargetNotTemp(plan, c.task);
    var files' := w.files - {IntentFor(plan, c).tempPath};
    forall u | u in plan.assets && u != c.task ensures SameFiles(plan, w.db, w.files, files', u) {
      OthersKeepFiles(plan, w, c, u, hurt);
    }
    FileMoveQuiet(plan, w, files', c.task, Settle(c, RecoverSucceeded), hurt);
  }

  lemma RenameOther(plan: Plan, w: World, c: Case, u: string, content: Bytes, hurt: set<string>)
    requires NoFinalIsTemp(plan) && DistinctTargets(plan) && Quiet(plan, w, hurt) && CaseQuiet(plan, w, c, hurt) && c.receipt.Some?
    requires u in plan.assets && u != c.task && DbInv(plan, true, w.db) && Attemptable(plan, c.task)
    ensures SameFiles(plan, w.db, w.files,
              (w.files - {ActiveTemp(plan, w.db, c.task)})[plan.assets[c.task].spec.target := content], u)
  {
    OthersKeepFiles(plan, w, c, u, hurt);
    TargetNotTemp(plan, c.task);
    if HasReceipt(w.db, u) {
      RunningIsHeld(plan, w.db, u);
      assert ReceiptShape(plan, w.db, (u, w.db.tasks[u].active.value));
      AttemptTemp(plan, w.db, w.db.tasks[u].active.value);
    }
  }

  lemma RenameQuiet(plan: Plan, w: World, c: Case, hurt: set<string>)
    requires NoFinalIsTemp(plan) && DistinctTargets(plan)
    requires Quiet(plan, w, hurt) && w.proc.Resuming? && w.proc.step == RenameTemp(c) && CaseQuiet(plan, w, c, hurt)
    requires IntentFor(plan, c).tempPath in w.files && DbInv(plan, true, w.db)
    ensures var temp := IntentFor(plan, c).tempPath;
            Quiet(plan, SetStep(w.(files := (w.files - {temp})[plan.assets[c.task].spec.target := w.files[temp]]),
                                Settle(c, RecoverSucceeded)), hurt)
  {
    ReceiptMatches(plan, w, c, hurt);
    CaseAttemptable(plan, w.db, c);
    var temp := IntentFor(plan, c).tempPath;
    var files' := (w.files - {temp})[plan.assets[c.task].spec.target := w.files[temp]];
    forall u | u in plan.assets && u != c.task ensures SameFiles(plan, w.db, w.files, files', u) {
      RenameOther(plan, w, c, u, w.files[temp], hurt);
    }
    FileMoveQuiet(plan, w, files', c.task, Settle(c, RecoverSucceeded), hurt);
  }

  function StateFor(verdict: Verdict): TaskState {
    match verdict
    case RecoverSucceeded => Succeeded
    case RecoverRetryable => Retryable
    case RecoverInconsistent => Inconsistent
  }

  lemma RecoverTouches(db: Tables, epoch: nat, c: Case, verdict: Verdict)
    requires Recover(db, c.task, epoch, c.owner, c.attempt, verdict).Ok?
    ensures var db' := Recover(db, c.task, epoch, c.owner, c.attempt, verdict).value;
            db'.receipts == db.receipts && OnlyTouches(db, db', c.task, c.attempt)
            && db'.tasks[c.task].state == StateFor(verdict)
  {
    match verdict
    case RecoverSucceeded => ReleaseTouches(db, c.task, c.owner, c.attempt, Succeeded, Committed, None);
    case RecoverRetryable => ReleaseTouches(db, c.task, c.owner, c.attempt, Retryable, AttemptRetryable, Some(IoError));
    case RecoverInconsistent => ReleaseTouches(db, c.task, c.owner, c.attempt, Inconsistent, AttemptInconsistent, Some(Internal));
  }

  /** Settling a task as expected, or giving back a hurt one, keeps the invariant. */
  lemma SettleQuiet(plan: Plan, w: World, c: Case, db': Tables, verdict: Verdict, hurt: set<string>)
    requires Quiet(plan, w, hurt) && w.proc.Resuming? && CaseQuiet(plan, w, c, hurt)
    requires OnlyTouches(w.db, db', c.task, c.attempt) && db'.tasks[c.task].state == StateFor(verdict)
    requires verdict == Expected(plan, w.files, c) || (verdict == RecoverRetryable && c.task in hurt)
    ensures Quiet(plan, SetStep(w.(db := db'), Pick), hurt)
  {
    var t := c.task;
    forall u | u != t ensures SameTask(w.db, db', u) {
      TouchSame(w.db, db', t, c.attempt, u);
    }
    AssetsMerge(plan, w.db, db', w.files, w.files, false, w.sources, t, hurt);
    forall u | Evident(db', w.proc.(step := Pick), u)
      ensures Evident(w.db, w.proc, u) && ActiveTemp(plan, db', u) == ActiveTemp(plan, w.db, u)
    {
      assert u != t && SameTask(w.db, db', u);
    }
    OwnedFrame(plan, w.db, w.proc, db', w.proc.(step := Pick));
  }

  lemma SettleNextQuiet(plan: Plan, w: World, c: Case, verdict: Verdict, hurt: set<string>)
    requires Quiet(plan, w, hurt) && w.proc.Resuming? && w.proc.step == Settle(c, verdict) && CaseQuiet(plan, w, c, hurt)
    requires Recover(w.db, c.task, w.proc.epoch, c.owner, c.attempt, verdict).Ok?
    ensures Quiet(plan, SetStep(w.(db := Recover(w.db, c.task, w.proc.epoch, c.owner, c.attempt, verdict).value), Pick), hurt)
  {
    RecoverTouches(w.db, w.proc.epoch, c, verdict);
    SettleQuiet(plan, w, c, Recover(w.db, c.task, w.proc.epoch, c.owner, c.attempt, verdict).value, verdict, hurt);
  }

  /** A read error while the target is confirmed: from now on the task is hurt. */
  lemma UnreadableQuiet(plan: Plan, w: World, c: Case, hurt: set<string>)
    requires Quiet(plan, w, hurt) && w.proc.Resuming? && CaseQuiet(plan, w, c, hurt)
    ensures Quiet(plan, SetStep(w, Settle(c, RecoverRetryable)), hurt + {c.task})
  {
    var hurt' := hurt + {c.task};
    forall u | u in plan.assets ensures AssetQuiet(plan, w.db, w.files, false, u, Content(plan, w.sources, u), hurt') {
      assert AssetQuiet(plan, w.db, w.files, false, u, Content(plan, w.sources, u), hurt);
    }
    OwnedFrame(plan, w.db, w.proc, w.db, w.proc.(step := Settle(c, RecoverRetryable)));
  }

  // ---------------------------------------------------------------- all steps of resume

  lemma StepCase(plan: Plan, w: World, hurt: set<string>)
    requires Inv(plan, w) && Quiet(plan, w, hurt) && w.proc.Resuming? && w.proc.step != Pick
    ensures CaseQuiet(plan, w, w.proc.step.c, hurt)
  {
    CaseIsQuiet(plan, w, w.proc.step.c, hurt);
  }

  /** What the three steps that change files or rows do. */
  lemma ActForm(plan: Plan, w: World, l: Label, w': World)
    requires w.proc.Resuming? && w.proc.step != Pick && w.proc.step.c.task in plan.assets && w.proc.step.c.task in w.db.tasks
    requires RecoverOneNext(plan, w, l) == Some(w') && (l.ResumeUnlink? || l.ResumeRename? || l.ResumeSettle?)
    ensures var c, temp := w.proc.step.c, IntentFor(plan, w.proc.step.c).tempPath;
            && (l.ResumeUnlink? ==>
                  w.proc.step == UnlinkTemp(c) && w' == SetStep(w.(files := w.files - {temp}), Settle(c, RecoverSucceeded)))
            && (l.ResumeRename? ==>
                  && w.proc.step == RenameTemp(c) && temp in w.files
                  && w' == SetStep(w.(files := (w.files - {temp})[plan.assets[c.task].spec.target := w.files[temp]]),
                                   Settle(c, RecoverSucceeded)))
            && (l.ResumeSettle? ==>
                  && w.proc.step.Settle?
                  && var r := Recover(w.db, c.task, w.proc.epoch, c.owner, c.attempt, w.proc.step.verdict);
                     r.Ok? && w' == SetStep(w.(db := r.value), Pick))
  {
    hide DecideNext, Shows, Recover, TempName;
  }

  lemma ActQuiet(plan: Plan, w: World, l: Label, w': World, hurt: set<string>)
    requires NoFinalIsTemp(plan) && DistinctTargets(plan)
    requires Quiet(plan, w, hurt) && w.proc.Resuming? && w.proc.step != Pick && CaseQuiet(plan, w, w.proc.step.c, hurt)
    requires DbInv(plan, true, w.db) && w.proc.step.c.task in plan.assets && w.proc.step.c.task in w.db.tasks
    requires RecoverOneNext(plan, w, l) == Some(w') && (l.ResumeUnlink? || l.ResumeRename? || l.ResumeSettle?)
    ensures Quiet(plan, w', hurt)
  {
    hide NoFinalIsTemp, DistinctTargets, Quiet, CaseQuiet, DbInv, RecoverOneNext, Recover, TempName;
    ActForm(plan, w, l, w');
    match l
    case ResumeUnlink => UnlinkQuiet(plan, w, w.proc.step.c, hurt);
    case ResumeRename => RenameQuiet(plan, w, w.proc.step.c, hurt);
    case ResumeSettle => SettleNextQuiet(plan, w, w.proc.step.c, w.proc.step.verdict, hurt);
  }

  lemma QuietHere(plan: Plan, w: World, hurt: set<string>)
    requires Quiet(plan, w, hurt) && w.proc.Resuming? && !w.proc.step.Settle?
    ensures SourcesFit(plan, w.sources) && StepQuiet(plan, w.files, w.proc.step)
  {
  }

  lemma ObserveQuiet(plan: Plan, w: World, l: Label, w': World, hurt: set<string>)
    requires Quiet(plan, w, hurt) && w.proc.Resuming? && w.proc.step != Pick && CaseQuiet(plan, w, w.proc.step.c, hurt)
    requires w.proc.step.c.task in plan.assets && w.proc.step.c.task in w.db.tasks
    requires StepShown(plan, w.files, w.proc.step)
    requires RecoverOneNext(plan, w, l) == Some(w') && (IsLook(l) || l.ResumeFinal?) && !l.ResumeUnreadable?
    ensures Quiet(plan, w', hurt)
  {
    hide Quiet, CaseQuiet, RecoverOneNext, DecideNext, StepShown, Shows;
    RecoverOneForm(plan, w, l, w');
    QuietHere(plan, w, hurt);
    if l.ResumeFinal? {
      DecideQuiet(plan, w, w.proc.step.c, w'.proc.step, hurt);
    } else {
      LookQuiet(plan, w, l, w'.proc.step, hurt);
    }
    MoveStepQuiet(plan, w, w.proc.todo, w'.proc.step, hurt);
  }

  lemma UnreadableForm(plan: Plan, w: World, w': World)
    requires w.proc.Resuming? && w.proc.step != Pick && w.proc.step.c.task in plan.assets && w.proc.step.c.task in w.db.tasks
    requires RecoverOneNext(plan, w, ResumeUnreadable) == Some(w')
    ensures w' == SetStep(w, Settle(w.proc.step.c, RecoverRetryable))
  {
    hide DecideNext, Shows, Recover, TempName;
  }

  lemma RecoverOneQuiet(plan: Plan, w: World, l: Label, w': World, hurt: set<string>)
    requires NoFinalIsTemp(plan) && DistinctTargets(plan) && Inv(plan, w) && Quiet(plan, w, hurt)
    requires w.proc.Resuming? && w.proc.step != Pick && w.proc.step.c.task in plan.assets && w.proc.step.c.task in w.db.tasks
    requires RecoverOneNext(plan, w, l) == Some(w')
    ensures Quiet(plan, w', HurtBy(w, l, hurt))
  {
    hide NoFinalIsTemp, DistinctTargets, Quiet, CaseQuiet, Inv, DbInv, RecoverOneNext, StepShown;
    ResumeHere(plan, w);
    StepCase(plan, w, hurt);
    RecoverOneLabels(plan, w, l);
    if l.ResumeUnreadable? {
      UnreadableForm(plan, w, w');
      UnreadableQuiet(plan, w, w.proc.step.c, hurt);
    } else if l.ResumeUnlink? || l.ResumeRename? || l.ResumeSettle? {
      ActQuiet(plan, w, l, w', hurt);
    } else {
      ObserveQuiet(plan, w, l, w', hurt);
    }
  }

  lemma StartNextQuiet(plan: Plan, w: World, w': World, hurt: set<string>)
    requires Quiet(plan, w, hurt) && StartNext(plan, w) == Some(w')
    ensures Quiet(plan, w', hurt)
  {
    ResumeStartQuiet(plan, w, w'.proc, hurt);
    assert w' == w.(db := w.db.(epoch := w.db.epoch + 1), proc := w'.proc);
  }

  lemma SkipNextQuiet(plan: Plan, w: World, w': World, hurt: set<string>)
    requires Quiet(plan, w, hurt) && ResumeNext(plan, w, ResumeSkip) == Some(w')
    ensures Quiet(plan, w', hurt)
  {
    var todo := if w.proc.step == Pick then w.proc.todo[1..] else w.proc.todo;
    MoveStepQuiet(plan, w, todo, Pick, hurt);
    assert w' == w.(proc := w.proc.(todo := todo, step := Pick));
  }

  lemma PickNextQuiet(plan: Plan, w: World, w': World, hurt: set<string>)
    requires Inv(plan, w) && Quiet(plan, w, hurt) && ResumeNext(plan, w, ResumePick) == Some(w')
    ensures Quiet(plan, w', hurt)
  {
    PickQuiet(plan, w, hurt);
  }

  lemma OtherNextQuiet(plan: Plan, w: World, l: Label, w': World, hurt: set<string>)
    requires NoFinalIsTemp(plan) && DistinctTargets(plan) && Inv(plan, w) && Quiet(plan, w, hurt)
    requires ResumeNext(plan, w, l) == Some(w') && !l.ResumeStart? && !l.ResumePick? && !l.ResumeSkip?
    ensures Quiet(plan, w', HurtBy(w, l, hurt))
  {
    RecoverOneQuiet(plan, w, l, w', hurt);
  }
}
