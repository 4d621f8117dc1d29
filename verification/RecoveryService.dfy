/** `resume` in the form of src/pipeline/recovery_service.cpp. Each call on the site is one step of the protocol machine,
    so whatever is proved of runs holds of this code; and when no call fails, every task it can work on is settled. */
module RecoveryService {
  import opened Common
  import opened Tasks
  import opened TaskTables
  import TI = TableInvariants
  import opened Reconciler
  import opened Protocol
  import opened PlanRows
  import opened ProtocolRows
  import opened ProtocolSafety
  import opened Sites
  import Convergence
  import opened QuietInvariant
  import opened RowEffects

  /** What a step of the service keeps of the site. */
  twostate predicate Kept(site: Site, t: string)
    reads site
  {
    && site.db.epoch == old(site.db).epoch && site.db.tasks.Keys == old(site.db).tasks.Keys
    && (forall u :: u != t && u in old(site.db).tasks ==> site.db.tasks[u] == old(site.db).tasks[u])
  }

  predicate Done(db: Tables, t: string) {
    t in db.tasks && db.tasks[t].state == Succeeded
  }

  /** The task of the case is SUCCEEDED, and its target holds the bytes of its receipt; only a target that is called like
      the temporary file of its own task may have been removed as that. */
  ghost predicate Published(site: Site, c: Case)
    reads site
  {
    && c.task in site.plan.assets && c.receipt.Some? && Done(site.db, c.task)
    && (OwnClash(site.plan, c) || TargetShown(site.plan, site.files, c))
  }

  /** A call that met no error has settled the case with this verdict and left these files. */
  ghost predicate Ends(
    c: Case, epoch: nat, db0: Tables, db: Tables, files: map<string, Bytes>, verdict: Verdict, left: map<string, Bytes>)
  {
    files == left && Did(db0, OpRecover(c.task, epoch, c.owner, c.attempt, verdict), db)
  }

  /** Publication by no-replace rename, after a last look at the bytes. */
  method CommitFromTemp(site: Site, c: Case, epoch: nat) returns (status: Status, ghost faulted: bool)
    requires site.Valid() && site.Working(c) && site.proc.step == RecheckTemp(c) && c.receipt.Some?
    requires site.db.epoch <= INT64_MAX && epoch == site.proc.epoch
    requires IntentFor(site.plan, c).tempPath in site.files && IntentFor(site.plan, c).finalPath !in site.files
    modifies site`proc, site`trace, site`labels, site`rough, site`files, site`db
    ensures site.Valid() && site.proc == old(site.proc).(step := Pick) && Kept(site, c.task)
    ensures !faulted ==> site.rough == old(site.rough) && !IsRunning(site.db, c.task)
    ensures if status.Ok? then Published(site, c) else !Done(site.db, c.task)
    ensures !faulted ==>
              var temp, target := IntentFor(site.plan, c).tempPath, IntentFor(site.plan, c).finalPath;
              if Shows(site.plan, old(site.files), temp, c.receipt.value) then
                && status == Ok(())
                && Ends(c, epoch, old(site.db), site.db, site.files, RecoverSucceeded,
                        (old(site.files) - {temp})[target := old(site.files)[temp]])
              else
                status == Err(IoError)
                && Ends(c, epoch, old(site.db), site.db, site.files, RecoverRetryable, old(site.files))
  {
    hide IsRun, Initial, Since, Shows, MatchesPlan, TempName, PlanShape, OwnClash, TargetShown, Did;
    var same, done;
    same, faulted := site.RecheckTempFile(c);
    if same.None? {
      return Err(IoError), true;
    }
    if !same.value {
      done, faulted := site.SettleCase(c, RecoverRetryable, epoch);
      return Err(IoError), faulted;
    }
    done, faulted := site.RenameTempFile(c);
    if !done {
      return Err(IoError), true;
    }
    done, faulted := site.SettleCase(c, RecoverSucceeded, epoch);
    status := if done then Ok(()) else Err(IoError);
  }

  /** The temporary file of an adopted target is verified and removed; None when the removal failed. */
  method CleanUpTemp(site: Site, c: Case) returns (confirmed: Option<bool>, ghost faulted: bool)
    requires site.Valid() && site.Working(c) && site.proc.step == ConfirmTemp(c) && c.receipt.Some?
    modifies site`proc, site`trace, site`labels, site`rough, site`files
    ensures site.Valid() && site.proc.Resuming? && site.proc.epoch == old(site.proc).epoch && site.proc.todo == old(site.proc).todo
    ensures confirmed.None? ==> faulted && site.proc.step == Pick
    ensures confirmed.Some? ==> site.proc.step == Settle(c, if confirmed.value then RecoverSucceeded else RecoverRetryable)
    ensures !faulted ==> site.rough == old(site.rough)
    ensures !faulted ==>
              var temp := IntentFor(site.plan, c).tempPath;
              && confirmed == Some(Shows(site.plan, old(site.files), temp, c.receipt.value))
              && site.files == if confirmed.value then old(site.files) - {temp} else old(site.files)
  {
    ghost var f;
    var same, done;
    same, faulted := site.ConfirmTempFile(c);
    if !same {
      return Some(false), faulted;
    }
    done, f := site.UnlinkTempFile(c);
    return if done then Some(true) else None, faulted || f;
  }

  /** The target already holds the verified bytes. */
  method AdoptFinalFile(site: Site, c: Case, cleanup: bool, epoch: nat) returns (status: Status, ghost faulted: bool)
    requires site.Valid() && site.Working(c) && site.proc.step == ConfirmFinal(c, cleanup) && c.receipt.Some?
    requires site.db.epoch <= INT64_MAX && epoch == site.proc.epoch
    modifies site`proc, site`trace, site`labels, site`rough, site`files, site`db
    ensures site.Valid() && site.proc == old(site.proc).(step := Pick) && Kept(site, c.task)
    ensures !faulted ==> site.rough == old(site.rough) && !IsRunning(site.db, c.task)
    ensures if status.Ok? then Published(site, c) else !Done(site.db, c.task)
    ensures !faulted ==>
              var temp, target, r := IntentFor(site.plan, c).tempPath, IntentFor(site.plan, c).finalPath, c.receipt.value;
              if Shows(site.plan, old(site.files), target, r) && (cleanup ==> Shows(site.plan, old(site.files), temp, r)) then
                && status == Ok(())
                && Ends(c, epoch, old(site.db), site.db, site.files, RecoverSucceeded,
                        if cleanup then old(site.files) - {temp} else old(site.files))
              else
                status == Err(IoError)
                && Ends(c, epoch, old(site.db), site.db, site.files, RecoverRetryable, old(site.files))
  {
    hide IsRun, Initial, Since, Shows, MatchesPlan, TempName, PlanShape, OwnClash, TargetShown, Did;
    ghost var f;
    var shown, done;
    shown, faulted := site.ConfirmFinalFile(c, cleanup);
    var confirmed := Some(shown);
    if shown && cleanup {
      confirmed, f := CleanUpTemp(site, c);
      faulted := faulted || f;
      if confirmed.None? {
        return Err(IoError), faulted;
      }
    }
    done, f := site.SettleCase(c, if confirmed.value then RecoverSucceeded else RecoverRetryable, epoch);
    faulted := faulted || f;
    status := if confirmed.value && done then Ok(()) else Err(IoError);
  }

  /** What recover_one has read. */
  predicate IsCase(db: Tables, c: Case) {
    && c.task in db.tasks && db.tasks[c.task].owner == Some(c.owner) && db.tasks[c.task].active == Some(c.attempt)
    && c.receipt == if (c.task, c.attempt) in db.receipts then Some(db.receipts[(c.task, c.attempt)]) else None
  }

  /** A file with the size and the digest of the receipt is under this name. */
  predicate HasBytes(plan: Plan, files: map<string, Bytes>, name: string, r: VerifiedReceipt) {
    name in files && |files[name]| == r.contentSize && plan.hash(files[name]) == r.targetDigest
  }

  predicate SourceChanged(plan: Plan, sources: map<string, Source>, t: string) {
    t in plan.assets && t in sources && sources[t].Present? && sources[t].identity != plan.assets[t].identity
  }

  /** What a recover_one that meets no error makes of the RUNNING task of the case, over what the source, the target and the
      temporary file were before it. */
  ghost predicate Recovered(
    plan: Plan, c: Case, epoch: nat, sources: map<string, Source>,
    db0: Tables, files0: map<string, Bytes>, db: Tables, files: map<string, Bytes>, status: Status)
    requires c.task in plan.assets
  {
    var target := plan.assets[c.task].spec.target;
    if c.receipt.None? then
      if SourceChanged(plan, sources, c.task) then
        status == Err(Internal) && Ends(c, epoch, db0, db, files, RecoverInconsistent, files0)
      else if target in files0 then
        status == Err(AlreadyExists) && Ends(c, epoch, db0, db, files, RecoverInconsistent, files0)
      else
        status == Err(IoError) && Ends(c, epoch, db0, db, files, RecoverRetryable, files0)
    else
      var temp := c.receipt.value.tempPath;
      if c.receipt.value.contentSize != plan.assets[c.task].identity.size || SourceChanged(plan, sources, c.task) then
        status == Err(Internal) && Ends(c, epoch, db0, db, files, RecoverInconsistent, files0)
      else if HasBytes(plan, files0, target, c.receipt.value) then
        && status == Ok(())
        && Ends(c, epoch, db0, db, files, RecoverSucceeded,
                if HasBytes(plan, files0, temp, c.receipt.value) then files0 - {temp} else files0)
      else if target in files0 then
        status == Err(AlreadyExists) && Ends(c, epoch, db0, db, files, RecoverInconsistent, files0)
      else if HasBytes(plan, files0, temp, c.receipt.value) then
        && status == Ok(())
        && Ends(c, epoch, db0, db, files, RecoverSucceeded, (files0 - {temp})[target := files0[temp]])
      else if temp !in files0 && c.task in sources && sources[c.task].Present? then
        status == Err(IoError) && Ends(c, epoch, db0, db, files, RecoverRetryable, files0)
      else
        status == Err(Internal) && Ends(c, epoch, db0, db, files, RecoverInconsistent, files0)
  }

  /** Of the receipts there can be, those with another size than the plan's are the ones that do not match it. */
  lemma SizeDecides(plan: Plan, db: Tables, c: Case)
    requires PlanShape(plan) && DbInv(plan, true, db) && CaseOk(plan, db, c) && c.receipt.Some?
    ensures MatchesPlan(plan, c) <==> c.receipt.value.contentSize == plan.assets[c.task].identity.size
  {
    assert TI.TaskOk(db, c.task);
    assert TI.ReceiptOk(db, (c.task, c.attempt)) && ReceiptShape(plan, db, (c.task, c.attempt));
  }

  /** The answer to a decision that is carried out without an error. */
  ghost predicate Acted(
    plan: Plan, c: Case, epoch: nat,
    db0: Tables, files0: map<string, Bytes>, db: Tables, files: map<string, Bytes>, status: Status, action: Action)
    requires c.task in plan.assets
  {
    match action
    case RetryTask => status == Err(IoError) && Ends(c, epoch, db0, db, files, RecoverRetryable, files0)
    case TargetConflict => status == Err(AlreadyExists) && Ends(c, epoch, db0, db, files, RecoverInconsistent, files0)
    case DeclareInconsistent => status == Err(Internal) && Ends(c, epoch, db0, db, files, RecoverInconsistent, files0)
    case AdoptFinal => status == Ok(()) && Ends(c, epoch, db0, db, files, RecoverSucceeded, files0)
    case AdoptFinalAndCleanupTemp =>
      && status == Ok(())
      && Ends(c, epoch, db0, db, files, RecoverSucceeded, files0 - {IntentFor(plan, c).tempPath})
    case ResumeCommitFromTemp =>
      var temp, target := IntentFor(plan, c).tempPath, IntentFor(plan, c).finalPath;
      && temp in files0 && status == Ok(())
      && Ends(c, epoch, db0, db, files, RecoverSucceeded, (files0 - {temp})[target := files0[temp]])
    case ReverifyCommitted => false
  }

  /** Carrying out the decision gives what is promised of recover_one. */
  lemma ActedIsRecovered(
    plan: Plan, c: Case, epoch: nat, sources: map<string, Source>,
    db0: Tables, files0: map<string, Bytes>, db: Tables, files: map<string, Bytes>, status: Status)
    requires c.task in plan.assets && (c.receipt.Some? ==> c.receipt.value.contentSize == plan.assets[c.task].identity.size)
    requires Acted(plan, c, epoch, db0, files0, db, files, status, ActionDue(plan, files0, sources, c))
    ensures Recovered(plan, c, epoch, sources, db0, files0, db, files, status)
  {
    hide Ends, TempName;
  }

  /** recover_one. It returns success exactly when it has published the task. When no call fails, the task ends as the source,
      the target and the temporary file say; above all, a task whose source has changed becomes INCONSISTENT. */
  method RecoverOne(site: Site, t: string, epoch: nat) returns (status: Status, ghost faulted: bool)
    requires site.Valid() && site.proc.Resuming? && site.proc.step == Pick && site.proc.todo != [] && site.proc.todo[0] == t
    requires site.db.epoch <= INT64_MAX && epoch == site.proc.epoch && t in site.plan.assets
    modifies site`proc, site`trace, site`labels, site`rough, site`files, site`db
    ensures site.Valid() && Kept(site, t)
    ensures status.Ok? ==>
              && IsRunning(old(site.db), t) && old(site.db).tasks[t].owner.Some? && old(site.db).tasks[t].active.Some?
              && Published(site, CaseFor(old(site.db), t))
    ensures IsRunning(old(site.db), t) ==> (status.Ok? <==> Done(site.db, t))
    ensures site.proc == old(site.proc).(step := Pick, todo := old(site.proc).todo[1..])
    ensures !faulted && IsRunning(site.db, t) ==> Convergence.IsMulti(site.plan, t)
    ensures !faulted && IsRunning(old(site.db), t) ==> site.rough == old(site.rough)
    ensures !faulted && IsRunning(old(site.db), t) && '/' !in site.plan.assets[t].spec.target ==>
              && old(site.db).tasks[t].owner.Some? && old(site.db).tasks[t].active.Some?
              && forall c: Case :: c.task == t && IsCase(old(site.db), c) ==>
                   Recovered(site.plan, c, epoch, site.sources, old(site.db), old(site.files), site.db, site.files, status)
    ensures !faulted && IsRunning(old(site.db), t) && '/' !in site.plan.assets[t].spec.target
            && t in site.sources && site.sources[t].Present? && site.sources[t].identity != site.plan.assets[t].identity ==>
              site.db.tasks[t].state == Inconsistent && site.files == old(site.files) && status == Err(Internal)
    ensures !faulted && (!IsRunning(old(site.db), t) || '/' in site.plan.assets[t].spec.target) ==>
              site.db == old(site.db) && site.files == old(site.files) && status == Err(InvalidArgument)
  {
    hide IsRun, Initial, Since, Shows, TempName, PlanShape, OwnClash, TargetShown, Did, Recovered, ActionDue, Acted, IsCase,
         MatchesPlan;
    ghost var db0, files0 := site.db, site.files;
    var plan, picked, done := site.plan, None, false;
    picked, faulted := site.ReadCase(t);
    if picked.None? {
      return Err(InvalidArgument), faulted;
    }
    var c := picked.value;
    SizeMatters(site, c);
    OneCase(site.db, c);
    if c.receipt.Some? && !MatchesPlan(plan, c) {
      done, faulted := site.SettleCase(c, RecoverInconsistent, epoch);
      if !faulted {
        MismatchIsRecovered(plan, c, epoch, site.sources, db0, files0, site.db);
      }
      return Err(Internal), faulted;
    }
    status, faulted := RecoverCase(site, c, epoch);
    if !faulted {
      ActedIsRecovered(plan, c, epoch, site.sources, db0, files0, site.db, site.files, status);
      ChangedEndsInconsistent(plan, c, epoch, site.sources, db0, files0, site.db, site.files, status);
    }
  }

  lemma OneCase(db: Tables, c: Case)
    requires IsCase(db, c)
    ensures forall d: Case :: d.task == c.task && IsCase(db, d) ==> d == c
  {
  }

  lemma SizeMatters(site: Site, c: Case)
    requires site.Valid() && site.Working(c)
    ensures c.receipt.Some? ==>
              (MatchesPlan(site.plan, c) <==> c.receipt.value.contentSize == site.plan.assets[c.task].identity.size)
    ensures IsCase(site.db, c)
  {
    site.Reached();
    if c.receipt.Some? {
      SizeDecides(site.plan, site.db, c);
    }
  }

  lemma MismatchIsRecovered(
    plan: Plan, c: Case, epoch: nat, sources: map<string, Source>, db0: Tables, files0: map<string, Bytes>, db: Tables)
    requires c.task in plan.assets && c.receipt.Some? && c.receipt.value.contentSize != plan.assets[c.task].identity.size
    requires Did(db0, OpRecover(c.task, epoch, c.owner, c.attempt, RecoverInconsistent), db)
    ensures Recovered(plan, c, epoch, sources, db0, files0, db, files0, Err(Internal))
  {
  }

  lemma ChangedEndsInconsistent(
    plan: Plan, c: Case, epoch: nat, sources: map<string, Source>,
    db0: Tables, files0: map<string, Bytes>, db: Tables, files: map<string, Bytes>, status: Status)
    requires c.task in plan.assets && Recovered(plan, c, epoch, sources, db0, files0, db, files, status)
    ensures SourceChanged(plan, sources, c.task) ==>
              c.task in db.tasks && db.tasks[c.task].state == Inconsistent && files == files0 && status == Err(Internal)
  {
  }

  /** A verdict other than SUCCEEDED, and the error that reports it. */
  method TurnDown(site: Site, c: Case, verdict: Verdict, code: Code, epoch: nat) returns (status: Status, ghost faulted: bool)
    requires site.Valid() && site.Working(c) && site.proc.step == Settle(c, verdict) && verdict != RecoverSucceeded
    requires site.db.epoch <= INT64_MAX && epoch == site.proc.epoch
    modifies site`proc, site`trace, site`labels, site`rough, site`db
    ensures site.Valid() && site.proc == old(site.proc).(step := Pick) && Kept(site, c.task)
    ensures !faulted ==> site.rough == old(site.rough) && !IsRunning(site.db, c.task)
    ensures status.Err? && !Done(site.db, c.task)
    ensures !faulted ==> status == Err(code) && Did(old(site.db), OpRecover(c.task, epoch, c.owner, c.attempt, verdict), site.db)
  {
    hide IsRun, Initial, Since, Shows, MatchesPlan, TempName, PlanShape, CaseFor, OwnClash, TargetShown, Did;
    var done;
    done, faulted := site.SettleCase(c, verdict, epoch);
    status := Err(if done then code else IoError);
  }

  /** The observation, the decision and the action it calls for. */
  method RecoverCase(site: Site, c: Case, epoch: nat) returns (status: Status, ghost faulted: bool)
    requires site.Valid() && site.Working(c) && site.proc.step == Loaded(c) && (c.receipt.Some? ==> MatchesPlan(site.plan, c))
    requires site.db.epoch <= INT64_MAX && epoch == site.proc.epoch
    modifies site`proc, site`trace, site`labels, site`rough, site`files, site`db
    ensures site.Valid() && site.proc == old(site.proc).(step := Pick) && Kept(site, c.task)
    ensures !faulted ==> site.rough == old(site.rough) && !IsRunning(site.db, c.task)
    ensures if status.Ok? then Published(site, c) else !Done(site.db, c.task)
    ensures !faulted ==>
              Acted(site.plan, c, epoch, old(site.db), old(site.files), site.db, site.files, status,
                    ActionDue(site.plan, old(site.files), site.sources, c))
  {
    hide IsRun, Initial, Since, Shows, MatchesPlan, TempName, PlanShape, CaseFor, OwnClash, TargetShown, Did, ActionDue;
    var action;
    action, faulted := site.Observe(c);
    if action.None? {
      return Err(IoError), true;
    }
    DueShows(site.plan, site.files, site.sources, c);
    match action.value {
      case RetryTask => status, faulted := TurnDown(site, c, RecoverRetryable, IoError, epoch);
      case TargetConflict => status, faulted := TurnDown(site, c, RecoverInconsistent, AlreadyExists, epoch);
      case DeclareInconsistent => status, faulted := TurnDown(site, c, RecoverInconsistent, Internal, epoch);
      case AdoptFinal => status, faulted := AdoptFinalFile(site, c, false, epoch);
      case AdoptFinalAndCleanupTemp => status, faulted := AdoptFinalFile(site, c, true, epoch);
      case ResumeCommitFromTemp => status, faulted := CommitFromTemp(site, c, epoch);
    }
  }

  lemma DueShows(plan: Plan, files: map<string, Bytes>, sources: map<string, Source>, c: Case)
    requires c.task in plan.assets
    ensures var intent, due := IntentFor(plan, c), ActionDue(plan, files, sources, c);
            && due != ReverifyCommitted
            && (due == AdoptFinal || due == AdoptFinalAndCleanupTemp ==>
                  c.receipt.Some? && Shows(plan, files, intent.finalPath, c.receipt.value))
            && (due == AdoptFinalAndCleanupTemp || due == ResumeCommitFromTemp ==>
                  c.receipt.Some? && Shows(plan, files, intent.tempPath, c.receipt.value) && intent.tempPath in files)
            && (due == ResumeCommitFromTemp ==> intent.finalPath !in files)
  {
  }

  /** running_indices: the loop over the artifact's assets. */
  method ListRunning(db: Tables, order: seq<string>) returns (running: seq<string>, ghost at: seq<nat>)
    ensures running == RunningIn(db, order) && Picks(db, order, |order|, running, at)
  {
    hide Picks;
    running, at := [], [];
    NonePicked(db, order);
    for i := 0 to |order|
      invariant running + RunningIn(db, order[i..]) == RunningIn(db, order)
      invariant Picks(db, order, i, running, at)
    {
      assert order[i..][0] == order[i] && order[i..][1..] == order[i + 1..];
      PicksNext(db, order, i, running, at);
      if IsRunning(db, order[i]) {
        running := running + [order[i]];
        at := at + [i];
      }
    }
  }

  /** The list is made of the RUNNING tasks among the first n, at increasing places of the order, and leaves out none. */
  predicate Picks(db: Tables, order: seq<string>, n: nat, running: seq<string>, at: seq<nat>) {
    && n <= |order| && |at| == |running|
    && (forall k :: 0 <= k < |at| ==> at[k] < n && running[k] == order[at[k]])
    && (forall j, k :: 0 <= j < k < |at| ==> at[j] < at[k])
    && (forall i :: 0 <= i < n ==> (i in at <==> order[i] in db.tasks && db.tasks[order[i]].state == Running))
  }

  lemma NonePicked(db: Tables, order: seq<string>)
    ensures Picks(db, order, 0, [], [])
  {
  }

  lemma PicksNext(db: Tables, order: seq<string>, n: nat, running: seq<string>, at: seq<nat>)
    requires n < |order| && Picks(db, order, n, running, at)
    ensures if IsRunning(db, order[n]) then Picks(db, order, n + 1, running + [order[n]], at + [n])
            else Picks(db, order, n + 1, running, at)
  {
    assert n !in at;
  }

  lemma {:induction false} ListIsDistinct(db: Tables, order: seq<string>)
    requires forall i, j :: 0 <= i < j < |order| ==> order[i] != order[j]
    ensures var r := RunningIn(db, order);
            && (forall x :: x in r ==> x in order && IsRunning(db, x))
            && (forall i, j :: 0 <= i < j < |r| ==> r[i] != r[j])
    decreases |order|
  {
    if order != [] {
      ListIsDistinct(db, order[1..]);
      assert order == [order[0]] + order[1..];
    }
  }

  /** Every task of the list that is still to come is as it was when the list was made. */
  ghost predicate StillListed(db: Tables, list: seq<string>, from: nat) {
    from <= |list| && forall j :: from <= j < |list| ==> IsRunning(db, list[j])
  }

  /** The rows after the first i tasks of the list. */
  ghost predicate Worked(plan: Plan, db0: Tables, db: Tables, list: seq<string>, i: nat, faulted: bool) {
    && StillListed(db, list, i) && db.tasks.Keys == db0.tasks.Keys
    && (forall u :: u !in list && u in db0.tasks ==> db.tasks[u] == db0.tasks[u])
    && (!faulted ==> forall j :: 0 <= j < i && IsRunning(db, list[j]) ==> Convergence.IsMulti(plan, list[j]))
  }

  /** Of the first i tasks of the list, those whose source has changed are INCONSISTENT. */
  ghost predicate ChangedSettled(plan: Plan, sources: map<string, Source>, db: Tables, list: seq<string>, i: nat) {
    i <= |list| &&
    forall j :: 0 <= j < i && SourceChanged(plan, sources, list[j]) && SingleComponent(plan.assets[list[j]].spec.target) ==>
      list[j] in db.tasks && db.tasks[list[j]].state == Inconsistent
  }

  lemma {:induction false} ChangedNext(
    plan: Plan, sources: map<string, Source>, db: Tables, db': Tables, list: seq<string>, i: nat)
    requires i < |list| && ChangedSettled(plan, sources, db, list, i) && db'.tasks.Keys == db.tasks.Keys
    requires forall j, k :: 0 <= j < k < |list| ==> list[j] != list[k]
    requires forall u :: u != list[i] && u in db.tasks ==> db'.tasks[u] == db.tasks[u]
    requires SourceChanged(plan, sources, list[i]) && SingleComponent(plan.assets[list[i]].spec.target) ==>
               list[i] in db'.tasks && db'.tasks[list[i]].state == Inconsistent
    ensures ChangedSettled(plan, sources, db', list, i + 1)
  {
    forall j | 0 <= j < i && SourceChanged(plan, sources, list[j]) && SingleComponent(plan.assets[list[j]].spec.target)
      ensures list[j] in db'.tasks && db'.tasks[list[j]].state == Inconsistent
    {
      assert list[j] != list[i];
    }
  }

  lemma {:induction false} WorkedNext(
    plan: Plan, db0: Tables, db: Tables, db': Tables, list: seq<string>, i: nat, faulted: bool, f: bool)
    requires Worked(plan, db0, db, list, i, faulted) && i < |list| && db'.tasks.Keys == db.tasks.Keys
    requires forall j, k :: 0 <= j < k < |list| ==> list[j] != list[k]
    requires forall u :: u != list[i] && u in db.tasks ==> db'.tasks[u] == db.tasks[u]
    requires !f && IsRunning(db', list[i]) ==> Convergence.IsMulti(plan, list[i])
    ensures Worked(plan, db0, db', list, i + 1, faulted || f)
  {
    forall j | i + 1 <= j < |list| ensures IsRunning(db', list[j]) {
      assert list[j] != list[i];
    }
    forall j | 0 <= j < i ensures IsRunning(db', list[j]) <==> IsRunning(db, list[j]) {
      assert list[j] != list[i];
    }
    forall u | u !in list && u in db0.tasks ensures db'.tasks[u] == db0.tasks[u] {
      assert list[i] in list;
    }
  }

  ghost predicate AllDone(db: Tables, list: seq<string>, i: nat) {
    i <= |list| && forall j :: 0 <= j < i ==> Done(db, list[j])
  }

  lemma DoneNext(db: Tables, db': Tables, list: seq<string>, i: nat)
    requires i < |list| && db'.tasks.Keys == db.tasks.Keys
    requires forall j, k :: 0 <= j < k < |list| ==> list[j] != list[k]
    requires forall u :: u != list[i] && u in db.tasks ==> db'.tasks[u] == db.tasks[u]
    ensures AllDone(db', list, i + 1) <==> AllDone(db, list, i) && Done(db', list[i])
  {
    forall j | 0 <= j < i ensures Done(db', list[j]) <==> Done(db, list[j]) {
      assert list[j] != list[i];
    }
    if AllDone(db', list, i + 1) {
      forall j | 0 <= j < i ensures Done(db, list[j]) {
        assert Done(db', list[j]);
      }
    }
  }

  lemma StillThere(plan: Plan, db0: Tables, db: Tables, list: seq<string>, i: nat, faulted: bool)
    requires Worked(plan, db0, db, list, i, faulted) && i < |list|
    ensures IsRunning(db, list[i])
  {
  }

  lemma NothingWorked(plan: Plan, sources: map<string, Source>, db: Tables, list: seq<string>)
    requires StillListed(db, list, 0)
    ensures Worked(plan, db, db, list, 0, false) && ChangedSettled(plan, sources, db, list, 0) && AllDone(db, list, 0)
  {
  }

  /** The loop over the list: one recover_one per task, whatever the others returned. */
  method RecoverAll(site: Site, list: seq<string>, epoch: nat) returns (firstError: Status, ghost faulted: bool)
    requires site.Valid() && site.proc == Resuming(epoch, list, Pick) && site.db.epoch <= INT64_MAX
    requires (forall i, j :: 0 <= i < j < |list| ==> list[i] != list[j]) && StillListed(site.db, list, 0)
    requires forall x :: x in list ==> x in site.plan.assets
    modifies site`proc, site`trace, site`labels, site`rough, site`files, site`db
    ensures site.Valid() && site.proc == Resuming(epoch, [], Pick)
    ensures Worked(site.plan, old(site.db), site.db, list, |list|, faulted)
    ensures !faulted ==> site.rough == old(site.rough) && ChangedSettled(site.plan, site.sources, site.db, list, |list|)
    ensures firstError.Ok? <==> AllDone(site.db, list, |list|)
  {
    hide IsRun, Initial, Since, PlanShape, Recovered, Published, IsCase, Worked, ChangedSettled, AllDone, Convergence.IsMulti,
         StillListed;
    firstError, faulted := Ok(()), false;
    NothingWorked(site.plan, site.sources, site.db, list);
    for i := 0 to |list|
      invariant site.Valid() && site.proc == Resuming(epoch, list[i..], Pick) && site.db.epoch <= INT64_MAX
      invariant Worked(site.plan, old(site.db), site.db, list, i, faulted)
      invariant !faulted ==> site.rough == old(site.rough) && ChangedSettled(site.plan, site.sources, site.db, list, i)
      invariant firstError.Ok? <==> AllDone(site.db, list, i)
    {
      assert list[i..][0] == list[i] && list[i..][1..] == list[i + 1..];
      ghost var before := site.db;
      StillThere(site.plan, old(site.db), before, list, i, faulted);
      var result, f := RecoverOne(site, list[i], epoch);
      WorkedNext(site.plan, old(site.db), before, site.db, list, i, faulted, f);
      DoneNext(before, site.db, list, i);
      if !faulted && !f {
        ChangedNext(site.plan, site.sources, before, site.db, list, i);
      }
      faulted := faulted || f;
      if result.Err? && firstError.Ok? {
        firstError := result;
      }
    }
    assert list[|list|..] == [];
  }

  /** A task that is RUNNING after the loop was on the list or was never RUNNING. */
  lemma LeftRunning(plan: Plan, db0: Tables, db: Tables, list: seq<string>, t: string)
    requires PlanShape(plan) && list == RunningIn(db0, plan.order) && t in plan.assets && IsRunning(db, t)
    requires db.tasks.Keys == db0.tasks.Keys
    requires forall u :: u !in list && u in db0.tasks ==> db.tasks[u] == db0.tasks[u]
    ensures t in list
  {
    if IsRunning(db0, t) {
      Convergence.RunningIsListed(db0, plan.order, t);
    }
  }

  /** One resume from its list to its end. */
  method RunResume(site: Site, list: seq<string>) returns (status: Status, ghost faulted: bool)
    requires site.Valid() && site.proc.Idle? && site.materialized && list == RunningIn(site.db, site.plan.order) && list != []
    requires forall i, j :: 0 <= i < j < |site.plan.order| ==> site.plan.order[i] != site.plan.order[j]
    modifies site`proc, site`trace, site`labels, site`rough, site`files, site`db, site`since, site`start
    ensures site.Valid() && (site.proc.Idle? || (site.proc.Resuming? && site.proc.todo == [] && site.proc.step == Pick))
    ensures site.proc.Idle? ==> site.db == old(site.db) && status.Err? && (!faulted ==> site.db.epoch >= INT64_MAX)
    ensures site.proc.Resuming? ==> (status.Ok? <==> AllDone(site.db, list, |list|))
    ensures site.proc.Resuming? && !faulted ==>
              && ChangedSettled(site.plan, site.sources, site.db, list, |list|)
              && !site.rough && site.since > 0 && site.start == old(site.Now()) && Worked(site.plan, old(site.db), site.db, list, |list|, false)
  {
    ListIsDistinct(site.db, site.plan.order);
    var epoch;
    epoch, faulted := site.BeginResume(list);
    if epoch.None? {
      return Err(IoError), faulted;
    }
    assert StillListed(site.db, list, 0) by {
      forall j | 0 <= j < |list| ensures IsRunning(old(site.db), list[j]) {
        assert list[j] in list;
      }
    }
    status, faulted := RecoverAll(site, list, epoch.value);
  }

  /** What was RUNNING at `start` is what was promised of it. */
  ghost predicate PromiseKept(plan: Plan, start: World, db: Tables) {
    forall t :: t in plan.assets && IsRunning(start.db, t) && !Convergence.IsMulti(plan, t) ==>
      t in db.tasks && db.tasks[t].state == Convergence.Promised(plan, start.db, start.files, t)
  }

  /** RecoveryService::Execute with the plan lock held. It returns success exactly when something was RUNNING and all of it
      has become SUCCEEDED. When no call fails and there is an epoch left, no task with a target of one component is left
      RUNNING; and if moreover the whole run was undisturbed, each has become what its receipt promised. */
  method Execute(site: Site) returns (status: Status, ghost faulted: bool)
    requires site.Valid() && site.proc.Idle?
    requires forall i, j :: 0 <= i < j < |site.plan.order| ==> site.plan.order[i] != site.plan.order[j]
    modifies site`proc, site`trace, site`labels, site`rough, site`files, site`db, site`since, site`start
    ensures site.Valid() && site.proc.Idle?
    ensures status.Ok? <==>
              (exists t :: IsRunning(old(site.db), t)) && forall t :: IsRunning(old(site.db), t) ==> Done(site.db, t)
    ensures !faulted && old(site.db).epoch < INT64_MAX ==>
              forall t :: t in site.plan.assets && IsRunning(site.db, t) ==> Convergence.IsMulti(site.plan, t)
    ensures !faulted && old(site.db).epoch < INT64_MAX && Convergence.UndisturbedRun(site.plan, site.trace, site.labels) ==>
              PromiseKept(site.plan, old(site.Now()), site.db)
    ensures !faulted && old(site.db).epoch < INT64_MAX ==>
              forall t :: t in site.plan.assets && IsRunning(old(site.db), t) && '/' !in site.plan.assets[t].spec.target
                          && t in site.sources && site.sources[t].Present?
                          && site.sources[t].identity != site.plan.assets[t].identity ==>
                t in site.db.tasks && site.db.tasks[t].state == Inconsistent && status.Err?
  {
    hide IsRun, Initial, Since, Picks, RunningIn, ChangedSettled, Worked, StillListed, AllDone,
         Convergence.UndisturbedRun, Convergence.IsMulti, StepSeen;
    ghost var start := site.Now();
    site.Reached();
    if !site.materialized {
      assert site.db == EMPTY;
      return Err(NotFound), false;
    }
    ghost var at;
    var list;
    list, at := ListRunning(site.db, site.plan.order);
    RunningAreListed(site.plan, site.db);
    if list == [] {
      return Err(NotFound), false;
    }
    assert IsRunning(site.db, list[0]) by {
      ListedAreRunning(site.db, site.plan.order);
      assert list[0] in list;
    }
    status, faulted := RunResume(site, list);
    AllDoneMeans(site.plan, start.db, site.db, list);
    if !site.proc.Idle? && !faulted {
      ChangedAll(site.plan, site.sources, start.db, site.db, list);
    }
    Finish(site, start, list, faulted);
  }

  /** The list holds the RUNNING tasks, so all of those whose source has changed are INCONSISTENT. */
  lemma ChangedAll(plan: Plan, sources: map<string, Source>, db0: Tables, db: Tables, list: seq<string>)
    requires ChangedSettled(plan, sources, db, list, |list|) && forall t :: IsRunning(db0, t) <==> t in list
    ensures forall t :: t in plan.assets && IsRunning(db0, t) && '/' !in plan.assets[t].spec.target
                        && t in sources && sources[t].Present? && sources[t].identity != plan.assets[t].identity ==>
              t in db.tasks && db.tasks[t].state == Inconsistent
  {
    forall t | t in plan.assets && IsRunning(db0, t) && '/' !in plan.assets[t].spec.target
               && t in sources && sources[t].Present? && sources[t].identity != plan.assets[t].identity
      ensures t in db.tasks && db.tasks[t].state == Inconsistent
    {
      assert t in list && SourceChanged(plan, sources, t);
    }
  }

  lemma {:induction false} ListedAreRunning(db: Tables, order: seq<string>)
    ensures forall t :: t in RunningIn(db, order) ==> t in order && IsRunning(db, t)
  {
    if order != [] {
      ListedAreRunning(db, order[1..]);
    }
  }

  /** The list holds exactly the RUNNING tasks. */
  lemma RunningAreListed(plan: Plan, db: Tables)
    requires PlanShape(plan) && DbInv(plan, true, db)
    ensures forall t :: IsRunning(db, t) <==> t in RunningIn(db, plan.order)
  {
    ListedAreRunning(db, plan.order);
    forall t | IsRunning(db, t) ensures t in RunningIn(db, plan.order) {
      assert TaskShape(plan, db, t);
      Convergence.RunningIsListed(db, plan.order, t);
    }
  }

  lemma AllDoneMeans(plan: Plan, db0: Tables, db: Tables, list: seq<string>)
    requires forall t :: IsRunning(db0, t) <==> t in list
    ensures AllDone(db, list, |list|) <==> forall t :: IsRunning(db0, t) ==> Done(db, t)
  {
    if AllDone(db, list, |list|) {
      forall t | IsRunning(db0, t) ensures Done(db, t) {
        assert t in list;
      }
    }
    if forall t :: IsRunning(db0, t) ==> Done(db, t) {
      forall j | 0 <= j < |list| ensures Done(db, list[j]) {
        assert list[j] in list;
      }
    }
  }

  /** The service returns. */
  ghost method Finish(site: Site, start: World, list: seq<string>, faulted: bool)
    requires site.Valid() && list == RunningIn(start.db, site.plan.order)
    requires site.proc.Idle? && !faulted ==> start.db.epoch >= INT64_MAX
    requires !site.proc.Idle? && !faulted ==>
               && site.proc.Resuming? && site.proc.todo == [] && site.proc.step == Pick
               && !site.rough && site.since > 0 && site.start == start
               && Worked(site.plan, start.db, site.db, list, |list|, false)
    modifies site`proc, site`trace, site`labels, site`rough
    ensures site.Valid() && site.proc.Idle?
    ensures !faulted && start.db.epoch < INT64_MAX ==>
              forall t :: t in site.plan.assets && IsRunning(site.db, t) ==> Convergence.IsMulti(site.plan, t)
    ensures !faulted && start.db.epoch < INT64_MAX && Convergence.UndisturbedRun(site.plan, site.trace, site.labels) ==>
              PromiseKept(site.plan, start, site.db)
  {
    ghost var trace, labels := site.trace, site.labels;
    if !faulted && start.db.epoch < INT64_MAX {
      forall t | t in site.plan.assets && IsRunning(site.db, t) ensures Convergence.IsMulti(site.plan, t) {
        LeftRunning(site.plan, start.db, site.db, list, t);
      }
      if Convergence.UndisturbedRun(site.plan, trace, labels) {
        forall t | t in site.plan.assets && IsRunning(start.db, t) && !Convergence.IsMulti(site.plan, t)
          ensures t in site.db.tasks && site.db.tasks[t].state == Convergence.Promised(site.plan, start.db, start.files, t)
        {
          site.Promise(t);
        }
      }
    }
    site.Leave();
    if Convergence.UndisturbedRun(site.plan, site.trace, site.labels) {
      UndisturbedBefore(site.plan, trace, labels, Stop, site.Now());
    }
  }
}
