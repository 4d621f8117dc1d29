/** RuntimeDbWriter of src/app/runtime_db_writer.cpp: one worker thread takes queued commands in groups and runs each
    group as one transaction. The grouping must not be visible: the rows and the answers are those of one transaction
    per command, in the order of acceptance. */
module DbWriter {
  import opened Common
  import opened Tasks
  import opened TaskTables
  import opened Repository

  /** One command as one transaction: from a state to a new state and an answer, or an error that changes nothing. */
  type Step<!D, !C, !A> = (D, C) -> Outcome<(D, A)>

  /** Serial execution of the commands that were answered OK, one transaction each, in order; the others have no effect.
      None when an OK answer is not the one its transaction gives. */
  ghost function Replay<D, C, A>(step: Step<D, C, A>, db: D, commands: seq<C>, answers: seq<Outcome<A>>): Option<D>
    requires |commands| == |answers|
    decreases |commands|
  {
    if commands == [] then Some(db)
    else
      var last := |commands| - 1;
      var before := Replay(step, db, commands[..last], answers[..last]);
      if before.None? || answers[last].Err? then before
      else
        var r := step(before.value, commands[last]);
        if r.Ok? && r.value.1 == answers[last].value then Some(r.value.0) else None
  }

  lemma {:induction false} ReplayAppend<D, C, A>(
    step: Step<D, C, A>, db: D, c1: seq<C>, a1: seq<Outcome<A>>, c2: seq<C>, a2: seq<Outcome<A>>)
    requires |c1| == |a1| && |c2| == |a2| && Replay(step, db, c1, a1).Some?
    ensures Replay(step, db, c1 + c2, a1 + a2) == Replay(step, Replay(step, db, c1, a1).value, c2, a2)
    decreases |c2|
  {
    if c2 == [] {
      assert c1 + c2 == c1 && a1 + a2 == a1;
    } else {
      var last := |c2| - 1;
      ReplayAppend(step, db, c1, a1, c2[..last], a2[..last]);
      assert (c1 + c2)[..|c1 + c2| - 1] == c1 + c2[..last];
      assert (a1 + a2)[..|a1 + a2| - 1] == a1 + a2[..last];
    }
  }

  lemma {:induction false} ReplayFailed<D, C, A>(step: Step<D, C, A>, db: D, commands: seq<C>, answers: seq<Outcome<A>>)
    requires |commands| == |answers| && forall i :: 0 <= i < |answers| ==> answers[i].Err?
    ensures Replay(step, db, commands, answers) == Some(db)
    decreases |commands|
  {
    if commands != [] {
      ReplayFailed(step, db, commands[..|commands| - 1], answers[..|commands| - 1]);
    }
  }

  lemma ReplayNext<D, C, A>(step: Step<D, C, A>, db: D, commands: seq<C>, answers: seq<Outcome<A>>, c: C, a: Outcome<A>)
    requires |commands| == |answers| && Replay(step, db, commands, answers).Some?
    requires a.Ok? ==> var r := step(Replay(step, db, commands, answers).value, c); r.Ok? && r.value.1 == a.value
    ensures var before := Replay(step, db, commands, answers);
            Replay(step, db, commands + [c], answers + [a]) == if a.Ok? then Some(step(before.value, c).value.0) else before
  {
    assert (commands + [c])[..|commands|] == commands && (answers + [a])[..|answers|] == answers;
  }

  /** A caller that got OK has its effect in the serial execution, with exactly the answer it got. */
  lemma {:induction false} OkMeansCommitted<D, C, A>(
    step: Step<D, C, A>, db: D, commands: seq<C>, answers: seq<Outcome<A>>, i: nat)
    requires |commands| == |answers| && Replay(step, db, commands, answers).Some? && i < |commands| && answers[i].Ok?
    ensures Replay(step, db, commands[..i], answers[..i]).Some?
    ensures var r := step(Replay(step, db, commands[..i], answers[..i]).value, commands[i]);
            && r.Ok? && r.value.1 == answers[i].value
            && Replay(step, db, commands[..i + 1], answers[..i + 1]) == Some(r.value.0)
    decreases |commands|
  {
    var last := |commands| - 1;
    if i < last {
      OkMeansCommitted(step, db, commands[..last], answers[..last], i);
      assert commands[..last][..i] == commands[..i] && answers[..last][..i] == answers[..i];
      assert commands[..last][..i + 1] == commands[..i + 1] && answers[..last][..i + 1] == answers[..i + 1];
    } else {
      assert commands[..i + 1] == commands && answers[..i + 1] == answers;
    }
  }

  /** For the commands of the migrate workers: whoever got OK finds in the serial execution that its command's guard held, and
      that the rows changed as the command says. */
  lemma OkMeansPerformed(db: Database, commands: seq<Command>, answers: seq<Outcome<Answer>>, i: nat)
    requires |commands| == |answers| && Replay(Transact, db, commands, answers).Some? && i < |commands| && answers[i].Ok?
    ensures var before, after := Replay(Transact, db, commands[..i], answers[..i]), Replay(Transact, db, commands[..i + 1], answers[..i + 1]);
            && before.Some? && after.Some? && Permitted(before.value, commands[i])
            && Performed(before.value, commands[i], after.value, answers[i].value)
  {
    hide Effect, Permitted, Performed;
    OkMeansCommitted(Transact, db, commands, answers, i);
    EffectExactly(Replay(Transact, db, commands[..i], answers[..i]).value, commands[i]);
  }

  /** The transaction of one repository command. */
  ghost function Transact(db: Database, c: Command): Outcome<(Database, Answer)> {
    Effect(db, c)
  }

  function Kind(c: Command): nat {
    match c
    case ClaimNext(_, _) => 0
    case MarkCommitIntent(_, _, _, _) => 1
    case MarkTempWritten(_, _, _, _) => 2
    case SaveReceipt(_, _) => 3
    case MarkRetryable(_, _, _, _, _) => 4
  }

  predicate SameKey(first: Command, next: Command) {
    !next.ClaimNext? && Kind(next) == Kind(first) && next.plan == first.plan && EpochOf(next) == EpochOf(first)
  }

  /** What the worker runs as one transaction. */
  predicate GroupOk(group: seq<Command>, most: nat) {
    && 1 <= |group| <= most
    && (|group| > 1 ==> !group[0].ClaimNext?)
    && (forall i :: 1 <= i < |group| ==> SameKey(group[0], group[i]))
    && (forall i, k :: 0 <= i < k < |group| ==> TaskOf(group[i]) != TaskOf(group[k]))
  }

  /** Two commands of one transaction: the same call under one plan and epoch for different tasks. */
  predicate Batchable(a: Command, b: Command) {
    match a
    case ClaimNext(_, _) => false
    case MarkCommitIntent(p, t, e, _) => b.MarkCommitIntent? && b.plan == p && b.epoch == e && b.task != t
    case MarkTempWritten(p, t, e, _) => b.MarkTempWritten? && b.plan == p && b.epoch == e && b.task != t
    case SaveReceipt(p, r) => b.SaveReceipt? && b.plan == p && b.receipt.ownerEpoch == r.ownerEpoch && b.receipt.task != r.task
    case MarkRetryable(p, t, e, _, _) => b.MarkRetryable? && b.plan == p && b.epoch == e && b.task != t
  }

  lemma BatchableExactly(a: Command, b: Command)
    ensures Batchable(a, b) <==> !a.ClaimNext? && SameKey(a, b) && TaskOf(a) != TaskOf(b)
  {
  }

  /** A group holds commands that may share a transaction, and no other groups are formed. */
  lemma GroupExactly(group: seq<Command>, most: nat)
    ensures GroupOk(group, most) <==>
              1 <= |group| <= most && forall i, k :: 0 <= i < k < |group| ==> Batchable(group[i], group[k])
  {
    hide SameKey, TaskOf, Batchable;
    if GroupOk(group, most) {
      forall i, k | 0 <= i < k < |group| ensures Batchable(group[i], group[k]) {
        BatchableExactly(group[i], group[k]);
        if i > 0 {
          SameKeyTransfers(group[0], group[i], group[k]);
        }
      }
    }
    if 1 <= |group| <= most && forall i, k :: 0 <= i < k < |group| ==> Batchable(group[i], group[k]) {
      forall k | 1 <= k < |group| ensures !group[0].ClaimNext? && SameKey(group[0], group[k]) {
        assert Batchable(group[0], group[k]);
        BatchableExactly(group[0], group[k]);
      }
      forall i, k | 0 <= i < k < |group| ensures TaskOf(group[i]) != TaskOf(group[k]) {
        BatchableExactly(group[i], group[k]);
      }
      if |group| > 1 {
        assert SameKey(group[0], group[1]);
      }
    }
  }

  /** Which command could still join a group. */
  lemma JoinsExactly(group: seq<Command>, most: nat, next: Command)
    requires GroupOk(group, most)
    ensures Joins(group, next) <==> forall i :: 0 <= i < |group| ==> Batchable(group[i], next)
  {
    hide SameKey, TaskOf, Batchable;
    forall i | 0 <= i < |group|
      ensures Batchable(group[i], next) <==> !group[i].ClaimNext? && SameKey(group[i], next) && TaskOf(group[i]) != TaskOf(next)
    {
      BatchableExactly(group[i], next);
    }
    if Joins(group, next) {
      forall i | 0 < i < |group| ensures !group[i].ClaimNext? && SameKey(group[i], next) {
        SameKeyTransfers(group[0], group[i], next);
      }
    }
  }

  lemma SameKeyTransfers(a: Command, b: Command, c: Command)
    requires !a.ClaimNext? && SameKey(a, b) && SameKey(a, c)
    ensures SameKey(b, c) && !b.ClaimNext?
  {
  }

  function TasksOf(group: seq<Command>): set<string> {
    set i | 0 <= i < |group| :: TaskOf(group[i])
  }

  lemma TasksOfAppend(group: seq<Command>, next: Command)
    ensures TasksOf(group + [next]) == TasksOf(group) + {TaskOf(next)}
  {
    assert (group + [next])[|group|] == next;
    assert forall i :: 0 <= i < |group| ==> (group + [next])[i] == group[i];
  }

  /** Whether the command at the front of the queue could still join. */
  predicate Joins(group: seq<Command>, next: Command)
    requires group != []
  {
    !group[0].ClaimNext? && SameKey(group[0], next) && forall i :: 0 <= i < |group| ==> TaskOf(group[i]) != TaskOf(next)
  }

  function Granted(n: nat): seq<Outcome<Answer>> {
    seq(n, _ => Ok(Nothing))
  }

  /** Every command that can join a group answers with nothing. */
  lemma BatchedAnswer(db: Database, c: Command)
    requires !c.ClaimNext? && Effect(db, c).Ok?
    ensures Effect(db, c).value.1 == Nothing
  {
  }

  /** The first command, and after it those that may share its transaction. */
  method SplitGroup(queue: seq<Command>, most: nat) returns (group: seq<Command>, rest: seq<Command>)
    requires queue != [] && most >= 1
    ensures GroupOk(group, most) && group + rest == queue
    ensures rest == [] || |group| == most || !Joins(group, rest[0])
    ensures 1 <= |group| <= most && forall i, k :: 0 <= i < k < |group| ==> Batchable(group[i], group[k])
    ensures rest == [] || |group| == most || exists i :: 0 <= i < |group| && !Batchable(group[i], rest[0])
  {
    hide Batchable;
    group, rest := [queue[0]], queue[1..];
    if !group[0].ClaimNext? && most > 1 {
      var tasks := {TaskOf(group[0])};
      while |group| < most && rest != []
        invariant GroupOk(group, most) && group + rest == queue && !group[0].ClaimNext?
        invariant tasks == TasksOf(group)
        decreases |rest|
      {
        var next := rest[0];
        if !SameKey(group[0], next) || TaskOf(next) in tasks {
          break;
        }
        TasksOfAppend(group, next);
        tasks := tasks + {TaskOf(next)};
        group, rest := group + [next], rest[1..];
      }
    }
    GroupExactly(group, most);
    if rest != [] {
      JoinsExactly(group, most, rest[0]);
    }
  }

  datatype Action = Submit(command: Command) | StopWriter

  class RuntimeDbWriter {
    const repository: TaskRuntimeRepository
    const maxBatch: nat
    ghost const start: Database

    var commands: seq<Command>
    var stopping: bool
    var acceptedCount: nat
    var commandCount: nat
    var groupCount: nat
    var batchedCount: nat
    var largestBatch: nat

    /** The group taken from the queue and not yet answered, and the answers given so far. */
    var group: seq<Command>
    var answers: seq<Outcome<Answer>>
    /** Every command accepted so far, and those of them already answered. */
    ghost var accepted: seq<Command>
    ghost var done: seq<Command>

    ghost predicate Valid()
      reads this, repository
    {
      && 1 <= maxBatch <= 16
      && repository.Idle() && IdsValid(repository.db)
      && accepted == done + group + commands && |done| == |answers|
      && acceptedCount == |accepted| && commandCount == |answers|
      && Replay(Transact, start, done, answers) == Some(repository.db)
    }

    constructor (db: Database, maxBatch: nat)
      requires IdsValid(db) && 1 <= maxBatch <= 16
      ensures Valid() && fresh(repository) && start == db && this.maxBatch == maxBatch
      ensures accepted == done == [] && group == [] && commands == [] && answers == [] && !stopping
    {
      repository := new TaskRuntimeRepository(db);
      this.maxBatch := maxBatch;
      start := db;
      commands, group, accepted, done, answers := [], [], [], [], [];
      stopping := false;
      acceptedCount, commandCount, groupCount, batchedCount, largestBatch := 0, 0, 0, 0, 0;
    }

    method Enqueue(command: Command) returns (status: Status)
      requires Valid()
      modifies this`commands, this`accepted, this`acceptedCount
      ensures Valid() && status == if stopping then Err(Internal) else Ok(())
      ensures if stopping then accepted == old(accepted) && commands == old(commands)
              else accepted == old(accepted) + [command] && commands == old(commands) + [command]
    {
      if stopping {
        return Err(Internal);
      }
      commands := commands + [command];
      accepted := accepted + [command];
      acceptedCount := acceptedCount + 1;
      return Ok(());
    }

    /** What other threads do while the worker waits or works. */
    method Others(actions: seq<Action>)
      requires Valid()
      modifies this`commands, this`accepted, this`acceptedCount, this`stopping
      ensures Valid() && (old(stopping) ==> stopping && commands == old(commands))
      ensures old(accepted) <= accepted
    {
      var i := 0;
      while i < |actions|
        invariant i <= |actions| && Valid() && (old(stopping) ==> stopping && commands == old(commands))
        invariant old(accepted) <= accepted
      {
        match actions[i] {
          case Submit(command) => var status := Enqueue(command);
          case StopWriter => stopping := true;
        }
        i := i + 1;
      }
    }

    /** The worker takes a group from the front of the queue. */
    method TakeGroup()
      requires Valid() && commands != [] && group == []
      modifies this`commands, this`group
      ensures Valid() && GroupOk(group, maxBatch) && group + commands == old(commands)
      ensures commands == [] || |group| == maxBatch || !Joins(group, commands[0])
    {
      hide Replay, IdsValid, SameKey;
      group, commands := SplitGroup(commands, maxBatch);
      assert done + group + commands == done + (group + commands);
    }

    /** Answers the whole group at once; `replies` must describe what the database did since the group was taken. */
    method Complete(replies: seq<Outcome<Answer>>, ghost before: Database)
      requires |replies| == |group| && Running(before)
      requires repository.Idle() && IdsValid(repository.db)
      requires Replay(Transact, before, group, replies) == Some(repository.db)
      modifies this`group, this`answers, this`commandCount, this`done, this`done
      ensures Valid() && group == [] && answers == old(answers) + replies && done == old(done) + old(group)
    {
      ReplayAppend(Transact, start, done, answers, group, replies);
      answers := answers + replies;
      commandCount := commandCount + |replies|;
      done, group := done + group, [];
    }

    /** While a group runs: everything answered so far is what led to the rows `before` the group. */
    ghost predicate Running(before: Database)
      reads this
    {
      && 1 <= maxBatch <= 16
      && accepted == done + group + commands && |done| == |answers|
      && acceptedCount == |accepted| && commandCount == |answers|
      && Replay(Transact, start, done, answers) == Some(before)
    }

    /** A single command runs in its own transaction. */
    method Execute()
      requires Valid() && |group| == 1
      modifies this`group, this`answers, this`commandCount, this`done, this`groupCount, repository
      ensures Valid() && group == [] && |answers| == old(|answers|) + 1 && old(answers) <= answers
      ensures answers[old(|answers|)].Err? ==> repository.db == old(repository.db)
      ensures groupCount == old(groupCount) + 1
    {
      groupCount := groupCount + 1;
      ghost var before := repository.db;
      var reply := repository.Perform(group[0]);
      ReplayNext(Transact, before, [], [], group[0], reply);
      assert group == [] + [group[0]] && [reply] == [] + [reply];
      if reply.Ok? {
        EffectKeepsTasks(before, group[0]);
      }
      Complete([reply], before);
    }

    /** Where the operations of a batch stand: the first `index` have run inside the open transaction. */
    ghost predicate Batching(before: Database, index: nat)
      requires index <= |group|
      reads this, repository
    {
      && group != [] && repository.InBatch(group[0].plan) && repository.saved == Some(before) && IdsValid(repository.db)
      && Replay(Transact, before, group[..index], Granted(index)) == Some(repository.db)
    }

    method BatchedOperation(index: nat, ghost before: Database) returns (status: Outcome<Answer>)
      requires GroupOk(group, maxBatch) && |group| > 1 && index < |group| && Batching(before, index)
      modifies repository`db, repository`saved
      ensures repository.batchActive
      ensures status.Ok? ==> Batching(before, index + 1)
      ensures status.Err? ==> (repository.saved == Some(before) || (repository.saved.None? && repository.db == before))
    {
      ghost var db := repository.db;
      assert SameKey(group[0], group[0]);
      status := repository.Perform(group[index]);
      if status.Ok? {
        BatchedAnswer(db, group[index]);
        EffectKeepsTasks(db, group[index]);
        EffectKeepsEpoch(db, group[index]);
        ReplayNext(Transact, before, group[..index], Granted(index), group[index], status);
        assert group[..index + 1] == group[..index] + [group[index]];
        assert Granted(index + 1) == Granted(index) + [status];
      }
    }

    /** Runs the operations of the batch until one fails. */
    method RunOperations(ghost before: Database) returns (index: nat, failed: Option<Code>)
      requires GroupOk(group, maxBatch) && |group| > 1 && Batching(before, 0)
      modifies repository`db, repository`saved
      ensures repository.batchActive && index <= |group|
      ensures failed.None? ==> index == |group| && Batching(before, |group|)
      ensures failed.Some? ==>
                index < |group| && (repository.saved == Some(before) || (repository.saved.None? && repository.db == before))
    {
      index, failed := 0, None;
      while index < |group|
        invariant index <= |group| && repository.batchActive && Batching(before, index)
      {
        var r := BatchedOperation(index, before);
        if r.Err? {
          return index, Some(r.code);
        }
        index := index + 1;
      }
    }

    /** The batch has been rolled back: the command that failed gets its own error, the others a general one. */
    method AnswerFailure(index: nat, code: Code, ghost before: Database)
      requires Running(before) && repository.Idle() && IdsValid(repository.db) && repository.db == before && index < |group|
      modifies this`group, this`answers, this`commandCount, this`done
      ensures Valid() && group == [] && |answers| == old(|answers|) + |old(group)| && old(answers) <= answers
      ensures forall i :: old(|answers|) <= i < |answers| ==>
                answers[i] == Err(if i == old(|answers|) + index then code else Internal)
    {
      var replies: seq<Outcome<Answer>> := seq(|group|, i => if i == index then Err(code) else Err(Internal));
      ReplayFailed(Transact, before, group, replies);
      Complete(replies, before);
    }

    /** A group of several commands is one transaction: all of it is committed and answered OK, or the rows are as before
        and every command is answered with an error. */
    method ExecuteBatch()
      requires Valid() && |group| > 1 && GroupOk(group, maxBatch)
      modifies this`group, this`answers, this`commandCount, this`done
      modifies this`groupCount, this`batchedCount, this`largestBatch, repository
      ensures Valid() && group == [] && |answers| == old(|answers|) + |old(group)| && old(answers) <= answers
      ensures (forall i :: old(|answers|) <= i < |answers| ==> answers[i].Ok?)
              || ((forall i :: old(|answers|) <= i < |answers| ==> answers[i].Err?) && repository.db == old(repository.db))
      ensures groupCount == old(groupCount) + 1 && batchedCount == old(batchedCount) + |old(group)|
      ensures largestBatch == if old(largestBatch) < |old(group)| then |old(group)| else old(largestBatch)
    {
      groupCount := groupCount + 1;
      batchedCount := batchedCount + |group|;
      largestBatch := if largestBatch < |group| then |group| else largestBatch;
      ghost var before := repository.db;
      var status := repository.BeginWriteBatch(group[0].plan, EpochOf(group[0]));
      if status.Err? {
        Refuse(status.code, before);
        return;
      }
      var index, failed := RunOperations(before);
      if failed.Some? {
        repository.RollbackWriteBatch();
        AnswerFailure(index, failed.value, before);
        return;
      }
      CommitGroup(before);
    }

    /** Commits the batch and answers with what the commit says. */
    method CommitGroup(ghost before: Database)
      requires Running(before) && Batching(before, |group|) && IdsValid(before)
      modifies this`group, this`answers, this`commandCount, this`done, repository
      ensures Valid() && group == [] && |answers| == old(|answers|) + |old(group)| && old(answers) <= answers
      ensures (forall i :: old(|answers|) <= i < |answers| ==> answers[i].Ok?)
              || ((forall i :: old(|answers|) <= i < |answers| ==> answers[i].Err?) && repository.db == before)
    {
      assert group[..|group|] == group;
      var status := repository.CommitWriteBatch();
      if status.Err? {
        Refuse(status.code, before);
      } else {
        Complete(Granted(|group|), before);
      }
    }

    /** The same error for every command of the group. */
    method Refuse(code: Code, ghost before: Database)
      requires Running(before) && repository.Idle() && IdsValid(repository.db) && repository.db == before
      modifies this`group, this`answers, this`commandCount, this`done
      ensures Valid() && group == [] && |answers| == old(|answers|) + |old(group)| && old(answers) <= answers
      ensures forall i :: old(|answers|) <= i < |answers| ==> answers[i].Err?
    {
      var replies: seq<Outcome<Answer>> := seq(|group|, _ => Err(code));
      ReplayFailed(Transact, before, group, replies);
      Complete(replies, before);
    }

    /** The worker thread. `schedule` says what other threads do between its steps; when it is exhausted the owner calls
        Stop, as the destructor does. When the thread ends, every accepted command has been answered, once and in order
        of acceptance, and the rows are those of one transaction per command answered with OK. */
    method Run(schedule: seq<seq<Action>>)
      requires Valid() && group == []
      modifies this, repository
      ensures Valid() && stopping && commands == [] && group == []
      ensures done == accepted && |answers| == |accepted| && commandCount == acceptedCount
      ensures old(accepted) <= accepted && old(answers) <= answers
      ensures Replay(Transact, start, accepted, answers) == Some(repository.db)
    {
      var turn := 0;
      while true
        invariant Valid() && group == [] && turn <= |schedule|
        invariant old(accepted) <= accepted && old(answers) <= answers
        decreases |schedule| - turn, if stopping then 0 else 1, |commands|
      {
        if turn < |schedule| {
          Others(schedule[turn]);
          turn := turn + 1;
        } else {
          stopping := true;
        }
        if commands == [] {
          if stopping {
            break;
          }
        } else {
          TakeGroup();
          if |group| > 1 {
            ExecuteBatch();
          } else {
            Execute();
          }
        }
      }
    }
  }
}
