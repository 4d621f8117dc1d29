/** The bounded queue between the claiming thread and the worker pool of src/pipeline/migration_service.cpp. Each method is
    one critical section under the mutex; any thread may be next. */
module MigrateQueue {
  import opened Common

  const QUEUE_CAPACITY := 8

  datatype WorkerState = Waiting | Executing(item: string) | Returned

  function Has(w: WorkerState, x: string): nat {
    if w == Executing(x) then 1 else 0
  }

  /** How many workers have item x in hand. */
  function InHand(workers: seq<WorkerState>, x: string): nat {
    if workers == [] then 0 else InHand(workers[..|workers| - 1], x) + Has(workers[|workers| - 1], x)
  }

  lemma {:induction false} InHandUpdate(workers: seq<WorkerState>, i: nat, w: WorkerState, x: string)
    requires i < |workers|
    ensures InHand(workers[i := w], x) == InHand(workers, x) - Has(workers[i], x) + Has(w, x)
    decreases |workers|
  {
    var last := |workers| - 1;
    if i == last {
      assert workers[i := w][..last] == workers[..last];
    } else {
      InHandUpdate(workers[..last], i, w, x);
      assert workers[i := w][..last] == workers[..last][i := w];
    }
  }

  lemma {:induction false} NothingInHand(workers: seq<WorkerState>, x: string)
    requires forall i :: 0 <= i < |workers| ==> !workers[i].Executing?
    ensures InHand(workers, x) == 0
    decreases |workers|
  {
    if workers != [] {
      NothingInHand(workers[..|workers| - 1], x);
    }
  }

  lemma TakenNext(taken: seq<string>, item: string, x: string)
    ensures multiset(taken + [item])[x] == multiset(taken)[x] + (if x == item then 1 else 0)
  {
    assert multiset(taken + [item]) == multiset(taken) + multiset{item};
  }

  class MigrateQueue {
    var queue: seq<string>
    var producerDone: bool
    var firstError: Option<Code>
    var workers: seq<WorkerState>

    /** Everything claimed, everything taken from the queue, everything executed. */
    ghost var claimed: seq<string>
    ghost var taken: seq<string>
    ghost var executed: multiset<string>

    ghost predicate Valid()
      reads this
    {
      && |workers| > 0 && |queue| <= QUEUE_CAPACITY
      && claimed == taken + queue
      && (forall x {:trigger InHand(workers, x)} :: multiset(taken)[x] == executed[x] + InHand(workers, x))
      && (forall i :: 0 <= i < |workers| && workers[i].Returned? ==> producerDone && queue == [])
    }

    constructor (count: nat)
      requires 1 <= count <= 8
      ensures Valid() && |workers| == count && queue == [] && claimed == [] && !producerDone && firstError.None?
    {
      queue, producerDone, firstError := [], false, None;
      workers := seq(count, _ => Waiting);
      claimed, taken, executed := [], [], multiset{};
      new;
      forall x ensures InHand(workers, x) == 0 {
        NothingInHand(workers, x);
      }
    }

    /** The wait of the producer: room in the queue, or an error that ends the claiming. */
    predicate ProducerReady()
      reads this
    {
      !producerDone && (|queue| < QUEUE_CAPACITY || firstError.Some?)
    }

    /** The producer has claimed a task while there was room; only workers have touched the queue since. */
    method Push(item: string)
      requires Valid() && !producerDone && |queue| < QUEUE_CAPACITY
      modifies this`queue, this`claimed
      ensures Valid() && queue == old(queue) + [item] && claimed == old(claimed) + [item]
    {
      queue := queue + [item];
      claimed := claimed + [item];
    }

    method StopProducing()
      requires Valid()
      modifies this`producerDone
      ensures Valid() && producerDone
    {
      producerDone := true;
    }

    /** The wait of a worker. */
    predicate WorkerReady(i: nat)
      requires i < |workers|
      reads this
    {
      workers[i].Executing? || (workers[i].Waiting? && (producerDone || queue != []))
    }

    /** A waiting worker takes the oldest item, or returns when there is none left to come. */
    method Take(i: nat)
      requires Valid() && i < |workers| && workers[i].Waiting? && WorkerReady(i)
      modifies this`queue, this`workers, this`taken
      ensures Valid() && claimed == old(claimed)
      ensures if old(queue) == [] then workers == old(workers)[i := Returned] && queue == []
              else workers == old(workers)[i := Executing(old(queue)[0])] && queue == old(queue)[1..]
    {
      ghost var before := workers;
      if queue == [] {
        workers := workers[i := Returned];
        forall x ensures InHand(workers, x) == InHand(before, x) {
          InHandUpdate(before, i, Returned, x);
        }
        return;
      }
      var item := queue[0];
      ghost var was := taken;
      assert claimed == (taken + [item]) + queue[1..];
      queue, taken := queue[1..], taken + [item];
      workers := workers[i := Executing(item)];
      forall x ensures multiset(taken)[x] == executed[x] + InHand(workers, x) {
        InHandUpdate(before, i, Executing(item), x);
        TakenNext(was, item, x);
        assert multiset(was)[x] == executed[x] + InHand(before, x);
      }
    }

    /** ExecuteClaimedTask has returned; the first error is kept. */
    method Finish(i: nat, result: Status)
      requires Valid() && i < |workers| && workers[i].Executing?
      modifies this`workers, this`executed, this`firstError
      ensures Valid() && workers == old(workers)[i := Waiting] && executed == old(executed) + multiset{old(workers)[i].item}
      ensures firstError == if old(firstError).None? && result.Err? then Some(result.code) else old(firstError)
    {
      ghost var before, done := workers, executed;
      executed := executed + multiset{workers[i].item};
      workers := workers[i := Waiting];
      forall x ensures multiset(taken)[x] == executed[x] + InHand(workers, x) {
        InHandUpdate(before, i, Waiting, x);
        assert multiset(taken)[x] == done[x] + InHand(before, x);
      }
      if firstError.None? && result.Err? {
        firstError := Some(result.code);
      }
    }

    /** No deadlock: while some worker has not returned, some thread can go on. */
    lemma NoDeadlock(i: nat)
      requires Valid() && i < |workers| && !workers[i].Returned?
      ensures ProducerReady() || exists k :: 0 <= k < |workers| && WorkerReady(k)
    {
      if !WorkerReady(i) {
        assert ProducerReady();
      }
    }

    /** When all workers have returned, every claimed task has been executed exactly once. */
    lemma AllExecuted()
      requires Valid() && forall i :: 0 <= i < |workers| ==> workers[i].Returned?
      ensures producerDone && queue == [] && executed == multiset(claimed)
    {
      assert workers[0].Returned?;
      assert claimed == taken;
      forall x ensures executed[x] == multiset(claimed)[x] {
        NothingInHand(workers, x);
      }
    }
  }
}
