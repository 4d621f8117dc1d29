/** The io_uring copy engine of src/filesystem/io_uring_copy_engine.cpp: several reads and writes in flight, short
    transfers, completions in any order, hashing in order. */
module IoUringCopy {
  import opened Common
  import opened CopyModel
  import opened IoUringState
  import opened Sums

  datatype Request = Request(index: nat, write: bool, from: nat, count: nat, offset: nat)

  /** The transfer a slot asks for: what is left of it. */
  function RequestFor(i: nat, s: Slot): Request {
    Request(i, s.phase == Writing, s.progress, if s.length > s.progress then s.length - s.progress else 0, s.offset + s.progress)
  }

  /** The requests not yet completed are exactly the transfers of the reading and writing slots, one each. */
  ghost predicate RingOk(out: seq<Request>, slots: seq<Slot>) {
    && (forall a {:trigger out[a]} :: 0 <= a < |out| ==>
          out[a].index < |slots| && Active(slots[out[a].index]) && out[a] == RequestFor(out[a].index, slots[out[a].index]))
    && (forall a, b :: 0 <= a < b < |out| ==> out[a].index != out[b].index)
    && |out| == Sum(slots, ActiveWeight)
  }

  lemma RingRemove(out: seq<Request>, a: nat, slots: seq<Slot>, s: Slot)
    requires RingOk(out, slots) && a < |out| && !Active(s)
    ensures RingOk(out[..a] + out[a + 1..], slots[out[a].index := s])
  {
    SumUpdate(slots, ActiveWeight, out[a].index, s);
  }

  lemma RingAdd(out: seq<Request>, i: nat, slots: seq<Slot>, s: Slot)
    requires RingOk(out, slots) && i < |slots| && !Active(slots[i]) && Active(s)
    ensures RingOk(out + [RequestFor(i, s)], slots[i := s])
  {
    SumUpdate(slots, ActiveWeight, i, s);
    var out' := out + [RequestFor(i, s)];
    forall a | 0 <= a < |out| ensures out'[a] == out[a] && out[a].index != i {
    }
  }

  lemma RingBound(out: seq<Request>, slots: seq<Slot>, i: nat)
    requires RingOk(out, slots) && i < |slots| && !Active(slots[i])
    ensures |out| < |slots|
  {
    SumBelow(slots, i);
  }

  lemma {:induction false} SumBelow(slots: seq<Slot>, i: nat)
    requires i < |slots| && !Active(slots[i])
    ensures Sum(slots, ActiveWeight) < |slots|
    decreases |slots|
  {
    var last := |slots| - 1;
    if i < last {
      SumBelow(slots[..last], i);
    } else {
      SumAtMost(slots[..last]);
    }
  }

  lemma {:induction false} SumAtMost(slots: seq<Slot>)
    ensures 0 <= Sum(slots, ActiveWeight) <= |slots|
    decreases |slots|
  {
    if slots != [] {
      SumAtMost(slots[..|slots| - 1]);
    }
  }

  // ---------------------------------------------------------------- the end of a copy

  /** No slot waits to be hashed although its turn has come, and no slot is free while chunks are left. */
  ghost predicate Fed(j: Job, p: Progress) {
    && (forall i :: 0 <= i < |p.slots| && p.slots[i].phase == Ready ==> p.slots[i].sequence != p.nextHash)
    && (forall i :: 0 <= i < |p.slots| && p.slots[i].phase == Free ==> p.nextRead == j.count)
  }

  lemma NoneActive(slots: seq<Slot>, i: nat)
    requires RingOk([], slots) && i < |slots|
    ensures !Active(slots[i])
  {
    SumAtLeast(slots, ActiveWeight, i);
  }

  /** With nothing in flight every slot is free: a chunk that waits for hashing waits for an earlier one that is still
      being read. */
  lemma AllFree(j: Job, p: Progress)
    requires Consistent(j, p) && Fed(j, p) && RingOk([], p.slots)
    ensures forall i :: 0 <= i < |p.slots| ==> p.slots[i].phase == Free
  {
    forall i | 0 <= i < |p.slots| ensures p.slots[i].phase == Free {
      NoneActive(p.slots, i);
      if p.slots[i].phase == Ready {
        assert SlotOk(j, p, p.slots[i]);
        assert ChunkOk(j, p, p.nextHash);
        var k :| 0 <= k < |p.slots| && Busy(p.slots[k]) && p.slots[k].sequence == p.nextHash;
        NoneActive(p.slots, k);
        assert false;
      }
    }
  }

  lemma {:induction false} AllLanded(j: Job, p: Progress, q: nat)
    requires Consistent(j, p) && (forall i :: 0 <= i < |p.slots| ==> p.slots[i].phase == Free) && q <= p.nextRead
    ensures Landed(j, p.target, 0, Start(j, q))
  {
    if q > 0 {
      AllLanded(j, p, q - 1);
      assert ChunkOk(j, p, q - 1);
      StartMonotone(j, q - 1, q);
      var a, b := Start(j, q - 1), Start(j, q);
      if b > a {
        assert p.target[0..b] == p.target[0..a] + p.target[a..b];
        assert j.source[0..b] == j.source[0..a] + j.source[a..b];
      }
    }
  }

  /** When nothing is in flight the copy is complete: the engine cannot end early. */
  lemma Complete(j: Job, p: Progress, fed0: Bytes)
    requires Consistent(j, p) && Fed(j, p) && RingOk([], p.slots) && HashedPrefix(j, p, fed0)
    requires |p.slots| > 0 || j.count == 0
    ensures p.completed == j.count == p.nextHash && p.copied == j.size
    ensures j.size <= |j.source| && p.fed == fed0 + j.source[..j.size] && Landed(j, p.target, 0, j.size)
  {
    assert p.nextHash < p.nextRead ==> ChunkOk(j, p, p.nextHash);
    AllFree(j, p);
    assert p.nextRead == j.count;
    SumZero(p.slots, BusyWeight);
    SumZero(p.slots, HeldWeight);
    AllLanded(j, p, j.count);
  }

  /** Bytes beyond the job keep their old value, and the file does not grow beyond the job. */
  predicate TailKept(j: Job, file0: Bytes, file: Bytes) {
    && |file0| <= |file|
    && (|file| > |file0| ==> |file| <= j.size)
    && forall k :: j.size <= k < |file0| ==> file[k] == file0[k]
  }

  /** The target after a copy: the source bytes, then whatever the file held beyond them. */
  function Copied(j: Job, file0: Bytes): Bytes
    requires j.size <= |j.source|
  {
    j.source[..j.size] + (if |file0| > j.size then file0[j.size..] else [])
  }

  lemma CopiedIs(j: Job, file0: Bytes, file: Bytes)
    requires j.size <= |j.source| && Landed(j, file, 0, j.size) && TailKept(j, file0, file)
    ensures file == Copied(j, file0)
  {
    assert j.size > 0 ==> file[0..j.size] == file[..j.size] == j.source[..j.size];
    assert file == file[..j.size] + file[j.size..];
    assert file[j.size..] == if |file0| > j.size then file0[j.size..] else [];
  }

  lemma RingReplace(out: seq<Request>, a: nat, slots: seq<Slot>, s: Slot)
    requires RingOk(out, slots) && a < |out| && Active(s)
    ensures RingOk(out[..a] + out[a + 1..] + [RequestFor(out[a].index, s)], slots[out[a].index := s])
  {
    var i := out[a].index;
    var idle := slots[i].(phase := Ready);
    RingRemove(out, a, slots, idle);
    RingAdd(out[..a] + out[a + 1..], i, slots[i := idle], s);
    assert slots[i := idle][i := s] == slots[i := s];
  }

  lemma SendTail(j: Job, p: Progress, i: nat, n: nat, file0: Bytes)
    requires Consistent(j, p) && i < |p.slots| && p.slots[i].phase == Writing && 0 < n <= p.slots[i].length - p.slots[i].progress
    requires TailKept(j, file0, p.target)
    ensures TailKept(j, file0, Send(p, i, n).target)
  {
    assert SlotOk(j, p, p.slots[i]);
  }

  // ---------------------------------------------------------------- the state between two completions

  /** All that holds of the counters, the slots, the outstanding requests, the hasher and the target. */
  ghost predicate StateOk(j: Job, p: Progress, out: seq<Request>, entries: nat, file0: Bytes, fed0: Bytes) {
    Consistent(j, p) && RingOk(out, p.slots) && |p.slots| <= entries && HashedPrefix(j, p, fed0) && TailKept(j, file0, p.target)
  }

  lemma StartReadState(j: Job, p: Progress, i: nat, out: seq<Request>, entries: nat, file0: Bytes, fed0: Bytes)
    requires StateOk(j, p, out, entries, file0, fed0) && i < |p.slots| && p.slots[i].phase == Free && p.nextRead < j.count
    ensures p.nextRead * j.chunk < j.size
    ensures var p', left := BeginRead(j, p, i), j.size - p.nextRead * j.chunk;
            && StateOk(j, p', out + [RequestFor(i, p'.slots[i])], entries, file0, fed0)
            && Work(j, p') == Work(j, p) && |out| < entries
            && p'.slots[i] == p.slots[i].(sequence := p.nextRead, offset := p.nextRead * j.chunk,
                 length := if j.chunk < left then j.chunk else left, progress := 0, phase := Reading)
  {
    BeginReadOk(j, p, i);
    RingBound(out, p.slots, i);
    RingAdd(out, i, p.slots, BeginRead(j, p, i).slots[i]);
    ChunkAt(j, p.nextRead);
  }

  lemma HashState(j: Job, p: Progress, i: nat, out: seq<Request>, entries: nat, file0: Bytes, fed0: Bytes)
    requires StateOk(j, p, out, entries, file0, fed0) && i < |p.slots|
    requires p.slots[i].phase == Ready && p.slots[i].sequence == p.nextHash
    ensures p.slots[i].length <= |p.slots[i].bytes| && |out| < entries
    ensures var p' := BeginWrite(p, i);
            StateOk(j, p', out + [RequestFor(i, p'.slots[i])], entries, file0, fed0) && Work(j, p') == Work(j, p)
  {
    BeginWriteOk(j, p, i, fed0);
    RingBound(out, p.slots, i);
    RingAdd(out, i, p.slots, BeginWrite(p, i).slots[i]);
  }

  /** An outstanding request is the rest of its slot's transfer. */
  lemma RequestFits(j: Job, p: Progress, out: seq<Request>, a: nat)
    requires Consistent(j, p) && RingOk(out, p.slots) && a < |out|
    ensures out[a].index < |p.slots|
    ensures var r, s := out[a], p.slots[out[a].index];
            && Active(s) && (r.write <==> s.phase == Writing) && r.from == s.progress && r.count == s.length - s.progress > 0
            && r.offset == s.offset + s.progress && s.length <= |s.bytes|
  {
    assert SlotOk(j, p, p.slots[out[a].index]);
  }

  /** The outstanding requests after the one at `a` completed and its slot became `s`. */
  function OutAfter(out: seq<Request>, a: nat, s: Slot): seq<Request>
    requires a < |out|
  {
    out[..a] + out[a + 1..] + (if Active(s) then [RequestFor(out[a].index, s)] else [])
  }

  lemma CompletionRing(out: seq<Request>, a: nat, slots: seq<Slot>, s: Slot)
    requires RingOk(out, slots) && a < |out|
    ensures RingOk(OutAfter(out, a, s), slots[out[a].index := s])
  {
    if Active(s) {
      RingReplace(out, a, slots, s);
    } else {
      RingRemove(out, a, slots, s);
      assert OutAfter(out, a, s) == out[..a] + out[a + 1..];
    }
  }

  /** The state after a transfer of n > 0 bytes for the request at `a`. */
  function Transferred(j: Job, p: Progress, r: Request, n: nat): Progress
    requires r.index < |p.slots|
  {
    if r.write then Send(p, r.index, n) else Receive(j, p, r.index, n)
  }

  lemma TransferState(j: Job, p: Progress, out: seq<Request>, a: nat, n: nat, entries: nat, file0: Bytes, fed0: Bytes)
    requires StateOk(j, p, out, entries, file0, fed0) && a < |out| && 0 < n <= out[a].count
    requires !out[a].write ==> out[a].offset + n <= |j.source|
    ensures var i, p' := out[a].index, Transferred(j, p, out[a], n);
            && StateOk(j, p', OutAfter(out, a, p'.slots[i]), entries, file0, fed0)
            && Work(j, p') == Work(j, p) - n && |out| <= entries
            && p'.slots == p.slots[i := p'.slots[i]] && p'.slots[i].progress == p.slots[i].progress + n
  {
    var i, p' := out[a].index, Transferred(j, p, out[a], n);
    if out[a].write {
      SendOk(j, p, i, n);
      SendTail(j, p, i, n, file0);
    } else {
      ReceiveOk(j, p, i, n);
    }
    CompletionRing(out, a, p.slots, p'.slots[i]);
    SumAtMost(p.slots);
  }

  /** A buffer after `data` arrived at `from`. */
  function Delivered(buffer: Bytes, from: nat, data: Bytes): Bytes
    requires from + |data| <= |buffer|
  {
    buffer[..from] + data + buffer[from + |data|..]
  }

  /** What the kernel did for request r when it reports `res` bytes. */
  ghost predicate KernelMoved(
    j: Job, slots: seq<Slot>, file: Bytes, r: Request, res: int, slots': seq<Slot>, file': Bytes)
  {
    && r.index < |slots|
    && if !(0 < res <= r.count) then slots' == slots && file' == file
       else if r.write then
         && r.from + res <= |slots[r.index].bytes|
         && slots' == slots && file' == WriteAt(file, r.offset, slots[r.index].bytes[r.from..r.from + res])
       else
         && r.offset + res <= |j.source| && r.from + res <= |slots[r.index].bytes|
         && slots' == slots[r.index := slots[r.index].(
              bytes := Delivered(slots[r.index].bytes, r.from, j.source[r.offset..r.offset + res]))]
         && file' == file
  }

  /** The engine's bookkeeping for a completion turns what the kernel did into the specified transfer. */
  lemma MovedIs(j: Job, p: Progress, out: seq<Request>, a: nat, n: nat, slots': seq<Slot>, file': Bytes)
    requires Consistent(j, p) && RingOk(out, p.slots) && a < |out| && 0 < n <= out[a].count
    requires KernelMoved(j, p.slots, p.target, out[a], n, slots', file')
    ensures |slots'| == |p.slots| && out[a].index < |slots'| && (!out[a].write ==> out[a].offset + n <= |j.source|)
    ensures var i, p' := out[a].index, Transferred(j, p, out[a], n);
            var s := slots'[i];
            && s.phase == (if out[a].write then Writing else Reading) && s.progress + n <= s.length
            && s == p.slots[i].(bytes := s.bytes)
            && p'.target == file' && p'.nextRead == p.nextRead && p'.nextHash == p.nextHash && p'.fed == p.fed
            && (s.progress + n < s.length ==>
                  p'.slots == slots'[i := s.(progress := s.progress + n)] && p'.completed == p.completed && p'.copied == p.copied)
            && (s.progress + n == s.length && out[a].write ==>
                  p'.slots == slots'[i := s.(progress := s.length, phase := Free)]
                  && p'.completed == p.completed + 1 && p'.copied == p.copied + s.length)
            && (s.progress + n == s.length && !out[a].write ==>
                  p'.slots == slots'[i := s.(progress := s.length, phase := Ready)]
                  && p'.completed == p.completed && p'.copied == p.copied)
  {
    hide Consistent, RingOk, WriteAt;
    RequestFits(j, p, out, a);
  }

  /** A short transfer frees no slot and readies none. */
  lemma ShortKeepsFed(j: Job, p: Progress, out: seq<Request>, a: nat, n: nat, slots': seq<Slot>, file': Bytes)
    requires Consistent(j, p) && RingOk(out, p.slots) && a < |out| && 0 < n <= out[a].count && Fed(j, p)
    requires KernelMoved(j, p.slots, p.target, out[a], n, slots', file')
    requires out[a].index < |slots'| && slots'[out[a].index].progress + n < slots'[out[a].index].length
    ensures Fed(j, Transferred(j, p, out[a], n))
  {
    MovedIs(j, p, out, a, n, slots', file');
    var i, p' := out[a].index, Transferred(j, p, out[a], n);
    forall k | 0 <= k < |p'.slots| ensures p'.slots[k].phase == p.slots[k].phase && p'.slots[k].sequence == p.slots[k].sequence {
      assert k != i ==> p'.slots[k] == p.slots[k];
    }
  }

  // ---------------------------------------------------------------- the engine

  datatype Failure =
    | QueueFull | SubmitFailed | SubmitCount | WaitFailed | BadIndex | BadPhase | TransferFailed | NoProgress
    | HasherFailed | EndedEarly | BadArguments | InitFailed

  /** The failures that come from outside; the others of a running engine would be its own mistakes. */
  predicate FromOutside(f: Failure) {
    f in {SubmitFailed, SubmitCount, WaitFailed, TransferFailed, NoProgress, HasherFailed}
  }

  class CopyEngine {
    const job: Job
    const hasher: Hasher
    const entries: nat
    ghost const target0: Bytes
    ghost const fed0: Bytes

    var slots: seq<Slot>
    var nextRead: nat
    var nextHash: nat
    var completed: nat
    var copied: nat
    var inFlight: nat
    var queued: nat

    // the kernel's side: requests prepared, requests submitted, and the target file
    var prepared: seq<Request>
    var flying: seq<Request>
    var target: Bytes

    ghost function Now(): Progress
      reads this, hasher
    {
      Progress(slots, nextRead, nextHash, completed, copied, target, hasher.fed)
    }

    ghost predicate Counted()
      reads this
    {
      inFlight == |flying| && queued == |prepared|
    }

    ghost predicate Valid()
      reads this, hasher
    {
      Counted() && StateOk(job, Now(), flying + prepared, entries, target0, fed0) && !hasher.finalized
    }

    constructor (source: Bytes, size: nat, chunk: nat, depth: nat, target: Bytes, hasher: Hasher)
      requires chunk > 0 && depth > 0 && !hasher.finalized
      ensures job == Job(source, size, chunk, ChunkCount(size, chunk)) && this.hasher == hasher
      ensures target0 == target && fed0 == hasher.fed && this.target == target
      ensures Valid() && prepared == flying == [] && nextRead == 0
      ensures |slots| == (if depth < job.count then depth else job.count)
      ensures forall i :: 0 <= i < |slots| ==> slots[i].phase == Free
    {
      var count := ChunkCount(size, chunk);
      var slotCount := if depth < count then depth else count;
      job := Job(source, size, chunk, count);
      this.hasher := hasher;
      entries := if depth < 8 then 8 else depth;
      target0 := target;
      fed0 := hasher.fed;
      slots := seq(slotCount, _ => Slot(Zeros(chunk), 0, 0, 0, 0, Free));
      nextRead, nextHash, completed, copied, inFlight, queued := 0, 0, 0, 0, 0, 0;
      prepared, flying := [], [];
      this.target := target;
      new;
      ChunksPartition(source, size, chunk);
      SumZero(slots, BusyWeight);
      SumZero(slots, HeldWeight);
      SumZero(slots, ActiveWeight);
      forall i | 0 <= i < |slots| ensures SlotOk(job, Now(), slots[i]) {
      }
    }

    /** io_uring_submit takes some of the prepared requests, in order, until all are taken. */
    method Flush() returns (failure: Option<Failure>)
      requires Counted()
      modifies this`prepared, this`flying, this`queued, this`inFlight
      ensures Counted()
      ensures failure.None? ==> prepared == [] && flying == old(flying) + old(prepared)
      ensures failure.Some? ==> FromOutside(failure.value)
    {
      while queued != 0
        invariant Counted() && flying + prepared == old(flying) + old(prepared)
      {
        var submitted: int := *;
        if submitted < 0 {
          return Some(SubmitFailed);
        }
        if submitted == 0 || submitted > queued {
          return Some(SubmitCount);
        }
        flying, prepared := flying + prepared[..submitted], prepared[submitted..];
        queued := queued - submitted;
        inFlight := inFlight + submitted;
      }
      assert flying + prepared == flying;
      return None;
    }

    method SubmitRequest(i: nat, write: bool) returns (failure: Option<Failure>)
      requires i < |slots| && slots[i].progress <= slots[i].length && Counted()
      modifies this`slots, this`prepared, this`queued
      ensures Counted()
      ensures failure == if old(|prepared|) < entries then None else Some(QueueFull)
      ensures failure.None? ==>
                && slots == old(slots)[i := old(slots)[i].(phase := if write then Writing else Reading)]
                && prepared == old(prepared) + [RequestFor(i, slots[i])]
    {
      if |prepared| >= entries {
        return Some(QueueFull);
      }
      var slot := slots[i];
      prepared := prepared + [Request(i, write, slot.progress, slot.length - slot.progress, slot.offset + slot.progress)];
      slots := slots[i := slot.(phase := if write then Writing else Reading)];
      queued := queued + 1;
      return None;
    }

    method StartRead(i: nat) returns (failure: Option<Failure>)
      requires Valid() && i < |slots| && slots[i].phase == Free && nextRead < job.count
      modifies this`slots, this`prepared, this`queued, this`nextRead
      ensures failure.None? && Valid() && Now() == BeginRead(job, old(Now()), i)
      ensures Work(job, Now()) == Work(job, old(Now()))
    {
      ghost var was, out := Now(), flying + prepared;
      StartReadState(job, was, i, out, entries, target0, fed0);
      var slot := slots[i].(sequence := nextRead, offset := nextRead * job.chunk, progress := 0);
      nextRead := nextRead + 1;
      var left := job.size - slot.offset;
      slots := slots[i := slot.(length := if job.chunk < left then job.chunk else left)];
      failure := SubmitRequest(i, false);
      assert slots == was.slots[i := slots[i]];
      assert flying + prepared == out + [RequestFor(i, slots[i])];
    }

    /** The lowest slot that is ready and next in order, or |slots|. */
    method FindReady() returns (index: nat)
      ensures index <= |slots|
      ensures index < |slots| ==> slots[index].phase == Ready && slots[index].sequence == nextHash
      ensures index == |slots| ==> forall i :: 0 <= i < |slots| && slots[i].phase == Ready ==> slots[i].sequence != nextHash
    {
      index := 0;
      while index < |slots| && !(slots[index].phase == Ready && slots[index].sequence == nextHash)
        invariant index <= |slots|
        invariant forall i :: 0 <= i < index && slots[i].phase == Ready ==> slots[i].sequence != nextHash
      {
        index := index + 1;
      }
    }

    /** Hash the chunk in slot `index`, whose turn it is, and submit its write. */
    method HashOne(index: nat) returns (failure: Option<Failure>)
      requires Valid() && index < |slots| && slots[index].phase == Ready && slots[index].sequence == nextHash
      modifies this`slots, this`prepared, this`queued, this`nextHash, hasher`fed
      ensures failure.None? && Valid() && Work(job, Now()) == Work(job, old(Now()))
      ensures nextHash == old(nextHash) + 1 && |slots| == old(|slots|)
      ensures slots == old(slots)[index := slots[index]] && slots[index].phase == Writing
    {
      ghost var was, out := Now(), flying + prepared;
      HashState(job, was, index, out, entries, target0, fed0);
      var status := hasher.Update(slots[index].bytes[..slots[index].length]);
      if status.Err? {
        failure := Some(HasherFailed);
      } else {
        nextHash := nextHash + 1;
        slots := slots[index := slots[index].(progress := 0)];
        failure := SubmitRequest(index, true);
      }
      assert slots == was.slots[index := slots[index]];
      assert flying + prepared == out + [RequestFor(index, slots[index])];
      assert Now() == BeginWrite(was, index);
    }

    /** Hash every chunk whose turn has come and start writing it. */
    method HashReady() returns (failure: Option<Failure>)
      requires Valid()
      modifies this`slots, this`prepared, this`queued, this`nextHash, hasher`fed
      ensures failure.None? && Valid() && Work(job, Now()) == Work(job, old(Now()))
      ensures |slots| == old(|slots|)
      ensures forall i :: 0 <= i < |slots| ==> (slots[i].phase == Free <==> old(slots)[i].phase == Free)
      ensures forall i :: 0 <= i < |slots| && slots[i].phase == Ready ==> slots[i].sequence != nextHash
    {
      failure := None;
      while nextHash < job.count
        invariant failure.None? && Valid() && Work(job, Now()) == Work(job, old(Now())) && |slots| == old(|slots|)
        invariant forall i :: 0 <= i < |slots| ==> (slots[i].phase == Free <==> old(slots)[i].phase == Free)
        decreases job.count - nextHash
      {
        var index := FindReady();
        if index == |slots| {
          return;
        }
        failure := HashOne(index);
        if failure.Some? {
          return;
        }
      }
      forall i | 0 <= i < |slots| && slots[i].phase == Ready ensures slots[i].sequence != nextHash {
        assert SlotOk(job, Now(), slots[i]);
      }
    }

    /** io_uring_wait_cqe: some submitted request has completed with a result that may be short, zero, an error or,
        from a broken kernel, too large. A read delivers bytes that the source has. */
    method Wait() returns (index: nat, write: bool, transferred: int, ghost a: nat)
      requires Valid() && prepared == [] && flying != []
      modifies this`slots, this`flying, this`target
      ensures a < |old(flying)| && flying == old(flying)[..a] + old(flying)[a + 1..]
      ensures index == old(flying)[a].index && write == old(flying)[a].write
      ensures KernelMoved(job, old(slots), old(target), old(flying)[a], transferred, slots, target)
    {
      assert flying + prepared == flying;
      var at: nat :| at < |flying|;
      RequestFits(job, Now(), flying, at);
      var request := flying[at];
      a, index, write := at, request.index, request.write;
      flying := flying[..at] + flying[at + 1..];
      transferred :| transferred > request.count || transferred <= 0 || write || request.offset + transferred <= |job.source|;
      if 0 < transferred <= request.count {
        if write {
          var data := slots[index].bytes[request.from..request.from + transferred];
          target := WriteAt(target, request.offset, data);
        } else {
          var data := job.source[request.offset..request.offset + transferred];
          slots := slots[index := slots[index].(bytes := Delivered(slots[index].bytes, request.from, data))];
        }
      }
    }

    /** The state in which a completion with n > 0 bytes is handled: the kernel has moved the bytes of request `a`. */
    ghost predicate Moved(was: Progress, out: seq<Request>, a: nat, n: nat)
      reads this, hasher
    {
      && StateOk(job, was, out, entries, target0, fed0) && Fed(job, was) && a < |out| && 0 < n <= out[a].count
      && KernelMoved(job, was.slots, was.target, out[a], n, slots, target)
      && Now() == was.(slots := slots, target := target)
      && flying == out[..a] + out[a + 1..] && prepared == [] && Counted() && !hasher.finalized
    }

    /** The rest of a short transfer is prepared. */
    method Resubmit(index: nat, write: bool, n: nat, ghost was: Progress, ghost out: seq<Request>, ghost a: nat)
      returns (failure: Option<Failure>)
      requires Moved(was, out, a, n) && index == out[a].index && write == out[a].write
      requires index < |slots| && slots[index].progress + n < slots[index].length
      modifies this`slots, this`prepared, this`queued
      ensures failure.None? && Valid() && |slots| == old(|slots|) && Now() == Transferred(job, was, out[a], n)
    {
      MovedIs(job, was, out, a, n, slots, target);
      TransferState(job, was, out, a, n, entries, target0, fed0);
      ghost var p' := Transferred(job, was, out[a], n);
      slots := slots[index := slots[index].(progress := slots[index].progress + n)];
      failure := SubmitRequest(index, write);
      assert slots == p'.slots;
      assert flying + prepared == OutAfter(out, a, slots[index]);
      assert Now() == p';
    }

    /** A short transfer: the rest is requested again. */
    method Continue(index: nat, write: bool, n: nat, ghost was: Progress, ghost out: seq<Request>, ghost a: nat)
      returns (failure: Option<Failure>)
      requires Moved(was, out, a, n) && index == out[a].index && write == out[a].write
      requires index < |slots| && slots[index].progress + n < slots[index].length
      modifies this`slots, this`prepared, this`flying, this`queued, this`inFlight
      ensures Counted() && (failure.Some? ==> FromOutside(failure.value))
      ensures failure.None? ==> Valid() && Fed(job, Now()) && prepared == [] && Work(job, Now()) < Work(job, was)
      ensures failure.None? ==> |slots| == old(|slots|)
    {
      ShortKeepsFed(job, was, out, a, n, slots, target);
      TransferState(job, was, out, a, n, entries, target0, fed0);
      failure := Resubmit(index, write, n, was, out, a);
      if failure.None? {
        failure := Flush();
        assert failure.None? ==> flying + prepared == flying;
      }
    }

    /** A finished transfer: the slot takes its next chunk, or is ready to be hashed. */
    method Finish(index: nat, write: bool, n: nat, ghost was: Progress, ghost out: seq<Request>, ghost a: nat)
      returns (failure: Option<Failure>)
      requires Moved(was, out, a, n) && index == out[a].index && write == out[a].write
      requires index < |slots| && slots[index].progress + n == slots[index].length
      modifies this, hasher`fed
      ensures Counted() && (failure.Some? ==> FromOutside(failure.value))
      ensures failure.None? ==> Valid() && Fed(job, Now()) && prepared == [] && Work(job, Now()) < Work(job, was)
      ensures failure.None? ==> |slots| == old(|slots|)
    {
      MovedIs(job, was, out, a, n, slots, target);
      TransferState(job, was, out, a, n, entries, target0, fed0);
      ghost var p' := Transferred(job, was, out[a], n);
      var length := slots[index].length;
      slots := slots[index := slots[index].(progress := length, phase := if write then Free else Ready)];
      if write {
        copied := copied + length;
        completed := completed + 1;
      }
      assert flying + prepared == OutAfter(out, a, slots[index]);
      assert Now() == p' && Valid();
      failure := Refill(index, write);
    }

    /** What follows a finished transfer: the free slot takes the next chunk, waiting chunks are hashed, and everything
        prepared is submitted. */
    method Refill(index: nat, write: bool) returns (failure: Option<Failure>)
      requires Valid() && index < |slots| && slots[index].phase == (if write then Free else Ready)
      requires forall i :: 0 <= i < |slots| && i != index && slots[i].phase == Free ==> nextRead == job.count
      modifies this, hasher`fed
      ensures Counted() && (failure.Some? ==> FromOutside(failure.value))
      ensures failure.None? ==> Valid() && Fed(job, Now()) && prepared == [] && Work(job, Now()) == Work(job, old(Now()))
      ensures failure.None? ==> |slots| == old(|slots|)
    {
      failure := None;
      if write && nextRead < job.count {
        failure := StartRead(index);
      }
      if failure.None? {
        failure := HashReady();
      }
      if failure.None? {
        failure := Flush();
        assert failure.None? ==> flying + prepared == flying;
      }
    }

    /** One completion while no failure is recorded. */
    method OnCompletion() returns (failure: Option<Failure>)
      requires Valid() && Fed(job, Now()) && prepared == [] && inFlight != 0
      modifies this, hasher`fed
      ensures Counted() && (failure.Some? ==> FromOutside(failure.value))
      ensures failure.None? ==> Valid() && Fed(job, Now()) && prepared == [] && 0 <= Work(job, Now()) < Work(job, old(Now()))
      ensures failure.None? ==> |slots| == old(|slots|)
    {
      ghost var was, out := Now(), flying;
      assert flying + prepared == flying;
      var index, write, transferred, a := Wait();
      RequestFits(job, was, out, a);
      inFlight := inFlight - 1;
      if index >= |slots| {
        failure := Some(BadIndex);
      } else if slots[index].phase != (if write then Writing else Reading) {
        failure := Some(BadPhase);
      } else if transferred < 0 {
        failure := Some(TransferFailed);
      } else if transferred == 0 || transferred > slots[index].length - slots[index].progress {
        failure := Some(NoProgress);
      } else if slots[index].progress + transferred < slots[index].length {
        failure := Continue(index, write, transferred, was, out, a);
      } else {
        failure := Finish(index, write, transferred, was, out, a);
      }
      if failure.None? {
        WorkNonNegative(job, Now());
      }
    }

    /** After a failure the requests still in flight are only waited for; they may go on changing the target. */
    method Drain()
      requires Counted() && inFlight != 0
      modifies this`flying, this`inFlight, this`target
      ensures Counted() && inFlight == old(inFlight) - 1
    {
      var at: nat :| at < |flying|;
      flying := flying[..at] + flying[at + 1..];
      target := *;
      inFlight := inFlight - 1;
    }

    /** Every slot starts reading its first chunk. */
    method StartAll() returns (failure: Option<Failure>)
      requires Valid() && prepared == flying == [] && nextRead == 0
      requires |slots| <= job.count && forall i :: 0 <= i < |slots| ==> slots[i].phase == Free
      modifies this`slots, this`prepared, this`queued, this`nextRead
      ensures failure.None? && Valid() && |slots| == old(|slots|)
      ensures nextRead == |slots| && forall i :: 0 <= i < |slots| ==> slots[i].phase == Reading
    {
      failure := None;
      var index := 0;
      while index < |slots|
        invariant failure.None? && Valid() && |slots| == old(|slots|) && index <= |slots| && nextRead == index
        invariant forall i :: 0 <= i < index ==> slots[i].phase == Reading
        invariant forall i :: index <= i < |slots| ==> slots[i].phase == Free
      {
        failure := StartRead(index);
        if failure.Some? {
          return;
        }
        index := index + 1;
      }
    }

    /** The completion loop. It ends for every pattern of completions: each successful one leaves fewer bytes to read
        and write, and after a failure only what is in flight is waited for. When waiting itself fails the loop is left at
        once, and only then with requests in flight. */
    method Pump(first: Option<Failure>) returns (failure: Option<Failure>)
      requires Counted() && (first.Some? ==> FromOutside(first.value))
      requires first.None? ==> Valid() && Fed(job, Now()) && prepared == []
      modifies this, hasher`fed
      ensures Counted() && (inFlight == 0 || failure == Some(WaitFailed)) && (failure.Some? ==> FromOutside(failure.value))
      ensures failure.None? ==> first.None? && Valid() && Fed(job, Now()) && prepared == [] && |slots| == old(|slots|)
    {
      failure := first;
      while inFlight != 0
        invariant Counted() && (failure.Some? ==> FromOutside(failure.value))
        invariant failure.None? ==>
                    first.None? && Valid() && Fed(job, Now()) && prepared == [] && |slots| == old(|slots|)
        decreases if failure.None? then 1 else 0, if failure.None? then Work(job, Now()) else 0, inFlight
      {
        var broken: bool := *;
        if broken {
          return Some(WaitFailed);
        }
        if failure.Some? {
          Drain();
        } else {
          WorkNonNegative(job, Now());
          failure := OnCompletion();
        }
      }
    }

    /** Fill the slots and submit their first reads. */
    method Start() returns (failure: Option<Failure>)
      requires Valid() && prepared == flying == [] && nextRead == 0
      requires |slots| == job.count || 0 < |slots| < job.count
      requires forall i :: 0 <= i < |slots| ==> slots[i].phase == Free
      modifies this`slots, this`prepared, this`flying, this`queued, this`inFlight, this`nextRead
      ensures Counted() && (failure.Some? ==> FromOutside(failure.value))
      ensures failure.None? ==> Valid() && Fed(job, Now()) && prepared == [] && |slots| == old(|slots|)
    {
      failure := StartAll();
      if failure.None? {
        assert Fed(job, Now());
        failure := Flush();
        assert failure.None? ==> flying + prepared == flying;
      }
    }

    /** The whole copy. It fails only for reasons outside the engine, so it never finds its queue full or itself ended
        early; and when it succeeds the target begins with exactly the source bytes and the hasher was fed them in
        order. */
    method Run() returns (result: Option<CopyResult>, failure: Option<Failure>)
      requires Valid() && prepared == flying == [] && nextRead == 0
      requires |slots| == job.count || 0 < |slots| < job.count
      requires forall i :: 0 <= i < |slots| ==> slots[i].phase == Free
      modifies this, hasher
      ensures result.Some? <==> failure.None?
      ensures failure.Some? ==> FromOutside(failure.value)
      ensures result.Some? ==>
                && job.size <= |job.source| && target == Copied(job, target0)
                && hasher.fed == fed0 + job.source[..job.size]
                && result.value == CopyResult(job.size, hasher.hash(fed0 + job.source[..job.size]))
    {
      failure := Start();
      failure := Pump(failure);
      if failure.Some? {
        return None, failure;
      }
      assert flying + prepared == [];
      Complete(job, Now(), fed0);
      if completed != job.count || nextHash != job.count || copied != job.size {
        failure := Some(EndedEarly);
        result := None;
      } else {
        CopiedIs(job, target0, target);
        var digest := hasher.Finalize();
        if digest.Err? {
          failure := Some(HasherFailed);
          result := None;
        } else {
          result := Some(CopyResult(copied, digest.value));
        }
      }
    }
  }

  /** TryIoUringCopyAndHash: the checks of the arguments and the copy. `available` is false where the kernel has no
      io_uring; the caller then falls back to the synchronous copy. */
  method TryCopyAndHash(hasher: Hasher, source: Bytes, target0: Bytes, size: nat, chunk: nat, depth: nat, available: bool)
    returns (target: Bytes, result: Option<CopyResult>, failure: Option<Failure>)
    requires !hasher.finalized
    modifies hasher
    ensures failure == Some(BadArguments) <==> chunk == 0 || chunk > UINT32_MAX || depth == 0 || depth > 16 || size > INT64_MAX
    ensures failure.Some? ==>
              result.None? && (FromOutside(failure.value) || failure.value == BadArguments || failure.value == InitFailed)
    ensures failure.None? && result.None? ==> !available && target == target0 && hasher.fed == old(hasher.fed)
    ensures result.Some? ==>
              && size <= |source|
              && target == source[..size] + (if |target0| > size then target0[size..] else [])
              && hasher.fed == old(hasher.fed) + source[..size]
              && result.value == CopyResult(size, hasher.hash(old(hasher.fed) + source[..size]))
  {
    if chunk == 0 || chunk > UINT32_MAX || depth == 0 || depth > 16 || size > INT64_MAX {
      return target0, None, Some(BadArguments);
    }
    if !available {
      return target0, None, None;
    }
    var broken: bool := *;
    if broken {
      return target0, None, Some(InitFailed);
    }
    var engine := new CopyEngine(source, size, chunk, depth, target0, hasher);
    result, failure := engine.Run();
    target := engine.target;
  }

  /** Both engines on one source, each into a fresh file: when both succeed they agree, in the bytes of the target and in
      the result, if and only if the given size is the length of the file. */
  method CopyBothWays(hash: Bytes -> Digest, source: Bytes, size: nat, chunk: nat, depth: nat, capacity: nat)
    returns (target: Bytes, result: Option<CopyResult>, target': Bytes, result': Outcome<CopyResult>)
    ensures result.Some? && result'.Ok? ==> (target == target' && result.value == result'.value <==> size == |source|)
  {
    var hasher := new Hasher(hash);
    var available: bool := *;
    var failure;
    target, result, failure := TryCopyAndHash(hasher, source, [], size, chunk, depth, available);
    var hasher' := new Hasher(hash);
    var streams := new Streams(source);
    result' := CopyAndHash(hasher', streams, capacity);
    target' := streams.target;
    assert source[0..] == source && [] + source == source && source[..|source|] == source;
  }
}
