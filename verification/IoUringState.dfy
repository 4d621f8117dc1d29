/** Bookkeeping of the io_uring copy engine (src/filesystem/io_uring_copy_engine.cpp) as values: chunks, buffer slots and
    the invariant that ties them to the target file and to the bytes hashed so far. */
module IoUringState {
  import opened Common
  import opened CopyModel
  import opened Sums

  /** What is to be copied: the first `size` bytes of `source`, in `count` chunks. */
  datatype Job = Job(source: Bytes, size: nat, chunk: nat, count: nat)

  /** chunk_count as the engine computes it. */
  function ChunkCount(size: nat, chunk: nat): nat
    requires chunk > 0
  {
    size / chunk + (if size % chunk != 0 then 1 else 0)
  }

  /** First byte of chunk q; the end of the job for q beyond the last chunk. */
  function Start(j: Job, q: nat): (s: nat)
    ensures s <= j.size
  {
    if q == 0 then 0 else
    var before := Start(j, q - 1);
    if before + j.chunk < j.size then before + j.chunk else j.size
  }

  lemma {:induction false} StartIsProduct(j: Job, q: nat)
    ensures Start(j, q) == if q * j.chunk < j.size then q * j.chunk else j.size
  {
    if q > 0 {
      StartIsProduct(j, q - 1);
      assert q * j.chunk == (q - 1) * j.chunk + j.chunk;
    }
  }

  lemma Products(m: nat, n: nat, c: nat)
    requires m <= n
    ensures m * c <= n * c
  {
    assert n * c == m * c + (n - m) * c;
  }

  lemma CountBounds(size: nat, chunk: nat, q: nat)
    requires chunk > 0
    ensures q * chunk < size <==> q < ChunkCount(size, chunk)
  {
    var full, rest := size / chunk, size % chunk;
    assert size == full * chunk + rest;
    if q < full {
      Products(q + 1, full, chunk);
      assert (q + 1) * chunk == q * chunk + chunk;
    } else if q > full {
      Products(full + 1, q, chunk);
      assert (full + 1) * chunk == full * chunk + chunk;
    }
  }

  /** Each chunk below the count begins before the end of the job; the chunks end with it. */
  ghost predicate JobOk(j: Job) {
    && j.chunk > 0
    && (forall q: nat :: q < j.count ==> Start(j, q) < j.size)
    && Start(j, j.count) == j.size
  }

  /** The chunks partition [0, size): they are non-empty, consecutive, at most `chunk` long and end at size. */
  lemma ChunksPartition(source: Bytes, size: nat, chunk: nat)
    requires chunk > 0
    ensures JobOk(Job(source, size, chunk, ChunkCount(size, chunk)))
  {
    var j := Job(source, size, chunk, ChunkCount(size, chunk));
    forall q: nat ensures q < j.count <==> Start(j, q) < j.size {
      StartIsProduct(j, q);
      CountBounds(size, chunk, q);
    }
    assert Start(j, j.count) == j.size;
  }

  /** The offset and length the engine computes for a chunk. */
  lemma ChunkAt(j: Job, q: nat)
    requires JobOk(j) && q < j.count
    ensures Start(j, q) == q * j.chunk < j.size
    ensures Start(j, q + 1) == Start(j, q) + (if j.chunk < j.size - q * j.chunk then j.chunk else j.size - q * j.chunk)
  {
    StartIsProduct(j, q);
    assert Start(j, q) < j.size;
  }

  lemma {:induction false} StartMonotone(j: Job, p: nat, q: nat)
    requires p <= q
    ensures Start(j, p) <= Start(j, q)
    decreases q
  {
    if p < q {
      StartMonotone(j, p, q - 1);
    }
  }

  // ---------------------------------------------------------------- slots

  datatype Phase = Free | Reading | Ready | Writing

  datatype Slot = Slot(bytes: Bytes, sequence: nat, offset: nat, length: nat, progress: nat, phase: Phase)

  /** The engine's counters and slots, with the target file and the bytes the hasher has been fed. */
  datatype Progress = Progress(
    slots: seq<Slot>, nextRead: nat, nextHash: nat, completed: nat, copied: nat, target: Bytes, fed: Bytes)

  predicate Busy(s: Slot) {
    s.phase != Free
  }

  predicate Active(s: Slot) {
    s.phase == Reading || s.phase == Writing
  }

  /** The first n bytes at `offset` of the file are those of the source. */
  predicate Landed(j: Job, file: Bytes, offset: nat, n: nat) {
    n > 0 ==>
      offset + n <= |file| && offset + n <= |j.source| && file[offset..offset + n] == j.source[offset..offset + n]
  }

  predicate Holds(j: Job, s: Slot, n: nat) {
    n > 0 ==> n <= |s.bytes| && s.offset + n <= |j.source| && s.bytes[..n] == j.source[s.offset..s.offset + n]
  }

  predicate SlotShape(j: Job, s: Slot) {
    && |s.bytes| == j.chunk
    && (Busy(s) ==>
          && s.offset == Start(j, s.sequence) && s.offset + s.length == Start(j, s.sequence + 1)
          && 0 < s.length <= j.chunk && s.progress <= s.length
          && (Active(s) ==> s.progress < s.length)
          && Holds(j, s, if s.phase == Reading then s.progress else s.length))
  }

  ghost predicate SlotOk(j: Job, p: Progress, s: Slot) {
    && SlotShape(j, s)
    && (Busy(s) ==> s.sequence < p.nextRead && (s.phase == Writing <==> s.sequence < p.nextHash))
    && (s.phase == Writing ==> Landed(j, p.target, s.offset, s.progress))
  }

  ghost predicate InSlot(slots: seq<Slot>, q: nat) {
    exists i :: 0 <= i < |slots| && Busy(slots[i]) && slots[i].sequence == q
  }

  /** Chunk q, once begun, is in a slot or wholly in the target and hashed. */
  ghost predicate ChunkOk(j: Job, p: Progress, q: nat) {
    InSlot(p.slots, q) || (q < p.nextHash && Landed(j, p.target, Start(j, q), Start(j, q + 1) - Start(j, q)))
  }

  lemma {:induction false} SumAtLeast(slots: seq<Slot>, weight: Slot -> int, i: nat)
    requires i < |slots| && forall k :: 0 <= k < |slots| ==> weight(slots[k]) >= 0
    ensures Sum(slots, weight) >= weight(slots[i])
    decreases |slots|
  {
    var last := |slots| - 1;
    if i < last {
      SumAtLeast(slots[..last], weight, i);
    } else {
      SumNonNegative(slots[..last], weight);
    }
  }

  lemma {:induction false} SumZero(slots: seq<Slot>, weight: Slot -> int)
    requires forall i :: 0 <= i < |slots| ==> weight(slots[i]) == 0
    ensures Sum(slots, weight) == 0
    decreases |slots|
  {
    if slots != [] {
      SumZero(slots[..|slots| - 1], weight);
    }
  }

  function BusyWeight(s: Slot): int {
    if Busy(s) then 1 else 0
  }

  function HeldWeight(s: Slot): int {
    if Busy(s) then s.length else 0
  }

  function ActiveWeight(s: Slot): int {
    if Active(s) then 1 else 0
  }

  /** Bytes of a slot still to be read plus still to be written. */
  function WorkWeight(s: Slot): int {
    match s.phase
    case Free => 0
    case Reading => 2 * s.length - s.progress
    case Ready => s.length
    case Writing => s.length - s.progress
  }

  ghost predicate SlotsOk(j: Job, p: Progress) {
    forall i {:trigger SlotOk(j, p, p.slots[i])} :: 0 <= i < |p.slots| ==> SlotOk(j, p, p.slots[i])
  }

  /** No chunk is in two slots. */
  predicate Distinct(slots: seq<Slot>) {
    forall i, k :: 0 <= i < |slots| && 0 <= k < |slots| && i != k && Busy(slots[i]) && Busy(slots[k]) ==>
      slots[i].sequence != slots[k].sequence
  }

  ghost predicate ChunksOk(j: Job, p: Progress) {
    forall q: nat {:trigger ChunkOk(j, p, q)} :: q < p.nextRead ==> ChunkOk(j, p, q)
  }

  predicate CountsOk(j: Job, p: Progress) {
    && p.completed == p.nextRead - Sum(p.slots, BusyWeight)
    && p.copied == Start(j, p.nextRead) - Sum(p.slots, HeldWeight)
  }

  ghost predicate Consistent(j: Job, p: Progress) {
    JobOk(j) && p.nextHash <= p.nextRead <= j.count && SlotsOk(j, p) && Distinct(p.slots) && ChunksOk(j, p)
    && CountsOk(j, p)
  }

  /** The hasher has been fed the chunks below nextHash, in order, and nothing else. */
  ghost predicate HashedPrefix(j: Job, p: Progress, fed0: Bytes) {
    Start(j, p.nextHash) <= |j.source| && p.fed == fed0 + j.source[..Start(j, p.nextHash)]
  }

  /** Bytes still to be read plus bytes still to be written. */
  function Work(j: Job, p: Progress): int {
    2 * (j.size - Start(j, p.nextRead)) + Sum(p.slots, WorkWeight)
  }

  lemma WorkNonNegative(j: Job, p: Progress)
    requires Consistent(j, p)
    ensures Work(j, p) >= 0
  {
    forall k | 0 <= k < |p.slots| ensures WorkWeight(p.slots[k]) >= 0 {
      assert SlotOk(j, p, p.slots[k]);
    }
    SumNonNegative(p.slots, WorkWeight);
  }

  // ---------------------------------------------------------------- transitions

  /** start_read: the free slot takes the next chunk. */
  function BeginRead(j: Job, p: Progress, i: nat): Progress
    requires i < |p.slots|
  {
    var length := Start(j, p.nextRead + 1) - Start(j, p.nextRead);
    p.(slots := p.slots[i := p.slots[i].(
         sequence := p.nextRead, offset := Start(j, p.nextRead),
         length := if length > 0 then length else 0, progress := 0, phase := Reading)],
       nextRead := p.nextRead + 1)
  }

  lemma InSlotUpdate(slots: seq<Slot>, i: nat, s: Slot, q: nat)
    requires i < |slots| && (Busy(slots[i]) ==> slots[i].sequence != q || (Busy(s) && s.sequence == q))
    requires InSlot(slots, q)
    ensures InSlot(slots[i := s], q)
  {
    var k :| 0 <= k < |slots| && Busy(slots[k]) && slots[k].sequence == q;
    assert k != i ==> slots[i := s][k] == slots[k];
    assert slots[i := s][i] == s;
  }

  lemma ChunkKept(j: Job, p: Progress, p': Progress, i: nat, q: nat)
    requires i < |p.slots| == |p'.slots| && p'.slots == p.slots[i := p'.slots[i]] && ChunkOk(j, p, q)
    requires Busy(p.slots[i]) && p.slots[i].sequence == q ==> Busy(p'.slots[i]) && p'.slots[i].sequence == q
    requires p.nextHash <= p'.nextHash
    requires q < p.nextHash && !InSlot(p.slots, q) ==> Landed(j, p'.target, Start(j, q), Start(j, q + 1) - Start(j, q))
    ensures ChunkOk(j, p', q)
  {
    if InSlot(p.slots, q) {
      InSlotUpdate(p.slots, i, p'.slots[i], q);
    }
  }

  lemma SumsUpdate(p: Progress, p': Progress, i: nat)
    requires i < |p.slots| == |p'.slots| && p'.slots == p.slots[i := p'.slots[i]]
    ensures Sum(p'.slots, BusyWeight) == Sum(p.slots, BusyWeight) - BusyWeight(p.slots[i]) + BusyWeight(p'.slots[i])
    ensures Sum(p'.slots, HeldWeight) == Sum(p.slots, HeldWeight) - HeldWeight(p.slots[i]) + HeldWeight(p'.slots[i])
    ensures Sum(p'.slots, WorkWeight) == Sum(p.slots, WorkWeight) - WorkWeight(p.slots[i]) + WorkWeight(p'.slots[i])
  {
    SumUpdate(p.slots, BusyWeight, i, p'.slots[i]);
    SumUpdate(p.slots, HeldWeight, i, p'.slots[i]);
    SumUpdate(p.slots, WorkWeight, i, p'.slots[i]);
  }

  lemma BeginReadChunks(j: Job, p: Progress, i: nat)
    requires ChunksOk(j, p) && i < |p.slots| && !Busy(p.slots[i])
    ensures ChunksOk(j, BeginRead(j, p, i))
  {
    var p' := BeginRead(j, p, i);
    assert Busy(p'.slots[i]) && p'.slots[i].sequence == p.nextRead;
    forall q: nat | q < p'.nextRead ensures ChunkOk(j, p', q) {
      if q < p.nextRead {
        ChunkKept(j, p, p', i, q);
      } else {
        assert InSlot(p'.slots, q);
      }
    }
  }

  lemma BeginReadSlots(j: Job, p: Progress, i: nat)
    requires JobOk(j) && SlotsOk(j, p) && p.nextHash <= p.nextRead < j.count && i < |p.slots| && !Busy(p.slots[i])
    requires Distinct(p.slots)
    ensures SlotsOk(j, BeginRead(j, p, i)) && Distinct(BeginRead(j, p, i).slots)
  {
    var p' := BeginRead(j, p, i);
    assert SlotOk(j, p, p.slots[i]);
    assert Start(j, p.nextRead) < j.size;
    forall k | 0 <= k < |p.slots| && Busy(p.slots[k]) ensures p.slots[k].sequence < p.nextRead {
      assert SlotOk(j, p, p.slots[k]);
    }
    forall k | 0 <= k < |p'.slots| ensures SlotOk(j, p', p'.slots[k]) {
      assert SlotOk(j, p, p.slots[k]);
    }
  }

  lemma BeginReadOk(j: Job, p: Progress, i: nat)
    requires Consistent(j, p) && i < |p.slots| && !Busy(p.slots[i]) && p.nextRead < j.count
    ensures Consistent(j, BeginRead(j, p, i)) && Work(j, BeginRead(j, p, i)) == Work(j, p)
  {
    BeginReadChunks(j, p, i);
    BeginReadSlots(j, p, i);
    SumsUpdate(p, BeginRead(j, p, i), i);
  }

  /** A read completion: n more source bytes are in the buffer; a full buffer is ready to be hashed. */
  function Receive(j: Job, p: Progress, i: nat, n: nat): Progress
    requires i < |p.slots|
  {
    var s := p.slots[i];
    if s.progress + n <= |s.bytes| && s.offset + s.progress + n <= |j.source| then
      p.(slots := p.slots[i := s.(
        bytes := s.bytes[..s.progress] + j.source[s.offset + s.progress..s.offset + s.progress + n] + s.bytes[s.progress + n..],
        progress := s.progress + n,
        phase := if s.progress + n < s.length then Reading else Ready)])
    else p
  }

  lemma ReceiveSlot(j: Job, s: Slot, n: nat)
    requires SlotShape(j, s) && s.phase == Reading && 0 < n <= s.length - s.progress
    requires s.offset + s.progress + n <= |j.source|
    ensures var b := s.bytes[..s.progress] + j.source[s.offset + s.progress..s.offset + s.progress + n] + s.bytes[s.progress + n..];
            |b| == |s.bytes| && b[..s.progress + n] == j.source[s.offset..s.offset + s.progress + n]
  {
    var b := s.bytes[..s.progress] + j.source[s.offset + s.progress..s.offset + s.progress + n] + s.bytes[s.progress + n..];
    assert b[..s.progress + n] == s.bytes[..s.progress] + j.source[s.offset + s.progress..s.offset + s.progress + n];
    assert s.progress == 0 ==> s.bytes[..s.progress] == j.source[s.offset..s.offset + s.progress];
  }

  lemma SlotsElsewhere(j: Job, p: Progress, p': Progress, i: nat)
    requires SlotsOk(j, p) && i < |p.slots| == |p'.slots| && p'.slots == p.slots[i := p'.slots[i]]
    requires p'.nextRead == p.nextRead && p'.nextHash == p.nextHash && p'.target == p.target
    requires SlotOk(j, p', p'.slots[i])
    ensures SlotsOk(j, p')
  {
    forall k | 0 <= k < |p'.slots| ensures SlotOk(j, p', p'.slots[k]) {
      assert SlotOk(j, p, p.slots[k]);
    }
  }

  lemma ReceiveSlotOk(j: Job, p: Progress, i: nat, n: nat)
    requires i < |p.slots| && SlotOk(j, p, p.slots[i]) && p.slots[i].phase == Reading
    requires 0 < n <= p.slots[i].length - p.slots[i].progress && p.slots[i].offset + p.slots[i].progress + n <= |j.source|
    ensures SlotOk(j, Receive(j, p, i, n), Receive(j, p, i, n).slots[i])
  {
    hide Landed, Start;
    ReceiveSlot(j, p.slots[i], n);
  }

  lemma ReceiveChunks(j: Job, p: Progress, i: nat, n: nat)
    requires ChunksOk(j, p) && i < |p.slots| && p.slots[i].phase == Reading
    ensures ChunksOk(j, Receive(j, p, i, n))
  {
    forall q: nat | q < p.nextRead ensures ChunkOk(j, Receive(j, p, i, n), q) {
      assert ChunkOk(j, p, q);
      ChunkKept(j, p, Receive(j, p, i, n), i, q);
    }
  }

  lemma ReceiveOk(j: Job, p: Progress, i: nat, n: nat)
    requires Consistent(j, p) && i < |p.slots| && p.slots[i].phase == Reading && 0 < n <= p.slots[i].length - p.slots[i].progress
    requires p.slots[i].offset + p.slots[i].progress + n <= |j.source|
    ensures Consistent(j, Receive(j, p, i, n)) && Work(j, Receive(j, p, i, n)) == Work(j, p) - n
    ensures Receive(j, p, i, n).slots[i].progress == p.slots[i].progress + n
  {
    assert SlotOk(j, p, p.slots[i]);
    ReceiveSlotOk(j, p, i, n);
    SlotsElsewhere(j, p, Receive(j, p, i, n), i);
    ReceiveChunks(j, p, i, n);
    SumsUpdate(p, Receive(j, p, i, n), i);
  }

  /** hash_ready: the next chunk in order is hashed and its write begins. */
  function BeginWrite(p: Progress, i: nat): Progress
    requires i < |p.slots| && p.slots[i].length <= |p.slots[i].bytes|
  {
    p.(slots := p.slots[i := p.slots[i].(progress := 0, phase := Writing)],
       nextHash := p.nextHash + 1,
       fed := p.fed + p.slots[i].bytes[..p.slots[i].length])
  }

  lemma BeginWriteSlots(j: Job, p: Progress, i: nat)
    requires SlotsOk(j, p) && Distinct(p.slots) && i < |p.slots|
    requires p.slots[i].phase == Ready && p.slots[i].sequence == p.nextHash && p.slots[i].length <= |p.slots[i].bytes|
    ensures SlotsOk(j, BeginWrite(p, i))
  {
    var p' := BeginWrite(p, i);
    forall k | 0 <= k < |p'.slots| ensures SlotOk(j, p', p'.slots[k]) {
      assert SlotOk(j, p, p.slots[k]);
    }
  }

  lemma BeginWriteChunks(j: Job, p: Progress, i: nat)
    requires ChunksOk(j, p) && i < |p.slots| && p.slots[i].phase == Ready && p.slots[i].length <= |p.slots[i].bytes|
    ensures ChunksOk(j, BeginWrite(p, i))
  {
    forall q: nat | q < p.nextRead ensures ChunkOk(j, BeginWrite(p, i), q) {
      assert ChunkOk(j, p, q);
      ChunkKept(j, p, BeginWrite(p, i), i, q);
    }
  }

  lemma HashedNext(j: Job, p: Progress, i: nat, fed0: Bytes)
    requires HashedPrefix(j, p, fed0) && i < |p.slots| && SlotShape(j, p.slots[i])
    requires p.slots[i].phase == Ready && p.slots[i].sequence == p.nextHash
    ensures HashedPrefix(j, BeginWrite(p, i), fed0)
  {
    var here, next := Start(j, p.nextHash), Start(j, p.nextHash + 1);
    assert j.source[..next] == j.source[..here] + j.source[here..next];
  }

  lemma BeginWriteOk(j: Job, p: Progress, i: nat, fed0: Bytes)
    requires Consistent(j, p) && HashedPrefix(j, p, fed0) && i < |p.slots|
    requires p.slots[i].phase == Ready && p.slots[i].sequence == p.nextHash
    ensures p.slots[i].length <= |p.slots[i].bytes|
    ensures var p' := BeginWrite(p, i); Consistent(j, p') && HashedPrefix(j, p', fed0) && Work(j, p') == Work(j, p)
  {
    assert SlotOk(j, p, p.slots[i]);
    BeginWriteSlots(j, p, i);
    BeginWriteChunks(j, p, i);
    SumsUpdate(p, BeginWrite(p, i), i);
    HashedNext(j, p, i, fed0);
  }

  /** A write completion: n more bytes are in the target; a finished slot becomes free. */
  function Send(p: Progress, i: nat, n: nat): Progress
    requires i < |p.slots|
  {
    var s := p.slots[i];
    if s.progress + n <= |s.bytes| then
      var target := WriteAt(p.target, s.offset + s.progress, s.bytes[s.progress..s.progress + n]);
      if s.progress + n < s.length then
        p.(slots := p.slots[i := s.(progress := s.progress + n)], target := target)
      else
        p.(slots := p.slots[i := s.(progress := s.progress + n, phase := Free)], target := target,
           completed := p.completed + 1, copied := p.copied + s.length)
    else p
  }

  /** A write outside [offset, offset + n) leaves what landed there alone. */
  lemma LandedElsewhere(j: Job, file: Bytes, at: nat, data: Bytes, offset: nat, n: nat)
    requires Landed(j, file, offset, n) && (offset + n <= at || at + |data| <= offset)
    ensures Landed(j, WriteAt(file, at, data), offset, n)
  {
  }

  lemma WriteExtends(file: Bytes, source: Bytes, a: nat, m: nat, n: nat)
    requires n > 0 && a + m + n <= |source| && (m > 0 ==> a + m <= |file| && file[a..a + m] == source[a..a + m])
    ensures var file' := WriteAt(file, a + m, source[a + m..a + m + n]);
            a + m + n <= |file'| && file'[a..a + m + n] == source[a..a + m + n]
  {
    var data := source[a + m..a + m + n];
    var file' := WriteAt(file, a + m, data);
    forall p | a <= p < a + m + n ensures file'[p] == source[p] {
      if p < a + m {
        assert file[a..a + m][p - a] == source[a..a + m][p - a];
      } else {
        assert file'[a + m + (p - a - m)] == data[p - a - m];
      }
    }
    SliceEqual(file', source, a, m + n);
  }

  lemma SliceEqual(s: Bytes, t: Bytes, a: nat, n: nat)
    requires a + n <= |s| && a + n <= |t| && forall p :: a <= p < a + n ==> s[p] == t[p]
    ensures s[a..a + n] == t[a..a + n]
  {
    var u, v := s[a..a + n], t[a..a + n];
    forall k | 0 <= k < n ensures u[k] == v[k] {
      var p := a + k;
      assert s[p] == t[p];
    }
  }

  lemma SliceOfSlice(s: Bytes, a: nat, b: nat, i: nat, j: nat)
    requires a <= b <= |s| && i <= j <= b - a
    ensures s[a..b][i..j] == s[a + i..a + j]
  {
    forall k | 0 <= k < j - i ensures s[a..b][i..j][k] == s[a + i..a + j][k] {
      assert s[a..b][i + k] == s[a + i + k];
    }
  }

  lemma PartHeld(j: Job, s: Slot, n: nat)
    requires SlotShape(j, s) && s.phase == Writing && 0 < n <= s.length - s.progress
    ensures s.offset + s.progress + n <= |j.source| && s.progress + n <= |s.bytes|
    ensures s.bytes[s.progress..s.progress + n] == j.source[s.offset + s.progress..s.offset + s.progress + n]
  {
    SliceOfSlice(s.bytes, 0, s.length, s.progress, s.progress + n);
    SliceOfSlice(j.source, s.offset, s.offset + s.length, s.progress, s.progress + n);
    assert s.bytes[0..s.length] == s.bytes[..s.length];
  }

  lemma LandedGrows(j: Job, s: Slot, file: Bytes, n: nat)
    requires SlotShape(j, s) && s.phase == Writing && 0 < n <= s.length - s.progress && Landed(j, file, s.offset, s.progress)
    ensures s.progress + n <= |s.bytes|
    ensures Landed(j, WriteAt(file, s.offset + s.progress, s.bytes[s.progress..s.progress + n]), s.offset, s.progress + n)
  {
    PartHeld(j, s, n);
    WriteExtends(file, j.source, s.offset, s.progress, n);
  }

  /** Ranges of different chunks do not overlap. */
  lemma ChunksApart(j: Job, p: nat, q: nat)
    requires p != q
    ensures Start(j, p + 1) <= Start(j, q) || Start(j, q + 1) <= Start(j, p)
  {
    if p < q {
      StartMonotone(j, p + 1, q);
    } else {
      StartMonotone(j, q + 1, p);
    }
  }

  lemma SendKeepsLanded(j: Job, p: Progress, i: nat, n: nat, q: nat, m: nat)
    requires i < |p.slots| && q != p.slots[i].sequence && p.slots[i].progress + n <= |p.slots[i].bytes|
    requires Start(j, p.slots[i].sequence) <= p.slots[i].offset
    requires p.slots[i].offset + p.slots[i].progress + n <= Start(j, p.slots[i].sequence + 1)
    requires Start(j, q) + m <= Start(j, q + 1) && Landed(j, p.target, Start(j, q), m)
    ensures Landed(j, Send(p, i, n).target, Start(j, q), m)
  {
    var s := p.slots[i];
    ChunksApart(j, s.sequence, q);
    var data := s.bytes[s.progress..s.progress + n];
    assert Send(p, i, n).target == WriteAt(p.target, s.offset + s.progress, data) && |data| == n;
    LandedElsewhere(j, p.target, s.offset + s.progress, data, Start(j, q), m);
  }

  lemma SendOwnSlot(j: Job, p: Progress, i: nat, n: nat)
    requires i < |p.slots| && SlotOk(j, p, p.slots[i]) && p.slots[i].phase == Writing
    requires 0 < n <= p.slots[i].length - p.slots[i].progress
    ensures SlotOk(j, Send(p, i, n), Send(p, i, n).slots[i])
  {
    var s, p' := p.slots[i], Send(p, i, n);
    LandedGrows(j, s, p.target, n);
    assert Landed(j, p'.target, s.offset, s.progress + n);
    assert p'.slots[i] == s.(progress := s.progress + n, phase := p'.slots[i].phase);
    assert SlotShape(j, p'.slots[i]);
  }

  lemma SendOtherSlot(j: Job, p: Progress, i: nat, n: nat, s: Slot)
    requires i < |p.slots| && SlotShape(j, p.slots[i]) && SlotOk(j, p, s) && p.slots[i].phase == Writing
    requires 0 < n <= p.slots[i].length - p.slots[i].progress
    requires Busy(s) ==> s.sequence != p.slots[i].sequence
    ensures SlotOk(j, Send(p, i, n), s)
  {
    if s.phase == Writing {
      SendKeepsLanded(j, p, i, n, s.sequence, s.progress);
    }
  }

  lemma SendSlots(j: Job, p: Progress, i: nat, n: nat)
    requires SlotsOk(j, p) && Distinct(p.slots) && i < |p.slots| && p.slots[i].phase == Writing
    requires 0 < n <= p.slots[i].length - p.slots[i].progress
    ensures SlotsOk(j, Send(p, i, n))
  {
    forall k | 0 <= k < |p.slots| ensures SlotOk(j, Send(p, i, n), Send(p, i, n).slots[k]) {
      assert SlotOk(j, p, p.slots[i]) && SlotOk(j, p, p.slots[k]);
      if k == i {
        SendOwnSlot(j, p, i, n);
      } else {
        SendOtherSlot(j, p, i, n, p.slots[k]);
      }
    }
  }

  lemma SendBusy(p: Progress, i: nat, n: nat)
    requires i < |p.slots| && Busy(p.slots[i]) && p.slots[i].progress + n < p.slots[i].length
    ensures InSlot(Send(p, i, n).slots, p.slots[i].sequence)
  {
    hide WriteAt;
    var p', s := Send(p, i, n), p.slots[i];
    assert |p'.slots| == |p.slots| && Busy(p'.slots[i]) && p'.slots[i].sequence == s.sequence;
  }

  /** The last bytes of a chunk complete it in the target. */
  lemma SendLast(j: Job, p: Progress, i: nat, n: nat)
    requires i < |p.slots| && SlotOk(j, p, p.slots[i]) && p.slots[i].phase == Writing
    requires 0 < n && p.slots[i].progress + n == p.slots[i].length
    ensures ChunkOk(j, Send(p, i, n), p.slots[i].sequence)
  {
    hide WriteAt, Landed, InSlot, Holds, Start;
    var s := p.slots[i];
    LandedGrows(j, s, p.target, n);
    assert Start(j, s.sequence + 1) - Start(j, s.sequence) == s.progress + n;
  }

  lemma SendOwnChunk(j: Job, p: Progress, i: nat, n: nat)
    requires i < |p.slots| && SlotOk(j, p, p.slots[i]) && p.slots[i].phase == Writing
    requires 0 < n <= p.slots[i].length - p.slots[i].progress
    ensures ChunkOk(j, Send(p, i, n), p.slots[i].sequence)
  {
    hide SlotOk, Send, Landed, InSlot, Start;
    if p.slots[i].progress + n < p.slots[i].length {
      SendBusy(p, i, n);
    } else {
      SendLast(j, p, i, n);
    }
  }

  lemma SendChunk(j: Job, p: Progress, i: nat, n: nat, q: nat)
    requires i < |p.slots| && SlotOk(j, p, p.slots[i]) && p.slots[i].phase == Writing
    requires 0 < n <= p.slots[i].length - p.slots[i].progress && ChunkOk(j, p, q) && q != p.slots[i].sequence
    ensures ChunkOk(j, Send(p, i, n), q)
  {
    if !InSlot(p.slots, q) {
      StartMonotone(j, q, q + 1);
      SendKeepsLanded(j, p, i, n, q, Start(j, q + 1) - Start(j, q));
    }
    ChunkKept(j, p, Send(p, i, n), i, q);
  }

  lemma SendOk(j: Job, p: Progress, i: nat, n: nat)
    requires Consistent(j, p) && i < |p.slots| && p.slots[i].phase == Writing && 0 < n <= p.slots[i].length - p.slots[i].progress
    ensures Consistent(j, Send(p, i, n)) && Work(j, Send(p, i, n)) == Work(j, p) - n
    ensures Send(p, i, n).slots[i].progress == p.slots[i].progress + n
  {
    assert SlotOk(j, p, p.slots[i]);
    SendSlots(j, p, i, n);
    forall q: nat | q < p.nextRead ensures ChunkOk(j, Send(p, i, n), q) {
      assert ChunkOk(j, p, q);
      if q == p.slots[i].sequence {
        SendOwnChunk(j, p, i, n);
      } else {
        SendChunk(j, p, i, n, q);
      }
    }
    SumsUpdate(p, Send(p, i, n), i);
  }
}
