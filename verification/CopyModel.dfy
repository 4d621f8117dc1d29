/** Files as byte sequences, the streaming hasher, and the synchronous copy loop of src/filesystem/copy_and_hash.cpp,
    which serves as the plain meaning of "copy and hash". */
module CopyModel {
  import opened Common

  function Zeros(n: nat): (z: Bytes)
    ensures |z| == n
  {
    seq(n, _ => 0 as byte)
  }

  /** pwrite: a write beyond the end leaves a hole of zeros. */
  function WriteAt(file: Bytes, offset: nat, data: Bytes): (r: Bytes)
    ensures |r| == if offset + |data| > |file| then offset + |data| else |file|
    ensures forall k :: 0 <= k < |data| ==> r[offset + k] == data[k]
    ensures forall k :: 0 <= k < |file| && !(offset <= k < offset + |data|) ==> r[k] == file[k]
  {
    var padded := if offset > |file| then file + Zeros(offset - |file|) else file;
    padded[..offset] + data + (if offset + |data| < |padded| then padded[offset + |data|..] else [])
  }

  /** Blake3Hasher: `fed` is everything hashed so far. */
  class Hasher {
    const hash: Bytes -> Digest
    var fed: Bytes
    var finalized: bool

    constructor (hash: Bytes -> Digest)
      ensures this.hash == hash && fed == [] && !finalized
    {
      this.hash := hash;
      fed := [];
      finalized := false;
    }

    method Update(bytes: Bytes) returns (status: Status)
      modifies this`fed
      ensures status == if finalized then Err(InvalidArgument) else Ok(())
      ensures fed == if finalized then old(fed) else old(fed) + bytes
    {
      if finalized {
        return Err(InvalidArgument);
      }
      fed := fed + bytes;
      return Ok(());
    }

    method Finalize() returns (digest: Outcome<Digest>)
      modifies this`finalized
      ensures finalized
      ensures digest == if old(finalized) then Err(InvalidArgument) else Ok(hash(fed))
    {
      if finalized {
        return Err(InvalidArgument);
      }
      finalized := true;
      return Ok(hash(fed));
    }
  }

  datatype CopyResult = CopyResult(bytesCopied: nat, sourceDigest: Digest)

  /** The two descriptors of a synchronous copy: a source read from `position` on and a target being appended to. */
  class Streams {
    const source: Bytes
    var position: nat
    var target: Bytes

    constructor (source: Bytes)
      ensures this.source == source && position == 0 && target == []
    {
      this.source := source;
      position := 0;
      target := [];
    }

    /** read(2): an error, or between 1 and `capacity` of the next bytes, or nothing exactly at the end. */
    method Read(capacity: nat) returns (chunk: Outcome<Bytes>)
      requires position <= |source| && capacity > 0
      modifies this`position
      ensures position <= |source|
      ensures chunk.Ok? ==> |chunk.value| <= capacity && position == old(position) + |chunk.value|
                            && chunk.value == source[old(position)..position]
      ensures chunk.Ok? ==> (chunk.value == [] <==> old(position) == |source|)
    {
      if * {
        return Err(IoError);
      }
      var left := |source| - position;
      var most := if left < capacity then left else capacity;
      var n: nat :| n <= most && (n == 0 <==> most == 0);
      chunk := Ok(source[position..position + n]);
      position := position + n;
    }

    /** write(2): an error, or some prefix of the bytes, possibly none. */
    method Write(bytes: Bytes) returns (written: Outcome<nat>)
      modifies this`target
      ensures written.Ok? ==> written.value <= |bytes| && target == old(target) + bytes[..written.value]
      ensures written.Err? ==> target == old(target)
    {
      if * {
        return Err(IoError);
      }
      var n: nat :| n <= |bytes|;
      target := target + bytes[..n];
      return Ok(n);
    }
  }

  /** Short writes are continued until everything is out; a write of nothing is an error. */
  method WriteAll(streams: Streams, bytes: Bytes) returns (status: Status)
    modifies streams`target
    ensures status.Ok? ==> streams.target == old(streams.target) + bytes
  {
    var offset := 0;
    while offset < |bytes|
      invariant offset <= |bytes| && streams.target == old(streams.target) + bytes[..offset]
    {
      var written := streams.Write(bytes[offset..]);
      if written.Err? {
        return Err(written.code);
      }
      if written.value == 0 {
        return Err(IoError);
      }
      assert bytes[..offset] + bytes[offset..][..written.value] == bytes[..offset + written.value];
      offset := offset + written.value;
    }
    return Ok(());
  }

  /** The synchronous copy. On success the target received, and the hasher was fed, exactly the rest of the source,
      whatever the pattern of short reads and writes. */
  method CopyAndHash(hasher: Hasher, streams: Streams, capacity: nat) returns (r: Outcome<CopyResult>)
    requires streams.position <= |streams.source|
    modifies hasher, streams
    ensures capacity == 0 ==> r == Err(InvalidArgument)
    ensures r.Ok? ==>
              var copied := streams.source[old(streams.position)..];
              && streams.target == old(streams.target) + copied
              && hasher.fed == old(hasher.fed) + copied
              && r.value == CopyResult(|copied|, hasher.hash(old(hasher.fed) + copied))
  {
    if capacity == 0 {
      return Err(InvalidArgument);
    }
    ghost var first := streams.position;
    var copied := 0;
    while true
      invariant first <= streams.position <= |streams.source|
      invariant streams.target == old(streams.target) + streams.source[first..streams.position]
      invariant hasher.fed == old(hasher.fed) + streams.source[first..streams.position]
      invariant copied == streams.position - first
      decreases |streams.source| - streams.position
    {
      ghost var was := streams.position;
      var chunk := streams.Read(capacity);
      if chunk.Err? {
        return Err(chunk.code);
      }
      if |chunk.value| == 0 {
        break;
      }
      if copied > UINT64_LIMIT - 1 - |chunk.value| {
        return Err(Internal);
      }
      var status := hasher.Update(chunk.value);
      if status.Err? {
        return Err(status.code);
      }
      status := WriteAll(streams, chunk.value);
      if status.Err? {
        return Err(status.code);
      }
      assert streams.source[first..was] + chunk.value == streams.source[first..streams.position];
      copied := copied + |chunk.value|;
    }
    var digest := hasher.Finalize();
    if digest.Err? {
      return Err(digest.code);
    }
    return Ok(CopyResult(copied, digest.value));
  }

  datatype BinaryStatus = NotApplicable | Identical | Mismatch

  datatype Verification = Verification(status: BinaryStatus, bytesRead: nat, digest: Digest)

  /** fstat: some number that stands for the identity of the open file, or an error. */
  method StatFd() returns (identity: Outcome<nat>)
    ensures identity.Err? ==> identity.code == IoError
  {
    if * {
      return Err(IoError);
    }
    var n: nat := *;
    return Ok(n);
  }

  /** VerifyBinary of src/filesystem/binary_verifier.cpp: the whole file is read and hashed between two looks at its
      identity; it is identical exactly when both its length and its digest are the expected ones. */
  method VerifyBinary(hasher: Hasher, streams: Streams, size: nat, expected: Option<Digest>, capacity: nat)
    returns (r: Outcome<Verification>)
    requires streams.position == 0 && hasher.fed == []
    modifies hasher, streams
    ensures capacity == 0 ==> r == Err(InvalidArgument)
    ensures r.Ok? ==>
              && r.value.bytesRead == |streams.source| && r.value.digest == hasher.hash(streams.source)
              && (r.value.status == NotApplicable <==> expected.None?)
              && (r.value.status == Identical <==> |streams.source| == size && expected == Some(hasher.hash(streams.source)))
  {
    if capacity == 0 {
      return Err(InvalidArgument);
    }
    var before := StatFd();
    if before.Err? {
      return Err(before.code);
    }
    var count := 0;
    while true
      invariant streams.position <= |streams.source| && count == streams.position
      invariant hasher.fed == streams.source[..streams.position]
      decreases |streams.source| - streams.position
    {
      ghost var was := streams.position;
      var chunk := streams.Read(capacity);
      if chunk.Err? {
        return Err(chunk.code);
      }
      if |chunk.value| == 0 {
        break;
      }
      if count > UINT64_LIMIT - 1 - |chunk.value| {
        return Err(Internal);
      }
      var status := hasher.Update(chunk.value);
      if status.Err? {
        return Err(status.code);
      }
      assert streams.source[..was] + chunk.value == streams.source[..streams.position];
      count := count + |chunk.value|;
    }
    assert streams.source[..|streams.source|] == streams.source;
    var after := StatFd();
    if after.Err? {
      return Err(after.code);
    }
    if before.value != after.value {
      return Err(Internal);
    }
    var found := hasher.Finalize();
    if found.Err? {
      return Err(found.code);
    }
    var status :=
      if expected.None? then NotApplicable
      else if count == size && found.value == expected.value then Identical else Mismatch;
    return Ok(Verification(status, count, found.value));
  }
}
