/** UploadSessionStore of src/filesystem/upload_session_store.cpp: sessions, files, quotas and their accounting. */
module UploadStore {
  import opened Common
  import opened UploadNames
  import opened TempNames
  import opened Sums
  import Decimal

  datatype UploadFileState = Pending | Receiving | Received | Failed
  datatype SessionState = Open | Complete

  datatype UploadFile = UploadFile(
    id: string, original: string, safeName: string, expected: nat, received: nat,
    client: Option<Digest>, server: Option<Digest>, state: UploadFileState)

  datatype UploadSession = UploadSession(
    id: string, expectedTotal: nat, receivedTotal: nat, state: SessionState, files: seq<UploadFile>)

  datatype UploadRequest = UploadRequest(original: string, size: nat, client: Option<Digest>)

  datatype UploadQuota = UploadQuota(maxFile: nat, maxSession: nat, maxReserved: nat)

  datatype BeginResult = Started | AlreadyReceived | Busy

  function ExpectedOf(f: UploadFile): int {
    f.expected
  }

  function ReceivedOf(f: UploadFile): int {
    f.received
  }

  function ReceivedTotal(files: seq<UploadFile>): (n: nat)
    ensures n == Sum(files, ReceivedOf)
  {
    SumNonNegative(files, ReceivedOf);
    Sum(files, ReceivedOf)
  }

  function TotalOf(s: UploadSession): int {
    s.expectedTotal
  }

  // ---------------------------------------------------------------- what every state keeps

  predicate FileOk(f: UploadFile) {
    && SafeComponent(f.safeName)
    && (f.state == Received <==> f.server.Some?)
    && f.received == if f.state == Received then f.expected else 0
  }

  predicate SessionOk(s: UploadSession) {
    && s.files != []
    && (forall k :: 0 <= k < |s.files| ==> FileOk(s.files[k]))
    && (forall j, k :: 0 <= j < k < |s.files| ==>
          s.files[j].id != s.files[k].id && s.files[j].safeName != s.files[k].safeName)
    && s.expectedTotal == Sum(s.files, ExpectedOf)
    && s.receivedTotal == Sum(s.files, ReceivedOf)
    && (s.state == Complete ==> forall k :: 0 <= k < |s.files| ==> s.files[k].state == Received)
  }

  predicate StoreOk(sessions: seq<UploadSession>, quota: UploadQuota) {
    && (forall i :: 0 <= i < |sessions| ==> SessionOk(sessions[i]))
    && (forall i, j :: 0 <= i < j < |sessions| ==> sessions[i].id != sessions[j].id)
    && Sum(sessions, TotalOf) <= quota.maxReserved
  }

  /** A complete session has received exactly what it expected. */
  lemma CompleteIsWhole(s: UploadSession)
    requires SessionOk(s) && s.state == Complete
    ensures s.receivedTotal == s.expectedTotal
  {
    SumSame(s.files, ReceivedOf, ExpectedOf);
  }

  /** What a later state keeps of a file: its identity, and everything once it has been received. */
  predicate FileGrows(f: UploadFile, g: UploadFile) {
    && g.id == f.id && g.original == f.original && g.safeName == f.safeName && g.expected == f.expected && g.client == f.client
    && (f.state == Received ==> g == f)
  }

  predicate SessionGrows(s: UploadSession, t: UploadSession) {
    && t.id == s.id && t.expectedTotal == s.expectedTotal && |t.files| == |s.files|
    && (forall k :: 0 <= k < |s.files| ==> FileGrows(s.files[k], t.files[k]))
    && (s.state == Complete ==> t == s)
  }

  /** No session is lost, a received file never changes, and a complete session never changes. */
  predicate Grows(a: seq<UploadSession>, b: seq<UploadSession>) {
    |a| <= |b| && forall i :: 0 <= i < |a| ==> SessionGrows(a[i], b[i])
  }

  lemma GrowsTransitive(a: seq<UploadSession>, b: seq<UploadSession>, c: seq<UploadSession>)
    requires Grows(a, b) && Grows(b, c)
    ensures Grows(a, c)
  {
    forall i | 0 <= i < |a| ensures SessionGrows(a[i], c[i]) {
      assert SessionGrows(a[i], b[i]) && SessionGrows(b[i], c[i]);
      forall k | 0 <= k < |a[i].files| ensures FileGrows(a[i].files[k], c[i].files[k]) {
        assert FileGrows(a[i].files[k], b[i].files[k]) && FileGrows(b[i].files[k], c[i].files[k]);
      }
    }
  }

  /** One session replaced by another that grew from it. */
  lemma ReplaceSession(sessions: seq<UploadSession>, quota: UploadQuota, i: nat, t: UploadSession)
    requires StoreOk(sessions, quota) && i < |sessions| && SessionOk(t) && SessionGrows(sessions[i], t)
    ensures StoreOk(sessions[i := t], quota) && Grows(sessions, sessions[i := t])
  {
    SumUpdate(sessions, TotalOf, i, t);
    forall j | 0 <= j < |sessions| ensures SessionGrows(sessions[j], sessions[i := t][j]) {
    }
  }

  function WithFile(s: UploadSession, k: nat, f: UploadFile): UploadSession
    requires k < |s.files|
  {
    var files := s.files[k := f];
    s.(files := files, receivedTotal := ReceivedTotal(files))
  }

  /** The store after one file row and its session's received total were rewritten. */
  function Replaced(sessions: seq<UploadSession>, i: nat, k: nat, f: UploadFile): seq<UploadSession>
    requires i < |sessions| && k < |sessions[i].files|
  {
    sessions[i := WithFile(sessions[i], k, f)]
  }

  lemma WithFileOk(s: UploadSession, k: nat, f: UploadFile)
    requires SessionOk(s) && k < |s.files| && s.files[k].state != Received && FileOk(f) && FileGrows(s.files[k], f)
    ensures SessionOk(WithFile(s, k, f)) && SessionGrows(s, WithFile(s, k, f))
    ensures WithFile(s, k, f).receivedTotal == s.receivedTotal + f.received
  {
    SumUpdate(s.files, ExpectedOf, k, f);
    SumUpdate(s.files, ReceivedOf, k, f);
  }

  lemma CompletedOk(s: UploadSession)
    requires SessionOk(s) && s.state == Open && forall k :: 0 <= k < |s.files| ==> s.files[k].state == Received
    ensures SessionOk(s.(state := Complete)) && SessionGrows(s, s.(state := Complete))
  {
  }

  predicate IsFile(sessions: seq<UploadSession>, i: int, k: int, session: string, file: string) {
    0 <= i < |sessions| && 0 <= k < |sessions[i].files| && sessions[i].id == session && sessions[i].files[k].id == file
  }

  /** Session and file id together name one row. */
  lemma OnlyFile(sessions: seq<UploadSession>, quota: UploadQuota, i: nat, k: nat)
    requires StoreOk(sessions, quota) && i < |sessions| && k < |sessions[i].files|
    ensures forall j, m :: IsFile(sessions, j, m, sessions[i].id, sessions[i].files[k].id) ==> j == i && m == k
  {
    forall j, m | IsFile(sessions, j, m, sessions[i].id, sessions[i].files[k].id) ensures j == i && m == k {
      assert SessionOk(sessions[i]);
    }
  }

  predicate IsWhole(s: UploadSession, f: UploadFile, finals: map<(string, string), Bytes>) {
    (s.id, f.safeName) in finals && |finals[(s.id, f.safeName)]| == f.expected
  }

  /** How start-up leaves a file: one that was being received is received if its final file is whole and failed otherwise;
      any other is as it was. */
  function Recovered(s: UploadSession, f: UploadFile, finals: map<(string, string), Bytes>, hash: HashFunction): UploadFile {
    if f.state != Receiving then f
    else if IsWhole(s, f, finals) then
      f.(received := f.expected, server := Some(hash(finals[(s.id, f.safeName)])), state := Received)
    else f.(state := Failed)
  }

  /** What a file that was `f` before the restart is after it. */
  predicate Restarted(
    s: UploadSession, f: UploadFile, g: UploadFile, finals: map<(string, string), Bytes>, hash: HashFunction)
  {
    && g.id == f.id && g.original == f.original && g.safeName == f.safeName && g.expected == f.expected && g.client == f.client
    && (f.state != Receiving ==> g == f)
    && (f.state == Receiving ==>
          if (s.id, f.safeName) in finals && |finals[(s.id, f.safeName)]| == f.expected
          then g.state == Received && g.received == f.expected && g.server == Some(hash(finals[(s.id, f.safeName)]))
          else g.state == Failed && g.received == f.received && g.server == f.server)
  }

  predicate AllRestarted(s: UploadSession, t: UploadSession, finals: map<(string, string), Bytes>, hash: HashFunction) {
    t.id == s.id && |t.files| == |s.files| && forall k :: 0 <= k < |s.files| ==> Restarted(s, s.files[k], t.files[k], finals, hash)
  }

  lemma ResolvedExactly(s: UploadSession, t: UploadSession, finals: map<(string, string), Bytes>, hash: HashFunction)
    requires ResolvedTo(s, t, |s.files|, finals, hash, false)
    ensures AllRestarted(s, t, finals, hash)
  {
    forall k | 0 <= k < |s.files| ensures Restarted(s, s.files[k], t.files[k], finals, hash) {
      assert Resolved(s, s.files[k], t.files[k], finals, hash, false);
    }
  }

  /** With failing calls an interrupted file may also be given up although its final file is whole. */
  predicate Resolved(
    s: UploadSession, f: UploadFile, g: UploadFile, finals: map<(string, string), Bytes>, hash: HashFunction, faulted: bool)
  {
    g == Recovered(s, f, finals, hash) || (faulted && f.state == Receiving && g == f.(state := Failed))
  }

  /** The first n files are resolved, the others as before. */
  ghost predicate ResolvedTo(
    s: UploadSession, t: UploadSession, n: nat, finals: map<(string, string), Bytes>, hash: HashFunction, faulted: bool)
  {
    && t.id == s.id && |t.files| == |s.files| && n <= |s.files|
    && (forall k :: 0 <= k < n ==> Resolved(s, s.files[k], t.files[k], finals, hash, faulted))
    && (forall k :: n <= k < |s.files| ==> t.files[k] == s.files[k])
  }

  /** Some files at the front, or all of them, are resolved. */
  ghost predicate ResolvedFront(
    s: UploadSession, t: UploadSession, whole: bool, finals: map<(string, string), Bytes>, hash: HashFunction, faulted: bool)
  {
    exists n: nat :: (whole ==> n == |s.files|) && ResolvedTo(s, t, n, finals, hash, faulted)
  }

  /** None of the first n files is still being received. */
  predicate Settled(s: UploadSession, n: nat) {
    n <= |s.files| && forall k :: 0 <= k < n ==> s.files[k].state != Receiving
  }

  // ---------------------------------------------------------------- the store

  class UploadSessionStore {
    const quota: UploadQuota
    var sessions: seq<UploadSession>

    ghost predicate Valid()
      reads this
    {
      StoreOk(sessions, quota) && quota.maxReserved <= INT64_MAX
    }

    /** A quota below 2^63 keeps every stored total inside a signed 64-bit column. */
    constructor (quota: UploadQuota)
      requires quota.maxReserved <= INT64_MAX
      ensures Valid() && sessions == [] && this.quota == quota
    {
      this.quota := quota;
      sessions := [];
    }

    /** The rows of a file: session and position, or nothing. */
    method Find(session: string, file: string) returns (at: Option<(nat, nat)>)
      requires Valid()
      ensures at.Some? ==> IsFile(sessions, at.value.0, at.value.1, session, file)
      ensures at.None? ==> forall i, k :: !IsFile(sessions, i, k, session, file)
    {
      for i := 0 to |sessions|
        invariant forall j, k :: 0 <= j < i && 0 <= k < |sessions[j].files| && sessions[j].id == session ==>
                    sessions[j].files[k].id != file
      {
        if sessions[i].id == session {
          for k := 0 to |sessions[i].files|
            invariant forall m :: 0 <= m < k ==> sessions[i].files[m].id != file
          {
            if sessions[i].files[k].id == file {
              return Some((i, k));
            }
          }
        }
      }
      return None;
    }

    /** Without a failing call: NotFound for an unknown file, AlreadyReceived or Busy as its state says, and otherwise the
        file starts receiving. */
    method BeginUpload(session: string, file: string) returns (r: Outcome<BeginResult>, ghost faulted: bool)
      requires Valid()
      modifies this`sessions
      ensures Valid() && Grows(old(sessions), sessions)
      ensures r != Ok(Started) ==> sessions == old(sessions)
      ensures r == Ok(Started) ==> exists i, k ::
                && IsFile(old(sessions), i, k, session, file)
                && old(sessions)[i].files[k].state in {Pending, Failed}
                && sessions == Replaced(old(sessions), i, k, old(sessions)[i].files[k].(state := Receiving))
      ensures faulted ==> r == Err(IoError)
      ensures !faulted && r.Err? ==> r.code == NotFound && forall i, k :: !IsFile(sessions, i, k, session, file)
      ensures !faulted ==> forall i, k :: IsFile(old(sessions), i, k, session, file) ==>
                r == Ok(match old(sessions)[i].files[k].state
                        case Received => AlreadyReceived
                        case Receiving => Busy
                        case _ => Started)
    {
      GrowsSelf(sessions);
      var broken: bool := *;
      faulted := broken;
      if broken {
        return Err(IoError), true;
      }
      var at := Find(session, file);
      if at.None? {
        return Err(NotFound), false;
      }
      var i, k := at.value.0, at.value.1;
      OnlyFile(sessions, quota, i, k);
      var f := sessions[i].files[k];
      if f.state == Received {
        return Ok(AlreadyReceived), false;
      }
      if f.state == Receiving {
        return Ok(Busy), false;
      }
      SetState(i, k, Receiving);
      return Ok(Started), false;
    }

    /** UPDATE upload_file SET state, for a file that has not been received. */
    method SetState(i: nat, k: nat, state: UploadFileState)
      requires Valid() && i < |sessions| && k < |sessions[i].files| && sessions[i].files[k].state != Received && state != Received
      modifies this`sessions
      ensures Valid() && Grows(old(sessions), sessions)
      ensures sessions == Replaced(old(sessions), i, k, old(sessions)[i].files[k].(state := state))
    {
      var f := sessions[i].files[k].(state := state);
      WithFileOk(sessions[i], k, f);
      ReplaceSession(sessions, quota, i, WithFile(sessions[i], k, f));
      sessions := sessions[i := sessions[i].(files := sessions[i].files[k := f])];
    }

    /** Gives up on a file that is being received; any other file is left alone. */
    method MarkUploadFailed(session: string, file: string) returns (status: Status, ghost faulted: bool)
      requires Valid()
      modifies this`sessions
      ensures Valid() && Grows(old(sessions), sessions)
      ensures status.Err? <==> faulted
      ensures status.Err? ==> sessions == old(sessions)
      ensures status.Ok? ==>
                || (sessions == old(sessions)
                    && forall i, k :: IsFile(sessions, i, k, session, file) ==> sessions[i].files[k].state != Receiving)
                || exists i, k ::
                     && IsFile(old(sessions), i, k, session, file) && old(sessions)[i].files[k].state == Receiving
                     && sessions == Replaced(old(sessions), i, k, old(sessions)[i].files[k].(state := Failed))
    {
      GrowsSelf(sessions);
      var broken: bool := *;
      if broken {
        return Err(IoError), true;
      }
      var at := Find(session, file);
      if at.Some? {
        var i, k := at.value.0, at.value.1;
        var f := sessions[i].files[k];
        OnlyFile(sessions, quota, i, k);
        if f.state == Receiving {
          SetState(i, k, Failed);
        }
      }
      return Ok(()), false;
    }

    /** The file is being received and has the registered size. */
    predicate CanCommit(session: string, file: string, size: nat)
      reads this`sessions
    {
      exists i, k ::
        && 0 <= i < |sessions| && 0 <= k < |sessions[i].files| && IsFile(sessions, i, k, session, file)
        && sessions[i].files[k].state == Receiving && sessions[i].files[k].expected == size
    }

    /** Accepts the bytes of a file that is being received, exactly when there are as many as registered; the session has
        then received that many more. A failing update statement gives the same error as a wrong size. */
    method CommitUpload(session: string, file: string, size: nat, digest: Digest) returns (status: Status, ghost faulted: bool)
      requires Valid()
      modifies this`sessions
      ensures Valid() && Grows(old(sessions), sessions)
      ensures status.Err? ==> sessions == old(sessions)
      ensures status.Ok? ==> old(CanCommit(session, file, size)) && exists i, k ::
                && IsFile(old(sessions), i, k, session, file)
                && old(sessions)[i].files[k].state == Receiving && old(sessions)[i].files[k].expected == size
                && sessions == Replaced(old(sessions), i, k,
                     old(sessions)[i].files[k].(received := size, server := Some(digest), state := Received))
                && sessions[i].receivedTotal == old(sessions)[i].receivedTotal + size
      ensures !faulted ==> (status.Ok? <==> old(CanCommit(session, file, size)))
      ensures status.Err? ==> faulted || status.code == InvalidArgument
    {
      GrowsSelf(sessions);
      var broken: bool := *;
      if broken {
        return Err(IoError), true;
      }
      broken := *;
      faulted := broken;
      var at := Find(session, file);
      if broken || at.None? {
        return Err(InvalidArgument), faulted;
      }
      var i, k := at.value.0, at.value.1;
      OnlyFile(sessions, quota, i, k);
      var f := sessions[i].files[k];
      if f.state != Receiving || f.expected != size {
        return Err(InvalidArgument), false;
      }
      var g := f.(received := size, server := Some(digest), state := Received);
      WithFileOk(sessions[i], k, g);
      ReplaceSession(sessions, quota, i, WithFile(sessions[i], k, g));
      var files := sessions[i].files[k := g];
      broken := *;
      if broken {
        return Err(IoError), true;
      }
      assert IsFile(sessions, i, k, session, file);
      sessions := sessions[i := sessions[i].(files := files, receivedTotal := ReceivedTotal(files))];
      return Ok(()), false;
    }

    /** Position of a session with this id, or nothing. */
    method FindSession(session: string) returns (at: Option<nat>)
      requires Valid()
      ensures at.Some? ==> at.value < |sessions| && sessions[at.value].id == session
      ensures at.Some? ==> forall j :: 0 <= j < |sessions| && sessions[j].id == session ==> j == at.value
      ensures at.None? ==> forall j :: 0 <= j < |sessions| ==> sessions[j].id != session
    {
      for i := 0 to |sessions|
        invariant forall j :: 0 <= j < i ==> sessions[j].id != session
      {
        if sessions[i].id == session {
          return Some(i);
        }
      }
      return None;
    }

    static predicate AllReceived(s: UploadSession) {
      forall k :: 0 <= k < |s.files| ==> s.files[k].state == Received
    }

    /** Without a failing call the session is completed exactly when it is there, open and wholly received; the error says
        which of these is missing, an incomplete file before a completed session. */
    method CompleteSession(session: string) returns (status: Status, ghost faulted: bool)
      requires Valid()
      modifies this`sessions
      ensures Valid() && Grows(old(sessions), sessions)
      ensures status.Err? ==> sessions == old(sessions)
      ensures status.Ok? ==> exists i ::
                && 0 <= i < |old(sessions)| && old(sessions)[i].id == session && old(sessions)[i].state == Open
                && AllReceived(old(sessions)[i])
                && sessions == old(sessions)[i := old(sessions)[i].(state := Complete)]
                && sessions[i].receivedTotal == sessions[i].expectedTotal
      ensures faulted ==> status == Err(IoError)
      ensures !faulted && status.Err? ==>
                if forall j :: 0 <= j < |sessions| ==> sessions[j].id != session then status.code == NotFound
                else exists i :: 0 <= i < |sessions| && sessions[i].id == session
                                 && status.code == (if AllReceived(sessions[i]) then AlreadyExists else InvalidArgument)
                                 && (AllReceived(sessions[i]) ==> sessions[i].state == Complete)
    {
      GrowsSelf(sessions);
      var broken: bool := *;
      if broken {
        return Err(IoError), true;
      }
      var at := FindSession(session);
      if at.None? {
        return Err(NotFound), false;
      }
      var i := at.value;
      var s := sessions[i];
      if !AllReceived(s) {
        return Err(InvalidArgument), false;
      }
      if s.state != Open {
        return Err(AlreadyExists), false;
      }
      CompletedOk(s);
      CompleteIsWhole(s.(state := Complete));
      ReplaceSession(sessions, quota, i, s.(state := Complete));
      sessions := sessions[i := s.(state := Complete)];
      return Ok(()), false;
    }

    /** A new session: every name checked and made distinct, every quota respected. `newId` and `fileIds` are random; a
        collision with a stored id makes the insert fail. */
    method CreateSession(files: seq<UploadRequest>, newId: string, fileIds: seq<string>) returns (r: Outcome<UploadSession>)
      requires Valid() && |fileIds| == |files|
      modifies this`sessions
      ensures Valid() && Grows(old(sessions), sessions)
      ensures r.Err? ==> sessions == old(sessions)
      ensures r.Ok? ==> sessions == old(sessions) + [r.value] && r.value.id == newId && r.value.state == Open
      ensures r.Ok? ==> Opened(files, r.value) && Fits(old(sessions), files)
      ensures r.Err? && r.code != IoError ==> !Fits(sessions, files)
      ensures !Fits(old(sessions), files) ==> r.Err?
    {
      GrowsSelf(sessions);
      if |files| == 0 {
        return Err(InvalidArgument);
      }
      var named := NameFiles(files, quota);
      if named.Err? {
        return Err(named.code);
      }
      var total, names := named.value.0, named.value.1;
      var broken: bool := *;
      if broken {
        return Err(IoError);
      }
      var reserved := Sum(sessions, TotalOf);
      if reserved > UINT64_LIMIT - 1 - total || reserved + total > quota.maxReserved {
        return Err(InvalidArgument);
      }
      broken := *;
      if broken || exists i :: 0 <= i < |sessions| && sessions[i].id == newId {
        return Err(IoError);
      }
      var rows := InsertFiles(files, names, fileIds);
      if rows.Err? {
        return Err(rows.code);
      }
      broken := *;
      if broken {
        return Err(IoError);
      }
      var session := UploadSession(newId, total, 0, Open, rows.value);
      OpenedOk(files, session, names);
      AppendSession(sessions, quota, session);
      sessions := sessions + [session];
      return Ok(session);
    }

    /** One interrupted file after a restart: received if its final file is whole, failed otherwise. */
    method RecoverOne(i: nat, k: nat, finals: map<(string, string), Bytes>, hash: HashFunction)
      returns (status: Status, ghost faulted: bool)
      requires Valid() && i < |sessions| && k < |sessions[i].files| && sessions[i].files[k].state == Receiving
      modifies this`sessions
      ensures Valid() && Grows(old(sessions), sessions)
      ensures status.Err? ==> faulted && sessions == old(sessions)
      ensures status.Ok? ==> exists g ::
                && Resolved(old(sessions)[i], old(sessions)[i].files[k], g, finals, hash, faulted)
                && sessions == Replaced(old(sessions), i, k, g)
    {
      GrowsSelf(sessions);
      OnlyFile(sessions, quota, i, k);
      var s, f := sessions[i], sessions[i].files[k];
      assert IsFile(sessions, i, k, s.id, f.id);
      faulted := false;
      if IsWhole(s, f, finals) {
        var readable: bool := *;
        faulted := !readable;
        if readable {
          var committed;
          committed, faulted := CommitUpload(s.id, f.id, f.expected, hash(finals[(s.id, f.safeName)]));
          if committed.Ok? {
            assert sessions == Replaced(old(sessions), i, k, Recovered(s, f, finals, hash));
            return Ok(()), false;
          }
        }
      }
      ghost var failing;
      status, failing := MarkUploadFailed(s.id, f.id);
      faulted := faulted || failing;
      if status.Ok? {
        assert sessions == Replaced(old(sessions), i, k, f.(state := Failed));
      }
    }

    method RecoverSession(i: nat, finals: map<(string, string), Bytes>, hash: HashFunction) returns (status: Status, ghost faulted: bool)
      requires Valid() && i < |sessions|
      modifies this`sessions
      ensures Valid() && Grows(old(sessions), sessions) && |sessions| == |old(sessions)|
      ensures forall j :: 0 <= j < |sessions| && j != i ==> sessions[j] == old(sessions)[j]
      ensures status.Err? ==> faulted
      ensures ResolvedFront(old(sessions)[i], sessions[i], status.Ok?, finals, hash, faulted)
    {
      hide StoreOk, SessionGrows, Resolved, Replaced;
      GrowsSelf(sessions);
      SessionShape(sessions, sessions, i);
      faulted := false;
      var k := 0;
      while k < |sessions[i].files|
        invariant Valid() && Grows(old(sessions), sessions) && |sessions| == |old(sessions)|
        invariant forall j :: 0 <= j < |sessions| && j != i ==> sessions[j] == old(sessions)[j]
        invariant k <= |sessions[i].files| && ResolvedTo(old(sessions)[i], sessions[i], k, finals, hash, faulted)
        decreases |sessions[i].files| - k
      {
        ghost var before := sessions;
        if sessions[i].files[k].state == Receiving {
          ghost var f;
          status, f := RecoverOne(i, k, finals, hash);
          GrowsTransitive(old(sessions), before, sessions);
          SessionShape(before, sessions, i);
          ghost var was := faulted;
          faulted := faulted || f;
          if status.Err? {
            ResolvedMore(old(sessions)[i], sessions[i], k, finals, hash, was);
            return;
          }
          ResolvedNext(old(sessions)[i], before, sessions, i, k, finals, hash, was, f);
        } else {
          ResolvedSkip(old(sessions)[i], sessions[i], k, finals, hash, faulted);
        }
        k := k + 1;
      }
      return Ok(()), faulted;
    }

    /** At start-up every file that was being received is received if its final file is whole and failed otherwise; all
        others are left alone, also when a call fails on the way. */
    method RecoverInterruptedUploads(finals: map<(string, string), Bytes>, hash: HashFunction)
      returns (status: Status, ghost faulted: bool)
      requires Valid()
      modifies this`sessions
      ensures Valid() && Grows(old(sessions), sessions) && |sessions| == |old(sessions)|
      ensures status.Err? ==> faulted
      ensures forall i :: 0 <= i < |sessions| ==> ResolvedFront(old(sessions)[i], sessions[i], status.Ok?, finals, hash, faulted)
      ensures status.Ok? ==> forall i :: 0 <= i < |sessions| ==> Settled(sessions[i], |sessions[i].files|)
      ensures status.Ok? && !faulted ==> forall i :: 0 <= i < |sessions| ==>
                AllRestarted(old(sessions)[i], sessions[i], finals, hash)
    {
      hide StoreOk, SessionGrows, Resolved, ResolvedTo, Settled, AllRestarted;
      GrowsSelf(sessions);
      faulted := false;
      for i := 0 to |sessions|
        invariant Valid() && Grows(old(sessions), sessions) && |sessions| == |old(sessions)|
        invariant forall j :: 0 <= j < i ==>
                    ResolvedTo(old(sessions)[j], sessions[j], |old(sessions)[j].files|, finals, hash, faulted)
        invariant forall j :: i <= j < |sessions| ==> sessions[j] == old(sessions)[j]
      {
        ghost var before, f := sessions, false;
        status, f := RecoverSession(i, finals, hash);
        GrowsTransitive(old(sessions), before, sessions);
        ResolvedSome(old(sessions), before, sessions, i, finals, hash, faulted, f, status.Ok?);
        faulted := faulted || f;
        if status.Err? {
          return;
        }
      }
      forall i | 0 <= i < |sessions| ensures Settled(sessions[i], |sessions[i].files|) {
        ResolvedIsSettled(old(sessions)[i], sessions[i], finals, hash, faulted);
      }
      forall i | !faulted && 0 <= i < |sessions| ensures AllRestarted(old(sessions)[i], sessions[i], finals, hash) {
        ResolvedExactly(old(sessions)[i], sessions[i], finals, hash);
      }
      return Ok(()), faulted;
    }

    /** The request is acceptable and the reserved bytes leave room for it. */
    ghost predicate Fits(before: seq<UploadSession>, files: seq<UploadRequest>) {
      Acceptable(files, quota) && Sum(before, TotalOf) + Sum(files, SizeOf) <= quota.maxReserved
    }
  }

  function SizeOf(f: UploadRequest): int {
    f.size
  }

  predicate RequestOk(f: UploadRequest, quota: UploadQuota) {
    f.size <= quota.maxFile && SafeComponent(f.original) && |f.original| <= MAX_NAME
  }

  predicate Acceptable(files: seq<UploadRequest>, quota: UploadQuota) {
    && files != [] && (forall k :: 0 <= k < |files| ==> RequestOk(files[k], quota))
    && Sum(files, SizeOf) <= quota.maxSession && Sum(files, SizeOf) < UINT64_LIMIT
  }

  lemma {:induction false} SumPrefix(files: seq<UploadRequest>, k: nat)
    requires k <= |files|
    ensures Sum(files[..k], SizeOf) <= Sum(files, SizeOf)
    decreases |files|
  {
    if k < |files| {
      SumPrefix(files[..|files| - 1], k);
      assert files[..|files| - 1][..k] == files[..k];
    } else {
      assert files[..k] == files;
    }
  }

  lemma SumNext(files: seq<UploadRequest>, k: nat)
    requires k < |files|
    ensures Sum(files[..k + 1], SizeOf) == Sum(files[..k], SizeOf) + files[k].size
  {
    assert files[..k + 1][..k] == files[..k];
  }

  /** Distinct safe names, each the first variation of the requested one that is still free. */
  ghost predicate NamesOk(files: seq<UploadRequest>, names: seq<string>) {
    && |names| <= |files|
    && (forall k :: 0 <= k < |names| ==>
          SafeComponent(names[k]) && exists n :: 1 <= n <= k + 1 && Chosen(files[k].original, names[..k], names[k], n))
    && (forall j, k :: 0 <= j < k < |names| ==> names[j] != names[k])
  }

  /** The names are determined by the request. */
  lemma {:induction false} NamesUnique(files: seq<UploadRequest>, names: seq<string>, names': seq<string>)
    requires NamesOk(files, names) && NamesOk(files, names') && |names| == |names'|
    ensures names == names'
    decreases |names|
  {
    hide WithCollisionSuffix, SafeComponent, Chosen;
    if names != [] {
      var last := |names| - 1;
      FrontNamesOk(files, names);
      FrontNamesOk(files, names');
      NamesUnique(files, names[..last], names'[..last]);
      var m :| 1 <= m <= last + 1 && Chosen(files[last].original, names[..last], names[last], m);
      var n :| 1 <= n <= last + 1 && Chosen(files[last].original, names'[..last], names'[last], n);
      ChosenIsUnique(files[last].original, names[..last], names[last], m, names'[last], n);
      assert names == names[..last] + [names[last]] && names' == names'[..last] + [names'[last]];
    }
  }

  lemma FrontNamesOk(files: seq<UploadRequest>, names: seq<string>)
    requires NamesOk(files, names) && names != []
    ensures NamesOk(files, names[..|names| - 1])
  {
    var front := names[..|names| - 1];
    forall k | 0 <= k < |front|
      ensures SafeComponent(front[k]) && exists n :: 1 <= n <= k + 1 && Chosen(files[k].original, front[..k], front[k], n)
    {
      assert front[..k] == names[..k] && front[k] == names[k];
      var n :| 1 <= n <= k + 1 && Chosen(files[k].original, names[..k], names[k], n);
    }
    forall j, k | 0 <= j < k < |front| ensures front[j] != front[k] {
      assert front[j] == names[j] && front[k] == names[k];
    }
    assert NamesOk(files, front);
  }

  /** The k-th name is the requested one, or the requested one leaves room for the suffix it gets. */
  ghost predicate HasRoom(files: seq<UploadRequest>, names: seq<string>, k: nat)
    requires k < |names| <= |files|
  {
    forall n :: Chosen(files[k].original, names[..k], names[k], n) ==>
      n == 1 || |files[k].original| + 2 + |Decimal.Print(n)| <= MAX_NAME
  }

  /** Exactly when the names given to an accepted request keep to the limit that the request was checked against. */
  lemma LimitKeptExactly(files: seq<UploadRequest>, quota: UploadQuota, names: seq<string>)
    requires Acceptable(files, quota) && NamesOk(files, names) && |names| == |files|
    ensures (forall k :: 0 <= k < |names| ==> WithinLimit(names[k])) <==> forall k :: 0 <= k < |names| ==> HasRoom(files, names, k)
  {
    forall k | 0 <= k < |names| ensures WithinLimit(names[k]) <==> HasRoom(files, names, k) {
      var n :| 1 <= n <= k + 1 && Chosen(files[k].original, names[..k], names[k], n);
      SuffixCanExceedLimit(files[k].original, n);
      forall m | Chosen(files[k].original, names[..k], names[k], m) ensures m == n {
        ChosenIsUnique(files[k].original, names[..k], names[k], m, names[k], n);
      }
    }
  }

  /** Two files of one name: the second gets the suffix 2, and is too long when the name has more than 252 bytes. */
  lemma TwoFilesOneName(files: seq<UploadRequest>, names: seq<string>)
    requires |files| == |names| == 2 && NamesOk(files, names) && files[0].original == files[1].original
    ensures names[0] == files[0].original && names[1] == WithCollisionSuffix(files[0].original, 2)
    ensures WithinLimit(names[1]) <==> |files[0].original| <= MAX_NAME - 3
  {
    var v := files[0].original;
    var m :| 1 <= m <= 1 && Chosen(v, names[..0], names[0], m);
    var n :| 1 <= n <= 2 && Chosen(v, names[..1], names[1], n);
    assert names[..1] == [v];
    SuffixCanExceedLimit(v, 2);
    Decimal.OneDigit(2);
  }

  /** A condition on the request alone that keeps every name within the limit: all requested names are different, or
      each leaves room for two underscores and as many digits as the number of files has. */
  lemma LimitKept(files: seq<UploadRequest>, quota: UploadQuota, names: seq<string>)
    requires Acceptable(files, quota) && NamesOk(files, names) && |names| == |files|
    requires || (forall j, k :: 0 <= j < k < |files| ==> files[j].original != files[k].original)
             || (forall k :: 0 <= k < |files| ==> |files[k].original| + 2 + |Decimal.Print(|files|)| <= MAX_NAME)
    ensures forall k :: 0 <= k < |names| ==> WithinLimit(names[k])
  {
    if forall j, k :: 0 <= j < k < |files| ==> files[j].original != files[k].original {
      DifferentStay(files, names, |names|);
    } else {
      forall k | 0 <= k < |names| ensures WithinLimit(names[k]) {
        var n :| 1 <= n <= k + 1 && Chosen(files[k].original, names[..k], names[k], n);
        SuffixCanExceedLimit(files[k].original, n);
        Decimal.PrintLonger(n, |files|);
      }
    }
  }

  lemma {:induction false} DifferentStay(files: seq<UploadRequest>, names: seq<string>, k: nat)
    requires NamesOk(files, names) && k <= |names|
    requires forall i, j :: 0 <= i < j < |files| ==> files[i].original != files[j].original
    ensures forall i :: 0 <= i < k ==> names[i] == files[i].original
  {
    if k > 0 {
      DifferentStay(files, names, k - 1);
      var v := files[k - 1].original;
      var n :| 1 <= n <= k && Chosen(v, names[..k - 1], names[k - 1], n);
      var before := names[..k - 1];
      forall x | x in before ensures x != v {
        var i :| 0 <= i < k - 1 && before[i] == x;
        assert names[i] == files[i].original;
      }
      assert WithCollisionSuffix(v, 1) == v && v !in before;
    }
  }

  function Used(names: seq<string>): set<string> {
    set k | 0 <= k < |names| :: names[k]
  }

  lemma {:induction false} UsedCount(names: seq<string>)
    ensures |Used(names)| <= |names|
    decreases |names|
  {
    if names != [] {
      var last := |names| - 1;
      UsedCount(names[..last]);
      assert Used(names) == Used(names[..last]) + {names[last]};
    }
  }

  /** One file that breaks a limit makes the whole request unacceptable. */
  lemma Refused(files: seq<UploadRequest>, quota: UploadQuota, i: nat, total: nat)
    requires i < |files| && total == Sum(files[..i], SizeOf)
    requires !RequestOk(files[i], quota) || total + files[i].size > quota.maxSession || total + files[i].size >= UINT64_LIMIT
    ensures !Acceptable(files, quota)
  {
    SumNext(files, i);
    SumPrefix(files, i + 1);
  }

  method CheckFile(f: UploadRequest, quota: UploadQuota, total: nat) returns (safe: Outcome<string>)
    requires total < UINT64_LIMIT
    ensures safe == if RequestOk(f, quota) && total + f.size <= quota.maxSession && total + f.size < UINT64_LIMIT
                    then Ok(f.original) else Err(InvalidArgument)
  {
    if f.size > quota.maxFile || f.size > UINT64_LIMIT - 1 - total || total + f.size > quota.maxSession {
      return Err(InvalidArgument);
    }
    safe := SafeFilename(f.original);
  }

  /** After the first i files: the running total, the names given and the names in use. */
  ghost predicate Naming(files: seq<UploadRequest>, quota: UploadQuota, i: nat, total: nat, names: seq<string>, used: set<string>) {
    && i <= |files| && total == Sum(files[..i], SizeOf) && total < UINT64_LIMIT && (i > 0 ==> total <= quota.maxSession)
    && (forall k :: 0 <= k < i ==> RequestOk(files[k], quota))
    && |names| == i && NamesOk(files, names) && used == Used(names)
  }

  lemma {:induction false} NamingNext(
    files: seq<UploadRequest>, quota: UploadQuota, i: nat, total: nat, names: seq<string>, used: set<string>,
    candidate: string, suffix: nat)
    requires i < |files| && Naming(files, quota, i, total, names, used) && RequestOk(files[i], quota)
    requires total + files[i].size <= quota.maxSession && total + files[i].size < UINT64_LIMIT
    requires candidate !in used && SafeComponent(candidate)
    requires 1 <= suffix <= i + 1 && candidate == WithCollisionSuffix(files[i].original, suffix)
    requires forall k :: 1 <= k < suffix ==> WithCollisionSuffix(files[i].original, k) in used
    ensures Naming(files, quota, i + 1, total + files[i].size, names + [candidate], used + {candidate})
  {
    SumNext(files, i);
    NamesNext(files, i, names, candidate, suffix);
  }

  lemma NamingEnds(files: seq<UploadRequest>, quota: UploadQuota, total: nat, names: seq<string>, used: set<string>)
    requires files != [] && Naming(files, quota, |files|, total, names, used)
    ensures Acceptable(files, quota) && total == Sum(files, SizeOf)
  {
    assert files[..|files|] == files;
  }

  /** The loop over the requested files: totals against the quotas, names against those already used. */
  method NameFiles(files: seq<UploadRequest>, quota: UploadQuota) returns (r: Outcome<(nat, seq<string>)>)
    requires files != []
    ensures r.Ok? <==> Acceptable(files, quota)
    ensures r.Ok? ==> r.value.0 == Sum(files, SizeOf) && |r.value.1| == |files| && NamesOk(files, r.value.1)
    ensures r.Err? ==> r.code == InvalidArgument
  {
    var total: nat, names: seq<string>, used: set<string> := 0, [], {};
    for i := 0 to |files|
      invariant Naming(files, quota, i, total, names, used)
    {
      var safe := CheckFile(files[i], quota, total);
      if safe.Err? {
        Refused(files, quota, i, total);
        return Err(safe.code);
      }
      var candidate, suffix := Allocate(used, safe.value);
      UsedCount(names);
      NamingNext(files, quota, i, total, names, used, candidate, suffix);
      total := total + files[i].size;
      used := used + {candidate};
      names := names + [candidate];
    }
    NamingEnds(files, quota, total, names, used);
    return Ok((total, names));
  }

  lemma NamesNext(files: seq<UploadRequest>, i: nat, names: seq<string>, candidate: string, suffix: nat)
    requires i == |names| < |files| && NamesOk(files, names) && candidate !in Used(names) && SafeComponent(candidate)
    requires 1 <= suffix <= i + 1 && candidate == WithCollisionSuffix(files[i].original, suffix)
    requires forall k :: 1 <= k < suffix ==> WithCollisionSuffix(files[i].original, k) in Used(names)
    ensures NamesOk(files, names + [candidate]) && Used(names + [candidate]) == Used(names) + {candidate}
  {
    var names' := names + [candidate];
    assert names'[|names|] == candidate;
    forall k | 0 <= k < |names| ensures names'[k] == names[k] && names[k] != candidate {
      assert names[k] in Used(names);
    }
    forall k | 0 <= k < |names'|
      ensures SafeComponent(names'[k]) && exists n :: 1 <= n <= k + 1 && Chosen(files[k].original, names'[..k], names'[k], n)
    {
      assert names'[..k] == names[..k];
      if k == |names| {
        assert names[..k] == names;
        assert Chosen(files[k].original, names, candidate, suffix);
      } else {
        var n :| 1 <= n <= k + 1 && Chosen(files[k].original, names[..k], names[k], n);
      }
    }
  }

  function SafeNames(files: seq<UploadFile>): (names: seq<string>)
    ensures |names| == |files| && forall k :: 0 <= k < |files| ==> names[k] == files[k].safeName
  {
    seq(|files|, k requires 0 <= k < |files| => files[k].safeName)
  }

  /** The rows of a session's files as they are inserted, with the names the request determines. */
  ghost predicate Opened(files: seq<UploadRequest>, s: UploadSession) {
    && |s.files| == |files| && NamesOk(files, SafeNames(s.files)) && s.expectedTotal == Sum(files, SizeOf) && s.receivedTotal == 0
    && forall k :: 0 <= k < |files| ==>
         && s.files[k].original == files[k].original && s.files[k].expected == files[k].size
         && s.files[k].client == files[k].client && s.files[k].state == Pending && s.files[k].received == 0
         && s.files[k].server.None?
  }

  function RowFor(f: UploadRequest, name: string, id: string): UploadFile {
    UploadFile(id, f.original, name, f.size, 0, f.client, None, Pending)
  }

  predicate Inserted(files: seq<UploadRequest>, names: seq<string>, rows: seq<UploadFile>) {
    && |rows| <= |files| && |names| == |files|
    && (forall k :: 0 <= k < |rows| ==> rows[k] == RowFor(files[k], names[k], rows[k].id))
    && (forall j, k :: 0 <= j < k < |rows| ==> rows[j].id != rows[k].id)
  }

  method InsertFiles(files: seq<UploadRequest>, names: seq<string>, ids: seq<string>) returns (r: Outcome<seq<UploadFile>>)
    requires |names| == |files| == |ids|
    ensures r.Ok? ==> |r.value| == |files| && Inserted(files, names, r.value)
    ensures r.Err? ==> r.code == IoError
  {
    var rows: seq<UploadFile> := [];
    for i := 0 to |files|
      invariant |rows| == i && Inserted(files, names, rows)
    {
      var broken: bool := *;
      if broken || exists k :: 0 <= k < |rows| && rows[k].id == ids[i] {
        return Err(IoError);
      }
      rows := rows + [RowFor(files[i], names[i], ids[i])];
    }
    return Ok(rows);
  }

  lemma {:induction false} RowsExpect(files: seq<UploadRequest>, names: seq<string>, rows: seq<UploadFile>)
    requires Inserted(files, names, rows) && |rows| == |files|
    ensures Sum(rows, ExpectedOf) == Sum(files, SizeOf) && Sum(rows, ReceivedOf) == 0
    decreases |files|
  {
    if files != [] {
      var last := |files| - 1;
      RowsExpect(files[..last], names[..last], rows[..last]);
    }
  }

  lemma {:induction false} OpenedOk(files: seq<UploadRequest>, s: UploadSession, names: seq<string>)
    requires files != [] && |names| == |files| && NamesOk(files, names) && Inserted(files, names, s.files) && |s.files| == |files|
    requires s.expectedTotal == Sum(files, SizeOf) && s.receivedTotal == 0 && s.state == Open
    ensures SessionOk(s) && Opened(files, s)
  {
    RowsExpect(files, names, s.files);
    assert SafeNames(s.files) == names;
  }

  lemma {:induction false} AppendSession(sessions: seq<UploadSession>, quota: UploadQuota, s: UploadSession)
    requires StoreOk(sessions, quota) && SessionOk(s) && Sum(sessions, TotalOf) + s.expectedTotal <= quota.maxReserved
    requires forall i :: 0 <= i < |sessions| ==> sessions[i].id != s.id
    ensures StoreOk(sessions + [s], quota) && Grows(sessions, sessions + [s])
  {
    SumAppend(sessions, TotalOf, s);
    forall i | 0 <= i < |sessions| ensures SessionGrows(sessions[i], (sessions + [s])[i]) {
    }
  }

  lemma SessionShape(before: seq<UploadSession>, after: seq<UploadSession>, i: nat)
    requires Grows(before, after) && i < |before|
    ensures |after[i].files| == |before[i].files| && after[i].id == before[i].id
  {
    assert SessionGrows(before[i], after[i]);
  }

  lemma ResolvedMore(
    s: UploadSession, t: UploadSession, n: nat, finals: map<(string, string), Bytes>, hash: HashFunction, faulted: bool)
    requires ResolvedTo(s, t, n, finals, hash, faulted)
    ensures ResolvedTo(s, t, n, finals, hash, true)
  {
  }

  lemma ResolvedSkip(
    s: UploadSession, t: UploadSession, k: nat, finals: map<(string, string), Bytes>, hash: HashFunction, faulted: bool)
    requires ResolvedTo(s, t, k, finals, hash, faulted) && k < |s.files| && s.files[k].state != Receiving
    ensures ResolvedTo(s, t, k + 1, finals, hash, faulted)
  {
  }

  lemma ResolvedNext(
    s: UploadSession, before: seq<UploadSession>, after: seq<UploadSession>, i: nat, k: nat,
    finals: map<(string, string), Bytes>, hash: HashFunction, was: bool, f: bool)
    requires i < |before| && k < |before[i].files| && ResolvedTo(s, before[i], k, finals, hash, was)
    requires exists g :: Resolved(before[i], before[i].files[k], g, finals, hash, f) && after == Replaced(before, i, k, g)
    ensures |after| == |before| && ResolvedTo(s, after[i], k + 1, finals, hash, was || f)
    ensures forall j :: 0 <= j < |after| && j != i ==> after[j] == before[j]
  {
  }

  lemma ResolvedSome(
    first: seq<UploadSession>, before: seq<UploadSession>, after: seq<UploadSession>, i: nat,
    finals: map<(string, string), Bytes>, hash: HashFunction, was: bool, f: bool, whole: bool)
    requires |first| == |before| == |after| && i < |before| && before[i] == first[i]
    requires forall j :: 0 <= j < |after| && j != i ==> after[j] == before[j]
    requires forall j :: 0 <= j < i ==> ResolvedTo(first[j], before[j], |first[j].files|, finals, hash, was)
    requires forall j :: i <= j < |before| ==> before[j] == first[j]
    requires ResolvedFront(before[i], after[i], whole, finals, hash, f)
    ensures forall j :: 0 <= j < |after| ==> ResolvedFront(first[j], after[j], false, finals, hash, was || f)
    ensures forall j :: 0 <= j <= i && whole ==> ResolvedTo(first[j], after[j], |first[j].files|, finals, hash, was || f)
    ensures forall j :: i < j < |after| ==> after[j] == first[j]
  {
    var n: nat :| (whole ==> n == |before[i].files|) && ResolvedTo(before[i], after[i], n, finals, hash, f);
    forall j | 0 <= j < |after| ensures ResolvedFront(first[j], after[j], false, finals, hash, was || f) {
      if j < i {
        assert ResolvedTo(first[j], before[j], |first[j].files|, finals, hash, was);
        assert ResolvedTo(first[j], after[j], |first[j].files|, finals, hash, was || f);
      } else if j == i {
        assert ResolvedTo(first[j], after[j], n, finals, hash, was || f);
      } else {
        assert ResolvedTo(first[j], after[j], 0, finals, hash, was || f);
      }
    }
  }

  lemma ResolvedIsSettled(
    s: UploadSession, t: UploadSession, finals: map<(string, string), Bytes>, hash: HashFunction, faulted: bool)
    requires ResolvedTo(s, t, |s.files|, finals, hash, faulted)
    ensures Settled(t, |t.files|)
  {
    forall k | 0 <= k < |t.files| ensures t.files[k].state != Receiving {
      assert Resolved(s, s.files[k], t.files[k], finals, hash, faulted);
    }
  }

  lemma GrowsSelf(s: seq<UploadSession>)
    ensures Grows(s, s)
  {
  }
}
