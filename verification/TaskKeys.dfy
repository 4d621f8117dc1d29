/** Task keys (TaskKeyFor in src/model/task.cpp) and the task derived from a plan asset (TaskSpecForPlanAsset in
    src/pipeline/pipeline_shared.cpp). */
module TaskKeys {
  import opened Common
  import opened Tasks
  import opened TempNames
  import opened SelfDelimiting
  import opened CanonicalPlan
  import Digests

  const TASK_KEY_VERSION := "PB_TASK_V1"

  function TaskTypeName(kind: TaskType): string {
    match kind
    case MigrateFile => "MIGRATE_FILE"
    case WriteAssetManifest => "WRITE_ASSET_MANIFEST"
    case WriteRelationIndex => "WRITE_RELATION_INDEX"
    case VerifyAsset => "VERIFY_ASSET"
    case WriteReport => "WRITE_REPORT"
  }

  function OptionalBytes(s: Option<string>): string {
    if s.Some? then Flag(true) + Prefixed(s.value) else Flag(false)
  }

  /** What a key depends on: asset, type, target and source asset. */
  function KeyPayload(t: TaskSpec): string {
    TASK_KEY_VERSION
    + (Prefixed(t.assetId) + (Prefixed(TaskTypeName(t.kind)) + (Prefixed(t.target) + OptionalBytes(t.sourceAssetId))))
  }

  function KeyOf(hash: HashFunction, t: TaskSpec): string {
    "task-" + Digests.Hex(hash(AsBytes(KeyPayload(t))))
  }

  lemma KeyExamples(hash: HashFunction, a: PlanAsset)
    ensures var t := SpecFor(hash, a);
            && t.kind == MigrateFile && t.assetId == a.logicalId && t.sourceAssetId == Some(a.sourceId)
            && t.target == a.targetPath && t.estimatedBytes == a.identity.size && t.expectedDigest == None && t.key == t.id
            && t.id == "task-" + Digests.Hex(hash(AsBytes(KeyPayload(t))))
    ensures a.logicalId == "l" && a.sourceId == "s1" && a.targetPath == "x.jpg" ==>
              KeyPayload(SpecFor(hash, a))
              == "PB_TASK_V1" + ((U64(1) + "l") + ((U64(12) + "MIGRATE_FILE") + ((U64(5) + "x.jpg") + ("\U{1}" + (U64(2) + "s1")))))
  {
    hide Bytes64;
  }

  method AppendOptionalString(value: Option<string>, output: string) returns (out: string)
    ensures out == output + OptionalBytes(value)
  {
    out := output + Flag(value.Some?);
    if value.Some? {
      out := AppendLengthPrefixed(value.value, out);
      Appended2(output, Flag(true), Prefixed(value.value));
    }
  }

  method TaskKeyFor(hash: HashFunction, t: TaskSpec) returns (key: Outcome<string>)
    ensures key.Ok? <==> t.assetId != "" && t.target != "" && t.sourceAssetId != Some("")
    ensures key == if key.Ok? then Ok(KeyOf(hash, t)) else Err(InvalidArgument)
  {
    if t.assetId == "" || t.target == "" || t.sourceAssetId == Some("") {
      return Err(InvalidArgument);
    }
    var payload := TASK_KEY_VERSION;
    payload := AppendLengthPrefixed(t.assetId, payload);
    payload := AppendLengthPrefixed(TaskTypeName(t.kind), payload);
    payload := AppendLengthPrefixed(t.target, payload);
    payload := AppendOptionalString(t.sourceAssetId, payload);
    Appended4(TASK_KEY_VERSION, Prefixed(t.assetId), Prefixed(TaskTypeName(t.kind)), Prefixed(t.target),
              OptionalBytes(t.sourceAssetId));
    var hex := Digests.ToHex(hash(AsBytes(payload)));
    return Ok("task-" + hex);
  }

  // ---------------------------------------------------------------- keys tell tasks apart

  lemma NamesDiffer(a: TaskType, b: TaskType)
    requires TaskTypeName(a) == TaskTypeName(b)
    ensures a == b
  {
    assert |TaskTypeName(MigrateFile)| == 12 == |TaskTypeName(VerifyAsset)| == |TaskTypeName(WriteReport)|;
    assert TaskTypeName(MigrateFile)[0] == 'M' && TaskTypeName(VerifyAsset)[0] == 'V' && TaskTypeName(WriteReport)[0] == 'W';
    assert |TaskTypeName(WriteAssetManifest)| == 20 == |TaskTypeName(WriteRelationIndex)|;
    assert TaskTypeName(WriteAssetManifest)[6] == 'A' && TaskTypeName(WriteRelationIndex)[6] == 'R';
  }

  predicate KeyInRange(t: TaskSpec) {
    && IsU64(|t.assetId|) && IsU64(|t.target|) && (t.sourceAssetId.Some? ==> IsU64(|t.sourceAssetId.value|))
    && IsByteString(t.assetId) && IsByteString(t.target) && (t.sourceAssetId.Some? ==> IsByteString(t.sourceAssetId.value))
  }

  lemma OptionalSplits(a: Option<string>, b: Option<string>)
    requires (a.Some? ==> IsU64(|a.value|)) && (b.Some? ==> IsU64(|b.value|)) && OptionalBytes(a) == OptionalBytes(b)
    ensures a == b
  {
    assert OptionalBytes(a)[0] == OptionalBytes(b)[0];
    if a.Some? {
      var x, y := Prefixed(a.value), Prefixed(b.value);
      SplitFront(Flag(true), Flag(true), x, y);
      assert x + "" == x && y + "" == y;
      PrefixedSplits(a.value, b.value, "", "");
    }
  }

  lemma KeyPayloadInjective(t: TaskSpec, u: TaskSpec)
    requires KeyInRange(t) && KeyInRange(u) && KeyPayload(t) == KeyPayload(u)
    ensures t.assetId == u.assetId && t.kind == u.kind && t.target == u.target && t.sourceAssetId == u.sourceAssetId
  {
    var t3, u3 := OptionalBytes(t.sourceAssetId), OptionalBytes(u.sourceAssetId);
    var t2, u2 := Prefixed(t.target) + t3, Prefixed(u.target) + u3;
    var t1, u1 := Prefixed(TaskTypeName(t.kind)) + t2, Prefixed(TaskTypeName(u.kind)) + u2;
    SplitFront(TASK_KEY_VERSION, TASK_KEY_VERSION, Prefixed(t.assetId) + t1, Prefixed(u.assetId) + u1);
    PrefixedSplits(t.assetId, u.assetId, t1, u1);
    PrefixedSplits(TaskTypeName(t.kind), TaskTypeName(u.kind), t2, u2);
    PrefixedSplits(t.target, u.target, t3, u3);
    NamesDiffer(t.kind, u.kind);
    OptionalSplits(t.sourceAssetId, u.sourceAssetId);
  }

  lemma {:induction false} Bytes64IsByteString(v: int, n: nat)
    ensures IsByteString(Bytes64(v, n))
    decreases n
  {
    if n > 0 {
      Bytes64IsByteString(v / 256, n - 1);
    }
  }

  lemma PrefixedIsByteString(s: string)
    requires IsByteString(s)
    ensures IsByteString(Prefixed(s))
  {
    Bytes64IsByteString(|s|, 8);
  }

  lemma TypeNameIsByteString(kind: TaskType)
    ensures IsByteString(TaskTypeName(kind))
  {
  }

  lemma JoinIsByteString(a: string, b: string)
    requires IsByteString(a) && IsByteString(b)
    ensures IsByteString(a + b)
  {
  }

  lemma PayloadIsByteString(t: TaskSpec)
    requires KeyInRange(t)
    ensures IsByteString(KeyPayload(t))
  {
    PrefixedIsByteString(t.assetId);
    TypeNameIsByteString(t.kind);
    PrefixedIsByteString(TaskTypeName(t.kind));
    PrefixedIsByteString(t.target);
    var o := OptionalBytes(t.sourceAssetId);
    if t.sourceAssetId.Some? {
      PrefixedIsByteString(t.sourceAssetId.value);
      JoinIsByteString(Flag(true), Prefixed(t.sourceAssetId.value));
    }
    JoinIsByteString(Prefixed(t.target), o);
    JoinIsByteString(Prefixed(TaskTypeName(t.kind)), Prefixed(t.target) + o);
    JoinIsByteString(Prefixed(t.assetId), Prefixed(TaskTypeName(t.kind)) + (Prefixed(t.target) + o));
    JoinIsByteString(TASK_KEY_VERSION, Prefixed(t.assetId) + (Prefixed(TaskTypeName(t.kind)) + (Prefixed(t.target) + o)));
  }

  /** Two tasks with the same key concern the same asset, type, target and source, unless the hash collides. */
  lemma KeysDistinct(hash: HashFunction, t: TaskSpec, u: TaskSpec)
    requires KeyInRange(t) && KeyInRange(u) && KeyOf(hash, t) == KeyOf(hash, u)
    ensures || (t.assetId == u.assetId && t.kind == u.kind && t.target == u.target && t.sourceAssetId == u.sourceAssetId)
            || Collides(hash, AsBytes(KeyPayload(t)), AsBytes(KeyPayload(u)))
  {
    var x, y := AsBytes(KeyPayload(t)), AsBytes(KeyPayload(u));
    assert KeyOf(hash, t)[5..] == Digests.Hex(hash(x)) && KeyOf(hash, u)[5..] == Digests.Hex(hash(y));
    Digests.HexInjective(hash(x), hash(y));
    if x == y {
      PayloadIsByteString(t);
      PayloadIsByteString(u);
      AsBytesInjective(KeyPayload(t), KeyPayload(u));
      KeyPayloadInjective(t, u);
    }
  }

  /** TaskSpecForPlanAsset: the migration task of one plan asset; its key is its id. */
  function SpecFor(hash: HashFunction, a: PlanAsset): TaskSpec {
    var draft := TaskSpec("", "", MigrateFile, a.logicalId, Some(a.sourceId), a.targetPath, a.identity.size, None);
    draft.(id := KeyOf(hash, draft), key := KeyOf(hash, draft))
  }

  /** The assets of a valid plan give tasks with different ids, unless the hash collides; so the order in which a run
      works through them has no repetition. */
  lemma PlanTasksDistinct(hash: HashFunction, p: PlanInput, i: nat, j: nat)
    requires InputValid(p) && i < j < |p.assets| && KeyInRange(SpecFor(hash, p.assets[i])) && KeyInRange(SpecFor(hash, p.assets[j]))
    ensures var s, t := SpecFor(hash, p.assets[i]), SpecFor(hash, p.assets[j]);
            s.id != t.id || Collides(hash, AsBytes(KeyPayload(s)), AsBytes(KeyPayload(t)))
  {
    var s, t := SpecFor(hash, p.assets[i]), SpecFor(hash, p.assets[j]);
    if s.id == t.id {
      KeysDistinct(hash, s, t);
    }
  }
}
