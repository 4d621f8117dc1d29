/** The canonical plan of src/model/canonical_plan.cpp: validation, the canonical order of assets and the length-prefixed
    payload that is hashed. */
module CanonicalPlan {
  import opened Common
  import opened StringOrder
  import opened Sorting
  import opened SelfDelimiting
  import opened Tasks
  import Decimal
  import LogicalAssets

  datatype Capability = Capability(kind: nat, level: nat, representation: string, reason: string)
  datatype TargetCapabilities = TargetCapabilities(version: string, entries: seq<Capability>)
  datatype MigrationPolicy = MigrationPolicy(
    targetPrefix: string, preserveDirectories: bool, maxComponentBytes: nat, maxPathBytes: nat)
  datatype PlanAsset = PlanAsset(
    logicalId: string, sourceId: string, sourcePath: string, targetPath: string, identity: FileIdentity)
  datatype PlanInput = PlanInput(
    manifestId: string, manifestDigest: Digest, targetRoot: string, capabilities: TargetCapabilities,
    policy: MigrationPolicy, assets: seq<PlanAsset>)

  const FORMAT_VERSION := 1
  const PLAN_DOMAIN := "PB_CANONICAL_MINIMAL_PLAN_V1"
  const CAPABILITY_KINDS := 8
  const SUPPORT_LEVELS := 6

  // ---------------------------------------------------------------- relative paths

  function Components(s: string): seq<string> {
    if '/' !in s then [s]
    else
      var k := FirstSlash(s);
      [s[..k]] + Components(s[k + 1..])
  }

  function FirstSlash(s: string): (k: nat)
    requires '/' in s
    ensures k < |s| && s[k] == '/'
  {
    if s[0] == '/' then 0 else 1 + FirstSlash(s[1..])
  }

  /** s[i..j] is the text between two neighbouring slashes, or an end of `s` in place of one. */
  predicate Between(s: string, i: nat, j: nat) {
    && i <= j <= |s| && (i == 0 || s[i - 1] == '/') && (j == |s| || s[j] == '/')
    && forall m :: i <= m < j ==> s[m] != '/'
  }

  ghost predicate HasPiece(s: string, c: string) {
    exists i: nat, j: nat :: Between(s, i, j) && s[i..j] == c
  }

  lemma {:induction false} FirstSlashIsFirst(s: string)
    requires '/' in s
    ensures forall m :: 0 <= m < FirstSlash(s) ==> s[m] != '/'
    decreases |s|
  {
    if s[0] != '/' {
      FirstSlashIsFirst(s[1..]);
      forall m | 0 <= m < FirstSlash(s) ensures s[m] != '/' {
        assert m > 0 ==> s[m] == s[1..][m - 1];
      }
    }
  }

  /** A piece is the one before the first slash or a piece of what follows it. */
  lemma PiecesAroundSlash(s: string, c: string, k: nat)
    requires k < |s| && s[k] == '/' && forall m :: 0 <= m < k ==> s[m] != '/'
    ensures HasPiece(s, c) <==> c == s[..k] || HasPiece(s[k + 1..], c)
  {
    var rest := s[k + 1..];
    assert Between(s, 0, k) && s[0..k] == s[..k];
    if HasPiece(rest, c) {
      var i: nat, j: nat :| Between(rest, i, j) && rest[i..j] == c;
      PieceShifts(s, i, j, k);
    }
    if HasPiece(s, c) && c != s[..k] {
      var i: nat, j: nat :| Between(s, i, j) && s[i..j] == c;
      assert i > k;
      PieceShifts(s, i - k - 1, j - k - 1, k);
    }
  }

  lemma PieceShifts(s: string, i: nat, j: nat, k: nat)
    requires k < |s| && s[k] == '/' && i <= j <= |s| - k - 1
    ensures Between(s[k + 1..], i, j) <==> Between(s, i + k + 1, j + k + 1)
    ensures s[k + 1..][i..j] == s[i + k + 1..j + k + 1]
  {
    var rest := s[k + 1..];
    assert forall m :: 0 <= m < |rest| ==> rest[m] == s[m + k + 1];
    if Between(rest, i, j) {
      forall m | i + k + 1 <= m < j + k + 1 ensures s[m] != '/' {
        assert rest[m - k - 1] == s[m];
      }
    }
  }

  /** The components are the texts between slashes. */
  lemma {:induction false} ComponentsExactly(s: string, c: string)
    ensures c in Components(s) <==> HasPiece(s, c)
    decreases |s|
  {
    hide HasPiece, Components;
    ComponentsStep(s, c);
    if '/' in s {
      var k := FirstSlash(s);
      FirstSlashIsFirst(s);
      ComponentsExactly(s[k + 1..], c);
      PiecesAroundSlash(s, c, k);
    } else {
      OnePiece(s, c);
    }
  }

  lemma ComponentsStep(s: string, c: string)
    ensures c in Components(s) <==>
              if '/' in s then c == s[..FirstSlash(s)] || c in Components(s[FirstSlash(s) + 1..]) else c == s
  {
  }

  lemma OnePiece(s: string, c: string)
    requires '/' !in s
    ensures HasPiece(s, c) <==> c == s
  {
    assert Between(s, 0, |s|) && s[0..|s|] == s;
    if HasPiece(s, c) {
      var i: nat, j: nat :| Between(s, i, j) && s[i..j] == c;
      assert i == 0 && j == |s|;
    }
  }

  /** What RelativePath::Parse accepts. */
  predicate IsRelativePath(s: string) {
    && s != "" && NulFree(s) && s[0] != '/'
    && forall c :: c in Components(s) ==> c != "" && c != "." && c != ".."
  }

  // ---------------------------------------------------------------- validation

  /** TargetCapabilities::Validate: known kinds in strictly increasing order, so none is repeated. */
  predicate CapabilitiesValid(c: TargetCapabilities) {
    && c.version != "" && c.entries != []
    && (forall i :: 0 <= i < |c.entries| ==>
          c.entries[i].kind < CAPABILITY_KINDS && c.entries[i].level < SUPPORT_LEVELS
          && c.entries[i].representation != "" && c.entries[i].reason != "")
    && (forall i :: 0 < i < |c.entries| ==> c.entries[i - 1].kind < c.entries[i].kind)
  }

  predicate PolicyValid(p: MigrationPolicy) {
    p.maxComponentBytes > 0 && p.maxPathBytes > 0 && (p.targetPrefix != "" ==> IsRelativePath(p.targetPrefix))
  }

  predicate AssetValid(a: PlanAsset) {
    a.logicalId != "" && a.sourceId != "" && a.sourcePath != "" && a.targetPath != ""
  }

  predicate InputValid(p: PlanInput) {
    && ValidId(p.manifestId) && ValidId(p.targetRoot)
    && CapabilitiesValid(p.capabilities) && PolicyValid(p.policy)
    && (forall i :: 0 <= i < |p.assets| ==> AssetValid(p.assets[i]))
    && (forall i, j :: 0 <= i < j < |p.assets| ==> p.assets[i].logicalId != p.assets[j].logicalId)
    && (forall i, j :: 0 <= i < j < |p.assets| ==> p.assets[i].sourceId != p.assets[j].sourceId)
  }

  predicate AssetLe(a: PlanAsset, b: PlanAsset) {
    if a.logicalId != b.logicalId then Le(a.logicalId, b.logicalId) else Le(a.sourceId, b.sourceId)
  }

  /** The canonical form: assets by logical id, then source id. */
  function Canonical(p: PlanInput): PlanInput {
    p.(assets := Sort(AssetLe, p.assets))
  }

  /** The capability loop, with its table of kinds already seen. */
  method ValidateCapabilities(c: TargetCapabilities) returns (status: Status)
    ensures status == if CapabilitiesValid(c) then Ok(()) else Err(InvalidArgument)
  {
    if c.version == "" || |c.entries| == 0 {
      return Err(InvalidArgument);
    }
    var seen: set<nat> := {};
    var previous := 0;
    for i := 0 to |c.entries|
      invariant CapabilitiesValid(c.(entries := c.entries[..i])) || i == 0
      invariant i > 0 ==> previous == c.entries[i - 1].kind
      invariant forall k :: k in seen ==> i > 0 && k <= previous
    {
      var entry := c.entries[i];
      if entry.kind >= CAPABILITY_KINDS || entry.level >= SUPPORT_LEVELS || entry.kind in seen
         || (i > 0 && entry.kind <= previous) || entry.representation == "" || entry.reason == "" {
        return Err(InvalidArgument);
      }
      seen := seen + {entry.kind};
      previous := entry.kind;
    }
    assert c.entries[..|c.entries|] == c.entries;
    return Ok(());
  }

  method HasRepeat(ids: seq<string>) returns (repeated: bool)
    ensures repeated <==> exists i, j :: 0 <= i < j < |ids| && ids[i] == ids[j]
  {
    LogicalAssets.AdjacentMeansRepeated(ids);
    repeated := LogicalAssets.HasAdjacentEqual(Sort(Le, ids));
  }

  /** CanonicalMinimalPlan::Build: a valid input with its assets in increasing order of their logical ids, or an error. */
  method Build(p: PlanInput) returns (plan: Outcome<PlanInput>)
    ensures plan == if InputValid(p) then Ok(Canonical(p)) else Err(InvalidArgument)
    ensures plan.Ok? <==>
              && p.manifestId != "" && '\0' !in p.manifestId && p.targetRoot != "" && '\0' !in p.targetRoot
              && CapabilitiesValid(p.capabilities)
              && p.policy.maxComponentBytes > 0 && p.policy.maxPathBytes > 0
              && (p.policy.targetPrefix != "" ==> IsRelativePath(p.policy.targetPrefix))
              && (forall i :: 0 <= i < |p.assets| ==>
                    p.assets[i].logicalId != "" && p.assets[i].sourceId != "" && p.assets[i].sourcePath != ""
                    && p.assets[i].targetPath != "")
              && (forall i, j :: 0 <= i < j < |p.assets| ==>
                    p.assets[i].logicalId != p.assets[j].logicalId && p.assets[i].sourceId != p.assets[j].sourceId)
    ensures plan.Ok? ==>
              var q := plan.value;
              && q.manifestId == p.manifestId && q.manifestDigest == p.manifestDigest && q.targetRoot == p.targetRoot
              && q.capabilities == p.capabilities && q.policy == p.policy
              && |q.assets| == |p.assets| && multiset(q.assets) == multiset(p.assets)
              && forall i, j :: 0 <= i < j < |q.assets| ==> Lt(q.assets[i].logicalId, q.assets[j].logicalId)
  {
    if !ValidId(p.manifestId) || !ValidId(p.targetRoot) {
      return Err(InvalidArgument);
    }
    var status := ValidateCapabilities(p.capabilities);
    if status.Err? {
      return Err(status.code);
    }
    if !PolicyValid(p.policy) {
      return Err(InvalidArgument);
    }
    var logicalIds: seq<string>, sourceIds: seq<string> := [], [];
    for i := 0 to |p.assets|
      invariant |logicalIds| == |sourceIds| == i
      invariant forall k :: 0 <= k < i ==>
                  AssetValid(p.assets[k]) && logicalIds[k] == p.assets[k].logicalId && sourceIds[k] == p.assets[k].sourceId
    {
      if !AssetValid(p.assets[i]) {
        return Err(InvalidArgument);
      }
      logicalIds := logicalIds + [p.assets[i].logicalId];
      sourceIds := sourceIds + [p.assets[i].sourceId];
    }
    var repeated := HasRepeat(logicalIds);
    if repeated {
      return Err(InvalidArgument);
    }
    repeated := HasRepeat(sourceIds);
    if repeated {
      return Err(InvalidArgument);
    }
    CanonicalIncreases(p);
    return Ok(Canonical(p));
  }

  /** The canonical form of a valid plan lists the same assets by increasing logical id. */
  lemma CanonicalIncreases(p: PlanInput)
    requires InputValid(p)
    ensures var assets := Canonical(p).assets;
            && multiset(assets) == multiset(p.assets) && |assets| == |p.assets|
            && forall i, j :: 0 <= i < j < |assets| ==> Lt(assets[i].logicalId, assets[j].logicalId)
  {
    var assets := Canonical(p).assets;
    AssetLeTotal();
    SortSorts(AssetLe, p.assets);
    SortPermutes(AssetLe, p.assets);
    SameMembers(assets, p.assets);
    SameAssetSets(p, Canonical(p));
    forall i, j | 0 <= i < j < |assets| ensures Lt(assets[i].logicalId, assets[j].logicalId) {
      assert AssetLe(assets[i], assets[j]);
    }
  }

  lemma AssetLeTotal()
    ensures TotalOrder(AssetLe)
  {
    forall a, b ensures AssetLe(a, b) || AssetLe(b, a) {
      LeTotal(a.logicalId, b.logicalId);
      LeTotal(a.sourceId, b.sourceId);
    }
    forall a, b, c | AssetLe(a, b) && AssetLe(b, c) ensures AssetLe(a, c) {
      AssetLeTransitive(a, b, c);
    }
  }

  lemma AssetLeTransitive(a: PlanAsset, b: PlanAsset, c: PlanAsset)
    requires AssetLe(a, b) && AssetLe(b, c)
    ensures AssetLe(a, c)
  {
    if a.logicalId != b.logicalId && b.logicalId != c.logicalId {
      LeTransitive(a.logicalId, b.logicalId, c.logicalId);
      if a.logicalId == c.logicalId {
        LeAntisymmetric(a.logicalId, b.logicalId);
      }
    } else if a.logicalId == b.logicalId == c.logicalId {
      LeTransitive(a.sourceId, b.sourceId, c.sourceId);
    }
  }

  lemma ByLogicalId(s: seq<PlanAsset>, a: PlanAsset, b: PlanAsset)
    requires forall i, j :: 0 <= i < j < |s| ==> s[i].logicalId != s[j].logicalId
    requires a in s && b in s && AssetLe(a, b) && AssetLe(b, a)
    ensures a == b
  {
    if a.logicalId != b.logicalId {
      LeAntisymmetric(a.logicalId, b.logicalId);
    }
  }

  lemma SameAssetSets(p: PlanInput, q: PlanInput)
    requires multiset(p.assets) == multiset(q.assets) && InputValid(p) && q == p.(assets := q.assets)
    ensures InputValid(q)
  {
    SameMembers(p.assets, q.assets);
    DistinctCounts(p.assets);
    forall i | 0 <= i < |q.assets| ensures AssetValid(q.assets[i]) {
      assert q.assets[i] in p.assets;
    }
    forall i, j | 0 <= i < j < |q.assets|
      ensures q.assets[i].logicalId != q.assets[j].logicalId && q.assets[i].sourceId != q.assets[j].sourceId
    {
      assert q.assets[i] in q.assets && q.assets[j] in q.assets;
      if q.assets[i] == q.assets[j] {
        TwiceCounts(q.assets, i, j);
      }
    }
  }

  /** The plan does not depend on the order in which assets come in: a permuted input is valid exactly when the input is,
      and has the same canonical form, hence the same payload. */
  lemma PermutationInvariant(p: PlanInput, q: PlanInput)
    requires multiset(p.assets) == multiset(q.assets) && q == p.(assets := q.assets)
    ensures InputValid(p) <==> InputValid(q)
    ensures InputValid(p) ==> Canonical(p) == Canonical(q) && Payload(Canonical(p)) == Payload(Canonical(q))
  {
    if InputValid(p) {
      SameAssetSets(p, q);
      AssetLeTotal();
      forall a, b | a in p.assets && b in p.assets && AssetLe(a, b) && AssetLe(b, a) ensures a == b {
        ByLogicalId(p.assets, a, b);
      }
      SortInvariant(AssetLe, p.assets, q.assets);
    } else if InputValid(q) {
      assert p == q.(assets := p.assets);
      SameAssetSets(q, p);
    }
  }

  // ---------------------------------------------------------------- the payload

  /** AppendUint64: eight bytes, lowest first, of the value modulo 2^64. */
  function Bytes64(v: int, n: nat): (s: string)
    ensures |s| == n
    decreases n
  {
    if n == 0 then "" else [(v % 256) as char] + Bytes64(v / 256, n - 1)
  }

  function U64(v: int): string {
    Bytes64(v, 8)
  }

  /** The number whose eight bytes, lowest first, are those of the text. */
  function LowestFirst(b: string): int
    requires |b| == 8
  {
    b[0] as int + 0x100 * b[1] as int + 0x1_0000 * b[2] as int + 0x100_0000 * b[3] as int + 0x1_0000_0000 * b[4] as int
    + 0x100_0000_0000 * b[5] as int + 0x1_0000_0000_0000 * b[6] as int + 0x100_0000_0000_0000 * b[7] as int
  }

  predicate AreBytes(b: string) {
    forall k :: 0 <= k < |b| ==> b[k] as int < 256
  }

  lemma Bytes64First(v: int, n: nat)
    requires n > 0
    ensures var b := Bytes64(v, n);
            b[0] as int == v % 256 && b[1..] == Bytes64(v / 256, n - 1) && v == 256 * (v / 256) + b[0] as int
  {
  }

  /** The eight bytes make up the number, of a negative one its two's complement. */
  lemma U64Exactly(v: int)
    ensures AreBytes(U64(v)) && (v - LowestFirst(U64(v))) % UINT64_LIMIT == 0
  {
    hide Bytes64;
    var v1 := v / 256;
    var v2 := v1 / 256;
    var v3 := v2 / 256;
    var v4 := v3 / 256;
    var v5 := v4 / 256;
    var v6 := v5 / 256;
    var v7 := v6 / 256;
    Bytes64First(v, 8);
    Bytes64First(v1, 7);
    Bytes64First(v2, 6);
    Bytes64First(v3, 5);
    Bytes64First(v4, 4);
    Bytes64First(v5, 3);
    Bytes64First(v6, 2);
    Bytes64First(v7, 1);
    var b := U64(v);
    assert b[1] == Bytes64(v1, 7)[0] && b[2] == Bytes64(v2, 6)[0] && b[3] == Bytes64(v3, 5)[0] && b[4] == Bytes64(v4, 4)[0];
    assert b[5] == Bytes64(v5, 3)[0] && b[6] == Bytes64(v6, 2)[0] && b[7] == Bytes64(v7, 1)[0];
    assert v - LowestFirst(b) == UINT64_LIMIT * (v7 / 256);
  }

  function Prefixed(s: string): string {
    U64(|s|) + s
  }

  function Flag(b: bool): string {
    if b then [1 as char] else [0 as char]
  }

  function Mount(m: Option<int>): string {
    if m.Some? then Flag(true) + U64(m.value) else Flag(false)
  }

  function IdentityBytes(i: FileIdentity): string {
    U64(i.device) + (U64(i.inode) + (U64(i.size) + (U64(i.mtimeNs) + (U64(i.ctimeNs) + Mount(i.mountId)))))
  }

  function CapabilityBytes(c: Capability): string {
    U64(c.kind) + (U64(c.level) + (Prefixed(c.representation) + Prefixed(c.reason)))
  }

  function AssetBytes(a: PlanAsset): string {
    Prefixed(a.logicalId) + (Prefixed(a.sourceId) + (Prefixed(a.sourcePath) + (Prefixed(a.targetPath) + IdentityBytes(a.identity))))
  }

  function DigestChars(d: Digest): string {
    seq(|d|, i requires 0 <= i < |d| => d[i] as int as char)
  }

  function SourceBytes(p: PlanInput): string {
    Prefixed(PLAN_DOMAIN) + (U64(FORMAT_VERSION) + (Prefixed(p.manifestId) + (DigestChars(p.manifestDigest)
    + Prefixed(p.targetRoot))))
  }

  function TargetBytes(p: PlanInput): string {
    Prefixed(p.capabilities.version) + (Prefixed(p.policy.targetPrefix) + (Flag(p.policy.preserveDirectories)
    + (U64(p.policy.maxComponentBytes) + U64(p.policy.maxPathBytes))))
  }

  function Payload(p: PlanInput): string {
    SourceBytes(p) + (TargetBytes(p) + (U64(|p.capabilities.entries|) + (Concat(CapabilityBytes, p.capabilities.entries)
    + (U64(|p.assets|) + Concat(AssetBytes, p.assets)))))
  }

  lemma Bytes64Next(out: string, v: int, n: nat)
    requires n > 0
    ensures out + Bytes64(v, n) == (out + [(v % 256) as char]) + Bytes64(v / 256, n - 1)
  {
  }

  method AppendUint64(value: int, output: string) returns (out: string)
    ensures out == output + U64(value)
  {
    hide Bytes64;
    out := output;
    var rest := value;
    for index := 0 to 8
      invariant out + Bytes64(rest, 8 - index) == output + U64(value)
    {
      Bytes64Next(out, rest, 8 - index);
      out := out + [(rest % 256) as char];
      rest := rest / 256;
    }
    assert out + "" == out;
  }

  method AppendLengthPrefixed(value: string, output: string) returns (out: string)
    ensures out == output + Prefixed(value)
  {
    out := AppendUint64(|value|, output);
    out := out + value;
  }

  method AppendMount(m: Option<int>, output: string) returns (out: string)
    ensures out == output + Mount(m)
  {
    out := output + Flag(m.Some?);
    if m.Some? {
      out := AppendUint64(m.value, out);
      Appended2(output, Flag(true), U64(m.value));
    }
  }

  method AppendFileIdentity(i: FileIdentity, output: string) returns (out: string)
    ensures out == output + IdentityBytes(i)
  {
    out := AppendUint64(i.device, output);
    out := AppendUint64(i.inode, out);
    out := AppendUint64(i.size, out);
    out := AppendUint64(i.mtimeNs, out);
    out := AppendUint64(i.ctimeNs, out);
    out := AppendMount(i.mountId, out);
    Appended6(output, U64(i.device), U64(i.inode), U64(i.size), U64(i.mtimeNs), U64(i.ctimeNs), Mount(i.mountId));
  }

  method AppendCapability(c: Capability, output: string) returns (out: string)
    ensures out == output + CapabilityBytes(c)
  {
    out := AppendUint64(c.kind, output);
    out := AppendUint64(c.level, out);
    out := AppendLengthPrefixed(c.representation, out);
    out := AppendLengthPrefixed(c.reason, out);
    Appended4(output, U64(c.kind), U64(c.level), Prefixed(c.representation), Prefixed(c.reason));
  }

  method AppendAsset(a: PlanAsset, output: string) returns (out: string)
    ensures out == output + AssetBytes(a)
  {
    out := AppendLengthPrefixed(a.logicalId, output);
    out := AppendLengthPrefixed(a.sourceId, out);
    out := AppendLengthPrefixed(a.sourcePath, out);
    out := AppendLengthPrefixed(a.targetPath, out);
    out := AppendFileIdentity(a.identity, out);
    Appended5(output, Prefixed(a.logicalId), Prefixed(a.sourceId), Prefixed(a.sourcePath), Prefixed(a.targetPath),
              IdentityBytes(a.identity));
  }

  method AppendSource(p: PlanInput, output: string) returns (out: string)
    ensures out == output + SourceBytes(p)
  {
    out := AppendLengthPrefixed(PLAN_DOMAIN, output);
    out := AppendUint64(FORMAT_VERSION, out);
    out := AppendLengthPrefixed(p.manifestId, out);
    out := out + DigestChars(p.manifestDigest);
    out := AppendLengthPrefixed(p.targetRoot, out);
    Appended5(output, Prefixed(PLAN_DOMAIN), U64(FORMAT_VERSION), Prefixed(p.manifestId), DigestChars(p.manifestDigest),
              Prefixed(p.targetRoot));
  }

  method AppendTarget(p: PlanInput, output: string) returns (out: string)
    ensures out == output + TargetBytes(p)
  {
    out := AppendLengthPrefixed(p.capabilities.version, output);
    out := AppendLengthPrefixed(p.policy.targetPrefix, out);
    out := out + Flag(p.policy.preserveDirectories);
    out := AppendUint64(p.policy.maxComponentBytes, out);
    out := AppendUint64(p.policy.maxPathBytes, out);
    Appended5(output, Prefixed(p.capabilities.version), Prefixed(p.policy.targetPrefix), Flag(p.policy.preserveDirectories),
              U64(p.policy.maxComponentBytes), U64(p.policy.maxPathBytes));
  }

  method AppendCapabilities(entries: seq<Capability>, output: string) returns (out: string)
    ensures out == output + Concat(CapabilityBytes, entries)
  {
    out := output;
    for i := 0 to |entries|
      invariant out == output + Concat(CapabilityBytes, entries[..i])
    {
      ConcatNext(CapabilityBytes, entries, i);
      Appended2(output, Concat(CapabilityBytes, entries[..i]), CapabilityBytes(entries[i]));
      out := AppendCapability(entries[i], out);
    }
    assert entries[..|entries|] == entries;
  }

  method AppendAssets(assets: seq<PlanAsset>, output: string) returns (out: string)
    ensures out == output + Concat(AssetBytes, assets)
  {
    out := output;
    for i := 0 to |assets|
      invariant out == output + Concat(AssetBytes, assets[..i])
    {
      ConcatNext(AssetBytes, assets, i);
      Appended2(output, Concat(AssetBytes, assets[..i]), AssetBytes(assets[i]));
      out := AppendAsset(assets[i], out);
    }
    assert assets[..|assets|] == assets;
  }

  method CanonicalPlanPayload(p: PlanInput) returns (payload: string)
    ensures payload == Payload(p)
  {
    payload := AppendSource(p, "");
    payload := AppendTarget(p, payload);
    payload := AppendUint64(|p.capabilities.entries|, payload);
    payload := AppendCapabilities(p.capabilities.entries, payload);
    payload := AppendUint64(|p.assets|, payload);
    payload := AppendAssets(p.assets, payload);
    Appended6("", SourceBytes(p), TargetBytes(p), U64(|p.capabilities.entries|),
              Concat(CapabilityBytes, p.capabilities.entries), U64(|p.assets|), Concat(AssetBytes, p.assets));
    Appended2("", "", Payload(p));
  }

  /** The layout, on a plan whose fields all differ: every field once, in this order, strings and lists with their lengths. */
  lemma PayloadExample(d: Digest)
    ensures var identity := FileIdentity(61, 62, 63, -64, 65, Some(66));
            var p := PlanInput("m", d, "/root", TargetCapabilities("v1", [Capability(3, 5, "text", "because")]),
                               MigrationPolicy("in", true, 255, 4096), [PlanAsset("l", "s1", "a/b", "c.jpg", identity)]);
            var head := (U64(28) + "PB_CANONICAL_MINIMAL_PLAN_V1") + (U64(1) + ((U64(1) + "m") + (DigestChars(d) + (U64(5) + "/root"))));
            var target := (U64(2) + "v1") + ((U64(2) + "in") + ("\U{1}" + (U64(255) + U64(4096))));
            var capability := U64(3) + (U64(5) + ((U64(4) + "text") + (U64(7) + "because")));
            var file := U64(61) + (U64(62) + (U64(63) + (U64(-64) + (U64(65) + ("\U{1}" + U64(66))))));
            var asset := (U64(1) + "l") + ((U64(2) + "s1") + ((U64(3) + "a/b") + ((U64(5) + "c.jpg") + file)));
            && Payload(p) == head + (target + (U64(1) + (capability + (U64(1) + asset))))
            && Mount(None) == "\0" && Flag(false) == "\0"
  {
    hide Bytes64, DigestChars;
    var identity := FileIdentity(61, 62, 63, -64, 65, Some(66));
    var a, c := PlanAsset("l", "s1", "a/b", "c.jpg", identity), Capability(3, 5, "text", "because");
    Single(AssetBytes, a);
    Single(CapabilityBytes, c);
  }

  lemma Single<T>(enc: T -> string, x: T)
    ensures Concat(enc, [x]) == enc(x)
  {
    assert [x][..0] == [] && Concat(enc, [x]) == "" + enc(x);
  }

  // ---------------------------------------------------------------- the payload determines the plan

  /** The ranges of the C++ types. */
  predicate IsU64(v: int) {
    0 <= v < UINT64_LIMIT
  }

  predicate IdentityInRange(i: FileIdentity) {
    IsU64(i.device) && IsU64(i.inode) && IsU64(i.size) && Decimal.IsInt64(i.mtimeNs) && Decimal.IsInt64(i.ctimeNs)
    && (i.mountId.Some? ==> IsU64(i.mountId.value))
  }

  predicate CapabilityInRange(c: Capability) {
    IsU64(c.kind) && IsU64(c.level) && IsU64(|c.representation|) && IsU64(|c.reason|)
  }

  predicate AssetInRange(a: PlanAsset) {
    IsU64(|a.logicalId|) && IsU64(|a.sourceId|) && IsU64(|a.sourcePath|) && IsU64(|a.targetPath|) && IdentityInRange(a.identity)
  }

  predicate InRange(p: PlanInput) {
    && IsU64(|p.manifestId|) && |p.manifestDigest| == 32 && IsU64(|p.targetRoot|)
    && IsU64(|p.capabilities.version|) && IsU64(|p.policy.targetPrefix|)
    && IsU64(p.policy.maxComponentBytes) && IsU64(p.policy.maxPathBytes)
    && IsU64(|p.capabilities.entries|) && IsU64(|p.assets|)
    && (forall i :: 0 <= i < |p.capabilities.entries| ==> CapabilityInRange(p.capabilities.entries[i]))
    && (forall i :: 0 <= i < |p.assets| ==> AssetInRange(p.assets[i]))
  }

  function Pow256(n: nat): nat {
    if n == 0 then 1 else 256 * Pow256(n - 1)
  }

  /** Equal bytes mean equal values modulo 256^n. */
  lemma {:induction false} BytesDetermine(v: int, w: int, n: nat) returns (k: int)
    requires Bytes64(v, n) == Bytes64(w, n)
    ensures v - w == k * Pow256(n)
    decreases n
  {
    if n == 0 {
      k := v - w;
    } else {
      assert Bytes64(v, n)[0] == Bytes64(w, n)[0];
      assert Bytes64(v, n)[1..] == Bytes64(v / 256, n - 1) && Bytes64(w, n)[1..] == Bytes64(w / 256, n - 1);
      k := BytesDetermine(v / 256, w / 256, n - 1);
      TimesPow(v / 256 - w / 256, k, n);
    }
  }

  lemma TimesPow(d: int, k: int, n: nat)
    requires n > 0 && d == k * Pow256(n - 1)
    ensures 256 * d == k * Pow256(n)
  {
    assert k * (256 * Pow256(n - 1)) == 256 * (k * Pow256(n - 1));
  }

  lemma U64Splits(v: int, w: int, x: string, y: string)
    requires (IsU64(v) && IsU64(w)) || (Decimal.IsInt64(v) && Decimal.IsInt64(w))
    requires U64(v) + x == U64(w) + y
    ensures v == w && x == y
  {
    SplitFront(U64(v), U64(w), x, y);
    U64Injective(v, w);
  }

  lemma U64Injective(v: int, w: int)
    requires (IsU64(v) && IsU64(w)) || (Decimal.IsInt64(v) && Decimal.IsInt64(w))
    requires U64(v) == U64(w)
    ensures v == w
  {
    var k := BytesDetermine(v, w, 8);
    Pow256Of8();
    MultipleInside(v - w, k);
  }

  lemma MultipleInside(d: int, k: int)
    requires d == k * UINT64_LIMIT && -UINT64_LIMIT < d < UINT64_LIMIT
    ensures d == 0
  {
  }

  lemma Pow256Of8()
    ensures Pow256(8) == UINT64_LIMIT
  {
    assert Pow256(4) == 0x1_0000_0000;
  }

  lemma PrefixedSplits(a: string, b: string, x: string, y: string)
    requires IsU64(|a|) && IsU64(|b|) && Prefixed(a) + x == Prefixed(b) + y
    ensures a == b && x == y
  {
    Appended2(U64(|a|), a, x);
    Appended2(U64(|b|), b, y);
    U64Splits(|a|, |b|, a + x, b + y);
    SplitFront(a, b, x, y);
  }

  lemma MountSplits(a: Option<int>, b: Option<int>, x: string, y: string)
    requires (a.Some? ==> IsU64(a.value)) && (b.Some? ==> IsU64(b.value)) && Mount(a) + x == Mount(b) + y
    ensures a == b && x == y
  {
    var u, v := if a.Some? then U64(a.value) else "", if b.Some? then U64(b.value) else "";
    Appended2(Flag(a.Some?), u, x);
    Appended2(Flag(b.Some?), v, y);
    assert Flag(a.Some?) + "" == Flag(a.Some?) && Flag(b.Some?) + "" == Flag(b.Some?);
    SplitFront(Flag(a.Some?), Flag(b.Some?), u + x, v + y);
    assert Flag(true) != Flag(false) by {
      assert Flag(true)[0] != Flag(false)[0];
    }
    if a.Some? {
      U64Splits(a.value, b.value, x, y);
    } else {
      assert "" + x == x && "" + y == y;
    }
  }

  lemma IdentitySplits(a: FileIdentity, b: FileIdentity, x: string, y: string)
    requires IdentityInRange(a) && IdentityInRange(b) && IdentityBytes(a) + x == IdentityBytes(b) + y
    ensures a == b && x == y
  {
    var a5, b5 := Mount(a.mountId), Mount(b.mountId);
    var a4, b4 := U64(a.ctimeNs) + a5, U64(b.ctimeNs) + b5;
    var a3, b3 := U64(a.mtimeNs) + a4, U64(b.mtimeNs) + b4;
    var a2, b2 := U64(a.size) + a3, U64(b.size) + b3;
    var a1, b1 := U64(a.inode) + a2, U64(b.inode) + b2;
    Appended2(U64(a.device), a1, x);
    Appended2(U64(b.device), b1, y);
    U64Splits(a.device, b.device, a1 + x, b1 + y);
    Appended2(U64(a.inode), a2, x);
    Appended2(U64(b.inode), b2, y);
    U64Splits(a.inode, b.inode, a2 + x, b2 + y);
    Appended2(U64(a.size), a3, x);
    Appended2(U64(b.size), b3, y);
    U64Splits(a.size, b.size, a3 + x, b3 + y);
    Appended2(U64(a.mtimeNs), a4, x);
    Appended2(U64(b.mtimeNs), b4, y);
    U64Splits(a.mtimeNs, b.mtimeNs, a4 + x, b4 + y);
    Appended2(U64(a.ctimeNs), a5, x);
    Appended2(U64(b.ctimeNs), b5, y);
    U64Splits(a.ctimeNs, b.ctimeNs, a5 + x, b5 + y);
    MountSplits(a.mountId, b.mountId, x, y);
  }

  lemma CapabilitySplits(a: Capability, b: Capability, x: string, y: string)
    requires CapabilityInRange(a) && CapabilityInRange(b) && CapabilityBytes(a) + x == CapabilityBytes(b) + y
    ensures a == b && x == y
  {
    var a3, b3 := Prefixed(a.reason), Prefixed(b.reason);
    var a2, b2 := Prefixed(a.representation) + a3, Prefixed(b.representation) + b3;
    var a1, b1 := U64(a.level) + a2, U64(b.level) + b2;
    Appended2(U64(a.kind), a1, x);
    Appended2(U64(b.kind), b1, y);
    U64Splits(a.kind, b.kind, a1 + x, b1 + y);
    Appended2(U64(a.level), a2, x);
    Appended2(U64(b.level), b2, y);
    U64Splits(a.level, b.level, a2 + x, b2 + y);
    Appended2(Prefixed(a.representation), a3, x);
    Appended2(Prefixed(b.representation), b3, y);
    PrefixedSplits(a.representation, b.representation, a3 + x, b3 + y);
    PrefixedSplits(a.reason, b.reason, x, y);
  }

  lemma AssetSplits(a: PlanAsset, b: PlanAsset, x: string, y: string)
    requires AssetInRange(a) && AssetInRange(b) && AssetBytes(a) + x == AssetBytes(b) + y
    ensures a == b && x == y
  {
    var a4, b4 := IdentityBytes(a.identity), IdentityBytes(b.identity);
    var a3, b3 := Prefixed(a.targetPath) + a4, Prefixed(b.targetPath) + b4;
    var a2, b2 := Prefixed(a.sourcePath) + a3, Prefixed(b.sourcePath) + b3;
    var a1, b1 := Prefixed(a.sourceId) + a2, Prefixed(b.sourceId) + b2;
    Appended2(Prefixed(a.logicalId), a1, x);
    Appended2(Prefixed(b.logicalId), b1, y);
    PrefixedSplits(a.logicalId, b.logicalId, a1 + x, b1 + y);
    Appended2(Prefixed(a.sourceId), a2, x);
    Appended2(Prefixed(b.sourceId), b2, y);
    PrefixedSplits(a.sourceId, b.sourceId, a2 + x, b2 + y);
    Appended2(Prefixed(a.sourcePath), a3, x);
    Appended2(Prefixed(b.sourcePath), b3, y);
    PrefixedSplits(a.sourcePath, b.sourcePath, a3 + x, b3 + y);
    Appended2(Prefixed(a.targetPath), a4, x);
    Appended2(Prefixed(b.targetPath), b4, y);
    PrefixedSplits(a.targetPath, b.targetPath, a4 + x, b4 + y);
    IdentitySplits(a.identity, b.identity, x, y);
  }

  lemma SourceSplits(p: PlanInput, q: PlanInput, x: string, y: string)
    requires InRange(p) && InRange(q) && SourceBytes(p) + x == SourceBytes(q) + y
    ensures p.manifestId == q.manifestId && p.manifestDigest == q.manifestDigest && p.targetRoot == q.targetRoot && x == y
  {
    var d, v := Prefixed(PLAN_DOMAIN), U64(FORMAT_VERSION);
    var p4, q4 := Prefixed(p.targetRoot), Prefixed(q.targetRoot);
    var p3, q3 := DigestChars(p.manifestDigest) + p4, DigestChars(q.manifestDigest) + q4;
    var p2, q2 := Prefixed(p.manifestId) + p3, Prefixed(q.manifestId) + q3;
    Appended2(d, v + p2, x);
    Appended2(d, v + q2, y);
    SplitFront(d, d, (v + p2) + x, (v + q2) + y);
    Appended2(v, p2, x);
    Appended2(v, q2, y);
    SplitFront(v, v, p2 + x, q2 + y);
    Appended2(Prefixed(p.manifestId), p3, x);
    Appended2(Prefixed(q.manifestId), q3, y);
    PrefixedSplits(p.manifestId, q.manifestId, p3 + x, q3 + y);
    Appended2(DigestChars(p.manifestDigest), p4, x);
    Appended2(DigestChars(q.manifestDigest), q4, y);
    SplitFront(DigestChars(p.manifestDigest), DigestChars(q.manifestDigest), p4 + x, q4 + y);
    DigestCharsInjective(p.manifestDigest, q.manifestDigest);
    PrefixedSplits(p.targetRoot, q.targetRoot, x, y);
  }

  lemma DigestCharsInjective(d: Digest, e: Digest)
    requires DigestChars(d) == DigestChars(e)
    ensures d == e
  {
    assert |d| == |DigestChars(d)| == |e|;
    forall i | 0 <= i < |d| ensures d[i] == e[i] {
      assert DigestChars(d)[i] == DigestChars(e)[i];
    }
  }

  lemma TargetSplits(p: PlanInput, q: PlanInput, x: string, y: string)
    requires InRange(p) && InRange(q) && TargetBytes(p) + x == TargetBytes(q) + y
    ensures p.capabilities.version == q.capabilities.version && p.policy == q.policy && x == y
  {
    var a, b := p.policy, q.policy;
    var p4, q4 := U64(a.maxPathBytes), U64(b.maxPathBytes);
    var p3, q3 := U64(a.maxComponentBytes) + p4, U64(b.maxComponentBytes) + q4;
    var p2, q2 := Flag(a.preserveDirectories) + p3, Flag(b.preserveDirectories) + q3;
    var p1, q1 := Prefixed(a.targetPrefix) + p2, Prefixed(b.targetPrefix) + q2;
    Appended2(Prefixed(p.capabilities.version), p1, x);
    Appended2(Prefixed(q.capabilities.version), q1, y);
    PrefixedSplits(p.capabilities.version, q.capabilities.version, p1 + x, q1 + y);
    Appended2(Prefixed(a.targetPrefix), p2, x);
    Appended2(Prefixed(b.targetPrefix), q2, y);
    PrefixedSplits(a.targetPrefix, b.targetPrefix, p2 + x, q2 + y);
    Appended2(Flag(a.preserveDirectories), p3, x);
    Appended2(Flag(b.preserveDirectories), q3, y);
    SplitFront(Flag(a.preserveDirectories), Flag(b.preserveDirectories), p3 + x, q3 + y);
    assert Flag(a.preserveDirectories)[0] == Flag(b.preserveDirectories)[0];
    Appended2(U64(a.maxComponentBytes), p4, x);
    Appended2(U64(b.maxComponentBytes), q4, y);
    U64Splits(a.maxComponentBytes, b.maxComponentBytes, p4 + x, q4 + y);
    U64Splits(a.maxPathBytes, b.maxPathBytes, x, y);
  }

  lemma CapabilitiesSplit(s: seq<Capability>, t: seq<Capability>, x: string, y: string)
    requires |s| == |t| && (forall i :: 0 <= i < |s| ==> CapabilityInRange(s[i]) && CapabilityInRange(t[i]))
    requires Concat(CapabilityBytes, s) + x == Concat(CapabilityBytes, t) + y
    ensures s == t && x == y
  {
    forall a, b, x: string, y: string
      | CapabilityInRange(a) && CapabilityInRange(b) && CapabilityBytes(a) + x == CapabilityBytes(b) + y
      ensures a == b && x == y
    {
      CapabilitySplits(a, b, x, y);
    }
    ConcatSplits(CapabilityBytes, CapabilityInRange, s, t, x, y);
  }

  lemma AssetsSplit(s: seq<PlanAsset>, t: seq<PlanAsset>, x: string, y: string)
    requires |s| == |t| && (forall i :: 0 <= i < |s| ==> AssetInRange(s[i]) && AssetInRange(t[i]))
    requires Concat(AssetBytes, s) + x == Concat(AssetBytes, t) + y
    ensures s == t && x == y
  {
    forall a, b, x: string, y: string
      | AssetInRange(a) && AssetInRange(b) && AssetBytes(a) + x == AssetBytes(b) + y
      ensures a == b && x == y
    {
      AssetSplits(a, b, x, y);
    }
    ConcatSplits(AssetBytes, AssetInRange, s, t, x, y);
  }

  function ListBytes(entries: seq<Capability>, assets: seq<PlanAsset>): string {
    U64(|entries|) + (Concat(CapabilityBytes, entries) + (U64(|assets|) + Concat(AssetBytes, assets)))
  }

  lemma ListsSplit(pc: seq<Capability>, pa: seq<PlanAsset>, qc: seq<Capability>, qa: seq<PlanAsset>)
    requires IsU64(|pc|) && IsU64(|pa|) && IsU64(|qc|) && IsU64(|qa|) && ListBytes(pc, pa) == ListBytes(qc, qa)
    requires (forall i :: 0 <= i < |pc| ==> CapabilityInRange(pc[i])) && (forall i :: 0 <= i < |qc| ==> CapabilityInRange(qc[i]))
    requires (forall i :: 0 <= i < |pa| ==> AssetInRange(pa[i])) && (forall i :: 0 <= i < |qa| ==> AssetInRange(qa[i]))
    ensures pc == qc && pa == qa
  {
    hide Concat, CapabilityBytes, AssetBytes, U64, CapabilityInRange, AssetInRange;
    var p4, q4 := Concat(AssetBytes, pa), Concat(AssetBytes, qa);
    var p3, q3 := U64(|pa|) + p4, U64(|qa|) + q4;
    U64Splits(|pc|, |qc|, Concat(CapabilityBytes, pc) + p3, Concat(CapabilityBytes, qc) + q3);
    CapabilitiesSplit(pc, qc, p3, q3);
    U64Splits(|pa|, |qa|, p4, q4);
    assert p4 + "" == p4 && q4 + "" == q4;
    AssetsSplit(pa, qa, "", "");
  }

  /** Equal payloads mean equal plans: the bytes can be read in only one way. */
  lemma PayloadInjective(p: PlanInput, q: PlanInput)
    requires InRange(p) && InRange(q) && Payload(p) == Payload(q)
    ensures p == q
  {
    var p1, q1 := ListBytes(p.capabilities.entries, p.assets), ListBytes(q.capabilities.entries, q.assets);
    SourceSplits(p, q, TargetBytes(p) + p1, TargetBytes(q) + q1);
    TargetSplits(p, q, p1, q1);
    ListsSplit(p.capabilities.entries, p.assets, q.capabilities.entries, q.assets);
  }
}
