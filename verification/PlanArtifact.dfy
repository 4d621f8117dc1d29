/** The JSON Lines artifact of a frozen plan (src/model/plan_artifact.cpp), as records: the JSON library, which turns a
    record into a line and back, is a parameter. */
module PlanArtifact {
  import opened Common
  import opened Tasks
  import opened StringOrder
  import opened Sorting
  import opened CanonicalPlan
  import opened TempNames
  import Base64
  import Decimal
  import Digests

  /** The member names the artifact uses. */
  datatype Key =
    | KRecord | KSection | KPlanId | KFormatVersion | KSemanticVersion | KManifestId | KManifestDigest | KTargetRoot
    | KPolicy | KCapabilities | KCapabilityVersion | KTargetPrefix | KPreserve | KMaxComponent | KMaxPath
    | KKind | KLevel | KRepresentation | KReason
    | KLogicalId | KSourceId | KSourcePath | KTargetPath | KIdentity
    | KDevice | KInode | KSize | KMtime | KCtime | KMountId
    | KOther(name: string)

  datatype Json = JNull | JBool(value: bool) | JString(text: string) | JArray(items: seq<Json>) | JObject(fields: map<Key, Json>)

  const SEMANTIC_VERSION := "canonical-plan-semantic-v1"
  const SEMANTIC_DOMAIN := "PB_PLAN_SEMANTIC_V1"
  const MAX_LINE := 0x100000
  const SECTIONS := ["outputs", "tasks", "dependencies", "losses"]

  // ---------------------------------------------------------------- fields

  function RequiredString(j: Json, key: Key): Outcome<string> {
    if j.JObject? && key in j.fields && j.fields[key].JString? then Ok(j.fields[key].text) else Err(InvalidArgument)
  }

  function RequiredUint64(j: Json, key: Key): Outcome<nat> {
    var s := RequiredString(j, key);
    if s.Err? then Err(s.code) else Decimal.ReadUint64(s.value)
  }

  function Base64Field(j: Json, key: Key): Outcome<string> {
    var s := RequiredString(j, key);
    if s.Err? then s else Base64.Decode(s.value)
  }

  predicate IsRecord(j: Json, kind: string) {
    RequiredString(j, KRecord) == Ok(kind)
  }

  function Number(n: nat): Json {
    JString(Decimal.Print(n))
  }

  // ---------------------------------------------------------------- writing

  function IdentityJson(i: FileIdentity): Json {
    JObject(map[
      KCtime := JString(Decimal.PrintSigned(i.ctimeNs)), KDevice := Number(i.device), KInode := Number(i.inode),
      KMtime := JString(Decimal.PrintSigned(i.mtimeNs)), KSize := Number(i.size),
      KMountId := if i.mountId.Some? then Number(i.mountId.value) else JNull])
  }

  function CapabilityJson(c: Capability): Json {
    JObject(map[KKind := Number(c.kind), KLevel := Number(c.level),
                KReason := JString(c.reason), KRepresentation := JString(c.representation)])
  }

  function CapabilitiesJson(entries: seq<Capability>): seq<Json> {
    seq(|entries|, i requires 0 <= i < |entries| => CapabilityJson(entries[i]))
  }

  function PolicyJson(p: MigrationPolicy): Json {
    JObject(map[KMaxComponent := Number(p.maxComponentBytes), KMaxPath := Number(p.maxPathBytes),
                KPreserve := JBool(p.preserveDirectories), KTargetPrefix := JString(Base64.Encode(p.targetPrefix))])
  }

  function HeaderJson(p: PlanInput, id: string): Json {
    JObject(map[
      KCapabilities := JArray(CapabilitiesJson(p.capabilities.entries)), KFormatVersion := Number(FORMAT_VERSION),
      KPlanId := JString(id), KPolicy := PolicyJson(p.policy), KRecord := JString("header"),
      KSemanticVersion := JString(SEMANTIC_VERSION), KCapabilityVersion := JString(p.capabilities.version),
      KManifestDigest := JString(Digests.Hex(p.manifestDigest)), KManifestId := JString(p.manifestId),
      KTargetRoot := JString(Base64.Encode(p.targetRoot))])
  }

  function AssetJson(a: PlanAsset): Json {
    JObject(map[
      KLogicalId := JString(a.logicalId), KRecord := JString("asset"), KSourceId := JString(a.sourceId),
      KIdentity := IdentityJson(a.identity), KSourcePath := JString(Base64.Encode(a.sourcePath)),
      KTargetPath := JString(Base64.Encode(a.targetPath))])
  }

  function AssetsJson(assets: seq<PlanAsset>): seq<Json> {
    seq(|assets|, i requires 0 <= i < |assets| => AssetJson(assets[i]))
  }

  function SectionJson(section: string): Json {
    JObject(map[KRecord := JString("section"), KSection := JString(section)])
  }

  function TrailerJson(): seq<Json> {
    [SectionJson(SECTIONS[0]), SectionJson(SECTIONS[1]), SectionJson(SECTIONS[2]), SectionJson(SECTIONS[3]),
     JObject(map[KRecord := JString("end")])]
  }

  /** The records of an artifact, one a line. */
  function Records(p: PlanInput, id: string): seq<Json> {
    [HeaderJson(p, id)] + AssetsJson(p.assets) + TrailerJson()
  }

  // ---------------------------------------------------------------- reading

  function IdentityOf(j: Json): Outcome<FileIdentity> {
    var device, inode, size := RequiredUint64(j, KDevice), RequiredUint64(j, KInode), RequiredUint64(j, KSize);
    var mtime, ctime := RequiredString(j, KMtime), RequiredString(j, KCtime);
    if !j.JObject? || device.Err? || inode.Err? || size.Err? || mtime.Err? || ctime.Err? then Err(InvalidArgument)
    else
      var mtimeNs, ctimeNs := Decimal.ParseSigned(mtime.value), Decimal.ParseSigned(ctime.value);
      if mtimeNs.Err? || ctimeNs.Err? || KMountId !in j.fields then Err(InvalidArgument)
      else if j.fields[KMountId].JNull? then
        Ok(FileIdentity(device.value, inode.value, size.value, mtimeNs.value, ctimeNs.value, None))
      else
        var mount := RequiredUint64(j, KMountId);
        if mount.Err? then Err(InvalidArgument)
        else Ok(FileIdentity(device.value, inode.value, size.value, mtimeNs.value, ctimeNs.value, Some(mount.value)))
  }

  function CapabilityOf(j: Json): Outcome<Capability> {
    var kind, level := RequiredUint64(j, KKind), RequiredUint64(j, KLevel);
    var representation, reason := RequiredString(j, KRepresentation), RequiredString(j, KReason);
    if kind.Err? || level.Err? || representation.Err? || reason.Err? then Err(InvalidArgument)
    else if kind.value > 7 || level.value > 5 then Err(InvalidArgument)
    else Ok(Capability(kind.value, level.value, representation.value, reason.value))
  }

  function CapabilitiesOf(items: seq<Json>): Outcome<seq<Capability>> {
    if items == [] then Ok([])
    else
      var before := CapabilitiesOf(items[..|items| - 1]);
      var last := CapabilityOf(items[|items| - 1]);
      if before.Err? || last.Err? then Err(InvalidArgument) else Ok(before.value + [last.value])
  }

  function PolicyOf(j: Json): Outcome<MigrationPolicy> {
    var prefix := Base64Field(j, KTargetPrefix);
    var component, path := RequiredUint64(j, KMaxComponent), RequiredUint64(j, KMaxPath);
    if !j.JObject? || prefix.Err? || component.Err? || path.Err? then Err(InvalidArgument)
    else if KPreserve !in j.fields || !j.fields[KPreserve].JBool? then Err(InvalidArgument)
    else Ok(MigrationPolicy(prefix.value, j.fields[KPreserve].value, component.value, path.value))
  }

  datatype Header = Header(id: string, plan: PlanInput)

  /** The versions a header must announce. */
  predicate VersionsOk(j: Json) {
    RequiredUint64(j, KFormatVersion) == Ok(1) && RequiredString(j, KSemanticVersion) == Ok(SEMANTIC_VERSION)
  }

  function HeaderOf(j: Json): Outcome<Header> {
    var id, manifestId := RequiredString(j, KPlanId), RequiredString(j, KManifestId);
    var digest, root := RequiredString(j, KManifestDigest), Base64Field(j, KTargetRoot);
    var version := RequiredString(j, KCapabilityVersion);
    if !IsRecord(j, "header") || !VersionsOk(j) || id.Err? || manifestId.Err? || digest.Err? || root.Err? || version.Err?
       || id.value == "" then Err(InvalidArgument)
    else if KPolicy !in j.fields || KCapabilities !in j.fields || !j.fields[KCapabilities].JArray? then Err(InvalidArgument)
    else
      var hex, policy := Digests.ReadHex(digest.value), PolicyOf(j.fields[KPolicy]);
      var entries := CapabilitiesOf(j.fields[KCapabilities].items);
      if hex.Err? || policy.Err? || entries.Err? then Err(InvalidArgument)
      else Ok(Header(id.value, PlanInput(manifestId.value, hex.value, root.value,
                                         TargetCapabilities(version.value, entries.value), policy.value, [])))
  }

  function AssetOf(j: Json): Outcome<PlanAsset> {
    var logicalId, sourceId := RequiredString(j, KLogicalId), RequiredString(j, KSourceId);
    var source, target := Base64Field(j, KSourcePath), Base64Field(j, KTargetPath);
    if !j.JObject? || logicalId.Err? || sourceId.Err? || source.Err? || target.Err? then Err(InvalidArgument)
    else if !IsRelativePath(source.value) || !IsRelativePath(target.value) || KIdentity !in j.fields then Err(InvalidArgument)
    else
      var identity := IdentityOf(j.fields[KIdentity]);
      if identity.Err? then Err(InvalidArgument)
      else Ok(PlanAsset(logicalId.value, sourceId.value, source.value, target.value, identity.value))
  }

  /** The records at the front that are of the wanted kind, read one by one; a record without a kind is an error. */
  function Leading<R, T>(kind: R -> Outcome<bool>, read: R -> Outcome<T>, records: seq<R>): Outcome<seq<T>> {
    if records == [] then Ok([])
    else
      var wanted := kind(records[0]);
      if wanted.Err? then Err(InvalidArgument)
      else if !wanted.value then Ok([])
      else
        var first, rest := read(records[0]), Leading(kind, read, records[1..]);
        if first.Err? then Err(InvalidArgument) else Prepend([first.value], rest)
  }

  function IsAsset(j: Json): Outcome<bool> {
    var kind := RequiredString(j, KRecord);
    if kind.Err? then Err(kind.code) else Ok(kind.value == "asset")
  }

  function LeadingAssets(records: seq<Json>): Outcome<seq<PlanAsset>> {
    Leading(IsAsset, AssetOf, records)
  }

  /** The four empty sections in their order, and the end. */
  predicate TrailerOk(records: seq<Json>) {
    && |records| == 5
    && (forall k :: 0 <= k < 4 ==> IsRecord(records[k], "section") && RequiredString(records[k], KSection) == Ok(SECTIONS[k]))
    && IsRecord(records[4], "end")
  }

  /** The plan put together from its parts, when the trailer follows the assets. */
  function Combine(header: Outcome<Header>, assets: Outcome<seq<PlanAsset>>, rest: seq<Json>): Outcome<Header> {
    if header.Err? || assets.Err? || |assets.value| > |rest| then Err(InvalidArgument)
    else if !TrailerOk(rest[|assets.value|..]) then Err(InvalidArgument)
    else
      var plan := header.value.plan.(assets := assets.value);
      if !InputValid(plan) then Err(InvalidArgument) else Ok(Header(header.value.id, Canonical(plan)))
  }

  function ParseRecords(records: seq<Json>): Outcome<Header> {
    if records == [] then Err(InvalidArgument)
    else Combine(HeaderOf(records[0]), LeadingAssets(records[1..]), records[1..])
  }

  // ---------------------------------------------------------------- reading what was written

  lemma NumberRead(n: nat)
    requires IsU64(n)
    ensures Decimal.ReadUint64(Decimal.Print(n)) == Ok(n)
  {
    Decimal.ParsePrintedUint64(n);
  }

  lemma NumberField(j: Json, key: Key, n: nat)
    requires j.JObject? && key in j.fields && j.fields[key] == Number(n) && IsU64(n)
    ensures RequiredUint64(j, key) == Ok(n)
  {
    NumberRead(n);
  }

  lemma Base64Read(j: Json, key: Key, s: string)
    requires j.JObject? && key in j.fields && j.fields[key] == JString(Base64.Encode(s)) && IsByteString(s)
    ensures Base64Field(j, key) == Ok(s)
  {
    Base64.DecodeEncode(s);
  }

  lemma SignedField(j: Json, key: Key, n: int)
    requires j.JObject? && key in j.fields && j.fields[key] == JString(Decimal.PrintSigned(n)) && Decimal.IsInt64(n)
    ensures RequiredString(j, key).Ok? && Decimal.ParseSigned(RequiredString(j, key).value) == Ok(n)
  {
    Decimal.ParsePrintedSigned(n);
  }

  lemma IdentityRead(i: FileIdentity)
    requires IdentityInRange(i)
    ensures IdentityOf(IdentityJson(i)) == Ok(i)
  {
    var j := IdentityJson(i);
    NumberField(j, KDevice, i.device);
    NumberField(j, KInode, i.inode);
    NumberField(j, KSize, i.size);
    SignedField(j, KMtime, i.mtimeNs);
    SignedField(j, KCtime, i.ctimeNs);
    if i.mountId.Some? {
      NumberField(j, KMountId, i.mountId.value);
    }
  }

  lemma CapabilityRead(c: Capability)
    requires c.kind < CAPABILITY_KINDS && c.level < SUPPORT_LEVELS
    ensures CapabilityOf(CapabilityJson(c)) == Ok(c)
  {
    NumberField(CapabilityJson(c), KKind, c.kind);
    NumberField(CapabilityJson(c), KLevel, c.level);
  }

  lemma {:induction false} CapabilitiesRead(entries: seq<Capability>)
    requires forall i :: 0 <= i < |entries| ==> entries[i].kind < CAPABILITY_KINDS && entries[i].level < SUPPORT_LEVELS
    ensures CapabilitiesOf(CapabilitiesJson(entries)) == Ok(entries)
    decreases |entries|
  {
    if entries != [] {
      var last := |entries| - 1;
      CapabilitiesRead(entries[..last]);
      CapabilityRead(entries[last]);
      assert CapabilitiesJson(entries)[..last] == CapabilitiesJson(entries[..last]);
      assert entries[..last] + [entries[last]] == entries;
    }
  }

  lemma PolicyRead(p: MigrationPolicy)
    requires IsByteString(p.targetPrefix) && IsU64(p.maxComponentBytes) && IsU64(p.maxPathBytes)
    ensures PolicyOf(PolicyJson(p)) == Ok(p)
  {
    NumberField(PolicyJson(p), KMaxComponent, p.maxComponentBytes);
    NumberField(PolicyJson(p), KMaxPath, p.maxPathBytes);
    Base64Read(PolicyJson(p), KTargetPrefix, p.targetPrefix);
  }

  /** std::string holds bytes; paths come from RelativePath::Parse. */
  predicate Artifactable(p: PlanInput) {
    && InRange(p) && InputValid(p) && IsByteString(p.targetRoot) && IsByteString(p.policy.targetPrefix)
    && forall i :: 0 <= i < |p.assets| ==> AssetArtifactable(p.assets[i])
  }

  lemma VersionsRead(p: PlanInput, id: string)
    ensures VersionsOk(HeaderJson(p, id))
  {
    NumberField(HeaderJson(p, id), KFormatVersion, 1);
  }

  lemma DigestRead(j: Json, d: Digest)
    requires j.JObject? && KManifestDigest in j.fields && j.fields[KManifestDigest] == JString(Digests.Hex(d)) && |d| == 32
    ensures RequiredString(j, KManifestDigest).Ok? && Digests.ReadHex(RequiredString(j, KManifestDigest).value) == Ok(d)
  {
    Digests.UnhexHex(d);
  }

  /** The string members of a header. */
  lemma HeaderStrings(p: PlanInput, id: string)
    ensures var j := HeaderJson(p, id);
            && IsRecord(j, "header") && RequiredString(j, KPlanId) == Ok(id)
            && RequiredString(j, KManifestId) == Ok(p.manifestId)
            && RequiredString(j, KCapabilityVersion) == Ok(p.capabilities.version)
            && KPolicy in j.fields && j.fields[KPolicy] == PolicyJson(p.policy)
            && KCapabilities in j.fields && j.fields[KCapabilities] == JArray(CapabilitiesJson(p.capabilities.entries))
  {
  }

  lemma HeaderRead(p: PlanInput, id: string)
    requires Artifactable(p) && id != ""
    ensures HeaderOf(HeaderJson(p, id)) == Ok(Header(id, p.(assets := [])))
  {
    var j := HeaderJson(p, id);
    HeaderStrings(p, id);
    VersionsRead(p, id);
    DigestRead(j, p.manifestDigest);
    Base64Read(j, KTargetRoot, p.targetRoot);
    PolicyRead(p.policy);
    CapabilitiesRead(p.capabilities.entries);
  }

  predicate AssetArtifactable(a: PlanAsset) {
    && IdentityInRange(a.identity) && IsByteString(a.sourcePath) && IsByteString(a.targetPath)
    && IsRelativePath(a.sourcePath) && IsRelativePath(a.targetPath)
  }

  lemma AssetStrings(a: PlanAsset)
    ensures var j := AssetJson(a);
            && IsRecord(j, "asset") && RequiredString(j, KLogicalId) == Ok(a.logicalId)
            && RequiredString(j, KSourceId) == Ok(a.sourceId)
            && KIdentity in j.fields && j.fields[KIdentity] == IdentityJson(a.identity)
            && KSourcePath in j.fields && j.fields[KSourcePath] == JString(Base64.Encode(a.sourcePath))
            && KTargetPath in j.fields && j.fields[KTargetPath] == JString(Base64.Encode(a.targetPath))
  {
  }

  /** An asset record from its members. */
  lemma AssetFromMembers(j: Json, a: PlanAsset)
    requires j.JObject? && RequiredString(j, KLogicalId) == Ok(a.logicalId) && RequiredString(j, KSourceId) == Ok(a.sourceId)
    requires Base64Field(j, KSourcePath) == Ok(a.sourcePath) && Base64Field(j, KTargetPath) == Ok(a.targetPath)
    requires IsRelativePath(a.sourcePath) && IsRelativePath(a.targetPath)
    requires KIdentity in j.fields && IdentityOf(j.fields[KIdentity]) == Ok(a.identity)
    ensures AssetOf(j) == Ok(a)
  {
  }

  lemma AssetRead(a: PlanAsset)
    requires AssetArtifactable(a)
    ensures IsRecord(AssetJson(a), "asset") && AssetOf(AssetJson(a)) == Ok(a)
  {
    var j := AssetJson(a);
    AssetStrings(a);
    Base64Read(j, KSourcePath, a.sourcePath);
    Base64Read(j, KTargetPath, a.targetPath);
    IdentityRead(a.identity);
    AssetFromMembers(j, a);
  }

  lemma {:induction false} LeadingMany<R, T>(
    kind: R -> Outcome<bool>, read: R -> Outcome<T>, records: seq<R>, values: seq<T>, rest: seq<R>)
    requires |records| == |values|
    requires forall i :: 0 <= i < |records| ==> kind(records[i]) == Ok(true) && read(records[i]) == Ok(values[i])
    requires Leading(kind, read, rest) == Ok([])
    ensures Leading(kind, read, records + rest) == Ok(values)
    decreases |values|
  {
    if values == [] {
      assert records + rest == rest;
    } else {
      LeadingMany(kind, read, records[1..], values[1..], rest);
      assert (records + rest)[0] == records[0] && (records + rest)[1..] == records[1..] + rest;
      assert [values[0]] + values[1..] == values;
    }
  }

  lemma AssetsRead(assets: seq<PlanAsset>, rest: seq<Json>)
    requires forall i :: 0 <= i < |assets| ==> AssetArtifactable(assets[i])
    requires LeadingAssets(rest) == Ok([])
    ensures LeadingAssets(AssetsJson(assets) + rest) == Ok(assets)
  {
    forall i | 0 <= i < |assets|
      ensures IsAsset(AssetsJson(assets)[i]) == Ok(true) && AssetOf(AssetsJson(assets)[i]) == Ok(assets[i])
    {
      AssetRead(assets[i]);
    }
    LeadingMany(IsAsset, AssetOf, AssetsJson(assets), assets, rest);
  }

  lemma TrailerRead()
    ensures TrailerOk(TrailerJson()) && LeadingAssets(TrailerJson()) == Ok([])
  {
    var t := TrailerJson();
    forall k | 0 <= k < 4 ensures t[k] == SectionJson(SECTIONS[k]) {
    }
    assert "section" != "asset";
  }

  lemma CombineParts(h: Header, assets: seq<PlanAsset>, rest: seq<Json>)
    requires |assets| <= |rest| && TrailerOk(rest[|assets|..]) && InputValid(h.plan.(assets := assets))
    ensures Combine(Ok(h), Ok(assets), rest) == Ok(Header(h.id, Canonical(h.plan.(assets := assets))))
  {
  }

  /** Reading the records of a canonical plan gives back its id and the plan, field for field. */
  lemma RecordsRead(p: PlanInput, id: string)
    requires Artifactable(p) && p == Canonical(p) && id != ""
    ensures ParseRecords(Records(p, id)) == Ok(Header(id, p))
  {
    hide Canonical, InputValid, InRange, AssetArtifactable, HeaderJson, HeaderOf, LeadingAssets, AssetJson, TrailerJson, TrailerOk;
    HeaderRead(p, id);
    TrailerRead();
    AssetsRead(p.assets, TrailerJson());
    var rest := AssetsJson(p.assets) + TrailerJson();
    assert Records(p, id) == [HeaderJson(p, id)] + rest && ([HeaderJson(p, id)] + rest)[1..] == rest;
    assert rest[|p.assets|..] == TrailerJson();
    assert p.(assets := []).(assets := p.assets) == p;
    CombineParts(Header(id, p.(assets := [])), p.assets, rest);
  }

  // ---------------------------------------------------------------- what an accepted artifact says

  predicate Has(j: Json, key: Key, text: string) {
    j.JObject? && key in j.fields && j.fields[key] == JString(text)
  }

  /** The member is the text of a number. */
  predicate HasNumber(j: Json, key: Key, n: nat) {
    j.JObject? && key in j.fields && j.fields[key].JString? && Decimal.ReadUint64(j.fields[key].text) == Ok(n)
  }

  predicate HasSigned(j: Json, key: Key, n: int) {
    j.JObject? && key in j.fields && j.fields[key].JString? && Decimal.ParseSigned(j.fields[key].text) == Ok(n)
  }

  predicate HasBase64(j: Json, key: Key, s: string) {
    j.JObject? && key in j.fields && j.fields[key].JString? && Base64.Decode(j.fields[key].text) == Ok(s)
  }

  predicate SaysIdentity(j: Json, i: FileIdentity) {
    && HasNumber(j, KDevice, i.device) && HasNumber(j, KInode, i.inode) && HasNumber(j, KSize, i.size)
    && HasSigned(j, KMtime, i.mtimeNs) && HasSigned(j, KCtime, i.ctimeNs)
    && if i.mountId.Some? then HasNumber(j, KMountId, i.mountId.value) else KMountId in j.fields && j.fields[KMountId] == JNull
  }

  predicate SaysAsset(j: Json, a: PlanAsset) {
    && Has(j, KRecord, "asset") && Has(j, KLogicalId, a.logicalId) && Has(j, KSourceId, a.sourceId)
    && HasBase64(j, KSourcePath, a.sourcePath) && HasBase64(j, KTargetPath, a.targetPath)
    && IsRelativePath(a.sourcePath) && IsRelativePath(a.targetPath)
    && KIdentity in j.fields && SaysIdentity(j.fields[KIdentity], a.identity)
  }

  predicate SaysCapability(j: Json, c: Capability) {
    && HasNumber(j, KKind, c.kind) && HasNumber(j, KLevel, c.level) && c.kind < 8 && c.level < 6
    && Has(j, KRepresentation, c.representation) && Has(j, KReason, c.reason)
  }

  predicate SaysPolicy(j: Json, p: MigrationPolicy) {
    && HasBase64(j, KTargetPrefix, p.targetPrefix) && KPreserve in j.fields && j.fields[KPreserve] == JBool(p.preserveDirectories)
    && HasNumber(j, KMaxComponent, p.maxComponentBytes) && HasNumber(j, KMaxPath, p.maxPathBytes)
  }

  predicate SaysHeader(j: Json, id: string, p: PlanInput) {
    && Has(j, KRecord, "header") && Has(j, KPlanId, id) && id != ""
    && HasNumber(j, KFormatVersion, 1) && Has(j, KSemanticVersion, "canonical-plan-semantic-v1")
    && Has(j, KManifestId, p.manifestId) && HasBase64(j, KTargetRoot, p.targetRoot)
    && Has(j, KCapabilityVersion, p.capabilities.version)
    && KManifestDigest in j.fields && j.fields[KManifestDigest].JString?
    && Digests.ReadHex(j.fields[KManifestDigest].text) == Ok(p.manifestDigest)
    && KPolicy in j.fields && SaysPolicy(j.fields[KPolicy], p.policy)
    && KCapabilities in j.fields && j.fields[KCapabilities].JArray?
    && |j.fields[KCapabilities].items| == |p.capabilities.entries|
    && forall k :: 0 <= k < |p.capabilities.entries| ==> SaysCapability(j.fields[KCapabilities].items[k], p.capabilities.entries[k])
  }

  lemma IdentitySays(j: Json)
    requires IdentityOf(j).Ok?
    ensures SaysIdentity(j, IdentityOf(j).value)
  {
  }

  lemma AssetSays(j: Json)
    requires IsAsset(j) == Ok(true) && AssetOf(j).Ok?
    ensures SaysAsset(j, AssetOf(j).value)
  {
    hide SaysIdentity, IdentityOf;
    IdentitySays(j.fields[KIdentity]);
  }

  lemma {:induction false} CapabilitiesSay(items: seq<Json>)
    requires CapabilitiesOf(items).Ok?
    ensures |CapabilitiesOf(items).value| == |items|
    ensures forall k :: 0 <= k < |items| ==> SaysCapability(items[k], CapabilitiesOf(items).value[k])
    decreases |items|
  {
    if items != [] {
      CapabilitiesSay(items[..|items| - 1]);
    }
  }

  lemma HeaderSays(j: Json)
    requires HeaderOf(j).Ok?
    ensures SaysHeader(j, HeaderOf(j).value.id, HeaderOf(j).value.plan) && HeaderOf(j).value.plan.assets == []
  {
    hide SaysCapability, CapabilitiesOf, PolicyOf, SaysPolicy;
    PolicySays(j.fields[KPolicy]);
    CapabilitiesSay(j.fields[KCapabilities].items);
  }

  lemma PolicySays(j: Json)
    requires PolicyOf(j).Ok?
    ensures SaysPolicy(j, PolicyOf(j).value)
  {
  }

  lemma {:induction false} LeadingSays<R, T>(kind: R -> Outcome<bool>, read: R -> Outcome<T>, records: seq<R>)
    requires Leading(kind, read, records).Ok?
    ensures var values := Leading(kind, read, records).value;
            && |values| <= |records| && (|values| < |records| ==> kind(records[|values|]) == Ok(false))
            && forall i :: 0 <= i < |values| ==> kind(records[i]) == Ok(true) && read(records[i]) == Ok(values[i])
    decreases |records|
  {
    if records != [] && kind(records[0]) == Ok(true) {
      LeadingSays(kind, read, records[1..]);
    }
  }

  /** What is accepted: a header with these versions, one record per asset, the four empty sections in their order and the
      end. The plan that is returned says what they say, with the assets in increasing order of their logical ids. */
  lemma RecordsSay(records: seq<Json>, h: Header)
    returns (listed: seq<PlanAsset>)
    requires ParseRecords(records) == Ok(h)
    ensures multiset(listed) == multiset(h.plan.assets) && |listed| == |h.plan.assets| && |records| == |listed| + 6
    ensures SaysHeader(records[0], h.id, h.plan) && InputValid(h.plan.(assets := listed))
    ensures forall i :: 0 <= i < |listed| ==> SaysAsset(records[i + 1], listed[i])
    ensures forall i, j :: 0 <= i < j < |listed| ==> Lt(h.plan.assets[i].logicalId, h.plan.assets[j].logicalId)
    ensures var t := records[|listed| + 1..];
            && (forall k :: 0 <= k < 4 ==> Has(t[k], KRecord, "section")) && Has(t[4], KRecord, "end")
            && Has(t[0], KSection, "outputs") && Has(t[1], KSection, "tasks") && Has(t[2], KSection, "dependencies")
            && Has(t[3], KSection, "losses")
  {
    hide HeaderOf, AssetOf, SaysHeader, SaysAsset, InputValid, Canonical;
    var rest := records[1..];
    HeaderSays(records[0]);
    LeadingSays(IsAsset, AssetOf, rest);
    listed := LeadingAssets(rest).value;
    forall i | 0 <= i < |listed| ensures SaysAsset(records[i + 1], listed[i]) {
      assert records[i + 1] == rest[i];
      AssetSays(rest[i]);
    }
    CanonicalIncreases(HeaderOf(records[0]).value.plan.(assets := listed));
    HeaderOfSame(records[0], h, listed);
    TrailerSays(rest[|listed|..]);
    assert records[|listed| + 1..] == rest[|listed|..];
  }

  /** The records that are written say the same of the plan they are written for. */
  lemma WrittenSays(p: PlanInput, id: string)
    requires Artifactable(p) && id != ""
    ensures |Records(p, id)| == |p.assets| + 6 && SaysHeader(Records(p, id)[0], id, p)
    ensures forall i :: 0 <= i < |p.assets| ==> SaysAsset(Records(p, id)[i + 1], p.assets[i])
    ensures var t := Records(p, id)[|p.assets| + 1..];
            && (forall k :: 0 <= k < 4 ==> Has(t[k], KRecord, "section")) && Has(t[4], KRecord, "end")
            && Has(t[0], KSection, "outputs") && Has(t[1], KSection, "tasks") && Has(t[2], KSection, "dependencies")
            && Has(t[3], KSection, "losses")
  {
    hide HeaderOf, AssetOf, SaysHeader, SaysAsset, InputValid, InRange, AssetArtifactable, HeaderJson, AssetJson, SectionJson,
         IsAsset;
    HeaderRead(p, id);
    HeaderSays(HeaderJson(p, id));
    HeaderOfNoAssets(HeaderJson(p, id), id, p);
    forall i | 0 <= i < |p.assets| ensures SaysAsset(Records(p, id)[i + 1], p.assets[i]) {
      AssetRead(p.assets[i]);
      IsAssetRecord(AssetJson(p.assets[i]));
      AssetSays(AssetJson(p.assets[i]));
    }
    TrailerRead();
    TrailerSays(TrailerJson());
    assert Records(p, id)[|p.assets| + 1..] == TrailerJson();
  }

  lemma IsAssetRecord(j: Json)
    requires IsRecord(j, "asset")
    ensures IsAsset(j) == Ok(true)
  {
  }

  lemma HeaderOfNoAssets(j: Json, id: string, p: PlanInput)
    requires SaysHeader(j, id, p.(assets := []))
    ensures SaysHeader(j, id, p)
  {
  }

  lemma HeaderOfSame(j: Json, h: Header, listed: seq<PlanAsset>)
    requires HeaderOf(j).Ok? && h == Header(HeaderOf(j).value.id, Canonical(HeaderOf(j).value.plan.(assets := listed)))
    requires SaysHeader(j, HeaderOf(j).value.id, HeaderOf(j).value.plan)
    ensures SaysHeader(j, h.id, h.plan) && h.plan.(assets := listed) == HeaderOf(j).value.plan.(assets := listed)
  {
    hide HeaderOf;
  }

  lemma TrailerSays(t: seq<Json>)
    requires TrailerOk(t)
    ensures |t| == 5 && (forall k :: 0 <= k < 4 ==> Has(t[k], KRecord, "section")) && Has(t[4], KRecord, "end")
    ensures Has(t[0], KSection, "outputs") && Has(t[1], KSection, "tasks") && Has(t[2], KSection, "dependencies")
            && Has(t[3], KSection, "losses")
  {
  }

  // ---------------------------------------------------------------- lines

  function FirstBreak(s: string): (k: nat)
    requires '\n' in s
    ensures k < |s| && s[k] == '\n' && '\n' !in s[..k]
  {
    if s[0] == '\n' then 0 else
      assert s == [s[0]] + s[1..];
      var k := 1 + FirstBreak(s[1..]);
      assert s[..k] == [s[0]] + s[1..][..k - 1];
      k
  }

  predicate LineOk(line: string) {
    line != "" && |line| <= MAX_LINE && line[0] != '\r' && line[|line| - 1] != '\r'
  }

  /** The lines of a text, each ended by a line feed. */
  function SplitLines(s: string): Outcome<seq<string>>
    decreases |s|
  {
    if '\n' !in s then Ok([])
    else
      var k := FirstBreak(s);
      var rest := SplitLines(s[k + 1..]);
      if !LineOk(s[..k]) then Err(InvalidArgument) else Prepend([s[..k]], rest)
  }

  function Lines(s: string): Outcome<seq<string>> {
    if s == "" || s[|s| - 1] != '\n' then Err(InvalidArgument) else SplitLines(s)
  }

  /** Lines put together, each with its line feed. */
  function Ended(lines: seq<string>): string {
    if lines == [] then "" else Ended(lines[..|lines| - 1]) + lines[|lines| - 1] + "\n"
  }

  lemma {:induction false} EndedFromFront(lines: seq<string>)
    requires lines != []
    ensures Ended(lines) == lines[0] + "\n" + Ended(lines[1..])
    decreases |lines|
  {
    if |lines| == 1 {
      assert Ended(lines[..0]) == "" && Ended(lines[1..]) == "";
    } else {
      EndedFromFront(lines[..|lines| - 1]);
      assert lines[..|lines| - 1][1..] == lines[1..][..|lines| - 2];
    }
  }

  lemma FirstBreakAfter(line: string, rest: string)
    requires '\n' !in line
    ensures var s := line + "\n" + rest; '\n' in s && FirstBreak(s) == |line| && s[..|line|] == line && s[|line| + 1..] == rest
  {
    var s := line + "\n" + rest;
    assert s[|line|] == '\n';
    assert s[..|line|] == line;
  }

  lemma {:induction false} LinesRead(lines: seq<string>)
    requires lines != [] && forall i :: 0 <= i < |lines| ==> LineOk(lines[i]) && '\n' !in lines[i]
    ensures Lines(Ended(lines)) == Ok(lines)
    decreases |lines|
  {
    assert Ended(lines)[|Ended(lines)| - 1] == '\n';
    SplitRead(lines);
  }

  lemma {:induction false} SplitRead(lines: seq<string>)
    requires forall i :: 0 <= i < |lines| ==> LineOk(lines[i]) && '\n' !in lines[i]
    ensures SplitLines(Ended(lines)) == Ok(lines)
    decreases |lines|
  {
    if lines != [] {
      EndedFromFront(lines);
      FirstBreakAfter(lines[0], Ended(lines[1..]));
      SplitRead(lines[1..]);
      assert [lines[0]] + lines[1..] == lines;
    }
  }

  lemma SplitStep(s: string, k: nat, rest: string)
    requires '\n' in s && SplitLines(s).Ok? && k == FirstBreak(s) && rest == s[k + 1..]
    ensures LineOk(s[..k]) && '\n' !in s[..k] && SplitLines(rest).Ok?
    ensures SplitLines(s).value == [s[..k]] + SplitLines(rest).value && s == s[..k] + "\n" + rest
  {
    hide LineOk;
    SplitFirst(s);
  }

  lemma EndedCons(line: string, lines: seq<string>)
    ensures Ended([line] + lines) == line + "\n" + Ended(lines)
  {
    EndedFromFront([line] + lines);
  }

  lemma {:induction false} SplitExactly(s: string)
    requires SplitLines(s).Ok? && (s == "" || s[|s| - 1] == '\n')
    ensures var lines := SplitLines(s).value;
            Ended(lines) == s && forall i :: 0 <= i < |lines| ==> LineOk(lines[i]) && '\n' !in lines[i]
    decreases |s|
  {
    hide LineOk, SplitLines, FirstBreak, Ended;
    if '\n' in s {
      var k := FirstBreak(s);
      var rest := s[k + 1..];
      SplitStep(s, k, rest);
      assert rest == "" || rest[|rest| - 1] == s[|s| - 1];
      SplitExactly(rest);
      EndedCons(s[..k], SplitLines(rest).value);
    } else {
      NothingSplit();
    }
  }

  lemma NothingSplit()
    ensures SplitLines("") == Ok([]) && Ended([]) == ""
  {
  }

  /** A text has these lines exactly when it is made of them, each with a line feed at its end; a line is not empty, has at
      most 2^20 bytes and no carriage return at either end. */
  lemma LinesExactly(s: string, lines: seq<string>)
    ensures Lines(s) == Ok(lines) <==>
              && lines != [] && s == Ended(lines)
              && forall i :: 0 <= i < |lines| ==>
                   && lines[i] != "" && |lines[i]| <= 1048576 && lines[i][0] != '\r' && lines[i][|lines[i]| - 1] != '\r'
                   && '\n' !in lines[i]
  {
    if Lines(s) == Ok(lines) {
      SplitExactly(s);
      assert lines == [] ==> Ended(lines) == "";
    }
    if lines != [] && s == Ended(lines) && forall i :: 0 <= i < |lines| ==> LineOk(lines[i]) && '\n' !in lines[i] {
      LinesRead(lines);
    }
  }

  lemma SplitFirst(left: string)
    requires '\n' in left
    ensures var k := FirstBreak(left);
            SplitLines(left) ==
              if LineOk(left[..k]) then Prepend([left[..k]], SplitLines(left[k + 1..])) else Err(InvalidArgument)
  {
    hide FirstBreak, LineOk, Prepend;
  }

  lemma SplitNext(bytes: string, start: nat)
    requires start <= |bytes| && HasBreak(bytes, start)
    ensures var newline := NextBreak(bytes, start);
            && SplitLines(bytes[start..]) ==
                 if LineOk(bytes[start..newline]) then Prepend([bytes[start..newline]], SplitLines(bytes[newline + 1..]))
                 else Err(InvalidArgument)
  {
    hide SplitLines, FirstBreak, LineOk, Prepend;
    var left := bytes[start..];
    var k := FirstBreak(left);
    SplitFirst(left);
    assert left[..k] == bytes[start..start + k] && left[k + 1..] == bytes[start + k + 1..];
  }

  predicate HasBreak(bytes: string, start: nat)
    requires start <= |bytes|
  {
    '\n' in bytes[start..]
  }

  /** find of the next line feed. */
  function NextBreak(bytes: string, start: nat): (newline: nat)
    requires start <= |bytes| && HasBreak(bytes, start)
    ensures start <= newline < |bytes|
  {
    start + FirstBreak(bytes[start..])
  }

  /** The next line, without its line feed, and where it ends; an empty line or one with a carriage return is refused. */
  method TakeLine(bytes: string, start: nat, lines: seq<string>) returns (line: Option<string>, newline: nat)
    requires start <= |bytes| && HasBreak(bytes, start)
    ensures start <= newline < |bytes|
    ensures line.None? ==> Prepend(lines, SplitLines(bytes[start..])) == Err(InvalidArgument)
    ensures line.Some? ==>
              Prepend(lines, SplitLines(bytes[start..])) == Prepend(lines + [line.value], SplitLines(bytes[newline + 1..]))
  {
    hide SplitLines, NextBreak, HasBreak;
    SplitNext(bytes, start);
    newline := NextBreak(bytes, start);
    line := Some(bytes[start..newline]);
    if !LineOk(line.value) {
      return None, newline;
    }
    PrependFacts(lines, line.value, SplitLines(bytes[newline + 1..]));
  }

  method SplitIntoLines(bytes: string) returns (r: Outcome<seq<string>>)
    ensures r == Lines(bytes)
  {
    hide SplitLines, Prepend, HasBreak;
    if bytes == "" || bytes[|bytes| - 1] != '\n' {
      return Err(InvalidArgument);
    }
    var lines: seq<string>, start: nat := [], 0;
    PrependNothing(SplitLines(bytes));
    assert bytes[0..] == bytes;
    while start < |bytes| && HasBreak(bytes, start)
      invariant start <= |bytes| && SplitLines(bytes) == Prepend(lines, SplitLines(bytes[start..]))
      decreases |bytes| - start
    {
      var line, newline := TakeLine(bytes, start, lines);
      if line.None? {
        return Err(InvalidArgument);
      }
      lines := lines + [line.value];
      start := newline + 1;
    }
    SplitEnds(bytes, start);
    PrependEmpty(lines);
    return Ok(lines);
  }

  lemma SplitEnds(bytes: string, start: nat)
    requires start <= |bytes| && (start < |bytes| ==> !HasBreak(bytes, start))
    ensures SplitLines(bytes[start..]) == Ok([])
  {
  }

  lemma PrependEmpty<T>(front: seq<T>)
    ensures Prepend(front, Ok([])) == Ok(front)
  {
    assert front + [] == front;
  }

  function Prepend<T>(front: seq<T>, rest: Outcome<seq<T>>): Outcome<seq<T>> {
    if rest.Err? then rest else Ok(front + rest.value)
  }

  lemma PrependFacts<T>(front: seq<T>, x: T, rest: Outcome<seq<T>>)
    ensures Prepend([], rest) == rest
    ensures Prepend(front + [x], rest) == Prepend(front, Prepend([x], rest))
  {
    if rest.Ok? {
      assert [] + rest.value == rest.value;
      assert (front + [x]) + rest.value == front + ([x] + rest.value);
    }
  }

  lemma PrependNothing<T>(rest: Outcome<seq<T>>)
    ensures Prepend([], rest) == rest
  {
    if rest.Ok? {
      assert [] + rest.value == rest.value;
    }
  }

  /** The loop over the records at the front. */
  method ReadLeading<R, T>(kind: R -> Outcome<bool>, read: R -> Outcome<T>, records: seq<R>) returns (r: Outcome<seq<T>>)
    ensures r == Leading(kind, read, records)
  {
    var values: seq<T>, index := [], 0;
    PrependNothing(Leading(kind, read, records));
    assert records[0..] == records;
    while index < |records|
      invariant index <= |records|
      invariant Leading(kind, read, records) == Prepend(values, Leading(kind, read, records[index..]))
    {
      assert records[index..][0] == records[index] && records[index..][1..] == records[index + 1..];
      var wanted := kind(records[index]);
      if wanted.Err? {
        return Err(InvalidArgument);
      }
      if !wanted.value {
        assert values + [] == values;
        return Ok(values);
      }
      var value := read(records[index]);
      if value.Err? {
        return Err(InvalidArgument);
      }
      PrependFacts(values, value.value, Leading(kind, read, records[index + 1..]));
      values := values + [value.value];
      index := index + 1;
    }
    assert values + [] == values;
    return Ok(values);
  }

  method ReadRecords(records: seq<Json>) returns (r: Outcome<Header>)
    ensures r == ParseRecords(records)
  {
    if records == [] {
      return Err(InvalidArgument);
    }
    var assets := ReadLeading(IsAsset, AssetOf, records[1..]);
    return Combine(HeaderOf(records[0]), assets, records[1..]);
  }

  // ---------------------------------------------------------------- whole artifacts

  /** The JSON library: one record to one line and back. */
  datatype Codec = Codec(dump: Json -> string, parse: string -> Option<Json>)

  datatype FrozenPlan = FrozenPlan(id: string, bytes: string, artifactDigest: Digest, semanticDigest: Digest, plan: PlanInput)

  function ArtifactDigestFor(hash: HashFunction, bytes: string): Digest {
    hash(AsBytes(bytes))
  }

  function SemanticDigestFor(hash: HashFunction, p: PlanInput): Digest {
    hash(AsBytes(SEMANTIC_DOMAIN + Payload(p)))
  }

  function Dumped(codec: Codec, records: seq<Json>): seq<string> {
    seq(|records|, i requires 0 <= i < |records| => codec.dump(records[i]))
  }

  function Frozen(hash: HashFunction, id: string, bytes: string, p: PlanInput): FrozenPlan {
    FrozenPlan(id, bytes, ArtifactDigestFor(hash, bytes), SemanticDigestFor(hash, p), p)
  }

  method WriteFrozenPlan(codec: Codec, hash: HashFunction, p: PlanInput, id: string) returns (r: Outcome<FrozenPlan>)
    ensures r == if ValidId(id) then Ok(Frozen(hash, id, Ended(Dumped(codec, Records(p, id))), p)) else Err(InvalidArgument)
    ensures r.Ok? <==> id != "" && '\0' !in id
    ensures r.Ok? ==> r.value.id == id && r.value.plan == p && r.value.artifactDigest == hash(AsBytes(r.value.bytes))
                      && r.value.semanticDigest == hash(AsBytes("PB_PLAN_SEMANTIC_V1" + Payload(p)))
  {
    if !ValidId(id) {
      return Err(InvalidArgument);
    }
    var records := Records(p, id);
    var bytes := "";
    for i := 0 to |records|
      invariant bytes == Ended(Dumped(codec, records)[..i])
    {
      ghost var lines := Dumped(codec, records);
      assert lines[..i + 1][..i] == lines[..i];
      bytes := bytes + codec.dump(records[i]);
      bytes := bytes + "\n";
    }
    assert Dumped(codec, records)[..|records|] == Dumped(codec, records);
    return Ok(Frozen(hash, id, bytes, p));
  }

  function ParseAll(codec: Codec, lines: seq<string>): Outcome<seq<Json>> {
    if lines == [] then Ok([])
    else
      var before, last := ParseAll(codec, lines[..|lines| - 1]), codec.parse(lines[|lines| - 1]);
      if before.Err? || last.None? then Err(InvalidArgument) else Ok(before.value + [last.value])
  }

  /** What ReadFrozenPlan makes of a text. */
  function ReadFrozen(codec: Codec, hash: HashFunction, bytes: string): Outcome<FrozenPlan> {
    var lines := Lines(bytes);
    if lines.Err? then Err(InvalidArgument)
    else
      var records := ParseAll(codec, lines.value);
      if records.Err? then Err(InvalidArgument)
      else
        var header := ParseRecords(records.value);
        if header.Err? then Err(InvalidArgument) else Ok(Frozen(hash, header.value.id, bytes, header.value.plan))
  }

  lemma {:induction false} ParseErrorStays(codec: Codec, lines: seq<string>, k: nat)
    requires k <= |lines| && ParseAll(codec, lines[..k]).Err?
    ensures ParseAll(codec, lines) == Err(InvalidArgument)
    decreases |lines| - k
  {
    if k == |lines| {
      assert lines[..k] == lines;
    } else {
      assert lines[..k + 1][..k] == lines[..k];
      ParseErrorStays(codec, lines, k + 1);
    }
  }

  /** One record a line; the first line that is none ends the parsing. */
  method ParseLines(codec: Codec, lines: seq<string>) returns (r: Outcome<seq<Json>>)
    ensures r == ParseAll(codec, lines)
  {
    var records: seq<Json> := [];
    for k := 0 to |lines|
      invariant ParseAll(codec, lines[..k]) == Ok(records)
    {
      assert lines[..k + 1][..k] == lines[..k];
      var record := codec.parse(lines[k]);
      if record.None? {
        ParseErrorStays(codec, lines, k + 1);
        return Err(InvalidArgument);
      }
      records := records + [record.value];
    }
    assert lines[..|lines|] == lines;
    return Ok(records);
  }

  method ReadFrozenPlan(codec: Codec, hash: HashFunction, bytes: string) returns (r: Outcome<FrozenPlan>)
    ensures r == ReadFrozen(codec, hash, bytes)
    ensures r.Ok? ==> r.value.bytes == bytes && r.value.artifactDigest == hash(AsBytes(bytes))
                      && r.value.semanticDigest == hash(AsBytes("PB_PLAN_SEMANTIC_V1" + Payload(r.value.plan)))
  {
    var lines := SplitIntoLines(bytes);
    if lines.Err? {
      return Err(InvalidArgument);
    }
    var records := ParseLines(codec, lines.value);
    if records.Err? {
      return Err(InvalidArgument);
    }
    var header := ReadRecords(records.value);
    if header.Err? {
      return Err(InvalidArgument);
    }
    return Ok(Frozen(hash, header.value.id, bytes, header.value.plan));
  }

  /** The library reads its own line back, and the line is one the reader accepts. */
  predicate Faithful(codec: Codec, j: Json) {
    codec.parse(codec.dump(j)) == Some(j) && LineOk(codec.dump(j)) && '\n' !in codec.dump(j)
  }

  lemma {:induction false} ParsedBack(codec: Codec, records: seq<Json>)
    requires forall i :: 0 <= i < |records| ==> Faithful(codec, records[i])
    ensures ParseAll(codec, Dumped(codec, records)) == Ok(records)
    decreases |records|
  {
    if records != [] {
      var last := |records| - 1;
      ParsedBack(codec, records[..last]);
      assert Dumped(codec, records)[..last] == Dumped(codec, records[..last]);
      assert records[..last] + [records[last]] == records;
    }
  }

  lemma DumpedLines(codec: Codec, records: seq<Json>)
    requires forall i :: 0 <= i < |records| ==> Faithful(codec, records[i])
    ensures |Dumped(codec, records)| == |records|
    ensures forall i :: 0 <= i < |records| ==> LineOk(Dumped(codec, records)[i]) && '\n' !in Dumped(codec, records)[i]
  {
    hide LineOk;
  }

  lemma SomeRecords(p: PlanInput, id: string)
    ensures Records(p, id) != []
  {
    hide HeaderJson, AssetsJson, TrailerJson;
  }

  lemma WrittenReads(codec: Codec, hash: HashFunction, p: PlanInput, id: string)
    requires Artifactable(p) && p == Canonical(p) && ValidId(id)
    requires forall i :: 0 <= i < |Records(p, id)| ==> Faithful(codec, Records(p, id)[i])
    ensures var bytes := Ended(Dumped(codec, Records(p, id)));
            ReadFrozen(codec, hash, bytes) == Ok(Frozen(hash, id, bytes, p))
  {
    hide Artifactable, Canonical, Records, ParseRecords, ParseAll, LineOk, Lines, Ended, Dumped, Faithful, Frozen;
    DumpedLines(codec, Records(p, id));
    SomeRecords(p, id);
    LinesRead(Dumped(codec, Records(p, id)));
    ParsedBack(codec, Records(p, id));
    RecordsRead(p, id);
  }

  /** Reading a written artifact gives back the plan, its id and both digests. */
  lemma ReadWritten(codec: Codec, hash: HashFunction, p: PlanInput, id: string)
    requires Artifactable(p) && p == Canonical(p) && ValidId(id)
    requires forall i :: 0 <= i < |Records(p, id)| ==> Faithful(codec, Records(p, id)[i])
    ensures var written := Frozen(hash, id, Ended(Dumped(codec, Records(p, id))), p);
            ReadFrozen(codec, hash, written.bytes) == Ok(written)
  {
    hide Artifactable, Canonical, Records, Ended, Dumped, Faithful, ReadFrozen, ArtifactDigestFor, SemanticDigestFor, ValidId;
    WrittenReads(codec, hash, p, id);
  }
}
