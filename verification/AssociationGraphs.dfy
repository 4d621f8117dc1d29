/** The association graph of src/model/association_graph.cpp: logical assets are the connected components of the
    confirmed composition edges, computed with union-find. */
module AssociationGraphs {
  import opened Common
  import opened StringOrder
  import opened Sorting
  import opened Components
  import opened LogicalAssets
  import TempNames
  import Digests

  datatype EdgeKind = Composition | MetadataAttachment | AssetRelation
  datatype RelationType = JsonSidecar | XmpSidecar | LivePhotoMotion | RawJpegPair
  datatype AssociationStatus = Confirmed | Ambiguous | Rejected
  datatype Evidence = Evidence(rule: string, detail: string)
  datatype AssociationEdge = AssociationEdge(
    kind: EdgeKind, lhs: string, rhs: string, relation: RelationType, rule: string, evidence: Evidence,
    status: AssociationStatus)

  predicate Joins(e: AssociationEdge) {
    e.kind == Composition && e.status == Confirmed
  }

  /** The pairs joined by confirmed composition edges. */
  function LinksOf(edges: seq<AssociationEdge>): Links {
    set i | 0 <= i < |edges| && Joins(edges[i]) :: (edges[i].lhs, edges[i].rhs)
  }

  /** The comparison used to order composition edges before they are joined. */
  predicate EdgeLe(a: AssociationEdge, b: AssociationEdge) {
    if a.lhs != b.lhs then Le(a.lhs, b.lhs)
    else if a.rhs != b.rhs then Le(a.rhs, b.rhs)
    else if a.rule != b.rule then Le(a.rule, b.rule)
    else Le(a.evidence.detail, b.evidence.detail)
  }

  predicate ById(a: LogicalAsset, b: LogicalAsset) {
    Le(a.id, b.id)
  }

  function AssetsOf(hash: TempNames.HashFunction, classes: seq<seq<string>>): seq<LogicalAsset> {
    seq(|classes|, k requires 0 <= k < |classes| => LogicalAsset(LogicalId(hash, classes[k]), classes[k]))
  }

  /** The answer for a list of components: one asset each, ordered by id. */
  function Finish(hash: TempNames.HashFunction, classes: seq<seq<string>>): seq<LogicalAsset> {
    Sort(ById, AssetsOf(hash, classes))
  }

  function MemberLists(assets: seq<LogicalAsset>): seq<seq<string>> {
    seq(|assets|, k requires 0 <= k < |assets| => assets[k].members)
  }

  /** Ordered by id; every vertex is a member of an asset, members are in increasing order and are vertices, and two vertices
      are members of one asset if and only if they are connected. */
  ghost predicate AreLogicalAssets(vertices: seq<string>, links: Links, assets: seq<LogicalAsset>) {
    && (forall j, k :: 0 <= j < k < |assets| ==> Le(assets[j].id, assets[k].id))
    && (forall k :: 0 <= k < |assets| ==> assets[k].members != [] && Increasing(assets[k].members))
    && (forall k, x :: 0 <= k < |assets| && x in assets[k].members ==> x in vertices)
    && (forall x :: x in vertices ==> exists k :: 0 <= k < |assets| && x in assets[k].members)
    && (forall j, k, x, y :: 0 <= j < |assets| && 0 <= k < |assets| && x in assets[j].members && y in assets[k].members ==>
          (j == k <==> Connected(links, x, y)))
  }

  lemma LinksAreJoined(edges: seq<AssociationEdge>)
    ensures LinksOf(edges) == set e | e in edges && e.kind == Composition && e.status == Confirmed :: (e.lhs, e.rhs)
  {
    var links := set e | e in edges && e.kind == Composition && e.status == Confirmed :: (e.lhs, e.rhs);
    forall l ensures l in LinksOf(edges) <==> l in links {
      LinkFromEdge(edges, l);
    }
  }

  function Without<T>(s: seq<T>, i: nat): seq<T>
    requires i < |s|
  {
    s[..i] + s[i + 1..]
  }

  lemma WithoutOne<T>(s: seq<T>, i: nat)
    requires i < |s|
    ensures multiset(Without(s, i)) == multiset(s) - multiset{s[i]} && multiset(s) == multiset(Without(s, i)) + multiset{s[i]}
  {
    assert s == s[..i] + ([s[i]] + s[i + 1..]);
  }

  lemma MemberListsWithout(s: seq<LogicalAsset>, i: nat)
    requires i < |s|
    ensures MemberLists(Without(s, i)) == Without(MemberLists(s), i)
  {
  }

  lemma {:induction false} MemberListsPermute(a: seq<LogicalAsset>, b: seq<LogicalAsset>)
    requires multiset(a) == multiset(b)
    ensures multiset(MemberLists(a)) == multiset(MemberLists(b))
    decreases |a|
  {
    hide Without;
    SameMembers(a, b);
    if a != [] {
      assert a[0] in b;
      var i :| 0 <= i < |b| && b[i] == a[0];
      WithoutOne(a, 0);
      WithoutOne(b, i);
      SameMembers(Without(a, 0), Without(b, i));
      assert |Without(a, 0)| < |a| by {
        assert |multiset(a)| == |multiset(Without(a, 0))| + 1;
      }
      MemberListsPermute(Without(a, 0), Without(b, i));
      MemberListsWithout(a, 0);
      MemberListsWithout(b, i);
      WithoutOne(MemberLists(a), 0);
      WithoutOne(MemberLists(b), i);
    }
  }

  lemma FinishPermutes(hash: TempNames.HashFunction, classes: seq<seq<string>>)
    ensures multiset(MemberLists(Finish(hash, classes))) == multiset(classes)
    ensures forall a :: a in Finish(hash, classes) ==> a.id == LogicalId(hash, a.members)
  {
    var assets := AssetsOf(hash, classes);
    FinishIsSorted(hash, classes);
    MemberListsPermute(Finish(hash, classes), assets);
    assert MemberLists(assets) == classes;
    SameMembers(Finish(hash, classes), assets);
  }

  /** The assets of different components are different, and so they are after sorting. */
  lemma FinishDistinct(hash: TempNames.HashFunction, vertices: set<string>, links: Links, classes: seq<seq<string>>)
    requires IsComponents(vertices, links, classes)
    ensures forall j, k :: 0 <= j < k < |Finish(hash, classes)| ==> Finish(hash, classes)[j] != Finish(hash, classes)[k]
    ensures forall a :: a in Finish(hash, classes) <==> a in AssetsOf(hash, classes)
  {
    var assets, done := AssetsOf(hash, classes), Finish(hash, classes);
    FinishIsSorted(hash, classes);
    SameMembers(done, assets);
    forall m, n | 0 <= m < n < |assets| ensures assets[m] != assets[n] {
      assert Lt(classes[m][0], classes[n][0]);
    }
    DistinctCounts(assets);
    forall j, k | 0 <= j < k < |done| ensures done[j] != done[k] {
      assert done[j] in done;
      if done[j] == done[k] {
        TwiceCounts(done, j, k);
      }
    }
  }

  lemma FinishMember(hash: TempNames.HashFunction, vertices: set<string>, links: Links, classes: seq<seq<string>>, j: nat)
    returns (c: nat)
    requires IsComponents(vertices, links, classes) && j < |Finish(hash, classes)|
    ensures c < |classes| && Finish(hash, classes)[j] == AssetsOf(hash, classes)[c]
  {
    FinishDistinct(hash, vertices, links, classes);
    assert Finish(hash, classes)[j] in AssetsOf(hash, classes);
    c :| 0 <= c < |classes| && AssetsOf(hash, classes)[c] == Finish(hash, classes)[j];
  }

  lemma FinishShares(
    hash: TempNames.HashFunction, vertices: set<string>, links: Links, classes: seq<seq<string>>, j: nat, k: nat, x: string, y: string)
    requires IsComponents(vertices, links, classes) && j < |Finish(hash, classes)| && k < |Finish(hash, classes)|
    requires x in Finish(hash, classes)[j].members && y in Finish(hash, classes)[k].members
    ensures j == k <==> Connected(links, x, y)
  {
    hide Finish;
    var c := FinishMember(hash, vertices, links, classes, j);
    var d := FinishMember(hash, vertices, links, classes, k);
    FinishDistinct(hash, vertices, links, classes);
    assert x in classes[c] && y in classes[d];
  }

  lemma FinishIsPartition(hash: TempNames.HashFunction, vertices: seq<string>, links: Links, classes: seq<seq<string>>)
    requires IsComponents(Members(vertices), links, classes)
    ensures AreLogicalAssets(vertices, links, Finish(hash, classes))
  {
    hide Finish;
    var assets, done := AssetsOf(hash, classes), Finish(hash, classes);
    FinishIsSorted(hash, classes);
    FinishDistinct(hash, Members(vertices), links, classes);
    forall k | 0 <= k < |done|
      ensures done[k].members != [] && Increasing(done[k].members) && forall x :: x in done[k].members ==> x in vertices
    {
      var c := FinishMember(hash, Members(vertices), links, classes, k);
      assert done[k].members == classes[c];
      forall x | x in done[k].members ensures x in vertices {
        assert x in Members(vertices);
      }
    }
    forall x | x in vertices ensures exists k :: 0 <= k < |done| && x in done[k].members {
      assert x in Members(vertices);
      var c :| 0 <= c < |classes| && x in classes[c];
      assert assets[c] in done;
    }
    forall j, k, x, y | 0 <= j < |done| && 0 <= k < |done| && x in done[j].members && y in done[k].members
      ensures j == k <==> Connected(links, x, y)
    {
      FinishShares(hash, Members(vertices), links, classes, j, k, x, y);
    }
  }

  // ---------------------------------------------------------------- blocks of the forest

  /** The vertices below n whose root is r, in order. */
  function Block(vs: seq<string>, p: seq<nat>, r: nat, n: nat): seq<string>
    requires Forest(p) && |vs| == |p| && n <= |p|
  {
    if n == 0 then [] else Block(vs, p, r, n - 1) + (if Root(p, n - 1) == r then [vs[n - 1]] else [])
  }

  lemma {:induction false} BlockMembers(vs: seq<string>, p: seq<nat>, r: nat, n: nat, x: string)
    requires Forest(p) && |vs| == |p| && n <= |p|
    ensures x in Block(vs, p, r, n) <==> exists i :: 0 <= i < n && Root(p, i) == r && vs[i] == x
    decreases n
  {
    if n > 0 {
      BlockMembers(vs, p, r, n - 1, x);
      if x in Block(vs, p, r, n) && x !in Block(vs, p, r, n - 1) {
        assert Root(p, n - 1) == r && vs[n - 1] == x;
      }
    }
  }

  lemma {:induction false} BlockIncreasing(vs: seq<string>, p: seq<nat>, r: nat, n: nat)
    requires Forest(p) && |vs| == |p| && n <= |p| && Increasing(vs)
    ensures Increasing(Block(vs, p, r, n))
    decreases n
  {
    if n > 0 {
      BlockIncreasing(vs, p, r, n - 1);
      var before := Block(vs, p, r, n - 1);
      forall i | 0 <= i < |before| ensures Lt(before[i], vs[n - 1]) {
        BlockMembers(vs, p, r, n - 1, before[i]);
        assert before[i] in before;
      }
    }
  }

  /** A block starts with its root. */
  lemma {:induction false} BlockHead(vs: seq<string>, p: seq<nat>, r: nat, n: nat)
    requires Forest(p) && |vs| == |p| && n <= |p| && r < |p| && p[r] == r
    ensures n <= r ==> Block(vs, p, r, n) == []
    ensures n > r ==> Block(vs, p, r, n) != [] && Block(vs, p, r, n)[0] == vs[r]
    decreases n
  {
    if n > 0 {
      BlockHead(vs, p, r, n - 1);
    }
  }

  /** Roots tell components apart. */
  ghost predicate RootsAreComponents(vs: seq<string>, p: seq<nat>, links: Links)
    requires Forest(p) && |vs| == |p|
  {
    forall i, j :: 0 <= i < |p| && 0 <= j < |p| ==> (Root(p, i) == Root(p, j) <==> Connected(links, vs[i], vs[j]))
  }

  function IndexOf(vs: seq<string>, x: string): nat
    requires x in vs
    ensures IndexOf(vs, x) < |vs| && vs[IndexOf(vs, x)] == x
  {
    if vs[0] == x then 0 else 1 + IndexOf(vs[1..], x)
  }

  lemma IncreasingIndex(vs: seq<string>, i: nat)
    requires Increasing(vs) && i < |vs|
    ensures IndexOf(vs, vs[i]) == i
  {
    var k := IndexOf(vs, vs[i]);
    assert k < i ==> Lt(vs[k], vs[i]);
    assert i < k ==> Lt(vs[i], vs[k]);
  }

  function Label(vs: seq<string>, p: seq<nat>, x: string): int
    requires Forest(p) && |vs| == |p|
  {
    if x in vs then Root(p, IndexOf(vs, x)) else -1
  }

  /** Every vertex is connected to its root, and the ends of every link have one root. */
  ghost predicate Sound(vs: seq<string>, p: seq<nat>, links: Links) {
    Forest(p) && |vs| == |p| && forall i :: 0 <= i < |p| ==> Connected(links, vs[i], vs[Root(p, i)])
  }

  ghost predicate Joined(vs: seq<string>, p: seq<nat>, a: string, b: string) {
    Forest(p) && |vs| == |p| && a in vs && b in vs && Label(vs, p, a) == Label(vs, p, b)
  }

  lemma RootsMeet(vs: seq<string>, p: seq<nat>, links: Links, i: nat, j: nat)
    requires Sound(vs, p, links) && i < |p| && j < |p| && Root(p, i) == Root(p, j)
    ensures Connected(links, vs[i], vs[j])
  {
    ConnectedSym(links, vs[j], vs[Root(p, j)]);
    ConnectedTrans(links, vs[i], vs[Root(p, i)], vs[j]);
  }

  /** Along a chain of links the root stays the same. */
  lemma ConnectedMeet(vs: seq<string>, p: seq<nat>, links: Links, i: nat, j: nat)
    requires Forest(p) && |vs| == |p| && Increasing(vs) && i < |p| && j < |p| && Connected(links, vs[i], vs[j])
    requires forall e :: e in links ==> Joined(vs, p, e.0, e.1)
    ensures Root(p, i) == Root(p, j)
  {
    hide Increasing, Root, IndexOf, Forest;
    var q :| ChainFrom(links, q, vs[i], vs[j]);
    var cls := x => if Forest(p) && |vs| == |p| then Label(vs, p, x) else 0;
    SameLabel(links, cls, q, |q| - 1);
    IncreasingIndex(vs, i);
    IncreasingIndex(vs, j);
  }

  lemma JoinedEverywhere(vs: seq<string>, p: seq<nat>, links: Links)
    requires Sound(vs, p, links) && Increasing(vs) && forall e :: e in links ==> Joined(vs, p, e.0, e.1)
    ensures RootsAreComponents(vs, p, links)
  {
    hide Increasing, Connected, Joined, Forest, Root;
    forall i, j | 0 <= i < |p| && 0 <= j < |p|
      ensures Root(p, i) == Root(p, j) <==> Connected(links, vs[i], vs[j])
    {
      if Root(p, i) == Root(p, j) {
        RootsMeet(vs, p, links, i, j);
      }
      if Connected(links, vs[i], vs[j]) {
        ConnectedMeet(vs, p, links, i, j);
      }
    }
  }

  /** Linking two roots whose trees an edge connects. */
  lemma LinkSound(vs: seq<string>, p: seq<nat>, links: Links, i: nat, j: nat, low: nat, high: nat)
    requires Sound(vs, p, links) && Increasing(vs) && i < |p| && j < |p| && Connected(links, vs[i], vs[j])
    requires low < high && ((low == Root(p, i) && high == Root(p, j)) || (low == Root(p, j) && high == Root(p, i)))
    ensures Sound(vs, p[high := low], links)
    ensures Root(p[high := low], i) == Root(p[high := low], j)
    ensures forall a, b :: Joined(vs, p, a, b) ==> Joined(vs, p[high := low], a, b)
  {
    var p' := p[high := low];
    forall k | 0 <= k < |p| ensures Forest(p') && Root(p', k) == if Root(p, k) == high then low else Root(p, k) {
      LinkMovesRoots(p, low, high, k);
    }
    ConnectedSym(links, vs[i], vs[j]);
    RootsConnected(vs, p, links, i, j);
    RootsConnected(vs, p, links, j, i);
    forall k | 0 <= k < |p'| ensures Connected(links, vs[k], vs[Root(p', k)]) {
      if Root(p, k) == high {
        ConnectedTrans(links, vs[k], vs[high], vs[low]);
      }
    }
  }

  lemma RootsConnected(vs: seq<string>, p: seq<nat>, links: Links, i: nat, j: nat)
    requires Sound(vs, p, links) && i < |p| && j < |p| && Connected(links, vs[i], vs[j])
    ensures Connected(links, vs[Root(p, i)], vs[Root(p, j)])
  {
    ConnectedSym(links, vs[i], vs[Root(p, i)]);
    ConnectedTrans(links, vs[Root(p, i)], vs[i], vs[j]);
    ConnectedTrans(links, vs[Root(p, i)], vs[j], vs[Root(p, j)]);
  }

  // ---------------------------------------------------------------- the algorithm

  lemma SameRootsKeep(vs: seq<string>, p: seq<nat>, p': seq<nat>, links: Links)
    requires Sound(vs, p, links) && Forest(p') && |p'| == |p| && forall k :: 0 <= k < |p| ==> Root(p', k) == Root(p, k)
    ensures Sound(vs, p', links) && forall a, b :: Joined(vs, p, a, b) ==> Joined(vs, p', a, b)
  {
  }

  /** std::lower_bound on the sorted vertices. */
  method LowerBound(vs: seq<string>, x: string) returns (i: nat)
    ensures i <= |vs|
    ensures Increasing(vs) && x in vs ==> i < |vs| && vs[i] == x
  {
    i := 0;
    while i < |vs| && !Le(x, vs[i])
      invariant i <= |vs| && forall k :: 0 <= k < i ==> !Le(x, vs[k])
    {
      i := i + 1;
    }
    if Increasing(vs) && x in vs {
      var k :| 0 <= k < |vs| && vs[k] == x;
      LeReflexive(x);
      assert i <= k;
      if i < k {
        LeAntisymmetric(vs[i], x);
      }
    }
  }

  /** One composition edge: find both roots and link the larger under the smaller. */
  method Union(vs: seq<string>, parent: array<nat>, i: nat, j: nat, ghost links: Links)
    requires i < parent.Length && j < parent.Length && Sound(vs, parent[..], links) && Increasing(vs)
    requires Connected(links, vs[i], vs[j])
    modifies parent
    ensures Sound(vs, parent[..], links) && Joined(vs, parent[..], vs[i], vs[j])
    ensures forall a, b :: Joined(vs, old(parent[..]), a, b) ==> Joined(vs, parent[..], a, b)
  {
    var left := FindRoot(parent, i);
    SameRootsKeep(vs, old(parent[..]), parent[..], links);
    ghost var between := parent[..];
    var right := FindRoot(parent, j);
    SameRootsKeep(vs, between, parent[..], links);
    ghost var found := parent[..];
    IncreasingIndex(vs, i);
    IncreasingIndex(vs, j);
    if left != right {
      LinkSound(vs, found, links, i, j, if left < right then left else right, if left < right then right else left);
      if left < right {
        parent[right] := left;
        assert parent[..] == found[right := left];
      } else {
        parent[left] := right;
        assert parent[..] == found[left := right];
      }
    }
  }

  /** All composition edges, in the order of the sorted list; `lost` when an endpoint is not a vertex. */
  method UnionAll(vs: seq<string>, parent: array<nat>, edges: seq<AssociationEdge>, ghost links: Links) returns (lost: bool)
    requires Sound(vs, parent[..], links) && Increasing(vs)
    requires forall k :: 0 <= k < |edges| ==>
               edges[k].lhs in vs && edges[k].rhs in vs && (edges[k].lhs, edges[k].rhs) in links
    modifies parent
    ensures !lost && Sound(vs, parent[..], links)
    ensures forall k :: 0 <= k < |edges| ==> Joined(vs, parent[..], edges[k].lhs, edges[k].rhs)
  {
    lost := false;
    var k := 0;
    while k < |edges| && !lost
      invariant k <= |edges| && !lost && Sound(vs, parent[..], links)
      invariant forall m :: 0 <= m < k ==> Joined(vs, parent[..], edges[m].lhs, edges[m].rhs)
      decreases |edges| - k
    {
      lost := UnionEdge(vs, parent, edges[k], links);
      if !lost {
        k := k + 1;
      }
    }
  }

  method UnionEdge(vs: seq<string>, parent: array<nat>, edge: AssociationEdge, ghost links: Links) returns (lost: bool)
    requires Sound(vs, parent[..], links) && Increasing(vs)
    requires edge.lhs in vs && edge.rhs in vs && (edge.lhs, edge.rhs) in links
    modifies parent
    ensures !lost && Sound(vs, parent[..], links) && Joined(vs, parent[..], edge.lhs, edge.rhs)
    ensures forall a, b :: Joined(vs, old(parent[..]), a, b) ==> Joined(vs, parent[..], a, b)
  {
    lost := false;
    var left := LowerBound(vs, edge.lhs);
    var right := LowerBound(vs, edge.rhs);
    if left == |vs| || right == |vs| || vs[left] != edge.lhs || vs[right] != edge.rhs {
      lost := true;
    } else {
      LinkConnects(links, vs[left], vs[right]);
      Union(vs, parent, left, right, links);
    }
  }

  ghost predicate GroupIs(vs: seq<string>, p: seq<nat>, groups: map<nat, seq<string>>, n: nat, r: nat)
    requires Forest(p) && |vs| == |p| && n <= |p|
  {
    if r in groups then r < |p| && p[r] == r && groups[r] == Block(vs, p, r, n)
    else r < |p| ==> Block(vs, p, r, n) == []
  }

  /** What the ordered map from roots to members holds after the first n vertices. */
  ghost predicate Grouped(vs: seq<string>, p: seq<nat>, groups: map<nat, seq<string>>, n: nat)
    requires Forest(p) && |vs| == |p| && n <= |p|
  {
    && (forall r: nat {:trigger GroupIs(vs, p, groups, n, r)} :: GroupIs(vs, p, groups, n, r))
    && (forall i :: 0 <= i < n ==> Root(p, i) in groups)
  }

  function AddMember(groups: map<nat, seq<string>>, root: nat, x: string): map<nat, seq<string>> {
    groups[root := (if root in groups then groups[root] else []) + [x]]
  }

  lemma GroupNext(vs: seq<string>, p: seq<nat>, groups: map<nat, seq<string>>, n: nat)
    requires Forest(p) && |vs| == |p| && n < |p| && Grouped(vs, p, groups, n)
    ensures Grouped(vs, p, AddMember(groups, Root(p, n), vs[n]), n + 1)
  {
    var groups' := AddMember(groups, Root(p, n), vs[n]);
    var m := n + 1;
    forall r: nat ensures GroupIs(vs, p, groups', m, r) {
      assert GroupIs(vs, p, groups, n, r);
    }
  }

  method Group(vs: seq<string>, parent: array<nat>, ghost p: seq<nat>) returns (groups: map<nat, seq<string>>)
    requires Forest(parent[..]) && p == parent[..] && |vs| == |p|
    modifies parent
    ensures Grouped(vs, p, groups, |vs|)
  {
    groups := map[];
    for index := 0 to |vs|
      invariant parent.Length == |vs| && Forest(parent[..]) && Grouped(vs, p, groups, index)
      invariant forall k :: 0 <= k < |p| ==> Root(parent[..], k) == Root(p, k)
    {
      GroupNext(vs, p, groups, index);
      var root := FindRoot(parent, index);
      groups := AddMember(groups, root, vs[index]);
    }
  }

  /** `classes` holds the groups of the keys below n, in key order; `roots` are those keys. */
  ghost predicate Listed(groups: map<nat, seq<string>>, classes: seq<seq<string>>, roots: seq<nat>, n: nat) {
    && |roots| == |classes|
    && (forall k :: 0 <= k < |roots| ==> roots[k] in groups && roots[k] < n && classes[k] == groups[roots[k]])
    && (forall j, k :: 0 <= j < k < |roots| ==> roots[j] < roots[k])
    && (forall r :: r in groups && r < n ==> r in roots)
  }

  lemma ListedNext(groups: map<nat, seq<string>>, classes: seq<seq<string>>, roots: seq<nat>, n: nat)
    requires Listed(groups, classes, roots, n)
    ensures if n in groups then Listed(groups, classes + [groups[n]], roots + [n], n + 1) else Listed(groups, classes, roots, n + 1)
  {
    if n in groups {
      var roots': seq<nat>, classes' := roots + [n], classes + [groups[n]];
      forall k | 0 <= k < |roots'| ensures roots'[k] in groups && roots'[k] < n + 1 && classes'[k] == groups[roots'[k]] {
        assert k < |roots| ==> roots'[k] == roots[k] && classes'[k] == classes[k];
      }
      assert roots'[|roots|] == n;
      forall r | r in groups && r < n + 1 ensures r in roots' {
        assert r < n ==> r in roots;
      }
    }
  }

  /** The map read in key order. */
  method Blocks(groups: map<nat, seq<string>>, n: nat) returns (classes: seq<seq<string>>, ghost roots: seq<nat>)
    ensures Listed(groups, classes, roots, n)
  {
    classes, roots := [], [];
    for r := 0 to n
      invariant Listed(groups, classes, roots, r)
    {
      ListedNext(groups, classes, roots, r);
      if r in groups {
        classes, roots := classes + [groups[r]], roots + [r];
      }
    }
  }

  ghost predicate ClassIs(vs: seq<string>, p: seq<nat>, members: seq<string>, r: nat)
    requires Forest(p) && |vs| == |p|
  {
    && r < |p| && members != [] && Increasing(members) && members[0] == vs[r]
    && forall x :: x in members <==> InBlock(vs, p, r, x)
  }

  lemma BlockClass(vs: seq<string>, p: seq<nat>, r: nat)
    requires Forest(p) && |vs| == |p| && Increasing(vs) && r < |p| && p[r] == r
    ensures ClassIs(vs, p, Block(vs, p, r, |vs|), r)
  {
    BlockHead(vs, p, r, |vs|);
    BlockIncreasing(vs, p, r, |vs|);
    forall x ensures x in Block(vs, p, r, |vs|) <==> InBlock(vs, p, r, x) {
      BlockMembers(vs, p, r, |vs|, x);
    }
  }

  lemma BlocksMeet(
    vs: seq<string>, p: seq<nat>, links: Links, xs: seq<string>, r: nat, x: string, ys: seq<string>, s: nat, y: string)
    requires Forest(p) && |vs| == |p| && RootsAreComponents(vs, p, links)
    requires ClassIs(vs, p, xs, r) && ClassIs(vs, p, ys, s) && x in xs && y in ys
    ensures r == s <==> Connected(links, x, y)
  {
    hide Connected, Increasing, Forest, Root;
    assert InBlock(vs, p, r, x) && InBlock(vs, p, s, y);
  }

  /** Classes of a forest whose roots are the components list the components. */
  lemma {:induction false} ClassesAreComponents(vs: seq<string>, p: seq<nat>, links: Links, classes: seq<seq<string>>, roots: seq<nat>)
    requires Forest(p) && |vs| == |p| && Increasing(vs) && RootsAreComponents(vs, p, links)
    requires |roots| == |classes| && forall k :: 0 <= k < |roots| ==> ClassIs(vs, p, classes[k], roots[k])
    requires forall j, k :: 0 <= j < k < |roots| ==> roots[j] < roots[k]
    requires forall i :: 0 <= i < |p| ==> Root(p, i) in roots
    ensures IsComponents(Members(vs), links, classes)
  {
    hide Connected, Forest, Root, RootsAreComponents;
    forall x | x in Members(vs) ensures exists k :: 0 <= k < |classes| && x in classes[k] {
      var i :| 0 <= i < |vs| && vs[i] == x;
      var k :| 0 <= k < |roots| && roots[k] == Root(p, i);
      assert InBlock(vs, p, roots[k], x);
    }
    forall j, k, x, y | 0 <= j < |classes| && 0 <= k < |classes| && x in classes[j] && y in classes[k]
      ensures j == k <==> Connected(links, x, y)
    {
      assert j < k ==> roots[j] < roots[k];
      assert k < j ==> roots[k] < roots[j];
      BlocksMeet(vs, p, links, classes[j], roots[j], x, classes[k], roots[k], y);
    }
  }

  lemma BlocksAreComponents(
    vs: seq<string>, p: seq<nat>, links: Links, groups: map<nat, seq<string>>, classes: seq<seq<string>>, roots: seq<nat>)
    requires Forest(p) && |vs| == |p| && Increasing(vs) && RootsAreComponents(vs, p, links) && Grouped(vs, p, groups, |vs|)
    requires Listed(groups, classes, roots, |vs|)
    ensures IsComponents(Members(vs), links, classes)
  {
    forall k | 0 <= k < |roots| ensures ClassIs(vs, p, classes[k], roots[k]) {
      assert GroupIs(vs, p, groups, |vs|, roots[k]);
      BlockClass(vs, p, roots[k]);
    }
    ClassesAreComponents(vs, p, links, classes, roots);
  }

  ghost predicate InBlock(vs: seq<string>, p: seq<nat>, r: nat, x: string)
    requires Forest(p) && |vs| == |p|
  {
    exists i :: 0 <= i < |p| && Root(p, i) == r && vs[i] == x
  }

  // ---------------------------------------------------------------- the graph

  class AssociationGraph {
    var vertices: seq<string>
    var edges: seq<AssociationEdge>

    ghost predicate Valid()
      reads this
    {
      && "" !in vertices && (forall i, j :: 0 <= i < j < |vertices| ==> vertices[i] != vertices[j])
      && (forall k :: 0 <= k < |edges| ==>
            edges[k].lhs in vertices && edges[k].rhs in vertices && edges[k].lhs != edges[k].rhs)
      && (forall i, j :: 0 <= i < j < |edges| ==> edges[i] != edges[j])
    }

    constructor ()
      ensures Valid() && vertices == [] && edges == []
    {
      vertices, edges := [], [];
    }

    method AddVertex(id: string) returns (status: Status)
      requires Valid()
      modifies this`vertices
      ensures Valid()
      ensures status == if id == "" then Err(InvalidArgument)
                        else if id in old(vertices) then Err(AlreadyExists) else Ok(())
      ensures vertices == if status.Ok? then old(vertices) + [id] else old(vertices)
    {
      if id == "" {
        return Err(InvalidArgument);
      }
      if id in vertices {
        return Err(AlreadyExists);
      }
      vertices := vertices + [id];
      return Ok(());
    }

    method AddEdge(edge: AssociationEdge) returns (status: Status)
      requires Valid()
      modifies this`edges
      ensures Valid()
      ensures status == if edge.lhs == "" || edge.rhs == "" then Err(InvalidArgument)
                        else if edge.lhs !in vertices || edge.rhs !in vertices then Err(NotFound)
                        else if edge.lhs == edge.rhs then Err(InvalidArgument)
                        else if edge in old(edges) then Err(AlreadyExists) else Ok(())
      ensures edges == if status.Ok? then old(edges) + [edge] else old(edges)
    {
      if edge.lhs == "" || edge.rhs == "" {
        return Err(InvalidArgument);
      }
      if edge.lhs !in vertices || edge.rhs !in vertices {
        return Err(NotFound);
      }
      if edge.lhs == edge.rhs {
        return Err(InvalidArgument);
      }
      if edge in edges {
        return Err(AlreadyExists);
      }
      edges := edges + [edge];
      return Ok(());
    }

    /** The edges that join, sorted. */
    method CompositionEdges() returns (joining: seq<AssociationEdge>)
      ensures forall e :: e in joining <==> e in edges && Joins(e)
    {
      var kept: seq<AssociationEdge> := [];
      for k := 0 to |edges|
        invariant forall e :: e in kept <==> e in edges[..k] && Joins(e)
      {
        if Joins(edges[k]) {
          kept := kept + [edges[k]];
        }
      }
      joining := Sort(EdgeLe, kept);
      SortPermutes(EdgeLe, kept);
      SameMembers(joining, kept);
    }

    /** The logical assets are exactly the connected components of the confirmed composition edges: every vertex is in
        one asset, two vertices share an asset if and only if they are connected, members are in increasing order. */
    method BuildLogicalAssets(hash: TempNames.HashFunction) returns (result: Outcome<seq<LogicalAsset>>, classes: seq<seq<string>>)
      requires Valid()
      ensures IsComponents(Members(vertices), LinksOf(edges), classes)
      ensures result == Ok(Finish(hash, classes))
      ensures result.Ok? && multiset(MemberLists(result.value)) == multiset(classes)
      ensures AreLogicalAssets(vertices, set e | e in edges && e.kind == Composition && e.status == Confirmed :: (e.lhs, e.rhs),
                               result.value)
      ensures forall k :: 0 <= k < |result.value| ==>
                result.value[k].id == "logical-" + Digests.Hex(hash(
                  TempNames.AsBytes("PB_LOGICAL_ASSET_V1") + TempNames.AsBytes(MembersJson(result.value[k].members))))
    {
      var vs := Sort(Le, vertices);
      SortIncreasing(vertices);
      var joining := CompositionEdges();
      assert LinksOf(joining) == LinksOf(edges) by {
        SameLinks(joining, edges);
      }
      EndsAreVertices(joining, vs, edges);
      var lost;
      classes, lost := FindClasses(vs, joining);
      assert Members(vs) == Members(vertices);
      forall k | 0 <= k < |classes| ensures "" !in classes[k] {
        assert "" in classes[k] ==> "" in Members(vertices);
      }
      var assets := NameAll(hash, classes);
      result := if lost || assets.Err? then Err(Internal) else Ok(Sort(ById, assets.value));
      LinksAreJoined(edges);
      FinishIsPartition(hash, vertices, LinksOf(edges), classes);
      FinishPermutes(hash, classes);
    }
  }

  lemma SameLinks(joining: seq<AssociationEdge>, edges: seq<AssociationEdge>)
    requires forall e :: e in joining <==> e in edges && Joins(e)
    ensures LinksOf(joining) == LinksOf(edges)
  {
    forall e ensures e in LinksOf(joining) <==> e in LinksOf(edges) {
      LinkFromEdge(joining, e);
      LinkFromEdge(edges, e);
    }
  }

  lemma EndsAreVertices(joining: seq<AssociationEdge>, vs: seq<string>, edges: seq<AssociationEdge>)
    requires forall e :: e in joining <==> e in edges && Joins(e)
    requires forall k :: 0 <= k < |edges| ==> edges[k].lhs in vs && edges[k].rhs in vs
    ensures forall k :: 0 <= k < |joining| ==> joining[k].lhs in vs && joining[k].rhs in vs && Joins(joining[k])
  {
    forall k | 0 <= k < |joining| ensures joining[k].lhs in vs && joining[k].rhs in vs && Joins(joining[k]) {
      assert joining[k] in joining && joining[k] in edges;
      var i :| 0 <= i < |edges| && edges[i] == joining[k];
    }
  }

  /** Union-find over the sorted vertices, then the groups in the order of their roots. */
  method FindClasses(vs: seq<string>, joining: seq<AssociationEdge>) returns (classes: seq<seq<string>>, lost: bool)
    requires Increasing(vs)
    requires forall k :: 0 <= k < |joining| ==> joining[k].lhs in vs && joining[k].rhs in vs && Joins(joining[k])
    ensures !lost && IsComponents(Members(vs), LinksOf(joining), classes)
  {
    var parent := new nat[|vs|](i => i);
    ghost var links := LinksOf(joining);
    IdentitySound(vs, parent[..], links);
    lost := UnionAll(vs, parent, joining, links);
    LinksJoined(vs, parent[..], joining);
    ghost var p := parent[..];
    JoinedEverywhere(vs, p, links);
    var groups := Group(vs, parent, p);
    ghost var roots;
    classes, roots := Blocks(groups, |vs|);
    BlocksAreComponents(vs, p, links, groups, classes, roots);
  }

  /** An id for every component; none of the checks on member lists can fail. */
  method NameAll(hash: TempNames.HashFunction, classes: seq<seq<string>>) returns (assets: Outcome<seq<LogicalAsset>>)
    requires forall k :: 0 <= k < |classes| ==> classes[k] != [] && "" !in classes[k] && Increasing(classes[k])
    ensures assets == Ok(AssetsOf(hash, classes))
  {
    var named: seq<LogicalAsset> := [];
    var failed := false;
    var k := 0;
    while k < |classes| && !failed
      invariant k <= |classes| && !failed && |named| == k
      invariant forall m :: 0 <= m < k ==> named[m] == AssetsOf(hash, classes)[m]
      decreases |classes| - k
    {
      ClassIsNameable(classes[k]);
      var id := LogicalAssetIdForMembers(hash, classes[k]);
      if id.Err? {
        failed := true;
      } else {
        named := named + [LogicalAsset(id.value, classes[k])];
        k := k + 1;
      }
    }
    assert named == AssetsOf(hash, classes);
    assets := if failed then Err(Internal) else Ok(named);
  }

  lemma ClassIsNameable(members: seq<string>)
    requires Increasing(members)
    ensures Sort(Le, members) == members
    ensures forall i, j :: 0 <= i < j < |members| ==> members[i] != members[j]
  {
    SortIncreasing(members);
    IncreasingUnique(Sort(Le, members), members);
  }

  lemma IdentitySound(vs: seq<string>, p: seq<nat>, links: Links)
    requires |vs| == |p| && forall i :: 0 <= i < |p| ==> p[i] == i
    ensures Sound(vs, p, links)
  {
    forall i | 0 <= i < |p| ensures Connected(links, vs[i], vs[Root(p, i)]) {
      ConnectedSelf(links, vs[i]);
    }
  }

  lemma LinksJoined(vs: seq<string>, p: seq<nat>, joining: seq<AssociationEdge>)
    requires forall k :: 0 <= k < |joining| ==> Joined(vs, p, joining[k].lhs, joining[k].rhs)
    ensures forall e :: e in LinksOf(joining) ==> Joined(vs, p, e.0, e.1)
  {
  }

  /** Two graphs with the same vertices and the same joined pairs, added in whatever order, have the same logical assets. */
  lemma OrderDoesNotMatter(
    hash: TempNames.HashFunction, vs: seq<string>, es: seq<AssociationEdge>, vs': seq<string>, es': seq<AssociationEdge>,
    c: seq<seq<string>>, c': seq<seq<string>>)
    requires multiset(vs) == multiset(vs') && multiset(es) == multiset(es')
    requires IsComponents(Members(vs), LinksOf(es), c) && IsComponents(Members(vs'), LinksOf(es'), c')
    ensures Finish(hash, c) == Finish(hash, c')
  {
    SameMembers(vs, vs');
    SameMembers(es, es');
    assert Members(vs) == Members(vs');
    forall e ensures e in LinksOf(es) <==> e in LinksOf(es') {
      LinkFromEdge(es, e);
      LinkFromEdge(es', e);
    }
    assert LinksOf(es) == LinksOf(es');
    ComponentsUnique(Members(vs), LinksOf(es), c, c');
  }

  lemma LinkFromEdge(es: seq<AssociationEdge>, e: (string, string))
    ensures e in LinksOf(es) <==> exists edge :: edge in es && Joins(edge) && (edge.lhs, edge.rhs) == e
  {
  }

  /** The answer is a permutation of the components' assets, in the order of their ids. */
  lemma FinishIsSorted(hash: TempNames.HashFunction, classes: seq<seq<string>>)
    ensures Sorted(ById, Finish(hash, classes))
    ensures multiset(Finish(hash, classes)) == multiset(AssetsOf(hash, classes))
  {
    LeIsTotalOrder();
    SortSorts(ById, AssetsOf(hash, classes));
    SortPermutes(ById, AssetsOf(hash, classes));
  }

  /** Assets with the same id are the same asset, unless the hash collides. */
  lemma IdsTellComponentsApart(hash: TempNames.HashFunction, m: seq<string>, n: seq<string>)
    requires m != [] && n != [] && LogicalId(hash, m) == LogicalId(hash, n)
    requires TempNames.IsByteString(MembersJson(m)) && TempNames.IsByteString(MembersJson(n))
    ensures m == n || TempNames.Collides(hash,
              TempNames.AsBytes(LOGICAL_DOMAIN) + TempNames.AsBytes(MembersJson(m)),
              TempNames.AsBytes(LOGICAL_DOMAIN) + TempNames.AsBytes(MembersJson(n)))
  {
    var d := TempNames.AsBytes(LOGICAL_DOMAIN);
    var x, y := d + TempNames.AsBytes(MembersJson(m)), d + TempNames.AsBytes(MembersJson(n));
    assert LogicalId(hash, m)[8..] == Digests.Hex(hash(x)) && LogicalId(hash, n)[8..] == Digests.Hex(hash(y));
    Digests.HexInjective(hash(x), hash(y));
    if x == y {
      assert x[|d|..] == TempNames.AsBytes(MembersJson(m)) && y[|d|..] == TempNames.AsBytes(MembersJson(n));
      TempNames.AsBytesInjective(MembersJson(m), MembersJson(n));
      MembersJsonInjective(m, n);
    }
  }
}
