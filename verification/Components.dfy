/** Connected components of an undirected graph over strings, and the union-find forest that computes them
    (src/model/association_graph.cpp). */
module Components {
  import opened StringOrder
  import opened Sorting

  type Links = set<(string, string)>

  ghost predicate Chain(links: Links, p: seq<string>) {
    |p| > 0 && forall i {:trigger p[i]} :: 0 <= i < |p| - 1 ==> (p[i], p[i + 1]) in links || (p[i + 1], p[i]) in links
  }

  ghost predicate ChainFrom(links: Links, p: seq<string>, a: string, b: string) {
    Chain(links, p) && p[0] == a && p[|p| - 1] == b
  }

  /** There is a chain of links between a and b; links have no direction. */
  ghost predicate Connected(links: Links, a: string, b: string) {
    exists p :: ChainFrom(links, p, a, b)
  }

  lemma ConnectedSelf(links: Links, a: string)
    ensures Connected(links, a, a)
  {
    assert ChainFrom(links, [a], a, a);
  }

  lemma ConnectedTrans(links: Links, a: string, b: string, c: string)
    requires Connected(links, a, b) && Connected(links, b, c)
    ensures Connected(links, a, c)
  {
    var p :| ChainFrom(links, p, a, b);
    var q :| ChainFrom(links, q, b, c);
    var r := p + q[1..];
    forall i | 0 <= i < |r| - 1 ensures (r[i], r[i + 1]) in links || (r[i + 1], r[i]) in links {
      if i + 1 < |p| {
        assert r[i] == p[i] && r[i + 1] == p[i + 1];
      } else {
        assert r[i] == q[i - |p| + 1] && r[i + 1] == q[i - |p| + 2];
      }
    }
    assert ChainFrom(links, r, a, c);
  }

  lemma LinkConnects(links: Links, a: string, b: string)
    requires (a, b) in links || (b, a) in links
    ensures Connected(links, a, b)
  {
    assert ChainFrom(links, [a, b], a, b);
  }

  function Reverse(p: seq<string>): seq<string> {
    seq(|p|, i requires 0 <= i < |p| => p[|p| - 1 - i])
  }

  lemma ConnectedSym(links: Links, a: string, b: string)
    requires Connected(links, a, b)
    ensures Connected(links, b, a)
  {
    var p :| ChainFrom(links, p, a, b);
    var r := Reverse(p);
    forall i | 0 <= i < |r| - 1 ensures (r[i], r[i + 1]) in links || (r[i + 1], r[i]) in links {
      var k := |p| - 2 - i;
      assert (p[k], p[k + 1]) in links || (p[k + 1], p[k]) in links;
    }
    assert ChainFrom(links, r, b, a);
  }

  /** A labelling that agrees along every link agrees along every chain. */
  lemma {:induction false} SameLabel(links: Links, cls: string -> int, p: seq<string>, k: nat)
    requires Chain(links, p) && k < |p| && forall e :: e in links ==> cls(e.0) == cls(e.1)
    ensures cls(p[k]) == cls(p[0])
  {
    if k > 0 {
      SameLabel(links, cls, p, k - 1);
      assert (p[k - 1], p[k]) in links || (p[k], p[k - 1]) in links;
    }
  }

  // ---------------------------------------------------------------- the list of components

  /** `classes` lists the components of `vertices`: each with its members in increasing order, ordered by first member. */
  ghost predicate IsComponents(vertices: set<string>, links: Links, classes: seq<seq<string>>) {
    && (forall k :: 0 <= k < |classes| ==> classes[k] != [] && Increasing(classes[k]))
    && (forall k, x :: 0 <= k < |classes| && x in classes[k] ==> x in vertices)
    && (forall x :: x in vertices ==> exists k :: 0 <= k < |classes| && x in classes[k])
    && (forall j, k, x, y :: 0 <= j < |classes| && 0 <= k < |classes| && x in classes[j] && y in classes[k] ==>
          (j == k <==> Connected(links, x, y)))
    && (forall j, k :: 0 <= j < k < |classes| ==> Lt(classes[j][0], classes[k][0]))
  }

  function Heads(classes: seq<seq<string>>): seq<string>
    requires forall k :: 0 <= k < |classes| ==> classes[k] != []
  {
    seq(|classes|, k requires 0 <= k < |classes| => classes[k][0])
  }

  /** The least vertex of its component. */
  ghost predicate IsLeast(vertices: set<string>, links: Links, x: string) {
    x in vertices && forall y :: y in vertices && Connected(links, x, y) ==> Le(x, y)
  }

  lemma HeadsAreLeast(vertices: set<string>, links: Links, classes: seq<seq<string>>, x: string)
    requires IsComponents(vertices, links, classes)
    ensures x in Heads(classes) <==> IsLeast(vertices, links, x)
  {
    if x in Heads(classes) {
      var k :| 0 <= k < |classes| && classes[k][0] == x;
      forall y | y in vertices && Connected(links, x, y) ensures Le(x, y) {
        var j :| 0 <= j < |classes| && y in classes[j];
        assert x in classes[k] && j == k;
        LeastFirst(classes[k], y);
      }
    }
    if IsLeast(vertices, links, x) {
      var k :| 0 <= k < |classes| && x in classes[k];
      assert classes[k][0] in classes[k];
      LeastFirst(classes[k], x);
      LeAntisymmetric(x, classes[k][0]);
      assert Heads(classes)[k] == x;
    }
  }

  lemma SameClass(vertices: set<string>, links: Links, c: seq<seq<string>>, d: seq<seq<string>>, k: nat)
    requires IsComponents(vertices, links, c) && IsComponents(vertices, links, d)
    requires k < |c| && k < |d| && c[k][0] == d[k][0]
    ensures c[k] == d[k]
  {
    forall x ensures x in c[k] <==> x in d[k] {
      MemberOfClass(vertices, links, c, k, x);
      MemberOfClass(vertices, links, d, k, x);
    }
    IncreasingUnique(c[k], d[k]);
  }

  lemma MemberOfClass(vertices: set<string>, links: Links, classes: seq<seq<string>>, k: nat, x: string)
    requires IsComponents(vertices, links, classes) && k < |classes|
    ensures x in classes[k] <==> x in vertices && Connected(links, classes[k][0], x)
  {
    assert classes[k][0] in classes[k];
    if x in vertices && Connected(links, classes[k][0], x) {
      var j :| 0 <= j < |classes| && x in classes[j];
    }
  }

  /** The list is determined by the vertices and the links as sets. */
  lemma ComponentsUnique(vertices: set<string>, links: Links, c: seq<seq<string>>, d: seq<seq<string>>)
    requires IsComponents(vertices, links, c) && IsComponents(vertices, links, d)
    ensures c == d
  {
    forall x ensures x in Heads(c) <==> x in Heads(d) {
      HeadsAreLeast(vertices, links, c, x);
      HeadsAreLeast(vertices, links, d, x);
    }
    IncreasingUnique(Heads(c), Heads(d));
    assert |c| == |Heads(c)| == |Heads(d)| == |d|;
    forall k | 0 <= k < |c| ensures c[k] == d[k] {
      assert Heads(c)[k] == Heads(d)[k];
      SameClass(vertices, links, c, d, k);
    }
  }

  // ---------------------------------------------------------------- the forest

  /** parent[i] <= i is what makes find_root end; linking and compression keep it. */
  predicate Forest(p: seq<nat>) {
    forall i :: 0 <= i < |p| ==> p[i] <= i
  }

  function Root(p: seq<nat>, i: nat): (r: nat)
    requires Forest(p) && i < |p|
    ensures r <= i && p[r] == r
    decreases i
  {
    if p[i] == i then i else Root(p, p[i])
  }

  lemma {:induction false} CompressKeepsRoots(p: seq<nat>, i: nat, k: nat)
    requires Forest(p) && i < |p| && k < |p|
    ensures Forest(p[i := Root(p, i)]) && Root(p[i := Root(p, i)], k) == Root(p, k)
    decreases k
  {
    if k == i {
      var r := Root(p, i);
      if r != i {
        assert p[i := r][r] == r;
      }
    } else if p[k] != k {
      CompressKeepsRoots(p, i, p[k]);
    }
  }

  lemma {:induction false} LinkMovesRoots(p: seq<nat>, low: nat, high: nat, k: nat)
    requires Forest(p) && low < high < |p| && p[low] == low && p[high] == high && k < |p|
    ensures Forest(p[high := low])
    ensures Root(p[high := low], k) == if Root(p, k) == high then low else Root(p, k)
    decreases k
  {
    if k != high && p[k] != k {
      LinkMovesRoots(p, low, high, p[k]);
    }
  }

  /** find_root: walk to the root, then point every node of the walk at it. */
  method FindRoot(parent: array<nat>, index: nat) returns (root: nat)
    requires Forest(parent[..]) && index < parent.Length
    modifies parent
    ensures Forest(parent[..]) && root == Root(old(parent[..]), index)
    ensures forall k :: 0 <= k < parent.Length ==> Root(parent[..], k) == Root(old(parent[..]), k)
  {
    root := index;
    while parent[root] != root
      invariant root <= index && Root(parent[..], root) == Root(parent[..], index)
      decreases root
    {
      root := parent[root];
    }
    var at: nat := index;
    while parent[at] != at
      invariant at <= index && Forest(parent[..]) && Root(parent[..], at) == root
      invariant forall k :: 0 <= k < parent.Length ==> Root(parent[..], k) == Root(old(parent[..]), k)
      decreases at
    {
      var next := parent[at];
      ghost var p := parent[..];
      forall k | 0 <= k < parent.Length ensures Forest(p[at := root]) && Root(p[at := root], k) == Root(p, k) {
        CompressKeepsRoots(p, at, k);
      }
      parent[at] := root;
      assert parent[..] == p[at := root];
      at := next;
    }
  }
}
