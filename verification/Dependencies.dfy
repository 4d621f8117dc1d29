/** The dependency relation of task_dependency: an edge (t, d) says that t depends on d. */
module Dependencies {
  type Edges = set<(string, string)>

  /** A walk along dependency edges. */
  ghost predicate IsPath(deps: Edges, p: seq<string>) {
    |p| > 0 && forall i {:trigger p[i]} :: 0 <= i < |p| - 1 ==> (p[i], p[i + 1]) in deps
  }

  ghost predicate PathFrom(deps: Edges, p: seq<string>, from: string, to: string) {
    IsPath(deps, p) && p[0] == from && p[|p| - 1] == to
  }

  ghost predicate Reaches(deps: Edges, from: string, to: string) {
    exists p :: PathFrom(deps, p, from, to)
  }

  ghost predicate Acyclic(deps: Edges) {
    forall p :: IsPath(deps, p) && |p| >= 2 ==> p[0] != p[|p| - 1]
  }

  lemma ReachesExtends(deps: Edges, from: string, mid: string, to: string)
    requires Reaches(deps, from, mid) && (mid, to) in deps
    ensures Reaches(deps, from, to)
  {
    var p :| PathFrom(deps, p, from, mid);
    assert PathFrom(deps, p + [to], from, to);
  }

  lemma ReachesSelf(deps: Edges, x: string)
    ensures Reaches(deps, x, x)
  {
    assert PathFrom(deps, [x], x, x);
  }

  /** A set that holds the start and is closed under edges holds everything reachable. */
  lemma {:induction false} ClosedHoldsPath(deps: Edges, s: set<string>, p: seq<string>, k: nat)
    requires IsPath(deps, p) && p[0] in s && k < |p|
    requires forall e :: e in deps && e.0 in s ==> e.1 in s
    ensures p[k] in s
    decreases k
  {
    if k > 0 {
      ClosedHoldsPath(deps, s, p, k - 1);
      assert (p[k - 1], p[k]) in deps;
    }
  }

  /** The recursive query `ancestors`: a work list over dependency edges, with UNION dropping repeats. */
  method Ancestors(deps: Edges, start: string) returns (seen: set<string>)
    ensures forall x :: x in seen <==> Reaches(deps, start, x)
  {
    seen := {start};
    var rest := deps;
    ReachesSelf(deps, start);
    while exists e :: e in rest && e.0 in seen
      invariant rest <= deps && start in seen
      invariant forall x :: x in seen ==> Reaches(deps, start, x)
      invariant forall e :: e in deps - rest ==> e.0 in seen && e.1 in seen
      decreases |rest|
    {
      var e :| e in rest && e.0 in seen;
      ReachesExtends(deps, start, e.0, e.1);
      seen := seen + {e.1};
      rest := rest - {e};
    }
    forall x | Reaches(deps, start, x) ensures x in seen {
      var p :| PathFrom(deps, p, start, x);
      forall e | e in deps && e.0 in seen ensures e.1 in seen {
        assert e in deps - rest;
      }
      ClosedHoldsPath(deps, seen, p, |p| - 1);
    }
  }

  /** A walk that avoids leaving `t` before its end cannot use an edge out of `t`. */
  lemma {:induction false} FirstVisit(p: seq<string>, t: string) returns (j: nat)
    requires t in p
    ensures j < |p| && p[j] == t && forall i :: 0 <= i < j ==> p[i] != t
    decreases |p|
  {
    if p[0] == t {
      j := 0;
    } else {
      assert p == [p[0]] + p[1..];
      var k := FirstVisit(p[1..], t);
      j := k + 1;
      forall i | 0 <= i < j ensures p[i] != t {
        if i > 0 {
          assert p[i] == p[1..][i - 1];
        }
      }
    }
  }

  lemma NewEdgeUnneeded(deps: Edges, t: string, d: string, q: seq<string>)
    requires PathFrom(deps + {(t, d)}, q, d, t)
    ensures Reaches(deps, d, t)
  {
    assert q[|q| - 1] == t;
    var j := FirstVisit(q, t);
    var p := q[..j + 1];
    forall i | 0 <= i < |p| - 1 ensures (p[i], p[i + 1]) in deps {
      assert (q[i], q[i + 1]) in deps + {(t, d)} && q[i] != t;
    }
    assert PathFrom(deps, p, d, t);
  }

  /** Rotate a cycle through the new edge so that it starts right after it. */
  lemma RotateCycle(deps: Edges, p: seq<string>, i: nat)
    requires IsPath(deps, p) && |p| >= 2 && p[0] == p[|p| - 1] && i < |p| - 1
    ensures PathFrom(deps, p[i + 1..] + p[1..i + 1], p[i + 1], p[i])
  {
    var q := p[i + 1..] + p[1..i + 1];
    var n := |p| - 1 - i;
    forall k | 0 <= k < |q| - 1 ensures (q[k], q[k + 1]) in deps {
      if k + 1 < n {
        assert q[k] == p[i + 1 + k] && q[k + 1] == p[i + 2 + k];
      } else if k + 1 == n {
        assert q[k] == p[|p| - 1] == p[0] && q[k + 1] == p[1];
      } else {
        assert q[k] == p[k - n + 1] && q[k + 1] == p[k - n + 2];
      }
    }
  }

  /** AddDependency's cycle test is exact: the edge keeps the graph acyclic if and only if the
      dependency does not already reach the task. */
  lemma EdgeKeepsAcyclicIff(deps: Edges, t: string, d: string)
    requires Acyclic(deps) && t != d
    ensures Acyclic(deps + {(t, d)}) <==> !Reaches(deps, d, t)
  {
    var more := deps + {(t, d)};
    if Reaches(deps, d, t) {
      var p :| PathFrom(deps, p, d, t);
      var cycle := [t] + p;
      forall i | 0 <= i < |cycle| - 1 ensures (cycle[i], cycle[i + 1]) in more {
        if i > 0 {
          assert (p[i - 1], p[i]) in deps;
        }
      }
      assert IsPath(more, cycle) && cycle[0] == cycle[|cycle| - 1];
    } else {
      forall p | IsPath(more, p) && |p| >= 2 ensures p[0] != p[|p| - 1] {
        if i :| 0 <= i < |p| - 1 && (p[i], p[i + 1]) == (t, d) {
          if p[0] == p[|p| - 1] {
            RotateCycle(more, p, i);
            NewEdgeUnneeded(deps, t, d, p[i + 1..] + p[1..i + 1]);
          }
        } else {
          forall i | 0 <= i < |p| - 1 ensures (p[i], p[i + 1]) in deps {
            assert (p[i], p[i + 1]) in more;
          }
          assert IsPath(deps, p);
        }
      }
    }
  }

  /** One more step of a walk in an acyclic graph never revisits a task. */
  lemma StepIsNew(deps: Edges, p: seq<string>, x: string)
    requires Acyclic(deps) && IsPath(deps, p) && (p[|p| - 1], x) in deps
    ensures x !in p && IsPath(deps, p + [x])
  {
    var q := p + [x];
    assert IsPath(deps, q);
    forall i | 0 <= i < |p| ensures p[i] != x {
      var loop := q[i..];
      forall k | 0 <= k < |loop| - 1 ensures (loop[k], loop[k + 1]) in deps {
        assert loop[k] == q[i + k] && loop[k + 1] == q[i + k + 1];
      }
      assert IsPath(deps, loop) && loop[0] == p[i] && loop[|loop| - 1] == x;
    }
  }

  /** Walk down inside `s` until a member has no dependency in `s`; `p` is the walk, `left` what it has not met. */
  lemma {:induction false} WalkToMinimal(deps: Edges, s: set<string>, p: seq<string>, left: set<string>) returns (m: string)
    requires Acyclic(deps) && IsPath(deps, p) && p[|p| - 1] in s
    requires forall x :: x in s && x !in p ==> x in left
    ensures m in s && forall e :: e in deps && e.0 == m ==> e.1 !in s
    decreases left
  {
    var last := p[|p| - 1];
    if e :| e in deps && e.0 == last && e.1 in s {
      StepIsNew(deps, p, e.1);
      m := WalkToMinimal(deps, s, p + [e.1], left - {e.1});
    } else {
      m := last;
    }
  }

  /** In an acyclic graph every non-empty set of tasks has one that depends on none of the others. */
  lemma MinimalExists(deps: Edges, s: set<string>) returns (m: string)
    requires Acyclic(deps) && s != {}
    ensures m in s && forall e :: e in deps && e.0 == m ==> e.1 !in s
  {
    var x :| x in s;
    m := WalkToMinimal(deps, s, [x], s);
  }
}
