/** Shared vocabulary: optional values, status codes, bytes and the byte-wise order
    that std::string comparison and SQLite's BINARY collation both use. */
module Common {
  datatype Option<+T> = None | Some(value: T)

  /** The error codes of photobridge::StatusCode; success is `Outcome.Ok`. */
  datatype Code = InvalidArgument | NotFound | AlreadyExists | PermissionDenied | IoError | Internal

  datatype Outcome<+T> = Ok(value: T) | Err(code: Code)

  type Status = Outcome<()>

  newtype byte = x: int | 0 <= x < 256

  type Bytes = seq<byte>

  type Digest = Bytes

  function Members(s: seq<string>): set<string> {
    set x | x in s
  }

  const INT64_MAX: int := 0x7FFF_FFFF_FFFF_FFFF
  const UINT32_MAX: int := 0xFFFF_FFFF
  const UINT64_LIMIT: int := 0x1_0000_0000_0000_0000
}

/** Lexicographic order on strings, with the facts that make it a total order. */
module StringOrder {
  predicate Le(a: string, b: string)
    decreases |a|
  {
    |a| == 0 || (|b| > 0 && (a[0] < b[0] || (a[0] == b[0] && Le(a[1..], b[1..]))))
  }

  predicate Lt(a: string, b: string) {
    Le(a, b) && a != b
  }

  lemma {:induction false} LeReflexive(a: string)
    ensures Le(a, a)
    decreases |a|
  {
    if |a| > 0 {
      LeReflexive(a[1..]);
    }
  }

  lemma {:induction false} LeTotal(a: string, b: string)
    ensures Le(a, b) || Le(b, a)
    decreases |a|
  {
    if |a| > 0 && |b| > 0 && a[0] == b[0] {
      LeTotal(a[1..], b[1..]);
    }
  }

  lemma {:induction false} LeTransitive(a: string, b: string, c: string)
    requires Le(a, b) && Le(b, c)
    ensures Le(a, c)
    decreases |a|
  {
    if |a| > 0 && a[0] == b[0] == c[0] {
      LeTransitive(a[1..], b[1..], c[1..]);
    }
  }

  lemma {:induction false} LeAntisymmetric(a: string, b: string)
    requires Le(a, b) && Le(b, a)
    ensures a == b
    decreases |a|
  {
    if |a| > 0 {
      LeAntisymmetric(a[1..], b[1..]);
      assert a == [a[0]] + a[1..] && b == [b[0]] + b[1..];
    }
  }

  /** They agree up to k, and there `a` ends or has the smaller character. */
  predicate DiffersAt(a: string, b: string, k: nat) {
    k <= |a| && k < |b| && a[..k] == b[..k] && (k == |a| || a[k] < b[k])
  }

  lemma FirstAgrees(a: string, b: string, k: nat)
    requires 0 < k <= |a| && k <= |b| && a[..k] == b[..k]
    ensures a[0] == b[0]
  {
    assert a[..k][0] == b[..k][0];
  }

  /** The order is that of the first difference, and a proper beginning comes first. */
  lemma {:induction false} LtExactly(a: string, b: string)
    ensures Lt(a, b) <==> exists k: nat :: DiffersAt(a, b, k)
    decreases |a|
  {
    if a == "" || b == "" || a[0] != b[0] {
      assert b != "" && (a == "" || a[0] < b[0]) ==> DiffersAt(a, b, 0);
      forall k: nat | DiffersAt(a, b, k) ensures b != "" && (a == "" || a[0] < b[0]) {
        if k > 0 {
          FirstAgrees(a, b, k);
        }
      }
    } else {
      var c, d := a[1..], b[1..];
      LtExactly(c, d);
      assert a == [a[0]] + c && b == [b[0]] + d;
      if Lt(c, d) {
        var k: nat :| DiffersAt(c, d, k);
        assert a[..k + 1] == [a[0]] + c[..k] && b[..k + 1] == [b[0]] + d[..k];
        assert DiffersAt(a, b, k + 1);
      }
      forall k: nat | DiffersAt(a, b, k) ensures Lt(c, d) {
        assert k > 0;
        assert c[..k - 1] == a[..k][1..] && d[..k - 1] == b[..k][1..];
        assert DiffersAt(c, d, k - 1);
      }
    }
  }

  /** Every non-empty finite set of strings has a least element. */
  lemma {:induction false} LeastExists(s: set<string>) returns (least: string)
    requires s != {}
    ensures least in s && forall x :: x in s ==> Le(least, x)
    decreases s
  {
    var x :| x in s;
    var rest := s - {x};
    LeReflexive(x);
    if rest == {} {
      least := x;
      forall z | z in s ensures z == x {
        assert z !in rest;
      }
    } else {
      var y := LeastExists(rest);
      LeTotal(x, y);
      if Le(x, y) {
        least := x;
        forall z | z in s ensures Le(x, z) {
          if z != x {
            LeTransitive(x, y, z);
          }
        }
      } else {
        least := y;
      }
    }
  }
}

/** Sums of weights over a sequence. */
module Sums {
  function Sum<T>(s: seq<T>, weight: T -> int): int {
    if s == [] then 0 else Sum(s[..|s| - 1], weight) + weight(s[|s| - 1])
  }

  lemma {:induction false} SumUpdate<T>(s: seq<T>, weight: T -> int, i: nat, x: T)
    requires i < |s|
    ensures Sum(s[i := x], weight) == Sum(s, weight) - weight(s[i]) + weight(x)
    decreases |s|
  {
    var last := |s| - 1;
    if i == last {
      assert s[i := x][..last] == s[..last];
    } else {
      SumUpdate(s[..last], weight, i, x);
      assert s[i := x][..last] == s[..last][i := x];
    }
  }

  lemma SumAppend<T>(s: seq<T>, weight: T -> int, x: T)
    ensures Sum(s + [x], weight) == Sum(s, weight) + weight(x)
  {
    assert (s + [x])[..|s|] == s;
  }

  lemma {:induction false} SumSame<T>(s: seq<T>, f: T -> int, g: T -> int)
    requires forall k :: 0 <= k < |s| ==> f(s[k]) == g(s[k])
    ensures Sum(s, f) == Sum(s, g)
    decreases |s|
  {
    if s != [] {
      SumSame(s[..|s| - 1], f, g);
    }
  }

  lemma {:induction false} SumNonNegative<T>(s: seq<T>, weight: T -> int)
    requires forall k :: 0 <= k < |s| ==> weight(s[k]) >= 0
    ensures Sum(s, weight) >= 0
    decreases |s|
  {
    if s != [] {
      SumNonNegative(s[..|s| - 1], weight);
    }
  }
}
