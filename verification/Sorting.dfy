/** std::sort as a function, and what fixes its result. */
module Sorting {
  import opened StringOrder

  function Insert<T>(le: (T, T) -> bool, x: T, s: seq<T>): seq<T> {
    if s == [] then [x]
    else if le(x, s[0]) then [x] + s
    else [s[0]] + Insert(le, x, s[1..])
  }

  function Sort<T>(le: (T, T) -> bool, s: seq<T>): seq<T> {
    if s == [] then [] else Insert(le, s[0], Sort(le, s[1..]))
  }

  ghost predicate TotalOrder<T(!new)>(le: (T, T) -> bool) {
    && (forall a, b :: le(a, b) || le(b, a))
    && (forall a, b, c :: le(a, b) && le(b, c) ==> le(a, c))
  }

  predicate Sorted<T>(le: (T, T) -> bool, s: seq<T>) {
    forall i, j :: 0 <= i < j < |s| ==> le(s[i], s[j])
  }

  lemma {:induction false} InsertPermutes<T>(le: (T, T) -> bool, x: T, s: seq<T>)
    ensures multiset(Insert(le, x, s)) == multiset([x] + s)
    decreases |s|
  {
    if s != [] && !le(x, s[0]) {
      InsertPermutes(le, x, s[1..]);
      assert s == [s[0]] + s[1..];
    }
  }

  lemma {:induction false} SortPermutes<T>(le: (T, T) -> bool, s: seq<T>)
    ensures multiset(Sort(le, s)) == multiset(s)
    decreases |s|
  {
    if s != [] {
      SortPermutes(le, s[1..]);
      InsertPermutes(le, s[0], Sort(le, s[1..]));
      assert s == [s[0]] + s[1..];
    }
  }

  lemma SameMembers<T>(s: seq<T>, t: seq<T>)
    requires multiset(s) == multiset(t)
    ensures |s| == |t| && forall x :: x in s <==> x in t
  {
    assert |multiset(s)| == |multiset(t)|;
    forall x ensures x in s <==> x in t {
      assert x in s <==> x in multiset(s);
      assert x in t <==> x in multiset(t);
    }
  }

  lemma {:induction false} InsertSorted<T(!new)>(le: (T, T) -> bool, x: T, s: seq<T>)
    requires TotalOrder(le) && Sorted(le, s)
    ensures Sorted(le, Insert(le, x, s))
    decreases |s|
  {
    if s != [] {
      if le(x, s[0]) {
        assert le(s[0], s[0]);
      } else {
        var rest := Insert(le, x, s[1..]);
        InsertSorted(le, x, s[1..]);
        InsertPermutes(le, x, s[1..]);
        SameMembers(rest, [x] + s[1..]);
        forall j | 0 <= j < |rest| ensures le(s[0], rest[j]) {
          assert rest[j] in rest;
        }
      }
    }
  }

  lemma {:induction false} SortSorts<T(!new)>(le: (T, T) -> bool, s: seq<T>)
    requires TotalOrder(le)
    ensures Sorted(le, Sort(le, s))
    decreases |s|
  {
    if s != [] {
      SortSorts(le, s[1..]);
      InsertSorted(le, s[0], Sort(le, s[1..]));
    }
  }

  lemma TailMultiset<T>(s: seq<T>)
    requires s != []
    ensures multiset(s[1..]) == multiset(s) - multiset{s[0]}
  {
    assert s == [s[0]] + s[1..];
  }

  lemma SameHead<T>(le: (T, T) -> bool, s: seq<T>, t: seq<T>)
    requires Sorted(le, s) && Sorted(le, t) && s != [] && t != [] && forall x :: x in s <==> x in t
    requires forall x, y :: x in s && y in s && le(x, y) && le(y, x) ==> x == y
    ensures s[0] == t[0]
  {
    assert s[0] in t && t[0] in s;
    var i :| 0 <= i < |t| && t[i] == s[0];
    var j :| 0 <= j < |s| && s[j] == t[0];
    if i != 0 && j != 0 {
      assert le(t[0], t[i]) && le(s[0], s[j]);
    }
  }

  /** Sorting by a key that tells the elements apart has one result, whatever order they come in. */
  lemma {:induction false} SortedUnique<T>(le: (T, T) -> bool, s: seq<T>, t: seq<T>)
    requires Sorted(le, s) && Sorted(le, t) && multiset(s) == multiset(t)
    requires forall x, y :: x in s && y in s && le(x, y) && le(y, x) ==> x == y
    ensures s == t
    decreases |s|
  {
    SameMembers(s, t);
    if s != [] {
      SameHead(le, s, t);
      TailMultiset(s);
      TailMultiset(t);
      forall x | x in s[1..] ensures x in s {
        assert s == [s[0]] + s[1..];
      }
      SortedUnique(le, s[1..], t[1..]);
      assert s == [s[0]] + s[1..] && t == [t[0]] + t[1..];
    }
  }

  lemma SortInvariant<T(!new)>(le: (T, T) -> bool, s: seq<T>, t: seq<T>)
    requires TotalOrder(le) && multiset(s) == multiset(t)
    requires forall x, y :: x in s && y in s && le(x, y) && le(y, x) ==> x == y
    ensures Sort(le, s) == Sort(le, t)
  {
    SortSorts(le, s);
    SortSorts(le, t);
    SortPermutes(le, s);
    SortPermutes(le, t);
    SameMembers(s, Sort(le, s));
    SortedUnique(le, Sort(le, s), Sort(le, t));
  }

  lemma LeIsTotalOrder()
    ensures TotalOrder(Le)
  {
    forall a, b ensures Le(a, b) || Le(b, a) {
      LeTotal(a, b);
    }
    forall a, b, c | Le(a, b) && Le(b, c) ensures Le(a, c) {
      LeTransitive(a, b, c);
    }
  }

  /** Strictly increasing strings. */
  predicate Increasing(s: seq<string>) {
    forall i, j :: 0 <= i < j < |s| ==> Lt(s[i], s[j])
  }

  lemma {:induction false} IncreasingUnique(s: seq<string>, t: seq<string>)
    requires Increasing(s) && Increasing(t) && forall x :: x in s <==> x in t
    ensures s == t
    decreases |s|
  {
    assert t == [] || t[0] in t;
    if s != [] {
      assert s[0] in t && (t != [] ==> t[0] in s);
      LeastFirst(s, t[0]);
      LeastFirst(t, s[0]);
      LeAntisymmetric(s[0], t[0]);
      forall x ensures x in s[1..] <==> x in t[1..] {
        assert x in s[1..] <==> x in s && x != s[0] by { TailMembers(s, x); }
        assert x in t[1..] <==> x in t && x != t[0] by { TailMembers(t, x); }
      }
      IncreasingUnique(s[1..], t[1..]);
    }
  }

  lemma LeastFirst(s: seq<string>, x: string)
    requires Increasing(s) && x in s
    ensures Le(s[0], x)
  {
    LeReflexive(x);
  }

  lemma TailMembers(s: seq<string>, x: string)
    requires Increasing(s) && s != []
    ensures x in s[1..] <==> x in s && x != s[0]
  {
    assert s == [s[0]] + s[1..];
    if x in s[1..] {
      var i :| 0 <= i < |s[1..]| && s[1..][i] == x;
      assert Lt(s[0], s[i + 1]);
    }
  }

  /** Sorting distinct strings gives them in increasing order. */
  lemma SortIncreasing(s: seq<string>)
    requires forall i, j :: 0 <= i < j < |s| ==> s[i] != s[j]
    ensures Increasing(Sort(Le, s)) && |Sort(Le, s)| == |s| && forall x :: x in Sort(Le, s) <==> x in s
  {
    LeIsTotalOrder();
    SortSorts(Le, s);
    SortPermutes(Le, s);
    SameMembers(Sort(Le, s), s);
    DistinctCounts(s);
    var t := Sort(Le, s);
    assert forall x :: x in t ==> multiset(t)[x] == 1;
    forall i, j | 0 <= i < j < |t| ensures Lt(t[i], t[j]) {
      if t[i] == t[j] {
        TwiceCounts(t, i, j);
      }
    }
  }

  lemma {:induction false} DistinctCounts<T>(s: seq<T>)
    requires forall i, j :: 0 <= i < j < |s| ==> s[i] != s[j]
    ensures forall x :: x in s ==> multiset(s)[x] == 1
    decreases |s|
  {
    if s != [] {
      var rest := s[1..];
      DistinctCounts(rest);
      assert s == [s[0]] + rest;
      forall x | x in s ensures multiset(s)[x] == 1 {
        if x in rest {
          assert x != s[0];
        } else {
          assert multiset(rest)[x] == 0;
        }
      }
    }
  }

  lemma TwiceCounts<T>(s: seq<T>, i: nat, j: nat)
    requires i < j < |s| && s[i] == s[j]
    ensures multiset(s)[s[i]] >= 2
  {
    assert s == s[..j] + s[j..];
    assert s[i] in s[..j] && s[j] in s[j..];
    assert s[..j][i] == s[i] && s[j..][0] == s[j];
  }
}
