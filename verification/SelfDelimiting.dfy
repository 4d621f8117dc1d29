/** Encodings that can be split off the front of a text in only one way. */
module SelfDelimiting {
  /** Two encoded values followed by anything are the same text only if they are the same value and the same rest. */
  ghost predicate Splits<T(!new)>(enc: T -> string, ok: T -> bool) {
    forall a, b, x: string, y: string {:trigger enc(a) + x, enc(b) + y} ::
      ok(a) && ok(b) && enc(a) + x == enc(b) + y ==> a == b && x == y
  }

  /** The encodings of a list, one after the other. */
  function Concat<T>(enc: T -> string, s: seq<T>): string {
    if s == [] then "" else Concat(enc, s[..|s| - 1]) + enc(s[|s| - 1])
  }

  lemma ConcatNext<T>(enc: T -> string, s: seq<T>, i: nat)
    requires i < |s|
    ensures Concat(enc, s[..i + 1]) == Concat(enc, s[..i]) + enc(s[i])
  {
    assert s[..i + 1][..i] == s[..i];
  }

  lemma {:induction false} ConcatFromFront<T>(enc: T -> string, s: seq<T>)
    requires s != []
    ensures Concat(enc, s) == enc(s[0]) + Concat(enc, s[1..])
    decreases |s|
  {
    var last := |s| - 1;
    if last == 0 {
      assert s[..0] == [] && s[1..] == [];
      assert Concat(enc, s) == "" + enc(s[0]) && enc(s[0]) + "" == "" + enc(s[0]);
    } else {
      var front, middle := s[..last], s[1..][..last - 1];
      assert front[0] == s[0] && front[1..] == middle && s[1..][last - 1] == s[last];
      ConcatFromFront(enc, front);
      Appended2(enc(s[0]), Concat(enc, middle), enc(s[last]));
      assert Concat(enc, s[1..]) == Concat(enc, middle) + enc(s[last]);
    }
  }

  /** Lists of the same length inherit the property from their elements. */
  lemma {:induction false} ConcatSplits<T(!new)>(
    enc: T -> string, ok: T -> bool, s: seq<T>, t: seq<T>, x: string, y: string)
    requires Splits(enc, ok) && |s| == |t|
    requires (forall i :: 0 <= i < |s| ==> ok(s[i])) && (forall i :: 0 <= i < |t| ==> ok(t[i]))
    requires Concat(enc, s) + x == Concat(enc, t) + y
    ensures s == t && x == y
    decreases |s|
  {
    if s == [] {
      assert Concat(enc, s) + x == x && Concat(enc, t) + y == y;
    } else {
      ConcatFromFront(enc, s);
      ConcatFromFront(enc, t);
      var x', y' := Concat(enc, s[1..]) + x, Concat(enc, t[1..]) + y;
      assert enc(s[0]) + x' == Concat(enc, s) + x;
      assert enc(t[0]) + y' == Concat(enc, t) + y;
      ConcatSplits(enc, ok, s[1..], t[1..], x, y);
      assert s == [s[0]] + s[1..] && t == [t[0]] + t[1..];
    }
  }

  lemma SplitFront(a: string, b: string, x: string, y: string)
    requires |a| == |b| && a + x == b + y
    ensures a == b && x == y
  {
    assert (a + x)[..|a|] == a && (b + y)[..|b|] == b;
    assert (a + x)[|a|..] == x && (b + y)[|b|..] == y;
  }

  /** Appending piece by piece, as the buffer does, against the nested form, as it is taken apart. */
  lemma Appended2(o: string, a: string, b: string)
    ensures (o + a) + b == o + (a + b)
  {
  }

  lemma Appended3(o: string, a: string, b: string, c: string)
    ensures ((o + a) + b) + c == o + (a + (b + c))
  {
    Appended2(o, a, b + c);
    Appended2(o + a, b, c);
  }

  lemma Appended4(o: string, a: string, b: string, c: string, d: string)
    ensures (((o + a) + b) + c) + d == o + (a + (b + (c + d)))
  {
    Appended3(o + a, b, c, d);
    Appended2(o, a, b + (c + d));
  }

  lemma Appended5(o: string, a: string, b: string, c: string, d: string, e: string)
    ensures ((((o + a) + b) + c) + d) + e == o + (a + (b + (c + (d + e))))
  {
    Appended4(o + a, b, c, d, e);
    Appended2(o, a, b + (c + (d + e)));
  }

  lemma Appended6(o: string, a: string, b: string, c: string, d: string, e: string, f: string)
    ensures (((((o + a) + b) + c) + d) + e) + f == o + (a + (b + (c + (d + (e + f)))))
  {
    Appended5(o + a, b, c, d, e, f);
    Appended2(o, a, b + (c + (d + (e + f))));
  }
}
