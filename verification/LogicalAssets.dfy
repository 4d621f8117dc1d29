/** Logical asset ids (src/model/logical_asset.cpp): the canonical JSON text of a member list and the id derived from it. */
module LogicalAssets {
  import opened Common
  import opened StringOrder
  import opened Sorting
  import opened TempNames
  import opened SelfDelimiting
  import Digests

  const LOGICAL_DOMAIN := "PB_LOGICAL_ASSET_V1"

  datatype LogicalAsset = LogicalAsset(id: string, members: seq<string>)

  /** One character of a JSON string. */
  function EscapeChar(c: char): string {
    if c == '"' then "\\\""
    else if c == '\\' then "\\\\"
    else if c == 8 as char then "\\b"
    else if c == 12 as char then "\\f"
    else if c == '\n' then "\\n"
    else if c == '\r' then "\\r"
    else if c == '\t' then "\\t"
    else if c < ' ' then "\\u00" + [Digests.HexChar(c as int / 16), Digests.HexChar(c as int % 16)]
    else [c]
  }

  function Escape(s: string): string {
    Concat(EscapeChar, s)
  }

  function Quote(s: string): string {
    "\"" + Escape(s) + "\""
  }

  /** The members joined by commas. */
  function CommaList(members: seq<string>): string {
    if members == [] then ""
    else if |members| == 1 then Quote(members[0])
    else CommaList(members[..|members| - 1]) + "," + Quote(members[|members| - 1])
  }

  function MembersJson(members: seq<string>): string {
    "[" + CommaList(members) + "]"
  }

  lemma JsonExamples()
    ensures MembersJson(["b", "a"]) == "[\"b\",\"a\"]" && MembersJson([]) == "[]"
    ensures EscapeChar('"') == "\\\"" && EscapeChar('\\') == "\\\\" && EscapeChar('\U{8}') == "\\b" && EscapeChar('\U{c}') == "\\f"
    ensures EscapeChar('\n') == "\\n" && EscapeChar('\r') == "\\r" && EscapeChar('\t') == "\\t"
    ensures EscapeChar('\U{1}') == "\\u0001" && EscapeChar('\U{1f}') == "\\u001f" && EscapeChar('/') == "/" && EscapeChar('\U{7f}') == "\U{7f}"
  {
    assert CommaList(["b", "a"][..1]) == Quote("b") && Escape("b") == "" + "b" && Escape("a") == "" + "a";
  }

  method AppendJsonString(value: string, output: string) returns (out: string)
    ensures out == output + Quote(value)
  {
    out := output + "\"";
    for i := 0 to |value|
      invariant out == output + "\"" + Concat(EscapeChar, value[..i])
    {
      ConcatNext(EscapeChar, value, i);
      out := out + EscapeChar(value[i]);
    }
    assert value[..|value|] == value;
    out := out + "\"";
  }

  method CanonicalMembersJson(members: seq<string>) returns (result: string)
    ensures result == MembersJson(members)
  {
    result := "[";
    for index := 0 to |members|
      invariant result == "[" + CommaList(members[..index])
    {
      ghost var before := result;
      if index != 0 {
        result := result + ",";
      }
      result := AppendJsonString(members[index], result);
      assert members[..index + 1][..index] == members[..index];
    }
    assert members[..|members|] == members;
    result := result + "]";
  }

  // ---------------------------------------------------------------- reading the text back

  predicate Diverge(a: string, b: string) {
    exists i :: 0 <= i < |a| && i < |b| && a[i] != b[i]
  }

  /** No code word is the beginning of another, and none begins with the quote. */
  ghost predicate PrefixCode(code: char -> string) {
    && (forall c :: code(c) != "" && code(c)[0] != '"')
    && (forall c, d :: c != d ==> Diverge(code(c), code(d)))
  }

  lemma EscapesDiverge(c: char, d: char)
    requires c != d
    ensures Diverge(EscapeChar(c), EscapeChar(d))
  {
    var e, f := EscapeChar(c), EscapeChar(d);
    if e[0] == f[0] {
      assert |e| > 1 && |f| > 1;
      if e[1] == f[1] {
        assert |e| == 6 && |f| == 6 && (e[4] != f[4] || e[5] != f[5]);
      }
    }
  }

  lemma EscapeIsPrefixCode()
    ensures PrefixCode(EscapeChar)
  {
    forall c, d | c != d ensures Diverge(EscapeChar(c), EscapeChar(d)) {
      EscapesDiverge(c, d);
    }
  }

  lemma SplitCode(code: char -> string, c: char, d: char, x: string, y: string)
    requires PrefixCode(code) && code(c) + x == code(d) + y
    ensures c == d && x == y
  {
    var e, f := code(c), code(d);
    forall i | 0 <= i < |e| && i < |f| ensures e[i] == f[i] {
      assert (e + x)[i] == e[i] && (f + y)[i] == f[i];
    }
    assert !Diverge(e, f);
    assert (e + x)[|e|..] == x && (f + y)[|f|..] == y;
  }

  /** The first character tells an encoded text from a closing quote. */
  lemma EncodedStart(code: char -> string, s: string, x: string)
    requires PrefixCode(code)
    ensures var l := Concat(code, s) + "\"" + x;
            if s == "" then l == "\"" + x
            else l == code(s[0]) + (Concat(code, s[1..]) + "\"" + x) && l[0] != '"'
  {
    if s != "" {
      ConcatFromFront(code, s);
      var l, rest := Concat(code, s) + "\"" + x, Concat(code, s[1..]) + "\"" + x;
      assert l == code(s[0]) + rest;
      assert l[0] == code(s[0])[0];
    }
  }

  /** An encoded text that is closed by a quote can be split off the front in only one way. */
  lemma {:induction false} EncodeDecodes(code: char -> string, s: string, t: string, x: string, y: string)
    requires PrefixCode(code) && Concat(code, s) + "\"" + x == Concat(code, t) + "\"" + y
    ensures s == t && x == y
    decreases |s|
  {
    EncodedStart(code, s, x);
    EncodedStart(code, t, y);
    if s == "" {
      assert ("\"" + x)[0] == '"' && t == "";
      assert ("\"" + x)[1..] == x && ("\"" + y)[1..] == y;
    } else {
      assert ("\"" + y)[0] == '"' && t != "";
      SplitCode(code, s[0], t[0], Concat(code, s[1..]) + "\"" + x, Concat(code, t[1..]) + "\"" + y);
      EncodeDecodes(code, s[1..], t[1..], x, y);
      assert s == [s[0]] + s[1..] && t == [t[0]] + t[1..];
    }
  }

  /** A quoted string can be split off the front in only one way. */
  lemma QuoteDecodes(s: string, t: string, x: string, y: string)
    requires Quote(s) + x == Quote(t) + y
    ensures s == t && x == y
  {
    EscapeIsPrefixCode();
    assert (Quote(s) + x)[1..] == Concat(EscapeChar, s) + "\"" + x;
    assert (Quote(t) + y)[1..] == Concat(EscapeChar, t) + "\"" + y;
    EncodeDecodes(EscapeChar, s, t, x, y);
  }

  lemma {:induction false} CommaListFromFront(m: seq<string>)
    requires |m| > 1
    ensures CommaList(m) == Quote(m[0]) + "," + CommaList(m[1..])
    decreases |m|
  {
    var last := |m| - 1;
    if |m| == 2 {
      assert CommaList(m[..1]) == Quote(m[0]) && CommaList(m[1..]) == Quote(m[1]);
    } else {
      CommaListFromFront(m[..last]);
      assert m[..last][1..] == m[1..][..last - 1];
      assert CommaList(m[1..]) == CommaList(m[1..][..last - 1]) + "," + Quote(m[last]);
    }
  }

  /** The text of a non-empty list begins with its quoted head, then a comma and the rest, or the end. */
  function AfterHead(m: seq<string>): string
    requires m != []
  {
    if |m| == 1 then "]" else "," + CommaList(m[1..]) + "]"
  }

  lemma HeadFirst(m: seq<string>)
    requires m != []
    ensures CommaList(m) + "]" == Quote(m[0]) + AfterHead(m)
  {
    if |m| > 1 {
      CommaListFromFront(m);
      var rest := CommaList(m[1..]);
      Appended3(Quote(m[0]), ",", rest, "]");
      Appended2(",", rest, "]");
    }
  }

  lemma AfterHeads(m: seq<string>, n: seq<string>)
    requires m != [] && n != [] && AfterHead(m) == AfterHead(n)
    ensures |m| == 1 <==> |n| == 1
    ensures |m| > 1 && |n| > 1 ==> CommaList(m[1..]) + "]" == CommaList(n[1..]) + "]"
  {
    assert AfterHead(m)[0] == AfterHead(n)[0];
    if |m| > 1 && |n| > 1 {
      assert AfterHead(m)[1..] == CommaList(m[1..]) + "]";
      assert AfterHead(n)[1..] == CommaList(n[1..]) + "]";
    }
  }

  lemma SameHeads(m: seq<string>, n: seq<string>)
    requires m != [] && n != [] && CommaList(m) + "]" == CommaList(n) + "]"
    ensures m[0] == n[0] && AfterHead(m) == AfterHead(n)
  {
    HeadFirst(m);
    HeadFirst(n);
    QuoteDecodes(m[0], n[0], AfterHead(m), AfterHead(n));
  }

  lemma {:induction false} JoinedInjective(m: seq<string>, n: seq<string>)
    requires m != [] && n != [] && CommaList(m) + "]" == CommaList(n) + "]"
    ensures m == n
    decreases |m|
  {
    SameHeads(m, n);
    AfterHeads(m, n);
    if |m| > 1 {
      JoinedInjective(m[1..], n[1..]);
    }
    assert m == [m[0]] + m[1..] && n == [n[0]] + n[1..];
  }

  /** The canonical text determines the member list, whatever bytes the ids contain. */
  lemma MembersJsonInjective(m: seq<string>, n: seq<string>)
    requires m != [] && n != [] && MembersJson(m) == MembersJson(n)
    ensures m == n
  {
    var x, y := CommaList(m) + "]", CommaList(n) + "]";
    assert "[" + x == MembersJson(m) && "[" + y == MembersJson(n);
    assert ("[" + x)[1..] == x && ("[" + y)[1..] == y;
    JoinedInjective(m, n);
  }

  // ---------------------------------------------------------------- ids

  function LogicalId(hash: HashFunction, members: seq<string>): string {
    "logical-" + Digests.Hex(hash(AsBytes(LOGICAL_DOMAIN) + AsBytes(MembersJson(members))))
  }

  predicate HasAdjacentEqual(s: seq<string>) {
    exists i :: 0 <= i < |s| - 1 && s[i] == s[i + 1]
  }

  /** The id of a member list does not depend on its order; empty lists, empty ids and repeated ids are refused. */
  method LogicalAssetIdForMembers(hash: HashFunction, members: seq<string>) returns (id: Outcome<string>)
    ensures id.Ok? <==> members != [] && "" !in members && forall i, j :: 0 <= i < j < |members| ==> members[i] != members[j]
    ensures id.Ok? ==> id.value == LogicalId(hash, Sort(Le, members))
    ensures id.Err? ==> id.code == InvalidArgument
  {
    if |members| == 0 {
      return Err(InvalidArgument);
    }
    for i := 0 to |members|
      invariant forall k :: 0 <= k < i ==> members[k] != ""
    {
      if members[i] == "" {
        return Err(InvalidArgument);
      }
    }
    var sorted := Sort(Le, members);
    AdjacentMeansRepeated(members);
    if HasAdjacentEqual(sorted) {
      return Err(InvalidArgument);
    }
    var json := CanonicalMembersJson(sorted);
    var hex := Digests.ToHex(hash(AsBytes(LOGICAL_DOMAIN) + AsBytes(json)));
    return Ok("logical-" + hex);
  }

  /** adjacent_find on the sorted list finds a repetition exactly when there is one. */
  lemma AdjacentMeansRepeated(members: seq<string>)
    ensures HasAdjacentEqual(Sort(Le, members)) <==> exists i, j :: 0 <= i < j < |members| && members[i] == members[j]
  {
    var s := Sort(Le, members);
    LeIsTotalOrder();
    SortSorts(Le, members);
    SortPermutes(Le, members);
    SameMembers(s, members);
    if forall i, j :: 0 <= i < j < |members| ==> members[i] != members[j] {
      SortIncreasing(members);
    } else {
      var i, j :| 0 <= i < j < |members| && members[i] == members[j];
      TwiceCounts(members, i, j);
      assert members[i] in s;
      if !HasAdjacentEqual(s) {
        SortedWithoutAdjacent(s);
        DistinctCounts(s);
      }
    }
  }

  lemma SortedWithoutAdjacent(s: seq<string>)
    requires Sorted(Le, s) && !HasAdjacentEqual(s)
    ensures forall i, j :: 0 <= i < j < |s| ==> s[i] != s[j]
  {
    forall i, j | 0 <= i < j < |s| ensures s[i] != s[j] {
      assert Le(s[i], s[i + 1]) && (i + 1 < j ==> Le(s[i + 1], s[j]));
      if s[i] == s[j] && i + 1 < j {
        LeAntisymmetric(s[i], s[i + 1]);
      }
    }
  }
}
