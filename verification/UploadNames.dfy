/** Names of uploaded files (src/filesystem/upload_session_store.cpp): which are accepted and how a taken name is varied. */
module UploadNames {
  import opened Common
  import Decimal

  const MAX_NAME := 255

  predicate SafeChar(c: char) {
    c != '/' && c != '\\' && ' ' <= c && c != 127 as char
  }

  /** A name that stays one component of a path. */
  predicate SafeComponent(s: string) {
    s != "" && s != "." && s != ".." && forall i :: 0 <= i < |s| ==> SafeChar(s[i])
  }

  method SafeFilename(original: string) returns (r: Outcome<string>)
    ensures r == if SafeComponent(original) && |original| <= MAX_NAME then Ok(original) else Err(InvalidArgument)
  {
    if original == "" || original == "." || original == ".." || |original| > MAX_NAME {
      return Err(InvalidArgument);
    }
    for i := 0 to |original|
      invariant forall k :: 0 <= k < i ==> SafeChar(original[k])
    {
      if original[i] == 0 as char || original[i] == '/' || original[i] == '\\' || original[i] < ' ' || original[i] == 127 as char {
        return Err(InvalidArgument);
      }
    }
    return Ok(original);
  }

  /** find_last_of('.'), or 0 when there is none; a dot at the front counts as none. */
  function ExtensionAt(s: string): (k: nat)
    ensures k < |s| || k == 0
    ensures k > 0 ==> s[k] == '.'
  {
    if s == "" then 0
    else if s[|s| - 1] == '.' then |s| - 1
    else ExtensionAt(s[..|s| - 1])
  }

  function WithCollisionSuffix(value: string, suffix: nat): string {
    if suffix == 1 then value
    else
      var text, k := "__" + Decimal.Print(suffix), ExtensionAt(value);
      if k == 0 then value + text else value[..k] + text + value[k..]
  }

  lemma SuffixedShape(v: string, n: nat)
    requires n != 1
    ensures var k := ExtensionAt(v);
            var cut := if k == 0 then |v| else k;
            WithCollisionSuffix(v, n) == v[..cut] + ("__" + Decimal.Print(n)) + v[cut..]
  {
    assert v[..|v|] == v && v[|v|..] == "";
    assert v + ("__" + Decimal.Print(n)) + "" == v + ("__" + Decimal.Print(n));
  }

  /** The place of the last dot; the end of the name when there is no dot after its first character. */
  predicate BeforeExtension(v: string, k: nat) {
    && k <= |v| && (if k < |v| then k > 0 && v[k] == '.' else forall i :: 0 < i < |v| ==> v[i] != '.')
    && forall i :: k < i < |v| ==> v[i] != '.'
  }

  lemma {:induction false} ExtensionExactly(v: string)
    ensures BeforeExtension(v, if ExtensionAt(v) == 0 then |v| else ExtensionAt(v))
    decreases |v|
  {
    if v != "" && v[|v| - 1] != '.' {
      ExtensionExactly(v[..|v| - 1]);
      assert forall i :: 0 <= i < |v| - 1 ==> v[i] == v[..|v| - 1][i];
    }
  }

  /** A varied name is the name with two underscores and the number in front of its extension, and there is only one place
      for that. */
  lemma SuffixedExactly(v: string, n: nat, k: nat)
    requires n != 1 && BeforeExtension(v, k)
    ensures WithCollisionSuffix(v, n) == v[..k] + "__" + Decimal.Print(n) + v[k..]
  {
    ExtensionExactly(v);
    SuffixedShape(v, n);
    var cut := if ExtensionAt(v) == 0 then |v| else ExtensionAt(v);
    assert cut == k;
    assert v[..k] + ("__" + Decimal.Print(n)) + v[k..] == v[..k] + "__" + Decimal.Print(n) + v[k..];
  }

  lemma SuffixedExamples()
    ensures WithCollisionSuffix("a.tar.gz", 2) == "a.tar__2.gz"
    ensures WithCollisionSuffix("photo.jpg", 13) == "photo__13.jpg" && WithCollisionSuffix("notes", 2) == "notes__2"
    ensures WithCollisionSuffix(".profile", 2) == ".profile__2" && WithCollisionSuffix("a.", 2) == "a__2."
  {
    hide WithCollisionSuffix, ExtensionAt;
    assert Decimal.Print(2) == "2" && Decimal.Print(13) == "13";
    SuffixedExactly("a.tar.gz", 2, 5);
    SuffixedExactly("photo.jpg", 13, 5);
    SuffixedExactly("notes", 2, 5);
    SuffixedExactly(".profile", 2, 8);
    SuffixedExactly("a.", 2, 1);
  }

  /** Different suffixes give different names. */
  lemma SuffixesDiffer(v: string, m: nat, n: nat)
    requires m >= 1 && n >= 1 && WithCollisionSuffix(v, m) == WithCollisionSuffix(v, n)
    ensures m == n
  {
    var k := ExtensionAt(v);
    var cut := if k == 0 then |v| else k;
    if m != 1 && n != 1 {
      SuffixedShape(v, m);
      SuffixedShape(v, n);
      var a, b := "__" + Decimal.Print(m), "__" + Decimal.Print(n);
      assert |a| == |b|;
      assert a == WithCollisionSuffix(v, m)[cut..cut + |a|] == b;
      assert Decimal.Print(m) == a[2..] && Decimal.Print(n) == b[2..];
      Decimal.PrintInjective(m, n);
    } else if m != 1 {
      SuffixedShape(v, m);
    } else if n != 1 {
      SuffixedShape(v, n);
    }
  }

  lemma SuffixKeepsSafe(v: string, n: nat)
    requires SafeComponent(v)
    ensures SafeComponent(WithCollisionSuffix(v, n))
  {
    if n != 1 {
      SuffixedShape(v, n);
      var k := ExtensionAt(v);
      var cut := if k == 0 then |v| else k;
      var text := "__" + Decimal.Print(n);
      var r := v[..cut] + text + v[cut..];
      forall i | 0 <= i < |r| ensures SafeChar(r[i]) {
        if i < cut {
          assert r[i] == v[i];
        } else if i < cut + |text| {
          assert r[i] == text[i - cut];
          assert i - cut >= 2 ==> Decimal.IsDigit(Decimal.Print(n)[i - cut - 2]);
        } else {
          assert r[i] == v[i - |text|];
        }
      }
      assert |r| >= 3;
    }
  }

  predicate WithinLimit(name: string) {
    |name| <= MAX_NAME
  }

  /** A varied name may be longer than the 255 bytes asked of the original: exactly when there is no room for two
      underscores and the digits of the suffix. */
  lemma SuffixCanExceedLimit(v: string, n: nat)
    ensures WithinLimit(WithCollisionSuffix(v, n)) <==>
              if n == 1 then |v| <= MAX_NAME else |v| + 2 + |Decimal.Print(n)| <= MAX_NAME
  {
    if n != 1 {
      SuffixedShape(v, n);
    }
  }

  /** `name` is the first variation of `original` that is not among the names given before. */
  predicate Chosen(original: string, before: seq<string>, name: string, n: nat) {
    && n >= 1 && name == WithCollisionSuffix(original, n) && name !in before
    && forall k :: 1 <= k < n ==> WithCollisionSuffix(original, k) in before
  }

  lemma ChosenIsUnique(original: string, before: seq<string>, x: string, m: nat, y: string, n: nat)
    requires Chosen(original, before, x, m) && Chosen(original, before, y, n)
    ensures x == y && m == n
  {
  }

  /** The names tried before suffix n. */
  function Tried(v: string, n: nat): set<string> {
    set k | 1 <= k < n :: WithCollisionSuffix(v, k)
  }

  lemma {:induction false} TriedCount(v: string, n: nat)
    requires n >= 1
    ensures |Tried(v, n)| == n - 1
  {
    if n == 1 {
      assert Tried(v, 1) == {};
    } else {
      TriedCount(v, n - 1);
      var last := WithCollisionSuffix(v, n - 1);
      assert Tried(v, n) == Tried(v, n - 1) + {last};
      if last in Tried(v, n - 1) {
        var k :| 1 <= k < n - 1 && WithCollisionSuffix(v, k) == last;
        SuffixesDiffer(v, k, n - 1);
      }
    }
  }

  lemma SubsetCount(a: set<string>, b: set<string>)
    requires a <= b
    ensures |a| <= |b|
  {
    assert b == a + (b - a);
  }

  /** The loop over suffixes: it ends within |used| + 1 of them, since all names tried are different and taken. */
  method Allocate(used: set<string>, name: string) returns (candidate: string, suffix: nat)
    requires SafeComponent(name)
    ensures candidate == WithCollisionSuffix(name, suffix) && candidate !in used && SafeComponent(candidate)
    ensures 1 <= suffix <= |used| + 1
    ensures forall k :: 1 <= k < suffix ==> WithCollisionSuffix(name, k) in used
  {
    candidate, suffix := name, 1;
    while candidate in used
      invariant suffix >= 1 && candidate == WithCollisionSuffix(name, suffix)
      invariant forall k :: 1 <= k < suffix ==> WithCollisionSuffix(name, k) in used
      invariant suffix <= |used| + 1
      decreases |used| + 1 - suffix
    {
      TriedCount(name, suffix + 1);
      SubsetCount(Tried(name, suffix + 1), used);
      suffix := suffix + 1;
      candidate := WithCollisionSuffix(name, suffix);
    }
    SuffixKeepsSafe(name, suffix);
  }
}
