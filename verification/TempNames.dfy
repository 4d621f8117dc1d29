/** Temporary file names and generated attempt ids (src/pipeline/pipeline_shared.cpp, src/app/task_runtime_repository.cpp). */
module TempNames {
  import opened Common
  import Decimal
  import Digests

  type HashFunction = Bytes -> Digest

  const TEMP_DOMAIN := "photobridge-temp-v1\n"
  const TEMP_PREFIX := ".photobridge."
  const TEMP_SUFFIX := ".pbtmp"

  /** std::string holds bytes; a character stands for one byte. */
  predicate IsByteString(s: string) {
    forall i :: 0 <= i < |s| ==> s[i] as int < 256
  }

  function AsBytes(s: string): Bytes {
    seq(|s|, i requires 0 <= i < |s| => (s[i] as int % 256) as byte)
  }

  /** One length-prefixed field: decimal size, colon, value. */
  function Field(v: string): string {
    Decimal.Print(|v|) + ":" + v
  }

  function TempPayload(plan: string, task: string, attempt: string): string {
    TEMP_DOMAIN + Field(plan) + Field(task) + Field(attempt)
  }

  function TempNameFor(hash: HashFunction, plan: string, task: string, attempt: string): string {
    TEMP_PREFIX + Digests.Hex(hash(AsBytes(TempPayload(plan, task, attempt)))) + TEMP_SUFFIX
  }

  /** The text that is hashed: three fields, each with its length. */
  lemma PayloadExample()
    ensures TempPayload("p1", "task-77", "") == "photobridge-temp-v1\n2:p17:task-770:"
    ensures AsBytes("A\n~") == [65, 10, 126]
  {
    assert Decimal.Print(2) == "2" && Decimal.Print(7) == "7" && Decimal.Print(0) == "0";
    assert Field("p1") == "2:p1" && Field("task-77") == "7:task-77" && Field("") == "0:";
  }

  /** The name that is made of the digest. */
  lemma NameExample(hash: HashFunction, plan: string, task: string, attempt: string)
    requires hash(AsBytes(TempPayload(plan, task, attempt))) == [0x0f, 0xa9]
    ensures TempNameFor(hash, plan, task, attempt) == ".photobridge.0fa9.pbtmp"
  {
    hide TempPayload, AsBytes;
    assert Digests.Hex([0x0f]) == "0f" && Digests.Hex([0x0f, 0xa9]) == "0fa9";
  }

  lemma AttemptIdExample()
    ensures GeneratedAttemptId("p1", "t", 12) == "attempt-p1-t-12"
  {
    assert Decimal.Print(12) == "12";
  }

  /** The buffer-building form used by the pipeline. */
  method BuildTempName(hash: HashFunction, plan: string, task: string, attempt: string) returns (name: string)
    ensures name == TempNameFor(hash, plan, task, attempt)
  {
    var payload := TEMP_DOMAIN;
    payload := AppendField(payload, plan);
    payload := AppendField(payload, task);
    payload := AppendField(payload, attempt);
    var hex := Digests.ToHex(hash(AsBytes(payload)));
    name := TEMP_PREFIX + hex + TEMP_SUFFIX;
  }

  method AppendField(payload: string, value: string) returns (out: string)
    ensures out == payload + Field(value)
  {
    out := payload + Decimal.Print(|value|);
    out := out + ":";
    out := out + value;
  }

  lemma {:induction false} FirstColon(p: string, q: string, x: string, y: string)
    requires Decimal.AllDigits(p) && Decimal.AllDigits(q) && p + ":" + x == q + ":" + y
    ensures p == q && x == y
    decreases |p|
  {
    var s, t := p + ":" + x, q + ":" + y;
    assert s[0] == if p == "" then ':' else p[0];
    assert t[0] == if q == "" then ':' else q[0];
    if p == "" {
      assert s[1..] == x && t[1..] == y;
    } else {
      assert s[1..] == p[1..] + ":" + x && t[1..] == q[1..] + ":" + y;
      FirstColon(p[1..], q[1..], x, y);
      assert p == [p[0]] + p[1..] && q == [q[0]] + q[1..];
    }
  }

  /** A length-prefixed field can be split off in only one way. */
  lemma FieldDecodes(a: string, b: string, x: string, y: string)
    requires Field(a) + x == Field(b) + y
    ensures a == b && x == y
  {
    assert Decimal.Print(|a|) + ":" + (a + x) == Field(a) + x;
    assert Decimal.Print(|b|) + ":" + (b + y) == Field(b) + y;
    FirstColon(Decimal.Print(|a|), Decimal.Print(|b|), a + x, b + y);
    Decimal.PrintInjective(|a|, |b|);
    assert (a + x)[..|a|] == a && (b + y)[..|b|] == b;
    assert (a + x)[|a|..] == x && (b + y)[|b|..] == y;
  }

  lemma PayloadInjective(p: string, t: string, a: string, p': string, t': string, a': string)
    requires TempPayload(p, t, a) == TempPayload(p', t', a')
    ensures p == p' && t == t' && a == a'
  {
    hide Field;
    var n := |TEMP_DOMAIN|;
    assert TempPayload(p, t, a)[n..] == Field(p) + (Field(t) + Field(a));
    assert TempPayload(p', t', a')[n..] == Field(p') + (Field(t') + Field(a'));
    FieldDecodes(p, p', Field(t) + Field(a), Field(t') + Field(a'));
    FieldDecodes(t, t', Field(a), Field(a'));
    assert Field(a) + "" == Field(a) && Field(a') + "" == Field(a');
    FieldDecodes(a, a', "", "");
  }

  lemma AsBytesInjective(s: string, t: string)
    requires IsByteString(s) && IsByteString(t) && AsBytes(s) == AsBytes(t)
    ensures s == t
  {
    assert |s| == |AsBytes(s)| == |t|;
    forall i | 0 <= i < |s| ensures s[i] == t[i] {
      assert AsBytes(s)[i] == AsBytes(t)[i];
    }
  }

  lemma FieldIsByteString(s: string)
    requires IsByteString(s)
    ensures IsByteString(Field(s))
  {
    assert Decimal.AllDigits(Decimal.Print(|s|));
  }

  lemma PayloadIsByteString(p: string, t: string, a: string)
    requires IsByteString(p) && IsByteString(t) && IsByteString(a)
    ensures IsByteString(TempPayload(p, t, a))
  {
    hide Field;
    FieldIsByteString(p);
    FieldIsByteString(t);
    FieldIsByteString(a);
  }

  lemma SameMiddle(front: string, x: string, y: string, back: string)
    requires front + x + back == front + y + back
    ensures x == y
  {
    assert |front + x + back| == |front + y + back|;
    assert x == (front + x + back)[|front|..|front| + |x|];
    assert y == (front + y + back)[|front|..|front| + |y|];
  }

  ghost predicate Collides(hash: HashFunction, x: Bytes, y: Bytes) {
    x != y && hash(x) == hash(y)
  }

  /** Two (plan, task, attempt) triples share a temporary name only if they are equal or exhibit a hash collision. */
  lemma TempNamesDistinct(
    hash: HashFunction, p: string, t: string, a: string, p': string, t': string, a': string)
    requires IsByteString(p) && IsByteString(t) && IsByteString(a)
    requires IsByteString(p') && IsByteString(t') && IsByteString(a')
    requires TempNameFor(hash, p, t, a) == TempNameFor(hash, p', t', a')
    ensures (p == p' && t == t' && a == a')
            || Collides(hash, AsBytes(TempPayload(p, t, a)), AsBytes(TempPayload(p', t', a')))
  {
    hide Digests.Hex, TempPayload, Field, AsBytes;
    var x, y := TempPayload(p, t, a), TempPayload(p', t', a');
    SameMiddle(TEMP_PREFIX, Digests.Hex(hash(AsBytes(x))), Digests.Hex(hash(AsBytes(y))), TEMP_SUFFIX);
    Digests.HexInjective(hash(AsBytes(x)), hash(AsBytes(y)));
    if AsBytes(x) == AsBytes(y) {
      PayloadIsByteString(p, t, a);
      PayloadIsByteString(p', t', a');
      AsBytesInjective(x, y);
      PayloadInjective(p, t, a, p', t', a');
    }
  }

  /** Names that could be mistaken for a temporary file. */
  predicate TempShaped(name: string) {
    |name| > |TEMP_PREFIX| + |TEMP_SUFFIX|
    && name[..|TEMP_PREFIX|] == TEMP_PREFIX && name[|name| - |TEMP_SUFFIX|..] == TEMP_SUFFIX
  }

  lemma TempNameShape(hash: HashFunction, plan: string, task: string, attempt: string)
    requires forall x :: hash(x) != []
    ensures var name := TempNameFor(hash, plan, task, attempt);
            TempShaped(name) && '/' !in name && '\0' !in name
  {
    var hex := Digests.Hex(hash(AsBytes(TempPayload(plan, task, attempt))));
    var name := TempNameFor(hash, plan, task, attempt);
    assert name[..|TEMP_PREFIX|] == TEMP_PREFIX;
    assert name[|name| - |TEMP_SUFFIX|..] == TEMP_SUFFIX;
    forall i | 0 <= i < |name| ensures name[i] != '/' && name[i] != '\0' {
      if |TEMP_PREFIX| <= i < |TEMP_PREFIX| + |hex| {
        assert name[i] == hex[i - |TEMP_PREFIX|];
        assert Digests.IsLowerHex(hex[i - |TEMP_PREFIX|]);
      }
    }
  }

  /** The id generated by the n-th claim of a task. */
  function GeneratedAttemptId(plan: string, task: string, n: nat): string {
    "attempt-" + plan + "-" + task + "-" + Decimal.Print(n)
  }

  /** Successive claims of one task never generate the same attempt id. */
  lemma AttemptIdsDistinct(plan: string, task: string, m: nat, n: nat)
    requires GeneratedAttemptId(plan, task, m) == GeneratedAttemptId(plan, task, n)
    ensures m == n
  {
    var k := |"attempt-" + plan + "-" + task + "-"|;
    assert GeneratedAttemptId(plan, task, m)[k..] == Decimal.Print(m);
    assert GeneratedAttemptId(plan, task, n)[k..] == Decimal.Print(n);
    Decimal.PrintInjective(m, n);
  }

  /** No two claims of one plan generate the same attempt id: the number follows the last hyphen. */
  lemma GeneratedIdsDistinct(plan: string, task: string, m: nat, task': string, n: nat)
    requires GeneratedAttemptId(plan, task, m) == GeneratedAttemptId(plan, task', n)
    ensures task == task' && m == n
  {
    var k := |"attempt-" + plan + "-"|;
    var x, y := task + "-" + Decimal.Print(m), task' + "-" + Decimal.Print(n);
    assert GeneratedAttemptId(plan, task, m)[k..] == x && GeneratedAttemptId(plan, task', n)[k..] == y;
    assert Decimal.AllDigits(Decimal.Print(m)) && Decimal.AllDigits(Decimal.Print(n));
    assert x[|task|] == '-' && y[|task'|] == '-';
    assert forall i :: |task'| < i < |y| ==> y[i] == Decimal.Print(n)[i - |task'| - 1];
    assert forall i :: |task| < i < |x| ==> x[i] == Decimal.Print(m)[i - |task| - 1];
    assert task == x[..|task|] && task' == y[..|task'|];
    AttemptIdsDistinct(plan, task, m, n);
  }

  /** Two claims of a task get different temporary names, unless the hash collides. */
  lemma ClaimsGetDistinctTemps(hash: HashFunction, plan: string, task: string, m: nat, n: nat)
    requires IsByteString(plan) && IsByteString(task) && m != n
    ensures var a, b := GeneratedAttemptId(plan, task, m), GeneratedAttemptId(plan, task, n);
            || TempNameFor(hash, plan, task, a) != TempNameFor(hash, plan, task, b)
            || Collides(hash, AsBytes(TempPayload(plan, task, a)), AsBytes(TempPayload(plan, task, b)))
  {
    var a, b := GeneratedAttemptId(plan, task, m), GeneratedAttemptId(plan, task, n);
    if a == b {
      AttemptIdsDistinct(plan, task, m, n);
    } else if TempNameFor(hash, plan, task, a) == TempNameFor(hash, plan, task, b) {
      assert Decimal.AllDigits(Decimal.Print(m)) && Decimal.AllDigits(Decimal.Print(n));
      TempNamesDistinct(hash, plan, task, a, plan, task, b);
    }
  }
}
