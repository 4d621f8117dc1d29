/** The base64 coder of src/model/plan_artifact.cpp (section 4 of RFC 4648). */
module Base64 {
  import opened Common
  import opened TempNames

  /** The alphabet of table 1: A-Z, a-z, 0-9, '+', '/'. */
  function AlphabetChar(d: nat): (c: char)
    requires d < 64
    ensures c != '=' && Base64Value(c) == d
  {
    if d < 26 then 'A' + d as char
    else if d < 52 then 'a' + (d - 26) as char
    else if d < 62 then '0' + (d - 52) as char
    else if d == 62 then '+' else '/'
  }

  function Base64Value(c: char): int {
    if 'A' <= c <= 'Z' then c as int - 'A' as int
    else if 'a' <= c <= 'z' then c as int - 'a' as int + 26
    else if '0' <= c <= '9' then c as int - '0' as int + 52
    else if c == '+' then 62
    else if c == '/' then 63
    else -1
  }

  /** The byte at an index, or 0 past the end. */
  function ByteAt(s: string, i: nat): (b: nat)
    ensures b < 256
  {
    if i < |s| then s[i] as int % 256 else 0
  }

  /** The k-th group of six bits, counted from the right, of a 24-bit number. */
  function Sextet(combined: nat, k: nat): (d: nat)
    ensures d < 64
  {
    if k == 0 then combined % 64
    else if k == 1 then combined / 64 % 64
    else if k == 2 then combined / 4096 % 64
    else combined / 262144 % 64
  }

  function Combined(x: nat, y: nat, z: nat): nat {
    x * 65536 + y * 256 + z
  }

  /** The four characters for a group whose bytes are x, y, z, of which `count` are really there. */
  function QuadOf(c: nat, count: nat): (q: string)
    ensures |q| == 4
  {
    [AlphabetChar(Sextet(c, 3)), AlphabetChar(Sextet(c, 2)),
     if count > 1 then AlphabetChar(Sextet(c, 1)) else '=',
     if count > 2 then AlphabetChar(Sextet(c, 0)) else '=']
  }

  function Quad(s: string, i: nat): (q: string)
    requires i < |s|
    ensures |q| == 4
  {
    QuadOf(Combined(ByteAt(s, i), ByteAt(s, i + 1), ByteAt(s, i + 2)), |s| - i)
  }

  function Groups(s: string): nat {
    (|s| + 2) / 3
  }

  /** The text of the first k groups of three bytes. */
  function EncodeGroups(s: string, k: nat): (r: string)
    requires k <= Groups(s)
    ensures |r| == 4 * k
  {
    if k == 0 then "" else EncodeGroups(s, k - 1) + Quad(s, 3 * (k - 1))
  }

  function Encode(s: string): string {
    EncodeGroups(s, Groups(s))
  }

  // ---------------------------------------------------------------- the text, bit by bit

  /** Table 1 of RFC 4648. */
  const UPPER := "ABCDEFGHIJKLMNOPQRSTUVWXYZ"
  const LOWER := "abcdefghijklmnopqrstuvwxyz"
  const DIGITS := "0123456789"

  function Alphabet(): (a: string)
    ensures |a| == 64
  {
    UPPER + LOWER + DIGITS + "+/"
  }

  /** The six bits of a byte string from bit b on, highest bit of each byte first; bits past the end are 0. */
  function SixBits(s: string, b: nat): (d: nat)
    ensures d < 64
  {
    var window := ByteAt(s, b / 8) * 256 + ByteAt(s, b / 8 + 1);
    if b % 8 == 0 then window / 1024 else if b % 8 == 2 then window / 256 % 64
    else if b % 8 == 4 then window / 64 % 64 else window / 16 % 64
  }

  lemma AlphabetIs(d: nat)
    requires d < 64
    ensures Alphabet()[d] == AlphabetChar(d)
  {
    assert d < 26 ==> Alphabet()[d] == UPPER[d];
    assert 26 <= d < 52 ==> Alphabet()[d] == LOWER[d - 26];
    assert 52 <= d < 62 ==> Alphabet()[d] == DIGITS[d - 52];
  }

  lemma SextetsAreBits(x: nat, y: nat, z: nat, w: nat)
    requires x < 256 && y < 256 && z < 256 && w < 256
    ensures var c := Combined(x, y, z);
            && Sextet(c, 3) == (x * 256 + y) / 1024 && Sextet(c, 2) == (x * 256 + y) / 16 % 64
            && Sextet(c, 1) == (y * 256 + z) / 64 % 64 && Sextet(c, 0) == (z * 256 + w) / 256 % 64
  {
    var c := Combined(x, y, z);
    var x0, x1 := x / 4, x % 4;
    var y0, y1 := y / 16, y % 16;
    var z0, z1 := z / 64, z % 64;
    assert c == Number(x0, 16 * x1 + y0, 4 * y1 + z0, z1);
    NumberSextets(x0, 16 * x1 + y0, 4 * y1 + z0, z1);
    Quotient(x * 256 + y, 1024, x0, 256 * x1 + y);
    Quotient(x * 256 + y, 16, 64 * x0 + 16 * x1 + y0, y1);
    LastSextet(x0, 16 * x1 + y0);
    Quotient(y * 256 + z, 64, 64 * y0 + 4 * y1 + z0, z1);
    LastSextet(y0, 4 * y1 + z0);
    Quotient(z * 256 + w, 256, z, w);
  }

  lemma Quotient(n: nat, d: nat, q: nat, r: nat)
    requires d == 16 || d == 64 || d == 256 || d == 1024
    requires n == d * q + r && r < d
    ensures n / d == q
  {
  }

  lemma QuadChar(s: string, i: nat, m: nat)
    requires i < |s| && i % 3 == 0 && m < 4
    ensures Quad(s, i)[m] == if 6 * m < 8 * (|s| - i) then Alphabet()[SixBits(s, 8 * i + 6 * m)] else '='
  {
    hide AlphabetChar, Combined, Sextet, Alphabet;
    var d := SixBits(s, 8 * i + 6 * m);
    AlphabetIs(d);
    SextetsAreBits(ByteAt(s, i), ByteAt(s, i + 1), ByteAt(s, i + 2), ByteAt(s, i + 3));
    BitPlace(i, m);
  }

  lemma BitPlace(i: nat, m: nat)
    requires m < 4
    ensures (8 * i + 6 * m) / 8 == i + (if m < 2 then 0 else m - 1)
    ensures (8 * i + 6 * m) % 8 == if m == 0 then 0 else if m == 1 then 6 else if m == 2 then 4 else 2
  {
  }

  /** Character i of the text stands for the six bits from bit 6 * i on, as long as there are bits left. */
  lemma EncodedChar(s: string, i: nat)
    requires i < |Encode(s)|
    ensures Encode(s)[i] == if 6 * i < 8 * |s| then Alphabet()[SixBits(s, 6 * i)] else '='
  {
    hide Quad, SixBits, Alphabet;
    var k := i / 4;
    QuadInText(s, k + 1, Groups(s));
    GroupBounds(s, k + 1);
    assert Encode(s)[i] == Encode(s)[4 * k..4 * (k + 1)][i % 4];
    QuadChar(s, 3 * k, i % 4);
    assert 8 * (3 * k) + 6 * (i % 4) == 6 * i;
  }

  method Base64Encode(value: string) returns (result: string)
    ensures result == Encode(value)
    ensures |result| == (|value| + 2) / 3 * 4
    ensures forall i :: 0 <= i < |result| ==>
              result[i] == if 6 * i < 8 * |value| then Alphabet()[SixBits(value, 6 * i)] else '='
  {
    hide Alphabet, SixBits, QuadOf;
    result := "";
    var index := 0;
    ghost var k := 0;
    while index < |value|
      invariant index == 3 * k && k <= Groups(value) && result == EncodeGroups(value, k)
      invariant index >= |value| ==> k == Groups(value)
    {
      var c := Combined(ByteAt(value, index), ByteAt(value, index + 1), ByteAt(value, index + 2));
      result := result + QuadOf(c, |value| - index);
      assert result == EncodeGroups(value, k) + Quad(value, index);
      index := index + 3;
      k := k + 1;
    }
    forall i | 0 <= i < |result|
      ensures result[i] == if 6 * i < 8 * |value| then Alphabet()[SixBits(value, 6 * i)] else '='
    {
      EncodedChar(value, i);
    }
  }

  /** The bytes of a 24-bit number, less the padded ones. */
  function BytesOf(c: nat, pad3: bool, pad4: bool): string {
    [(c / 65536 % 256) as char]
    + (if pad3 then [] else [(c / 256 % 256) as char])
    + (if pad4 then [] else [(c % 256) as char])
  }

  /** The 24-bit number whose sextets these are. */
  function Number(a: nat, b: nat, c: nat, d: nat): nat {
    a * 262144 + b * 4096 + c * 64 + d
  }

  /** Four characters of the text, at its end or not: the bytes they stand for, or an error. */
  function DecodeQuad(q: string, atEnd: bool): Outcome<string>
    requires |q| == 4
  {
    var pad3, pad4 := q[2] == '=', q[3] == '=';
    var first, second := Base64Value(q[0]), Base64Value(q[1]);
    var third := if pad3 then 0 else Base64Value(q[2]);
    var fourth := if pad4 then 0 else Base64Value(q[3]);
    if q[0] == '=' || q[1] == '=' || (pad3 && !pad4) then Err(InvalidArgument)
    else if first < 0 || second < 0 || third < 0 || fourth < 0 then Err(InvalidArgument)
    else if (pad3 || pad4) && !atEnd then Err(InvalidArgument)
    else Ok(BytesOf(Number(first, second, third, fourth), pad3, pad4))
  }

  /** The bytes of the first k quads. */
  function DecodeGroups(v: string, k: nat): Outcome<string>
    requires 4 * k <= |v|
  {
    if k == 0 then Ok("")
    else
      var before := DecodeGroups(v, k - 1);
      if before.Err? then before
      else
        var quad := DecodeQuad(v[4 * (k - 1)..4 * k], 4 * k == |v|);
        if quad.Err? then quad else Ok(before.value + quad.value)
  }

  function Decode(v: string): Outcome<string> {
    if |v| % 4 != 0 then Err(InvalidArgument) else DecodeGroups(v, |v| / 4)
  }

  lemma {:induction false} DecodeErrorStays(v: string, j: nat, k: nat)
    requires j <= k && 4 * k <= |v| && DecodeGroups(v, j).Err?
    ensures DecodeGroups(v, k) == DecodeGroups(v, j)
    decreases k
  {
    if j < k {
      DecodeErrorStays(v, j, k - 1);
    }
  }

  method Base64Decode(value: string) returns (r: Outcome<string>)
    ensures r == Decode(value)
    ensures r.Ok? <==> exists pad: nat :: IsBase64(value, pad)
    ensures forall pad: nat :: IsBase64(value, pad) ==>
              r.Ok? && |r.value| == |value| / 4 * 3 - pad && forall j :: 0 <= j < |r.value| ==> HasBits(value, 8 * j, r.value[j])
    ensures r.Err? ==> r.code == InvalidArgument
  {
    DecodeExactly(value);
    if |value| % 4 != 0 {
      return Err(InvalidArgument);
    }
    var result := "";
    for k := 0 to |value| / 4
      invariant DecodeGroups(value, k) == Ok(result)
    {
      var quad := DecodeQuad(value[4 * k..4 * (k + 1)], 4 * (k + 1) == |value|);
      if quad.Err? {
        DecodeErrorStays(value, k + 1, |value| / 4);
        return quad;
      }
      result := result + quad.value;
    }
    return Ok(result);
  }

  // ---------------------------------------------------------------- what is accepted

  /** Whole quads of characters of the alphabet, the last one with `pad` times '=' at its end. */
  predicate IsBase64(v: string, pad: nat) {
    && |v| % 4 == 0 && pad <= 2 && pad <= |v|
    && (forall i :: 0 <= i < |v| - pad ==> v[i] in Alphabet())
    && (forall i :: |v| - pad <= i < |v| ==> v[i] == '=')
  }

  /** The byte `e` has the eight bits that the characters of the text have from bit b on. */
  ghost predicate HasBits(v: string, b: nat, e: char)
    requires b / 6 + 1 < |v|
  {
    forall x: nat, y: nat {:trigger Alphabet()[x], Alphabet()[y]} ::
      x < 64 && y < 64 && Alphabet()[x] == v[b / 6] && Alphabet()[y] == v[b / 6 + 1] ==>
        e as int == (x * 64 + y) / (if b % 6 == 0 then 16 else if b % 6 == 2 then 4 else 1) % 256
  }

  lemma ValueInAlphabet(c: char)
    ensures Base64Value(c) >= 0 <==> c in Alphabet()
    ensures '=' !in Alphabet()
  {
    hide AlphabetChar;
    if Base64Value(c) >= 0 {
      CharOfValue(c);
      AlphabetIs(Base64Value(c));
    }
    forall d: nat | d < 64 ensures Base64Value(Alphabet()[d]) >= 0 {
      AlphabetIs(d);
    }
  }

  /** Quad k, of which the last `pad` characters are padding. */
  predicate GoodQuad(q: string, pad: nat)
    requires |q| == 4
  {
    && pad <= 2 && (forall i :: 0 <= i < 4 - pad ==> Base64Value(q[i]) >= 0) && (forall i :: 4 - pad <= i < 4 ==> q[i] == '=')
  }

  function PadOf(q: string): (pad: nat)
    requires |q| == 4
    ensures pad <= 2
  {
    if q[3] != '=' then 0 else if q[2] != '=' then 1 else 2
  }

  lemma QuadExactly(q: string, atEnd: bool)
    requires |q| == 4
    ensures DecodeQuad(q, atEnd).Ok? <==> GoodQuad(q, PadOf(q)) && (PadOf(q) > 0 ==> atEnd)
    ensures forall pad :: GoodQuad(q, pad) ==> pad == PadOf(q)
    ensures DecodeQuad(q, atEnd).Ok? ==> |DecodeQuad(q, atEnd).value| == 3 - PadOf(q)
    ensures DecodeQuad(q, atEnd).Err? ==> DecodeQuad(q, atEnd) == Err(InvalidArgument)
  {
  }

  /** The first k quads are accepted exactly when they are good ones, padded only at the end of the text. */
  lemma {:induction false} GroupsExactly(v: string, k: nat)
    requires 4 * k <= |v|
    ensures DecodeGroups(v, k).Ok? <==>
              forall m :: 0 < m <= k ==> DecodeQuad(v[4 * (m - 1)..4 * m], 4 * m == |v|).Ok?
    ensures DecodeGroups(v, k).Ok? && k > 0 ==>
              |DecodeGroups(v, k).value| == 3 * k - PadOf(v[4 * (k - 1)..4 * k])
    ensures DecodeGroups(v, k).Err? ==> DecodeGroups(v, k) == Err(InvalidArgument)
    decreases k
  {
    hide DecodeQuad, PadOf, GoodQuad;
    if k > 0 {
      GroupsExactly(v, k - 1);
      QuadExactly(v[4 * (k - 1)..4 * k], 4 * k == |v|);
      if k > 1 {
        QuadExactly(v[4 * (k - 2)..4 * (k - 1)], false);
      }
    }
  }

  /** A whole text is accepted exactly when it is base64 text. */
  lemma AcceptedExactly(v: string, pad: nat)
    ensures IsBase64(v, pad) ==> Decode(v).Ok? && |Decode(v).value| == |v| / 4 * 3 - pad
    ensures Decode(v).Ok? ==> IsBase64(v, if v == "" then 0 else PadOf(v[|v| - 4..]))
    ensures Decode(v).Err? ==> Decode(v) == Err(InvalidArgument)
  {
    hide DecodeQuad, DecodeGroups, Base64Value, Alphabet;
    if |v| % 4 == 0 {
      GroupsExactly(v, |v| / 4);
      if IsBase64(v, pad) {
        forall m | 0 < m <= |v| / 4 ensures DecodeQuad(v[4 * (m - 1)..4 * m], 4 * m == |v|).Ok? {
          GoodHere(v, pad, m);
        }
        if v != "" {
          GoodHere(v, pad, |v| / 4);
          assert v[4 * (|v| / 4 - 1)..4 * (|v| / 4)] == v[|v| - 4..];
        } else {
          assert DecodeGroups(v, 0) == Ok("") by { EmptyDecodes(v); }
        }
      }
      if Decode(v).Ok? && v != "" {
        assert v[4 * (|v| / 4 - 1)..4 * (|v| / 4)] == v[|v| - 4..];
        AcceptedIsBase64(v);
      }
    }
  }

  lemma EmptyDecodes(v: string)
    ensures DecodeGroups(v, 0) == Ok("")
  {
  }

  lemma GoodHere(v: string, pad: nat, m: nat)
    requires IsBase64(v, pad) && 0 < m <= |v| / 4
    ensures var q := v[4 * (m - 1)..4 * m];
            DecodeQuad(q, 4 * m == |v|).Ok? && PadOf(q) == if 4 * m == |v| then pad else 0
  {
    hide DecodeQuad, Base64Value, Alphabet;
    var q, p := v[4 * (m - 1)..4 * m], if 4 * m == |v| then pad else 0;
    forall i | 0 <= i < 4 - p ensures Base64Value(q[i]) >= 0 {
      ValueInAlphabet(q[i]);
      assert q[i] == v[4 * (m - 1) + i];
    }
    assert GoodQuad(q, p);
    QuadExactly(q, 4 * m == |v|);
  }

  lemma AcceptedIsBase64(v: string)
    requires v != "" && Decode(v).Ok?
    ensures IsBase64(v, PadOf(v[|v| - 4..]))
  {
    hide DecodeQuad, DecodeGroups, Base64Value, Alphabet;
    GroupsExactly(v, |v| / 4);
    var pad := PadOf(v[|v| - 4..]);
    forall i | 0 <= i < |v| ensures if i < |v| - pad then v[i] in Alphabet() else v[i] == '=' {
      var m := i / 4 + 1;
      var q := v[4 * (m - 1)..4 * m];
      assert q[i % 4] == v[i] && (4 * m == |v| ==> q == v[|v| - 4..]);
      QuadExactly(q, 4 * m == |v|);
      ValueInAlphabet(v[i]);
    }
  }

  lemma QuadBits(q: string, atEnd: bool, m: nat, x: nat, y: nat)
    requires |q| == 4 && DecodeQuad(q, atEnd).Ok? && m < |DecodeQuad(q, atEnd).value|
    requires Base64Value(q[m]) == x && Base64Value(q[m + 1]) == y
    ensures DecodeQuad(q, atEnd).value[m] as int == (x * 64 + y) / (if m == 0 then 16 else if m == 1 then 4 else 1) % 256
  {
    hide Number;
    var third := if q[2] == '=' then 0 else Base64Value(q[2]);
    var fourth := if q[3] == '=' then 0 else Base64Value(q[3]);
    CharOfValue(q[0]);
    CharOfValue(q[1]);
    if q[2] != '=' {
      CharOfValue(q[2]);
    }
    if q[3] != '=' {
      CharOfValue(q[3]);
    }
    NumberBytes(Base64Value(q[0]), Base64Value(q[1]), third, fourth);
  }

  lemma NumberBytes(a: nat, b: nat, c: nat, d: nat)
    requires a < 64 && b < 64 && c < 64 && d < 64
    ensures var n := Number(a, b, c, d);
            && n / 65536 % 256 == (a * 64 + b) / 16 % 256 && n / 256 % 256 == (b * 64 + c) / 4 % 256
            && n % 256 == (c * 64 + d) % 256
  {
    var n := Number(a, b, c, d);
    var b0, b1, c0, c1 := b / 16, b % 16, c / 4, c % 4;
    assert n == 65536 * (4 * a + b0) + (4096 * b1 + 64 * c + d);
    Div65536(n, 4 * a + b0, 4096 * b1 + 64 * c + d);
    Quotient(a * 64 + b, 16, 4 * a + b0, b1);
    Quotient(n, 256, 1024 * a + 16 * b + c0, 64 * c1 + d);
    Mod256(1024 * a + 16 * b + c0, 4 * a + b0, 16 * b1 + c0);
    assert (b * 64 + c) / 4 == 16 * b + c0;
    Mod256(16 * b + c0, b0, 16 * b1 + c0);
    Mod256(n, 1024 * a + 16 * b + c0, 64 * c1 + d);
    Mod256(c * 64 + d, c0, 64 * c1 + d);
  }

  lemma {:induction false} GroupsBits(v: string, k: nat, j: nat)
    requires 4 * k <= |v| && DecodeGroups(v, k).Ok? && j < |DecodeGroups(v, k).value|
    ensures 8 * j / 6 + 1 < |v| && HasBits(v, 8 * j, DecodeGroups(v, k).value[j])
    decreases k
  {
    hide DecodeQuad, Alphabet, Base64Value, HasBits, PadOf;
    GroupsExactly(v, k);
    GroupsExactly(v, k - 1);
    var q := v[4 * (k - 1)..4 * k];
    if k > 1 {
      QuadExactly(v[4 * (k - 2)..4 * (k - 1)], false);
    }
    QuadExactly(q, 4 * k == |v|);
    if j < 3 * (k - 1) {
      GroupsBits(v, k - 1, j);
    } else {
      LastBits(v, k, j - 3 * (k - 1), DecodeQuad(q, 4 * k == |v|).value);
    }
  }

  lemma LastBits(v: string, k: nat, m: nat, b: string)
    requires 0 < k && 4 * k <= |v| && DecodeQuad(v[4 * (k - 1)..4 * k], 4 * k == |v|) == Ok(b) && m < |b|
    ensures 8 * (3 * (k - 1) + m) / 6 + 1 < |v| && HasBits(v, 8 * (3 * (k - 1) + m), b[m])
  {
    hide DecodeQuad, Alphabet, Base64Value;
    var q, at := v[4 * (k - 1)..4 * k], 8 * (3 * (k - 1) + m);
    QuadExactly(q, 4 * k == |v|);
    assert at == 6 * (4 * (k - 1) + m) + 2 * m;
    assert at / 6 == 4 * (k - 1) + m && at % 6 == 2 * m;
    forall x: nat, y: nat | x < 64 && y < 64 && Alphabet()[x] == v[at / 6] && Alphabet()[y] == v[at / 6 + 1]
      ensures b[m] as int == (x * 64 + y) / (if at % 6 == 0 then 16 else if at % 6 == 2 then 4 else 1) % 256
    {
      AlphabetIs(x);
      AlphabetIs(y);
      QuadBits(q, 4 * k == |v|, m, x, y);
    }
  }

  /** A text is accepted exactly when it is base64 text, and its bytes are then the bits of its characters. */
  lemma DecodeExactly(v: string)
    ensures Decode(v).Ok? <==> exists pad: nat :: IsBase64(v, pad)
    ensures forall pad: nat :: IsBase64(v, pad) ==>
              && Decode(v).Ok? && |Decode(v).value| == |v| / 4 * 3 - pad
              && forall j :: 0 <= j < |Decode(v).value| ==> 8 * j / 6 + 1 < |v| && HasBits(v, 8 * j, Decode(v).value[j])
    ensures Decode(v).Err? ==> Decode(v) == Err(InvalidArgument)
  {
    hide DecodeQuad, DecodeGroups, HasBits, IsBase64;
    AcceptedExactly(v, 0);
    forall pad: nat | IsBase64(v, pad)
      ensures Decode(v).Ok? && |Decode(v).value| == |v| / 4 * 3 - pad
    {
      AcceptedExactly(v, pad);
    }
    if Decode(v).Ok? {
      forall j | 0 <= j < |Decode(v).value| ensures 8 * j / 6 + 1 < |v| && HasBits(v, 8 * j, Decode(v).value[j]) {
        GroupsBits(v, |v| / 4, j);
      }
    }
  }

  // ---------------------------------------------------------------- round trip

  lemma Div4096(c: nat, q: nat, r: nat)
    requires c == 4096 * q + r && r < 4096
    ensures c / 4096 == q
  {
  }

  lemma Div262144(c: nat, q: nat, r: nat)
    requires c == 262144 * q + r && r < 262144
    ensures c / 262144 == q
  {
  }

  lemma SextetsCombine(c: nat)
    requires c < 0x1000000
    ensures Sextet(c, 3) * 262144 + Sextet(c, 2) * 4096 + Sextet(c, 1) * 64 + Sextet(c, 0) == c
  {
    var q, r := c / 64, c % 64;
    var q2, r2 := q / 64, q % 64;
    var q3, r3 := q2 / 64, q2 % 64;
    Div4096(c, q2, 64 * r2 + r);
    Div262144(c, q3, 4096 * r3 + 64 * r2 + r);
    assert q3 < 64;
  }

  lemma BytesCombine(x: nat, y: nat, z: nat)
    requires x < 256 && y < 256 && z < 256
    ensures var c := Combined(x, y, z);
            c < 0x1000000 && c / 65536 == x && c / 256 % 256 == y && c % 256 == z
  {
    var c := Combined(x, y, z);
    assert c == 256 * (256 * x + y) + z;
    assert c / 256 == 256 * x + y;
  }

  /** With missing bytes read as 0, the sextets that padding replaces are 0. */
  lemma PaddedSextets(x: nat, y: nat)
    requires x < 256 && y < 256
    ensures Sextet(Combined(x, y, 0), 0) == 0
    ensures Sextet(Combined(x, 0, 0), 1) == 0
  {
  }

  /** The four characters give back the number whose sextets they show; padding stands for sextets that are 0. */
  lemma CharsDecode(c: nat, count: nat, atEnd: bool)
    requires Sextet(c, 3) * 262144 + Sextet(c, 2) * 4096 + Sextet(c, 1) * 64 + Sextet(c, 0) == c && count > 0
    requires (count < 3 ==> Sextet(c, 0) == 0 && atEnd) && (count < 2 ==> Sextet(c, 1) == 0)
    ensures DecodeQuad(QuadOf(c, count), atEnd) == Ok(BytesOf(c, count < 2, count < 3))
  {
    var s3, s2, s1, s0 := Sextet(c, 3), Sextet(c, 2), Sextet(c, 1), Sextet(c, 0);
    var q := QuadOf(c, count);
    assert q[0] == AlphabetChar(s3) && q[1] == AlphabetChar(s2);
    assert q[2] == (if count > 1 then AlphabetChar(s1) else '=') && q[3] == (if count > 2 then AlphabetChar(s0) else '=');
  }

  lemma QuadOfDecodes(x: nat, y: nat, z: nat, count: nat, atEnd: bool)
    requires x < 256 && y < 256 && z < 256 && count > 0
    requires (count < 3 ==> z == 0 && atEnd) && (count < 2 ==> y == 0)
    ensures DecodeQuad(QuadOf(Combined(x, y, z), count), atEnd) == Ok(BytesOf(Combined(x, y, z), count < 2, count < 3))
  {
    var c := Combined(x, y, z);
    BytesCombine(x, y, z);
    SextetsCombine(c);
    PaddedSextets(x, y);
    CharsDecode(c, count, atEnd);
  }

  function Piece(s: string, i: nat): string
    requires i < |s|
  {
    s[i..if i + 3 < |s| then i + 3 else |s|]
  }

  lemma BytesOfCombined(x: nat, y: nat, z: nat, pad3: bool, pad4: bool)
    requires x < 256 && y < 256 && z < 256
    ensures BytesOf(Combined(x, y, z), pad3, pad4)
         == [x as char] + (if pad3 then [] else [y as char]) + (if pad4 then [] else [z as char])
  {
    BytesCombine(x, y, z);
  }

  lemma PieceBytes(s: string, i: nat)
    requires IsByteString(s) && i < |s|
    ensures Piece(s, i) == [ByteAt(s, i) as char] + (if i + 2 > |s| then [] else [ByteAt(s, i + 1) as char])
                           + (if i + 3 > |s| then [] else [ByteAt(s, i + 2) as char])
  {
  }

  lemma QuadDecodes(s: string, i: nat, atEnd: bool)
    requires IsByteString(s) && i < |s| && (i + 3 > |s| ==> atEnd)
    ensures DecodeQuad(Quad(s, i), atEnd) == Ok(Piece(s, i))
  {
    var x, y, z := ByteAt(s, i), ByteAt(s, i + 1), ByteAt(s, i + 2);
    QuadOfDecodes(x, y, z, |s| - i, atEnd);
    BytesOfCombined(x, y, z, i + 2 > |s|, i + 3 > |s|);
    PieceBytes(s, i);
  }

  function UpTo(s: string, k: nat): string {
    if k < |s| then s[..k] else s
  }

  lemma UpToNext(s: string, k: nat)
    requires 0 < k <= Groups(s)
    ensures UpTo(s, 3 * (k - 1)) + Piece(s, 3 * (k - 1)) == UpTo(s, 3 * k)
  {
  }

  lemma GroupBounds(s: string, k: nat)
    requires 0 < k <= Groups(s)
    ensures 3 * (k - 1) < |s| && (3 * k > |s| ==> k == Groups(s))
  {
  }

  lemma NextGroup(s: string, k: nat)
    requires IsByteString(s) && 0 < k <= Groups(s)
    ensures DecodeQuad(Encode(s)[4 * (k - 1)..4 * k], 4 * k == |Encode(s)|) == Ok(Piece(s, 3 * (k - 1)))
  {
    GroupBounds(s, k);
    var v, n := Encode(s), Groups(s);
    assert |v| == 4 * n;
    QuadInText(s, k, n);
    QuadDecodes(s, 3 * (k - 1), 4 * k == |v|);
  }

  lemma {:induction false} GroupsDecode(s: string, k: nat)
    requires IsByteString(s) && k <= Groups(s)
    ensures DecodeGroups(Encode(s), k) == Ok(UpTo(s, 3 * k))
    decreases k
  {
    if k > 0 {
      GroupsDecode(s, k - 1);
      NextGroup(s, k);
      UpToNext(s, k);
    }
  }

  lemma SliceOfFront(a: string, b: string, i: nat, j: nat)
    requires i <= j <= |a|
    ensures (a + b)[i..j] == a[i..j]
  {
  }

  lemma {:induction false} QuadInText(s: string, k: nat, n: nat)
    requires 0 < k <= n <= Groups(s)
    ensures EncodeGroups(s, n)[4 * (k - 1)..4 * k] == Quad(s, 3 * (k - 1))
    decreases n
  {
    hide Quad;
    GroupBounds(s, n);
    var front, last := EncodeGroups(s, n - 1), Quad(s, 3 * (n - 1));
    assert |front| == 4 * (n - 1) && EncodeGroups(s, n) == front + last;
    if k < n {
      QuadInText(s, k, n - 1);
      SliceOfFront(front, last, 4 * (k - 1), 4 * k);
    } else {
      assert (front + last)[|front|..|front| + 4] == last;
    }
  }

  /** Decoding an encoded byte string gives it back. */
  lemma DecodeEncode(s: string)
    requires IsByteString(s)
    ensures Decode(Encode(s)) == Ok(s)
  {
    var n := Groups(s);
    GroupsDecode(s, n);
    WholeText(Encode(s), n);
    assert 3 * n >= |s|;
  }

  lemma WholeText(v: string, n: nat)
    requires |v| == 4 * n
    ensures Decode(v) == DecodeGroups(v, n)
  {
  }

  // ---------------------------------------------------------------- encode after decode

  lemma CharOfValue(c: char)
    requires Base64Value(c) >= 0
    ensures Base64Value(c) < 64 && AlphabetChar(Base64Value(c)) == c
  {
  }

  lemma LastSextet(q: nat, r: nat)
    requires r < 64
    ensures (64 * q + r) % 64 == r && (64 * q + r) / 64 == q
  {
  }

  lemma NumberSextets(a: nat, b: nat, c: nat, d: nat)
    requires a < 64 && b < 64 && c < 64 && d < 64
    ensures var n := Number(a, b, c, d);
            n < 0x1000000 && Sextet(n, 3) == a && Sextet(n, 2) == b && Sextet(n, 1) == c && Sextet(n, 0) == d
  {
    var n := Number(a, b, c, d);
    LastSextet(64 * (64 * a + b) + c, d);
    LastSextet(64 * a + b, c);
    LastSextet(a, b);
    Div4096(n, 64 * a + b, 64 * c + d);
    Div262144(n, a, 4096 * b + 64 * c + d);
  }

  /** The three bytes of a 24-bit number make it up again. */
  lemma BytesOfNumber(n: nat)
    requires n < 0x1000000
    ensures n / 65536 < 256 && Combined(n / 65536, n / 256 % 256, n % 256) == n
  {
    var q := n / 256;
    assert n == 256 * q + n % 256 && q == 256 * (q / 256) + q % 256;
    assert n / 65536 == q / 256 by {
      assert n == 65536 * (q / 256) + 256 * (q % 256) + n % 256;
    }
  }

  lemma Mod256(n: nat, q: nat, r: nat)
    requires n == 256 * q + r && r < 256
    ensures n % 256 == r
  {
  }

  /** Clearing the low byte of a number clears the low bits of its third sextet. */
  lemma LowByteCleared(a: nat, b: nat, c: nat)
    requires a < 64 && b < 64 && c < 64
    ensures var n := Number(a, b, c, 0);
            n < 0x1000000 && Combined(n / 65536, n / 256 % 256, 0) == Number(a, b, c / 4 * 4, 0)
  {
    var n, c1, c0 := Number(a, b, c, 0), c / 4, c % 4;
    assert c == 4 * c1 + c0;
    Mod256(n, 1024 * a + 16 * b + c1, 64 * c0);
    BytesOfNumber(n);
  }

  lemma Div65536(n: nat, q: nat, r: nat)
    requires n == 65536 * q + r && r < 65536
    ensures n / 65536 == q
  {
  }

  /** Clearing two bytes of it clears the low bits of its second sextet. */
  lemma LowBytesCleared(a: nat, b: nat)
    requires a < 64 && b < 64
    ensures var n := Number(a, b, 0, 0);
            n < 0x1000000 && Combined(n / 65536, 0, 0) == Number(a, b / 16 * 16, 0, 0)
  {
    var n, b1, b0 := Number(a, b, 0, 0), b / 16, b % 16;
    assert b == 16 * b1 + b0;
    Div65536(n, 4 * a + b1, 4096 * b0);
  }

  /** The quad with the bits that padding leaves over set to 0. */
  function ClearedQuad(q: string): (r: string)
    requires |q| == 4
    ensures |r| == 4
  {
    if q[2] == '=' then
      if Base64Value(q[1]) < 0 then q else [q[0], AlphabetChar(Base64Value(q[1]) / 16 * 16), '=', q[3]]
    else if q[3] == '=' then
      if Base64Value(q[2]) < 0 then q else [q[0], q[1], AlphabetChar(Base64Value(q[2]) / 4 * 4), '=']
    else q
  }

  /** The text with the bits that padding leaves over set to 0; they are in its last quad. */
  function Cleared(v: string): (r: string)
    ensures |r| == |v|
  {
    if |v| < 4 then v else v[..|v| - 4] + ClearedQuad(v[|v| - 4..])
  }

  /** The left-over bits are 0: in "xy==" the last four of y, in "xyz=" the last two of z. */
  predicate PadBitsZero(v: string) {
    |v| < 4 ||
    var q := v[|v| - 4..];
    && (q[2] == '=' ==> Base64Value(q[1]) % 16 == 0)
    && (q[2] != '=' && q[3] == '=' ==> Base64Value(q[2]) % 4 == 0)
  }

  lemma BytesGiven(n: nat, pad3: bool, pad4: bool)
    requires n < 0x1000000 && (pad3 ==> pad4)
    ensures var b := BytesOf(n, pad3, pad4);
            && IsByteString(b) && |b| == (if pad3 then 1 else if pad4 then 2 else 3)
            && ByteAt(b, 0) == n / 65536
            && ByteAt(b, 1) == (if pad3 then 0 else n / 256 % 256) && ByteAt(b, 2) == (if pad4 then 0 else n % 256)
  {
    BytesOfNumber(n);
  }

  /** The text of the bytes of one group. */
  function GroupText(b: string): string {
    QuadOf(Combined(ByteAt(b, 0), ByteAt(b, 1), ByteAt(b, 2)), |b|)
  }

  lemma OneByteBack(q: string, b: string)
    requires |q| == 4 && DecodeQuad(q, true) == Ok(b) && q[2] == '='
    ensures |b| == 1 && IsByteString(b) && GroupText(b) == ClearedQuad(q)
  {
    hide AlphabetChar, Sextet, Number, Combined, BytesOf, ByteAt;
    var v0, v1 := Base64Value(q[0]), Base64Value(q[1]);
    CharOfValue(q[0]);
    CharOfValue(q[1]);
    var n := Number(v0, v1, 0, 0);
    assert b == BytesOf(n, true, true);
    LowBytesCleared(v0, v1);
    NumberSextets(v0, v1 / 16 * 16, 0, 0);
    BytesGiven(n, true, true);
  }

  lemma TwoBytesBack(q: string, b: string)
    requires |q| == 4 && DecodeQuad(q, true) == Ok(b) && q[2] != '=' && q[3] == '='
    ensures |b| == 2 && IsByteString(b) && GroupText(b) == ClearedQuad(q)
  {
    hide AlphabetChar, Sextet, Number, Combined, BytesOf, ByteAt;
    var v0, v1, v2 := Base64Value(q[0]), Base64Value(q[1]), Base64Value(q[2]);
    CharOfValue(q[0]);
    CharOfValue(q[1]);
    CharOfValue(q[2]);
    var n := Number(v0, v1, v2, 0);
    assert b == BytesOf(n, false, true);
    LowByteCleared(v0, v1, v2);
    NumberSextets(v0, v1, v2 / 4 * 4, 0);
    BytesGiven(n, false, true);
  }

  lemma ThreeBytesBack(q: string, atEnd: bool, b: string)
    requires |q| == 4 && DecodeQuad(q, atEnd) == Ok(b) && q[2] != '=' && q[3] != '='
    ensures |b| == 3 && IsByteString(b) && GroupText(b) == ClearedQuad(q)
  {
    hide AlphabetChar, Sextet, Number, Combined, BytesOf, ByteAt;
    var v0, v1, v2, v3 := Base64Value(q[0]), Base64Value(q[1]), Base64Value(q[2]), Base64Value(q[3]);
    CharOfValue(q[0]);
    CharOfValue(q[1]);
    CharOfValue(q[2]);
    CharOfValue(q[3]);
    var n := Number(v0, v1, v2, v3);
    assert b == BytesOf(n, false, false);
    NumberSextets(v0, v1, v2, v3);
    BytesGiven(n, false, false);
    BytesOfNumber(n);
    assert q == [q[0], q[1], q[2], q[3]];
  }

  /** One accepted quad: encoding its bytes gives it back, less the left-over bits. */
  lemma QuadBack(q: string, atEnd: bool, b: string)
    requires |q| == 4 && DecodeQuad(q, atEnd) == Ok(b)
    ensures 1 <= |b| <= 3 && IsByteString(b) && (|b| < 3 ==> atEnd) && GroupText(b) == ClearedQuad(q)
    ensures !atEnd ==> ClearedQuad(q) == q
  {
    hide GroupText, BytesOf;
    if q[2] == '=' {
      OneByteBack(q, b);
    } else if q[3] == '=' {
      TwoBytesBack(q, b);
    } else {
      ThreeBytesBack(q, atEnd, b);
    }
  }

  lemma {:induction false} GroupsOfFront(s: string, b: string, k: nat)
    requires 3 * k <= |s|
    ensures EncodeGroups(s + b, k) == EncodeGroups(s, k)
    decreases k
  {
    if k > 0 {
      GroupsOfFront(s, b, k - 1);
      var i := 3 * (k - 1);
      assert ByteAt(s + b, i) == ByteAt(s, i) && ByteAt(s + b, i + 1) == ByteAt(s, i + 1) && ByteAt(s + b, i + 2) == ByteAt(s, i + 2);
      assert Quad(s + b, i) == Quad(s, i);
    }
  }

  lemma QuadAtEnd(s: string, b: string)
    requires 1 <= |b| <= 3
    ensures Quad(s + b, |s|) == GroupText(b)
  {
    assert ByteAt(s + b, |s|) == ByteAt(b, 0) && ByteAt(s + b, |s| + 1) == ByteAt(b, 1) && ByteAt(s + b, |s| + 2) == ByteAt(b, 2);
  }

  /** The quads before the last are complete, so they come back as they are. */
  lemma {:induction false} FrontBack(v: string, k: nat, s: string)
    requires 4 * k < |v| && DecodeGroups(v, k) == Ok(s)
    ensures |s| == 3 * k && IsByteString(s) && EncodeGroups(s, k) == v[..4 * k]
    decreases k
  {
    hide DecodeQuad, GroupText, ClearedQuad, Quad;
    if k > 0 {
      var before, q := DecodeGroups(v, k - 1).value, v[4 * (k - 1)..4 * k];
      var b := DecodeQuad(q, false).value;
      FrontBack(v, k - 1, before);
      QuadBack(q, false, b);
      GroupsOfFront(before, b, k - 1);
      QuadAtEnd(before, b);
      assert v[..4 * k] == v[..4 * (k - 1)] + q;
    }
  }

  /** Encoding what a text decodes to gives back the text with its left-over bits cleared. */
  lemma EncodeDecode(v: string, s: string)
    requires Decode(v) == Ok(s)
    ensures IsByteString(s) && Encode(s) == Cleared(v)
  {
    hide DecodeQuad, GroupText, ClearedQuad, Quad;
    if |v| >= 4 {
      var n := |v| / 4;
      var before, q := DecodeGroups(v, n - 1).value, v[|v| - 4..];
      assert v[4 * (n - 1)..4 * n] == q;
      var b := DecodeQuad(q, true).value;
      FrontBack(v, n - 1, before);
      QuadBack(q, true, b);
      GroupsOfFront(before, b, n - 1);
      QuadAtEnd(before, b);
      assert s == before + b && Groups(s) == n;
      assert v[..4 * (n - 1)] == v[..|v| - 4];
    } else {
      assert v == "" && s == "";
    }
  }

  lemma ClearedWhenZero(v: string)
    requires Decode(v).Ok?
    ensures Cleared(v) == v <==> PadBitsZero(v)
  {
    if |v| >= 4 {
      var q, r := v[|v| - 4..], ClearedQuad(v[|v| - 4..]);
      assert Cleared(v)[|v| - 4..] == r && v == v[..|v| - 4] + q;
      QuadZero(v);
    }
  }

  lemma QuadZero(v: string)
    requires |v| >= 4 && Decode(v).Ok?
    ensures var q := v[|v| - 4..]; ClearedQuad(q) == q <==> PadBitsZero(v)
  {
    var q, n := v[|v| - 4..], |v| / 4;
    assert v[4 * (n - 1)..4 * n] == q;
    assert DecodeQuad(q, true).Ok?;
    CharOfValue(q[1]);
    if q[2] == '=' {
      var d := Base64Value(q[1]);
      assert ClearedQuad(q)[1] == AlphabetChar(d / 16 * 16);
      assert Base64Value(AlphabetChar(d / 16 * 16)) == d / 16 * 16;
      assert d % 16 == 0 ==> ClearedQuad(q) == q;
    } else if q[3] == '=' {
      CharOfValue(q[2]);
      var d := Base64Value(q[2]);
      assert ClearedQuad(q)[2] == AlphabetChar(d / 4 * 4);
      assert Base64Value(AlphabetChar(d / 4 * 4)) == d / 4 * 4;
      assert d % 4 == 0 ==> ClearedQuad(q) == q;
    }
  }

  /** The decoder does not look at the bits that padding leaves over (section 3.5 of RFC 4648). Encode-after-decode is the
      identity on exactly the accepted texts in which they are 0, and two accepted texts decode alike if and only if they
      differ only there. */
  lemma PadBitsIgnored(v: string, w: string)
    requires Decode(v).Ok?
    ensures Encode(Decode(v).value) == v <==> PadBitsZero(v)
    ensures Decode(w).Ok? ==> (Decode(v) == Decode(w) <==> Cleared(v) == Cleared(w))
  {
    EncodeDecode(v, Decode(v).value);
    ClearedWhenZero(v);
    if Decode(w).Ok? {
      EncodeDecode(w, Decode(w).value);
      DecodeEncode(Decode(v).value);
      DecodeEncode(Decode(w).value);
    }
  }

  lemma OneQuad(q: string)
    requires |q| == 4 && DecodeQuad(q, true).Ok?
    ensures Decode(q) == DecodeQuad(q, true)
  {
    assert q[0..4] == q;
    assert DecodeGroups(q, 0) == Ok("");
    assert DecodeGroups(q, 1) == Ok("" + DecodeQuad(q, true).value);
    assert |q| / 4 == 1 && "" + DecodeQuad(q, true).value == DecodeQuad(q, true).value;
  }

  /** Two texts for one byte. */
  lemma PadBitsExample()
    ensures Decode("QQ==") == Ok("A") && Decode("QR==") == Ok("A") && !PadBitsZero("QR==")
  {
    assert BytesOf(16 * 262144 + 16 * 4096, true, true) == "A";
    assert BytesOf(16 * 262144 + 17 * 4096, true, true) == "A";
    assert DecodeQuad("QQ==", true) == Ok("A");
    assert DecodeQuad("QR==", true) == Ok("A");
    OneQuad("QQ==");
    OneQuad("QR==");
    assert "QR=="[0..] == "QR==";
  }
}
