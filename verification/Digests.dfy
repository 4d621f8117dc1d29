/** Hexadecimal digests of src/common/digest.cpp. */
module Digests {
  import opened Common

  const DIGEST_BYTES := 32

  function HexChar(d: nat): char
    requires d < 16
  {
    if d < 10 then '0' + d as char else 'a' + (d - 10) as char
  }

  function HexValue(c: char): int {
    if '0' <= c <= '9' then c as int - '0' as int
    else if 'a' <= c <= 'f' then c as int - 'a' as int + 10
    else if 'A' <= c <= 'F' then c as int - 'A' as int + 10
    else -1
  }

  predicate IsLowerHex(c: char) {
    '0' <= c <= '9' || 'a' <= c <= 'f'
  }

  /** What the printing loop leaves in its buffer after the given bytes. */
  function Hex(bytes: Bytes): (s: string)
    ensures |s| == 2 * |bytes|
    ensures forall i :: 0 <= i < |s| ==> IsLowerHex(s[i])
  {
    if bytes == [] then ""
    else
      var b := bytes[|bytes| - 1] as int;
      Hex(bytes[..|bytes| - 1]) + [HexChar(b / 16), HexChar(b % 16)]
  }

  const LOWER := "0123456789abcdef"
  const UPPER := "0123456789ABCDEF"

  lemma HexCharIs(d: nat)
    requires d < 16
    ensures HexChar(d) == LOWER[d] && HexValue(LOWER[d]) == d && HexValue(UPPER[d]) == d
  {
  }

  /** Every byte is printed as its high and its low half. */
  lemma {:induction false} HexExactly(bytes: Bytes, i: nat)
    requires i < |bytes|
    ensures Hex(bytes)[2 * i] == LOWER[bytes[i] as int / 16] && Hex(bytes)[2 * i + 1] == LOWER[bytes[i] as int % 16]
    decreases |bytes|
  {
    var last := |bytes| - 1;
    if i < last {
      HexExactly(bytes[..last], i);
    } else {
      HexCharIs(bytes[i] as int / 16);
      HexCharIs(bytes[i] as int % 16);
    }
  }

  method ToHex(digest: Digest) returns (s: string)
    ensures s == Hex(digest)
    ensures |s| == 2 * |digest| && forall i :: 0 <= i < |digest| ==>
              s[2 * i] == LOWER[digest[i] as int / 16] && s[2 * i + 1] == LOWER[digest[i] as int % 16]
  {
    s := "";
    for i := 0 to |digest|
      invariant s == Hex(digest[..i])
    {
      assert digest[..i + 1][..i] == digest[..i];
      s := s + [HexChar(digest[i] as int / 16), HexChar(digest[i] as int % 16)];
    }
    assert digest[..|digest|] == digest;
    forall i | 0 <= i < |digest|
      ensures s[2 * i] == LOWER[digest[i] as int / 16] && s[2 * i + 1] == LOWER[digest[i] as int % 16]
    {
      HexExactly(digest, i);
    }
  }

  predicate IsHexDigit(c: char) {
    c in LOWER || c in UPPER
  }

  /** The hexadecimal digit `c` stands for d. */
  predicate StandsFor(c: char, d: nat) {
    d < 16 && (c == LOWER[d] || c == UPPER[d])
  }

  ghost predicate PairIs(high: char, low: char, b: byte) {
    forall x: nat, y: nat :: StandsFor(high, x) && StandsFor(low, y) ==> b as int == 16 * x + y
  }

  lemma HexValueIs(c: char)
    ensures HexValue(c) >= 0 <==> IsHexDigit(c)
    ensures HexValue(c) < 16
    ensures forall d: nat :: StandsFor(c, d) ==> HexValue(c) == d
  {
    forall d: nat | StandsFor(c, d) ensures HexValue(c) == d {
      HexCharIs(d);
    }
    if HexValue(c) >= 0 {
      HexCharIs(HexValue(c));
    }
  }

  predicate HexPairs(s: string, k: nat) {
    2 * k <= |s| && forall i :: 0 <= i < 2 * k ==> HexValue(s[i]) >= 0
  }

  /** The bytes denoted by the first 2k characters, high nibble first. */
  function Unhex(s: string, k: nat): (bytes: Bytes)
    requires HexPairs(s, k)
    ensures |bytes| == k
  {
    if k == 0 then []
    else Unhex(s, k - 1) + [(HexValue(s[2 * k - 2]) * 16 + HexValue(s[2 * k - 1])) as byte]
  }

  /** What a text of 64 hexadecimal characters denotes. */
  function ReadHex(hex: string): Outcome<Digest> {
    if |hex| == 2 * DIGEST_BYTES && HexPairs(hex, DIGEST_BYTES) then Ok(Unhex(hex, DIGEST_BYTES)) else Err(InvalidArgument)
  }

  lemma {:induction false} UnhexExactly(s: string, k: nat, i: nat)
    requires HexPairs(s, k) && i < k
    ensures PairIs(s[2 * i], s[2 * i + 1], Unhex(s, k)[i])
    decreases k
  {
    hide StandsFor;
    if i < k - 1 {
      UnhexExactly(s, k - 1, i);
    } else {
      HexValueIs(s[2 * i]);
      HexValueIs(s[2 * i + 1]);
    }
  }

  lemma HexPairsExactly(hex: string)
    requires |hex| % 2 == 0
    ensures HexPairs(hex, |hex| / 2) <==> forall i :: 0 <= i < |hex| ==> IsHexDigit(hex[i])
  {
    hide HexValue, StandsFor, IsHexDigit;
    forall i | 0 <= i < |hex| ensures HexValue(hex[i]) >= 0 <==> IsHexDigit(hex[i]) {
      HexValueIs(hex[i]);
    }
  }

  method FromHex(hex: string) returns (r: Outcome<Digest>)
    ensures r == ReadHex(hex)
    ensures r.Ok? <==> |hex| == 64 && forall i :: 0 <= i < 64 ==> IsHexDigit(hex[i])
    ensures r.Ok? ==> |r.value| == 32 && forall i :: 0 <= i < 32 ==> PairIs(hex[2 * i], hex[2 * i + 1], r.value[i])
    ensures r.Err? ==> r.code == InvalidArgument
  {
    hide HexValue, StandsFor, IsHexDigit;
    if |hex| != 64 {
      return Err(InvalidArgument);
    }
    HexPairsExactly(hex);
    var bytes: Bytes := [];
    for k := 0 to DIGEST_BYTES
      invariant HexPairs(hex, k) && bytes == Unhex(hex, k)
    {
      HexValueIs(hex[2 * k]);
      HexValueIs(hex[2 * k + 1]);
      var high, low := HexValue(hex[2 * k]), HexValue(hex[2 * k + 1]);
      if high < 0 || low < 0 {
        return Err(InvalidArgument);
      }
      bytes := bytes + [(high * 16 + low) as byte];
    }
    forall i | 0 <= i < 32 ensures PairIs(hex[2 * i], hex[2 * i + 1], bytes[i]) {
      UnhexExactly(hex, 32, i);
    }
    return Ok(bytes);
  }

  lemma {:induction false} UnhexOfPrefix(s: string, t: string, k: nat)
    requires HexPairs(s, k) && 2 * k <= |t| && s[..2 * k] == t[..2 * k]
    ensures HexPairs(t, k) && Unhex(t, k) == Unhex(s, k)
    decreases k
  {
    forall i | 0 <= i < 2 * k ensures t[i] == s[i] {
      assert s[..2 * k][i] == t[..2 * k][i];
    }
    if k > 0 {
      assert s[..2 * (k - 1)] == s[..2 * k][..2 * (k - 1)];
      assert t[..2 * (k - 1)] == t[..2 * k][..2 * (k - 1)];
      UnhexOfPrefix(s, t, k - 1);
    }
  }

  /** Reading a printed digest gives the digest back. */
  lemma {:induction false} UnhexHex(bytes: Bytes)
    ensures HexPairs(Hex(bytes), |bytes|) && Unhex(Hex(bytes), |bytes|) == bytes
    decreases |bytes|
  {
    if bytes != [] {
      var n := |bytes| - 1;
      var front := bytes[..n];
      UnhexHex(front);
      assert Hex(bytes)[..2 * n] == Hex(front)[..2 * n];
      UnhexOfPrefix(Hex(front), Hex(bytes), n);
      assert bytes == front + [bytes[n]];
    }
  }

  lemma HexInjective(a: Bytes, b: Bytes)
    requires Hex(a) == Hex(b)
    ensures a == b
  {
    UnhexHex(a);
    UnhexHex(b);
  }
}
