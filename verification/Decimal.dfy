/** Decimal integers as std::to_string prints them and as src/model/plan_artifact.cpp reads them back. */
module Decimal {
  import opened Common

  predicate IsDigit(c: char) {
    '0' <= c <= '9'
  }

  predicate AllDigits(s: string) {
    forall i :: 0 <= i < |s| ==> IsDigit(s[i])
  }

  function DigitChar(d: nat): (c: char)
    requires d < 10
    ensures IsDigit(c) && DigitValue(c) == d
  {
    '0' + d as char
  }

  function DigitValue(c: char): (d: nat)
    requires IsDigit(c)
    ensures d < 10
  {
    c as int - '0' as int
  }

  /** std::to_string for unsigned values. */
  function Print(n: nat): (s: string)
    ensures s != "" && AllDigits(s)
  {
    if n < 10 then [DigitChar(n)] else Print(n / 10) + [DigitChar(n % 10)]
  }

  const DIGITS := "0123456789"

  lemma DigitCharIs(d: nat)
    requires d < 10
    ensures DigitChar(d) == DIGITS[d]
  {
  }

  /** The digits, lowest last, without leading zeros. */
  lemma PrintExactly(n: nat)
    ensures Print(n) == if n < 10 then [DIGITS[n]] else Print(n / 10) + [DIGITS[n % 10]]
  {
    hide DigitChar;
    DigitCharIs(n % 10);
  }

  lemma OneDigit(n: nat)
    requires n < 10
    ensures |Print(n)| == 1
  {
  }

  /** A larger number has at least as many digits. */
  lemma {:induction false} PrintLonger(m: nat, n: nat)
    requires m <= n
    ensures |Print(m)| <= |Print(n)|
    decreases n
  {
    if m >= 10 {
      PrintLonger(m / 10, n / 10);
    }
  }

  /** The number a digit string denotes. */
  function Value(s: string): nat
    requires AllDigits(s)
  {
    if s == "" then 0 else Value(s[..|s| - 1]) * 10 + DigitValue(s[|s| - 1])
  }

  lemma {:induction false} PrintDenotes(n: nat)
    ensures Value(Print(n)) == n
    decreases n
  {
    if n >= 10 {
      PrintDenotes(n / 10);
      assert Print(n)[..|Print(n)| - 1] == Print(n / 10);
    }
  }

  /** The uint64 accumulation loop: each step wraps modulo 2^64 and only a drop counts as overflow. */
  function Accumulate(s: string): Outcome<nat>
    requires AllDigits(s)
  {
    if s == "" then Ok(0)
    else
      var before := Accumulate(s[..|s| - 1]);
      if before.Err? then before
      else
        var next := (before.value * 10 + DigitValue(s[|s| - 1])) % UINT64_LIMIT;
        if next < before.value then Err(InvalidArgument) else Ok(next)
  }

  /** What RequiredUint64 makes of a string. */
  function ReadUint64(s: string): Outcome<nat> {
    if s == "" || !AllDigits(s) then Err(InvalidArgument) else Accumulate(s)
  }

  method ParseUint64(s: string) returns (r: Outcome<nat>)
    ensures r == ReadUint64(s)
  {
    if s == "" {
      return Err(InvalidArgument);
    }
    var value: nat := 0;
    for i := 0 to |s|
      invariant AllDigits(s[..i]) && Accumulate(s[..i]) == Ok(value)
    {
      if !IsDigit(s[i]) {
        return Err(InvalidArgument);
      }
      assert s[..i + 1][..i] == s[..i];
      var next := (value * 10 + DigitValue(s[i])) % UINT64_LIMIT;
      if next < value {
        if AllDigits(s) {
          ErrorsPersist(s, i + 1);
        }
        return Err(InvalidArgument);
      }
      value := next;
    }
    assert s[..|s|] == s;
    return Ok(value);
  }

  lemma {:induction false} ErrorsPersist(s: string, k: nat)
    requires k <= |s| && AllDigits(s) && Accumulate(s[..k]) == Err(InvalidArgument)
    ensures Accumulate(s) == Err(InvalidArgument)
    decreases |s| - k
  {
    if k == |s| {
      assert s[..k] == s;
    } else {
      assert s[..k + 1][..k] == s[..k];
      ErrorsPersist(s, k + 1);
    }
  }

  lemma {:induction false} InRangePrefix(s: string)
    requires AllDigits(s) && Value(s) < UINT64_LIMIT
    ensures Accumulate(s) == Ok(Value(s))
    decreases |s|
  {
    if s != "" {
      InRangePrefix(s[..|s| - 1]);
    }
  }

  lemma {:induction false} AccumulateInRange(s: string)
    requires AllDigits(s) && Accumulate(s).Ok?
    ensures Accumulate(s).value < UINT64_LIMIT
    decreases |s|
  {
  }

  /** The parser returns the number a digit string denotes if and only if that number fits in 64 bits. */
  lemma ParseExactIffInRange(s: string)
    requires AllDigits(s)
    ensures Accumulate(s) == Ok(Value(s)) <==> Value(s) < UINT64_LIMIT
  {
    if Value(s) < UINT64_LIMIT {
      InRangePrefix(s);
    } else if Accumulate(s).Ok? {
      AccumulateInRange(s);
    }
  }

  lemma ParsePrintedUint64(n: nat)
    requires n < UINT64_LIMIT
    ensures Accumulate(Print(n)) == Ok(n)
  {
    PrintDenotes(n);
    ParseExactIffInRange(Print(n));
  }

  lemma {:induction false} AppendZero(s: string)
    requires AllDigits(s)
    ensures AllDigits(s + "0") && Value(s + "0") == Value(s) * 10
    ensures Accumulate(s).Ok? ==>
              var next := (Accumulate(s).value * 10) % UINT64_LIMIT;
              Accumulate(s + "0") == if next < Accumulate(s).value then Err(InvalidArgument) else Ok(next)
  {
    assert (s + "0")[..|s|] == s;
  }

  function Pow10(k: nat): nat {
    if k == 0 then 1 else 10 * Pow10(k - 1)
  }

  function ThreeAndZeros(k: nat): string {
    if k == 0 then "3" else ThreeAndZeros(k - 1) + "0"
  }

  lemma {:induction false} ThreeAndZerosValue(k: nat)
    ensures AllDigits(ThreeAndZeros(k)) && Value(ThreeAndZeros(k)) == 3 * Pow10(k)
  {
    if k == 0 {
      assert "3"[..0] == "";
    } else {
      ThreeAndZerosValue(k - 1);
      AppendZero(ThreeAndZeros(k - 1));
    }
  }

  /** The overflow guard misses wrap-arounds that land above the previous value: the twenty digits of 3*10^19 are
      accepted as 11553255926290448384. */
  lemma WrapAcceptedForOutOfRange()
    ensures var s := ThreeAndZeros(19);
            AllDigits(s) && Value(s) == 30000000000000000000 && Accumulate(s) == Ok(11553255926290448384)
  {
    ThreeAndZerosValue(18);
    ThreeAndZerosValue(19);
    assert Pow10(6) == 1000000;
    assert Pow10(12) == 1000000000000;
    assert Pow10(18) == 1000000000000000000;
    assert Pow10(19) == 10000000000000000000;
    ParseExactIffInRange(ThreeAndZeros(18));
    AppendZero(ThreeAndZeros(18));
  }

  // ---------------------------------------------------------------- signed values

  const INT64_MIN_MAGNITUDE: int := 0x8000_0000_0000_0000

  predicate IsInt64(n: int) {
    -INT64_MIN_MAGNITUDE <= n < INT64_MIN_MAGNITUDE
  }

  function PrintSigned(n: int): string {
    if n < 0 then "-" + Print(-n) else Print(n)
  }

  /** The ParseSigned lambda of ParseIdentity. */
  function ParseSigned(s: string): Outcome<int> {
    if s == "" then Err(InvalidArgument)
    else
      var negative := s[0] == '-';
      var digits := if negative then s[1..] else s;
      if digits == "" || !AllDigits(digits) then Err(InvalidArgument)
      else
        var magnitude := Accumulate(digits);
        if magnitude.Err? then Err(InvalidArgument)
        else if !negative && magnitude.value >= INT64_MIN_MAGNITUDE then Err(InvalidArgument)
        else if negative && magnitude.value > INT64_MIN_MAGNITUDE then Err(InvalidArgument)
        else Ok(if negative then 0 - magnitude.value as int else magnitude.value as int)
  }

  /** Signed timestamps survive printing and parsing, down to the int64 minimum. */
  lemma ParsePrintedSigned(n: int)
    requires IsInt64(n)
    ensures ParseSigned(PrintSigned(n)) == Ok(n)
  {
    if n < 0 {
      ParsePrintedUint64(-n);
      assert PrintSigned(n)[1..] == Print(-n);
    } else {
      ParsePrintedUint64(n);
      assert IsDigit(Print(n)[0]);
    }
  }

  /** Printing is injective. */
  lemma PrintInjective(m: nat, n: nat)
    requires Print(m) == Print(n)
    ensures m == n
  {
    PrintDenotes(m);
    PrintDenotes(n);
  }
}
