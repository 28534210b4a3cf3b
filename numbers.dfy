/**
 * Decimal conversions used by the service: `std::to_string` of a 64-bit
 * integer and `std::stoi` of a query parameter.
 */
module Numbers {

  const Int32Min: int := -0x8000_0000
  const Int32Max: int := 0x7FFF_FFFF
  const TwoTo63: int := 0x8000_0000_0000_0000
  const TwoTo64: int := 0x1_0000_0000_0000_0000

  predicate IsDigit(c: char) { '0' <= c <= '9' }

  function DigitChar(d: nat): (c: char)
    requires d < 10
    ensures IsDigit(c) && c as int - '0' as int == d
  {
    ('0' as int + d) as char
  }

  function DigitValue(c: char): (d: nat)
    requires IsDigit(c)
    ensures d < 10
  {
    c as int - '0' as int
  }

  /** The decimal digits of `n`, most significant first, without leading zeros. */
  function NatString(n: nat): (s: string)
    ensures |s| > 0 && forall i :: 0 <= i < |s| ==> IsDigit(s[i])
    ensures IsDigit(s[0]) && (|s| > 1 ==> s[0] != '0')
  {
    if n < 10 then [DigitChar(n)] else NatString(n / 10) + [DigitChar(n % 10)]
  }

  /** `std::to_string` of a signed integer: a minus sign before the magnitude's digits. */
  function DecimalString(n: int): (s: string)
    ensures |s| > 0
    ensures n >= 0 ==> s == NatString(n)
    ensures n < 0 ==> s == "-" + NatString(-n)
  {
    if n >= 0 then NatString(n) else "-" + NatString(-n)
  }

  /** The value of a run of decimal digits, read most significant first. */
  function DigitsValue(ds: string): nat
    requires forall i :: 0 <= i < |ds| ==> IsDigit(ds[i])
  {
    if |ds| == 0 then 0 else DigitsValue(ds[..|ds| - 1]) * 10 + DigitValue(ds[|ds| - 1])
  }

  /** Reading back the digits of `n` gives `n`. */
  lemma {:induction false} NatStringValue(n: nat)
    ensures DigitsValue(NatString(n)) == n
  {
    if n >= 10 {
      var s := NatString(n);
      assert s[..|s| - 1] == NatString(n / 10);
      NatStringValue(n / 10);
    }
  }

  /** Distinct numbers have distinct decimal strings. */
  lemma DecimalStringInjective(m: int, n: int)
    requires DecimalString(m) == DecimalString(n)
    ensures m == n
  {
    if m >= 0 && n >= 0 {
      NatStringValue(m); NatStringValue(n);
    } else if m < 0 && n < 0 {
      assert NatString(-m) == DecimalString(m)[1..];
      assert NatString(-n) == DecimalString(n)[1..];
      NatStringValue(-m); NatStringValue(-n);
    }
  }

  /**
   * `get<long long>()` of a JSON integer: the parser stores non-negative
   * literals up to 2^64 - 1 unsigned, and the conversion to a signed 64-bit
   * value wraps modulo 2^64.
   */
  function LongLong(i: int): (r: int)
    ensures -TwoTo63 <= r < TwoTo63
    ensures (r - i) % TwoTo64 == 0
    ensures -TwoTo63 <= i < TwoTo63 ==> r == i
  {
    (i + TwoTo63) % TwoTo64 - TwoTo63
  }

  // ---------------------------------------------------------------- std::stoi

  datatype StoiResult = Parsed(value: int) | InvalidArgument | OutOfRange

  /** The white-space characters of the C locale, which `strtol` skips. */
  predicate IsSpace(c: char) {
    c == ' ' || c == '\t' || c == '\n' || c == '\U{0B}' || c == '\U{0C}' || c == '\r'
  }

  /** The input after its leading white space. */
  function SkipSpaces(s: string): (r: string)
    ensures |r| <= |s| && r == s[|s| - |r|..]
    ensures forall i :: 0 <= i < |s| - |r| ==> IsSpace(s[i])
    ensures |r| > 0 ==> !IsSpace(r[0])
  {
    if |s| > 0 && IsSpace(s[0]) then SkipSpaces(s[1..]) else s
  }

  /** White space before the text does not change what `std::stoi` reads. */
  lemma {:induction false} StoiSkipsLeadingSpace(w: string, t: string)
    requires forall i :: 0 <= i < |w| ==> IsSpace(w[i])
    ensures Stoi(w + t) == Stoi(t)
  {
    SkipSpacesPrefix(w, t);
  }

  lemma {:induction false} SkipSpacesPrefix(w: string, t: string)
    requires forall i :: 0 <= i < |w| ==> IsSpace(w[i])
    ensures SkipSpaces(w + t) == SkipSpaces(t)
  {
    if |w| > 0 {
      assert (w + t)[0] == w[0];
      assert (w + t)[1..] == w[1..] + t;
      SkipSpacesPrefix(w[1..], t);
    } else {
      assert w + t == t;
    }
  }

  /** The longest prefix of `s` made of decimal digits. */
  function LeadingDigits(s: string): (ds: string)
    ensures |ds| <= |s| && ds == s[..|ds|]
    ensures forall i :: 0 <= i < |ds| ==> IsDigit(ds[i])
    ensures |ds| < |s| ==> !IsDigit(s[|ds|])
  {
    if |s| > 0 && IsDigit(s[0]) then [s[0]] + LeadingDigits(s[1..]) else []
  }

  /**
   * `std::stoi(s)`: leading white space is skipped, one optional sign is
   * read, then the longest run of digits; characters after it are ignored.
   * No digit at all is `std::invalid_argument`; a value outside the 32-bit
   * `int` range is `std::out_of_range`.
   */
  function Stoi(s: string): (r: StoiResult)
    ensures r.Parsed? ==> Int32Min <= r.value <= Int32Max
  {
    StoiSigned(SkipSpaces(s))
  }

  /** After the white space: one optional sign, then the digits. */
  function StoiSigned(t: string): StoiResult {
    var negative := |t| > 0 && t[0] == '-';
    var body := if |t| > 0 && (t[0] == '-' || t[0] == '+') then t[1..] else t;
    StoiMagnitude(negative, LeadingDigits(body))
  }

  /** The digits read, with the sign applied and the range checked. */
  function StoiMagnitude(negative: bool, ds: string): StoiResult
    requires forall i :: 0 <= i < |ds| ==> IsDigit(ds[i])
  {
    if |ds| == 0 then InvalidArgument
    else
      var magnitude: int := DigitsValue(ds);
      var v := if negative then -magnitude else magnitude;
      if v < Int32Min || v > Int32Max then OutOfRange else Parsed(v)
  }

  lemma {:induction false} LeadingDigitsOfDigits(s: string)
    requires forall i :: 0 <= i < |s| ==> IsDigit(s[i])
    ensures LeadingDigits(s) == s
  {
    if |s| > 0 { LeadingDigitsOfDigits(s[1..]); }
  }

  /** `std::stoi` reads back every `int` that `std::to_string` wrote. */
  lemma StoiDecimalRoundTrip(n: int)
    requires Int32Min <= n <= Int32Max
    ensures Stoi(DecimalString(n)) == Parsed(n)
  {
    if n >= 0 {
      StoiUnsigned(n);
    } else {
      StoiNegative(-n);
    }
  }

  lemma StoiUnsigned(m: nat)
    requires m <= Int32Max
    ensures Stoi(NatString(m)) == Parsed(m)
  {
    assert NatString(m) + "" == NatString(m);
    StoiDigitsThen(NatString(m), "");
    NatStringValue(m);
  }

  /**
   * An unsigned run of digits followed by nothing or by a non-digit reads
   * as those digits.
   */
  lemma StoiDigitsThen(ds: string, rest: string)
    requires |ds| > 0 && forall i :: 0 <= i < |ds| ==> IsDigit(ds[i])
    requires |rest| > 0 ==> !IsDigit(rest[0])
    ensures Stoi(ds + rest) == StoiMagnitude(false, ds)
  {
    var s := ds + rest;
    assert s[0] == ds[0] && IsDigit(s[0]);
    assert SkipSpaces(s) == s by { assert !IsSpace(s[0]); }
    if |rest| == 0 {
      assert s == ds;
      LeadingDigitsOfDigits(ds);
    } else {
      LeadingDigitsPrefix(ds, rest);
    }
    assert StoiSigned(s) == StoiMagnitude(false, LeadingDigits(s));
  }

  lemma StoiNegative(m: nat)
    requires 0 < m <= -Int32Min
    ensures Stoi("-" + NatString(m)) == Parsed(-(m as int))
  {
    var digits := NatString(m);
    var s := "-" + digits;
    assert SkipSpaces(s) == s by { assert !IsSpace(s[0]); }
    assert s[1..] == digits;
    LeadingDigitsOfDigits(digits);
    NatStringValue(m);
  }

  /** Text after the digits does not change what `std::stoi` reads. */
  lemma StoiIgnoresTrailingText(n: nat, rest: string)
    requires n <= Int32Max
    requires |rest| > 0 && !IsDigit(rest[0])
    ensures Stoi(NatString(n) + rest) == Parsed(n)
  {
    StoiDigitsThen(NatString(n), rest);
    NatStringValue(n);
  }

  lemma {:induction false} LeadingDigitsPrefix(ds: string, rest: string)
    requires forall i :: 0 <= i < |ds| ==> IsDigit(ds[i])
    requires |rest| > 0 && !IsDigit(rest[0])
    ensures LeadingDigits(ds + rest) == ds
  {
    if |ds| > 0 {
      assert (ds + rest)[1..] == ds[1..] + rest;
      LeadingDigitsPrefix(ds[1..], rest);
    }
  }
}
