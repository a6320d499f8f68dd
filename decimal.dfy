/** Decimal text of Go's `int`: printing as `fmt.Sprintf("%d", n)` does and reading back
    as `strconv.Atoi` does (optional sign, at least one digit, within the 64-bit range). */
module Decimal {
  import opened Wrappers

  const MinInt64: int := -0x8000_0000_0000_0000
  const MaxInt64: int := 0x7FFF_FFFF_FFFF_FFFF

  /** Go's `int` on a 64-bit platform. */
  type Int64 = x: int | MinInt64 <= x <= MaxInt64

  predicate IsDigit(c: char) {
    '0' <= c <= '9'
  }

  /** A non-empty run of decimal digits. */
  predicate IsDigits(s: string) {
    |s| > 0 && forall i :: 0 <= i < |s| ==> IsDigit(s[i])
  }

  function DigitChar(d: nat): (c: char)
    requires d < 10
    ensures IsDigit(c) && DigitValue(c) == d
  {
    ('0' as int + d) as char
  }

  function DigitValue(c: char): nat
    requires IsDigit(c)
  {
    c as int - '0' as int
  }

  /** The digits of `n`, most significant first, without leading zeros. */
  function NatToDigits(n: nat): (s: string)
    ensures IsDigits(s)
    ensures |s| > 1 ==> s[0] != '0'
    decreases n
  {
    if n < 10 then [DigitChar(n)] else NatToDigits(n / 10) + [DigitChar(n % 10)]
  }

  /** The number a run of digits denotes. */
  function DigitsValue(s: string): nat
    requires IsDigits(s)
    decreases |s|
  {
    if |s| == 1 then DigitValue(s[0])
    else 10 * DigitsValue(s[..|s| - 1]) + DigitValue(s[|s| - 1])
  }

  /** `fmt.Sprintf("%d", n)`. */
  function IntToString(n: int): (s: string)
    ensures |s| > 0
    ensures forall i :: 0 <= i < |s| ==> s[i] == '-' || IsDigit(s[i])
  {
    if n < 0 then "-" + NatToDigits(-n) else NatToDigits(n)
  }

  function InRange(v: int): Option<Int64> {
    if MinInt64 <= v <= MaxInt64 then Some(v) else None
  }

  /** What `strconv.Atoi` reads: digits, possibly after one `+` or `-`. */
  predicate IsNumeral(s: string) {
    IsDigits(s) || (|s| > 1 && (s[0] == '-' || s[0] == '+') && IsDigits(s[1..]))
  }

  /** `strconv.Atoi`: an optional `+` or `-`, then digits; `None` stands for its error. */
  function ParseInt(s: string): (r: Option<Int64>)
    ensures r.Some? ==> IsNumeral(s)
    ensures r.Some? && s[0] == '-' ==> r.value <= 0
    ensures r.Some? && s[0] != '-' ==> r.value >= 0
  {
    if |s| > 0 && (s[0] == '-' || s[0] == '+') then
      if IsDigits(s[1..]) then
        var v: int := DigitsValue(s[1..]);
        InRange(if s[0] == '-' then -v else v)
      else None
    else if IsDigits(s) then InRange(DigitsValue(s))
    else None
  }

  lemma {:induction false} DigitsRoundTrip(n: nat)
    ensures DigitsValue(NatToDigits(n)) == n
    decreases n
  {
    if n >= 10 {
      var s := NatToDigits(n);
      assert s[..|s| - 1] == NatToDigits(n / 10);
      DigitsRoundTrip(n / 10);
    }
  }

  /** Reading back what `%d` printed gives the number again, for every Go `int`. */
  lemma ParseIntRoundTrip(n: Int64)
    ensures ParseInt(IntToString(n)) == Some(n)
  {
    if n < 0 {
      var m: nat := -(n as int);
      var s := IntToString(n);
      assert s[1..] == NatToDigits(m);
      DigitsRoundTrip(m);
    } else {
      DigitsRoundTrip(n);
    }
  }

  function Pow10(n: nat): (p: nat)
    ensures p > 0
  {
    if n == 0 then 1 else 10 * Pow10(n - 1)
  }

  lemma {:induction false} Pow10Monotone(m: nat, n: nat)
    requires m <= n
    ensures Pow10(m) <= Pow10(n)
    decreases n
  {
    if m < n {
      Pow10Monotone(m, n - 1);
    }
  }

  lemma {:induction false} Pow10Add(m: nat, n: nat)
    ensures Pow10(m + n) == Pow10(m) * Pow10(n)
    decreases n
  {
    if n > 0 {
      Pow10Add(m, n - 1);
    }
  }

  /** A run of `k` digits denotes a number below `10^k`. */
  lemma {:induction false} DigitsBound(s: string)
    requires IsDigits(s)
    ensures DigitsValue(s) < Pow10(|s|)
    decreases |s|
  {
    if |s| > 1 {
      var prefix := s[..|s| - 1];
      assert forall i :: 0 <= i < |prefix| ==> prefix[i] == s[i];
      DigitsBound(prefix);
    }
  }

  /** Every numeral of at most 18 characters fits a Go `int`, so Atoi accepts it. */
  lemma ParseIntAcceptsShortNumerals(s: string)
    requires IsNumeral(s) && |s| <= 18
    ensures ParseInt(s).Some?
  {
    assert Pow10(6) == 1_000_000;
    Pow10Add(6, 6);
    Pow10Add(12, 6);
    if IsDigits(s) {
      DigitsBound(s);
      Pow10Monotone(|s|, 18);
    } else {
      DigitsBound(s[1..]);
      Pow10Monotone(|s| - 1, 18);
    }
  }

  /** A string without any digit, such as the empty string, is not a number. */
  lemma ParseIntNeedsDigit(s: string)
    requires forall i :: 0 <= i < |s| ==> !IsDigit(s[i])
    ensures ParseInt(s) == None
  {
  }

  /** Leading zeros and a `+` sign are accepted, so printing is not the inverse of parsing. */
  lemma ParseIntLenient()
    ensures ParseInt("0123") == Some(123)
    ensures ParseInt("+123") == Some(123)
    ensures IntToString(123) == "123"
  {
    assert "0123"[..3] == "012" && "012"[..2] == "01" && "01"[..1] == "0";
    assert "+123"[1..] == "123" && "123"[..2] == "12" && "12"[..1] == "1";
    assert NatToDigits(1) == "1";
    assert NatToDigits(12) == "12";
  }
}
