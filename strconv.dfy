/**
 * The two conversions between integers and decimal text that the handler
 * relies on: `%d` formatting (as `strconv.Itoa` writes it) and
 * `strconv.Atoi`, which accepts an optional sign followed by one or more
 * ASCII digits and fails on anything else or on a value outside int64.
 */
module Strconv {
  import opened Wrappers
  import opened GoInt

  predicate IsDigit(c: char) {
    '0' <= c <= '9'
  }

  predicate AllDigits(s: string) {
    forall i :: 0 <= i < |s| ==> IsDigit(s[i])
  }

  function DigitChar(d: int): (c: char)
    requires 0 <= d < 10
    ensures IsDigit(c)
  {
    ('0' as int + d) as char
  }

  function DigitValue(c: char): (d: int)
    requires IsDigit(c)
    ensures 0 <= d < 10 && DigitChar(d) == c
  {
    c as int - '0' as int
  }

  /** The decimal digits of `n`, most significant first, without zero padding. */
  function NatDigits(n: nat): (s: string)
    ensures |s| >= 1 && AllDigits(s)
    ensures s[0] == '0' ==> n == 0 && |s| == 1
    decreases n
  {
    if n < 10 then [DigitChar(n)] else NatDigits(n / 10) + [DigitChar(n % 10)]
  }

  /** `%d` and `strconv.Itoa`: a '-' for negative numbers, then the digits of the magnitude. */
  function Itoa(n: int): (s: string)
    ensures 0 <= n ==> |s| >= 1 && AllDigits(s)
    ensures n < 0 ==> |s| >= 2 && s[0] == '-' && AllDigits(s[1..])
    ensures ',' !in s && ' ' !in s
  {
    if n < 0 then "-" + NatDigits(-n) else NatDigits(n)
  }

  /** The value of a string of digits, read most significant first. */
  function DigitsValue(s: string): nat
    requires AllDigits(s)
  {
    if s == [] then 0 else DigitsValue(s[..|s| - 1]) * 10 + DigitValue(s[|s| - 1])
  }

  /** One or more digits, unbounded. */
  function ParseDigits(s: string): Option<nat> {
    if |s| > 0 && AllDigits(s) then Some(DigitsValue(s)) else None
  }

  /** The syntax `strconv.Atoi` accepts in base 10, before its range check. */
  function ParseDecimal(s: string): Option<int> {
    if |s| > 0 && (s[0] == '-' || s[0] == '+') then
      match ParseDigits(s[1..])
      case None => None
      case Some(v) =>
        var n: int := if s[0] == '-' then -(v as int) else v;
        Some(n)
    else
      match ParseDigits(s)
      case None => None
      case Some(v) => var n: int := v; Some(n)
  }

  /** `strconv.Atoi` on a 64-bit platform; `None` stands for a non-nil error. */
  function Atoi(s: string): (r: Option<int>)
    ensures r.Some? ==> IsInt64(r.value) && |s| >= 1
    ensures r.Some? ==> (IsDigit(s[0]) || s[0] == '-' || s[0] == '+')
  {
    match ParseDecimal(s)
    case None => None
    case Some(v) => if IsInt64(v) then Some(v) else None
  }

  lemma {:induction false} DigitsValueOfNatDigits(n: nat)
    ensures DigitsValue(NatDigits(n)) == n
    decreases n
  {
    if n >= 10 {
      var prefix := NatDigits(n / 10);
      var s := prefix + [DigitChar(n % 10)];
      assert s[..|s| - 1] == prefix;
      DigitsValueOfNatDigits(n / 10);
    }
  }

  /** Reading back what `Itoa` wrote gives the number again, for every integer. */
  lemma ParseDecimalOfItoa(n: int)
    ensures ParseDecimal(Itoa(n)) == Some(n)
  {
    var s := Itoa(n);
    if n < 0 {
      assert s[1..] == NatDigits(-n);
      DigitsValueOfNatDigits(-n);
    } else {
      DigitsValueOfNatDigits(n);
    }
  }

  /** `strconv.Atoi` inverts `%d` on every int64. */
  lemma AtoiOfItoa(n: int)
    requires IsInt64(n)
    ensures Atoi(Itoa(n)) == Some(n)
  {
    ParseDecimalOfItoa(n);
  }

  /** Distinct integers are printed differently. */
  lemma ItoaInjective(a: int, b: int)
    requires Itoa(a) == Itoa(b)
    ensures a == b
  {
    ParseDecimalOfItoa(a);
    ParseDecimalOfItoa(b);
  }

  /** `strconv.Atoi` fails on the empty string and on a sign with no digits. */
  lemma AtoiRejectsNoDigits()
    ensures Atoi("") == None && Atoi("+") == None && Atoi("-") == None
  {
  }

  /** Any character other than a digit, except a leading sign, makes `strconv.Atoi` fail. */
  lemma AtoiRejectsNonDigit(s: string, i: int)
    requires 0 <= i < |s| && !IsDigit(s[i])
    requires i == 0 ==> s[0] != '-' && s[0] != '+'
    ensures Atoi(s) == None
  {
  }

  /** A value just outside int64 is refused even though its syntax is fine. */
  lemma AtoiRejectsOutOfRange(s: string)
    requires ParseDecimal(s).Some? && !IsInt64(ParseDecimal(s).value)
    ensures Atoi(s) == None
  {
  }

  /** Zero and negative page numbers are accepted: `strconv.Atoi` checks syntax and int64 range only. */
  lemma AtoiAcceptsZeroAndNegative()
    ensures Atoi("0") == Some(0) && Atoi("-3") == Some(-3) && Atoi("+7") == Some(7)
  {
  }
}
