/** Numeric conversions the C++ code relies on: the truncating `(int)` cast
    of a floating value, `atoi`-style parsing of attribute text (`wxAtoi`) and
    decimal formatting (`wxString::Format("%d", ...)`). */
module Numeric {

  /** C++ conversion of a floating value to `int`: truncation toward zero. */
  function Trunc(v: real): (r: int)
    ensures v >= 0.0 ==> r as real <= v < r as real + 1.0
    ensures v < 0.0 ==> r as real - 1.0 < v <= r as real
    ensures (r < 0) <==> (v <= -1.0)
  {
    if v >= 0.0 then v.Floor else -((-v).Floor)
  }

  /** Truncation commutes with negation (unlike floor). */
  lemma TruncNegate(v: real)
    ensures Trunc(-v) == -Trunc(v)
  {
  }

  /** `isspace` in the C locale: space, and tab through carriage return. */
  predicate IsSpace(c: char) {
    c == ' ' || ('\t' <= c <= '\r')
  }

  predicate IsDigit(c: char) {
    '0' <= c <= '9'
  }

  predicate AllDigits(s: string) {
    forall i :: 0 <= i < |s| ==> IsDigit(s[i])
  }

  function DigitValue(c: char): (d: nat)
    requires IsDigit(c)
    ensures d < 10
  {
    (c as int) - ('0' as int)
  }

  function DigitChar(d: nat): (c: char)
    requires d < 10
    ensures IsDigit(c) && DigitValue(c) == d
  {
    (('0' as int) + d) as char
  }

  /** What is left once leading white space is skipped. */
  function SkipSpaces(s: string): (t: string)
    ensures |t| <= |s| && t == s[|s| - |t|..]
    ensures t == [] || !IsSpace(t[0])
  {
    if s != [] && IsSpace(s[0]) then SkipSpaces(s[1..]) else s
  }

  /** The longest prefix of `s` made of decimal digits. */
  function LeadingDigits(s: string): (ds: string)
    ensures |ds| <= |s| && ds == s[..|ds|]
    ensures AllDigits(ds)
    ensures |ds| < |s| ==> !IsDigit(s[|ds|])
  {
    if s != [] && IsDigit(s[0]) then [s[0]] + LeadingDigits(s[1..]) else []
  }

  /** The value of a string of decimal digits, most significant first. */
  function DigitsValue(ds: string): nat
    requires AllDigits(ds)
  {
    if ds == [] then 0 else DigitsValue(ds[..|ds| - 1]) * 10 + DigitValue(ds[|ds| - 1])
  }

  /** `atoi`: skip white space, read an optional sign and then as many digits
      as follow; anything after them is ignored and no digits at all give 0. */
  function Atoi(s: string): (r: int)
    ensures r < 0 ==> SkipSpaces(s) != [] && SkipSpaces(s)[0] == '-'
    ensures SkipSpaces(s) != [] && IsDigit(SkipSpaces(s)[0]) ==> r >= 0
  {
    var t := SkipSpaces(s);
    if t != [] && t[0] == '-' then -(DigitsValue(LeadingDigits(t[1..])) as int)
    else if t != [] && t[0] == '+' then DigitsValue(LeadingDigits(t[1..]))
    else DigitsValue(LeadingDigits(t))
  }

  /** The decimal digits of `n`, without leading zeros. */
  function DecimalDigits(n: nat): (ds: string)
    ensures ds != [] && AllDigits(ds)
  {
    if n < 10 then [DigitChar(n)] else DecimalDigits(n / 10) + [DigitChar(n % 10)]
  }

  /** `printf("%d", n)`. */
  function FormatDecimal(n: int): (s: string)
    ensures s != [] && !IsSpace(s[0])
    ensures n < 0 <==> s[0] == '-'
    ensures n < 0 ==> |s| >= 2 && AllDigits(s[1..])
    ensures n >= 0 ==> AllDigits(s)
  {
    if n < 0 then "-" + DecimalDigits(-n) else DecimalDigits(n)
  }

  lemma {:induction false} DigitsValueOfDecimal(n: nat)
    ensures DigitsValue(DecimalDigits(n)) == n
  {
    if n >= 10 {
      DigitsValueOfDecimal(n / 10);
      var ds := DecimalDigits(n);
      assert ds[..|ds| - 1] == DecimalDigits(n / 10);
    }
  }

  lemma LeadingDigitsOfDigits(ds: string)
    requires AllDigits(ds)
    ensures LeadingDigits(ds) == ds
  {
  }

  /** Text written with `%d` reads back through `atoi` as the same number. */
  lemma AtoiFormatRoundTrip(n: int)
    ensures Atoi(FormatDecimal(n)) == n
  {
    var m := if n < 0 then -n else n;
    DigitsValueOfDecimal(m);
    LeadingDigitsOfDigits(DecimalDigits(m));
    var s := FormatDecimal(n);
    assert SkipSpaces(s) == s;
    if n < 0 {
      assert s[1..] == DecimalDigits(m);
    }
  }

  /** Text that does not go on with a digit after its white space and one
      optional sign reads as 0. */
  lemma AtoiWithoutDigits(s: string)
    requires var t := SkipSpaces(s);
             var u := if t != [] && (t[0] == '-' || t[0] == '+') then t[1..] else t;
             u == [] || !IsDigit(u[0])
    ensures Atoi(s) == 0
  {
  }
}
