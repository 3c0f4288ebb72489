/** JavaScript numbers as the layer plugin uses them, and the two conversions
    between numbers and text that its command parser relies on: `Number(text)`
    and `String(n)` for an integer `n`. */
module JsNumber {

  /** A JavaScript number: a value or NaN. Reading a numeric property that a
      record does not have yields `undefined`, which behaves exactly like NaN
      under `+`, `*`, `||` and `switch`, so it is written NaN as well.
      Values are exact reals; floating-point rounding is not modelled. */
  datatype Num = Val(v: real) | NaN

  /** JavaScript truthiness of a number: every value except 0 and NaN. */
  predicate Truthy(n: Num) {
    n.Val? && n.v != 0.0
  }

  /** `n || 0` */
  function OrZero(n: Num): real {
    if Truthy(n) then n.v else 0.0
  }

  function Add(a: Num, b: Num): Num {
    if a.Val? && b.Val? then Val(a.v + b.v) else NaN
  }

  function Sub(a: Num, b: Num): Num {
    if a.Val? && b.Val? then Val(a.v - b.v) else NaN
  }

  function Mul(a: Num, b: Num): Num {
    if a.Val? && b.Val? then Val(a.v * b.v) else NaN
  }

  function Negate(n: Num): Num {
    if n.Val? then Val(-n.v) else NaN
  }

  // ---------------------------------------------------------------------------
  // Decimal digits
  // ---------------------------------------------------------------------------

  predicate IsDigit(c: char) {
    '0' <= c <= '9'
  }

  predicate AllDigits(s: string) {
    forall i :: 0 <= i < |s| ==> IsDigit(s[i])
  }

  function DigitValue(c: char): nat
    requires IsDigit(c)
  {
    c as int - '0' as int
  }

  function DigitChar(d: nat): (c: char)
    requires d < 10
    ensures IsDigit(c) && DigitValue(c) == d
  {
    ('0' as int + d) as char
  }

  /** The value of a string of decimal digits, most significant first. */
  function DigitsValue(s: string): nat
    requires AllDigits(s)
    decreases |s|
  {
    if s == [] then 0 else DigitsValue(s[..|s| - 1]) * 10 + DigitValue(s[|s| - 1])
  }

  function Pow10(n: nat): (p: nat)
    ensures p > 0
  {
    if n == 0 then 1 else 10 * Pow10(n - 1)
  }

  /** The length of the longest prefix of `s` made of digits. */
  function LeadingDigits(s: string): (k: nat)
    ensures k <= |s|
    ensures AllDigits(s[..k])
    ensures k < |s| ==> !IsDigit(s[k])
  {
    if s == [] || !IsDigit(s[0]) then 0
    else
      var k := 1 + LeadingDigits(s[1..]);
      assert s[..k] == [s[0]] + s[1..][..k - 1];
      k
  }

  // ---------------------------------------------------------------------------
  // Number(text) and String(n)
  // ---------------------------------------------------------------------------

  /** `Number(s)` on decimal text: an optional sign, then digits with an
      optional fraction (`5`, `-3`, `0.5`, `.5`, `5.`); the empty string is 0;
      anything else is NaN. */
  function ToNumber(s: string): (r: Num)
    ensures r.Val? && |s| > 0 ==> IsDigit(s[0]) || s[0] in {'-', '+', '.'}
    ensures r.Val? ==> forall i :: 0 < i < |s| ==> IsDigit(s[i]) || s[i] == '.'
    ensures |s| > 0 && AllDigits(s) ==> r == Val(DigitsValue(s) as real)
  {
    if s == "" then Val(0.0)
    else if s[0] == '-' then Negate(ParseUnsigned(s[1..]))
    else if s[0] == '+' then ParseUnsigned(s[1..])
    else ParseUnsigned(s)
  }

  /** Unsigned decimal text: `digits`, `digits.digits`, `digits.` or `.digits`. */
  function ParseUnsigned(s: string): (r: Num)
    ensures r.Val? ==> forall i :: 0 <= i < |s| ==> IsDigit(s[i]) || s[i] == '.'
    ensures |s| > 0 && AllDigits(s) ==> r == Val(DigitsValue(s) as real)
  {
    var k := LeadingDigits(s);
    if k == |s| then
      if k == 0 then NaN else Val(DigitsValue(s) as real)
    else if s[k] != '.' then NaN
    else
      var f := s[k + 1..];
      if !AllDigits(f) || (k == 0 && f == []) then NaN
      else Val(DecimalValue(s[..k], f))
  }

  /** The value of `<whole>.<fraction>`: `whole + fraction / 10^|fraction|`. */
  function DecimalValue(whole: string, fraction: string): real
    requires AllDigits(whole) && AllDigits(fraction)
  {
    DigitsValue(whole) as real + DigitsValue(fraction) as real / Pow10(|fraction|) as real
  }

  /** Decimal text of a natural number, without leading zeros. */
  function NatToString(n: nat): (s: string)
    ensures |s| > 0 && AllDigits(s)
    decreases n
  {
    if n < 10 then [DigitChar(n)] else NatToString(n / 10) + [DigitChar(n % 10)]
  }

  /** `String(n)` for an integer `n`. */
  function IntToString(n: int): (s: string)
    ensures |s| > 0
    ensures IsDigit(s[0]) || s[0] == '-'
    ensures forall i :: 0 <= i < |s| ==> IsDigit(s[i]) || s[i] == '-'
  {
    if n < 0 then "-" + NatToString(-n) else NatToString(n)
  }

  lemma {:induction false} DigitsValueOfNatToString(n: nat)
    ensures DigitsValue(NatToString(n)) == n
    decreases n
  {
    if n >= 10 {
      DigitsValueOfNatToString(n / 10);
      var s := NatToString(n);
      assert s[..|s| - 1] == NatToString(n / 10);
    }
  }

  lemma LeadingDigitsOfDigits(s: string)
    requires AllDigits(s)
    ensures LeadingDigits(s) == |s|
  {
  }

  /** The digit run of `a + s` is `a` when `s` starts with a non-digit. */
  lemma {:induction false} LeadingDigitsStopsAt(a: string, s: string)
    requires AllDigits(a) && |s| > 0 && !IsDigit(s[0])
    ensures LeadingDigits(a + s) == |a|
    decreases |a|
  {
    if a != [] {
      LeadingDigitsStopsAt(a[1..], s);
      assert (a + s)[1..] == a[1..] + s;
    }
  }

  /** Unsigned decimal text with a fraction reads as its value. */
  lemma ParseUnsignedOfDecimal(a: string, b: string)
    requires |a| > 0 && AllDigits(a) && AllDigits(b)
    ensures ParseUnsigned(a + ("." + b)) == Val(DecimalValue(a, b))
  {
    var s := a + ("." + b);
    LeadingDigitsStopsAt(a, "." + b);
    var k := LeadingDigits(s);
    assert k == |a| < |s| && s[k] == '.';
    assert s[..k] == a && s[k + 1..] == b;
  }

  /** Decimal text with a fraction, such as the anchor `0.5`, reads as its
      value: `Number("<a>.<b>")` is `a + b / 10^|b|`, and with a leading
      `-` its negation. */
  lemma ToNumberOfDecimal(a: string, b: string)
    requires |a| > 0 && AllDigits(a) && AllDigits(b)
    ensures ToNumber(a + "." + b) == Val(DecimalValue(a, b))
    ensures ToNumber("-" + a + "." + b) == Val(-DecimalValue(a, b))
  {
    var s := a + ("." + b);
    ParseUnsignedOfDecimal(a, b);
    assert a + "." + b == s && s[0] == a[0];
    assert ToNumber(s) == ParseUnsigned(s);
    var t := "-" + s;
    assert "-" + a + "." + b == t && t[1..] == s;
  }

  /** Reading back the decimal text of an integer gives the integer:
      `Number(String(n)) == n`. */
  lemma {:induction false} ToNumberOfIntToString(n: int)
    ensures ToNumber(IntToString(n)) == Val(n as real)
  {
    var d := NatToString(if n < 0 then -n else n);
    DigitsValueOfNatToString(if n < 0 then -n else n);
    LeadingDigitsOfDigits(d);
    assert ParseUnsigned(d) == Val((if n < 0 then -n else n) as real);
    if n < 0 {
      var s := IntToString(n);
      assert s == "-" + d && s[1..] == d;
    } else {
      assert IntToString(n) == d && IsDigit(d[0]);
    }
  }
}
