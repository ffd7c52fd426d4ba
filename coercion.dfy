/**
 * The little of JavaScript's value semantics that the pages and services rely on:
 * string coercion with `+ ""`, truthiness, and `parseInt` on decimal text.
 * Numbers are integers here (ids, codes); floating point is not modelled.
 */
module Coercion {
  import opened Wrappers

  /** A form field value as the edit dialog hands it over. */
  datatype Value = Str(s: string) | Num(n: int) | Undef

  predicate IsDigit(c: char) { '0' <= c <= '9' }

  predicate AllDigits(s: string) { forall i :: 0 <= i < |s| ==> IsDigit(s[i]) }

  function DigitChar(d: nat): (c: char)
    requires d < 10
    ensures IsDigit(c) && c as int - '0' as int == d
  {
    ('0' as int + d) as char
  }

  /** Decimal digits of a natural number, without leading zeros. */
  function NatToDecimal(n: nat): (s: string)
    ensures |s| > 0 && AllDigits(s)
    ensures s[0] == '0' ==> n == 0
  {
    if n < 10 then [DigitChar(n)] else NatToDecimal(n / 10) + [DigitChar(n % 10)]
  }

  /** `n + ""` for an integer `n`: a minus sign exactly for negative `n`, then digits. */
  function IntToDecimal(n: int): (r: string)
    ensures |r| > 0
    ensures r[0] == '-' <==> n < 0
    ensures n < 0 ==> |r| > 1 && AllDigits(r[1..])
    ensures n >= 0 ==> AllDigits(r)
  {
    if n < 0 then "-" + NatToDecimal(-n) else NatToDecimal(n)
  }

  /** `v + ""`: the string a value coerces to; it is empty only for the empty string. */
  function ToText(v: Value): (r: string)
    ensures r == "" <==> v == Str("")
  {
    match v
    case Str(s) => s
    case Num(n) => IntToDecimal(n)
    case Undef => "undefined"
  }

  /** JavaScript truthiness: `""`, `0` and `undefined` are falsy; truthy values never coerce to `""`. */
  predicate Truthy(v: Value): (b: bool)
    ensures !b <==> v == Str("") || v == Num(0) || v == Undef
    ensures b ==> ToText(v) != ""
  {
    match v
    case Str(s) => s != ""
    case Num(n) => n != 0
    case Undef => false
  }

  /** The number written by a string of decimal digits, most significant first. */
  function DigitsValue(s: string): (v: nat)
    requires AllDigits(s)
    ensures s == [] ==> v == 0
  {
    if s == [] then 0 else DigitsValue(s[..|s| - 1]) * 10 + (s[|s| - 1] as int - '0' as int)
  }

  /** Length of the longest prefix of `s` made of decimal digits. */
  function LeadingDigits(s: string): (k: nat)
    ensures k <= |s| && AllDigits(s[..k])
    ensures k < |s| ==> !IsDigit(s[k])
  {
    if s == [] || !IsDigit(s[0]) then 0
    else
      var k := 1 + LeadingDigits(s[1..]);
      assert s[..k] == [s[0]] + s[1..][..k - 1];
      k
  }

  /** `parseInt` on text without a sign; `None` is `NaN`. */
  function ParseUnsigned(s: string): (r: Option<nat>)
    ensures r.None? <==> (s == [] || !IsDigit(s[0]))
  {
    var k := LeadingDigits(s);
    if k == 0 then None else Some(DigitsValue(s[..k]))
  }

  /**
   * `parseInt(s)`: an optional minus sign and the longest run of digits after it. The
   * result is `NaN` exactly when no digit follows the optional sign.
   */
  function ParseInt(s: string): (r: Option<int>)
    ensures r.None? <==> !((|s| > 0 && IsDigit(s[0])) || (|s| > 1 && s[0] == '-' && IsDigit(s[1])))
    ensures r.Some? && r.value < 0 ==> s[0] == '-'
  {
    if |s| > 0 && s[0] == '-' then
      match ParseUnsigned(s[1..])
      case None => None
      case Some(n) => var m: int := n; Some(-m)
    else
      match ParseUnsigned(s)
      case None => None
      case Some(n) => Some(n)
  }

  lemma {:induction false} DecimalValue(n: nat)
    ensures DigitsValue(NatToDecimal(n)) == n
  {
    var s := NatToDecimal(n);
    if n >= 10 {
      DecimalValue(n / 10);
      assert s[..|s| - 1] == NatToDecimal(n / 10);
    }
  }

  lemma AllDigitsLeading(s: string)
    requires AllDigits(s)
    ensures LeadingDigits(s) == |s|
  {
  }

  /** Parsing the text of an integer gives that integer back. */
  lemma ParseIntRoundTrip(n: int)
    ensures ParseInt(IntToDecimal(n)) == Some(n)
  {
    var digits := NatToDecimal(if n < 0 then -n else n);
    AllDigitsLeading(digits);
    DecimalValue(if n < 0 then -n else n);
    assert digits[..|digits|] == digits;
    if n < 0 {
      assert ("-" + digits)[1..] == digits;
    }
  }
}
