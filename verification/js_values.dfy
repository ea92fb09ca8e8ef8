/** JavaScript values as the issue-details component sees them: numbers that
    may be NaN, raw list-field values, truthiness, and the decimal text that a
    template literal produces for an integer. */
module JsValues {

  datatype Option<+T> = None | Some(value: T)

  /** A JavaScript number, restricted to NaN and the finite values. */
  datatype JsNumber = NaN | Finite(v: real)

  /** A raw value of a list field as the REST endpoint returns it. */
  datatype Raw = Undefined | Null | Str(s: string) | Num(n: JsNumber)

  /** JavaScript truthiness of a raw value (`||`, `if (v)`). */
  predicate Truthy(r: Raw)
  {
    match r
    case Undefined => false
    case Null => false
    case Str(s) => s != ""
    case Num(n) => n.Finite? && n.v != 0.0
  }

  /** JavaScript truthiness of an optional string (`undefined`, `null` and "" are falsy). */
  predicate TruthyText(o: Option<string>)
  {
    o.Some? && o.value != ""
  }

  predicate IsDigit(c: char)
  {
    '0' <= c <= '9'
  }

  predicate AllDigits(s: string)
  {
    forall i :: 0 <= i < |s| ==> IsDigit(s[i])
  }

  function DigitChar(d: nat): (c: char)
    requires d < 10
    ensures IsDigit(c)
    ensures (c as int) - ('0' as int) == d
  {
    (('0' as int) + d) as char
  }

  /** Decimal text of a natural number, as `${n}` renders it below 10^21. */
  function NatToDecimal(n: nat): (s: string)
    ensures |s| >= 1
    ensures AllDigits(s)
    ensures s[0] == '0' ==> n == 0
    decreases n
  {
    if n < 10 then [DigitChar(n)] else NatToDecimal(n / 10) + [DigitChar(n % 10)]
  }

  /** Value of a string of decimal digits; the inverse of NatToDecimal. */
  function ParseDecimal(s: string): nat
    requires AllDigits(s)
  {
    if |s| == 0 then 0
    else ParseDecimal(s[..|s| - 1]) * 10 + ((s[|s| - 1] as int) - ('0' as int))
  }

  lemma {:induction false} DecimalRoundTrip(n: nat)
    ensures ParseDecimal(NatToDecimal(n)) == n
    decreases n
  {
    if n >= 10 {
      var s := NatToDecimal(n);
      assert s[..|s| - 1] == NatToDecimal(n / 10);
      DecimalRoundTrip(n / 10);
    }
  }

  /** Decimal text of an integer, as `${i}` renders it for magnitudes below 10^21. */
  function IntToDecimal(i: int): (s: string)
    ensures |s| >= 1
    ensures i >= 0 ==> AllDigits(s)
    ensures i < 0 ==> s[0] == '-' && AllDigits(s[1..])
  {
    if i < 0 then "-" + NatToDecimal(-i) else NatToDecimal(i)
  }

  /** Distinct integers render as distinct text. */
  lemma IntToDecimalInjective(a: int, b: int)
    requires IntToDecimal(a) == IntToDecimal(b)
    ensures a == b
  {
    var s := IntToDecimal(a);
    if a < 0 {
      DecimalRoundTrip(-a);
      DecimalRoundTrip(-b);
      assert s[1..] == NatToDecimal(-a) == NatToDecimal(-b);
    } else {
      DecimalRoundTrip(a);
      DecimalRoundTrip(b);
    }
  }
}
