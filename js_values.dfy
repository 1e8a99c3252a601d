/**
 * The JavaScript argument values the Kount Access client distinguishes, and
 * how JavaScript string concatenation renders them ("[" + v + "]").
 */
module JsValues {
  import opened Wrappers

  /** The integers a JavaScript number holds exactly (|n| <= 2^53 - 1).
      Every one of them prints as plain decimal digits, since JavaScript
      switches to exponent form only from 1e21. */
  type SafeInt = n: int | -9007199254740991 <= n <= 9007199254740991

  /** A JavaScript value as passed by a caller: a string, a safe integral
      number, `null` or `undefined`. */
  datatype JsValue = Str(s: string) | Num(n: SafeInt) | Null | Undefined

  /** `typeof v === 'string' && v.length >= 1`, the client's validity test. */
  predicate IsNonEmptyString(v: JsValue) {
    v.Str? && |v.s| >= 1
  }

  predicate IsDigit(c: char) {
    '0' <= c <= '9'
  }

  predicate AllDigits(s: string) {
    forall i :: 0 <= i < |s| ==> IsDigit(s[i])
  }

  function DigitChar(d: nat): (c: char)
    requires d < 10
    ensures IsDigit(c) && c as int - '0' as int == d
  {
    (d + '0' as int) as char
  }

  /** The decimal numeral of `n`, as JavaScript writes an integral number:
      at least one digit and no leading zero. */
  function Decimal(n: nat): (r: string)
    ensures |r| >= 1 && AllDigits(r)
    ensures r[0] == '0' ==> n == 0 && r == "0"
    decreases n
  {
    if n < 10 then [DigitChar(n)] else Decimal(n / 10) + [DigitChar(n % 10)]
  }

  /** The number a string of decimal digits denotes. */
  function DigitsValue(s: string): nat
    requires AllDigits(s)
  {
    if s == [] then 0 else DigitsValue(s[..|s| - 1]) * 10 + (s[|s| - 1] as int - '0' as int)
  }

  /** Reading the numeral back gives the number: `Decimal` loses nothing. */
  lemma {:induction false} DecimalRoundTrip(n: nat)
    ensures DigitsValue(Decimal(n)) == n
  {
    if n >= 10 {
      DecimalRoundTrip(n / 10);
      var r := Decimal(n);
      assert r[..|r| - 1] == Decimal(n / 10);
    }
  }

  /** `"" + v` in JavaScript, for the values modelled here. */
  function Render(v: JsValue): string
  {
    match v
    case Str(s) => s
    case Num(n) => if n < 0 then "-" + Decimal(-n) else Decimal(n)
    case Null => "null"
    case Undefined => "undefined"
  }

  /** A string renders as itself, `null` and `undefined` as their names, and
      a number as its decimal digits (after a '-' when negative), from which
      the number reads back exactly. */
  lemma RenderMeaning(v: JsValue)
    ensures v.Str? ==> Render(v) == v.s
    ensures v.Null? ==> Render(v) == "null"
    ensures v.Undefined? ==> Render(v) == "undefined"
    ensures v.Num? && v.n >= 0 ==> var r := Render(v);
      |r| >= 1 && (r[0] == '0' ==> r == "0") && AllDigits(r) && DigitsValue(r) == v.n
    ensures v.Num? && v.n < 0 ==> var r := Render(v);
      |r| >= 2 && r[0] == '-' && r[1] != '0' && AllDigits(r[1..]) && DigitsValue(r[1..]) == -v.n
  {
    if v.Num? {
      var m: nat := if v.n < 0 then -v.n else v.n;
      DecimalRoundTrip(m);
      if v.n < 0 {
        assert Render(v)[1..] == Decimal(m);
      }
    }
  }
}
