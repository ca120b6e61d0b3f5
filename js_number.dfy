/**
 * The slice of JavaScript number semantics the site relies on: numbers that
 * may be NaN, dynamically typed values, `parseFloat` on strings already
 * stripped to the characters `[0-9.-]`, the invoice layout's `toNumber` helper
 * built from them, and `parseInt` on the value of a number input. Numbers are exact reals: IEEE-754 rounding and the
 * infinities are not modelled.
 */
module JsNumber {

  /** A JavaScript number: a finite value or NaN. */
  datatype Num = Finite(value: real) | NaN

  /** A dynamically typed JavaScript value as far as `typeof` tells them apart. */
  datatype JsValue =
    | Nullish                 // `null` or `undefined`
    | NumberValue(n: Num)
    | StringValue(s: string)
    | OtherValue              // booleans, objects, arrays, ...

  predicate IsDigit(c: char)
  {
    '0' <= c <= '9'
  }

  /** The characters `/[^0-9.\-]/g` does not remove. */
  predicate Kept(c: char)
  {
    IsDigit(c) || c == '.' || c == '-'
  }

  /** `s.replace(/[^0-9.\-]/g, '')`. */
  function Clean(s: string): (r: string)
    ensures |r| <= |s|
    ensures forall i | 0 <= i < |r| :: Kept(r[i])
    ensures (forall i | 0 <= i < |s| :: Kept(s[i])) ==> r == s
  {
    if s == [] then []
    else
      assert forall i | 0 <= i < |s[1..]| :: s[1..][i] == s[i + 1];
      (if Kept(s[0]) then [s[0]] else []) + Clean(s[1..])
  }

  /** Cleaning twice is cleaning once. */
  lemma CleanIdempotent(s: string)
    ensures Clean(Clean(s)) == Clean(s)
  {
  }

  /** The longest prefix of `s` made of decimal digits. */
  function LeadingDigits(s: string): (r: string)
    ensures r <= s
    ensures forall i | 0 <= i < |r| :: IsDigit(r[i])
    ensures |r| < |s| ==> !IsDigit(s[|r|])
  {
    if s != [] && IsDigit(s[0]) then [s[0]] + LeadingDigits(s[1..]) else []
  }

  function DigitValue(c: char): nat
    requires IsDigit(c)
  {
    c as int - '0' as int
  }

  /** The value of a string of decimal digits. */
  function DigitsValue(ds: string): nat
    requires forall i | 0 <= i < |ds| :: IsDigit(ds[i])
  {
    if ds == [] then 0 else DigitsValue(ds[..|ds| - 1]) * 10 + DigitValue(ds[|ds| - 1])
  }

  /**
   * `parseFloat` of an unsigned decimal: the longest prefix of the form
   * `digits [. digits]` or `. digits`; NaN when there is none.
   */
  function ParseUnsigned(s: string): Num
  {
    var whole := LeadingDigits(s);
    var rest := s[|whole|..];
    var frac := if rest != [] && rest[0] == '.' then LeadingDigits(rest[1..]) else [];
    if whole == [] && frac == [] then NaN
    else Finite(DigitsValue(whole) as real + Fraction(frac))
  }

  /** The value of the digits after a decimal point: `0.d1d2...` is `(d1 + 0.d2...) / 10`. */
  function Fraction(ds: string): real
    requires forall i | 0 <= i < |ds| :: IsDigit(ds[i])
  {
    if ds == [] then 0.0 else (DigitValue(ds[0]) as real + Fraction(ds[1..])) / 10.0
  }

  /** `parseFloat` on a string without white space, `+`, `e` or letters. */
  function ParseFloat(s: string): Num
  {
    if s != [] && s[0] == '-' then
      match ParseUnsigned(s[1..])
      case Finite(v) => Finite(-v)
      case NaN => NaN
    else ParseUnsigned(s)
  }

  /** `s` begins with something `parseFloat` can read as a number. */
  predicate StartsNumeric(s: string)
  {
    var u := if s != [] && s[0] == '-' then s[1..] else s;
    (u != [] && IsDigit(u[0])) || (|u| >= 2 && u[0] == '.' && IsDigit(u[1]))
  }

  /** `parseFloat` gives NaN exactly when no numeric prefix is present. */
  lemma ParseFloatNaN(s: string)
    ensures ParseFloat(s).NaN? <==> !StartsNumeric(s)
  {
    var u := if s != [] && s[0] == '-' then s[1..] else s;
    var whole := LeadingDigits(u);
    if u != [] && IsDigit(u[0]) {
      assert whole != [];
    } else {
      assert whole == [];
      assert u[|whole|..] == u;
    }
  }

  /** The layout's `toNumber`. */
  function ToNumber(v: JsValue): (r: Num)
    ensures v.StringValue? ==> r.Finite?
  {
    match v
    case NumberValue(n) => n
    case StringValue(s) =>
      var n := ParseFloat(Clean(s));
      if n.NaN? then Finite(0.0) else n
    case _ => Finite(0.0)
  }

  /** Numbers are returned unchanged, NaN included. */
  lemma ToNumberOfNumber(n: Num)
    ensures ToNumber(NumberValue(n)) == n
  {
  }

  /** Values that are neither numbers nor strings give 0. */
  lemma ToNumberOfOther(v: JsValue)
    requires v.Nullish? || v.OtherValue?
    ensures ToNumber(v) == Finite(0.0)
  {
  }

  /** A string with no numeric prefix once cleaned gives 0. */
  lemma ToNumberOfUnparsable(s: string)
    requires !StartsNumeric(Clean(s))
    ensures ToNumber(StringValue(s)) == Finite(0.0)
  {
    ParseFloatNaN(Clean(s));
  }

  /** The decimal digits of a natural number. */
  function NatToString(n: nat): (r: string)
    ensures r != []
    ensures forall i | 0 <= i < |r| :: IsDigit(r[i])
  {
    if n < 10 then [('0' as int + n) as char]
    else NatToString(n / 10) + [('0' as int + n % 10) as char]
  }

  lemma {:induction false} DigitsOfNat(n: nat)
    ensures DigitsValue(NatToString(n)) == n
  {
    var r := NatToString(n);
    if n >= 10 {
      DigitsOfNat(n / 10);
      assert r[..|r| - 1] == NatToString(n / 10);
    }
  }

  lemma {:induction false} LeadingDigitsOfDigits(s: string)
    requires forall i | 0 <= i < |s| :: IsDigit(s[i])
    ensures LeadingDigits(s) == s
  {
    if s != [] {
      LeadingDigitsOfDigits(s[1..]);
    }
  }

  /** A non-empty string of digits parses to its value. */
  lemma ParseDigits(s: string)
    requires s != [] && forall i | 0 <= i < |s| :: IsDigit(s[i])
    ensures ParseFloat(s) == Finite(DigitsValue(s) as real)
  {
    LeadingDigitsOfDigits(s);
    assert s[|s|..] == [];
  }

  /** A decimal numeral converts back to the number it spells. */
  lemma DecimalRoundTrip(n: nat)
    ensures ToNumber(StringValue(NatToString(n))) == Finite(n as real)
  {
    var s := NatToString(n);
    assert Clean(s) == s;
    ParseDigits(s);
    DigitsOfNat(n);
  }

  /**
   * `parseInt(s)` on the value of a number input (no white space, no radix
   * prefix): an optional sign, then the longest run of decimal digits; NaN when
   * there is no digit. Whatever follows the digits, such as a fraction, is
   * ignored.
   */
  function ParseInt(s: string): Num
  {
    var signed := s != [] && (s[0] == '-' || s[0] == '+');
    var ds := LeadingDigits(if signed then s[1..] else s);
    if ds == [] then NaN
    else if signed && s[0] == '-' then Finite(-(DigitsValue(ds) as real))
    else Finite(DigitsValue(ds) as real)
  }

  /** `s` holds a digit after its optional sign. */
  predicate StartsInteger(s: string)
  {
    var u := if s != [] && (s[0] == '-' || s[0] == '+') then s[1..] else s;
    u != [] && IsDigit(u[0])
  }

  /** `parseInt` gives NaN exactly when no digit follows the optional sign, and a whole number otherwise. */
  lemma ParseIntNaN(s: string)
    ensures ParseInt(s).NaN? <==> !StartsInteger(s)
    ensures ParseInt(s).Finite? ==> ParseInt(s).value == ParseInt(s).value.Floor as real
  {
    var signed := s != [] && (s[0] == '-' || s[0] == '+');
    var u := if signed then s[1..] else s;
    var ds := LeadingDigits(u);
    assert ds != [] <==> u != [] && IsDigit(u[0]);
    if ds != [] {
      var m: int := DigitsValue(ds);
      assert (m as real).Floor == m;
      assert -(m as real) == (-m) as real;
      assert ((-m) as real).Floor == -m;
    }
  }

  /** A numeral parses to the number it spells, and so does its negation. */
  lemma ParseIntOfNumeral(n: nat)
    ensures ParseInt(NatToString(n)) == Finite(n as real)
    ensures ParseInt("-" + NatToString(n)) == Finite(-(n as real))
  {
    var s := NatToString(n);
    LeadingDigitsOfDigits(s);
    DigitsOfNat(n);
    assert ("-" + s)[1..] == s;
  }
}
