/** The stock optional-value wrapper used throughout the model. */
module Wrappers {
  datatype Option<+T> = None | Some(value: T)
}

/**
 * JavaScript values as the adapter handles them: message bodies, the
 * `applicationProperties` bag, option records and dates. Only the JS
 * behaviours the adapter depends on are modelled: truthiness (for `x || 0`
 * and `if (x)`), reading a missing key as `undefined`, object spread, and
 * the decimal rendering of an integer inside a template literal.
 */
module JsValues {

  /** A JS value. `Time` is a `Date`; `Obj` is a plain object's own fields. */
  datatype Value =
    | Undefined
    | Null
    | Num(num: int)
    | Str(str: string)
    | Bool(flag: bool)
    | Time(millis: int)
    | Obj(fields: map<string, Value>)

  /** `o[k]`: a missing key reads as `undefined`. */
  function Lookup(o: map<string, Value>, k: string): Value
  {
    if k in o then o[k] else Undefined
  }

  /** JS truthiness: `undefined`, `null`, `0`, `""` and `false` are falsy; objects and dates are truthy. */
  predicate Truthy(v: Value)
  {
    match v
    case Undefined => false
    case Null => false
    case Num(n) => n != 0
    case Str(s) => s != ""
    case Bool(b) => b
    case Time(_) => true
    case Obj(_) => true
  }

  /** The own fields that `{...v}` contributes: an object's fields, nothing for any other value. */
  function Spread(v: Value): (fields: map<string, Value>)
    ensures v.Obj? ==> fields == v.fields
    ensures !v.Obj? ==> fields == map[]
  {
    if v.Obj? then v.fields else map[]
  }

  // ---------------------------------------------------------------------
  // Decimal rendering of integers, as `${n}` produces it.
  // ---------------------------------------------------------------------

  function DigitChar(d: nat): (c: char)
    requires d < 10
    ensures '0' <= c <= '9'
  {
    "0123456789"[d]
  }

  predicate IsDigit(c: char)
  {
    '0' <= c <= '9'
  }

  function DigitValue(c: char): (d: nat)
    requires IsDigit(c)
    ensures d < 10
  {
    (c as int) - ('0' as int)
  }

  /** The decimal digits of `n`, most significant first, without leading zeros. */
  function NatDigits(n: nat): (s: string)
    ensures |s| >= 1
    ensures forall i :: 0 <= i < |s| ==> IsDigit(s[i])
    decreases n
  {
    if n < 10 then [DigitChar(n)] else NatDigits(n / 10) + [DigitChar(n % 10)]
  }

  /**
   * `${n}` for an integer `n` below 10^21 in magnitude (larger numbers render
   * in exponent form, which is not modelled): a minus sign for negatives,
   * then the digits.
   */
  function DecimalString(n: int): (s: string)
    ensures |s| >= 1
    ensures n < 0 <==> s[0] == '-'
  {
    if n < 0 then "-" + NatDigits(-n) else NatDigits(n)
  }

  /** Reads a string of digits back as a natural number. */
  function ParseNat(s: string): nat
    requires forall i :: 0 <= i < |s| ==> IsDigit(s[i])
    decreases |s|
  {
    if s == [] then 0 else 10 * ParseNat(s[..|s| - 1]) + DigitValue(s[|s| - 1])
  }

  /** Reads an optional minus sign and digits back as an integer. */
  function ParseInt(s: string): int
    requires |s| >= 1
    requires s[0] == '-' ==> forall i :: 1 <= i < |s| ==> IsDigit(s[i])
    requires s[0] != '-' ==> forall i :: 0 <= i < |s| ==> IsDigit(s[i])
  {
    if s[0] == '-' then -(ParseNat(s[1..]) as int) else ParseNat(s)
  }

  lemma {:induction false} NatDigitsRoundTrip(n: nat)
    ensures ParseNat(NatDigits(n)) == n
    decreases n
  {
    var s := NatDigits(n);
    if n >= 10 {
      NatDigitsRoundTrip(n / 10);
      assert s[..|s| - 1] == NatDigits(n / 10);
      assert s[|s| - 1] == DigitChar(n % 10);
    }
  }

  /** Rendering an integer in decimal loses nothing: it can be read back. */
  lemma DecimalStringRoundTrip(n: int)
    ensures var s := DecimalString(n);
            (s[0] == '-' ==> forall i :: 1 <= i < |s| ==> IsDigit(s[i])) &&
            (s[0] != '-' ==> forall i :: 0 <= i < |s| ==> IsDigit(s[i])) &&
            ParseInt(s) == n
  {
    var s := DecimalString(n);
    if n < 0 {
      assert s[1..] == NatDigits(-n);
      NatDigitsRoundTrip(-n);
    } else {
      NatDigitsRoundTrip(n);
    }
  }

  /** Distinct integers render as distinct strings. */
  lemma DecimalStringInjective(a: int, b: int)
    requires DecimalString(a) == DecimalString(b)
    ensures a == b
  {
    DecimalStringRoundTrip(a);
    DecimalStringRoundTrip(b);
  }
}
