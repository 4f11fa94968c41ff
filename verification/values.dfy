/**
 * The JavaScript values a collection file holds once it is parsed, and the
 * two pieces of JavaScript semantics the store leans on: truthiness, and how
 * an array is indexed by an arbitrary value (`documents[filter.index]`).
 */
module JsValues {

  datatype Option<+T> = None | Some(value: T)

  /** A JSON value stored in a document. Numbers are integers in this model. */
  datatype Value =
    | Str(s: string)
    | Int(i: int)
    | Bool(b: bool)
    | Obj(fields: map<string, Value>)

  /** A document is a plain object: field name to value. */
  type Document = map<string, Value>

  /** A filter or a map of new field values: a plain object, or `undefined` when none was given. */
  datatype ObjectArg = Undefined | Object(entries: map<string, Value>)

  /** JavaScript truthiness: "", 0 and false are falsy; every object is truthy. */
  predicate Truthy(v: Value)
  {
    match v
    case Str(s) => s != ""
    case Int(i) => i != 0
    case Bool(b) => b
    case Obj(_) => true
  }

  predicate IsDigit(c: char)
  {
    '0' <= c <= '9'
  }

  predicate AllDigits(s: string)
  {
    forall i :: 0 <= i < |s| ==> IsDigit(s[i])
  }

  function Digit(n: nat): (c: char)
    requires n < 10
    ensures IsDigit(c) && c as int - '0' as int == n
  {
    ('0' as int + n) as char
  }

  /** The number a string of decimal digits denotes. */
  function DigitsValue(s: string): (v: nat)
    requires AllDigits(s)
  {
    if s == [] then 0 else DigitsValue(s[..|s| - 1]) * 10 + (s[|s| - 1] as int - '0' as int)
  }

  /** JavaScript's `String(n)` for a non-negative integer: decimal, no leading zero. */
  function DecimalString(n: nat): (s: string)
    ensures |s| > 0 && AllDigits(s)
    ensures |s| > 1 ==> s[0] != '0'
    ensures n < 10 <==> |s| == 1
  {
    if n < 10 then [Digit(n)] else DecimalString(n / 10) + [Digit(n % 10)]
  }

  /**
   * The array position a string property key names, if it is an array index:
   * only the canonical decimal spelling ("7", not "07", "+7" or "7.0") is one.
   */
  function CanonicalIndex(s: string): (p: Option<nat>)
  {
    if |s| > 0 && AllDigits(s) && (s[0] != '0' || |s| == 1) then Some(DigitsValue(s)) else None
  }

  /**
   * The element `array[key]` reads: a non-negative integer or a canonical
   * decimal string names a position; a negative number, a boolean or an object
   * names no element (the read yields `undefined`).
   */
  function ArrayPosition(key: Value): (p: Option<nat>)
  {
    match key
    case Int(n) => if n >= 0 then Some(n) else None
    case Str(s) => CanonicalIndex(s)
    case _ => None
  }

  lemma {:induction false} DecimalStringValue(n: nat)
    ensures DigitsValue(DecimalString(n)) == n
  {
    var s := DecimalString(n);
    if n >= 10 {
      DecimalStringValue(n / 10);
      assert s[..|s| - 1] == DecimalString(n / 10);
    }
  }

  lemma {:induction false} LeadingDigitPositive(s: string)
    requires |s| > 0 && AllDigits(s) && s[0] != '0'
    ensures DigitsValue(s) > 0
  {
    if |s| > 1 {
      LeadingDigitPositive(s[..|s| - 1]);
    }
  }

  lemma {:induction false} CanonicalIsDecimal(s: string)
    requires CanonicalIndex(s).Some?
    ensures s == DecimalString(CanonicalIndex(s).value)
  {
    var n := DigitsValue(s);
    if |s| > 1 {
      var p := s[..|s| - 1];
      assert CanonicalIndex(p).Some?;
      LeadingDigitPositive(p);
      CanonicalIsDecimal(p);
      assert n / 10 == DigitsValue(p) && n % 10 == s[|s| - 1] as int - '0' as int;
      assert Digit(n % 10) == s[|s| - 1];
      assert s == p + [s[|s| - 1]];
    } else {
      assert |s| == 1 && s[..|s| - 1] == [];
      assert DigitsValue(s) == DigitsValue([]) * 10 + (s[0] as int - '0' as int);
      assert Digit(n) == s[0];
    }
  }

  /**
   * A string key addresses position `n` exactly when it is the decimal
   * rendering of `n`: `documents["3"]` and `documents[3]` read the same
   * element, and no other spelling reads it.
   */
  lemma StringPositionIsDecimal(s: string, n: nat)
    ensures ArrayPosition(Str(s)) == Some(n) <==> s == DecimalString(n)
    ensures ArrayPosition(Str(s)) == Some(n) <==> ArrayPosition(Str(s)) == ArrayPosition(Int(n))
  {
    if s == DecimalString(n) {
      DecimalStringValue(n);
    }
    if CanonicalIndex(s).Some? {
      CanonicalIsDecimal(s);
    }
  }
}
