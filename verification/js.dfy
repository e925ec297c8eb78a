/**
 * The JavaScript primitive values a health-event field can hold, with the
 * truthiness rule that `||` applies and the text a template literal
 * interpolates for each value.
 */
module Js {
  import Decimal
  import opened Wrappers

  /**
   * `Num` carries an integral number; it stands for a JavaScript number when
   * its magnitude is at most 2^53.
   */
  datatype JsValue = Undefined | Null | Bool(b: bool) | Num(n: int) | Str(s: string)

  /** ToBoolean on the primitives above. */
  predicate Truthy(v: JsValue) {
    match v
    case Undefined => false
    case Null => false
    case Bool(b) => b
    case Num(n) => n != 0
    case Str(s) => s != ""
  }

  /** The falsy primitives, listed one by one. */
  const Falsy: set<JsValue> := {Undefined, Null, Bool(false), Num(0), Str("")}

  lemma TruthyIffNotFalsy(v: JsValue)
    ensures Truthy(v) <==> v !in Falsy
  {
  }

  /** `a || b`: the left operand when it is truthy, otherwise the right one. */
  function Or(a: JsValue, b: JsValue): JsValue {
    if Truthy(a) then a else b
  }

  /** `a || b` keeps a value outside the falsy list and replaces every falsy one. */
  lemma OrReplacesExactlyFalsy(a: JsValue, b: JsValue)
    ensures a !in Falsy ==> Or(a, b) == a
    ensures a in Falsy ==> Or(a, b) == b
  {
    TruthyIffNotFalsy(a);
  }

  /**
   * The text `${v}` produces inside a template literal: a string as it is,
   * a number (of magnitude at most 2^53) as a numeral that reads back as that
   * number, and never empty text for a truthy value.
   */
  function ToText(v: JsValue): (text: string)
    ensures v.Str? ==> text == v.s
    ensures v.Num? ==> Decimal.ToInt(text) == Some(v.n)
    ensures v.Bool? ==> text == (if v.b then "true" else "false")
    ensures Truthy(v) ==> text != ""
  {
    match v
    case Undefined => "undefined"
    case Null => "null"
    case Bool(b) => if b then "true" else "false"
    case Num(n) => Decimal.FromIntRoundTrip(n); Decimal.FromInt(n)
    case Str(s) => s
  }
}
