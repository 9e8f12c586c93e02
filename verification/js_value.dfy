/** JavaScript values as far as the render decision observes them, and the
    two pieces of JavaScript semantics it relies on: truthiness (the
    ToBoolean conversion, section 7.1.2 of ECMA-262) and the short-circuit
    `&&` operator (section 13.13 of ECMA-262). */
module JsValues {

  /** A JavaScript value. Numbers are kept to their integral values plus NaN
      (-0 is represented by Num(0), to which it is equal for truthiness);
      objects, arrays and functions are identified by an opaque id; a React
      element is an object carrying a tag and its children. */
  datatype JsValue =
    | Undefined
    | Null
    | Bool(b: bool)
    | Num(n: int)
    | NaN
    | BigInt(i: int)
    | Str(s: string)
    | Sym(id: nat)
    | Obj(id: nat)
    | Elem(tag: string, children: seq<JsValue>)

  /** ToBoolean: what a JavaScript condition makes of a value. */
  predicate Truthy(v: JsValue) {
    match v
    case Undefined => false
    case Null => false
    case Bool(b) => b
    case Num(n) => n != 0
    case NaN => false
    case BigInt(i) => i != 0
    case Str(s) => |s| > 0
    case Sym(_) => true
    case Obj(_) => true
    case Elem(_, _) => true
  }

  /** The falsy values of the language proper. Annex B of ECMA-262 adds
      host objects with an [[IsHTMLDDA]] slot (`document.all` in browsers),
      which are also falsy; no such object is modelled here. */
  const FalsyValues: seq<JsValue> :=
    [Undefined, Null, Bool(false), Num(0), NaN, BigInt(0), Str("")]

  /** A modelled value is falsy exactly when it is one of the listed falsy
      values. */
  lemma FalsyIffListed(v: JsValue)
    ensures !Truthy(v) <==> v in FalsyValues
  {
  }

  /** `a && b`: yields `a` itself when it is falsy and `b` otherwise, so the
      result is truthy exactly when both operands are. */
  function JsAnd(a: JsValue, b: JsValue): (r: JsValue)
    ensures Truthy(r) <==> Truthy(a) && Truthy(b)
    ensures r == a || r == b
  {
    if Truthy(a) then b else a
  }
}
