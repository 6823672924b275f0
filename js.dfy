/** The JavaScript values and expression forms that the auth slice and the route
    table depend on: parsed JSON response bodies, error objects, `undefined`,
    truthiness, property access (`v.k`), optional chaining (`v?.k`) and `||`. */
module Js {

  datatype Option<+T> = None | Some(value: T) {
    function GetOr(default: T): T {
      match this
      case Some(v) => v
      case None => default
    }
  }

  /** A JavaScript value as it reaches the reducers: JSON data produced by the
      HTTP client, an error object, or `undefined`. Numbers are modelled as reals
      (NaN and -0 are not represented). */
  datatype JsValue =
    | Undefined
    | Null
    | Bool(b: bool)
    | Num(n: real)
    | Str(s: string)
    | Arr(items: seq<JsValue>)
    | Obj(fields: map<string, JsValue>)
  {
    /** `v == null` in the loose sense: null or undefined. */
    predicate Nullish() {
      Undefined? || Null?
    }

    /** ECMAScript ToBoolean: what `v ? a : b`, `!v` and `v || w` test. */
    predicate Truthy() {
      match this
      case Undefined => false
      case Null => false
      case Bool(b) => b
      case Num(n) => n != 0.0
      case Str(s) => s != ""
      case Arr(_) => true
      case Obj(_) => true
    }
  }

  /** The completion of evaluating an expression: a value, or a thrown TypeError. */
  datatype Completion = Normal(value: JsValue) | TypeError

  /** `v.key`: throws on null and undefined; an object yields its own property or
      `undefined`; any other value yields `undefined` for the keys used here. */
  function Get(v: JsValue, key: string): Completion {
    match v
    case Undefined => TypeError
    case Null => TypeError
    case Obj(fields) => Normal(if key in fields then fields[key] else Undefined)
    case _ => Normal(Undefined)
  }

  /** `v?.key`: short-circuits to `undefined` when `v` is null or undefined. */
  function OptionalGet(v: JsValue, key: string): (r: JsValue)
    ensures v.Nullish() ==> r == Undefined
    ensures !v.Nullish() ==> Get(v, key) == Normal(r)
  {
    match Get(v, key)
    case TypeError => Undefined
    case Normal(w) => w
  }

  /** `a || b`: the left operand when it is truthy, otherwise the (lazily
      evaluated) right operand, which may throw. */
  function Or(a: JsValue, b: Completion): Completion {
    if a.Truthy() then Normal(a) else b
  }
}
