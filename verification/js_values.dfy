/** JavaScript values as the bridge sees them: the argument and result of a
    registered function, cache entries, thrown exceptions, and the objects
    whose capabilities the wrapper probes. */
module JsValues {

  datatype Option<+T> = None | Some(value: T)

  /** A JavaScript number. Finite values are kept exact (IEEE rounding is not
      modelled); NaN and the two infinities are kept apart because they
      behave differently under truthiness. */
  datatype Float = Finite(r: real) | NaN | Infinity(negative: bool)

  /** One JavaScript value.
      - `Func` is a function object; it may carry properties (an auth check
        attached under a key, for example).
      - `Instance` is an object built by a class (`Error`, `Promise`, a
        `BifrostSubscription`); `props` holds every property a lookup can
        see, own or inherited, and `isError` is `instanceof Error`.
      - `PlainObj` is an object literal (what lodash calls a plain object). */
  datatype JsValue =
    | Undefined
    | Null
    | Bool(b: bool)
    | Num(n: Float)
    | Str(s: string)
    | Arr(items: seq<JsValue>)
    | PlainObj(props: map<string, JsValue>)
    | Func(id: nat, props: map<string, JsValue>)
    | Instance(cls: string, isError: bool, props: map<string, JsValue>)

  /** How a JavaScript evaluation ended: with a value, or by throwing one. */
  datatype Completion = Normal(value: JsValue) | Thrown(error: JsValue)

  /** JavaScript's ToBoolean. */
  predicate Truthy(v: JsValue) {
    match v
    case Undefined => false
    case Null => false
    case Bool(b) => b
    case Num(n) => (n.Finite? && n.r != 0.0) || n.Infinity?
    case Str(s) => |s| > 0
    case _ => true
  }

  /** `typeof v === 'object'` (note that this holds of `null`). */
  predicate IsObjectTyped(v: JsValue) {
    v.Null? || v.Arr? || v.PlainObj? || v.Instance?
  }

  /** `v == null`, the two values on which a property lookup throws. */
  predicate IsNullish(v: JsValue) {
    v.Undefined? || v.Null?
  }

  function NewError(message: string): JsValue {
    Instance("Error", true, map["message" := Str(message)])
  }

  const TypeErrorOnNullish: JsValue :=
    Instance("TypeError", true, map["message" := Str("Cannot read properties of undefined or null")])

  const TypeErrorNotAFunction: JsValue :=
    Instance("TypeError", true, map["message" := Str("is not a function")])

  /** `v[k]` for the property names the bridge probes (`then`, `dispose`,
      `statusCode`, ...). None of these names is a property of the built-in
      prototypes of strings, numbers, booleans or arrays, so a lookup on
      those yields `undefined`. */
  function GetProp(v: JsValue, k: string): (c: Completion)
    ensures c.Thrown? <==> IsNullish(v)
    ensures c.Thrown? ==> c.error == TypeErrorOnNullish
    ensures c.Normal? && v.PlainObj? && k in v.props ==> c.value == v.props[k]
    ensures c.Normal? && (v.Instance? || v.Func?) && k in v.props ==> c.value == v.props[k]
  {
    match v
    case Undefined => Thrown(TypeErrorOnNullish)
    case Null => Thrown(TypeErrorOnNullish)
    case PlainObj(props) => Normal(if k in props then props[k] else Undefined)
    case Func(_, props) => Normal(if k in props then props[k] else Undefined)
    case Instance(_, _, props) => Normal(if k in props then props[k] else Undefined)
    case _ => Normal(Undefined)
  }

  /** The JavaScript number for an integer literal such as a status code. */
  function IntNum(i: int): JsValue {
    Num(Finite(i as real))
  }
}
