/** The slice of JavaScript's value semantics that `findUser` depends on:
    `typeof`, truthiness, `a || b`, property lookup, and the two underscore
    helpers `_.omit` and `_.defaults`. */
module JsValues {

  datatype Option<T> = None | Some(value: T)

  /** A JavaScript value. Functions are known only by their identity; numbers are
      integers (no fractions, no NaN). */
  datatype Value =
    | Undefined
    | Null
    | Bool(b: bool)
    | Num(n: int)
    | Str(s: string)
    | Func(id: nat)
    | Arr(items: seq<Value>)
    | Obj(props: map<string, Value>)

  /** The result of the `typeof` operator. */
  datatype JsType = UndefinedT | ObjectT | BooleanT | NumberT | StringT | FunctionT

  function TypeOf(v: Value): JsType {
    match v
    case Undefined => UndefinedT
    case Null => ObjectT          // typeof null === 'object'
    case Bool(_) => BooleanT
    case Num(_) => NumberT
    case Str(_) => StringT
    case Func(_) => FunctionT
    case Arr(_) => ObjectT
    case Obj(_) => ObjectT
  }

  /** JavaScript truthiness: `undefined`, `null`, `false`, `0` and `""` are falsy;
      every object, array and function is truthy, the empty ones included. */
  predicate Truthy(v: Value) {
    match v
    case Undefined => false
    case Null => false
    case Bool(b) => b
    case Num(n) => n != 0
    case Str(s) => s != ""
    case Func(_) => true
    case Arr(_) => true
    case Obj(_) => true
  }

  /** `a || b`: the first operand when it is truthy, otherwise the second. */
  function Or(a: Value, b: Value): Value {
    if Truthy(a) then a else b
  }

  /** The empty object literal `{}`. */
  const EmptyObject: Value := Obj(map[])

  /** Enumerable own properties. Only plain objects carry any in this model. */
  function OwnProps(v: Value): map<string, Value> {
    if v.Obj? then v.props else map[]
  }

  /** Property read `v.key`; a missing property reads as `undefined`. */
  function Get(v: Value, key: string): Value {
    if v.Obj? && key in v.props then v.props[key] else Undefined
  }

  /** True when `m[key] !== undefined`, the test `_.defaults` applies. */
  predicate Supplied(m: map<string, Value>, key: string) {
    key in m && m[key] != Undefined
  }

  /** `_.omit(v, key)`: a fresh copy of the own properties of `v` without `key`. */
  function Omit(v: Value, key: string): (r: map<string, Value>)
    ensures key !in r
    ensures r.Keys == OwnProps(v).Keys - {key}
    ensures forall k :: k in r ==> r[k] == OwnProps(v)[k]
  {
    OwnProps(v) - {key}
  }

  /** `_.defaults(obj, defaults)`: every key of `defaults` whose value in `obj` is
      `undefined` (or missing) takes the default; everything else is kept. */
  function Defaults(obj: map<string, Value>, defaults: map<string, Value>): (r: map<string, Value>)
    ensures r.Keys == obj.Keys + defaults.Keys
    ensures forall k :: k in obj && (Supplied(obj, k) || k !in defaults) ==> r[k] == obj[k]
    ensures forall k :: k in defaults && !Supplied(obj, k) ==> r[k] == defaults[k]
  {
    map k | k in obj.Keys + defaults.Keys ::
      if k in defaults && !Supplied(obj, k) then defaults[k] else obj[k]
  }
}
