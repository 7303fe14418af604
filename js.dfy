/** The slice of JavaScript's value model that the transport's argument
    handling inspects: truthiness (`!x`, `x || y`), `typeof`, and property
    reads on objects. */
module Js {

  datatype Option<T> = None | Some(value: T)

  /** A function value: the module's own no-op callback, or a caller's
      function, known only by an opaque handle. */
  datatype Fn = Noop | UserFn(handle: nat)

  /** A JavaScript value as it can arrive in an optional argument slot.
      Numbers are integers here (NaN and fractions are not modelled). */
  datatype Value =
    | Undefined
    | Null
    | Bool(b: bool)
    | Num(n: int)
    | Str(s: string)
    | Func(f: Fn)
    | Obj(fields: map<string, Value>)

  /** JavaScript truthiness: `undefined`, `null`, `false`, `0` and `""` are falsy. */
  predicate Truthy(v: Value) {
    match v
    case Undefined => false
    case Null => false
    case Bool(b) => b
    case Num(n) => n != 0
    case Str(s) => s != ""
    case Func(_) => true
    case Obj(_) => true
  }

  /** The `typeof` operator; `typeof null` is "object". */
  function TypeOf(v: Value): string {
    match v
    case Undefined => "undefined"
    case Null => "object"
    case Bool(_) => "boolean"
    case Num(_) => "number"
    case Str(_) => "string"
    case Func(_) => "function"
    case Obj(_) => "object"
  }

  predicate IsFunction(v: Value) {
    TypeOf(v) == "function"
  }

  /** `a || b` */
  function Or(a: Value, b: Value): Value {
    if Truthy(a) then a else b
  }

  /** Reading `v.key`. Reading a property of `null` or `undefined` throws,
      so callers must rule those out; a primitive or a function has none of
      the keys the transport reads. */
  function Prop(v: Value, key: string): Value
    requires v != Undefined && v != Null
  {
    if v.Obj? && key in v.fields then v.fields[key] else Undefined
  }

  /** Truthiness of an optional string option such as `opts.ip`. */
  predicate Given(o: Option<string>) {
    o.Some? && o.value != ""
  }
}
