/**
 * Untyped JavaScript values, as they reach the entity's update operations
 * from a parsed request body. Only the parts of JavaScript's semantics that
 * the coordinate checks depend on are modelled: truthiness, `typeof` and
 * named-property lookup.
 */
module JsValues {

  /** A JSON-like JavaScript value. Numbers are carried, never computed, so
      they are integers here. */
  datatype Value =
    | Undefined
    | Null
    | Bool(b: bool)
    | Num(n: int)
    | Str(s: string)
    | Arr(elems: seq<Value>)
    | Obj(fields: map<string, Value>)

  /** JavaScript truthiness: `undefined`, `null`, `false`, `0` and `""` are
      falsy, every array and object is truthy. */
  predicate Truthy(v: Value) {
    match v
    case Undefined => false
    case Null => false
    case Bool(b) => b
    case Num(n) => n != 0
    case Str(s) => s != ""
    case Arr(_) => true
    case Obj(_) => true
  }

  /** The string the `typeof` operator yields (`typeof null` is "object"). */
  function TypeOf(v: Value): string {
    match v
    case Undefined => "undefined"
    case Null => "object"
    case Bool(_) => "boolean"
    case Num(_) => "number"
    case Str(_) => "string"
    case Arr(_) => "object"
    case Obj(_) => "object"
  }

  /** Reading a named, non-index property `v.key`: an object's own field,
      otherwise `undefined` (no prototype of these values defines the keys
      looked up here). JavaScript throws when reading a property of `null`
      or `undefined`; this function is total and yields `Undefined` for
      them, and callers test truthiness first, as the source does, so that
      case never decides a result. */
  function Prop(v: Value, key: string): Value {
    match v
    case Obj(fields) => if key in fields then fields[key] else Undefined
    case _ => Undefined
  }
}
