/**
 * The JavaScript values that cross the bridge between the plugin UI and the
 * plugin main thread, and that the persisted store keeps in client storage.
 */
module Values {

  datatype Option<+T> = None | Some(value: T)

  /**
   * A JavaScript value as far as the bridge and the store can observe it.
   * Arrays and plain objects are kept apart because `Array.isArray` tells them
   * apart; a function is known only by its source text.
   */
  datatype Value =
    | Undefined
    | Null
    | Bool(b: bool)
    | Num(n: real)
    | Str(s: string)
    | Arr(elems: seq<Value>)
    | Obj(fields: map<string, Value>)
    | Fn(source: string)

  /** JavaScript truthiness: what `!v`, `v || w` and `v ? a : b` test. */
  predicate Truthy(v: Value) {
    match v
    case Undefined => false
    case Null => false
    case Bool(b) => b
    case Num(n) => n != 0.0
    case Str(s) => s != ""
    case _ => true
  }

  /** `typeof v !== "undefined"` */
  predicate Defined(v: Value) {
    !v.Undefined?
  }

  /**
   * Property read `v.name` (and `v?.name`): an own property of a plain
   * object, otherwise `undefined`.
   */
  function Field(v: Value, name: string): Value {
    if v.Obj? && name in v.fields then v.fields[name] else Undefined
  }

  /** A JavaScript number that is an exact non-negative integer. */
  function Id(k: nat): Value {
    Num(k as real)
  }
}
