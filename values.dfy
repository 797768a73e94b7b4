/** Python run-time values, as far as freezable objects need to tell them apart. */
module PyModel {

  datatype Option<T> = None | Some(value: T)

  /** The attribute values the model distinguishes: None, bool, int and list. */
  datatype Value = VNone | VBool(b: bool) | VInt(i: int) | VList(items: seq<Value>)

  /** Python's truth test `bool(v)`: None, False, 0 and the empty list are false. */
  predicate Truthy(v: Value) {
    match v
    case VNone => false
    case VBool(b) => b
    case VInt(i) => i != 0
    case VList(items) => items != []
  }
}
