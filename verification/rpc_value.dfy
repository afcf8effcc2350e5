/** Field values as Odoo's XML-RPC interface returns them to the two
    maintenance scripts, and Python's truth test on them. */
module RpcValues {

  /** An element of a list value: relations come back as lists of ids,
      and a many-to-one as an [id, name] pair. */
  datatype Scalar = SInt(i: int) | SStr(s: string)

  /** A field value. */
  datatype Value = VNone | VBool(b: bool) | VInt(i: int) | VFloat(x: real) | VStr(s: string)
                 | VBytes(data: seq<int>) | VList(items: seq<Scalar>)

  /** Python's `bool(value)`: false for None, False, zero, and the empty
      string, bytes and list. */
  predicate Truthy(v: Value) {
    match v
    case VNone => false
    case VBool(b) => b
    case VInt(i) => i != 0
    case VFloat(x) => x != 0.0
    case VStr(s) => s != ""
    case VBytes(d) => d != []
    case VList(items) => items != []
  }

  /** `value is None or value is False`: only the two unset values, not
      the other falsy ones. */
  predicate Unset(v: Value) {
    v.VNone? || v == VBool(false)
  }
}
