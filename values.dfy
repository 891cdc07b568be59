/** Python values as they appear in decoded JSON bodies and in the dicts the
    library builds from them. A `datetime` object stored into such a dict is
    represented by its ISO-8601 text. */
module Values {

  datatype DateTime = DateTime(iso: string)

  datatype Value =
    | VNone
    | VBool(b: bool)
    | VInt(i: int)
    | VStr(s: string)
    | VList(items: seq<Value>)
    | VDict(entries: map<string, Value>)
    | VTime(t: DateTime)

  /** Python truthiness. */
  predicate Truthy(v: Value) {
    match v
    case VNone => false
    case VBool(b) => b
    case VInt(i) => i != 0
    case VStr(s) => s != ""
    case VList(xs) => xs != []
    case VDict(m) => m != map[]
    case VTime(_) => true
  }

  /** `d.get(key, default)` on a dict. */
  function DictGet(m: map<string, Value>, key: string, default: Value): Value {
    if key in m then m[key] else default
  }
}
