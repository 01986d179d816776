/** The values `JSON.parse` can produce, and the property read `v.name` on them.
    JSON numbers are JavaScript doubles; the model keeps whatever exact value the
    parser produced as a `real` (JSON has no NaN or infinity). */
module Json {
  import opened Common

  datatype Json =
    | JNull
    | JBool(b: bool)
    | JNum(n: real)
    | JStr(s: string)
    | JArr(elems: seq<Json>)
    | JObj(fields: map<string, Json>)

  /** `v.name` where it does not throw: `Some` for an own field of an object,
      `None` for `undefined` (any other value, or a missing field). Reading a
      property of `null` throws, which callers treat separately. */
  function Property(v: Json, name: string): Option<Json> {
    match v
    case JObj(fields) => if name in fields then Some(fields[name]) else None
    case _ => None
  }
}
