/** JSON values as the client code sees them, with JavaScript's `undefined` and truthiness. */
module Json {

  datatype Json =
    | JUndefined
    | JNull
    | JBool(b: bool)
    | JNum(n: int)
    | JStr(s: string)
    | JArr(items: seq<Json>)
    | JObj(fields: map<string, Json>)

  /** `!!v`. */
  predicate Truthy(v: Json) {
    match v
    case JUndefined => false
    case JNull => false
    case JBool(b) => b
    case JNum(n) => n != 0
    case JStr(s) => s != ""
    case JArr(_) => true
    case JObj(_) => true
  }

  /** `v.key` on an object; anything else, or a missing key, reads as `undefined`. */
  function Field(v: Json, key: string): (r: Json)
    ensures v.JObj? && key in v.fields ==> r == v.fields[key]
    ensures !(v.JObj? && key in v.fields) ==> r == JUndefined
  {
    if v.JObj? && key in v.fields then v.fields[key] else JUndefined
  }

  /** `{ ...v, key: x }` for an object or a primitive (primitives spread no own fields). */
  function SpreadWith(v: Json, key: string, x: Json): (r: Json)
    ensures r.JObj? && key in r.fields && r.fields[key] == x
    ensures v.JObj? ==> forall k :: k in v.fields && k != key ==> k in r.fields && r.fields[k] == v.fields[k]
    ensures forall k :: k in r.fields && k != key ==> v.JObj? && k in v.fields
  {
    if v.JObj? then JObj(v.fields[key := x]) else JObj(map[key := x])
  }
}
