/** Values produced by Python's `json.loads`, and the Python operators the
    client applies to them: truthiness, `key in v` and `v[key]`. */
module JsonValue {

  import opened Wrappers
  import Text

  /** A parsed JSON document: `None`, `bool`, a number, `str`, `list` or
      `dict`.  Numbers are integers here. */
  datatype Json =
    | Null
    | Bool(b: bool)
    | Number(n: int)
    | Str(s: string)
    | Array(items: seq<Json>)
    | Object(members: map<string, Json>)

  /** Python's `bool(v)`: `None`, `False`, `0` and empty values are false. */
  predicate Truthy(v: Json) {
    match v
    case Null => false
    case Bool(b) => b
    case Number(n) => n != 0
    case Str(s) => s != ""
    case Array(items) => items != []
    case Object(members) => members != map[]
  }

  /** Python's `key in v` for a `str` key: membership of a dict key, of a
      list element, or of a substring; None where Python raises a TypeError
      (`None`, `bool` and numbers are not containers). */
  function Contains(v: Json, key: string): (r: Option<bool>)
    ensures r.Some? <==> (v.Object? || v.Array? || v.Str?)
    ensures v.Object? ==> r == Some(key in v.members)
  {
    match v
    case Object(members) => Some(key in members)
    case Array(items) => Some(Str(key) in items)
    case Str(s) => Some(Text.IsSubstring(key, s))
    case _ => None
  }

  /** Python's `v[key]` for a `str` key; None where Python raises (a
      TypeError on anything but a dict, a KeyError on an absent key). */
  function Lookup(v: Json, key: string): (r: Option<Json>)
    ensures r.Some? <==> (v.Object? && key in v.members)
    ensures r.Some? ==> r.value == v.members[key]
  {
    if v.Object? && key in v.members then Some(v.members[key]) else None
  }
}
