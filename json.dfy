/**
 * A schema-less JSON value, as `serde_json::Value` represents it, and the
 * indexing rules of that library: `v[key]` on anything but an object that
 * holds `key`, and `v[i]` on anything but an array longer than `i`, yield
 * `Null` instead of failing.
 */
module Json {
  import opened Wrappers

  /** Numbers are kept as integers; floating-point payloads are not modelled. */
  datatype Json =
    | Null
    | Bool(b: bool)
    | Number(n: int)
    | String(s: string)
    | Array(elements: seq<Json>)
    | Object(members: map<string, Json>)

  /** `v[key]` for a string key. */
  function Get(v: Json, key: string): (r: Json)
    ensures r != Null ==> v.Object? && key in v.members && r == v.members[key]
    ensures v.Object? && key in v.members ==> r == v.members[key]
  {
    match v
    case Object(members) => if key in members then members[key] else Null
    case _ => Null
  }

  /** `v[i]` for an array index. */
  function At(v: Json, i: nat): (r: Json)
    ensures r != Null ==> v.Array? && i < |v.elements| && r == v.elements[i]
    ensures v.Array? && i < |v.elements| ==> r == v.elements[i]
  {
    match v
    case Array(elements) => if i < |elements| then elements[i] else Null
    case _ => Null
  }

  /** `v.as_str()`: the text of a string value, nothing for any other kind. */
  function AsStr(v: Json): (r: Option<string>)
    ensures r.Some? <==> v.String?
    ensures r.Some? ==> v == String(r.value)
  {
    match v
    case String(s) => Some(s)
    case _ => None
  }
}
