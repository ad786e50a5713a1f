/** A parsed JSON value; an object keeps the last value given for a repeated key. */
module Json {
  import opened Wrappers

  datatype Json =
    | JNull
    | JBool(b: bool)
    | JNumber(n: real)
    | JString(s: string)
    | JArray(items: seq<Json>)
    | JObject(members: map<string, Json>)

  /** `value.key` on a value that is not `null`: objects look the key up, every other value has no such member. */
  function Member(value: Json, key: string): (r: Option<Json>)
    ensures r.Some? <==> value.JObject? && key in value.members
    ensures r.Some? ==> r.value == value.members[key]
  {
    if value.JObject? && key in value.members then Some(value.members[key]) else None
  }
}
