/**
 * Decoded JSON values, as `json.loads` / `Response.json()` produce them.
 * Decoding text into a value is done by the JSON library, which is not part
 * of this model: where the program decodes, the model receives the decoded
 * value (or the failure to decode) as an input.
 */
module Json {
  import opened Wrappers

  datatype Json =
    | JNull
    | JBool(b: bool)
    | JNum(n: real)
    | JStr(s: string)
    | JArr(items: seq<Json>)
    | JObj(fields: map<string, Json>)

  /** `value[key]` for an object holding `key`; nothing otherwise. */
  function Member(value: Json, key: string): (r: Option<Json>)
    ensures r.Some? <==> value.JObj? && key in value.fields
    ensures r.Some? ==> r.value == value.fields[key]
  {
    if value.JObj? && key in value.fields then Some(value.fields[key]) else None
  }

  /** `value.get(key)`: a missing key and an explicit `null` both read as nothing. */
  function Get(value: Json, key: string): (r: Option<Json>)
    ensures r.Some? ==> r == Member(value, key) && r.value != JNull
    ensures r.None? ==> Member(value, key) in {None, Some(JNull)}
  {
    match Member(value, key)
    case Some(v) => if v == JNull then None else Some(v)
    case None => None
  }

  /** `value[0]` for a non-empty array; nothing otherwise. */
  function First(value: Json): (r: Option<Json>)
    ensures r.Some? <==> value.JArr? && |value.items| > 0
    ensures r.Some? ==> r.value == value.items[0]
  {
    if value.JArr? && |value.items| > 0 then Some(value.items[0]) else None
  }
}
