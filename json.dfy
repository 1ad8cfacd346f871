/** `serde_json::Value`, the tree the tool inputs, schemas and metadata are carried in. Numbers
    are kept as integers; floating-point JSON numbers are not part of this model. */
module Json {
  import opened Wrappers

  datatype Json =
    | JNull
    | JBool(b: bool)
    | JNumber(n: int)
    | JString(s: string)
    | JArray(items: seq<Json>)
    | JObject(fields: map<string, Json>)

  /** `value.get(key).and_then(|v| v.as_str())`: the string stored under `key` in an object. */
  function StringField(v: Json, key: string): (r: Option<string>)
    ensures r.Some? <==> v.JObject? && key in v.fields && v.fields[key].JString?
    ensures r.Some? ==> v.fields[key] == JString(r.value)
  {
    if v.JObject? && key in v.fields && v.fields[key].JString? then Some(v.fields[key].s) else None
  }
}
