/** JSON values, as `request.json()` hands the request body to the route handler. */
module Json {
  import opened Results

  /** A parsed JSON value. Object keys are unique once parsed, so an object is a map. */
  datatype Json =
    | JNull
    | JBool(b: bool)
    | JNumber(n: real)
    | JString(s: string)
    | JArray(items: seq<Json>)
    | JObject(fields: map<string, Json>)

  /** Property `key` of `j`, or None where JavaScript would read `undefined`. */
  function Get(j: Json, key: string): (r: Option<Json>)
    ensures r.Some? <==> j.JObject? && key in j.fields
    ensures r.Some? ==> r.value == j.fields[key]
  {
    if j.JObject? && key in j.fields then Some(j.fields[key]) else None
  }

  /** The string at property `key` of `j`, if there is one. */
  function GetString(j: Json, key: string): (r: Option<string>)
    ensures r.Some? <==> j.JObject? && key in j.fields && j.fields[key].JString?
    ensures r.Some? ==> j.fields[key] == JString(r.value)
  {
    match Get(j, key)
    case Some(JString(s)) => Some(s)
    case _ => None
  }
}
