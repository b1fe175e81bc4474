/**
  The JSON values that travel between the agent, its tools and the remote
  tool server: what `json.loads` produces and `json.dumps` consumes.
  Numbers with a fraction or exponent are not represented.
*/
module JsonModel {

  datatype Json =
    | JNull
    | JBool(b: bool)
    | JInt(i: int)
    | JString(s: string)
    | JArray(items: seq<Json>)
    | JObject(fields: map<string, Json>)

  /** Python's truth value of a decoded JSON value: `None`, `False`, zero
      and the empty string, list and mapping are false. */
  predicate Truthy(j: Json) {
    match j
    case JNull => false
    case JBool(b) => b
    case JInt(i) => i != 0
    case JString(s) => s != ""
    case JArray(items) => items != []
    case JObject(fields) => fields != map[]
  }

  /** A parameter or result mapping: a Python `dict` with string keys. */
  type Fields = map<string, Json>

  /** Python's `d.get(key, default)`. */
  function Get(d: Fields, key: string, default: Json): Json {
    if key in d then d[key] else default
  }

  /** The soft-failure result shape `{"success": False, "error": message}`. */
  function FailureResult(message: string): (r: Json)
    ensures IsFailure(r) && ErrorOf(r) == message
  {
    JObject(map["success" := JBool(false), "error" := JString(message)])
  }

  /** A result mapping whose `success` is false and whose `error` is a string. */
  predicate IsFailure(r: Json) {
    && r.JObject?
    && "success" in r.fields && r.fields["success"] == JBool(false)
    && "error" in r.fields && r.fields["error"].JString?
  }

  function ErrorOf(r: Json): string
    requires IsFailure(r)
  {
    r.fields["error"].s
  }
}
