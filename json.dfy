/** The parsed JSON tree (Gson's JsonElement) that response envelopes arrive as. */
module Json {
  import opened Wrappers

  datatype Json =
    | JString(s: string)
    | JNumber(text: string)
    | JBool(b: bool)
    | JNull
    | JArray(items: seq<Json>)
    | JObject(members: map<string, Json>)

  /**
   * JsonElement.getAsString(): primitives render as text, an array of exactly
   * one element renders as that element; None wherever Gson throws.
   */
  function AsString(j: Json): (r: Option<string>)
    ensures j.JString? ==> r == Some(j.s)
    ensures j.JNull? || j.JObject? ==> r.None?
  {
    match j
    case JString(s) => Some(s)
    case JNumber(t) => Some(t)
    case JBool(b) => Some(if b then "true" else "false")
    case JNull => None
    case JArray(items) => if |items| == 1 then AsString(items[0]) else None
    case JObject(_) => None
  }
}
