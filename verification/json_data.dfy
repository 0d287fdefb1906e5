/** The data the sagas receive from the backend and the store. Bodies the
    sagas only pass along are `Json`; the JSON:API resources they look
    inside are `Resource`. */
module JsonData {
  import opened Wrappers
  import opened JsText

  /** A JSON value. `JNull` stands for both `null` and `undefined`. */
  datatype Json =
    | JNull
    | JBool(b: bool)
    | JNumber(n: int)
    | JString(s: string)
    | JArray(items: seq<Json>)
    | JObject(members: map<string, Json>)

  /** A scalar attribute of a resource. */
  datatype Value = VNull | VBool(b: bool) | VNumber(n: int) | VString(s: string)

  /** A JSON:API resource object: a content node or a user. */
  datatype Resource = Resource(
    id: string,
    resourceType: string,
    attributes: map<string, Value>,
    links: map<string, string>)

  /** `resource.attributes[name]`; `None` is `undefined`. */
  function Attribute(r: Resource, name: string): Option<Value> {
    if name in r.attributes then Some(r.attributes[name]) else None
  }

  /** `String(v)`; `None` is `undefined`. A number's string reads back
      as that number. */
  function ToJsString(v: Option<Value>): (r: string)
    ensures v.None? ==> r == "undefined"
    ensures v == Some(VNull) ==> r == "null"
    ensures v.Some? && v.value.VBool? ==> (r == "true" <==> v.value.b) && (r == "false" <==> !v.value.b)
    ensures v.Some? && v.value.VNumber? ==> r == IntToString(v.value.n) && ParseInt(r) == Some(v.value.n)
    ensures v.Some? && v.value.VString? ==> r == v.value.s
  {
    match v
    case None => "undefined"
    case Some(VNull) => "null"
    case Some(VBool(b)) => if b then "true" else "false"
    case Some(VNumber(n)) => IntToStringRoundTrip(n); IntToString(n)
    case Some(VString(s)) => s
  }

  /** `Object.keys(j).length`; `None` where `Object.keys` throws. */
  function KeyCount(j: Json): (r: Option<nat>)
    ensures r.None? <==> j.JNull?
    ensures j.JObject? ==> r == Some(|j.members|)
    ensures j.JArray? ==> r == Some(|j.items|)
    ensures j.JString? ==> r == Some(|j.s|)
    ensures j.JBool? || j.JNumber? ==> r == Some(0)
  {
    match j
    case JNull => None
    case JBool(_) => Some(0)
    case JNumber(_) => Some(0)
    case JString(s) => Some(|s|)
    case JArray(items) => Some(|items|)
    case JObject(members) => Some(|members|)
  }
}
