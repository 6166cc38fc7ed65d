/** Parsed JSON values, as they arrive on a queue or in a server-sent event. */
module Json {
  import opened Wrappers

  datatype Json =
    | JNull
    | JBool(b: bool)
    | JNum(n: real)
    | JStr(s: string)
    | JArr(items: seq<Json>)
    | JObj(fields: map<string, Json>)

  /** The value of property `key` of an object; `None` stands for JavaScript's
      `undefined` (a missing key, or a property read on a non-object). */
  function Get(j: Json, key: string): (r: Option<Json>)
    ensures r.Some? <==> j.JObj? && key in j.fields
    ensures r.Some? ==> r.value == j.fields[key]
  {
    if j.JObj? && key in j.fields then Some(j.fields[key]) else None
  }

  /** The string held by property `key`, if there is one and it is a string. */
  function GetString(j: Json, key: string): (r: Option<string>)
    ensures r.Some? <==> Get(j, key).Some? && Get(j, key).value.JStr?
    ensures r.Some? ==> Get(j, key) == Some(JStr(r.value))
  {
    match Get(j, key)
    case Some(JStr(s)) => Some(s)
    case _ => None
  }
}
