/**
 * Raw JavaScript values as they arrive on the wire (the parsed JSON body of
 * a request), before any validator has looked at them. Numbers are modelled
 * as integers.
 */
module Json {
  import opened Wrappers

  datatype Json =
    | JNull
    | JBool(b: bool)
    | JNum(n: int)
    | JStr(s: string)
    | JArr(items: seq<Json>)
    | JObj(fields: map<string, Json>)

  /** The value of property `key`, or Nothing when `j` is not an object or lacks it. */
  function Get(j: Json, key: string): (r: Maybe<Json>)
    ensures r.Just? <==> j.JObj? && key in j.fields
    ensures r.Just? ==> r.value == j.fields[key]
  {
    if j.JObj? && key in j.fields then Just(j.fields[key]) else Nothing
  }
}
