/**
  The JSON value tree that an SPDX document is read from and written back to.
  Objects are maps, so two objects are equal exactly when they hold the same
  keys with equal values, whatever order the keys were written in; arrays keep
  their order.
 */
module Json {
  import opened Wrappers

  datatype Json =
    | JNull
    | JBool(b: bool)
    | JInt(i: int)
    | JString(s: string)
    | JArray(items: seq<Json>)
    | JObject(fields: map<string, Json>)

  /** What an object holds under `key`: None when the key is absent. */
  function Slot(obj: map<string, Json>, key: string): Option<Json> {
    if key in obj then Some(obj[key]) else None
  }
}
