/** Values shared by every part of the model: an optional value (Python's
    `None` or a present value) and the decoded form of a JSON document, as
    `json.loads` produces it and as the venue's payloads arrive. */
module Json {

  datatype Option<+T> = None | Some(value: T) {
    /** The value, or `default` when absent. */
    function GetOr(default: T): T {
      match this
      case Some(v) => v
      case None => default
    }
  }

  /** A decoded JSON value. Objects are dictionaries: a key occurs at most once. */
  datatype Json =
    | JNull
    | JBool(b: bool)
    | JNum(n: real)
    | JStr(s: string)
    | JArr(items: seq<Json>)
    | JObj(fields: map<string, Json>)

  /** True when `j` is a dictionary that holds every key of `keys`
      (so that `j[k]` raises no exception for those keys). */
  predicate HasKeys(j: Json, keys: set<string>) {
    j.JObj? && keys <= j.fields.Keys
  }

  /** `j[key]` of a decoded document, or `None` where Python raises
      (`j` is not a dictionary, or the key is absent). */
  function Field(j: Json, key: string): (r: Option<Json>)
    ensures r.Some? <==> HasKeys(j, {key})
    ensures r.Some? ==> r.value == j.fields[key]
  {
    if j.JObj? && key in j.fields then Some(j.fields[key]) else None
  }
}
