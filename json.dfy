/** JSON objects as the three server requests see them.

    org.json's `getString` renders any present value as text (a nested
    object as its JSON text, JSONObject.NULL as "null"), and throws only
    when the key is missing.  An object is therefore modelled as the map
    from each key to that text, and a lookup that can throw becomes an
    `Option`.
 */
module Json {

  datatype Option<+T> = None | Some(value: T)

  /** A JSON object: each key mapped to the text `getString` yields for it. */
  type JsonObject = map<string, string>

  /** `getString(key)`: the text under `key`, or `None` where org.json throws. */
  function GetString(o: JsonObject, key: string): Option<string> {
    if key in o then Some(o[key]) else None
  }

  /** `put(key, value)` with a possibly-null Java string: org.json removes
      the key when the value is null and otherwise (re)binds it. */
  function Put(o: JsonObject, key: string, value: Option<string>): (r: JsonObject)
    ensures key in r <==> value.Some?
    ensures value.Some? ==> r[key] == value.value
    ensures forall k :: k in o && k != key ==> k in r && r[k] == o[k]
    ensures forall k :: k in r && k != key ==> k in o
  {
    match value
    case Some(v) => o[key := v]
    case None => o - {key}
  }
}
