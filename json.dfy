/** The JSON values that travel in request bodies. axios serialises a request
    body with `JSON.stringify`, so an object literal becomes an object with
    exactly the keys the literal lists. */
module Json {

  datatype Json =
    | JNull                               // also what `JSON.stringify` writes for NaN
    | JString(s: string)
    | JInt(i: int)                        // an integral Number
    | JParsedFloat(text: string)          // the Number `parseFloat(text)`, not evaluated here
    | JObject(fields: map<string, Json>)

  /** The part of an object whose keys are in `keys`. */
  function Restrict(m: map<string, Json>, keys: set<string>): (r: map<string, Json>)
    ensures r.Keys == m.Keys * keys
    ensures forall k | k in r :: r[k] == m[k]
  {
    map k | k in m && k in keys :: m[k]
  }
}
