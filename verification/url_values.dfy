/** The part of Go's `url.Values` (a map from a key to its list of values)
    that the state query uses. Percent-encoding (`Encode`) is not modelled:
    a query is handed on as the map itself. */
module UrlValues {

  type Values = map<string, seq<string>>

  /** `v.Set(key, value)`: the key now holds exactly `value`, replacing any
      values it had; every other key is untouched. */
  function Set(v: Values, key: string, value: string): (r: Values)
    ensures r.Keys == v.Keys + {key}
    ensures r[key] == [value]
    ensures forall k :: k in v && k != key ==> k in r && r[k] == v[k]
  {
    v[key := [value]]
  }

  /** `v.Get(key)`: the first value of the key, or "" when there is none. */
  function Get(v: Values, key: string): (r: string)
    ensures key in v && v[key] != [] ==> r == v[key][0]
    ensures key in v && v[key] == [] ==> r == ""
    ensures key !in v ==> r == ""
  {
    if key in v && v[key] != [] then v[key][0] else ""
  }
}
