/** Optional values, and JavaScript's `||` on an optional number or string. */
module Wrappers {

  /** A value that may be absent (`undefined` / `null` in the dashboard's code). */
  datatype Option<+T> = None | Some(value: T) {

    /** `x ?? d`: the value when present, otherwise the default. */
    function GetOr(default: T): T {
      match this
      case Some(v) => v
      case None => default
    }
  }

  /** A value that is present exactly when the key is in the map. */
  function Lookup<K, V>(m: map<K, V>, k: K): (r: Option<V>)
    ensures r.Some? <==> k in m
    ensures r.Some? ==> r.value == m[k]
  {
    if k in m then Some(m[k]) else None
  }

  /** JavaScript's `x || d` for a number: a missing value and a zero both fall through to `d`. */
  function NumberOr(x: Option<real>, d: real): (r: real)
    ensures x.Some? && x.value != 0.0 ==> r == x.value
    ensures x.None? || x.value == 0.0 ==> r == d
  {
    if x.Some? && x.value != 0.0 then x.value else d
  }

  /** JavaScript's `x || d` for a string: a missing value and the empty string both fall through to `d`. */
  function StringOr(x: Option<string>, d: string): (r: string)
    ensures x.Some? && x.value != "" ==> r == x.value
    ensures x.None? || x.value == "" ==> r == d
  {
    if x.Some? && x.value != "" then x.value else d
  }
}
