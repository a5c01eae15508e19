/** JavaScript plain objects, as the core sees them: an ordered list of own
    properties. `Object.keys` returns the names in list order, and a property
    access `o[k]` yields the value of the first property named `k`, or nothing. */
module JsObject {

  /** `undefined` versus a present value. */
  datatype Option<+T> = None | Some(value: T)

  /** A plain object with values of type `V`, in `Object.keys` order. */
  type Object<V> = seq<(string, V)>

  /** `Object.keys(o)`. */
  function Keys<V>(o: Object<V>): seq<string>
  {
    seq(|o|, i requires 0 <= i < |o| => o[i].0)
  }

  /** Property access `o[k]`. */
  function Get<V>(o: Object<V>, k: string): (r: Option<V>)
    ensures r.None? <==> forall i | 0 <= i < |o| :: o[i].0 != k
    ensures r.Some? ==> exists i | 0 <= i < |o| :: o[i] == (k, r.value)
    ensures forall i | 0 <= i < |o| && o[i].0 == k && (forall j | 0 <= j < i :: o[j].0 != k) :: r == Some(o[i].1)
  {
    if o == [] then None
    else if o[0].0 == k then Some(o[0].1)
    else Get(o[1..], k)
  }
}
