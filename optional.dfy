/** Swift's `T?`: a value that may be absent. */
module Optional {

  datatype Option<+T> = None | Some(value: T) {

    /** Swift's `??`: the wrapped value, or `fallback` when absent. */
    function OrElse(fallback: T): T {
      match this
      case Some(v) => v
      case None => fallback
    }
  }

  /** `dict[key] = value` with an optional value: nil removes the key, anything else stores it. */
  function Store<K(!new), V>(m: map<K, V>, key: K, v: Option<V>): (r: map<K, V>)
    ensures v.Some? ==> key in r && r[key] == v.value
    ensures v.None? ==> key !in r
    ensures forall k :: k != key ==> (k in r <==> k in m) && (k in r ==> r[k] == m[k])
  {
    if v.Some? then m[key := v.value] else m - {key}
  }
}
