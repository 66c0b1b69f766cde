/** Option and Either, the two fp-ts shapes the aggregation passes around. */
module Wrappers {

  /** A value that may be absent (a JavaScript `undefined` property read). */
  datatype Option<+T> = None | Some(value: T)

  /** fp-ts `Either`: `Left` carries a failure, `Right` a result. */
  datatype Either<+L, +R> = Left(left: L) | Right(right: R)

  /** Reading `m[k]` off a JavaScript record: `undefined` when the key is not there. */
  function Get<K, V>(m: map<K, V>, k: K): (r: Option<V>)
    ensures r.Some? <==> k in m
    ensures r.Some? ==> r.value == m[k]
  {
    if k in m then Some(m[k]) else None
  }
}
