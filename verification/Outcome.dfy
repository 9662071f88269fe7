/** Optional values and the three kinds of failure the helper tells apart. */
module Outcome {

  datatype Option<+T> = None | Some(value: T)

  /** `Offline` is any error that `isOfflineError` accepts. */
  datatype Error = Offline | NotFound | Other

  datatype Result<+T> = Ok(value: T) | Fail(error: Error)

  function Lookup<K, V>(m: map<K, V>, k: K): (r: Option<V>)
    ensures r.Some? <==> k in m
  {
    if k in m then Some(m[k]) else None
  }
}
