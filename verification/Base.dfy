/** Vocabulary shared by every module. */
module Base {

  datatype Option<+T> = None | Some(value: T)

  datatype Result<+T, +E> = Ok(value: T) | Err(error: E)

  /** The value stored under k, if any: what a Go map read with the comma-ok form returns. */
  function Lookup<K, V>(m: map<K, V>, k: K): Option<V>
  {
    if k in m then Some(m[k]) else None
  }

  function Min(a: int, b: int): int
  {
    if a < b then a else b
  }
}
