/** Wrappers shared by the model: Java's nullable references
    become Option, and calls that may throw become Result. */
module Wrappers {

  /** A nullable value: None stands for Java's null. */
  datatype Option<+T> = None | Some(value: T)

  /** The outcome of a call that may throw: Failure carries the exception message. */
  datatype Result<+T, +E> = Success(value: T) | Failure(error: E)

  /** HashMap.get on a map whose values may be null: an absent key and a key
      mapped to null both read as None. */
  function Lookup<K, V>(m: map<K, Option<V>>, k: K): (r: Option<V>)
    ensures k in m ==> r == m[k]
    ensures k !in m ==> r.None?
  {
    if k in m then m[k] else None
  }

  /** Map.get on a map without null values. */
  function Get<K, V>(m: map<K, V>, k: K): (r: Option<V>)
    ensures r.Some? <==> k in m
    ensures r.Some? ==> r.value == m[k]
  {
    if k in m then Some(m[k]) else None
  }
}
