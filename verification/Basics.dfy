/** Small shared vocabulary: optional values and identifiers. */
module Basics {

  datatype Option<+T> = None | Some(value: T)

  /** The outcome of handling a message: `Failed` when the source throws, so that nothing is committed. */
  datatype Result<+T> = Ok(value: T) | Failed

  /** UUIDs, key ids and other opaque identifiers of the platform. */
  type Id = string

  function Lookup<K, V>(m: map<K, V>, k: K): Option<V> {
    if k in m then Some(m[k]) else None
  }

  function ToSet<T>(s: seq<T>): set<T> {
    set x | x in s
  }

  function ToSeq<T>(x: Option<T>): seq<T> {
    if x.Some? then [x.value] else []
  }

  predicate Distinct<T(==)>(s: seq<T>) {
    forall i, j | 0 <= i < j < |s| :: s[i] != s[j]
  }

  /** How a database transaction ended. */
  datatype Transaction = Committed | Aborted
}
