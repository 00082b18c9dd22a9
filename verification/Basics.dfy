/** Identifiers shared by every part of the model. */
module Basics {

  datatype Option<+T> = None | Some(value: T)

  /** A Socket.IO session id. */
  datatype Sid = Sid(id: nat)

  /** A client address. */
  datatype Ip = Ip(id: nat)

  /** An access code after `strip().upper()`; `Blank` is the empty string. */
  datatype Code = Blank | Code(id: nat)

  function Lookup<K, V>(m: map<K, V>, k: K): Option<V> {
    if k in m then Some(m[k]) else None
  }

  lemma Regroup<T>(x: seq<T>, y: seq<T>, z: seq<T>)
    ensures x + (y + z) == x + y + z
  {
  }
}
