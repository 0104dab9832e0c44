/** Values that may be missing. */
module Wrappers {
  datatype Option<+T> = None | Some(value: T)

  /** Reading a Go map: a missing key yields the zero value. */
  function GetOr<K, V>(m: map<K, V>, k: K, zero: V): V {
    if k in m then m[k] else zero
  }
}
