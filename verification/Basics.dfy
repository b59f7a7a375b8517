/** Small shared vocabulary: optional values and the three ways a durable write can end. */
module Basics {
  datatype Option<+T> = None | Some(value: T)

  /** A save either lands, or reports an error and leaves the old or the new content behind. */
  datatype Write = Landed | FailedOld | FailedNew

  predicate Stored(w: Write) { !w.FailedOld? }

  /** Content of a durable map after an attempt to write `v` under `k`. */
  function Save<K, V>(disk: map<K, V>, k: K, v: V, w: Write): map<K, V> {
    if Stored(w) then disk[k := v] else disk
  }

  /** No value occurs twice. */
  ghost predicate Distinct<T>(s: seq<T>) {
    forall i, j :: 0 <= i < j < |s| ==> s[i] != s[j]
  }

  lemma DistinctSnoc<T>(s: seq<T>, x: T)
    requires Distinct(s) && x !in s
    ensures Distinct(s + [x])
  {
  }
}
