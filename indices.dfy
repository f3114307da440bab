/** Facts about positions in sequences, shared by the modules that filter or concatenate them. */
module Indices {
  /** Appending an index above all others keeps a list of indices strictly increasing. */
  lemma {:induction false} IncreasingSnoc(idx: seq<nat>, top: nat)
    requires forall k, l :: 0 <= k < l < |idx| ==> idx[k] < idx[l]
    requires forall k :: 0 <= k < |idx| ==> idx[k] < top
    ensures forall k, l :: 0 <= k < l < |idx| + 1 ==> (idx + [top])[k] < (idx + [top])[l]
  {
  }

  /** Indexing past the first part of a concatenation indexes the second. */
  lemma {:induction false} AppendIndex<T>(head: seq<T>, tail: seq<T>, k: int)
    requires 0 <= k < |tail|
    ensures (head + tail)[|head| + k] == tail[k]
  {
  }

  /** Indexing within the first part of a concatenation indexes that part. */
  lemma {:induction false} AppendIndexFront<T>(head: seq<T>, tail: seq<T>, p: int)
    requires 0 <= p < |head|
    ensures (head + tail)[p] == head[p]
  {
  }
}
