/**
 * Concatenation of a sequence of sequences, the model of the
 * `flat_map` the sequential container uses to expose its children's
 * weights, and of the index arithmetic it implies.
 */
module Seqs {
  /** Concatenation is associative; stated once so that callers need not rebuild it element by element. */
  lemma AppendAssoc<T>(a: seq<T>, b: seq<T>, c: seq<T>)
    ensures a + (b + c) == (a + b) + c
  {
  }

  /** `n` copies of `x`. */
  function Repeat<T>(x: T, n: nat): (r: seq<T>)
    ensures |r| == n && forall i :: 0 <= i < n ==> r[i] == x
  {
    if n == 0 then [] else Repeat(x, n - 1) + [x]
  }

  function Flatten<T>(parts: seq<seq<T>>): (r: seq<T>)
    ensures |r| == TotalLength(parts)
  {
    if |parts| == 0 then [] else Flatten(parts[..|parts| - 1]) + parts[|parts| - 1]
  }

  function TotalLength<T>(parts: seq<seq<T>>): nat
  {
    if |parts| == 0 then 0 else TotalLength(parts[..|parts| - 1]) + |parts[|parts| - 1]|
  }

  /** Where part `k` starts in `Flatten(parts)`: the lengths of the parts before it. */
  function Offset<T>(parts: seq<seq<T>>, k: nat): nat
    requires k <= |parts|
  {
    TotalLength(parts[..k])
  }

  lemma {:induction false} FlattenAt<T>(parts: seq<seq<T>>, k: nat, j: nat)
    requires k < |parts| && j < |parts[k]|
    ensures Offset(parts, k) + j < |Flatten(parts)|
    ensures Flatten(parts)[Offset(parts, k) + j] == parts[k][j]
    decreases |parts|
  {
    var last := |parts| - 1;
    var init := parts[..last];
    assert parts[..last + 1] == parts;
    if k == last {
      assert init == parts[..k];
    } else {
      assert init[..k] == parts[..k];
      FlattenAt(init, k, j);
      OffsetBelowTotal(init, k);
    }
  }

  lemma {:induction false} OffsetBelowTotal<T>(parts: seq<seq<T>>, k: nat)
    requires k <= |parts|
    ensures Offset(parts, k) <= TotalLength(parts)
    decreases |parts|
  {
    if k < |parts| {
      var last := |parts| - 1;
      assert parts[..last][..k] == parts[..k];
      if k < last {
        OffsetBelowTotal(parts[..last], k);
      } else {
        assert parts[..k] == parts[..last];
      }
    } else {
      assert parts[..k] == parts;
    }
  }
}
