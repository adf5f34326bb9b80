/**
 * Shapes and shared tensors. A tensor descriptor is a list of
 * dimensions whose element count is their product; a shared tensor
 * owns a native memory buffer of exactly that many elements. Tensors
 * are shared between layers by reference (the `Arc<RwLock<..>>`
 * handles of the source), so they are objects here.
 */
module Tensors {
  type Shape = seq<nat>

  /** Element count of a descriptor: the product of its dimensions (1 for the empty shape). */
  function Size(shape: Shape): nat
  {
    if |shape| == 0 then 1 else Size(shape[..|shape| - 1]) * shape[|shape| - 1]
  }

  lemma {:induction false} SizeAppend(a: Shape, b: Shape)
    ensures Size(a + b) == Size(a) * Size(b)
    decreases |b|
  {
    if |b| == 0 {
      assert a + b == a;
    } else {
      var last := |b| - 1;
      assert (a + b)[..|a + b| - 1] == a + b[..last];
      SizeAppend(a, b[..last]);
    }
  }

  lemma SizeCons(d: nat, rest: Shape)
    ensures Size([d] + rest) == d * Size(rest)
  {
    SizeAppend([d], rest);
    assert [d][..0] == [];
  }

  lemma SizePair(a: nat, b: nat)
    ensures Size([a, b]) == a * b
  {
    assert [a, b][..1] == [a];
    assert [a][..0] == [];
    assert Size([a]) == Size([]) * a;
    assert Size([a, b]) == Size([a]) * b;
  }

  /** The first `k` dimensions (all of them when there are fewer), as `iter().take(k)`. */
  function Take(shape: Shape, k: nat): (r: Shape)
    ensures r + Drop(shape, k) == shape
  {
    if k <= |shape| then shape[..k] else shape
  }

  /** The dimensions after the first `k` (none when there are fewer), as `iter().skip(k)`. */
  function Drop(shape: Shape, k: nat): Shape
  {
    if k <= |shape| then shape[k..] else []
  }

  /** The tensor at index 0 of a list of tensor handles, as a frame (empty for an empty list). */
  function Head(ts: seq<SharedTensor>): set<SharedTensor>
  {
    if |ts| == 0 then {} else {ts[0]}
  }

  class SharedTensor {
    var desc: Shape
    var mem: array<real>

    ghost predicate Valid()
      reads this
    {
      mem.Length == Size(desc)
    }

    /** `SharedTensor::new(&shape)`: a fresh native buffer sized for `shape`, contents unspecified. */
    constructor (shape: Shape)
      ensures desc == shape && Valid() && fresh(mem)
    {
      desc := shape;
      mem := new real[Size(shape)];
    }

    /** `resize`: a new descriptor and a freshly allocated buffer of its size; the old contents are dropped. */
    method Resize(shape: Shape)
      modifies this
      ensures desc == shape && Valid() && fresh(mem)
    {
      desc := shape;
      mem := new real[Size(shape)];
    }
  }
}
