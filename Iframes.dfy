/**
 * Frames buffers and the vectors of buffer pointers that nodes pass
 * between each other (src/audiolib/Iframes.cpp).
 *
 * A frames buffer is one channel of samples; samples are modelled as
 * `real`. `IframesVector` owns the buffers it allocates, while a
 * `ConstIframesVector` only aliases buffers that belong to someone else.
 */
module Iframes {

  /** One channel of `Length` samples. */
  type Frames = array<real>

  /** A pointer to a buffer that may be NULL. */
  type FramesPtr = array?<real>

  predicate Silent(f: Frames)
    reads f
  {
    forall k :: 0 <= k < f.Length ==> f[k] == 0.0
  }

  /** `new Iframes(0.0, block_size, 1)`: a fresh, zero-filled, one-channel buffer. */
  method NewFrames(blockSize: nat) returns (f: Frames)
    ensures fresh(f) && f.Length == blockSize && Silent(f)
  {
    f := new real[blockSize](_ => 0.0);
  }

  /** The entries of `v` are pairwise distinct buffers. */
  predicate Distinct<T(==)>(v: seq<T>) {
    forall i, j :: 0 <= i < j < |v| ==> v[i] != v[j]
  }

  /**
   * `IframesVector(size, block_size, sample_rate)` as written: the base
   * `std::vector` is built with `size` NULL entries, and the loop then
   * pushes `size` fresh buffers behind them. `sample_rate` is unused.
   */
  method NewIframesVectorAsWritten(size: nat, blockSize: nat, sampleRate: real) returns (v: seq<FramesPtr>)
    ensures |v| == 2 * size
    ensures forall k :: 0 <= k < size ==> v[k] == null
    ensures forall k :: size <= k < 2 * size ==>
              v[k] != null && fresh(v[k]) && v[k].Length == blockSize && Silent(v[k])
    ensures forall i, j :: size <= i < j < 2 * size ==> v[i] != v[j]
  {
    v := seq(size, _ => null);
    var i := 0;
    while i < size
      invariant 0 <= i <= size
      invariant |v| == size + i
      invariant forall k :: 0 <= k < size ==> v[k] == null
      invariant forall k :: size <= k < size + i ==>
                  v[k] != null && fresh(v[k]) && v[k].Length == blockSize && Silent(v[k])
      invariant forall a, b :: size <= a < b < size + i ==> v[a] != v[b]
    {
      var f := NewFrames(blockSize);
      v := v + [f];
      i := i + 1;
    }
  }

  /**
   * `IframesVector` as its callers use it (the adder's single output
   * buffer is entry 0): `size` fresh, distinct, zero-filled buffers and
   * nothing else.
   */
  method NewIframesVector(size: nat, blockSize: nat, sampleRate: real) returns (v: seq<Frames>)
    ensures |v| == size && Distinct(v)
    ensures forall k :: 0 <= k < size ==> fresh(v[k]) && v[k].Length == blockSize && Silent(v[k])
  {
    v := [];
    var i := 0;
    while i < size
      invariant 0 <= i <= size
      invariant |v| == i && Distinct(v)
      invariant forall k :: 0 <= k < i ==> fresh(v[k]) && v[k].Length == blockSize && Silent(v[k])
    {
      var f := NewFrames(blockSize);
      v := v + [f];
      i := i + 1;
    }
  }

  /**
   * `ConstIframesVector(other)`: a view of another vector, with the same
   * pointers in the same order; nothing is allocated.
   */
  function ConstView<T>(other: seq<T>): (r: seq<T>)
    ensures |r| == |other|
    ensures forall k :: 0 <= k < |r| ==> r[k] == other[k]
  {
    other
  }

  /**
   * `ConstIframesVector(size, default_value)`: `size` copies of one
   * pointer; nothing is allocated.
   */
  function Fill<T>(size: nat, d: T): (r: seq<T>)
    ensures |r| == size
    ensures forall k :: 0 <= k < size ==> r[k] == d
  {
    seq(size, _ => d)
  }

  /**
   * The defect as written: the vector meant for one buffer has two
   * entries, and the first, which the adder dereferences, is NULL.
   */
  method AdderBufferAsWritten(blockSize: nat) returns (v: seq<FramesPtr>)
    ensures |v| == 2 && v[0] == null && v[1] != null
  {
    v := NewIframesVectorAsWritten(1, blockSize, 0.0);
  }
}
