/** The numpy operations the sampler uses on real vectors and on stacked blocks of rows. */
module Vectors {

  /** A parameter vector: one real per dimension. */
  type Vector = seq<real>

  /** A matrix as a sequence of rows. */
  type Matrix = seq<Vector>

  /** The zero vector of length d, as a row of `np.zeros`. */
  function Zeros(d: nat): (z: Vector)
  {
    seq(d, _ => 0.0)
  }

  function Min(a: real, b: real): real
  {
    if a <= b then a else b
  }

  function Max(a: real, b: real): real
  {
    if a >= b then a else b
  }

  /** Component-wise sum of two vectors of one length, numpy's `a + b`. */
  function Add(a: Vector, b: Vector): Vector
    requires |a| == |b|
  {
    seq(|a|, j requires 0 <= j < |a| => a[j] + b[j])
  }

  /** Every lower bound is at most its upper bound. */
  predicate Ordered(lo: Vector, hi: Vector)
  {
    |lo| == |hi| && forall j :: 0 <= j < |lo| ==> lo[j] <= hi[j]
  }

  /** x has the dimension of the box and lies inside it, component by component. */
  predicate InBox(x: Vector, lo: Vector, hi: Vector)
  {
    |x| == |lo| == |hi| && forall j :: 0 <= j < |x| ==> lo[j] <= x[j] <= hi[j]
  }

  /** A box that holds a point is not empty. */
  lemma InBoxOrdered(x: Vector, lo: Vector, hi: Vector)
    requires InBox(x, lo, hi)
    ensures Ordered(lo, hi)
  {
  }

  /** `np.clip(x, lo, hi)`, which is `np.minimum(np.maximum(x, lo), hi)` component by component. */
  function Clip(x: Vector, lo: Vector, hi: Vector): (c: Vector)
    requires |x| == |lo| == |hi|
    ensures |c| == |x|
  {
    seq(|x|, j requires 0 <= j < |x| => Min(Max(x[j], lo[j]), hi[j]))
  }

  /** The clipped point lies in the box whenever the box is not empty. */
  lemma ClipInBox(x: Vector, lo: Vector, hi: Vector)
    requires |x| == |lo| == |hi| && Ordered(lo, hi)
    ensures InBox(Clip(x, lo, hi), lo, hi)
  {
  }

  /** A point already in the box is left as it is. */
  lemma ClipInside(x: Vector, lo: Vector, hi: Vector)
    requires InBox(x, lo, hi)
    ensures Clip(x, lo, hi) == x
  {
    assert forall j :: 0 <= j < |x| ==> Clip(x, lo, hi)[j] == x[j];
  }

  /** Blocks of rows stacked one after the other, block 0 first: the layout numpy gives to
      `out[(i*n):((i+1)*n)] = block_i` for i = 0, 1, ... */
  function Concat<T>(blocks: seq<seq<T>>): seq<T>
  {
    if blocks == [] then [] else Concat(blocks[..|blocks| - 1]) + blocks[|blocks| - 1]
  }

  lemma MulSucc(i: int, n: int)
    ensures (i + 1) * n == i * n + n
  {
  }

  lemma {:induction false} MulMono(a: nat, b: nat, n: nat)
    requires a <= b
    ensures a * n <= b * n
    decreases b - a
  {
    if a < b {
      MulMono(a + 1, b, n);
      MulSucc(a, n);
    }
  }

  /** Stacking m blocks of n rows gives m*n rows. */
  lemma {:induction false} ConcatLength<T>(blocks: seq<seq<T>>, n: nat)
    requires forall k :: 0 <= k < |blocks| ==> |blocks[k]| == n
    ensures |Concat(blocks)| == |blocks| * n
  {
    if blocks != [] {
      var m := |blocks| - 1;
      ConcatLength(blocks[..m], n);
      MulSucc(m, n);
    }
  }

  /** Row r of block i sits at row i*n + r of the stack. */
  lemma {:induction false} ConcatBlock<T>(blocks: seq<seq<T>>, n: nat, i: nat, r: nat)
    requires forall k :: 0 <= k < |blocks| ==> |blocks[k]| == n
    requires i < |blocks| && r < n
    ensures |Concat(blocks)| == |blocks| * n
    ensures i * n + r < |Concat(blocks)| && Concat(blocks)[i * n + r] == blocks[i][r]
  {
    var m := |blocks| - 1;
    ConcatLength(blocks[..m], n);
    ConcatLength(blocks, n);
    MulSucc(i, n);
    MulMono(i + 1, |blocks|, n);
    if i < m {
      ConcatBlock(blocks[..m], n, i, r);
      MulMono(i + 1, m, n);
    }
  }

  /** Every row of the stack is row r of some block i, at position i*n + r. */
  lemma {:induction false} ConcatIndex<T>(blocks: seq<seq<T>>, n: nat, k: nat) returns (i: nat, r: nat)
    requires forall b :: 0 <= b < |blocks| ==> |blocks[b]| == n
    requires k < |Concat(blocks)|
    ensures i < |blocks| && r < n && k == i * n + r
  {
    var m := |blocks| - 1;
    ConcatLength(blocks[..m], n);
    if k < |Concat(blocks[..m])| {
      i, r := ConcatIndex(blocks[..m], n, k);
    } else {
      i, r := m, k - m * n;
    }
  }
}
