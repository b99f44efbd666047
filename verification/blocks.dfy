/** The shape every SIMD variant shares: `n / W` blocks of `W` lanes followed
    by a scalar tail over the remainder, and the element-wise reference that
    all variants of one operation must agree with. */
module Blocks {

  /** `ys` holds `f` of each element of `xs`, in order, and nothing more. */
  ghost predicate Pointwise<A, B>(f: A -> B, xs: seq<A>, ys: seq<B>)
  {
    |ys| == |xs| && forall i :: 0 <= i < |xs| ==> ys[i] == f(xs[i])
  }

  /** Appending a correctly computed block keeps a correctly computed prefix. */
  lemma PointwiseAppend<A, B>(f: A -> B, xs: seq<A>, ys: seq<B>, xs': seq<A>, ys': seq<B>)
    requires Pointwise(f, xs, ys) && Pointwise(f, xs', ys')
    ensures Pointwise(f, xs + xs', ys + ys')
  {
  }

  /** The reference output is unique: two outputs meeting it are equal. */
  lemma PointwiseUnique<A, B>(f: A -> B, xs: seq<A>, ys: seq<B>, ys': seq<B>)
    requires Pointwise(f, xs, ys) && Pointwise(f, xs, ys')
    ensures ys == ys'
  {
  }

  /** Memory after writing `vals` at `offset`: the written slots hold `vals`,
      every other slot keeps its old contents. */
  function Store<T>(mem: seq<T>, offset: nat, vals: seq<T>): (r: seq<T>)
    requires offset + |vals| <= |mem|
    ensures |r| == |mem|
    ensures forall i :: 0 <= i < |mem| ==>
              r[i] == if offset <= i < offset + |vals| then vals[i - offset] else mem[i]
  {
    mem[..offset] + vals + mem[offset + |vals|..]
  }

  /** The indices `[from, from + count)` in increasing order. */
  function Range(from: nat, count: nat): (r: seq<nat>)
    ensures |r| == count
    ensures forall j :: 0 <= j < count ==> r[j] == from + j
  {
    seq(count, j requires 0 <= j < count => from + j)
  }

  /** The indices the block loop touches after `blocks` iterations of width `w`. */
  function BlockIndices(w: nat, blocks: nat): seq<nat>
  {
    if blocks == 0 then [] else BlockIndices(w, blocks - 1) + Range(w * (blocks - 1), w)
  }

  /** Every index a block-plus-tail kernel touches, in the order it touches
      them: `n / w` blocks, then the tail restarting at `w * (n / w)`. */
  function Schedule(n: nat, w: nat): seq<nat>
    requires w > 0
  {
    var blocks := n / w;
    BlockIndices(w, blocks) + Range(w * blocks, n - w * blocks)
  }

  lemma {:induction false} BlockIndicesSequential(w: nat, blocks: nat)
    ensures BlockIndices(w, blocks) == Range(0, w * blocks)
  {
    if blocks > 0 {
      BlockIndicesSequential(w, blocks - 1);
      assert w * blocks == w * (blocks - 1) + w;
      assert Range(0, w * (blocks - 1)) + Range(w * (blocks - 1), w) == Range(0, w * blocks);
    }
  }

  /** Block count plus tail covers `[0, n)` exactly once and in order: the
      schedule is the identity enumeration of `[0, n)`. */
  lemma ScheduleCoversOnce(n: nat, w: nat)
    requires w > 0
    ensures Schedule(n, w) == Range(0, n)
    ensures w * (n / w) <= n && n - w * (n / w) < w
  {
    BlockIndicesSequential(w, n / w);
    assert Range(0, w * (n / w)) + Range(w * (n / w), n - w * (n / w)) == Range(0, n);
  }
}
