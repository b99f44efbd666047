/** `volk_16ic_s32f_deinterleave_32f_x2`: split a vector of `lv_16sc_t`
    samples into a buffer of in-phase and a buffer of quadrature floats, each
    divided by `scalar`. The kernels read the samples through an `int16_t*`,
    so sample `k` is the pair of shorts at positions `2k` and `2k + 1`. */
module Deinterleave {
  import opened Lanes
  import opened Complex
  import opened X86
  import Neon

  /** The reference: `iBuffer[k]` is the real part of sample `k` over
      `scalar`, `qBuffer[k]` its imaginary part over `scalar`. */
  ghost predicate Deinterleaved(zs: seq<Complex16>, scalar: real, iBuffer: seq<real>, qBuffer: seq<real>)
    requires scalar != 0.0
  {
    |iBuffer| == |zs| && |qBuffer| == |zs| &&
    forall k :: 0 <= k < |zs| ==>
      iBuffer[k] == Over(zs[k].re, scalar) && qBuffer[k] == Over(zs[k].im, scalar)
  }

  /** `(float)x / scalar`, the value every variant stores for one short. */
  function Over(x: int, scalar: real): real
    requires scalar != 0.0
  {
    x as real / scalar
  }

  /** The inverse: scaling the two buffers back by `scalar` and interleaving
      them gives the input shorts, so nothing is lost, reordered or
      duplicated. */
  lemma Reinterleave(zs: seq<Complex16>, scalar: real, iBuffer: seq<real>, qBuffer: seq<real>)
    requires scalar != 0.0
    requires Deinterleaved(zs, scalar, iBuffer, qBuffer)
    ensures Neon.Vst2(Scaled(iBuffer, scalar), Scaled(qBuffer, scalar)) == ShortsAsReals(Flatten16(zs))
  {
    var f := Flatten16(zs);
    var r := Neon.Vst2(Scaled(iBuffer, scalar), Scaled(qBuffer, scalar));
    forall i | 0 <= i < |f|
      ensures r[i] == f[i] as real
    {
      var k := i / 2;
      if i % 2 == 0 {
        assert i == 2 * k;
        Unscale(zs[k].re, scalar);
      } else {
        assert i == 2 * k + 1;
        Unscale(zs[k].im, scalar);
      }
    }
  }

  lemma Unscale(x: int, scalar: real)
    requires scalar != 0.0
    ensures Over(x, scalar) * scalar == x as real
  {
  }

  function Scaled(v: seq<real>, scalar: real): (r: seq<real>)
    ensures |r| == |v|
    ensures forall i :: 0 <= i < |v| ==> r[i] == v[i] * scalar
  {
    seq(|v|, i requires 0 <= i < |v| => v[i] * scalar)
  }

  function ShortsAsReals(v: seq<int>): (r: seq<real>)
    ensures |r| == |v|
    ensures forall i :: 0 <= i < |v| ==> r[i] == v[i] as real
  {
    seq(|v|, i requires 0 <= i < |v| => v[i] as real)
  }

  /** Multiplying by the broadcast `1 / scalar` is dividing by `scalar`. */
  lemma InverseScale(x: real, scalar: real)
    requires scalar != 0.0
    ensures x * (1.0 / scalar) == x / scalar
  {
  }

  // ---- The lane shuffles ----

  /** `_mm_shuffle_ps(c1, c2, _MM_SHUFFLE(2, 0, 2, 0))` and `(3, 1, 3, 1)`
      over two registers of two interleaved samples each give the four
      in-phase and the four quadrature values in order. */
  lemma SseShuffleSplits<T>(c1: seq<T>, c2: seq<T>)
    requires |c1| == 4 && |c2| == 4
    ensures forall j :: 0 <= j < 4 ==> ShufflePs(c1, c2, MmShuffle(2, 0, 2, 0))[j] == (c1 + c2)[2 * j]
    ensures forall j :: 0 <= j < 4 ==> ShufflePs(c1, c2, MmShuffle(3, 1, 3, 1))[j] == (c1 + c2)[2 * j + 1]
  {
  }

  /** The AVX2 index vector `_mm256_set_epi32(7, 6, 3, 2, 5, 4, 1, 0)`. */
  function Idx(): (idx: seq<int>)
    ensures idx == [0, 1, 4, 5, 2, 3, 6, 7]
  {
    SetEpi32(7, 6, 3, 2, 5, 4, 1, 0)
  }

  /** The 256-bit shuffle works in each 128-bit lane, leaving the in-phase
      values as `i0 i1 i4 i5 | i2 i3 i6 i7`; `permutevar8x32` with `Idx()`
      moves them back to `i0 .. i7`. */
  lemma Avx2ShuffleSplitsEven<T>(c1: seq<T>, c2: seq<T>)
    requires |c1| == 8 && |c2| == 8
    ensures Shuffle256Ps(c1, c2, MmShuffle(2, 0, 2, 0))
            == [c1[0], c1[2], c2[0], c2[2], c1[4], c1[6], c2[4], c2[6]]
    ensures forall j :: 0 <= j < 8 ==>
              PermuteVar8x32(Shuffle256Ps(c1, c2, MmShuffle(2, 0, 2, 0)), Idx())[j] == (c1 + c2)[2 * j]
  {
    var s := Shuffle256Ps(c1, c2, MmShuffle(2, 0, 2, 0));
    var p := PermuteVar8x32(s, Idx());
    assert s == [c1[0], c1[2], c2[0], c2[2], c1[4], c1[6], c2[4], c2[6]];
    assert p == [s[0], s[1], s[4], s[5], s[2], s[3], s[6], s[7]];
  }

  /** The same for the quadrature values with `_MM_SHUFFLE(3, 1, 3, 1)`. */
  lemma Avx2ShuffleSplitsOdd<T>(c1: seq<T>, c2: seq<T>)
    requires |c1| == 8 && |c2| == 8
    ensures Shuffle256Ps(c1, c2, MmShuffle(3, 1, 3, 1))
            == [c1[1], c1[3], c2[1], c2[3], c1[5], c1[7], c2[5], c2[7]]
    ensures forall j :: 0 <= j < 8 ==>
              PermuteVar8x32(Shuffle256Ps(c1, c2, MmShuffle(3, 1, 3, 1)), Idx())[j] == (c1 + c2)[2 * j + 1]
  {
    var s := Shuffle256Ps(c1, c2, MmShuffle(3, 1, 3, 1));
    var p := PermuteVar8x32(s, Idx());
    assert s == [c1[1], c1[3], c2[1], c2[3], c1[5], c1[7], c2[5], c2[7]];
    assert p == [s[0], s[1], s[4], s[5], s[2], s[3], s[6], s[7]];
  }

  // ---- One block of each variant ----

  /** The block contract: `w` samples given as `2w` interleaved shorts, split
      and divided by `scalar`. */
  ghost predicate SplitBlock(shorts: seq<int>, scalar: real, iv: seq<real>, qv: seq<real>)
    requires scalar != 0.0
  {
    |shorts| == 2 * |iv| && |qv| == |iv| &&
    forall j :: 0 <= j < |iv| ==>
      iv[j] == Over(shorts[2 * j], scalar) && qv[j] == Over(shorts[2 * j + 1], scalar)
  }

  /** Shorts converted to floats and multiplied by the broadcast
      `1 / scalar`: lane `i` is `shorts[i] / scalar`. */
  function ScaleLanes(shorts: seq<int>, scalar: real): (c: seq<real>)
    requires scalar != 0.0
    ensures |c| == |shorts|
    ensures forall i :: 0 <= i < |shorts| ==> c[i] == Over(shorts[i], scalar)
  {
    var c := MulPs(CvtEpi32Ps(shorts), Set1(1.0 / scalar, |shorts|));
    assert forall i :: 0 <= i < |shorts| ==> c[i] == shorts[i] as real * (1.0 / scalar);
    forall i | 0 <= i < |shorts|
      ensures c[i] == Over(shorts[i], scalar)
    {
      InverseScale(shorts[i] as real, scalar);
    }
    c
  }

  /** One `_a_sse` block: eight shorts through `floatBuffer`, two registers,
      two shuffles. */
  function SseBlock(shorts: seq<int>, scalar: real): (r: (seq<real>, seq<real>))
    requires |shorts| == 8 && scalar != 0.0
    ensures |r.0| == 4 && SplitBlock(shorts, scalar, r.0, r.1)
  {
    var floatBuffer := shorts;
    var c1 := ScaleLanes(floatBuffer[0..4], scalar);
    var c2 := ScaleLanes(floatBuffer[4..8], scalar);
    SseShuffleSplits(c1, c2);
    assert c1 + c2 == ScaleLanes(shorts, scalar);
    (ShufflePs(c1, c2, MmShuffle(2, 0, 2, 0)), ShufflePs(c1, c2, MmShuffle(3, 1, 3, 1)))
  }

  /** One `_u_avx2` / `_a_avx2` block: sixteen shorts, the two 128-bit halves
      widened to eight int32 lanes each, converted, scaled, shuffled and
      permuted. */
  function Avx2Block(shorts: seq<int>, scalar: real): (r: (seq<real>, seq<real>))
    requires |shorts| == 16 && scalar != 0.0
    ensures |r.0| == 8 && SplitBlock(shorts, scalar, r.0, r.1)
  {
    var c1 := ScaleLanes(CvtEpi16Epi32(ExtractI128(shorts, 0)), scalar);
    var c2 := ScaleLanes(CvtEpi16Epi32(ExtractI128(shorts, 1)), scalar);
    assert c1 + c2 == ScaleLanes(shorts, scalar);
    Avx2ShuffleSplitsEven(c1, c2);
    Avx2ShuffleSplitsOdd(c1, c2);
    (PermuteVar8x32(Shuffle256Ps(c1, c2, MmShuffle(2, 0, 2, 0)), Idx()),
     PermuteVar8x32(Shuffle256Ps(c1, c2, MmShuffle(3, 1, 3, 1)), Idx()))
  }

  /** One `_neon` block: `vld2_s16` splits eight shorts into four in-phase
      and four quadrature lanes, which are widened, converted and scaled. */
  function NeonBlock(shorts: seq<int>, scalar: real): (r: (seq<real>, seq<real>))
    requires |shorts| == 8 && scalar != 0.0
    ensures |r.0| == 4 && SplitBlock(shorts, scalar, r.0, r.1)
  {
    var s16 := Neon.Vld2(shorts);
    var invScalar := Neon.Vdupq(1.0 / scalar);
    var i := Neon.Vmulq(Neon.VcvtqF32S32(Neon.Vmovl(s16.0)), invScalar);
    var q := Neon.Vmulq(Neon.VcvtqF32S32(Neon.Vmovl(s16.1)), invScalar);
    forall j | 0 <= j < 4
      ensures i[j] == Over(shorts[2 * j], scalar) && q[j] == Over(shorts[2 * j + 1], scalar)
    {
      InverseScale(shorts[2 * j] as real, scalar);
      InverseScale(shorts[2 * j + 1] as real, scalar);
    }
    (i, q)
  }

  // ---- The variants ----

  /** A block's output appended to a correct prefix gives a correct longer
      prefix: the block read shorts `2 * number .. 2 * (number + w)`, which
      are samples `number .. number + w`. */
  lemma AppendBlock(zs: seq<Complex16>, scalar: real, number: nat, w: nat,
                    iBuffer: seq<real>, qBuffer: seq<real>, iv: seq<real>, qv: seq<real>)
    requires scalar != 0.0 && number + w <= |zs| && |iv| == w
    requires Deinterleaved(zs[..number], scalar, iBuffer, qBuffer)
    requires SplitBlock(Flatten16(zs)[2 * number..2 * (number + w)], scalar, iv, qv)
    ensures Deinterleaved(zs[..number + w], scalar, iBuffer + iv, qBuffer + qv)
  {
    BlockSamples(zs, scalar, number, w, iv, qv);
    DeinterleavedAppend(zs[..number], zs[number..number + w], scalar, iBuffer, qBuffer, iv, qv);
    assert zs[..number + w] == zs[..number] + zs[number..number + w];
  }

  /** The shorts of samples `number .. number + w` are the slice
      `2 * number .. 2 * (number + w)` of the flattened vector. */
  lemma BlockSamples(zs: seq<Complex16>, scalar: real, number: nat, w: nat, iv: seq<real>, qv: seq<real>)
    requires scalar != 0.0 && number + w <= |zs| && |iv| == w
    requires SplitBlock(Flatten16(zs)[2 * number..2 * (number + w)], scalar, iv, qv)
    ensures Deinterleaved(zs[number..number + w], scalar, iv, qv)
  {
    var f := Flatten16(zs);
    var shorts := f[2 * number..2 * (number + w)];
    var block := zs[number..number + w];
    forall j | 0 <= j < w
      ensures shorts[2 * j] == block[j].re && shorts[2 * j + 1] == block[j].im
    {
      Flatten16At(zs, number + j);
      assert shorts[2 * j] == f[2 * (number + j)];
      assert shorts[2 * j + 1] == f[2 * (number + j) + 1];
    }
  }

  /** Deinterleaving distributes over concatenation. */
  lemma DeinterleavedAppend(xs: seq<Complex16>, ys: seq<Complex16>, scalar: real,
                            i1: seq<real>, q1: seq<real>, i2: seq<real>, q2: seq<real>)
    requires scalar != 0.0
    requires Deinterleaved(xs, scalar, i1, q1) && Deinterleaved(ys, scalar, i2, q2)
    ensures Deinterleaved(xs + ys, scalar, i1 + i2, q1 + q2)
  {
  }

  /** `_generic`: one sample per step. */
  method Generic(complexVector: seq<Complex16>, scalar: real) returns (iBuffer: seq<real>, qBuffer: seq<real>)
    requires scalar != 0.0
    ensures Deinterleaved(complexVector, scalar, iBuffer, qBuffer)
  {
    iBuffer, qBuffer := Tail(complexVector, scalar, 0, [], []);
  }

  /** The scalar loop every variant ends with. The pointer restarts at
      `complexVector[number]`, i.e. at short `2 * number`. */
  method Tail(complexVector: seq<Complex16>, scalar: real, number: nat, iDone: seq<real>, qDone: seq<real>)
    returns (iBuffer: seq<real>, qBuffer: seq<real>)
    requires scalar != 0.0 && number <= |complexVector|
    requires Deinterleaved(complexVector[..number], scalar, iDone, qDone)
    ensures Deinterleaved(complexVector, scalar, iBuffer, qBuffer)
  {
    var complexVectorPtr := Flatten16(complexVector);
    iBuffer, qBuffer := iDone, qDone;
    var k := number;
    while k < |complexVector|
      invariant number <= k <= |complexVector|
      invariant Deinterleaved(complexVector[..k], scalar, iBuffer, qBuffer)
    {
      var iv := [complexVectorPtr[2 * k] as real / scalar];
      var qv := [complexVectorPtr[2 * k + 1] as real / scalar];
      assert iv[0] == Over(complexVectorPtr[2 * k], scalar);
      AppendBlock(complexVector, scalar, k, 1, iBuffer, qBuffer, iv, qv);
      iBuffer, qBuffer := iBuffer + iv, qBuffer + qv;
      k := k + 1;
    }
    assert complexVector[..k] == complexVector;
  }

  /** One `_a_sse` iteration: the block at `complexVectorPtr + 2 * number`
      extends a correct prefix by four samples. */
  method SseStep(complexVector: seq<Complex16>, scalar: real, number: nat, iDone: seq<real>, qDone: seq<real>)
    returns (iBuffer: seq<real>, qBuffer: seq<real>)
    requires scalar != 0.0 && number + 4 <= |complexVector|
    requires Deinterleaved(complexVector[..number], scalar, iDone, qDone)
    ensures Deinterleaved(complexVector[..number + 4], scalar, iBuffer, qBuffer)
  {
    var complexVectorPtr := Flatten16(complexVector);
    var r := SseBlock(complexVectorPtr[2 * number..2 * number + 8], scalar);
    AppendBlock(complexVector, scalar, number, 4, iDone, qDone, r.0, r.1);
    iBuffer, qBuffer := iDone + r.0, qDone + r.1;
  }

  /** One AVX2 iteration: eight more samples. */
  method Avx2Step(complexVector: seq<Complex16>, scalar: real, number: nat, iDone: seq<real>, qDone: seq<real>)
    returns (iBuffer: seq<real>, qBuffer: seq<real>)
    requires scalar != 0.0 && number + 8 <= |complexVector|
    requires Deinterleaved(complexVector[..number], scalar, iDone, qDone)
    ensures Deinterleaved(complexVector[..number + 8], scalar, iBuffer, qBuffer)
  {
    var complexVectorPtr := Flatten16(complexVector);
    var r := Avx2Block(complexVectorPtr[2 * number..2 * number + 16], scalar);
    AppendBlock(complexVector, scalar, number, 8, iDone, qDone, r.0, r.1);
    iBuffer, qBuffer := iDone + r.0, qDone + r.1;
  }

  /** One `_neon` iteration: four more samples. */
  method NeonStep(complexVector: seq<Complex16>, scalar: real, number: nat, iDone: seq<real>, qDone: seq<real>)
    returns (iBuffer: seq<real>, qBuffer: seq<real>)
    requires scalar != 0.0 && number + 4 <= |complexVector|
    requires Deinterleaved(complexVector[..number], scalar, iDone, qDone)
    ensures Deinterleaved(complexVector[..number + 4], scalar, iBuffer, qBuffer)
  {
    var complexVectorPtr := Flatten16(complexVector);
    var r := NeonBlock(complexVectorPtr[2 * number..2 * number + 8], scalar);
    AppendBlock(complexVector, scalar, number, 4, iDone, qDone, r.0, r.1);
    iBuffer, qBuffer := iDone + r.0, qDone + r.1;
  }

  /** `_a_sse`: blocks of four samples, then the tail. */
  method Sse(complexVector: seq<Complex16>, scalar: real) returns (iBuffer: seq<real>, qBuffer: seq<real>)
    requires scalar != 0.0
    ensures Deinterleaved(complexVector, scalar, iBuffer, qBuffer)
  {
    var quarterPoints := |complexVector| / 4;
    iBuffer, qBuffer := [], [];
    var number := 0;
    while number < quarterPoints
      invariant number <= quarterPoints
      invariant Deinterleaved(complexVector[..4 * number], scalar, iBuffer, qBuffer)
    {
      iBuffer, qBuffer := SseStep(complexVector, scalar, 4 * number, iBuffer, qBuffer);
      number := number + 1;
    }
    iBuffer, qBuffer := Tail(complexVector, scalar, quarterPoints * 4, iBuffer, qBuffer);
  }

  /** `_a_avx2` and `_u_avx2`: blocks of eight samples, then the tail. */
  method Avx2(complexVector: seq<Complex16>, scalar: real) returns (iBuffer: seq<real>, qBuffer: seq<real>)
    requires scalar != 0.0
    ensures Deinterleaved(complexVector, scalar, iBuffer, qBuffer)
  {
    var eighthPoints := |complexVector| / 8;
    iBuffer, qBuffer := [], [];
    var number := 0;
    while number < eighthPoints
      invariant number <= eighthPoints
      invariant Deinterleaved(complexVector[..8 * number], scalar, iBuffer, qBuffer)
    {
      iBuffer, qBuffer := Avx2Step(complexVector, scalar, 8 * number, iBuffer, qBuffer);
      number := number + 1;
    }
    iBuffer, qBuffer := Tail(complexVector, scalar, eighthPoints * 8, iBuffer, qBuffer);
  }

  /** `_neon`: blocks of four samples (the source names the count
      `eighth_points` but computes `num_points / 4`), then the tail. */
  method NeonVariant(complexVector: seq<Complex16>, scalar: real) returns (iBuffer: seq<real>, qBuffer: seq<real>)
    requires scalar != 0.0
    ensures Deinterleaved(complexVector, scalar, iBuffer, qBuffer)
  {
    var eighthPoints := |complexVector| / 4;
    iBuffer, qBuffer := [], [];
    var number := 0;
    while number < eighthPoints
      invariant number <= eighthPoints
      invariant Deinterleaved(complexVector[..4 * number], scalar, iBuffer, qBuffer)
    {
      iBuffer, qBuffer := NeonStep(complexVector, scalar, 4 * number, iBuffer, qBuffer);
      number := number + 1;
    }
    iBuffer, qBuffer := Tail(complexVector, scalar, eighthPoints * 4, iBuffer, qBuffer);
  }
}
