/** `volk_32fc_s32f_magnitude_16i`: the magnitude of each `lv_32fc_t`
    sample, times `scalar`, rounded to the nearest integer and stored as an
    `int16_t`. The square root is a parameter: `sqrtf` and `sqrt_ps` are both
    the correctly rounded square root, and every variant applies the same one
    lane by lane. */
module Magnitude16i {
  import opened Lanes
  import opened Complex
  import opened X86
  import opened SseIntrinsics

  /** The value the generic loop stores for one sample before the cast: an
      integer within one half of `sqrt(norm(z)) * scalar`. */
  function Magnitude(sqrt: real -> real, scalar: real, z: Complex): (r: int)
    ensures -(1.0 / 2.0) <= r as real - sqrt(NormSq(z)) * scalar <= 1.0 / 2.0
  {
    RintNearest(sqrt(NormSq(z)) * scalar);
    Round(sqrt, scalar, NormSq(z))
  }

  /** `rintf(scalar * sqrtf(normSq))`, named so that two lanes holding the
      same squared magnitude are seen to round alike. The product is written
      root first, the order of `mul_ps(sqrt_ps(result), vScalar)`; in exact
      arithmetic the order does not matter. */
  function Round(sqrt: real -> real, scalar: real, normSq: real): int
  {
    Rint(sqrt(normSq) * scalar)
  }

  /** A sample and its conjugate have the same magnitude. */
  lemma MagnitudeConj(sqrt: real -> real, scalar: real, z: Complex)
    ensures Magnitude(sqrt, scalar, Conj(z)) == Magnitude(sqrt, scalar, z)
  {
    NormSqConj(z);
  }

  /** The `(int16_t)` cast of a float outside the `int16_t` range is
      undefined in C, so the generic kernel is only defined on inputs whose
      every rounded magnitude fits. */
  ghost predicate Fits(sqrt: real -> real, scalar: real, zs: seq<Complex>)
  {
    forall k :: 0 <= k < |zs| ==> -32768 <= Magnitude(sqrt, scalar, zs[k]) <= 32767
  }

  /** The reference every variant meets: entry `k` is the rounded, scaled
      magnitude of sample `k`. */
  ghost predicate Magnitudes(sqrt: real -> real, scalar: real, zs: seq<Complex>, out: seq<Int16>)
  {
    |out| == |zs| && forall k :: 0 <= k < |zs| ==> out[k] as int == Magnitude(sqrt, scalar, zs[k])
  }

  lemma FitsSlice(sqrt: real -> real, scalar: real, zs: seq<Complex>, from: nat, to: nat)
    requires from <= to <= |zs| && Fits(sqrt, scalar, zs)
    ensures Fits(sqrt, scalar, zs[from..to])
  {
    assert forall k :: 0 <= k < to - from ==> zs[from..to][k] == zs[from + k];
  }

  lemma MagnitudesAppend(sqrt: real -> real, scalar: real, xs: seq<Complex>, ys: seq<Complex>,
                         out1: seq<Int16>, out2: seq<Int16>)
    requires Magnitudes(sqrt, scalar, xs, out1) && Magnitudes(sqrt, scalar, ys, out2)
    ensures Magnitudes(sqrt, scalar, xs + ys, out1 + out2)
  {
  }

  /** The rounded lanes of one block, narrowed to `int16_t` once they are
      known to fit. */
  function Narrow(sqrt: real -> real, scalar: real, zs: seq<Complex>, r: seq<int>): (out: seq<Int16>)
    requires |r| == |zs| && Fits(sqrt, scalar, zs)
    requires forall j :: 0 <= j < |zs| ==> r[j] == Magnitude(sqrt, scalar, zs[j])
    ensures Magnitudes(sqrt, scalar, zs, out)
  {
    seq(|r|, j requires 0 <= j < |r| => r[j] as Int16)
  }

  /** A lane holding |z|^2, square-rooted, multiplied by the broadcast
      `scalar` and rounded, is the generic value for `z`. */
  lemma RoundLanes(sqrt: real -> real, scalar: real, norms: seq<real>, zs: seq<Complex>)
    requires |norms| == |zs|
    requires forall j :: 0 <= j < |zs| ==> norms[j] == NormSq(zs[j])
    ensures forall j :: 0 <= j < |zs| ==>
              Rint(MulPs(SqrtPs(sqrt, norms), Set1(scalar, |zs|))[j]) == Magnitude(sqrt, scalar, zs[j])
  {
    forall j | 0 <= j < |zs|
      ensures Rint(MulPs(SqrtPs(sqrt, norms), Set1(scalar, |zs|))[j]) == Magnitude(sqrt, scalar, zs[j])
    {
      RoundLaneAt(sqrt, scalar, norms, zs, j);
    }
  }

  lemma RoundLaneAt(sqrt: real -> real, scalar: real, norms: seq<real>, zs: seq<Complex>, j: nat)
    requires |norms| == |zs| && j < |zs| && norms[j] == NormSq(zs[j])
    ensures Rint(MulPs(SqrtPs(sqrt, norms), Set1(scalar, |zs|))[j]) == Magnitude(sqrt, scalar, zs[j])
  {
    var root := SqrtPs(sqrt, norms);
    var scale := Set1(scalar, |zs|);
    var lane := MulPs(root, scale)[j];
    assert lane == root[j] * scale[j];
    RoundLane(sqrt, scalar, root[j], scale[j], norms[j], NormSq(zs[j]));
  }

  /** The generic kernel's `scalar * sqrtf(x)` rounds as `Round`. */
  lemma RoundCommutes(sqrt: real -> real, scalar: real, x: real)
    ensures Rint(scalar * sqrt(x)) == Round(sqrt, scalar, x)
  {
    var root := sqrt(x);
    assert scalar * root == root * scalar;
  }

  /** One iteration of the generic loop: the squares of the two parts,
      added, square-rooted, scaled and rounded, give the sample's value. */
  lemma GenericLane(sqrt: real -> real, scalar: real, z: Complex, re: real, im: real)
    requires re == Square(z.re) && im == Square(z.im)
    ensures Rint(scalar * sqrt(re + im)) == Magnitude(sqrt, scalar, z)
  {
    RoundCommutes(sqrt, scalar, re + im);
  }

  lemma RoundLane(sqrt: real -> real, scalar: real, a: real, b: real, x: real, y: real)
    requires a == sqrt(x) && b == scalar && x == y
    ensures Rint(a * b) == Round(sqrt, scalar, y)
  {
    var p := a * b;
    assert p == sqrt(y) * scalar;
  }

  /** The tail shared by the SSE blocks: `sqrt_ps`, times the broadcast
      `scalar`, then `rintf` on each of the four lanes holding |z|^2. */
  function RoundBlock(sqrt: real -> real, scalar: real, norms: seq<real>, zs: seq<Complex>): (r: seq<int>)
    requires |zs| == 4 && norms == [NormSq(zs[0]), NormSq(zs[1]), NormSq(zs[2]), NormSq(zs[3])]
    ensures |r| == 4
    ensures forall j :: 0 <= j < 4 ==> r[j] == Magnitude(sqrt, scalar, zs[j])
  {
    RoundLanes(sqrt, scalar, norms, zs);
    var floatBuffer := MulPs(SqrtPs(sqrt, norms), Set1(scalar, 4));
    [Rint(floatBuffer[0]), Rint(floatBuffer[1]), Rint(floatBuffer[2]), Rint(floatBuffer[3])]
  }

  /** `_a_sse3` block: two registers squared, `hadd`, `sqrt`, times
      `scalar`, then `rintf` on each of the four lanes. */
  function Sse3Block(sqrt: real -> real, scalar: real, zs: seq<Complex>): (r: seq<int>)
    requires |zs| == 4
    ensures |r| == 4
    ensures forall j :: 0 <= j < 4 ==> r[j] == Magnitude(sqrt, scalar, zs[j])
  {
    var f := Flatten(zs);
    MagnitudeSquaredSse3Lanes(zs);
    RoundBlock(sqrt, scalar, MagnitudeSquaredSse3(f[0..4], f[4..8]), zs)
  }

  /** `_a_sse` block: the shuffles split the real and imaginary parts, which
      are squared and added (the steps of `_mm_magnitudesquared_ps`, written
      inline in this kernel). */
  function SseBlock(sqrt: real -> real, scalar: real, zs: seq<Complex>): (r: seq<int>)
    requires |zs| == 4
    ensures |r| == 4
    ensures forall j :: 0 <= j < 4 ==> r[j] == Magnitude(sqrt, scalar, zs[j])
  {
    var f := Flatten(zs);
    MagnitudeSquaredLanes(zs);
    RoundBlock(sqrt, scalar, MagnitudeSquaredPs(f[0..4], f[4..8]), zs)
  }

  /** The AVX2 index vector `_mm256_set_epi32(0, 0, 0, 0, 5, 1, 4, 0)`. */
  function Idx(): (idx: seq<int>)
    ensures idx == [0, 4, 1, 5, 0, 0, 0, 0]
  {
    SetEpi32(0, 0, 0, 0, 5, 1, 4, 0)
  }

  /** The lane order of the AVX2 block: `hadd` leaves the magnitudes as
      `m0 m1 m4 m5 | m2 m3 m6 m7`; `packs_epi32(r, r)` doubles each 128-bit
      lane as `s0 s1 s4 s5 s0 s1 s4 s5 | s2 s3 s6 s7 s2 s3 s6 s7`; the
      doubleword permute by `Idx()` takes pairs 0, 4, 1, 5, so the low eight
      shorts are `s0 .. s7`. */
  lemma Avx2Order(r: seq<int>)
    requires |r| == 8
    ensures var s := SatLanes(r, -32768, 32767);
            ExtractI128(PermuteVar8x32(Packs256Epi32(r, r), Idx()), 0)
            == [s[0], s[1], s[4], s[5], s[2], s[3], s[6], s[7]]
  {
    var s := SatLanes(r, -32768, 32767);
    var p := Packs256Epi32(r, r);
    PacksDoubled(r);
    PermutePairs(p);
    assert p[0] == s[0] && p[1] == s[1] && p[8] == s[4] && p[9] == s[5];
    assert p[2] == s[2] && p[3] == s[3] && p[10] == s[6] && p[11] == s[7];
  }

  /** Rounded lanes in `hadd` order come out of the pack and permute in
      sample order, each saturated. */
  lemma Avx2Restores(r: seq<int>, m: seq<int>)
    requires |m| == 8 && r == [m[0], m[1], m[4], m[5], m[2], m[3], m[6], m[7]]
    ensures var out := ExtractI128(PermuteVar8x32(Packs256Epi32(r, r), Idx()), 0);
            |out| == 8 && forall j :: 0 <= j < 8 ==> out[j] == SatInt16(m[j])
  {
    Avx2Order(r);
  }

  /** `packs_epi32(r, r)` per 128-bit lane: each half of `r`, saturated,
      twice. */
  lemma PacksDoubled(r: seq<int>)
    requires |r| == 8
    ensures var s := SatLanes(r, -32768, 32767);
            Packs256Epi32(r, r) == s[0..4] + s[0..4] + s[4..8] + s[4..8]
  {
    var s := SatLanes(r, -32768, 32767);
    assert SatLanes(Lo(r), -32768, 32767) == s[0..4];
    assert SatLanes(Hi(r), -32768, 32767) == s[4..8];
  }

  /** `permutevar8x32` by `Idx()` on sixteen shorts: the low half is
      doublewords 0, 4, 1, 5, i.e. shorts 0, 1, 8, 9, 2, 3, 10, 11. */
  lemma PermutePairs<T>(p: seq<T>)
    requires |p| == 16
    ensures ExtractI128(PermuteVar8x32(p, Idx()), 0) == [p[0], p[1], p[8], p[9], p[2], p[3], p[10], p[11]]
  {
    var q := PermuteVar8x32(p, Idx());
    assert |p| / 8 == 2;
    assert q[0] == p[0] && q[1] == p[1] && q[2] == p[8] && q[3] == p[9];
    assert q[4] == p[2] && q[5] == p[3] && q[6] == p[10] && q[7] == p[11];
  }

  /** Whether a rounded magnitude fits in `int32_t`, the lane width of
      `cvtps_epi32`. */
  predicate FitsInt32(m: int)
  {
    -0x8000_0000 <= m <= 0x7FFF_FFFF
  }

  /** `_a_avx2` / `_u_avx2` block: eight samples, in sample order. A lane
      whose rounded magnitude fits in `int32_t` comes out saturated into the
      `int16_t` range by `packs_epi32`; one that does not is turned into
      INT32_MIN by `cvtps_epi32`, which `packs_epi32` saturates to -32768. */
  function Avx2Block(sqrt: real -> real, scalar: real, zs: seq<Complex>): (r: seq<int>)
    requires |zs| == 8
    ensures |r| == 8
    ensures forall j :: 0 <= j < 8 && FitsInt32(Magnitude(sqrt, scalar, zs[j])) ==>
              r[j] == SatInt16(Magnitude(sqrt, scalar, zs[j]))
    ensures forall j :: 0 <= j < 8 && !FitsInt32(Magnitude(sqrt, scalar, zs[j])) ==> r[j] == -32768
  {
    var f := Flatten(zs);
    var cplxValue1 := MulPs(f[0..8], f[0..8]);
    var cplxValue2 := MulPs(f[8..16], f[8..16]);
    var result := HAdd256Ps(cplxValue1, cplxValue2);
    var resultInt := CvtPsEpi32(MulPs(SqrtPs(sqrt, result), Set1(scalar, 8)));
    var m := seq(8, j requires 0 <= j < 8 => Indefinite(Magnitude(sqrt, scalar, zs[j])));
    Avx2Rounded(sqrt, scalar, zs);
    Avx2Restores(resultInt, m);
    ExtractI128(PermuteVar8x32(Packs256Epi32(resultInt, resultInt), Idx()), 0)
  }

  /** The AVX2 lanes after `cvtps_epi32`, still in `hadd` order: each the
      rounded magnitude, or INT32_MIN where that does not fit. */
  lemma Avx2Rounded(sqrt: real -> real, scalar: real, zs: seq<Complex>)
    requires |zs| == 8
    ensures var f := Flatten(zs);
            var result := HAdd256Ps(MulPs(f[0..8], f[0..8]), MulPs(f[8..16], f[8..16]));
            CvtPsEpi32(MulPs(SqrtPs(sqrt, result), Set1(scalar, 8)))
            == [Indefinite(Magnitude(sqrt, scalar, zs[0])), Indefinite(Magnitude(sqrt, scalar, zs[1])),
                Indefinite(Magnitude(sqrt, scalar, zs[4])), Indefinite(Magnitude(sqrt, scalar, zs[5])),
                Indefinite(Magnitude(sqrt, scalar, zs[2])), Indefinite(Magnitude(sqrt, scalar, zs[3])),
                Indefinite(Magnitude(sqrt, scalar, zs[6])), Indefinite(Magnitude(sqrt, scalar, zs[7]))]
  {
    var f := Flatten(zs);
    var result := HAdd256Ps(MulPs(f[0..8], f[0..8]), MulPs(f[8..16], f[8..16]));
    HAdd256OfSquares(zs);
    RoundLanes(sqrt, scalar, result, [zs[0], zs[1], zs[4], zs[5], zs[2], zs[3], zs[6], zs[7]]);
  }

  /** The saturating AVX2 block gives the generic values exactly when every
      rounded magnitude of the block fits in `int16_t`. */
  lemma Avx2BlockAgrees(sqrt: real -> real, scalar: real, zs: seq<Complex>)
    requires |zs| == 8
    ensures Fits(sqrt, scalar, zs) <==>
            forall j :: 0 <= j < 8 ==> Avx2Block(sqrt, scalar, zs)[j] == Magnitude(sqrt, scalar, zs[j])
  {
  }

  // ---- The variants ----

  /** `_generic`. */
  method Generic(complexVector: seq<Complex>, scalar: real, sqrt: real -> real) returns (magnitudeVector: seq<Int16>)
    requires Fits(sqrt, scalar, complexVector)
    ensures Magnitudes(sqrt, scalar, complexVector, magnitudeVector)
  {
    var complexVectorPtr := Flatten(complexVector);
    magnitudeVector := [];
    var number := 0;
    while number < |complexVector|
      invariant number <= |complexVector|
      invariant Magnitudes(sqrt, scalar, complexVector[..number], magnitudeVector)
    {
      var re := complexVectorPtr[2 * number];
      var im := complexVectorPtr[2 * number + 1];
      FlattenAt(complexVector, number);
      re := Square(re);
      im := Square(im);
      var m := Rint(scalar * sqrt(re + im));
      GenericLane(sqrt, scalar, complexVector[number], re, im);
      assert complexVector[..number + 1] == complexVector[..number] + [complexVector[number]];
      magnitudeVector := magnitudeVector + [m as Int16];
      number := number + 1;
    }
    assert complexVector[..number] == complexVector;
  }

  /** The SIMD variants hand the last `num_points - number` samples, at
      `complexVector + number`, to the generic kernel. */
  method GenericTail(complexVector: seq<Complex>, scalar: real, sqrt: real -> real, number: nat, done: seq<Int16>)
    returns (magnitudeVector: seq<Int16>)
    requires number <= |complexVector| && Fits(sqrt, scalar, complexVector)
    requires Magnitudes(sqrt, scalar, complexVector[..number], done)
    ensures Magnitudes(sqrt, scalar, complexVector, magnitudeVector)
  {
    FitsSlice(sqrt, scalar, complexVector, number, |complexVector|);
    var rest := Generic(complexVector[number..], scalar, sqrt);
    MagnitudesAppend(sqrt, scalar, complexVector[..number], complexVector[number..], done, rest);
    assert complexVector[..number] + complexVector[number..] == complexVector;
    magnitudeVector := done + rest;
  }

  /** `_a_sse3`: blocks of four samples, then the generic kernel. */
  method Sse3(complexVector: seq<Complex>, scalar: real, sqrt: real -> real) returns (magnitudeVector: seq<Int16>)
    requires Fits(sqrt, scalar, complexVector)
    ensures Magnitudes(sqrt, scalar, complexVector, magnitudeVector)
  {
    var quarterPoints := |complexVector| / 4;
    magnitudeVector := [];
    var number := 0;
    while number < quarterPoints
      invariant number <= quarterPoints
      invariant Magnitudes(sqrt, scalar, complexVector[..4 * number], magnitudeVector)
    {
      var block := complexVector[4 * number..4 * number + 4];
      FitsSlice(sqrt, scalar, complexVector, 4 * number, 4 * number + 4);
      var out := Narrow(sqrt, scalar, block, Sse3Block(sqrt, scalar, block));
      MagnitudesAppend(sqrt, scalar, complexVector[..4 * number], block, magnitudeVector, out);
      assert complexVector[..4 * number] + block == complexVector[..4 * (number + 1)];
      magnitudeVector := magnitudeVector + out;
      number := number + 1;
    }
    magnitudeVector := GenericTail(complexVector, scalar, sqrt, quarterPoints * 4, magnitudeVector);
  }

  /** `_a_sse`: blocks of four samples, then the generic kernel. */
  method Sse(complexVector: seq<Complex>, scalar: real, sqrt: real -> real) returns (magnitudeVector: seq<Int16>)
    requires Fits(sqrt, scalar, complexVector)
    ensures Magnitudes(sqrt, scalar, complexVector, magnitudeVector)
  {
    var quarterPoints := |complexVector| / 4;
    magnitudeVector := [];
    var number := 0;
    while number < quarterPoints
      invariant number <= quarterPoints
      invariant Magnitudes(sqrt, scalar, complexVector[..4 * number], magnitudeVector)
    {
      var block := complexVector[4 * number..4 * number + 4];
      FitsSlice(sqrt, scalar, complexVector, 4 * number, 4 * number + 4);
      var out := Narrow(sqrt, scalar, block, SseBlock(sqrt, scalar, block));
      MagnitudesAppend(sqrt, scalar, complexVector[..4 * number], block, magnitudeVector, out);
      assert complexVector[..4 * number] + block == complexVector[..4 * (number + 1)];
      magnitudeVector := magnitudeVector + out;
      number := number + 1;
    }
    magnitudeVector := GenericTail(complexVector, scalar, sqrt, quarterPoints * 4, magnitudeVector);
  }

  /** What one AVX2 block stores: when every magnitude of the block fits,
      the saturation changes nothing and the block holds the generic values. */
  method Avx2Stored(sqrt: real -> real, scalar: real, block: seq<Complex>) returns (out: seq<Int16>)
    requires |block| == 8 && Fits(sqrt, scalar, block)
    ensures Magnitudes(sqrt, scalar, block, out)
  {
    Avx2BlockAgrees(sqrt, scalar, block);
    out := Narrow(sqrt, scalar, block, Avx2Block(sqrt, scalar, block));
  }

  /** `_a_avx2` and `_u_avx2`: blocks of eight samples, then the generic
      kernel. */
  method Avx2(complexVector: seq<Complex>, scalar: real, sqrt: real -> real) returns (magnitudeVector: seq<Int16>)
    requires Fits(sqrt, scalar, complexVector)
    ensures Magnitudes(sqrt, scalar, complexVector, magnitudeVector)
  {
    var eighthPoints := |complexVector| / 8;
    magnitudeVector := [];
    var number := 0;
    while number < eighthPoints
      invariant number <= eighthPoints
      invariant Magnitudes(sqrt, scalar, complexVector[..8 * number], magnitudeVector)
    {
      var block := complexVector[8 * number..8 * number + 8];
      FitsSlice(sqrt, scalar, complexVector, 8 * number, 8 * number + 8);
      var out := Avx2Stored(sqrt, scalar, block);
      MagnitudesAppend(sqrt, scalar, complexVector[..8 * number], block, magnitudeVector, out);
      assert complexVector[..8 * number] + block == complexVector[..8 * (number + 1)];
      magnitudeVector := magnitudeVector + out;
      number := number + 1;
    }
    magnitudeVector := GenericTail(complexVector, scalar, sqrt, eighthPoints * 8, magnitudeVector);
  }
}
