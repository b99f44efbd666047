/** The helpers of `volk_sse_intrinsics.h`, shared by the SSE kernels, and the
    `hadd` form of the squared magnitude that the SSE3 kernels use. Two
    registers of four floats hold four interleaved complex samples:
    `cplxValue1` samples 0 and 1, `cplxValue2` samples 2 and 3. */
module SseIntrinsics {
  import opened Lanes
  import opened Complex
  import opened X86

  /** `_mm_magnitudesquared_ps`: shuffle the real parts and the imaginary
      parts apart, square both and add. Lane `k` adds the squares of the
      scalar pair `2k`, `2k + 1` of the two registers read end to end. */
  function MagnitudeSquaredPs(cplxValue1: seq<real>, cplxValue2: seq<real>): (r: seq<real>)
    requires |cplxValue1| == 4 && |cplxValue2| == 4
    ensures r == [Square(cplxValue1[0]) + Square(cplxValue1[1]), Square(cplxValue1[2]) + Square(cplxValue1[3]),
                  Square(cplxValue2[0]) + Square(cplxValue2[1]), Square(cplxValue2[2]) + Square(cplxValue2[3])]
  {
    var iValue := ShufflePs(cplxValue1, cplxValue2, MmShuffle(2, 0, 2, 0));
    var qValue := ShufflePs(cplxValue1, cplxValue2, MmShuffle(3, 1, 3, 1));
    assert iValue == [cplxValue1[0], cplxValue1[2], cplxValue2[0], cplxValue2[2]];
    assert qValue == [cplxValue1[1], cplxValue1[3], cplxValue2[1], cplxValue2[3]];
    SquareLanes(iValue);
    SquareLanes(qValue);
    AddPs(MulPs(iValue, iValue), MulPs(qValue, qValue))
  }

  /** `_mm_magnitudesquared_ps_sse3` (from `volk_sse3_intrinsics.h`, which is
      not part of this model; the same three intrinsics appear inline in
      `volk_32fc_s32f_magnitude_16i_a_sse3`): square, then `hadd`. */
  function MagnitudeSquaredSse3(cplxValue1: seq<real>, cplxValue2: seq<real>): (r: seq<real>)
    requires |cplxValue1| == 4 && |cplxValue2| == 4
    ensures |r| == 4
  {
    HAddPs(MulPs(cplxValue1, cplxValue1), MulPs(cplxValue2, cplxValue2))
  }

  /** `mul_ps(v, v)` squares every lane. */
  lemma SquareLanes(v: seq<real>)
    ensures forall i :: 0 <= i < |v| ==> MulPs(v, v)[i] == Square(v[i])
  {
  }

  /** Lane `k` of `_mm_magnitudesquared_ps` is |z_k|^2, in sample order. */
  lemma MagnitudeSquaredLanes(zs: seq<Complex>)
    requires |zs| == 4
    ensures var f := Flatten(zs);
            MagnitudeSquaredPs(f[0..4], f[4..8]) == [NormSq(zs[0]), NormSq(zs[1]), NormSq(zs[2]), NormSq(zs[3])]
  {
    var f := Flatten(zs);
    FlattenAt(zs, 0);
    FlattenAt(zs, 1);
    FlattenAt(zs, 2);
    FlattenAt(zs, 3);
  }

  /** The `hadd` form gives the same lanes. */
  lemma MagnitudeSquaredSse3Lanes(zs: seq<Complex>)
    requires |zs| == 4
    ensures var f := Flatten(zs);
            MagnitudeSquaredSse3(f[0..4], f[4..8]) == [NormSq(zs[0]), NormSq(zs[1]), NormSq(zs[2]), NormSq(zs[3])]
  {
    var f := Flatten(zs);
    SquareLanes(f[0..4]);
    SquareLanes(f[4..8]);
    FlattenAt(zs, 0);
    FlattenAt(zs, 1);
    FlattenAt(zs, 2);
    FlattenAt(zs, 3);
  }

  /** The 256-bit counterpart: `_mm256_hadd_ps` of two squared registers
      of four samples each holds the magnitudes of samples
      0, 1, 4, 5 in the low 128-bit lane and 2, 3, 6, 7 in the high one. */
  lemma HAdd256OfSquares(zs: seq<Complex>)
    requires |zs| == 8
    ensures var f := Flatten(zs);
            HAdd256Ps(MulPs(f[0..8], f[0..8]), MulPs(f[8..16], f[8..16]))
            == [NormSq(zs[0]), NormSq(zs[1]), NormSq(zs[4]), NormSq(zs[5]),
                NormSq(zs[2]), NormSq(zs[3]), NormSq(zs[6]), NormSq(zs[7])]
  {
    var f := Flatten(zs);
    SquareLanes(f[0..8]);
    SquareLanes(f[8..16]);
    HAdd256Lanes(MulPs(f[0..8], f[0..8]), MulPs(f[8..16], f[8..16]));
    forall k | 0 <= k < 8
      ensures f[2 * k] == zs[k].re && f[2 * k + 1] == zs[k].im
    {
      FlattenAt(zs, k);
    }
  }

  /** The two forms agree on every pair of registers. */
  lemma MagnitudeSquaredFormsAgree(cplxValue1: seq<real>, cplxValue2: seq<real>)
    requires |cplxValue1| == 4 && |cplxValue2| == 4
    ensures MagnitudeSquaredPs(cplxValue1, cplxValue2) == MagnitudeSquaredSse3(cplxValue1, cplxValue2)
  {
    SquareLanes(cplxValue1);
    SquareLanes(cplxValue2);
  }

  /** Every lane of a squared magnitude is non-negative. */
  lemma MagnitudeSquaredNonNegative(cplxValue1: seq<real>, cplxValue2: seq<real>)
    requires |cplxValue1| == 4 && |cplxValue2| == 4
    ensures forall k :: 0 <= k < 4 ==> MagnitudeSquaredPs(cplxValue1, cplxValue2)[k] >= 0.0
  {
    forall i | 0 <= i < 4
      ensures Square(cplxValue1[i]) >= 0.0 && Square(cplxValue2[i]) >= 0.0
    {
      SquareSign(cplxValue1[i]);
      SquareSign(cplxValue2[i]);
    }
  }

  /** `_mm_magnitude_ps`: the square root of each squared magnitude, lane
      `k` taken from the scalar pair `2k`, `2k + 1`. */
  function MagnitudePs(sqrt: real -> real, cplxValue1: seq<real>, cplxValue2: seq<real>): (r: seq<real>)
    requires |cplxValue1| == 4 && |cplxValue2| == 4
    ensures r == [sqrt(Square(cplxValue1[0]) + Square(cplxValue1[1])), sqrt(Square(cplxValue1[2]) + Square(cplxValue1[3])),
                  sqrt(Square(cplxValue2[0]) + Square(cplxValue2[1])), sqrt(Square(cplxValue2[2]) + Square(cplxValue2[3]))]
  {
    SqrtPs(sqrt, MagnitudeSquaredPs(cplxValue1, cplxValue2))
  }

  lemma MagnitudeLanes(sqrt: real -> real, zs: seq<Complex>)
    requires |zs| == 4
    ensures var f := Flatten(zs);
            forall k :: 0 <= k < 4 ==> MagnitudePs(sqrt, f[0..4], f[4..8])[k] == sqrt(NormSq(zs[k]))
  {
    MagnitudeSquaredLanes(zs);
  }

  /** `_mm_scaled_norm_dist_ps_sse`: `scalar * |symbol - point|^2` per
      sample. Lane `k` is the squared magnitude of the difference of the
      scalar pairs `2k`, `2k + 1`, times lane `k` of `scalar`. */
  function ScaledNormDistPs(symbols0: seq<real>, symbols1: seq<real>, points0: seq<real>, points1: seq<real>,
                            scalar: seq<real>): (r: seq<real>)
    requires |symbols0| == |symbols1| == |points0| == |points1| == |scalar| == 4
    ensures r == [Times(Square(symbols0[0] - points0[0]) + Square(symbols0[1] - points0[1]), scalar[0]),
                  Times(Square(symbols0[2] - points0[2]) + Square(symbols0[3] - points0[3]), scalar[1]),
                  Times(Square(symbols1[0] - points1[0]) + Square(symbols1[1] - points1[1]), scalar[2]),
                  Times(Square(symbols1[2] - points1[2]) + Square(symbols1[3] - points1[3]), scalar[3])]
  {
    var diff0 := SubPs(symbols0, points0);
    var diff1 := SubPs(symbols1, points1);
    var norms := MagnitudeSquaredPs(diff0, diff1);
    ScaledLanes(norms, scalar, norms[0], norms[1], norms[2], norms[3]);
    MulPs(norms, scalar)
  }

  /** Lane `k` is the squared distance between symbol `k` and point `k`,
      times lane `k` of `scalar`. */
  lemma ScaledNormDistLanes(symbols: seq<Complex>, points: seq<Complex>, scalar: seq<real>)
    requires |symbols| == 4 && |points| == 4 && |scalar| == 4
    ensures var s := Flatten(symbols);
            var p := Flatten(points);
            ScaledNormDistPs(s[0..4], s[4..8], p[0..4], p[4..8], scalar)
            == [Times(NormSq(Sub(symbols[0], points[0])), scalar[0]), Times(NormSq(Sub(symbols[1], points[1])), scalar[1]),
                Times(NormSq(Sub(symbols[2], points[2])), scalar[2]), Times(NormSq(Sub(symbols[3], points[3])), scalar[3])]
  {
    var s := Flatten(symbols);
    var p := Flatten(points);
    var s0, s1, p0, p1 := s[0..4], s[4..8], p[0..4], p[4..8];
    var n := [NormSq(Sub(symbols[0], points[0])), NormSq(Sub(symbols[1], points[1])),
              NormSq(Sub(symbols[2], points[2])), NormSq(Sub(symbols[3], points[3]))];
    DiffSample(symbols, points, 0);
    DiffSample(symbols, points, 1);
    DiffSample(symbols, points, 2);
    DiffSample(symbols, points, 3);
    assert s0[0] - p0[0] == s[0] - p[0] && s0[1] - p0[1] == s[1] - p[1];
    assert s0[2] - p0[2] == s[2] - p[2] && s0[3] - p0[3] == s[3] - p[3];
    assert s1[0] - p1[0] == s[4] - p[4] && s1[1] - p1[1] == s[5] - p[5];
    assert s1[2] - p1[2] == s[6] - p[6] && s1[3] - p1[3] == s[7] - p[7];
    ScaledNormDistOf(s0, s1, p0, p1, scalar, n);
  }

  /** `ScaledNormDistPs` once the squared distance of every lane is known. */
  lemma ScaledNormDistOf(symbols0: seq<real>, symbols1: seq<real>, points0: seq<real>, points1: seq<real>,
                         scalar: seq<real>, n: seq<real>)
    requires |symbols0| == |symbols1| == |points0| == |points1| == |scalar| == |n| == 4
    requires n[0] == Square(symbols0[0] - points0[0]) + Square(symbols0[1] - points0[1])
    requires n[1] == Square(symbols0[2] - points0[2]) + Square(symbols0[3] - points0[3])
    requires n[2] == Square(symbols1[0] - points1[0]) + Square(symbols1[1] - points1[1])
    requires n[3] == Square(symbols1[2] - points1[2]) + Square(symbols1[3] - points1[3])
    ensures ScaledNormDistPs(symbols0, symbols1, points0, points1, scalar)
            == [Times(n[0], scalar[0]), Times(n[1], scalar[1]), Times(n[2], scalar[2]), Times(n[3], scalar[3])]
  {
  }

  /** `mul_ps(v, w)` of a register whose four lanes are known. */
  lemma ScaledLanes(v: seq<real>, w: seq<real>, a: real, b: real, c: real, d: real)
    requires |w| == 4 && v == [a, b, c, d]
    ensures MulPs(v, w) == [Times(a, w[0]), Times(b, w[1]), Times(c, w[2]), Times(d, w[3])]
  {
    var m := MulPs(v, w);
    assert m[0] == Times(a, w[0]) && m[1] == Times(b, w[1]) && m[2] == Times(c, w[2]) && m[3] == Times(d, w[3]);
  }

  /** The squared-magnitude step of the distance, sample by sample. */
  lemma DistanceNorms(symbols: seq<Complex>, points: seq<Complex>)
    requires |symbols| == 4 && |points| == 4
    ensures var s := Flatten(symbols);
            var p := Flatten(points);
            MagnitudeSquaredPs(SubPs(s[0..4], p[0..4]), SubPs(s[4..8], p[4..8]))
            == [NormSq(Sub(symbols[0], points[0])), NormSq(Sub(symbols[1], points[1])),
                NormSq(Sub(symbols[2], points[2])), NormSq(Sub(symbols[3], points[3]))]
  {
    var s := Flatten(symbols);
    var p := Flatten(points);
    var d0 := SubPs(s[0..4], p[0..4]);
    var d1 := SubPs(s[4..8], p[4..8]);
    DiffSample(symbols, points, 0);
    DiffSample(symbols, points, 1);
    DiffSample(symbols, points, 2);
    DiffSample(symbols, points, 3);
  }

  /** The scalars of sample `k` of `symbols - points`. */
  lemma DiffSample(symbols: seq<Complex>, points: seq<Complex>, k: nat)
    requires |symbols| == |points| && k < |symbols|
    ensures Flatten(symbols)[2 * k] - Flatten(points)[2 * k] == Sub(symbols[k], points[k]).re
    ensures Flatten(symbols)[2 * k + 1] - Flatten(points)[2 * k + 1] == Sub(symbols[k], points[k]).im
  {
    FlattenAt(symbols, k);
    FlattenAt(points, k);
  }

  /** The distance is symmetric: swapping symbols and points changes no
      lane. */
  lemma ScaledNormDistSymmetric(symbols0: seq<real>, symbols1: seq<real>, points0: seq<real>, points1: seq<real>,
                                scalar: seq<real>)
    requires |symbols0| == |symbols1| == |points0| == |points1| == |scalar| == 4
    ensures ScaledNormDistPs(symbols0, symbols1, points0, points1, scalar)
            == ScaledNormDistPs(points0, points1, symbols0, symbols1, scalar)
  {
    var d0 := SubPs(symbols0, points0);
    var d1 := SubPs(symbols1, points1);
    var e0 := SubPs(points0, symbols0);
    var e1 := SubPs(points1, symbols1);
    forall i | 0 <= i < 4
      ensures Square(d0[i]) == Square(e0[i]) && Square(d1[i]) == Square(e1[i])
    {
      NegatedSquare(d0[i], e0[i]);
      NegatedSquare(d1[i], e1[i]);
    }
    assert MagnitudeSquaredPs(d0, d1) == MagnitudeSquaredPs(e0, e1);
  }

  lemma NegatedSquare(x: real, y: real)
    requires y == -x
    ensures Square(x) == Square(y)
  {
    assert Times(x, x) == Times(-x, -x);
  }

  /** `_mm_accumulate_square_sum_ps`: `sq_acc + rec * (aux * val - acc)^2`
      lane by lane. */
  function AccumulateSquareSumPs(sqAcc: seq<real>, acc: seq<real>, val: seq<real>, rec: seq<real>, aux: seq<real>)
    : (r: seq<real>)
    requires |sqAcc| == |acc| == |val| == |rec| == |aux| == 4
    ensures |r| == 4
    ensures forall k :: 0 <= k < 4 ==> r[k] == sqAcc[k] + Times(Square(aux[k] * val[k] - acc[k]), rec[k])
  {
    var aux1 := MulPs(aux, val);
    var aux2 := SubPs(aux1, acc);
    var aux3 := MulPs(aux2, aux2);
    var aux4 := MulPs(aux3, rec);
    AddPs(sqAcc, aux4)
  }

  /** With a non-negative `rec` the accumulator never decreases, and it
      stays put exactly in the lanes where `aux * val == acc` (for a
      positive `rec`). */
  lemma AccumulateSquareSumGrows(sqAcc: seq<real>, acc: seq<real>, val: seq<real>, rec: seq<real>, aux: seq<real>)
    requires |sqAcc| == |acc| == |val| == |rec| == |aux| == 4
    ensures var r := AccumulateSquareSumPs(sqAcc, acc, val, rec, aux);
            forall k :: 0 <= k < 4 && rec[k] >= 0.0 ==> r[k] >= sqAcc[k]
    ensures var r := AccumulateSquareSumPs(sqAcc, acc, val, rec, aux);
            forall k :: 0 <= k < 4 && rec[k] > 0.0 ==> (r[k] == sqAcc[k] <==> aux[k] * val[k] == acc[k])
  {
    var r := AccumulateSquareSumPs(sqAcc, acc, val, rec, aux);
    var e := SubPs(MulPs(aux, val), acc);
    forall k | 0 <= k < 4
      ensures r[k] == sqAcc[k] + Times(Square(e[k]), rec[k])
      ensures e[k] == 0.0 <==> aux[k] * val[k] == acc[k]
    {
    }
    forall k | 0 <= k < 4
      ensures rec[k] >= 0.0 ==> Times(Square(e[k]), rec[k]) >= 0.0
      ensures rec[k] > 0.0 ==> (Times(Square(e[k]), rec[k]) == 0.0 <==> e[k] == 0.0)
    {
      SquareSign(e[k]);
      ScaledSquareSign(Square(e[k]), rec[k]);
    }
  }

  /** A non-negative quantity times a non-negative weight is non-negative,
      and for a positive weight it is zero only when the quantity is. */
  lemma ScaledSquareSign(s: real, w: real)
    requires s >= 0.0
    ensures w >= 0.0 ==> Times(s, w) >= 0.0
    ensures w > 0.0 ==> (Times(s, w) == 0.0 <==> s == 0.0)
  {
    if w > 0.0 && s > 0.0 {
      TimesPositive(s, w);
    }
  }
}
