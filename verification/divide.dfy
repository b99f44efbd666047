/** `volk_32fc_x2_divide_32fc`: `cVector[k] = aVector[k] / bVector[k]` for
    complex samples. Every SIMD variant divides the "classical" way,
    `a * conj(b) / |b|^2` (`Complex.Quot`), which `Complex.QuotIsDivision`
    shows is complex division. A zero denominator gives an IEEE infinity or
    NaN, which is outside the model: every member requires non-zero
    denominators. */
module Divide {
  import opened Lanes
  import opened Complex
  import opened X86
  import opened SseIntrinsics
  import Neon

  ghost predicate NonZero(dens: seq<Complex>)
  {
    forall k :: 0 <= k < |dens| ==> dens[k] != Zero
  }

  lemma NonZeroSlice(dens: seq<Complex>, from: nat, to: nat)
    requires NonZero(dens) && from <= to <= |dens|
    ensures NonZero(dens[from..to])
  {
  }

  /** Reference: output `k` is numerator `k` over denominator `k`. */
  ghost predicate Divided(nums: seq<Complex>, dens: seq<Complex>, quots: seq<Complex>)
  {
    |nums| == |dens| == |quots| &&
    forall k :: 0 <= k < |quots| ==> dens[k] != Zero && quots[k] == Quot(nums[k], dens[k])
  }

  /** The outputs are the quotients exactly when each output times its
      denominator gives back its numerator. */
  lemma DividedIsDivision(nums: seq<Complex>, dens: seq<Complex>, quots: seq<Complex>)
    requires |nums| == |dens| == |quots| && NonZero(dens)
    ensures Divided(nums, dens, quots) <==> forall k :: 0 <= k < |quots| ==> Mul(quots[k], dens[k]) == nums[k]
  {
    forall k | 0 <= k < |quots|
      ensures Mul(quots[k], dens[k]) == nums[k] <==> quots[k] == Quot(nums[k], dens[k])
    {
      QuotIsDivision(nums[k], dens[k], quots[k]);
    }
  }

  lemma DividedAppend(nums: seq<Complex>, dens: seq<Complex>, quots: seq<Complex>,
                      nums': seq<Complex>, dens': seq<Complex>, quots': seq<Complex>)
    requires Divided(nums, dens, quots) && Divided(nums', dens', quots')
    ensures Divided(nums + nums', dens + dens', quots + quots')
  {
    var n := nums + nums';
    var d := dens + dens';
    var q := quots + quots';
    forall k | 0 <= k < |q|
      ensures d[k] != Zero && q[k] == Quot(n[k], d[k])
    {
      if k >= |quots| {
        assert n[k] == nums'[k - |quots|] && d[k] == dens'[k - |quots|] && q[k] == quots'[k - |quots|];
      }
    }
  }

  /** The quotients, sample by sample. */
  function Quotients(nums: seq<Complex>, dens: seq<Complex>): (quots: seq<Complex>)
    requires |nums| == |dens| && NonZero(dens)
    ensures Divided(nums, dens, quots)
  {
    seq(|nums|, k requires 0 <= k < |nums| => Quot(nums[k], dens[k]))
  }

  lemma QuotientsSlice(nums: seq<Complex>, dens: seq<Complex>, from: nat, len: nat)
    requires |nums| == |dens| && NonZero(dens) && from + len <= |nums|
    ensures NonZero(dens[from..from + len])
    ensures Quotients(nums, dens)[from..from + len] == Quotients(nums[from..from + len], dens[from..from + len])
  {
  }

  /** `_mm_complexconjugatemul_ps` / `_mm256_complexconjugatemul_ps` (from
      `volk_sse3_intrinsics.h` and `volk_avx_intrinsics.h`, which are not
      part of this model): each interleaved sample of `x` times the
      conjugate of the matching sample of `y`: for the sample at `2k`,
      `2k + 1` the real part is `x.re * y.re + x.im * y.im` and the
      imaginary part `x.im * y.re - x.re * y.im`. */
  function ComplexConjugateMulPs(x: seq<real>, y: seq<real>): (r: seq<real>)
    requires |x| == |y| && |x| % 2 == 0
    ensures |r| == |x|
    ensures forall k :: 0 <= k < |x| / 2 ==>
              r[2 * k] == x[2 * k] * y[2 * k] + x[2 * k + 1] * y[2 * k + 1] &&
              r[2 * k + 1] == x[2 * k + 1] * y[2 * k] - x[2 * k] * y[2 * k + 1]
  {
    var xs := Pairs(x);
    var ys := Pairs(y);
    var products := seq(|xs|, k requires 0 <= k < |xs| => Mul(xs[k], Conj(ys[k])));
    forall k | 0 <= k < |products|
      ensures Flatten(products)[2 * k] == x[2 * k] * y[2 * k] + x[2 * k + 1] * y[2 * k + 1]
      ensures Flatten(products)[2 * k + 1] == x[2 * k + 1] * y[2 * k] - x[2 * k] * y[2 * k + 1]
    {
      FlattenAt(products, k);
      ConjugateProduct(xs[k], ys[k]);
    }
    Flatten(products)
  }

  /** One conjugate product written out in its scalars. */
  lemma ConjugateProduct(a: Complex, b: Complex)
    ensures Mul(a, Conj(b)) == Complex(a.re * b.re + a.im * b.im, a.im * b.re - a.re * b.im)
  {
  }

  function Norms(zs: seq<Complex>): (r: seq<real>)
    ensures |r| == |zs|
  {
    seq(|zs|, k requires 0 <= k < |zs| => NormSq(zs[k]))
  }

  /** Dividing the conjugate products lane by lane by the doubled squared
      magnitudes gives the interleaved quotients. */
  lemma DivideByNorms(nums: seq<Complex>, dens: seq<Complex>, den: seq<real>)
    requires |nums| == |dens| && NonZero(dens)
    requires den == Doubled(Norms(dens))
    ensures forall i :: 0 <= i < |den| ==> den[i] != 0.0
    ensures DivPs(ComplexConjugateMulPs(Flatten(nums), Flatten(dens)), den) == Flatten(Quotients(nums, dens))
  {
    forall i | 0 <= i < |den|
      ensures den[i] != 0.0
    {
      NormSqZero(dens[i / 2]);
    }
    var products := seq(|nums|, k requires 0 <= k < |nums| => Mul(nums[k], Conj(dens[k])));
    PairsFlatten(nums);
    PairsFlatten(dens);
    assert ComplexConjugateMulPs(Flatten(nums), Flatten(dens)) == Flatten(products);
    var r := DivPs(Flatten(products), den);
    var quots := Quotients(nums, dens);
    forall k | 0 <= k < |nums|
      ensures r[2 * k] == quots[k].re && r[2 * k + 1] == quots[k].im
    {
      FlattenAt(products, k);
      FlattenAt(quots, k);
      assert (2 * k) / 2 == k && (2 * k + 1) / 2 == k;
    }
    forall i | 0 <= i < |r|
      ensures r[i] == Flatten(quots)[i]
    {
      FlattenAt(quots, i / 2);
      if i % 2 == 0 {
        assert i == 2 * (i / 2);
      } else {
        assert i == 2 * (i / 2) + 1;
      }
    }
  }

  /** The same for the samples `from .. from + len`, read at the advanced
      pointers. */
  lemma DividePart(nums: seq<Complex>, dens: seq<Complex>, from: nat, len: nat, den: seq<real>)
    requires |nums| == |dens| && NonZero(dens) && from + len <= |nums|
    requires den == Doubled(Norms(dens[from..from + len]))
    ensures forall i :: 0 <= i < |den| ==> den[i] != 0.0
    ensures DivPs(ComplexConjugateMulPs(Flatten(nums)[2 * from..2 * (from + len)], Flatten(dens)[2 * from..2 * (from + len)]), den)
            == Flatten(Quotients(nums, dens)[from..from + len])
  {
    FlattenSlice(nums, from, len);
    FlattenSlice(dens, from, len);
    QuotientsSlice(nums, dens, from, len);
    DivideByNorms(nums[from..from + len], dens[from..from + len], den);
  }

  /** `unpacklo(norm, norm)` and `unpackhi(norm, norm)` double the squared
      magnitudes of samples 0, 1 and 2, 3. */
  lemma Sse3Norms(dens: seq<Complex>)
    requires |dens| == 4
    ensures var norm := MagnitudeSquaredSse3(Flatten(dens)[0..4], Flatten(dens)[4..8]);
            UnpackLoPs(norm, norm) == Doubled(Norms(dens[0..2])) &&
            UnpackHiPs(norm, norm) == Doubled(Norms(dens[2..4]))
  {
    MagnitudeSquaredSse3Lanes(dens);
    assert Doubled(Norms(dens[0..2])) == [NormSq(dens[0]), NormSq(dens[0]), NormSq(dens[1]), NormSq(dens[1])];
    assert Doubled(Norms(dens[2..4])) == [NormSq(dens[2]), NormSq(dens[2]), NormSq(dens[3]), NormSq(dens[3])];
  }

  /** `_a_sse3` / `_u_sse3` block of four samples. */
  function Sse3Block(nums: seq<Complex>, dens: seq<Complex>): (r: seq<real>)
    requires |nums| == 4 && |dens| == 4 && NonZero(dens)
    ensures r == Flatten(Quotients(nums, dens))
  {
    var a := Flatten(nums);
    var b := Flatten(dens);
    var num01 := ComplexConjugateMulPs(a[0..4], b[0..4]);
    var num23 := ComplexConjugateMulPs(a[4..8], b[4..8]);
    var norm := MagnitudeSquaredSse3(b[0..4], b[4..8]);
    var den01 := UnpackLoPs(norm, norm);
    var den23 := UnpackHiPs(norm, norm);
    Sse3Norms(dens);
    DividePart(nums, dens, 0, 2, den01);
    DividePart(nums, dens, 2, 2, den23);
    QuotientsHalves(nums, dens, 2);
    DivPs(num01, den01) + DivPs(num23, den23)
  }

  /** The interleaved quotients of a block are those of its two halves, one
      after the other. */
  lemma QuotientsHalves(nums: seq<Complex>, dens: seq<Complex>, half: nat)
    requires |nums| == |dens| == 2 * half && NonZero(dens)
    ensures Flatten(Quotients(nums, dens)) == Flatten(Quotients(nums, dens)[0..half]) + Flatten(Quotients(nums, dens)[half..2 * half])
  {
    var q := Quotients(nums, dens);
    assert q == q[0..half] + q[half..2 * half];
    FlattenAppend(q[0..half], q[half..2 * half]);
  }

  /** `_u_avx`: `hadd(sq, sq)` holds |b_0|^2, |b_1|^2 twice in the low lane
      and |b_2|^2, |b_3|^2 twice in the high lane; `permute` with `0xd8`
      puts each next to itself. */
  lemma AvxUNorms(dens: seq<Complex>)
    requires |dens| == 4
    ensures var b := Flatten(dens);
            var sq := MulPs(b, b);
            Permute256Ps(HAdd256Ps(sq, sq), 0xd8) == Doubled(Norms(dens))
  {
    var b := Flatten(dens);
    var sq := MulPs(b, b);
    SquareLanes(b);
    HAdd256Lanes(sq, sq);
    FlattenAt(dens, 0);
    FlattenAt(dens, 1);
    FlattenAt(dens, 2);
    FlattenAt(dens, 3);
    var n := Norms(dens);
    assert HAdd256Ps(sq, sq) == [n[0], n[1], n[0], n[1], n[2], n[3], n[2], n[3]];
    assert Doubled(n) == [n[0], n[0], n[1], n[1], n[2], n[2], n[3], n[3]];
  }

  /** `_u_avx` block of four samples in one 256-bit register. */
  function AvxUBlock(nums: seq<Complex>, dens: seq<Complex>): (r: seq<real>)
    requires |nums| == 4 && |dens| == 4 && NonZero(dens)
    ensures r == Flatten(Quotients(nums, dens))
  {
    var num := Flatten(nums);
    var denum := Flatten(dens);
    var mulConj := ComplexConjugateMulPs(num, denum);
    var sq := MulPs(denum, denum);
    var magSqUn := HAdd256Ps(sq, sq);
    var magSq := Permute256Ps(magSqUn, 0xd8);
    AvxUNorms(dens);
    DivideByNorms(nums, dens, magSq);
    DivPs(mulConj, magSq)
  }

  /** `_a_avx`: the squared magnitudes of samples 0, 1, 4, 5 | 2, 3, 6, 7
      after `hadd`; shuffles `0x50` and `0xfa` double those of samples
      0 to 3 and 4 to 7. Stated for any eight lanes `m`. */
  lemma AvxAShuffles(m: seq<real>)
    requires |m| == 8
    ensures var p := [m[0], m[1], m[4], m[5], m[2], m[3], m[6], m[7]];
            Shuffle256Ps(p, p, 0x50) == Doubled(m[0..4]) && Shuffle256Ps(p, p, 0xfa) == Doubled(m[4..8])
  {
    assert Doubled(m[0..4]) == [m[0], m[0], m[1], m[1], m[2], m[2], m[3], m[3]];
    assert Doubled(m[4..8]) == [m[4], m[4], m[5], m[5], m[6], m[6], m[7], m[7]];
  }

  lemma AvxANorms(dens: seq<Complex>)
    requires |dens| == 8
    ensures var b := Flatten(dens);
            var complexResult := HAdd256Ps(MulPs(b[0..8], b[0..8]), MulPs(b[8..16], b[8..16]));
            Shuffle256Ps(complexResult, complexResult, 0x50) == Doubled(Norms(dens[0..4])) &&
            Shuffle256Ps(complexResult, complexResult, 0xfa) == Doubled(Norms(dens[4..8]))
  {
    var n := Norms(dens);
    HAdd256OfSquares(dens);
    AvxAShuffles(n);
    assert n[0..4] == Norms(dens[0..4]);
    assert n[4..8] == Norms(dens[4..8]);
  }

  /** `_a_avx` block of eight samples in two 256-bit registers. */
  function AvxABlock(nums: seq<Complex>, dens: seq<Complex>): (r: seq<real>)
    requires |nums| == 8 && |dens| == 8 && NonZero(dens)
    ensures r == Flatten(Quotients(nums, dens))
  {
    var a := Flatten(nums);
    var b := Flatten(dens);
    var num01 := ComplexConjugateMulPs(a[0..8], b[0..8]);
    var num23 := ComplexConjugateMulPs(a[8..16], b[8..16]);
    var complexResult := HAdd256Ps(MulPs(b[0..8], b[0..8]), MulPs(b[8..16], b[8..16]));
    var denum01 := Shuffle256Ps(complexResult, complexResult, 0x50);
    var denum23 := Shuffle256Ps(complexResult, complexResult, 0xfa);
    AvxANorms(dens);
    DividePart(nums, dens, 0, 4, denum01);
    DividePart(nums, dens, 4, 4, denum23);
    QuotientsHalves(nums, dens, 4);
    DivPs(num01, denum01) + DivPs(num23, denum23)
  }

  /** The NEON lane formulas: with `ar, ai, br, bi` the parts of `a` and
      `b`, `(ar*br + ai*bi) * (1/|b|^2)` and `(ai*br - ar*bi) * (1/|b|^2)`
      are the two parts of the quotient. */
  lemma NeonLane(ar: real, ai: real, br: real, bi: real, a: Complex, b: Complex, inv: real)
    requires a == Complex(ar, ai) && b == Complex(br, bi)
    requires b != Zero && inv * NormSq(b) == 1.0
    ensures (ar * br + ai * bi) * inv == Quot(a, b).re
    ensures (ai * br - ar * bi) * inv == Quot(a, b).im
  {
    NormSqZero(b);
    var n := NormSq(b);
    assert inv == 1.0 / n;
    var p := Mul(a, Conj(b));
    assert p.re == a.re * b.re + a.im * b.im;
    assert p.im == a.im * b.re - a.re * b.im;
  }

  /** `_neon` block of four samples: `vld2q` splits real and imaginary
      parts, `vmlaq`/`vmlsq` form `a * conj(b)`, the refined reciprocal of
      `|b|^2` scales it, and `vst2q` interleaves the result. */
  function NeonBlock(nums: seq<Complex>, dens: seq<Complex>): (r: seq<real>)
    requires |nums| == 4 && |dens| == 4 && NonZero(dens)
    ensures r == Flatten(Quotients(nums, dens))
  {
    var aVal := Neon.Vld2(Flatten(nums));
    var bVal := Neon.Vld2(Flatten(dens));
    var bAbs := Neon.Vmlaq(Neon.Vmulq(bVal.0, bVal.0), bVal.1, bVal.1);
    NeonNorms(dens);
    var bAbsInv := Neon.VrecpqRefined(bAbs);
    var re := Neon.Vmulq(Neon.Vmlaq(Neon.Vmulq(aVal.0, bVal.0), aVal.1, bVal.1), bAbsInv);
    var im := Neon.Vmulq(Neon.Vmlsq(Neon.Vmulq(aVal.1, bVal.0), aVal.0, bVal.1), bAbsInv);
    NeonParts(nums, dens, bAbsInv);
    Vst2Flatten(re, im, Quotients(nums, dens));
    Neon.Vst2(re, im)
  }

  /** `vmulq(br, br)` then `vmlaq(., bi, bi)` is |b_k|^2, non-zero. */
  lemma NeonNorms(dens: seq<Complex>)
    requires |dens| == 4 && NonZero(dens)
    ensures var bVal := Neon.Vld2(Flatten(dens));
            Neon.Vmlaq(Neon.Vmulq(bVal.0, bVal.0), bVal.1, bVal.1) == Norms(dens)
    ensures forall k :: 0 <= k < 4 ==> Norms(dens)[k] != 0.0
  {
    var bVal := Neon.Vld2(Flatten(dens));
    var bAbs := Neon.Vmlaq(Neon.Vmulq(bVal.0, bVal.0), bVal.1, bVal.1);
    forall k | 0 <= k < 4
      ensures bAbs[k] == Norms(dens)[k] != 0.0
    {
      FlattenAt(dens, k);
      NormSqZero(dens[k]);
      NormLane(bVal.0[k], bVal.1[k], dens[k]);
    }
  }

  lemma NormLane(br: real, bi: real, b: Complex)
    requires b == Complex(br, bi)
    ensures br * br + bi * bi == NormSq(b)
  {
  }

  lemma NeonParts(nums: seq<Complex>, dens: seq<Complex>, inv: seq<real>)
    requires |nums| == 4 && |dens| == 4 && NonZero(dens) && |inv| == 4
    requires forall k :: 0 <= k < 4 ==> inv[k] * Norms(dens)[k] == 1.0
    ensures var aVal := Neon.Vld2(Flatten(nums));
            var bVal := Neon.Vld2(Flatten(dens));
            var q := Quotients(nums, dens);
            forall k :: 0 <= k < 4 ==>
              Neon.Vmulq(Neon.Vmlaq(Neon.Vmulq(aVal.0, bVal.0), aVal.1, bVal.1), inv)[k] == q[k].re &&
              Neon.Vmulq(Neon.Vmlsq(Neon.Vmulq(aVal.1, bVal.0), aVal.0, bVal.1), inv)[k] == q[k].im
  {
    forall k | 0 <= k < 4 {
      NeonPartsAt(nums, dens, inv, k);
    }
  }

  /** Lane `k` of `NeonParts`. */
  lemma NeonPartsAt(nums: seq<Complex>, dens: seq<Complex>, inv: seq<real>, k: nat)
    requires |nums| == 4 && |dens| == 4 && NonZero(dens) && |inv| == 4 && k < 4
    requires inv[k] * Norms(dens)[k] == 1.0
    ensures var aVal := Neon.Vld2(Flatten(nums));
            var bVal := Neon.Vld2(Flatten(dens));
            Neon.Vmulq(Neon.Vmlaq(Neon.Vmulq(aVal.0, bVal.0), aVal.1, bVal.1), inv)[k] == Quot(nums[k], dens[k]).re &&
            Neon.Vmulq(Neon.Vmlsq(Neon.Vmulq(aVal.1, bVal.0), aVal.0, bVal.1), inv)[k] == Quot(nums[k], dens[k]).im
  {
    var aVal := Neon.Vld2(Flatten(nums));
    var bVal := Neon.Vld2(Flatten(dens));
    var re := Neon.Vmlaq(Neon.Vmulq(aVal.0, bVal.0), aVal.1, bVal.1);
    var im := Neon.Vmlsq(Neon.Vmulq(aVal.1, bVal.0), aVal.0, bVal.1);
    FlattenAt(nums, k);
    FlattenAt(dens, k);
    NeonLane(aVal.0[k], aVal.1[k], bVal.0[k], bVal.1[k], nums[k], dens[k], inv[k]);
    assert re[k] * inv[k] == (aVal.0[k] * bVal.0[k] + aVal.1[k] * bVal.1[k]) * inv[k];
    assert im[k] * inv[k] == (aVal.1[k] * bVal.0[k] - aVal.0[k] * bVal.1[k]) * inv[k];
  }

  /** `vst2q` of the real and the imaginary parts is the flattened vector. */
  lemma Vst2Flatten(re: seq<real>, im: seq<real>, zs: seq<Complex>)
    requires |re| == |im| == |zs|
    requires forall k :: 0 <= k < |zs| ==> re[k] == zs[k].re && im[k] == zs[k].im
    ensures Neon.Vst2(re, im) == Flatten(zs)
  {
    forall i | 0 <= i < 2 * |zs|
      ensures Neon.Vst2(re, im)[i] == Flatten(zs)[i]
    {
      FlattenAt(zs, i / 2);
      if i % 2 == 0 {
        assert i == 2 * (i / 2);
      } else {
        assert i == 2 * (i / 2) + 1;
      }
    }
  }

  /** `_generic`: one complex division per sample. */
  method Generic(aVector: seq<Complex>, bVector: seq<Complex>) returns (cVector: seq<Complex>)
    requires |aVector| == |bVector| && NonZero(bVector)
    ensures Divided(aVector, bVector, cVector)
  {
    cVector := [];
    var number := 0;
    while number < |aVector|
      invariant number <= |aVector|
      invariant Divided(aVector[..number], bVector[..number], cVector)
    {
      cVector := cVector + [Quot(aVector[number], bVector[number])];
      number := number + 1;
    }
    assert aVector[..number] == aVector && bVector[..number] == bVector;
  }

  /** The samples from `number` on, by the generic loop, after the blocks. */
  method Tail(aVector: seq<Complex>, bVector: seq<Complex>, number: nat, done: seq<Complex>)
    returns (cVector: seq<Complex>)
    requires |aVector| == |bVector| && NonZero(bVector) && number <= |aVector|
    requires Divided(aVector[..number], bVector[..number], done)
    ensures Divided(aVector, bVector, cVector)
  {
    var rest := Generic(aVector[number..], bVector[number..]);
    DividedAppend(aVector[..number], bVector[..number], done, aVector[number..], bVector[number..], rest);
    assert aVector[..number] + aVector[number..] == aVector;
    assert bVector[..number] + bVector[number..] == bVector;
    cVector := done + rest;
  }

  /** Which block a variant runs, and how many samples it takes. */
  datatype Variant = Sse3 | AvxU | AvxA | NeonQ

  function Width(v: Variant): (w: nat)
    ensures w == 4 || w == 8
  {
    if v == AvxA then 8 else 4
  }

  method Block(v: Variant, nums: seq<Complex>, dens: seq<Complex>) returns (r: seq<real>)
    requires |nums| == Width(v) && |dens| == Width(v) && NonZero(dens)
    ensures r == Flatten(Quotients(nums, dens))
  {
    match v
    case Sse3 => r := Sse3Block(nums, dens);
    case AvxU => r := AvxUBlock(nums, dens);
    case AvxA => r := AvxABlock(nums, dens);
    case NeonQ => r := NeonBlock(nums, dens);
  }

  /** The block of a variant at sample `from` extends the quotients of the
      samples before it. */
  method BlockStep(v: Variant, aVector: seq<Complex>, bVector: seq<Complex>, from: nat, done: seq<Complex>)
    returns (out: seq<Complex>)
    requires |aVector| == |bVector| && NonZero(bVector) && from + Width(v) <= |aVector|
    requires Divided(aVector[..from], bVector[..from], done)
    ensures Divided(aVector[..from + Width(v)], bVector[..from + Width(v)], done + out)
  {
    var to := from + Width(v);
    var nums := aVector[from..to];
    var dens := bVector[from..to];
    NonZeroSlice(bVector, from, to);
    var block := Block(v, nums, dens);
    out := Pairs(block);
    PairsFlatten(Quotients(nums, dens));
    DividedExtend(aVector, bVector, from, to, done, out);
  }

  lemma DividedExtend(aVector: seq<Complex>, bVector: seq<Complex>, from: nat, to: nat,
                      done: seq<Complex>, out: seq<Complex>)
    requires from <= to <= |aVector| == |bVector|
    requires Divided(aVector[..from], bVector[..from], done)
    requires Divided(aVector[from..to], bVector[from..to], out)
    ensures Divided(aVector[..to], bVector[..to], done + out)
  {
    DividedAppend(aVector[..from], bVector[..from], done, aVector[from..to], bVector[from..to], out);
    assert aVector[..from] + aVector[from..to] == aVector[..to];
    assert bVector[..from] + bVector[from..to] == bVector[..to];
  }

  /** `_u_sse3`, `_a_sse3`, `_u_avx`, `_a_avx` and `_neon`: whole blocks
      of `Width(v)` samples, then the rest one by one. */
  method Simd(v: Variant, aVector: seq<Complex>, bVector: seq<Complex>) returns (cVector: seq<Complex>)
    requires |aVector| == |bVector| && NonZero(bVector)
    ensures Divided(aVector, bVector, cVector)
  {
    var w := Width(v);
    var blocks := |aVector| / w;
    cVector := [];
    var number := 0;
    while number < blocks
      invariant number <= blocks
      invariant Divided(aVector[..w * number], bVector[..w * number], cVector)
    {
      var out := BlockStep(v, aVector, bVector, w * number, cVector);
      cVector := cVector + out;
      number := number + 1;
    }
    cVector := Tail(aVector, bVector, blocks * w, cVector);
  }
}
