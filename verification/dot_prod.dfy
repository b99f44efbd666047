/** `volk_16i_32fc_dot_prod_32fc`: the dot product of a vector of `int16_t`
    samples with a vector of complex taps, `sum_i taps[i] * (float)input[i]`.
    The variants add the same terms in different orders (four scalar
    accumulators, four registers of interleaved partial sums, split real
    and imaginary registers); in exact arithmetic every order gives `Dot`. */
module DotProd {
  import opened Lanes
  import opened Complex
  import opened X86
  import Neon

  /** `taps[i] * (float)input[i]`: the complex tap scaled by the sample. */
  function Term(x: Int16, tap: Complex): Complex
  {
    Scale(x as real, tap)
  }

  function Terms(input: seq<Int16>, taps: seq<Complex>): (ts: seq<Complex>)
    requires |input| == |taps|
    ensures |ts| == |input|
    ensures forall i :: 0 <= i < |ts| ==> ts[i] == Term(input[i], taps[i])
  {
    seq(|input|, i requires 0 <= i < |input| => Term(input[i], taps[i]))
  }

  /** Complex values added one after the other, first to last. */
  function Sum(zs: seq<Complex>): Complex
  {
    if |zs| == 0 then Zero else Add(Sum(zs[..|zs| - 1]), zs[|zs| - 1])
  }

  /** Reference: the dot product. Summed last to first it is the same
      value. */
  function Dot(input: seq<Int16>, taps: seq<Complex>): (r: Complex)
    requires |input| == |taps|
    ensures r == SumFromFront(Terms(input, taps))
  {
    SumOrders(Terms(input, taps));
    Sum(Terms(input, taps))
  }

  /** The same sum taken last to first, an independent definition. */
  function SumFromFront(zs: seq<Complex>): Complex
  {
    if |zs| == 0 then Zero else Add(zs[0], SumFromFront(zs[1..]))
  }

  /** A sum splits at any point. */
  lemma {:induction false} SumAppend(xs: seq<Complex>, ys: seq<Complex>)
    ensures Sum(xs + ys) == Add(Sum(xs), Sum(ys))
    decreases |ys|
  {
    if |ys| == 0 {
      assert xs + ys == xs;
    } else {
      var zs := xs + ys;
      assert zs[..|zs| - 1] == xs + ys[..|ys| - 1];
      SumAppend(xs, ys[..|ys| - 1]);
    }
  }

  /** The order of the additions does not matter: summing from the front
      gives the same value. */
  lemma {:induction false} SumOrders(zs: seq<Complex>)
    ensures Sum(zs) == SumFromFront(zs)
    decreases |zs|
  {
    if |zs| > 0 {
      SumOrders(zs[1..]);
      SumAppend([zs[0]], zs[1..]);
      assert [zs[0]] + zs[1..] == zs;
      assert Sum([zs[0]]) == Add(Zero, zs[0]) by {
        assert [zs[0]][..0] == [];
      }
    }
  }

  /** One more term on a prefix sum. */
  lemma SumStep(zs: seq<Complex>, i: nat)
    requires i < |zs|
    ensures Sum(zs[..i + 1]) == Add(Sum(zs[..i]), zs[i])
  {
    assert zs[..i + 1][..i] == zs[..i];
  }

  /** A prefix sum extended by the block `from .. to`. */
  lemma SumExtend(zs: seq<Complex>, from: nat, to: nat)
    requires from <= to <= |zs|
    ensures Sum(zs[..to]) == Add(Sum(zs[..from]), Sum(zs[from..to]))
  {
    SumAppend(zs[..from], zs[from..to]);
    assert zs[..from] + zs[from..to] == zs[..to];
  }

  /** A prefix of the terms extended by the block `from .. to` adds that
      block's dot product. */
  lemma BlockSum(input: seq<Int16>, taps: seq<Complex>, from: nat, to: nat)
    requires |input| == |taps| && from <= to <= |input|
    ensures Sum(Terms(input, taps)[..to]) == Add(Sum(Terms(input, taps)[..from]), Dot(input[from..to], taps[from..to]))
  {
    TermsSlice(input, taps, from, to);
    SumExtend(Terms(input, taps), from, to);
  }

  /** The dot product of two concatenations is the sum of the dot
      products. */
  lemma DotAppend(input: seq<Int16>, taps: seq<Complex>, input': seq<Int16>, taps': seq<Complex>)
    requires |input| == |taps| && |input'| == |taps'|
    ensures Dot(input + input', taps + taps') == Add(Dot(input, taps), Dot(input', taps'))
  {
    assert Terms(input + input', taps + taps') == Terms(input, taps) + Terms(input', taps');
    SumAppend(Terms(input, taps), Terms(input', taps'));
  }

  /** Every tap multiplied by the real `k`. */
  function ScaleTaps(k: real, taps: seq<Complex>): (r: seq<Complex>)
    ensures |r| == |taps|
    ensures forall i :: 0 <= i < |taps| ==> r[i] == Scale(k, taps[i])
  {
    seq(|taps|, i requires 0 <= i < |taps| => Scale(k, taps[i]))
  }

  /** The dot product is linear in the taps: scaling every tap by `k`
      scales the result by `k`. */
  lemma {:induction false} DotScaleTaps(input: seq<Int16>, taps: seq<Complex>, k: real)
    requires |input| == |taps|
    ensures Dot(input, ScaleTaps(k, taps)) == Scale(k, Dot(input, taps))
    decreases |input|
  {
    if |input| > 0 {
      var n := |input| - 1;
      var scaled := ScaleTaps(k, taps);
      var ts := Terms(input, scaled);
      var us := Terms(input, taps);
      assert ts[..n] == Terms(input[..n], ScaleTaps(k, taps[..n]));
      assert us[..n] == Terms(input[..n], taps[..n]);
      DotScaleTaps(input[..n], taps[..n], k);
      TermScale(input[n], taps[n], k);
      ScaleAdd(k, Sum(us[..n]), us[n]);
    }
  }

  lemma ScaleAdd(k: real, a: Complex, b: Complex)
    ensures Scale(k, Add(a, b)) == Add(Scale(k, a), Scale(k, b))
  {
    assert k * (a.re + b.re) == k * a.re + k * b.re;
    assert k * (a.im + b.im) == k * a.im + k * b.im;
  }

  lemma TermScale(x: Int16, tap: Complex, k: real)
    ensures Term(x, Scale(k, tap)) == Scale(k, Term(x, tap))
  {
    var y := x as real;
    assert y * (k * tap.re) == k * (y * tap.re);
    assert y * (k * tap.im) == k * (y * tap.im);
  }

  lemma TermsSlice(input: seq<Int16>, taps: seq<Complex>, from: nat, to: nat)
    requires |input| == |taps| && from <= to <= |input|
    ensures Terms(input, taps)[from..to] == Terms(input[from..to], taps[from..to])
  {
  }

  /** `_generic`: four accumulators take the terms in turn over the whole
      blocks of four; the remaining terms go into `acc0`; the result is
      `acc0 + acc1 + acc2 + acc3`. */
  method Generic(input: seq<Int16>, taps: seq<Complex>) returns (result: Complex)
    requires |input| == |taps|
    ensures result == Dot(input, taps)
  {
    var ts := Terms(input, taps);
    var n := (|input| / 4) * 4;
    var acc0, acc1, acc2, acc3 := Unrolled(ts, n);
    var i := n;
    while i < |input|
      invariant n <= i <= |input|
      invariant Add(Add(Add(acc0, acc1), acc2), acc3) == Sum(ts[..i])
    {
      SumStep(ts, i);
      acc0 := Add(acc0, ts[i]);
      i := i + 1;
    }
    assert ts[..i] == ts;
    result := Add(Add(Add(acc0, acc1), acc2), acc3);
  }

  /** The unrolled loop of `_generic` over the first `n` terms, `n` a
      multiple of four: accumulator `j` takes the terms `4m + j`, and the
      four together hold the sum of the first `n` terms. */
  method Unrolled(ts: seq<Complex>, n: nat) returns (acc0: Complex, acc1: Complex, acc2: Complex, acc3: Complex)
    requires n <= |ts| && n % 4 == 0
    ensures Add(Add(Add(acc0, acc1), acc2), acc3) == Sum(ts[..n])
  {
    acc0, acc1, acc2, acc3 := Zero, Zero, Zero, Zero;
    var i := 0;
    while i < n
      invariant i <= n && i % 4 == 0
      invariant Add(Add(Add(acc0, acc1), acc2), acc3) == Sum(ts[..i])
    {
      FourSteps(ts, i, acc0, acc1, acc2, acc3);
      acc0 := Add(acc0, ts[i + 0]);
      acc1 := Add(acc1, ts[i + 1]);
      acc2 := Add(acc2, ts[i + 2]);
      acc3 := Add(acc3, ts[i + 3]);
      i := i + 4;
    }
  }

  /** One pass of the unrolled loop: each accumulator takes one of the
      next four terms, and the four together still hold the prefix sum. */
  lemma FourSteps(ts: seq<Complex>, i: nat, acc0: Complex, acc1: Complex, acc2: Complex, acc3: Complex)
    requires i + 4 <= |ts|
    requires Add(Add(Add(acc0, acc1), acc2), acc3) == Sum(ts[..i])
    ensures Add(Add(Add(Add(acc0, ts[i]), Add(acc1, ts[i + 1])), Add(acc2, ts[i + 2])), Add(acc3, ts[i + 3]))
            == Sum(ts[..i + 4])
  {
    SumStep(ts, i);
    SumStep(ts, i + 1);
    SumStep(ts, i + 2);
    SumStep(ts, i + 3);
  }

  /** The scalar tail of the SIMD variants: `*realpt += x * re`,
      `*imagpt += x * im` per remaining sample. */
  method Tail(input: seq<Int16>, taps: seq<Complex>, from: nat, acc: Complex) returns (result: Complex)
    requires |input| == |taps| && from <= |input|
    requires acc == Sum(Terms(input, taps)[..from])
    ensures result == Dot(input, taps)
  {
    var ts := Terms(input, taps);
    result := acc;
    var number := from;
    while number < |input|
      invariant from <= number <= |input|
      invariant result == Sum(ts[..number])
    {
      SumStep(ts, number);
      var x := input[number] as real;
      assert Complex(result.re + x * taps[number].re, result.im + x * taps[number].im) == Add(result, ts[number]);
      result := Complex(result.re + x * taps[number].re, result.im + x * taps[number].im);
      number := number + 1;
    }
    assert ts[..number] == ts;
  }

  /** The complex sum of the samples a register of interleaved floats
      holds. */
  function Collapse(r: seq<real>): Complex
    requires |r| % 2 == 0
  {
    Sum(Pairs(r))
  }

  lemma {:induction false} SumPointwise(xs: seq<Complex>, ys: seq<Complex>)
    requires |xs| == |ys|
    ensures Sum(seq(|xs|, k requires 0 <= k < |xs| => Add(xs[k], ys[k]))) == Add(Sum(xs), Sum(ys))
    decreases |xs|
  {
    var zs := seq(|xs|, k requires 0 <= k < |xs| => Add(xs[k], ys[k]));
    if |xs| > 0 {
      var n := |xs| - 1;
      assert zs[..n] == seq(|xs[..n]|, k requires 0 <= k < |xs[..n]| => Add(xs[..n][k], ys[..n][k]));
      SumPointwise(xs[..n], ys[..n]);
    }
  }

  /** Adding two registers lane by lane adds their collapsed sums. */
  lemma CollapseAdd(a: seq<real>, b: seq<real>)
    requires |a| == |b| && |a| % 2 == 0
    ensures Collapse(AddPs(a, b)) == Add(Collapse(a), Collapse(b))
  {
    var xs := Pairs(a);
    var ys := Pairs(b);
    assert Pairs(AddPs(a, b)) == seq(|xs|, k requires 0 <= k < |xs| => Add(xs[k], ys[k]));
    SumPointwise(xs, ys);
  }

  /** Each sample doubled, times the interleaved taps, is the interleaved
      terms. */
  lemma ScaledTaps(xs: seq<real>, input: seq<Int16>, taps: seq<Complex>)
    requires |xs| == |input| == |taps|
    requires forall i :: 0 <= i < |xs| ==> xs[i] == input[i] as real
    ensures MulPs(Doubled(xs), Flatten(taps)) == Flatten(Terms(input, taps))
  {
    var r := MulPs(Doubled(xs), Flatten(taps));
    var ts := Terms(input, taps);
    forall i | 0 <= i < |r|
      ensures r[i] == Flatten(ts)[i]
    {
      var k := i / 2;
      FlattenAt(taps, k);
      FlattenAt(ts, k);
      if i % 2 == 0 {
        assert i == 2 * k;
      } else {
        assert i == 2 * k + 1;
      }
    }
  }

  /** One accumulator register after `add(c, dp)`, where `c` holds the
      interleaved terms `ts`. */
  lemma Accumulate(c: seq<real>, dp: seq<real>, ts: seq<Complex>)
    requires |c| == |dp| && c == Flatten(ts)
    ensures Collapse(AddPs(c, dp)) == Add(Sum(ts), Collapse(dp))
  {
    CollapseAdd(c, dp);
    PairsFlatten(ts);
  }

  /** A block's terms split in four consecutive quarters. */
  lemma SumQuarters(ts: seq<Complex>, q: nat)
    requires |ts| == 4 * q
    ensures Sum(ts) == Add(Add(Add(Sum(ts[0..q]), Sum(ts[q..2 * q])), Sum(ts[2 * q..3 * q])), Sum(ts[3 * q..4 * q]))
  {
    SumExtend(ts, 0, q);
    SumExtend(ts, q, 2 * q);
    SumExtend(ts, 2 * q, 3 * q);
    SumExtend(ts, 3 * q, 4 * q);
    assert ts[..0] == [];
    assert ts[..4 * q] == ts;
    assert ts[0..q] == ts[..q];
  }

  /** The four accumulator registers of the SSE and AVX2 variants. */
  datatype Accumulators = Accumulators(dp0: seq<real>, dp1: seq<real>, dp2: seq<real>, dp3: seq<real>)

  predicate Sized(acc: Accumulators, lanes: nat)
  {
    |acc.dp0| == lanes && |acc.dp1| == lanes && |acc.dp2| == lanes && |acc.dp3| == lanes
  }

  /** What the registers add up to once collapsed, in the order of the
      final reduction `dp0 + dp1 + dp2 + dp3`. */
  function Total(acc: Accumulators): Complex
    requires Sized(acc, 4) || Sized(acc, 8)
  {
    Add(Add(Add(Collapse(acc.dp0), Collapse(acc.dp1)), Collapse(acc.dp2)), Collapse(acc.dp3))
  }

  lemma {:induction false} SumZeros(zs: seq<Complex>)
    requires forall k :: 0 <= k < |zs| ==> zs[k] == Zero
    ensures Sum(zs) == Zero
    decreases |zs|
  {
    if |zs| > 0 {
      SumZeros(zs[..|zs| - 1]);
    }
  }

  lemma CollapseZeros(r: seq<real>)
    requires |r| % 2 == 0
    requires forall i :: 0 <= i < |r| ==> r[i] == 0.0
    ensures Collapse(r) == Zero
  {
    SumZeros(Pairs(r));
  }

  /** `_mm_setzero_ps` / `_mm256_setzero_ps` for all four accumulators:
      every lane is zero, so the registers sum to zero. */
  method Setzero(lanes: nat) returns (acc: Accumulators)
    requires lanes == 4 || lanes == 8
    ensures Sized(acc, lanes)
    ensures forall i :: 0 <= i < lanes ==> acc.dp0[i] == acc.dp1[i] == acc.dp2[i] == acc.dp3[i] == 0.0
    ensures Total(acc) == Zero
  {
    var zero := Set1(0.0, lanes);
    CollapseZeros(zero);
    acc := Accumulators(zero, zero, zero, zero);
  }

  /** Adding four accumulators, each with its quarter of a block's terms,
      adds the block's terms to the total. */
  lemma AccumulateAll(acc: Accumulators, c: Accumulators, ts: seq<Complex>, q: nat, lanes: nat)
    requires lanes == 2 * q && (q == 2 || q == 4) && Sized(acc, lanes) && Sized(c, lanes) && |ts| == 4 * q
    requires c.dp0 == Flatten(ts[0..q]) && c.dp1 == Flatten(ts[q..2 * q])
    requires c.dp2 == Flatten(ts[2 * q..3 * q]) && c.dp3 == Flatten(ts[3 * q..4 * q])
    ensures var next := Accumulators(AddPs(c.dp0, acc.dp0), AddPs(c.dp1, acc.dp1), AddPs(c.dp2, acc.dp2), AddPs(c.dp3, acc.dp3));
            Total(next) == Add(Total(acc), Sum(ts))
  {
    Accumulate(c.dp0, acc.dp0, ts[0..q]);
    Accumulate(c.dp1, acc.dp1, ts[q..2 * q]);
    Accumulate(c.dp2, acc.dp2, ts[2 * q..3 * q]);
    Accumulate(c.dp3, acc.dp3, ts[3 * q..4 * q]);
    SumQuarters(ts, q);
  }

  /** `_u_sse` / `_a_sse`: `_mm_set_pi16` and `_mm_cvtpi16_ps` make two
      registers of four samples; `unpacklo(f, f)` / `unpackhi(f, f)` double
      them to line up with the interleaved taps. */
  function SseProducts(input: seq<Int16>, taps: seq<Complex>): (c: Accumulators)
    requires |input| == 8 && |taps| == 8
    ensures Sized(c, 4)
  {
    var m0 := SetPi16(input[3], input[2], input[1], input[0]);
    var m1 := SetPi16(input[7], input[6], input[5], input[4]);
    var f0 := CvtPi16Ps(m0);
    var f1 := CvtPi16Ps(m0);
    var f2 := CvtPi16Ps(m1);
    var f3 := CvtPi16Ps(m1);
    var a0Val := UnpackLoPs(f0, f1);
    var a1Val := UnpackHiPs(f0, f1);
    var a2Val := UnpackLoPs(f2, f3);
    var a3Val := UnpackHiPs(f2, f3);
    var b := Flatten(taps);
    Accumulators(MulPs(a0Val, b[0..4]), MulPs(a1Val, b[4..8]), MulPs(a2Val, b[8..12]), MulPs(a3Val, b[12..16]))
  }

  /** Register `j` of the SSE products holds the terms of samples `2j` and
      `2j + 1`. */
  lemma SseProductsAreTerms(input: seq<Int16>, taps: seq<Complex>)
    requires |input| == 8 && |taps| == 8
    ensures var c := SseProducts(input, taps);
            var ts := Terms(input, taps);
            c.dp0 == Flatten(ts[0..2]) && c.dp1 == Flatten(ts[2..4]) &&
            c.dp2 == Flatten(ts[4..6]) && c.dp3 == Flatten(ts[6..8])
  {
    SseHalf(input, taps, 0);
    SseHalf(input, taps, 4);
  }

  /** Four samples from `from` on, converted, spread by the two unpacks
      and multiplied by their taps, are their interleaved terms. */
  lemma SseHalf(input: seq<Int16>, taps: seq<Complex>, from: nat)
    requires |input| == |taps| && from + 4 <= |input|
    ensures var f := CvtPi16Ps(SetPi16(input[from + 3], input[from + 2], input[from + 1], input[from]));
            var b := Flatten(taps);
            var ts := Terms(input, taps);
            MulPs(UnpackLoPs(f, f), b[2 * from..2 * from + 4]) == Flatten(ts[from..from + 2]) &&
            MulPs(UnpackHiPs(f, f), b[2 * from + 4..2 * from + 8]) == Flatten(ts[from + 2..from + 4])
  {
    var xs := seq(|input|, i requires 0 <= i < |input| => input[i] as real);
    var f := CvtPi16Ps(SetPi16(input[from + 3], input[from + 2], input[from + 1], input[from]));
    assert f == xs[from..from + 4];
    var b := Flatten(taps);
    SseSpread(f);
    assert f[0..2] == xs[from..from + 2] && f[2..4] == xs[from + 2..from + 4];
    assert 2 * (from + 2) == 2 * from + 4 && 2 * (from + 2 + 2) == 2 * from + 8;
    QuarterTerms(xs, input, taps, from, 2);
    QuarterTerms(xs, input, taps, from + 2, 2);
    assert MulPs(UnpackLoPs(f, f), b[2 * from..2 * from + 4])
        == MulPs(Doubled(xs[from..from + 2]), b[2 * from..2 * (from + 2)]);
    assert MulPs(UnpackHiPs(f, f), b[2 * from + 4..2 * from + 8])
        == MulPs(Doubled(xs[from + 2..from + 4]), b[2 * (from + 2)..2 * (from + 2 + 2)]);
  }

  /** `unpacklo(f, f)` and `unpackhi(f, f)` double the first and the second
      half of `f`. */
  lemma SseSpread(f: seq<real>)
    requires |f| == 4
    ensures UnpackLoPs(f, f) == Doubled(f[0..2]) && UnpackHiPs(f, f) == Doubled(f[2..4])
  {
    assert Doubled(f[0..2]) == [f[0], f[0], f[1], f[1]];
    assert Doubled(f[2..4]) == [f[2], f[2], f[3], f[3]];
  }

  /** Samples `from .. from + len` of a block: doubled, times their slice of
      the interleaved taps, they are their terms. */
  lemma QuarterTerms(xs: seq<real>, input: seq<Int16>, taps: seq<Complex>, from: nat, len: nat)
    requires |xs| == |input| == |taps| && from + len <= |xs|
    requires forall i :: 0 <= i < |xs| ==> xs[i] == input[i] as real
    ensures MulPs(Doubled(xs[from..from + len]), Flatten(taps)[2 * from..2 * (from + len)])
            == Flatten(Terms(input, taps)[from..from + len])
  {
    FlattenSlice(taps, from, len);
    TermsSlice(input, taps, from, from + len);
    ScaledTaps(xs[from..from + len], input[from..from + len], taps[from..from + len]);
  }

  /** One SSE block of eight samples: `dpj = add(mul(ajVal, bjVal), dpj)`. */
  function SseNext(acc: Accumulators, input: seq<Int16>, taps: seq<Complex>): (next: Accumulators)
    requires |input| == 8 && |taps| == 8 && Sized(acc, 4)
    ensures Sized(next, 4)
    ensures Total(next) == Add(Total(acc), Dot(input, taps))
  {
    var c := SseProducts(input, taps);
    SseProductsAreTerms(input, taps);
    AccumulateAll(acc, c, Terms(input, taps), 2, 4);
    Accumulators(AddPs(c.dp0, acc.dp0), AddPs(c.dp1, acc.dp1), AddPs(c.dp2, acc.dp2), AddPs(c.dp3, acc.dp3))
  }

  /** `_mm256_cvtepi16_epi32`, `_mm256_cvtepi32_ps`, the in-lane unpacks and
      `permute2f128` with `0x20` / `0x31`: the doubled first and second
      halves of eight samples `g`. */
  lemma Avx2Spread(g: seq<real>)
    requires |g| == 8
    ensures Permute2f128Ps(UnpackLo256Ps(g, g), UnpackHi256Ps(g, g), 0x20) == Doubled(g[0..4])
    ensures Permute2f128Ps(UnpackLo256Ps(g, g), UnpackHi256Ps(g, g), 0x31) == Doubled(g[4..8])
  {
    assert Doubled(g[0..4]) == [g[0], g[0], g[1], g[1], g[2], g[2], g[3], g[3]];
    assert Doubled(g[4..8]) == [g[4], g[4], g[5], g[5], g[6], g[6], g[7], g[7]];
  }

  /** The four doubled sample registers of an AVX2 block of sixteen. */
  function Avx2Samples(input: seq<Int16>): (a: Accumulators)
    requires |input| == 16
    ensures Sized(a, 8)
  {
    var m0 := input[0..8];
    var m1 := input[8..16];
    var g0 := CvtEpi32Ps(CvtEpi16Epi32(m0));
    var g1 := CvtEpi32Ps(CvtEpi16Epi32(m1));
    var h0 := UnpackLo256Ps(g0, g0);
    var h1 := UnpackHi256Ps(g0, g0);
    var h2 := UnpackLo256Ps(g1, g1);
    var h3 := UnpackHi256Ps(g1, g1);
    Accumulators(Permute2f128Ps(h0, h1, 0x20), Permute2f128Ps(h0, h1, 0x31),
                 Permute2f128Ps(h2, h3, 0x20), Permute2f128Ps(h2, h3, 0x31))
  }

  lemma Avx2SamplesDoubled(input: seq<Int16>)
    requires |input| == 16
    ensures var a := Avx2Samples(input);
            var xs := seq(16, i requires 0 <= i < 16 => input[i] as real);
            a.dp0 == Doubled(xs[0..4]) && a.dp1 == Doubled(xs[4..8]) &&
            a.dp2 == Doubled(xs[8..12]) && a.dp3 == Doubled(xs[12..16])
  {
    var xs := seq(16, i requires 0 <= i < 16 => input[i] as real);
    var g0 := CvtEpi32Ps(CvtEpi16Epi32(input[0..8]));
    var g1 := CvtEpi32Ps(CvtEpi16Epi32(input[8..16]));
    assert g0 == xs[0..8] && g1 == xs[8..16];
    Avx2Spread(g0);
    Avx2Spread(g1);
    assert g0[0..4] == xs[0..4] && g0[4..8] == xs[4..8];
    assert g1[0..4] == xs[8..12] && g1[4..8] == xs[12..16];
  }

  /** `_mm256_fmadd_ps(a, b, c)` is `_mm256_add_ps(_mm256_mul_ps(a, b), c)`
      in exact arithmetic, so the `_fma` variants take the same step. */
  lemma FmaddIsMulAdd(a: seq<real>, b: seq<real>, c: seq<real>)
    requires |a| == |b| == |c|
    ensures FmaddPs(a, b, c) == AddPs(MulPs(a, b), c)
  {
  }

  /** One AVX2 block of sixteen samples, with `mul` then `add` or with
      `fmadd`. */
  function Avx2Next(fma: bool, acc: Accumulators, input: seq<Int16>, taps: seq<Complex>): (next: Accumulators)
    requires |input| == 16 && |taps| == 16 && Sized(acc, 8)
    ensures Sized(next, 8)
    ensures Total(next) == Add(Total(acc), Dot(input, taps))
  {
    var a := Avx2Samples(input);
    var b := Flatten(taps);
    var b0Val, b1Val, b2Val, b3Val := b[0..8], b[8..16], b[16..24], b[24..32];
    var c := Accumulators(MulPs(a.dp0, b0Val), MulPs(a.dp1, b1Val), MulPs(a.dp2, b2Val), MulPs(a.dp3, b3Val));
    Avx2Products(input, taps);
    AccumulateAll(acc, c, Terms(input, taps), 4, 8);
    if fma then
      FmaddIsMulAdd(a.dp0, b0Val, acc.dp0);
      FmaddIsMulAdd(a.dp1, b1Val, acc.dp1);
      FmaddIsMulAdd(a.dp2, b2Val, acc.dp2);
      FmaddIsMulAdd(a.dp3, b3Val, acc.dp3);
      Accumulators(FmaddPs(a.dp0, b0Val, acc.dp0), FmaddPs(a.dp1, b1Val, acc.dp1),
                   FmaddPs(a.dp2, b2Val, acc.dp2), FmaddPs(a.dp3, b3Val, acc.dp3))
    else
      Accumulators(AddPs(c.dp0, acc.dp0), AddPs(c.dp1, acc.dp1), AddPs(c.dp2, acc.dp2), AddPs(c.dp3, acc.dp3))
  }

  lemma Avx2Products(input: seq<Int16>, taps: seq<Complex>)
    requires |input| == 16 && |taps| == 16
    ensures var a := Avx2Samples(input);
            var b := Flatten(taps);
            var ts := Terms(input, taps);
            MulPs(a.dp0, b[0..8]) == Flatten(ts[0..4]) && MulPs(a.dp1, b[8..16]) == Flatten(ts[4..8]) &&
            MulPs(a.dp2, b[16..24]) == Flatten(ts[8..12]) && MulPs(a.dp3, b[24..32]) == Flatten(ts[12..16])
  {
    var xs := seq(16, i requires 0 <= i < 16 => input[i] as real);
    var a := Avx2Samples(input);
    var b := Flatten(taps);
    var ts := Terms(input, taps);
    Avx2SamplesDoubled(input);
    QuarterTerms(xs, input, taps, 0, 4);
    assert MulPs(a.dp0, b[0..8]) == Flatten(ts[0..4]);
    QuarterTerms(xs, input, taps, 4, 4);
    assert MulPs(a.dp1, b[8..16]) == Flatten(ts[4..8]);
    QuarterTerms(xs, input, taps, 8, 4);
    assert MulPs(a.dp2, b[16..24]) == Flatten(ts[8..12]);
    QuarterTerms(xs, input, taps, 12, 4);
    assert MulPs(a.dp3, b[24..32]) == Flatten(ts[12..16]);
  }

  /** The final reduction of the SSE variants: `realpt = d[0] + d[2]`,
      `imagpt = d[1] + d[3]` of `dp0 + dp1 + dp2 + dp3`. */
  function SseReduce(acc: Accumulators): (r: Complex)
    requires Sized(acc, 4)
    ensures r == Total(acc)
  {
    var d := AddPs(AddPs(AddPs(acc.dp0, acc.dp1), acc.dp2), acc.dp3);
    CollapseAdd(acc.dp0, acc.dp1);
    CollapseAdd(AddPs(acc.dp0, acc.dp1), acc.dp2);
    CollapseAdd(AddPs(AddPs(acc.dp0, acc.dp1), acc.dp2), acc.dp3);
    CollapseFour(d);
    Complex(d[0] + d[2], d[1] + d[3])
  }

  lemma CollapseFour(d: seq<real>)
    requires |d| == 4
    ensures Collapse(d) == Complex(d[0] + d[2], d[1] + d[3])
  {
    var zs := Pairs(d);
    assert zs == [Complex(d[0], d[1]), Complex(d[2], d[3])];
    SumTwo(zs[0], zs[1]);
  }

  lemma CollapseEight(d: seq<real>)
    requires |d| == 8
    ensures Collapse(d) == Complex(d[0] + d[2] + d[4] + d[6], d[1] + d[3] + d[5] + d[7])
  {
    var zs := Pairs(d);
    assert zs == [Complex(d[0], d[1]), Complex(d[2], d[3]), Complex(d[4], d[5]), Complex(d[6], d[7])];
    SumFour(zs[0], zs[1], zs[2], zs[3]);
  }

  lemma SumOne(a: Complex)
    ensures Sum([a]) == a
  {
    assert [a][..0] == [];
  }

  lemma SumTwo(a: Complex, b: Complex)
    ensures Sum([a, b]) == Add(a, b)
  {
    assert [a, b][..1] == [a];
    SumOne(a);
  }

  lemma SumFour(a: Complex, b: Complex, c: Complex, e: Complex)
    ensures Sum([a, b, c, e]) == Add(Add(Add(a, b), c), e)
  {
    assert [a, b, c, e][..3] == [a, b, c];
    assert [a, b, c][..2] == [a, b];
    SumTwo(a, b);
  }

  /** The final reduction of the AVX2 variants: the even lanes of
      `dp0 + dp1 + dp2 + dp3` into `realpt`, the odd ones into `imagpt`. */
  function Avx2Reduce(acc: Accumulators): (r: Complex)
    requires Sized(acc, 8)
    ensures r == Total(acc)
  {
    var d := AddPs(AddPs(AddPs(acc.dp0, acc.dp1), acc.dp2), acc.dp3);
    CollapseAdd(acc.dp0, acc.dp1);
    CollapseAdd(AddPs(acc.dp0, acc.dp1), acc.dp2);
    CollapseAdd(AddPs(AddPs(acc.dp0, acc.dp1), acc.dp2), acc.dp3);
    CollapseEight(d);
    Complex(d[0] + d[2] + d[4] + d[6], d[1] + d[3] + d[5] + d[7])
  }

  /** `_u_sse` and `_a_sse`: blocks of eight samples, then the scalar
      tail. */
  method Sse(input: seq<Int16>, taps: seq<Complex>) returns (result: Complex)
    requires |input| == |taps|
    ensures result == Dot(input, taps)
  {
    var ts := Terms(input, taps);
    var sixteenthPoints := |input| / 8;
    var acc := Setzero(4);
    var number := 0;
    while number < sixteenthPoints
      invariant number <= sixteenthPoints && Sized(acc, 4)
      invariant Total(acc) == Sum(ts[..8 * number])
    {
      var from := 8 * number;
      BlockSum(input, taps, from, from + 8);
      acc := SseNext(acc, input[from..from + 8], taps[from..from + 8]);
      number := number + 1;
    }
    result := Tail(input, taps, sixteenthPoints * 8, SseReduce(acc));
  }

  /** `_u_avx2`, `_a_avx2`, `_u_avx2_fma` and `_a_avx2_fma`: blocks of
      sixteen samples, then the scalar tail. */
  method Avx2(fma: bool, input: seq<Int16>, taps: seq<Complex>) returns (result: Complex)
    requires |input| == |taps|
    ensures result == Dot(input, taps)
  {
    var ts := Terms(input, taps);
    var sixteenthPoints := |input| / 16;
    var acc := Setzero(8);
    var number := 0;
    while number < sixteenthPoints
      invariant number <= sixteenthPoints && Sized(acc, 8)
      invariant Total(acc) == Sum(ts[..16 * number])
    {
      var from := 16 * number;
      BlockSum(input, taps, from, from + 16);
      acc := Avx2Next(fma, acc, input[from..from + 16], taps[from..from + 16]);
      number := number + 1;
    }
    result := Tail(input, taps, sixteenthPoints * 16, Avx2Reduce(acc));
  }

  /** The NEON accumulators after `vst2q` into four complex values, reduced
      as `(v0 + v1) + (v2 + v3)`. */
  function NeonReduce(accRe: seq<real>, accIm: seq<real>): Complex
    requires |accRe| == 4 && |accIm| == 4
  {
    var v := Pairs(Neon.Vst2(accRe, accIm));
    Add(Add(v[0], v[1]), Add(v[2], v[3]))
  }

  /** One NEON block of four samples: `vld2q` splits the taps, `vmovl` and
      `vcvtq` widen the samples, and `vmulq`/`vaddq` accumulate real and
      imaginary parts separately. */
  function NeonNext(accRe: seq<real>, accIm: seq<real>, input: seq<Int16>, taps: seq<Complex>)
    : (next: (seq<real>, seq<real>))
    requires |accRe| == 4 && |accIm| == 4 && |input| == 4 && |taps| == 4
    ensures |next.0| == 4 && |next.1| == 4
    ensures NeonReduce(next.0, next.1) == Add(NeonReduce(accRe, accIm), Dot(input, taps))
  {
    var tapsVal := Neon.Vld2(Flatten(taps));
    var inputFloat := Neon.VcvtqF32S32(Neon.Vmovl(input));
    var prodRe := Neon.Vmulq(inputFloat, tapsVal.0);
    var prodIm := Neon.Vmulq(inputFloat, tapsVal.1);
    NeonTerms(input, taps);
    NeonLanes(prodRe, prodIm);
    NeonReduceAdd(prodRe, prodIm, accRe, accIm);
    (Neon.Vaddq(prodRe, accRe), Neon.Vaddq(prodIm, accIm))
  }

  /** Adding registers lane by lane adds their reductions. */
  lemma NeonReduceAdd(pRe: seq<real>, pIm: seq<real>, accRe: seq<real>, accIm: seq<real>)
    requires |pRe| == 4 && |pIm| == 4 && |accRe| == 4 && |accIm| == 4
    ensures NeonReduce(Neon.Vaddq(pRe, accRe), Neon.Vaddq(pIm, accIm)) == Add(NeonReduce(accRe, accIm), NeonReduce(pRe, pIm))
  {
    NeonLanes(pRe, pIm);
    NeonLanes(accRe, accIm);
    NeonLanes(Neon.Vaddq(pRe, accRe), Neon.Vaddq(pIm, accIm));
  }

  lemma NeonLanes(accRe: seq<real>, accIm: seq<real>)
    requires |accRe| == 4 && |accIm| == 4
    ensures NeonReduce(accRe, accIm) == Complex(accRe[0] + accRe[1] + accRe[2] + accRe[3], accIm[0] + accIm[1] + accIm[2] + accIm[3])
  {
    var v := Pairs(Neon.Vst2(accRe, accIm));
    assert v[0] == Complex(accRe[0], accIm[0]) && v[1] == Complex(accRe[1], accIm[1]);
    assert v[2] == Complex(accRe[2], accIm[2]) && v[3] == Complex(accRe[3], accIm[3]);
  }

  /** Lane `k` of the two `vmulq` products is the real and the imaginary
      part of term `k`. */
  lemma NeonProducts(input: seq<Int16>, taps: seq<Complex>, k: nat)
    requires |input| == 4 && |taps| == 4 && k < 4
    ensures var tapsVal := Neon.Vld2(Flatten(taps));
            var inputFloat := Neon.VcvtqF32S32(Neon.Vmovl(input));
            Neon.Vmulq(inputFloat, tapsVal.0)[k] == Term(input[k], taps[k]).re
            && Neon.Vmulq(inputFloat, tapsVal.1)[k] == Term(input[k], taps[k]).im
  {
    var tapsVal := Neon.Vld2(Flatten(taps));
    var inputFloat := Neon.VcvtqF32S32(Neon.Vmovl(input));
    FlattenAt(taps, k);
    assert inputFloat[k] * tapsVal.0[k] == input[k] as real * taps[k].re;
    assert inputFloat[k] * tapsVal.1[k] == input[k] as real * taps[k].im;
  }

  /** The lanes of the two products add up to the block's dot product. */
  lemma NeonTerms(input: seq<Int16>, taps: seq<Complex>)
    requires |input| == 4 && |taps| == 4
    ensures var tapsVal := Neon.Vld2(Flatten(taps));
            var inputFloat := Neon.VcvtqF32S32(Neon.Vmovl(input));
            var prodRe := Neon.Vmulq(inputFloat, tapsVal.0);
            var prodIm := Neon.Vmulq(inputFloat, tapsVal.1);
            Dot(input, taps) == Complex(prodRe[0] + prodRe[1] + prodRe[2] + prodRe[3], prodIm[0] + prodIm[1] + prodIm[2] + prodIm[3])
  {
    var ts := Terms(input, taps);
    NeonProducts(input, taps, 0);
    NeonProducts(input, taps, 1);
    NeonProducts(input, taps, 2);
    NeonProducts(input, taps, 3);
    assert ts == [ts[0], ts[1], ts[2], ts[3]];
    SumFour(ts[0], ts[1], ts[2], ts[3]);
  }

  /** `vdupq_n_f32(0)` for the real and the imaginary accumulator. */
  method NeonSetzero() returns (accRe: seq<real>, accIm: seq<real>)
    ensures |accRe| == 4 && |accIm| == 4
    ensures NeonReduce(accRe, accIm) == Zero
  {
    accRe := Neon.Vdupq(0.0);
    accIm := Neon.Vdupq(0.0);
    NeonReduceZeros(accRe, accIm);
  }

  lemma NeonReduceZeros(accRe: seq<real>, accIm: seq<real>)
    requires |accRe| == 4 && |accIm| == 4
    requires forall i :: 0 <= i < 4 ==> accRe[i] == 0.0 && accIm[i] == 0.0
    ensures NeonReduce(accRe, accIm) == Zero
  {
    NeonLanes(accRe, accIm);
  }

  /** `_neon`: blocks of four samples, the reduction, then the scalar tail
      into `accumulator_vec[0]`. */
  method NeonVariant(input: seq<Int16>, taps: seq<Complex>) returns (result: Complex)
    requires |input| == |taps|
    ensures result == Dot(input, taps)
  {
    var ts := Terms(input, taps);
    var quarterPoints := |input| / 4;
    var accRe, accIm := NeonSetzero();
    assert ts[..0] == [];
    var ii := 0;
    while ii < quarterPoints
      invariant ii <= quarterPoints && |accRe| == 4 && |accIm| == 4
      invariant NeonReduce(accRe, accIm) == Sum(ts[..4 * ii])
    {
      var from := 4 * ii;
      BlockSum(input, taps, from, from + 4);
      var next := NeonNext(accRe, accIm, input[from..from + 4], taps[from..from + 4]);
      accRe, accIm := next.0, next.1;
      ii := ii + 1;
    }
    result := Tail(input, taps, quarterPoints * 4, NeonReduce(accRe, accIm));
  }
}
