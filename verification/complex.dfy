/** VOLK's complex sample types: `lv_32fc_t` (two floats, exact reals here)
    and `lv_16sc_t` (two `int16_t`). In memory both are stored real part
    first, so a vector of `n` samples is a vector of `2n` scalars with the
    real parts at even positions. */
module Complex {
  import opened Lanes

  datatype Complex = Complex(re: real, im: real)

  datatype Complex16 = Complex16(re: Int16, im: Int16)

  const Zero := Complex(0.0, 0.0)

  function Add(a: Complex, b: Complex): Complex
  {
    Complex(a.re + b.re, a.im + b.im)
  }

  function Sub(a: Complex, b: Complex): Complex
  {
    Complex(a.re - b.re, a.im - b.im)
  }

  function Mul(a: Complex, b: Complex): Complex
  {
    Complex(a.re * b.re - a.im * b.im, a.re * b.im + a.im * b.re)
  }

  function Conj(a: Complex): Complex
  {
    Complex(a.re, -a.im)
  }

  /** A real times a complex number: `taps[i] * (float)input[i]`. */
  function Scale(k: real, a: Complex): Complex
  {
    Complex(k * a.re, k * a.im)
  }

  /** `x * x` as one term, so that its sign is a fact about that term. */
  function Square(x: real): (r: real)
  {
    Times(x, x)
  }

  function Times(a: real, b: real): (r: real)
  {
    a * b
  }

  /** Squared magnitude |a|^2. */
  function NormSq(a: Complex): real
  {
    Square(a.re) + Square(a.im)
  }

  lemma TimesPositive(a: real, b: real)
    requires a > 0.0 && b > 0.0
    ensures Times(a, b) > 0.0
  {
  }

  /** A square is non-negative and zero only for zero. */
  lemma SquareSign(x: real)
    ensures Square(x) >= 0.0
    ensures x != 0.0 ==> Square(x) > 0.0
    ensures x == 0.0 ==> Square(x) == 0.0
  {
    if x < 0.0 {
      TimesPositive(-x, -x);
      assert Times(-x, -x) == Times(x, x);
    } else if x > 0.0 {
      TimesPositive(x, x);
    }
  }

  /** |a|^2 is non-negative and zero exactly for the zero sample. */
  lemma NormSqZero(a: Complex)
    ensures NormSq(a) >= 0.0
    ensures NormSq(a) == 0.0 <==> a == Zero
  {
    SquareSign(a.re);
    SquareSign(a.im);
  }

  /** Conjugation keeps |a|^2. */
  lemma NormSqConj(a: Complex)
    ensures NormSq(Conj(a)) == NormSq(a)
  {
    assert Times(-a.im, -a.im) == Times(a.im, a.im);
  }

  /** `a` times the conjugate of `b` is `|b|^2` when `a == b`. */
  lemma MulConjIsNormSq(a: Complex)
    ensures Mul(a, Conj(a)) == Complex(NormSq(a), 0.0)
  {
  }

  /** The quotient the kernels compute: `a * conj(b) / |b|^2`. Times the
      divisor it gives back the dividend. */
  function Quot(a: Complex, b: Complex): (r: Complex)
    requires b != Zero
    ensures Mul(r, b) == a
  {
    NormSqZero(b);
    var n := NormSq(b);
    var p := Mul(a, Conj(b));
    var q := Complex(p.re / n, p.im / n);
    assert q.re * n == p.re && q.im * n == p.im;
    assert Mul(q, b).re * n == p.re * b.re - p.im * b.im;
    assert p.re * b.re - p.im * b.im == a.re * n;
    assert Mul(q, b).im * n == p.re * b.im + p.im * b.re;
    assert p.re * b.im + p.im * b.re == a.im * n;
    q
  }

  /** `Quot(a, b)` is the one complex number whose product with `b` is `a`:
      it is complex division. */
  lemma QuotIsDivision(a: Complex, b: Complex, c: Complex)
    requires b != Zero
    ensures Mul(c, b) == a <==> c == Quot(a, b)
  {
    NormSqZero(b);
    var n := NormSq(b);
    var q := Quot(a, b);
    if Mul(c, b) == a {
      // c * b * conj(b) == a * conj(b), and b * conj(b) == |b|^2.
      MulAssocConj(c, b);
      assert Mul(a, Conj(b)) == Complex(c.re * n, c.im * n);
      assert c.re == c.re * n / n;
      assert c.im == c.im * n / n;
    }
  }

  /** `c * b * conj(b) == c * |b|^2`. */
  lemma MulAssocConj(c: Complex, b: Complex)
    ensures Mul(Mul(c, b), Conj(b)) == Complex(c.re * NormSq(b), c.im * NormSq(b))
  {
  }

  /** The interleaved scalars of a complex vector: real parts at even
      positions, imaginary parts at odd ones. */
  function Flatten(zs: seq<Complex>): (f: seq<real>)
    ensures |f| == 2 * |zs|
  {
    seq(2 * |zs|, i requires 0 <= i < 2 * |zs| => if i % 2 == 0 then zs[i / 2].re else zs[i / 2].im)
  }

  /** Sample `k` sits at positions `2k` and `2k + 1`. */
  lemma FlattenAt(zs: seq<Complex>, k: nat)
    requires k < |zs|
    ensures Flatten(zs)[2 * k] == zs[k].re && Flatten(zs)[2 * k + 1] == zs[k].im
  {
    assert (2 * k) / 2 == k && (2 * k + 1) / 2 == k;
  }

  /** Reading interleaved scalars back as complex samples. */
  function Pairs(f: seq<real>): (zs: seq<Complex>)
    requires |f| % 2 == 0
    ensures |zs| == |f| / 2
    ensures forall k :: 0 <= k < |zs| ==> zs[k] == Complex(f[2 * k], f[2 * k + 1])
  {
    seq(|f| / 2, k requires 0 <= k < |f| / 2 => Complex(f[2 * k], f[2 * k + 1]))
  }

  lemma PairsFlatten(zs: seq<Complex>)
    ensures Pairs(Flatten(zs)) == zs
  {
  }

  lemma FlattenPairs(f: seq<real>)
    requires |f| % 2 == 0
    ensures Flatten(Pairs(f)) == f
  {
    var g := Flatten(Pairs(f));
    forall i | 0 <= i < |f|
      ensures g[i] == f[i]
    {
      if i % 2 == 0 {
        assert g[2 * (i / 2)] == f[2 * (i / 2)];
      } else {
        assert g[2 * (i / 2) + 1] == f[2 * (i / 2) + 1];
      }
    }
  }

  lemma FlattenAppend(xs: seq<Complex>, ys: seq<Complex>)
    ensures Flatten(xs + ys) == Flatten(xs) + Flatten(ys)
  {
    var f := Flatten(xs + ys);
    var g := Flatten(xs) + Flatten(ys);
    forall i | 0 <= i < |f|
      ensures f[i] == g[i]
    {
      var k := i / 2;
      if k < |xs| {
        assert (xs + ys)[k] == xs[k];
      } else {
        assert (xs + ys)[k] == ys[k - |xs|];
        assert Flatten(ys)[2 * (k - |xs|)] == ys[k - |xs|].re;
        assert Flatten(ys)[2 * (k - |xs|) + 1] == ys[k - |xs|].im;
      }
      if i % 2 == 0 {
        assert i == 2 * k;
      } else {
        assert i == 2 * k + 1;
      }
    }
  }

  /** The scalars of samples `from .. from + len` are the slice
      `2 * from .. 2 * (from + len)` of the flattened vector: a pointer
      advanced by `from` samples reads the flattened suffix. */
  lemma FlattenSlice(zs: seq<Complex>, from: nat, len: nat)
    requires from + len <= |zs|
    ensures Flatten(zs)[2 * from..2 * (from + len)] == Flatten(zs[from..from + len])
  {
    var f := Flatten(zs)[2 * from..2 * (from + len)];
    var g := Flatten(zs[from..from + len]);
    forall i | 0 <= i < 2 * len
      ensures f[i] == g[i]
    {
      assert (2 * from + i) / 2 == from + i / 2;
      assert (2 * from + i) % 2 == i % 2;
    }
  }

  /** Each value twice in a row, lined up with the real and the imaginary
      part of its sample: what `unpacklo(v, v)` / `unpackhi(v, v)` build. */
  function Doubled(v: seq<real>): (r: seq<real>)
    ensures |r| == 2 * |v|
  {
    seq(2 * |v|, i requires 0 <= i < 2 * |v| => v[i / 2])
  }

  /** The `int16_t` scalars of a `lv_16sc_t` vector, as the kernels read
      them through an `int16_t*` cast. */
  function Flatten16(zs: seq<Complex16>): (f: seq<int>)
    ensures |f| == 2 * |zs|
    ensures forall i :: 0 <= i < |f| ==> -32768 <= f[i] <= 32767
  {
    seq(2 * |zs|, i requires 0 <= i < 2 * |zs| => if i % 2 == 0 then zs[i / 2].re as int else zs[i / 2].im as int)
  }

  /** Sample `k` is the pair of shorts at `2k` and `2k + 1`. */
  lemma Flatten16At(zs: seq<Complex16>, k: nat)
    requires k < |zs|
    ensures Flatten16(zs)[2 * k] == zs[k].re as int && Flatten16(zs)[2 * k + 1] == zs[k].im as int
  {
    assert (2 * k) / 2 == k && (2 * k + 1) / 2 == k;
  }
}
