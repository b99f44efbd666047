/** The ARM NEON intrinsics the kernels use, as pure functions on registers
    given as fixed-length sequences of lanes (lane 0 first). The structure
    loads `vld2` split interleaved memory into its even and odd elements and
    `vst2` interleaves two registers back. */
module Neon {
  import opened Lanes
  import X86

  /** `vld2_s16` / `vld2q_f32`: the even elements of `mem` go to `val[0]`,
      the odd ones to `val[1]`. */
  function Vld2<T>(mem: seq<T>): (r: (seq<T>, seq<T>))
    requires |mem| % 2 == 0
    ensures |r.0| == |mem| / 2 && |r.1| == |mem| / 2
    ensures forall k :: 0 <= k < |mem| / 2 ==> r.0[k] == mem[2 * k] && r.1[k] == mem[2 * k + 1]
  {
    (seq(|mem| / 2, k requires 0 <= k < |mem| / 2 => mem[2 * k]),
     seq(|mem| / 2, k requires 0 <= k < |mem| / 2 => mem[2 * k + 1]))
  }

  /** `vst2q_f32`: element `k` of `a` to position `2k`, of `b` to `2k + 1`. */
  function Vst2<T>(a: seq<T>, b: seq<T>): (mem: seq<T>)
    requires |a| == |b|
    ensures |mem| == 2 * |a|
  {
    seq(2 * |a|, i requires 0 <= i < 2 * |a| => if i % 2 == 0 then a[i / 2] else b[i / 2])
  }

  /** Loading the interleaved pairs with `vld2` and storing them back with
      `vst2` gives the memory unchanged. */
  lemma Vst2Vld2RoundTrip<T>(mem: seq<T>)
    requires |mem| % 2 == 0
    ensures Vst2(Vld2(mem).0, Vld2(mem).1) == mem
  {
    var r := Vst2(Vld2(mem).0, Vld2(mem).1);
    forall i | 0 <= i < |mem|
      ensures r[i] == mem[i]
    {
      if i % 2 == 0 {
        assert 2 * (i / 2) == i;
      } else {
        assert 2 * (i / 2) + 1 == i;
      }
    }
  }

  /** `vmovl_s8` / `vmovl_s16`: sign-extending widening keeps each value,
      so on unbounded lanes it is the identity. */
  function Vmovl(v: seq<int>): (r: seq<int>)
  {
    v
  }

  /** `vshlq_n_s16(v, k)`: shift each 16-bit lane left by `k`, keeping the
      low 16 bits. */
  function VshlqNS16(v: seq<int>, k: nat): (r: seq<int>)
    requires k < 16
    ensures |r| == |v|
  {
    seq(|v|, i requires 0 <= i < |v| => WrapInt16(v[i] * Pow2(k)))
  }

  /** `vcvtq_f32_s32`: the same lane conversion as `_mm_cvtepi32_ps`. */
  function VcvtqF32S32(v: seq<int>): seq<real>
  {
    X86.CvtEpi32Ps(v)
  }

  /** `vmulq_f32`: the same lane product as `_mm_mul_ps`. */
  function Vmulq(a: seq<real>, b: seq<real>): seq<real>
    requires |a| == |b|
  {
    X86.MulPs(a, b)
  }

  /** `vaddq_f32`: the same lane sum as `_mm_add_ps`. */
  function Vaddq(a: seq<real>, b: seq<real>): seq<real>
    requires |a| == |b|
  {
    X86.AddPs(a, b)
  }

  /** `vmlaq_f32(a, b, c)` = a + b * c. */
  function Vmlaq(a: seq<real>, b: seq<real>, c: seq<real>): (r: seq<real>)
    requires |a| == |b| == |c|
    ensures |r| == |a|
  {
    seq(|a|, i requires 0 <= i < |a| => a[i] + b[i] * c[i])
  }

  /** `vmlsq_f32(a, b, c)` = a - b * c. */
  function Vmlsq(a: seq<real>, b: seq<real>, c: seq<real>): (r: seq<real>)
    requires |a| == |b| == |c|
    ensures |r| == |a|
  {
    seq(|a|, i requires 0 <= i < |a| => a[i] - b[i] * c[i])
  }

  /** `vrecpeq_f32` followed by two `vrecpsq_f32` Newton-Raphson steps, taken
      as the exact reciprocal of every (non-zero) lane. */
  function VrecpqRefined(v: seq<real>): (r: seq<real>)
    requires forall i :: 0 <= i < |v| ==> v[i] != 0.0
    ensures |r| == |v|
    ensures forall i :: 0 <= i < |v| ==> r[i] * v[i] == 1.0
  {
    seq(|v|, i requires 0 <= i < |v| => 1.0 / v[i])
  }

  /** `vdupq_n_f32` / `vld1q_dup_f32`: broadcast to four lanes. */
  function Vdupq(x: real): (r: seq<real>)
    ensures |r| == 4
  {
    [x, x, x, x]
  }
}
