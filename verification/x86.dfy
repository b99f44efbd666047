/** The x86 SSE/AVX/AVX2 intrinsics the kernels use, each as a pure function
    on a register given as a fixed-length sequence of lanes (lane 0 first, as
    Intel's documentation numbers them). 256-bit operations that Intel
    documents as "per 128-bit lane" are written as the 128-bit operation on
    the low half followed by the same operation on the high half. Loads and
    stores, aligned or not, read and write a slice of memory; they have no
    function of their own. */
module X86 {
  import opened Lanes

  /** `_MM_SHUFFLE(z, y, x, w)`: four 2-bit selectors packed high to low. */
  function MmShuffle(z: nat, y: nat, x: nat, w: nat): (imm: nat)
    requires z < 4 && y < 4 && x < 4 && w < 4
    ensures imm < 256
  {
    z * 64 + y * 16 + x * 4 + w
  }

  /** Two-bit field `k` (counting from the low end) of an 8-bit immediate. */
  function Field2(imm: nat, k: nat): (f: nat)
    requires k < 4
    ensures f < 4
  {
    if k == 0 then imm % 4
    else if k == 1 then imm / 4 % 4
    else if k == 2 then imm / 16 % 4
    else imm / 64 % 4
  }

  /** `_mm256_set_epi32(e7, ..., e0)`: the arguments run from the highest lane
      down, so lane 0 receives the last one. */
  function SetEpi32(e7: int, e6: int, e5: int, e4: int, e3: int, e2: int, e1: int, e0: int): (v: seq<int>)
    ensures |v| == 8
  {
    [e0, e1, e2, e3, e4, e5, e6, e7]
  }

  /** `_mm_set_pi16(e3, e2, e1, e0)`: likewise highest lane first. */
  function SetPi16(e3: int, e2: int, e1: int, e0: int): (v: seq<int>)
    ensures |v| == 4
  {
    [e0, e1, e2, e3]
  }

  /** `_mm_set_ps1` / `_mm256_set1_ps`: one value broadcast to every lane. */
  function Set1<T>(x: T, n: nat): (v: seq<T>)
    ensures |v| == n && forall i :: 0 <= i < n ==> v[i] == x
  {
    seq(n, _ => x)
  }

  /** Low and high 128-bit halves of a 256-bit register. */
  function Lo<T>(v: seq<T>): seq<T>
  {
    v[..|v| / 2]
  }

  function Hi<T>(v: seq<T>): seq<T>
  {
    v[|v| / 2..]
  }

  // ---- Lane-wise float arithmetic (exact) ----

  function MulPs(a: seq<real>, b: seq<real>): (r: seq<real>)
    requires |a| == |b|
    ensures |r| == |a|
  {
    seq(|a|, i requires 0 <= i < |a| => a[i] * b[i])
  }

  function AddPs(a: seq<real>, b: seq<real>): (r: seq<real>)
    requires |a| == |b|
    ensures |r| == |a|
  {
    seq(|a|, i requires 0 <= i < |a| => a[i] + b[i])
  }

  function SubPs(a: seq<real>, b: seq<real>): (r: seq<real>)
    requires |a| == |b|
    ensures |r| == |a|
  {
    seq(|a|, i requires 0 <= i < |a| => a[i] - b[i])
  }

  /** Exact division; a zero divisor lane (an infinity or NaN in IEEE) is
      outside the model. */
  function DivPs(a: seq<real>, b: seq<real>): (r: seq<real>)
    requires |a| == |b|
    requires forall i :: 0 <= i < |b| ==> b[i] != 0.0
    ensures |r| == |a|
  {
    seq(|a|, i requires 0 <= i < |a| => a[i] / b[i])
  }

  function MinPs(a: seq<real>, b: seq<real>): (r: seq<real>)
    requires |a| == |b|
    ensures |r| == |a|
  {
    seq(|a|, i requires 0 <= i < |a| => if a[i] < b[i] then a[i] else b[i])
  }

  function MaxPs(a: seq<real>, b: seq<real>): (r: seq<real>)
    requires |a| == |b|
    ensures |r| == |a|
  {
    seq(|a|, i requires 0 <= i < |a| => if a[i] > b[i] then a[i] else b[i])
  }

  /** `_mm256_fmadd_ps(a, b, c)`: a * b + c in one rounding; exact here. */
  function FmaddPs(a: seq<real>, b: seq<real>, c: seq<real>): (r: seq<real>)
    requires |a| == |b| == |c|
    ensures |r| == |a|
  {
    seq(|a|, i requires 0 <= i < |a| => a[i] * b[i] + c[i])
  }

  /** `_mm_sqrt_ps`, with the square root supplied by the caller. */
  function SqrtPs(sqrt: real -> real, a: seq<real>): (r: seq<real>)
    ensures |r| == |a|
  {
    seq(|a|, i requires 0 <= i < |a| => sqrt(a[i]))
  }

  // ---- Comparison masks and bitwise selection ----

  /** `_mm_cmplt_ps` / `_mm256_cmp_ps(_, _, _CMP_LT_OQ)`: all-ones where a < b. */
  function CmpLtPs(a: seq<real>, b: seq<real>): (m: seq<bool>)
    requires |a| == |b|
    ensures |m| == |a|
  {
    seq(|a|, i requires 0 <= i < |a| => a[i] < b[i])
  }

  /** `_mm_cmpgt_ps` / `_mm256_cmp_ps(_, _, _CMP_GT_OQ)`. */
  function CmpGtPs(a: seq<real>, b: seq<real>): (m: seq<bool>)
    requires |a| == |b|
    ensures |m| == |a|
  {
    seq(|a|, i requires 0 <= i < |a| => a[i] > b[i])
  }

  /** `_mm_and_ps(x, mask)`: keeps x where the mask is set, +0.0 elsewhere. */
  function AndPs(x: seq<real>, m: seq<bool>): (r: seq<real>)
    requires |x| == |m|
    ensures |r| == |x|
  {
    seq(|x|, i requires 0 <= i < |x| => if m[i] then x[i] else 0.0)
  }

  /** `_mm_or_ps(a, b)` in the only form the kernels use it: one operand of
      each lane is +0.0 (all bits clear), so the bitwise or is the other. */
  function OrPs(a: seq<real>, b: seq<real>): (r: seq<real>)
    requires |a| == |b|
    requires forall i :: 0 <= i < |a| ==> a[i] == 0.0 || b[i] == 0.0
    ensures |r| == |a|
  {
    seq(|a|, i requires 0 <= i < |a| => if a[i] == 0.0 then b[i] else a[i])
  }

  // ---- Conversions ----

  /** `_mm_cvtps_epi32` / `_mm256_cvtps_epi32`: round to nearest even; a
      lane whose rounded value does not fit in `int32_t` becomes INT32_MIN. */
  function CvtPsEpi32(a: seq<real>): (r: seq<int>)
    ensures |r| == |a|
  {
    seq(|a|, i requires 0 <= i < |a| => Indefinite(Rint(a[i])))
  }

  /** `_mm_cvttps_epi32` / `_mm256_cvttps_epi32`: truncate toward zero. Only
      the mod-range kernel uses it, on quotients its generic `(int)` cast
      also needs to fit, so the overflow to INT32_MIN is not modelled. */
  function CvttPsEpi32(a: seq<real>): (r: seq<int>)
    ensures |r| == |a|
  {
    seq(|a|, i requires 0 <= i < |a| => Trunc(a[i]))
  }

  /** `_mm_cvtepi32_ps`, `_mm_cvtpi16_ps` and friends: integer lanes to float. */
  function CvtEpi32Ps(a: seq<int>): (r: seq<real>)
    ensures |r| == |a|
  {
    seq(|a|, i requires 0 <= i < |a| => a[i] as real)
  }

  /** `_mm_cvtpi16_ps`: four 16-bit integers to floats (exact). */
  function CvtPi16Ps(a: seq<int>): (r: seq<real>)
    requires |a| == 4
    ensures |r| == 4
  {
    seq(4, i requires 0 <= i < 4 => a[i] as real)
  }

  /** `_mm256_cvtepi16_epi32`: sign-extending widening keeps each value. The
      register is 128 bits of eight 16-bit lanes. */
  function CvtEpi16Epi32(a: seq<int>): (r: seq<int>)
    requires |a| == 8
    ensures |r| == 8
  {
    a
  }

  /** `_mm256_extracti128_si256(v, k)`. */
  function ExtractI128<T>(v: seq<T>, k: nat): (r: seq<T>)
    requires k < 2
  {
    if k == 0 then Lo(v) else Hi(v)
  }

  // ---- Bit patterns for the 8-bit to 16-bit widening ----

  /** The `w`-bit two's-complement pattern of `x`. */
  function Bits(x: int, w: nat): (u: nat)
    requires w == 8 || w == 16
    ensures u < if w == 8 then 0x100 else 0x1_0000
  {
    if w == 8 then x % 0x100 else x % 0x1_0000
  }

  /** Signed reading of a 16-bit pattern. */
  function Signed16(u: nat): (x: Int16)
    requires u < 0x1_0000
  {
    if u >= 0x8000 then u - 0x1_0000 else u
  }

  /** `_mm_cvtepi8_epi16` on one lane: copy bit 7 into bits 8 to 15. */
  function SignExtend8To16(u: nat): (s: nat)
    requires u < 0x100
    ensures s < 0x1_0000
  {
    if u >= 0x80 then u + 0xFF00 else u
  }

  /** `_mm_slli_epi16(v, k)` on one lane: shift the 16-bit pattern left by
      `k`, dropping the bits that leave the lane. */
  function ShiftLeft16(u: nat, k: nat): (s: nat)
    requires u < 0x1_0000 && k < 16
    ensures s < 0x1_0000
  {
    u * Pow2(k) % 0x1_0000
  }

  /** `_mm_cvtepi8_epi16` (the low eight bytes of a 128-bit register) and
      `_mm256_cvtepi8_epi16` (all sixteen): lane-wise sign extension. */
  function CvtEpi8Epi16(bytes: seq<nat>, lanes: nat): (r: seq<nat>)
    requires lanes <= |bytes|
    requires forall i :: 0 <= i < |bytes| ==> bytes[i] < 0x100
    ensures |r| == lanes && forall i :: 0 <= i < lanes ==> r[i] < 0x1_0000
  {
    seq(lanes, i requires 0 <= i < lanes => SignExtend8To16(bytes[i]))
  }

  function SlliEpi16(v: seq<nat>, k: nat): (r: seq<nat>)
    requires k < 16
    requires forall i :: 0 <= i < |v| ==> v[i] < 0x1_0000
    ensures |r| == |v| && forall i :: 0 <= i < |v| ==> r[i] < 0x1_0000
  {
    seq(|v|, i requires 0 <= i < |v| => ShiftLeft16(v[i], k))
  }

  /** `_mm_srli_si128(v, n)`: shift the whole 128-bit register right by `n`
      bytes, filling with zero bytes. */
  function SrliSi128(bytes: seq<nat>, n: nat): (r: seq<nat>)
    requires |bytes| == 16 && n <= 16
    requires forall i :: 0 <= i < 16 ==> bytes[i] < 0x100
    ensures |r| == 16 && forall i :: 0 <= i < 16 ==> r[i] < 0x100
  {
    bytes[n..] + seq(n, _ => 0)
  }

  // ---- Shuffles, unpacks and horizontal adds (per 128-bit lane) ----

  /** `_mm_shuffle_ps(a, b, imm)`: two lanes picked from `a`, two from `b`. */
  function ShufflePs<T>(a: seq<T>, b: seq<T>, imm: nat): (r: seq<T>)
    requires |a| == 4 && |b| == 4
    ensures |r| == 4
  {
    [a[Field2(imm, 0)], a[Field2(imm, 1)], b[Field2(imm, 2)], b[Field2(imm, 3)]]
  }

  function Shuffle256Ps<T>(a: seq<T>, b: seq<T>, imm: nat): (r: seq<T>)
    requires |a| == 8 && |b| == 8
    ensures |r| == 8
  {
    ShufflePs(Lo(a), Lo(b), imm) + ShufflePs(Hi(a), Hi(b), imm)
  }

  /** `_mm256_permute_ps(v, imm)`: the same in-lane selection from one source. */
  function Permute256Ps<T>(v: seq<T>, imm: nat): (r: seq<T>)
    requires |v| == 8
    ensures |r| == 8
  {
    Shuffle256Ps(v, v, imm)
  }

  /** `_mm_unpacklo_ps(a, b)` = [a0, b0, a1, b1]. */
  function UnpackLoPs<T>(a: seq<T>, b: seq<T>): (r: seq<T>)
    requires |a| == 4 && |b| == 4
    ensures |r| == 4
  {
    [a[0], b[0], a[1], b[1]]
  }

  /** `_mm_unpackhi_ps(a, b)` = [a2, b2, a3, b3]. */
  function UnpackHiPs<T>(a: seq<T>, b: seq<T>): (r: seq<T>)
    requires |a| == 4 && |b| == 4
    ensures |r| == 4
  {
    [a[2], b[2], a[3], b[3]]
  }

  function UnpackLo256Ps<T>(a: seq<T>, b: seq<T>): (r: seq<T>)
    requires |a| == 8 && |b| == 8
    ensures |r| == 8
  {
    UnpackLoPs(Lo(a), Lo(b)) + UnpackLoPs(Hi(a), Hi(b))
  }

  function UnpackHi256Ps<T>(a: seq<T>, b: seq<T>): (r: seq<T>)
    requires |a| == 8 && |b| == 8
    ensures |r| == 8
  {
    UnpackHiPs(Lo(a), Lo(b)) + UnpackHiPs(Hi(a), Hi(b))
  }

  /** `_mm_hadd_ps(a, b)` = [a0 + a1, a2 + a3, b0 + b1, b2 + b3]. */
  function HAddPs(a: seq<real>, b: seq<real>): (r: seq<real>)
    requires |a| == 4 && |b| == 4
    ensures |r| == 4
  {
    [a[0] + a[1], a[2] + a[3], b[0] + b[1], b[2] + b[3]]
  }

  function HAdd256Ps(a: seq<real>, b: seq<real>): (r: seq<real>)
    requires |a| == 8 && |b| == 8
    ensures |r| == 8
  {
    HAddPs(Lo(a), Lo(b)) + HAddPs(Hi(a), Hi(b))
  }

  /** The lanes of `_mm256_hadd_ps(a, b)`: in each 128-bit lane, two sums
      from `a` then two from `b`. */
  lemma HAdd256Lanes(a: seq<real>, b: seq<real>)
    requires |a| == 8 && |b| == 8
    ensures HAdd256Ps(a, b) == [a[0] + a[1], a[2] + a[3], b[0] + b[1], b[2] + b[3],
                                a[4] + a[5], a[6] + a[7], b[4] + b[5], b[6] + b[7]]
  {
  }

  // ---- Saturating packs (per 128-bit lane) ----

  function SatLanes(v: seq<int>, lo: int, hi: int): (r: seq<int>)
    requires lo <= hi
    ensures |r| == |v|
    ensures forall i :: 0 <= i < |v| ==> r[i] == Saturate(v[i], lo, hi)
  {
    seq(|v|, i requires 0 <= i < |v| => Saturate(v[i], lo, hi))
  }

  /** `_mm_packs_epi32(a, b)`: eight int16 lanes, a's four then b's four,
      each saturated. */
  function PacksEpi32(a: seq<int>, b: seq<int>): (r: seq<int>)
    requires |a| == 4 && |b| == 4
    ensures |r| == 8
  {
    SatLanes(a, -32768, 32767) + SatLanes(b, -32768, 32767)
  }

  /** `_mm_packs_epi16(a, b)`: sixteen int8 lanes, a's eight then b's eight. */
  function PacksEpi16(a: seq<int>, b: seq<int>): (r: seq<int>)
    requires |a| == 8 && |b| == 8
    ensures |r| == 16
  {
    SatLanes(a, -128, 127) + SatLanes(b, -128, 127)
  }

  function Packs256Epi32(a: seq<int>, b: seq<int>): (r: seq<int>)
    requires |a| == 8 && |b| == 8
    ensures |r| == 16
  {
    PacksEpi32(Lo(a), Lo(b)) + PacksEpi32(Hi(a), Hi(b))
  }

  function Packs256Epi16(a: seq<int>, b: seq<int>): (r: seq<int>)
    requires |a| == 16 && |b| == 16
    ensures |r| == 32
  {
    PacksEpi16(Lo(a), Lo(b)) + PacksEpi16(Hi(a), Hi(b))
  }

  // ---- Cross-lane permutes ----

  /** `_mm256_permute4x64_epi64(v, imm)`: quadword `j` of the result is
      quadword `Field2(imm, j)` of `v`. Lanes may be of any width: each
      quadword holds a quarter of them. */
  function Permute4x64<T>(v: seq<T>, imm: nat): (r: seq<T>)
    requires |v| % 4 == 0
    ensures |r| == |v|
  {
    var q := |v| / 4;
    seq(|v|, i requires 0 <= i < |v| => v[Field2(imm, i / q) * q + i % q])
  }

  /** `_mm256_permutevar8x32_ps` / `_epi32(v, idx)`: doubleword `j` of the
      result is doubleword `idx[j] % 8` of `v`; each doubleword holds an
      eighth of the lanes (one float, or two int16 after a pack). */
  function PermuteVar8x32<T>(v: seq<T>, idx: seq<int>): (r: seq<T>)
    requires |v| % 8 == 0 && |idx| == 8
    ensures |r| == |v|
  {
    var k := |v| / 8;
    seq(|v|, i requires 0 <= i < |v| => v[(idx[i / k] % 8) * k + i % k])
  }

  /** `_mm256_permute2f128_ps(a, b, imm)`: each result half is chosen by a
      2-bit selector (a.lo, a.hi, b.lo, b.hi) and zeroed when bit 3 of its
      nibble is set. */
  function Permute2f128Ps(a: seq<real>, b: seq<real>, imm: nat): (r: seq<real>)
    requires |a| == 8 && |b| == 8
    ensures |r| == 8
  {
    Select128(a, b, imm % 16) + Select128(a, b, imm / 16 % 16)
  }

  function Select128(a: seq<real>, b: seq<real>, ctl: nat): (r: seq<real>)
    requires |a| == 8 && |b| == 8
    ensures |r| == 4
  {
    if ctl / 8 % 2 == 1 then [0.0, 0.0, 0.0, 0.0]
    else if ctl % 4 == 0 then Lo(a)
    else if ctl % 4 == 1 then Hi(a)
    else if ctl % 4 == 2 then Lo(b)
    else Hi(b)
  }
}
