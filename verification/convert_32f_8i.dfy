/** volk_32f_s32f_convert_8i: scale a float vector and convert it to `int8_t`,
    saturating at the int8 bounds and otherwise rounding to nearest. */
module Convert32f8i {
  import opened Lanes
  import opened Blocks
  import opened X86

  /** `volk_32f_s32f_convert_8i_single`: saturate above INT8_MAX and below
      INT8_MIN, otherwise `rintf`. */
  function Single(x: real): (r: Int8)
    ensures x > 127.0 ==> r == 127
    ensures x < -128.0 ==> r == -128
    ensures -128.0 <= x <= 127.0 ==> -(1.0 / 2.0) <= r as real - x <= 1.0 / 2.0
  {
    if x > 127.0 then 127
    else if x < -128.0 then -128
    else RintInRange(x, -128, 127); RintNearest(x); Rint(x)
  }

  /** The conversion is the int8 value nearest to its argument: no int8 value
      is strictly closer. */
  lemma SingleIsNearestInt8(x: real, k: Int8)
    ensures Abs(Single(x) as real - x) <= Abs(k as real - x)
  {
    var r := Single(x);
    if x > 127.0 {
      assert Abs(r as real - x) == x - 127.0;
    } else if x < -128.0 {
      assert Abs(r as real - x) == -128.0 - x;
    } else if k > r {
      assert k as real >= r as real + 1.0;
    } else if k < r {
      assert k as real <= r as real - 1.0;
    }
  }

  function Abs(x: real): real
  {
    if x < 0.0 then -x else x
  }

  /** The element every variant computes: `single(x * scalar)`, the scaled
      value saturated into the int8 range or rounded to within one half. */
  function Convert(scalar: real, x: real): (r: Int8)
    ensures x * scalar > 127.0 ==> r == 127
    ensures x * scalar < -128.0 ==> r == -128
    ensures -128.0 <= x * scalar <= 127.0 ==> -(1.0 / 2.0) <= r as real - x * scalar <= 1.0 / 2.0
  {
    Single(x * scalar)
  }

  function Scaled(scalar: real): real -> Int8
  {
    x => Convert(scalar, x)
  }

  /** The clamp the SIMD paths apply before converting:
      `max(min(y, 127), -128)`. */
  function Clamp(y: real): real
  {
    var m := if y < 127.0 then y else 127.0;
    if m > -128.0 then m else -128.0
  }

  /** Rounding the clamped value is `single` of the unclamped one, and it lies
      in the int8 range, so the saturating packs that follow never change it. */
  lemma ClampThenRound(y: real)
    ensures -128 <= Rint(Clamp(y)) <= 127
    ensures Rint(Clamp(y)) == Single(y)
  {
    RintInRange(Clamp(y), -128, 127);
    RintOfInteger(127);
    RintOfInteger(-128);
  }

  /** Multiply by the broadcast scalar, clamp to [INT8_MIN, INT8_MAX], round. */
  function ClampRound(v: seq<real>, scalar: real): (r: seq<int>)
    ensures |r| == |v|
    ensures forall i :: 0 <= i < |v| ==> r[i] == Convert(scalar, v[i])
  {
    var n := |v|;
    var y := MulPs(v, Set1(scalar, n));
    var m := MinPs(y, Set1(127.0, n));
    var c := MaxPs(m, Set1(-128.0, n));
    forall i | 0 <= i < n
      ensures Indefinite(Rint(c[i])) == Convert(scalar, v[i])
    {
      assert y[i] == v[i] * scalar;
      assert c[i] == Clamp(y[i]);
      ClampThenRound(y[i]);
    }
    CvtPsEpi32(c)
  }

  /** Converting a slice of a block is the same slice of the converted block. */
  lemma ClampRoundSlice(v: seq<real>, scalar: real, lo: nat, hi: nat)
    requires lo <= hi <= |v|
    ensures ClampRound(v[lo..hi], scalar) == ClampRound(v, scalar)[lo..hi]
  {
    var a := ClampRound(v[lo..hi], scalar);
    var b := ClampRound(v, scalar)[lo..hi];
    forall j | 0 <= j < hi - lo
      ensures a[j] == b[j]
    {
      assert v[lo..hi][j] == v[lo + j];
      assert b[j] == ClampRound(v, scalar)[lo + j];
    }
  }

  /** Converting the four quarters of a block one register at a time gives
      the block's conversion. */
  lemma ClampRoundQuarters(v: seq<real>, scalar: real, q: nat)
    requires |v| == 4 * q
    ensures ClampRound(v, scalar) == ClampRound(v[0..q], scalar) + ClampRound(v[q..2 * q], scalar)
                                     + ClampRound(v[2 * q..3 * q], scalar) + ClampRound(v[3 * q..4 * q], scalar)
  {
    var c := ClampRound(v, scalar);
    ClampRoundSlice(v, scalar, 0, q);
    ClampRoundSlice(v, scalar, q, 2 * q);
    ClampRoundSlice(v, scalar, 2 * q, 3 * q);
    ClampRoundSlice(v, scalar, 3 * q, 4 * q);
    Quarters(c, q);
  }

  lemma Quarters<T>(c: seq<T>, q: nat)
    requires |c| == 4 * q
    ensures c == c[0..q] + c[q..2 * q] + c[2 * q..3 * q] + c[3 * q..4 * q]
  {
  }

  /** A rounded, clamped block read back as `int8_t` lanes is the block's
      conversion. */
  lemma NarrowBlock(v: seq<real>, scalar: real, p: seq<int>, r: seq<Int8>)
    requires p == ClampRound(v, scalar)
    requires |r| == |p| && forall i :: 0 <= i < |p| ==> r[i] == p[i]
    ensures Pointwise(Scaled(scalar), v, r)
  {
    forall i | 0 <= i < |v|
      ensures r[i] == Scaled(scalar)(v[i])
    {
    }
  }

  /** Saturating packs leave lanes alone when they are already in range. */
  lemma SatLanesInRange(v: seq<int>, lo: int, hi: int)
    requires lo <= hi
    requires forall i :: 0 <= i < |v| ==> lo <= v[i] <= hi
    ensures SatLanes(v, lo, hi) == v
  {
  }

  /** `permute4x64(_, 0b11011000)` keeps quadwords 0 and 3 and swaps 1 and 2. */
  lemma SwapMiddle<T>(w: seq<T>, x: seq<T>, y: seq<T>, z: seq<T>)
    requires |w| == |x| == |y| == |z| && (|w| == 4 || |w| == 8)
    ensures Permute4x64(w + x + y + z, 0xD8) == w + y + x + z
  {
    if |w| == 4 { SwapMiddle4(w, x, y, z); } else { SwapMiddle8(w, x, y, z); }
  }

  /** `SwapMiddle` for quadwords of four lanes each. */
  lemma SwapMiddle4<T>(w: seq<T>, x: seq<T>, y: seq<T>, z: seq<T>)
    requires |w| == |x| == |y| == |z| == 4
    ensures Permute4x64(w + x + y + z, 0xD8) == w + y + x + z
  {
    var v := w + x + y + z;
    var r := Permute4x64(v, 0xD8);
    assert Field2(0xD8, 0) == 0 && Field2(0xD8, 1) == 2 && Field2(0xD8, 2) == 1 && Field2(0xD8, 3) == 3;
    forall i | 0 <= i < 16
      ensures r[i] == (w + y + x + z)[i]
    {
      if i < 4 { assert r[i] == v[i]; }
      else if i < 8 { assert r[i] == v[i + 4]; }
      else if i < 12 { assert r[i] == v[i - 4]; }
      else { assert r[i] == v[i]; }
    }
  }

  /** `SwapMiddle` for quadwords of eight lanes each. */
  lemma SwapMiddle8<T>(w: seq<T>, x: seq<T>, y: seq<T>, z: seq<T>)
    requires |w| == |x| == |y| == |z| == 8
    ensures Permute4x64(w + x + y + z, 0xD8) == w + y + x + z
  {
    var v := w + x + y + z;
    var r := Permute4x64(v, 0xD8);
    assert Field2(0xD8, 0) == 0 && Field2(0xD8, 1) == 2 && Field2(0xD8, 2) == 1 && Field2(0xD8, 3) == 3;
    forall i | 0 <= i < 32
      ensures r[i] == (w + y + x + z)[i]
    {
      if i < 8 { assert r[i] == v[i]; }
      else if i < 16 { assert r[i] == v[i + 8]; }
      else if i < 24 { assert r[i] == v[i - 8]; }
      else { assert r[i] == v[i]; }
    }
  }

  /** AVX2: `packs_epi32` interleaves the 128-bit halves of its operands;
      `permute4x64` with 0b11011000 swaps the middle quadwords back, so the
      result is `a` followed by `b`. */
  lemma PackOrder32(a: seq<int>, b: seq<int>)
    requires |a| == 8 && |b| == 8
    requires forall i :: 0 <= i < 8 ==> -32768 <= a[i] <= 32767 && -32768 <= b[i] <= 32767
    ensures Permute4x64(Packs256Epi32(a, b), 0xD8) == a + b
  {
    SatLanesInRange(Lo(a), -32768, 32767);
    SatLanesInRange(Lo(b), -32768, 32767);
    SatLanesInRange(Hi(a), -32768, 32767);
    SatLanesInRange(Hi(b), -32768, 32767);
    assert PacksEpi32(Lo(a), Lo(b)) == Lo(a) + Lo(b);
    assert PacksEpi32(Hi(a), Hi(b)) == Hi(a) + Hi(b);
    assert Packs256Epi32(a, b) == Lo(a) + Lo(b) + Hi(a) + Hi(b);
    SwapMiddle(Lo(a), Lo(b), Hi(a), Hi(b));
    assert Lo(a) + Hi(a) + Lo(b) + Hi(b) == a + b;
  }

  /** The same for `packs_epi16` on sixteen-lane operands. */
  lemma PackOrder16(a: seq<int>, b: seq<int>)
    requires |a| == 16 && |b| == 16
    requires forall i :: 0 <= i < 16 ==> -128 <= a[i] <= 127 && -128 <= b[i] <= 127
    ensures Permute4x64(Packs256Epi16(a, b), 0xD8) == a + b
  {
    PacksHalves16(a, b);
    SwapMiddle(Lo(a), Lo(b), Hi(a), Hi(b));
    assert Lo(a) + Hi(a) + Lo(b) + Hi(b) == a + b;
  }

  lemma PacksHalves16(a: seq<int>, b: seq<int>)
    requires |a| == 16 && |b| == 16
    requires forall i :: 0 <= i < 16 ==> -128 <= a[i] <= 127 && -128 <= b[i] <= 127
    ensures Packs256Epi16(a, b) == Lo(a) + Lo(b) + Hi(a) + Hi(b)
  {
    SatLanesInRange(Lo(a), -128, 127);
    SatLanesInRange(Lo(b), -128, 127);
    SatLanesInRange(Hi(a), -128, 127);
    SatLanesInRange(Hi(b), -128, 127);
  }

  /** One `_sse` block: four lanes clamped, stored as floats, and each
      converted with `(int8_t)rintf`. */
  function SseBlock(v: seq<real>, scalar: real): (r: seq<Int8>)
    requires |v| == 4
    ensures Pointwise(Scaled(scalar), v, r)
  {
    var c := ClampRound(v, scalar);
    seq(4, i requires 0 <= i < 4 => c[i] as Int8)
  }

  /** One `_sse2` block: four registers of four lanes, packed to int16 in
      pairs, then to int8, in input order. */
  function Sse2Block(v: seq<real>, scalar: real): (r: seq<Int8>)
    requires |v| == 16
    ensures Pointwise(Scaled(scalar), v, r)
  {
    var i1 := ClampRound(v[0..4], scalar);
    var i2 := ClampRound(v[4..8], scalar);
    var i3 := ClampRound(v[8..12], scalar);
    var i4 := ClampRound(v[12..16], scalar);
    var p := PacksEpi16(PacksEpi32(i1, i2), PacksEpi32(i3, i4));
    PackBlock16(i1, i2, i3, i4);
    ClampRoundQuarters(v, scalar, 4);
    var r := seq(16, i requires 0 <= i < 16 => p[i] as Int8);
    NarrowBlock(v, scalar, p, r);
    r
  }

  /** Four registers of lanes already in the `int8_t` range pass through
      both SSE2 packs unchanged and in order. */
  lemma PackBlock16(i1: seq<int>, i2: seq<int>, i3: seq<int>, i4: seq<int>)
    requires |i1| == 4 && |i2| == 4 && |i3| == 4 && |i4| == 4
    requires forall j :: 0 <= j < 4 ==> -128 <= i1[j] <= 127 && -128 <= i2[j] <= 127
    requires forall j :: 0 <= j < 4 ==> -128 <= i3[j] <= 127 && -128 <= i4[j] <= 127
    ensures PacksEpi16(PacksEpi32(i1, i2), PacksEpi32(i3, i4)) == i1 + i2 + i3 + i4
  {
    SatLanesInRange(i1, -32768, 32767);
    SatLanesInRange(i2, -32768, 32767);
    SatLanesInRange(i3, -32768, 32767);
    SatLanesInRange(i4, -32768, 32767);
    SatLanesInRange(i1 + i2, -128, 127);
    SatLanesInRange(i3 + i4, -128, 127);
  }

  /** The packing of the `_avx2` block on four registers of eight
      in-range lanes: two `packs_epi32` and one `packs_epi16`, each followed
      by `permute4x64(_, 0b11011000)`, store the lanes in register order. */
  lemma PackBlock32(i1: seq<int>, i2: seq<int>, i3: seq<int>, i4: seq<int>)
    requires |i1| == 8 && |i2| == 8 && |i3| == 8 && |i4| == 8
    requires forall j :: 0 <= j < 8 ==> -128 <= i1[j] <= 127 && -128 <= i2[j] <= 127
    requires forall j :: 0 <= j < 8 ==> -128 <= i3[j] <= 127 && -128 <= i4[j] <= 127
    ensures var p1 := Permute4x64(Packs256Epi32(i1, i2), 0xD8);
            var p3 := Permute4x64(Packs256Epi32(i3, i4), 0xD8);
            Permute4x64(Packs256Epi16(p1, p3), 0xD8) == i1 + i2 + i3 + i4
  {
    PackOrder32(i1, i2);
    PackOrder32(i3, i4);
    PackOrder16(i1 + i2, i3 + i4);
  }

  /** One `_avx2` block: four registers of eight lanes; each `packs` is
      followed by `permute4x64(_, 0b11011000)`, so byte `j` of the store is
      element `j` of the block. */
  function Avx2Block(v: seq<real>, scalar: real): (r: seq<Int8>)
    requires |v| == 32
    ensures Pointwise(Scaled(scalar), v, r)
  {
    var i1 := ClampRound(v[0..8], scalar);
    var i2 := ClampRound(v[8..16], scalar);
    var i3 := ClampRound(v[16..24], scalar);
    var i4 := ClampRound(v[24..32], scalar);
    var p1 := Permute4x64(Packs256Epi32(i1, i2), 0xD8);
    var p3 := Permute4x64(Packs256Epi32(i3, i4), 0xD8);
    var p := Permute4x64(Packs256Epi16(p1, p3), 0xD8);
    PackBlock32(i1, i2, i3, i4);
    ClampRoundQuarters(v, scalar, 8);
    var r := seq(32, i requires 0 <= i < 32 => p[i] as Int8);
    NarrowBlock(v, scalar, p, r);
    r
  }

  /** `_generic` and `_a_generic`. */
  method Generic(inputVector: seq<real>, scalar: real) returns (out: seq<Int8>)
    ensures Pointwise(Scaled(scalar), inputVector, out)
  {
    out := [];
    var number := 0;
    while number < |inputVector|
      invariant number <= |inputVector|
      invariant Pointwise(Scaled(scalar), inputVector[..number], out)
    {
      assert inputVector[..number + 1] == inputVector[..number] + [inputVector[number]];
      assert Scaled(scalar)(inputVector[number]) == Convert(scalar, inputVector[number]);
      out := out + [Convert(scalar, inputVector[number])];
      number := number + 1;
    }
    assert inputVector[..number] == inputVector;
  }

  /** The scalar tail every SIMD variant runs from `number` to the end. */
  method Tail(inputVector: seq<real>, scalar: real, number: nat, done: seq<Int8>) returns (out: seq<Int8>)
    requires number <= |inputVector|
    requires Pointwise(Scaled(scalar), inputVector[..number], done)
    ensures Pointwise(Scaled(scalar), inputVector, out)
  {
    out := done;
    var k := number;
    while k < |inputVector|
      invariant number <= k <= |inputVector|
      invariant Pointwise(Scaled(scalar), inputVector[..k], out)
    {
      assert inputVector[..k + 1] == inputVector[..k] + [inputVector[k]];
      assert Scaled(scalar)(inputVector[k]) == Convert(scalar, inputVector[k]);
      out := out + [Convert(scalar, inputVector[k])];
      k := k + 1;
    }
    assert inputVector[..k] == inputVector;
  }

  /** `_u_sse` and `_a_sse`: blocks of 4, then the tail. */
  method Sse(inputVector: seq<real>, scalar: real) returns (out: seq<Int8>)
    ensures Pointwise(Scaled(scalar), inputVector, out)
  {
    var quarterPoints := |inputVector| / 4;
    out := [];
    var number := 0;
    while number < quarterPoints
      invariant number <= quarterPoints
      invariant Pointwise(Scaled(scalar), inputVector[..4 * number], out)
    {
      var block := inputVector[4 * number..4 * number + 4];
      assert inputVector[..4 * number] + block == inputVector[..4 * (number + 1)];
      out := out + SseBlock(block, scalar);
      number := number + 1;
    }
    out := Tail(inputVector, scalar, quarterPoints * 4, out);
  }

  /** `_u_sse2` and `_a_sse2`: blocks of 16, then the tail. */
  method Sse2(inputVector: seq<real>, scalar: real) returns (out: seq<Int8>)
    ensures Pointwise(Scaled(scalar), inputVector, out)
  {
    var sixteenthPoints := |inputVector| / 16;
    out := [];
    var number := 0;
    while number < sixteenthPoints
      invariant number <= sixteenthPoints
      invariant Pointwise(Scaled(scalar), inputVector[..16 * number], out)
    {
      var block := inputVector[16 * number..16 * number + 16];
      assert inputVector[..16 * number] + block == inputVector[..16 * (number + 1)];
      out := out + Sse2Block(block, scalar);
      number := number + 1;
    }
    out := Tail(inputVector, scalar, sixteenthPoints * 16, out);
  }

  /** `_u_avx2` and `_a_avx2`: blocks of 32, then the tail. */
  method Avx2(inputVector: seq<real>, scalar: real) returns (out: seq<Int8>)
    ensures Pointwise(Scaled(scalar), inputVector, out)
  {
    var thirtysecondPoints := |inputVector| / 32;
    out := [];
    var number := 0;
    while number < thirtysecondPoints
      invariant number <= thirtysecondPoints
      invariant Pointwise(Scaled(scalar), inputVector[..32 * number], out)
    {
      var block := inputVector[32 * number..32 * number + 32];
      assert inputVector[..32 * number] + block == inputVector[..32 * (number + 1)];
      out := out + Avx2Block(block, scalar);
      number := number + 1;
    }
    out := Tail(inputVector, scalar, thirtysecondPoints * 32, out);
  }
}
