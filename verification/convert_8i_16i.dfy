/** volk_8i_convert_16i: widen a vector of `int8_t` to `int16_t`, scaling each
    value by 256 so the int8 range maps onto the top byte of the int16 range.
    The output buffer is modelled in full, so each variant also states that
    nothing past `numPoints` is written. */
module Convert8i16i {
  import opened Lanes
  import opened Blocks
  import X86
  import Neon

  /** The scalar body `(int16_t)(x) * 256`. Every result is a multiple of 256
      in [-32768, 32512], so the int16 result never overflows. */
  function Scale256(x: Int8): (r: Int16)
    ensures r % 256 == 0 && -32768 <= r <= 32512
    ensures r / 256 == x
  {
    x * 256
  }

  /** What every variant leaves in the output buffer: slot `i < numPoints`
      holds the scaled input, every later slot is untouched. */
  ghost predicate Converted(outputVector: seq<Int16>, inputVector: seq<Int8>, numPoints: nat, out: seq<Int16>)
    requires numPoints <= |inputVector| && numPoints <= |outputVector|
  {
    && |out| == |outputVector|
    && (forall i :: 0 <= i < numPoints ==> out[i] == inputVector[i] as int * 256)
    && (forall i :: numPoints <= i < |out| ==> out[i] == outputVector[i])
  }

  /** `_generic` and `_a_generic`: one element per step. */
  method Generic(outputVector: seq<Int16>, inputVector: seq<Int8>, numPoints: nat) returns (out: seq<Int16>)
    requires numPoints <= |inputVector| && numPoints <= |outputVector|
    ensures Converted(outputVector, inputVector, numPoints, out)
  {
    out := outputVector;
    var number := 0;
    while number < numPoints
      invariant number <= numPoints
      invariant |out| == |outputVector|
      invariant forall i :: 0 <= i < number ==> out[i] == inputVector[i] as int * 256
      invariant forall i :: number <= i < |out| ==> out[i] == outputVector[i]
    {
      out := out[number := Scale256(inputVector[number])];
      number := number + 1;
    }
  }

  // ---- Lane bookkeeping on bit patterns ----

  /** An `int8_t` lane as the byte a 128-bit load puts in the register. */
  function LoadBytes(xs: seq<Int8>): (bytes: seq<nat>)
    ensures |bytes| == |xs| && forall i :: 0 <= i < |xs| ==> bytes[i] < 0x100
  {
    seq(|xs|, i requires 0 <= i < |xs| => X86.Bits(xs[i], 8))
  }

  /** 16-bit lanes as the `int16_t` values a store writes. */
  function StoreWords(words: seq<nat>): (ys: seq<Int16>)
    requires forall i :: 0 <= i < |words| ==> words[i] < 0x1_0000
    ensures |ys| == |words|
  {
    seq(|words|, i requires 0 <= i < |words| => X86.Signed16(words[i]))
  }

  /** Sign extension followed by a left shift by 8 is multiplication by 256
      for every int8 value: the shift never drops a significant bit. */
  lemma WidenShiftIsScale(x: Int8)
    ensures X86.Signed16(X86.ShiftLeft16(X86.SignExtend8To16(X86.Bits(x, 8)), 8)) == x * 256
  {
    assert Pow2(8) == 256 by {
      assert Pow2(4) == 16;
    }
    if x >= 0 {
      assert X86.Bits(x, 8) == x;
      assert x * 256 % 0x1_0000 == x * 256;
    } else {
      assert X86.Bits(x, 8) == x + 0x100;
      assert X86.SignExtend8To16(x + 0x100) == x + 0x1_0000;
      assert (x + 0x1_0000) * 256 == x * 256 + 0x1_0000 + 255 * 0x1_0000;
      assert (x + 0x1_0000) * 256 % 0x1_0000 == x * 256 + 0x1_0000;
    }
  }

  /** `_mm256_cvtepi8_epi16` then `_mm256_slli_epi16(_, 8)` on sixteen bytes. */
  function Avx2Block(inputVal: seq<Int8>): (ret: seq<Int16>)
    requires |inputVal| == 16
    ensures Pointwise(Scale256, inputVal, ret)
  {
    var words := X86.SlliEpi16(X86.CvtEpi8Epi16(LoadBytes(inputVal), 16), 8);
    var ret := StoreWords(words);
    assert forall i :: 0 <= i < 16 ==> ret[i] == inputVal[i] as int * 256 by {
      forall i | 0 <= i < 16 {
        WidenShiftIsScale(inputVal[i]);
      }
    }
    ret
  }

  /** The SSE4.1 block: the low eight bytes widened and shifted, then the
      register shifted right by eight bytes and the same done again, giving
      two consecutive eight-lane stores in input order. */
  function Sse41Block(inputVal: seq<Int8>): (ret: seq<Int16>)
    requires |inputVal| == 16
    ensures Pointwise(Scale256, inputVal, ret)
  {
    var bytes := LoadBytes(inputVal);
    var first := StoreWords(X86.SlliEpi16(X86.CvtEpi8Epi16(bytes, 8), 8));
    var high := X86.SrliSi128(bytes, 8);
    var second := StoreWords(X86.SlliEpi16(X86.CvtEpi8Epi16(high, 8), 8));
    var ret := first + second;
    assert forall i :: 0 <= i < 16 ==> ret[i] == inputVal[i] as int * 256 by {
      forall i | 0 <= i < 16
        ensures ret[i] == inputVal[i] as int * 256
      {
        WidenShiftIsScale(inputVal[i]);
        if i >= 8 {
          assert high[i - 8] == bytes[i];
        }
      }
    }
    ret
  }

  /** The NEON block: `vld1_s8`, `vmovl_s8`, `vshlq_n_s16(_, 8)` on eight lanes. */
  function NeonBlock(inputVal: seq<Int8>): (ret: seq<Int16>)
    requires |inputVal| == 8
    ensures Pointwise(Scale256, inputVal, ret)
  {
    assert Pow2(8) == 256 by {
      assert Pow2(4) == 16;
    }
    var converted := Neon.VshlqNS16(Neon.Vmovl(inputVal), 8);
    seq(8, i requires 0 <= i < 8 => converted[i] as Int16)
  }

  /** `_u_avx2` and `_a_avx2`: blocks of 16, then the scalar tail. */
  method Avx2(outputVector: seq<Int16>, inputVector: seq<Int8>, numPoints: nat) returns (out: seq<Int16>)
    requires numPoints <= |inputVector| && numPoints <= |outputVector|
    ensures Converted(outputVector, inputVector, numPoints, out)
  {
    out := outputVector;
    var number := 0;
    var sixteenthPoints := numPoints / 16;
    // The indices written so far, in the order they are written.
    ghost var touched: seq<nat> := [];
    while number < sixteenthPoints
      invariant number <= sixteenthPoints
      invariant |out| == |outputVector|
      invariant forall i :: 0 <= i < 16 * number ==> out[i] == inputVector[i] as int * 256
      invariant forall i :: 16 * number <= i < |out| ==> out[i] == outputVector[i]
      invariant touched == BlockIndices(16, number)
    {
      var ret := Avx2Block(inputVector[16 * number..16 * number + 16]);
      out := Store(out, 16 * number, ret);
      touched := touched + Range(16 * number, 16);
      number := number + 1;
    }
    number := sixteenthPoints * 16;
    while number < numPoints
      invariant sixteenthPoints * 16 <= number <= numPoints
      invariant |out| == |outputVector|
      invariant forall i :: 0 <= i < number ==> out[i] == inputVector[i] as int * 256
      invariant forall i :: number <= i < |out| ==> out[i] == outputVector[i]
      invariant touched == BlockIndices(16, sixteenthPoints) + Range(16 * sixteenthPoints, number - 16 * sixteenthPoints)
    {
      out := out[number := Scale256(inputVector[number])];
      assert Range(16 * sixteenthPoints, number + 1 - 16 * sixteenthPoints)
             == Range(16 * sixteenthPoints, number - 16 * sixteenthPoints) + [number];
      touched := touched + [number];
      number := number + 1;
    }
    // Blocks and tail together write every index below `numPoints` once,
    // in increasing order.
    ScheduleCoversOnce(numPoints, 16);
    assert touched == Range(0, numPoints);
  }

  /** `_u_sse4_1` and `_a_sse4_1`: blocks of 16 as two stores of 8, then the
      scalar tail. */
  method Sse41(outputVector: seq<Int16>, inputVector: seq<Int8>, numPoints: nat) returns (out: seq<Int16>)
    requires numPoints <= |inputVector| && numPoints <= |outputVector|
    ensures Converted(outputVector, inputVector, numPoints, out)
  {
    out := outputVector;
    var number := 0;
    var sixteenthPoints := numPoints / 16;
    while number < sixteenthPoints
      invariant number <= sixteenthPoints
      invariant |out| == |outputVector|
      invariant forall i :: 0 <= i < 16 * number ==> out[i] == inputVector[i] as int * 256
      invariant forall i :: 16 * number <= i < |out| ==> out[i] == outputVector[i]
    {
      var ret := Sse41Block(inputVector[16 * number..16 * number + 16]);
      out := Store(out, 16 * number, ret);
      number := number + 1;
    }
    number := sixteenthPoints * 16;
    while number < numPoints
      invariant number <= numPoints
      invariant |out| == |outputVector|
      invariant forall i :: 0 <= i < number ==> out[i] == inputVector[i] as int * 256
      invariant forall i :: number <= i < |out| ==> out[i] == outputVector[i]
    {
      out := out[number := Scale256(inputVector[number])];
      number := number + 1;
    }
  }

  /** `_neon`: blocks of 8, then the scalar tail continuing from the advanced
      pointers. */
  method NeonVariant(outputVector: seq<Int16>, inputVector: seq<Int8>, numPoints: nat) returns (out: seq<Int16>)
    requires numPoints <= |inputVector| && numPoints <= |outputVector|
    ensures Converted(outputVector, inputVector, numPoints, out)
  {
    out := outputVector;
    var eighthPoints := numPoints / 8;
    var number := 0;
    while number < eighthPoints
      invariant number <= eighthPoints
      invariant |out| == |outputVector|
      invariant forall i :: 0 <= i < 8 * number ==> out[i] == inputVector[i] as int * 256
      invariant forall i :: 8 * number <= i < |out| ==> out[i] == outputVector[i]
    {
      var converted := NeonBlock(inputVector[8 * number..8 * number + 8]);
      out := Store(out, 8 * number, converted);
      number := number + 1;
    }
    number := eighthPoints * 8;
    while number < numPoints
      invariant number <= numPoints
      invariant |out| == |outputVector|
      invariant forall i :: 0 <= i < number ==> out[i] == inputVector[i] as int * 256
      invariant forall i :: number <= i < |out| ==> out[i] == outputVector[i]
    {
      out := out[number := Scale256(inputVector[number])];
      number := number + 1;
    }
  }
}
