# VOLK kernel variants, modelled in Dafny

VOLK (the Vector-Optimized Library of Kernels) ships each kernel as a family
of functions. A portable `_generic` variant loops one element at a time. The
SIMD variants (`_sse`, `_sse2`, `_sse3`, `_sse4_1`, `_avx`, `_avx2`,
`_avx2_fma`, `_neon`, each aligned `a_` or unaligned `u_`) process blocks of
4, 8, 16 or 32 elements and then finish the remainder with a scalar tail. A
run-time dispatcher picks one of them, so every variant of a kernel has to
compute the same thing.

This project models seven kernel families and the shared SSE helper header.
It states, for every variant, the same element-wise reference that the
generic variant meets:

- `volk_8i_convert_16i`: `int8_t` to `int16_t`, times 256 (`Convert8i16i`).
- `volk_32f_s32f_convert_8i`: float times scalar, saturated to `int8_t` and
  rounded to nearest (`Convert32f8i`).
- `volk_32f_s32f_s32f_mod_range_32f`: wrap each float into
  `[lower, upper]` (`ModRange`).
- `volk_16ic_s32f_deinterleave_32f_x2`: split `lv_16sc_t` samples into I and
  Q float buffers, each divided by a scalar (`Deinterleave`).
- `volk_32fc_s32f_magnitude_16i`: rounded, scaled magnitude of each complex
  float as `int16_t` (`Magnitude16i`).
- `volk_32fc_x2_divide_32fc`: element-wise complex division (`Divide`).
- `volk_16i_32fc_dot_prod_32fc`: dot product of `int16_t` samples with
  complex taps (`DotProd`).
- `volk_sse_intrinsics.h`: `_mm_magnitudesquared_ps`, `_mm_magnitude_ps`,
  `_mm_scaled_norm_dist_ps_sse` and `_mm_accumulate_square_sum_ps`
  (`SseIntrinsics`).

Floats are exact `real` numbers. Under that reading the claim of the library
is provable: every SIMD variant, block loop and tail together, produces
exactly the generic variant's output. The rounding in `rintf` and
`_mm_cvtps_epi32` is modelled as round-half-to-even (`Lanes.Rint`).
Truncation as in `(int)x` and `_mm_cvttps_epi32` rounds toward zero
(`Lanes.Trunc`). Integer saturation (`packs`, the explicit clamps) and
16-bit wrap-around (`vshlq_n_s16`) are written out.

SIMD registers are fixed-length sequences of lanes, lane 0 first.
Intrinsics are pure lane functions: module `X86` holds SSE through AVX2 and
module `Neon` holds ARM NEON. A complex vector in memory is the sequence of
its interleaved scalars, real parts at even positions (`Complex.Flatten`,
`Complex.Flatten16`). Each variant is a `method` with the C code's block
loop and tail loop. Its postcondition is the kernel's reference predicate:

- `Convert8i16i.Converted`
- `Blocks.Pointwise` with `Convert32f8i.Scaled`
- `ModRange.Wrapped`
- `Deinterleave.Deinterleaved`
- `Magnitude16i.Magnitudes`
- `Divide.Divided`
- `DotProd.Dot`

Each reference is tied to an independent meaning by its own lemmas:

- `Divide.DividedIsDivision`: the quotients are the unique values whose
  product with the divisor is the dividend.
- `Deinterleave.Reinterleave`: scaling back and interleaving gives the input.
- `ModRange.WrapIsCanonical`: the wrapped value is the unique shift by whole
  periods that lands strictly inside the range.
- `DotProd.SumOrders`: summation order does not matter.
- `Convert32f8i.SingleIsNearestInt8`: the result is the nearest `int8_t`.

## Model

| member | source | states |
|---|---|---|
| Lanes.Saturate | kernels/volk/volk_32f_s32f_convert_8i.h:70-73 | The result lies in `[lo, hi]`. It is the input when the input is in range, `hi` above the range and `lo` below it. |
| Lanes.WrapInt16 | kernels/volk/volk_8i_convert_16i.h:255-264 | A 16-bit lane keeps a value congruent to the input modulo 2^16, and keeps the input itself when it fits in `int16_t`. |
| Lanes.RintNearest | kernels/volk/volk_32f_s32f_convert_8i.h:74-76 | `rintf` lands within one half of its argument, and an exact tie goes to the even integer. |
| Lanes.RintUnique | kernels/volk/volk_32f_s32f_convert_8i.h:74-76 | The two properties of `RintNearest` pin the rounding down: an integer within one half of `x`, and even on a tie, is `rintf(x)`. |
| Lanes.RintOfInteger | kernels/volk/volk_32f_s32f_convert_8i.h:74-76 | Rounding an integral value gives that integer back. |
| Lanes.RintMonotone | kernels/volk/volk_32f_s32f_convert_8i.h:74-76 | Rounding preserves order. |
| Lanes.RintInRange | kernels/volk/volk_32f_s32f_convert_8i.h:74-76 | A value clamped into `[lo, hi]` with integral bounds rounds to an integer in `[lo, hi]`. |
| Lanes.Trunc | kernels/volk/volk_32f_s32f_s32f_mod_range_32f.h:51 | `(int)x` is the integer next to `x` toward zero: the floor for `x >= 0`, the ceiling for `x <= 0`. |
| Blocks.BlockIndicesSequential | kernels/volk/volk_8i_convert_16i.h:61-69 | After `b` iterations of a block loop of width `w`, exactly the indices `0 .. w*b - 1` have been visited, in order. |
| Blocks.ScheduleCoversOnce | kernels/volk/volk_8i_convert_16i.h:49-75 | `n / w` blocks plus a tail restarting at `w * (n / w)` visit every index below `n` exactly once and in order, and the tail is shorter than one block. |
| Blocks.PointwiseUnique | kernels/volk/volk_8i_convert_16i.h:122-133 | Two outputs that both meet an element-wise reference are equal, so all variants meeting it produce identical buffers. |
| Blocks.PointwiseAppend | kernels/volk/volk_8i_convert_16i.h:71-74 | A correct prefix followed by a correct tail is a correct whole. |
| Blocks.Store | kernels/volk/volk_8i_convert_16i.h:65-66 | Storing a register writes exactly its slots and leaves every other slot unchanged. |
| X86.HAdd256Lanes | kernels/volk/volk_32fc_s32f_magnitude_16i.h:119 | `_mm256_hadd_ps` adds adjacent pairs within each 128-bit half, taking the first operand's pairs before the second's in each half. |
| Neon.Vst2Vld2RoundTrip | kernels/volk/volk_16i_32fc_dot_prod_32fc.h:109-125 | Storing with `vst2q` what `vld2q` split apart gives the interleaved memory back unchanged. |
| Neon.VrecpqRefined | kernels/volk/volk_32fc_x2_divide_32fc.h:357-359 | The refined reciprocal estimate times the lane is one (see Left out). |
| Complex.QuotIsDivision | kernels/volk/volk_32fc_x2_divide_32fc.h:78-80 | `a * conj(b) / norm(b)` is the one complex `c` with `c * b == a`, so it is complex division. |
| Complex.Quot | kernels/volk/volk_32fc_x2_divide_32fc.h:78-80 | The quotient `a * conj(b) / norm(b)` times the divisor is the dividend. |
| Complex.NormSqZero | include/volk/volk_sse_intrinsics.h:26-28 | A squared magnitude is non-negative and is zero exactly for the zero sample. |
| Complex.NormSqConj | kernels/volk/volk_32fc_x2_divide_32fc.h:111-123 | Conjugation keeps the squared magnitude. |
| Complex.MulConjIsNormSq | kernels/volk/volk_32fc_x2_divide_32fc.h:111-123 | A sample times its own conjugate is its squared magnitude, with zero imaginary part. |
| Complex.PairsFlatten | kernels/volk/volk_16i_32fc_dot_prod_32fc.h:221 | Reading interleaved scalars back as complex samples inverts the interleaving. |
| Complex.FlattenPairs | kernels/volk/volk_16i_32fc_dot_prod_32fc.h:221 | Interleaving the samples read from a scalar buffer gives the buffer back. |
| Complex.FlattenAppend | kernels/volk/volk_16i_32fc_dot_prod_32fc.h:195-196 | The scalars of two concatenated vectors are the two scalar runs concatenated. |
| Complex.FlattenSlice | kernels/volk/volk_16i_32fc_dot_prod_32fc.h:195-196 | A pointer advanced by `k` complex samples reads the scalars from position `2k` on. |
| SseIntrinsics.MagnitudeSquaredPs | include/volk/volk_sse_intrinsics.h:19-29 | Lane `k` adds the squares of scalars `2k` and `2k + 1` of the two registers read end to end. |
| SseIntrinsics.MagnitudeSquaredLanes | include/volk/volk_sse_intrinsics.h:19-29 | Lane `k` is the squared magnitude `norm(z_k)` for the four samples the two registers hold, in sample order. |
| SseIntrinsics.MagnitudeSquaredNonNegative | include/volk/volk_sse_intrinsics.h:19-29 | No lane of a squared magnitude is negative. |
| SseIntrinsics.MagnitudeSquaredSse3Lanes | kernels/volk/volk_32fc_s32f_magnitude_16i.h:167-170 | The square-then-`hadd` form also gives the squared magnitude `norm(z_k)` in sample order. |
| SseIntrinsics.MagnitudeSquaredFormsAgree | kernels/volk/volk_32fc_s32f_magnitude_16i.h:167-170 | The shuffle form and the `hadd` form agree on every pair of registers. |
| SseIntrinsics.HAdd256OfSquares | kernels/volk/volk_32fc_s32f_magnitude_16i.h:116-119 | The 256-bit `hadd` of squared registers holds the magnitudes of samples 0, 1, 4, 5, 2, 3, 6, 7, in that lane order. |
| SseIntrinsics.MagnitudePs | include/volk/volk_sse_intrinsics.h:31-34 | Lane `k` is the square root of the sum of the squares of scalars `2k` and `2k + 1`. |
| SseIntrinsics.MagnitudeLanes | include/volk/volk_sse_intrinsics.h:31-34 | `_mm_magnitude_ps` lane `k` is the square root of the squared magnitude `norm(z_k)`. |
| SseIntrinsics.ScaledNormDistPs | include/volk/volk_sse_intrinsics.h:36-47 | Lane `k` is the sum of the squared differences of scalars `2k` and `2k + 1` of symbols and points, times `scalar[k]`. |
| SseIntrinsics.ScaledNormDistLanes | include/volk/volk_sse_intrinsics.h:36-47 | Lane `k` is `scalar[k]` times the squared magnitude of `symbol_k - point_k`. |
| SseIntrinsics.ScaledNormDistSymmetric | include/volk/volk_sse_intrinsics.h:36-47 | Swapping symbols and points changes no lane. |
| SseIntrinsics.AccumulateSquareSumPs | include/volk/volk_sse_intrinsics.h:49-57 | Lane `k` is `sqAcc[k] + rec[k] * (aux[k] * val[k] - acc[k])^2`. |
| SseIntrinsics.AccumulateSquareSumGrows | include/volk/volk_sse_intrinsics.h:49-57 | With a non-negative `rec` the accumulator never decreases. With a positive `rec` it stays put exactly in the lanes where `aux * val == acc`. |
| Convert8i16i.Scale256 | kernels/volk/volk_8i_convert_16i.h:131 | The widened value is a multiple of 256 within `[-32768, 32512]`, and dividing it by 256 gives the input back. |
| Convert8i16i.WidenShiftIsScale | kernels/volk/volk_8i_convert_16i.h:63-64 | Sign-extending an 8-bit pattern to 16 bits and shifting left by 8, read as `int16_t`, is the input times 256 with no wrap-around. |
| Convert8i16i.Avx2Block | kernels/volk/volk_8i_convert_16i.h:61-69 | `cvtepi8_epi16` then `slli_epi16` by 8 turns sixteen bytes into their scaled values, lane for lane. |
| Convert8i16i.Sse41Block | kernels/volk/volk_8i_convert_16i.h:94-110 | The two-step widening of the high half, through `srli_si128`, and of the low half gives the sixteen scaled values in order. |
| Convert8i16i.NeonBlock | kernels/volk/volk_8i_convert_16i.h:255-264 | `vmovl_s8` then the wrapping `vshlq_n_s16` by 8 gives the eight scaled values. |
| Convert8i16i.Generic | kernels/volk/volk_8i_convert_16i.h:122-133 | The first `num_points` output slots hold the inputs times 256, and every later slot is untouched. |
| Convert8i16i.Avx2 | kernels/volk/volk_8i_convert_16i.h:49-75 | Blocks of 16 plus the tail leave the same buffer as the generic loop. |
| Convert8i16i.Sse41 | kernels/volk/volk_8i_convert_16i.h:82-116 | Blocks of 16 plus the tail leave the same buffer as the generic loop. |
| Convert8i16i.NeonVariant | kernels/volk/volk_8i_convert_16i.h:240-269 | Blocks of 8 plus the tail leave the same buffer as the generic loop. |
| Convert32f8i.Single | kernels/volk/volk_32f_s32f_convert_8i.h:66-77 | Above 127 the result is 127, below -128 it is -128. In between it is within one half of the input. |
| Convert32f8i.SingleIsNearestInt8 | kernels/volk/volk_32f_s32f_convert_8i.h:66-77 | No `int8_t` is closer to the input than the converted value. |
| Convert32f8i.Convert | kernels/volk/volk_32f_s32f_convert_8i.h:279-281 | The element is the scaled input saturated to 127 or -128 outside the `int8_t` range, and within one half of it inside. |
| Convert32f8i.ClampThenRound | kernels/volk/volk_32f_s32f_convert_8i.h:115-122 | Clamping to `[-128, 127]` with `min`/`max` before rounding gives what saturating after rounding gives. |
| Convert32f8i.ClampRound | kernels/volk/volk_32f_s32f_convert_8i.h:115-125 | Each lane of the scaled, clamped and rounded register is the generic value of its element. |
| Convert32f8i.SwapMiddle | kernels/volk/volk_32f_s32f_convert_8i.h:131 | `permute4x64` with `0xD8` swaps the middle two of four 64-bit quarters. |
| Convert32f8i.PackOrder32 | kernels/volk/volk_32f_s32f_convert_8i.h:129-131 | For in-range lanes, 256-bit `packs_epi32` followed by the `0xD8` permute gives the two inputs in order. |
| Convert32f8i.PackOrder16 | kernels/volk/volk_32f_s32f_convert_8i.h:134-135 | For in-range lanes, 256-bit `packs_epi16` followed by the `0xD8` permute gives the two inputs in order. |
| Convert32f8i.PackBlock16 | kernels/volk/volk_32f_s32f_convert_8i.h:200-203 | The two-level 128-bit pack of four in-range registers is their concatenation. |
| Convert32f8i.PackBlock32 | kernels/volk/volk_32f_s32f_convert_8i.h:129-135 | The two-level 256-bit pack and permute of four in-range registers is their concatenation. |
| Convert32f8i.SseBlock | kernels/volk/volk_32f_s32f_convert_8i.h:246-256 | The `_sse` block of four lanes gives each element's generic value. |
| Convert32f8i.Sse2Block | kernels/volk/volk_32f_s32f_convert_8i.h:176-206 | The `_sse2` block of sixteen lanes gives each element's generic value, in order. |
| Convert32f8i.Avx2Block | kernels/volk/volk_32f_s32f_convert_8i.h:105-138 | The `_avx2` block of thirty-two lanes gives each element's generic value, in order. |
| Convert32f8i.Generic | kernels/volk/volk_32f_s32f_convert_8i.h:270-283 | Output `i` is input `i` times the scalar, saturated to `int8_t` and rounded. |
| Convert32f8i.Tail | kernels/volk/volk_32f_s32f_convert_8i.h:141-145 | The scalar tail completes a correct prefix to a correct whole. |
| Convert32f8i.Sse | kernels/volk/volk_32f_s32f_convert_8i.h:222-262 | Blocks of 4 plus the tail give the generic output. |
| Convert32f8i.Sse2 | kernels/volk/volk_32f_s32f_convert_8i.h:154-213 | Blocks of 16 plus the tail give the generic output. |
| Convert32f8i.Avx2 | kernels/volk/volk_32f_s32f_convert_8i.h:82-145 | Blocks of 32 plus the tail give the generic output. |
| ModRange.Wrap | kernels/volk/volk_32f_s32f_s32f_mod_range_32f.h:37-61 | The result lies in `[lower, upper]`. A value below the range lands strictly above `lower`, one above it strictly below `upper`, and one inside is kept. |
| ModRange.StepOver | kernels/volk/volk_32f_s32f_s32f_mod_range_32f.h:50-52 | `count + 1` whole distances carry an out-of-range value past the near bound by at most one distance. |
| ModRange.WrapIsWholeTurns | kernels/volk/volk_32f_s32f_s32f_mod_range_32f.h:45-58 | The result differs from the input by a whole number of periods `upper - lower`. |
| ModRange.WrapIdempotent | kernels/volk/volk_32f_s32f_s32f_mod_range_32f.h:45-58 | Wrapping a wrapped value changes nothing. |
| ModRange.SameTurns | kernels/volk/volk_32f_s32f_s32f_mod_range_32f.h:45-58 | At most one shift by whole periods lands strictly inside the range and in the closed range at once. |
| ModRange.WrapIsCanonical | kernels/volk/volk_32f_s32f_s32f_mod_range_32f.h:45-58 | Any shift by whole periods that lands strictly inside the range is the wrapped value. |
| ModRange.LaneIsWrap | kernels/volk/volk_32f_s32f_s32f_mod_range_32f.h:87-107 | The mask-based lane computation equals the generic branch logic for every input. |
| ModRange.LaneValue | kernels/volk/volk_32f_s32f_s32f_mod_range_32f.h:96-107 | `input + count * adj * distance` with the masked excess and sign is the lane value. |
| ModRange.Excess | kernels/volk/volk_32f_s32f_s32f_mod_range_32f.h:92-94 | The masked, or-ed excess is `lower - val` below the range, `val - upper` above it and zero inside. |
| ModRange.Direction | kernels/volk/volk_32f_s32f_s32f_mod_range_32f.h:100-104 | `adj` is +1 below the range, -1 above it and 0 inside. |
| ModRange.Count | kernels/volk/volk_32f_s32f_s32f_mod_range_32f.h:96-101 | The lane count is the truncated excess over the distance, plus one. |
| ModRange.Block | kernels/volk/volk_32f_s32f_s32f_mod_range_32f.h:85-107 | One block of lanes gives every element its wrapped value. |
| ModRange.WrappedAppend | kernels/volk/volk_32f_s32f_s32f_mod_range_32f.h:113-114 | Handing the remainder to the generic kernel completes a correct prefix to a correct whole. |
| ModRange.Generic | kernels/volk/volk_32f_s32f_s32f_mod_range_32f.h:37-61 | Output `i` is input `i` wrapped into the range. |
| ModRange.Simd | kernels/volk/volk_32f_s32f_s32f_mod_range_32f.h:68-115 | The AVX (width 8) and SSE/SSE2 (width 4) variants give the generic output. |
| Deinterleave.Reinterleave | kernels/volk/volk_16ic_s32f_deinterleave_32f_x2.h:188-191 | Scaling the I and Q buffers back by `scalar` and interleaving them gives the input shorts, so nothing is lost, reordered or duplicated. |
| Deinterleave.Unscale | kernels/volk/volk_16ic_s32f_deinterleave_32f_x2.h:188-191 | A short over the scalar, times the scalar, is the short. |
| Deinterleave.InverseScale | kernels/volk/volk_16ic_s32f_deinterleave_32f_x2.h:69 | Multiplying by `1.0 / scalar` is dividing by `scalar`. |
| Deinterleave.SseShuffleSplits | kernels/volk/volk_16ic_s32f_deinterleave_32f_x2.h:154-157 | The two `shuffle_ps` selectors pick the even and the odd scalars of the two registers read end to end. |
| Deinterleave.Avx2ShuffleSplitsEven | kernels/volk/volk_16ic_s32f_deinterleave_32f_x2.h:90-91 | `shuffle_ps` then `permutevar8x32` with the index vector picks the eight even scalars in order. |
| Deinterleave.Avx2ShuffleSplitsOdd | kernels/volk/volk_16ic_s32f_deinterleave_32f_x2.h:93-94 | `shuffle_ps` then `permutevar8x32` with the index vector picks the eight odd scalars in order. |
| Deinterleave.ScaleLanes | kernels/volk/volk_16ic_s32f_deinterleave_32f_x2.h:79-87 | Widened, converted and multiplied by `1 / scalar`, lane `i` is short `i` over the scalar. |
| Deinterleave.SseBlock | kernels/volk/volk_16ic_s32f_deinterleave_32f_x2.h:134-164 | A block gives the four I values and the four Q values of its samples. |
| Deinterleave.Avx2Block | kernels/volk/volk_16ic_s32f_deinterleave_32f_x2.h:73-101 | A block gives the eight I values and the eight Q values of its samples. |
| Deinterleave.NeonBlock | kernels/volk/volk_16ic_s32f_deinterleave_32f_x2.h:216-229 | `vld2` splits the four samples, and the widened, converted and scaled halves are their I and Q values. |
| Deinterleave.DeinterleavedAppend | kernels/volk/volk_16ic_s32f_deinterleave_32f_x2.h:103-108 | A correct prefix followed by a correct rest is a correct whole. |
| Deinterleave.Generic | kernels/volk/volk_16ic_s32f_deinterleave_32f_x2.h:177-192 | `iBuffer[k]` is the real part of sample `k` over the scalar, and `qBuffer[k]` the imaginary part. |
| Deinterleave.Tail | kernels/volk/volk_16ic_s32f_deinterleave_32f_x2.h:166-171 | The scalar tail completes correct buffers for a prefix to correct buffers for the whole input. |
| Deinterleave.Sse | kernels/volk/volk_16ic_s32f_deinterleave_32f_x2.h:115-172 | Blocks of 4 plus the tail give the generic buffers. |
| Deinterleave.Avx2 | kernels/volk/volk_16ic_s32f_deinterleave_32f_x2.h:53-109 | Blocks of 8 plus the tail, restarted at sample `8 * (n / 8)`, give the generic buffers. |
| Deinterleave.NeonVariant | kernels/volk/volk_16ic_s32f_deinterleave_32f_x2.h:197-235 | Blocks of 4 plus the tail give the generic buffers. |
| Magnitude16i.Magnitude | kernels/volk/volk_32fc_s32f_magnitude_16i.h:71-77 | The stored value is within one half of `sqrt(norm(z)) * scalar`. |
| Magnitude16i.MagnitudeConj | kernels/volk/volk_32fc_s32f_magnitude_16i.h:71-77 | A sample and its conjugate give the same output. |
| Magnitude16i.GenericLane | kernels/volk/volk_32fc_s32f_magnitude_16i.h:71-77 | `rintf(scalar * sqrtf(re*re + im*im))` over the sample's parts is the sample's value. |
| Magnitude16i.RoundCommutes | kernels/volk/volk_32fc_s32f_magnitude_16i.h:172-177 | Scaling before or after taking the root gives the same rounded value. |
| Magnitude16i.RoundBlock | kernels/volk/volk_32fc_s32f_magnitude_16i.h:172-180 | Root, scale and round of four squared magnitudes gives each sample's value. |
| Magnitude16i.Sse3Block | kernels/volk/volk_32fc_s32f_magnitude_16i.h:160-181 | The `hadd` block gives the values of its four samples in order. |
| Magnitude16i.SseBlock | kernels/volk/volk_32fc_s32f_magnitude_16i.h:218-238 | The shuffle block gives the values of its four samples in order. |
| Magnitude16i.PermutePairs | kernels/volk/volk_32fc_s32f_magnitude_16i.h:127-129 | The index vector `0, 4, 1, 5` moves 32-bit pairs so that the low half holds the packed lanes in sample order. |
| Magnitude16i.Avx2Block | kernels/volk/volk_32fc_s32f_magnitude_16i.h:109-132 | The AVX2 block gives each sample's value saturated to `int16_t` when that value fits in `int32_t`, and -32768 when it does not (`cvtps_epi32` returns INT32_MIN, which `packs_epi32` saturates). The `hadd` and `packs` reorderings are undone by the permute. |
| Magnitude16i.Avx2BlockAgrees | kernels/volk/volk_32fc_s32f_magnitude_16i.h:125-129 | The saturating AVX2 block agrees with the generic values exactly when every value of the block fits in `int16_t`. |
| Magnitude16i.Generic | kernels/volk/volk_32fc_s32f_magnitude_16i.h:63-78 | Entry `k` is the rounded, scaled magnitude of sample `k`. |
| Magnitude16i.GenericTail | kernels/volk/volk_32fc_s32f_magnitude_16i.h:134-136 | Calling the generic kernel on the remainder completes a correct prefix. |
| Magnitude16i.Sse3 | kernels/volk/volk_32fc_s32f_magnitude_16i.h:143-186 | Blocks of 4 plus the tail give the generic output. |
| Magnitude16i.Sse | kernels/volk/volk_32fc_s32f_magnitude_16i.h:193-244 | Blocks of 4 plus the tail give the generic output. |
| Magnitude16i.Avx2 | kernels/volk/volk_32fc_s32f_magnitude_16i.h:92-137 | Blocks of 8 plus the generic tail give the generic output. |
| Divide.DividedIsDivision | kernels/volk/volk_32fc_x2_divide_32fc.h:78-80 | The outputs meet the reference exactly when each output times its denominator is its numerator. |
| Divide.DividedAppend | kernels/volk/volk_32fc_x2_divide_32fc.h:133-139 | Correct quotients for a prefix followed by correct quotients for the rest are correct for the whole. |
| Divide.Quotients | kernels/volk/volk_32fc_x2_divide_32fc.h:69-81 | The vector of element-wise quotients meets the reference. |
| Divide.QuotientsSlice | kernels/volk/volk_32fc_x2_divide_32fc.h:108-131 | The quotients of a slice are that slice of the quotients. |
| Divide.ComplexConjugateMulPs | kernels/volk/volk_32fc_x2_divide_32fc.h:111-117 | Sample `k` of the product is `x_k * conj(y_k)`: real part `x.re * y.re + x.im * y.im`, imaginary part `x.im * y.re - x.re * y.im`. |
| Divide.DivideByNorms | kernels/volk/volk_32fc_x2_divide_32fc.h:111-129 | `a * conj(b)`, lane by lane over the interleaved norms, is the interleaved quotients, and no norm is zero. |
| Divide.Sse3Block | kernels/volk/volk_32fc_x2_divide_32fc.h:108-131 | A block of four samples stores the interleaved quotients. |
| Divide.AvxUBlock | kernels/volk/volk_32fc_x2_divide_32fc.h:167-186 | A block of four samples stores the interleaved quotients. |
| Divide.AvxAShuffles | kernels/volk/volk_32fc_x2_divide_32fc.h:309-316 | The shuffles that duplicate the norms put norm `k` next to both parts of sample `k`. |
| Divide.AvxABlock | kernels/volk/volk_32fc_x2_divide_32fc.h:294-322 | A block of eight samples stores the interleaved quotients. |
| Divide.NeonLane | kernels/volk/volk_32fc_x2_divide_32fc.h:361-367 | The multiply-accumulate forms times the reciprocal norm are the real and imaginary parts of the quotient. |
| Divide.NeonBlock | kernels/volk/volk_32fc_x2_divide_32fc.h:346-371 | A block of four samples, split by `vld2` and re-interleaved by `vst2`, stores the quotients. |
| Divide.Generic | kernels/volk/volk_32fc_x2_divide_32fc.h:69-81 | Output `k` is `a[k] / b[k]` for every `k`. |
| Divide.Tail | kernels/volk/volk_32fc_x2_divide_32fc.h:133-139 | The scalar tail completes correct quotients for a prefix to correct quotients for the whole. |
| Divide.Simd | kernels/volk/volk_32fc_x2_divide_32fc.h:89-140 | Each SIMD variant (u_sse3, a_sse3, u_avx, a_avx, neon) gives the generic output. |
| DotProd.SumAppend | kernels/volk/volk_16i_32fc_dot_prod_32fc.h:77-81 | A sum splits at any point into the sums of the two parts. |
| DotProd.SumOrders | kernels/volk/volk_16i_32fc_dot_prod_32fc.h:70-81 | Summing last to first gives the same value as first to last. |
| DotProd.Dot | kernels/volk/volk_16i_32fc_dot_prod_32fc.h:70-81 | The dot product is the sum of the terms `input[i] * taps[i]`, and summing them from the front gives the same value. |
| DotProd.DotAppend | kernels/volk/volk_16i_32fc_dot_prod_32fc.h:215-219 | The dot product of two concatenations is the sum of the two dot products. |
| DotProd.DotScaleTaps | kernels/volk/volk_16i_32fc_dot_prod_32fc.h:71-78 | Scaling every tap by `k` scales the dot product by `k`. |
| DotProd.Generic | kernels/volk/volk_16i_32fc_dot_prod_32fc.h:54-82 | Four unrolled accumulators and the tail into `acc0`, added at the end, give the dot product. |
| DotProd.Unrolled | kernels/volk/volk_16i_32fc_dot_prod_32fc.h:70-75 | After the unrolled loop the four accumulators together hold the sum of the first `n` terms. |
| DotProd.FourSteps | kernels/volk/volk_16i_32fc_dot_prod_32fc.h:71-74 | One pass of the unrolled loop adds the next four terms to the combined accumulators. |
| DotProd.Tail | kernels/volk/volk_16i_32fc_dot_prod_32fc.h:215-219 | The separate real and imaginary tail updates complete a prefix sum to the dot product. |
| DotProd.ScaledTaps | kernels/volk/volk_16i_32fc_dot_prod_32fc.h:175-188 | Each sample duplicated next to itself, times the interleaved taps, is the interleaved terms. |
| DotProd.CollapseAdd | kernels/volk/volk_16i_32fc_dot_prod_32fc.h:201-203 | Adding two registers lane by lane adds the complex sums they hold. |
| DotProd.Setzero | kernels/volk/volk_16i_32fc_dot_prod_32fc.h:161-164 | The zeroed accumulators hold the sum zero. |
| DotProd.AccumulateAll | kernels/volk/volk_16i_32fc_dot_prod_32fc.h:190-193 | Adding four product registers, each holding a quarter of a block's terms, adds the block's terms to the total. |
| DotProd.SseProductsAreTerms | kernels/volk/volk_16i_32fc_dot_prod_32fc.h:168-188 | The four `_sse` product registers hold the block's eight terms, interleaved, in quarters. |
| DotProd.SseNext | kernels/volk/volk_16i_32fc_dot_prod_32fc.h:166-197 | One `_sse` iteration adds the dot product of its eight samples to the total. |
| DotProd.FmaddIsMulAdd | kernels/volk/volk_16i_32fc_dot_prod_32fc.h:279-282 | `fmadd(a, b, acc)` equals `add(mul(a, b), acc)` lane by lane. |
| DotProd.Avx2Products | kernels/volk/volk_16i_32fc_dot_prod_32fc.h:256-277 | The unpacked and permuted samples times the taps give the block's sixteen terms, interleaved, in quarters. |
| DotProd.Avx2Next | kernels/volk/volk_16i_32fc_dot_prod_32fc.h:254-286 | One AVX2 iteration, with or without FMA, adds the dot product of its sixteen samples to the total. |
| DotProd.SseReduce | kernels/volk/volk_16i_32fc_dot_prod_32fc.h:201-213 | The reduction to `res[0]`, `res[1]` gives the total the registers hold. |
| DotProd.Avx2Reduce | kernels/volk/volk_16i_32fc_dot_prod_32fc.h:288-304 | The reduction of the eight lanes gives the total the registers hold. |
| DotProd.Sse | kernels/volk/volk_16i_32fc_dot_prod_32fc.h:141-222 | Blocks of 8 plus the tail give the dot product. |
| DotProd.Avx2 | kernels/volk/volk_16i_32fc_dot_prod_32fc.h:229-313 | Blocks of 16 plus the tail, with or without FMA, give the dot product. |
| DotProd.NeonNext | kernels/volk/volk_16i_32fc_dot_prod_32fc.h:108-124 | One NEON iteration adds the dot product of its four samples to the reduced accumulators. |
| DotProd.NeonTerms | kernels/volk/volk_16i_32fc_dot_prod_32fc.h:109-117 | The lanes of the two `vmulq` products add up to the block's dot product. |
| DotProd.NeonReduceAdd | kernels/volk/volk_16i_32fc_dot_prod_32fc.h:119-120 | Adding registers lane by lane adds their reductions. |
| DotProd.NeonSetzero | kernels/volk/volk_16i_32fc_dot_prod_32fc.h:105-106 | The zeroed NEON accumulators reduce to zero. |
| DotProd.NeonVariant | kernels/volk/volk_16i_32fc_dot_prod_32fc.h:88-135 | Blocks of 4, the `vst2q` reduction and the tail give the dot product. |

## Left out

- Floating point: every float is an exact real, so IEEE rounding of each
  addition and multiplication, NaN, infinities and denormals are not
  modelled. In particular the summation orders of the dot-product variants
  differ in floating point. The model proves they agree only in exact
  arithmetic.
- `rintf` and `_mm_cvtps_epi32` use the default round-to-nearest-even mode.
  Other rounding modes are not modelled. `X86.CvtPsEpi32` returns INT32_MIN
  for a lane whose rounded value does not fit in `int32_t`. The clamps in
  the convert kernel keep its lanes in range, and the AVX2 magnitude block
  states what it stores for such lanes.
- ModRange.Count: `_mm_cvttps_epi32` is modelled as exact truncation, without
  the INT32_MIN result for quotients of `2^31` distances or more. The
  generic variant's `(int)` cast of such a quotient is undefined behaviour
  in C, so the variants have no common defined result there.
- ModRange.Wrap: requires `lower < upper`. With equal bounds the C code
  divides by zero, and the integer conversion of the resulting infinity or
  NaN is undefined. With reversed bounds both masks can be set, and `or_ps`
  then merges two float bit patterns, which has no meaning on reals.
- ModRange.Simd: the "unaligned" `u_sse` and `u_sse2` variants load and
  store with the aligned `_mm_load_ps`/`_mm_store_ps`
  (kernels/volk/volk_32f_s32f_s32f_mod_range_32f.h:187, 207, 284, 305).
  Alignment is not modelled, so these are taken to compute the same values
  as their aligned twins.
- Alignment in general: each `u_`/`a_` pair differs only in load and store
  intrinsics, which read the same memory slice here. One member models
  both twins.
- Deinterleave: requires `scalar != 0`. The C code divides by it, and a
  zero scalar gives infinities the model cannot express.
- Divide: requires every denominator to be non-zero. A zero denominator
  gives NaN or infinity in C.
- Magnitude16i.Generic: requires every rounded value to fit in `int16_t`
  (`Fits`). The `(int16_t)` cast of an out-of-range float in the generic,
  SSE and SSE3 variants is undefined behaviour in C. `Avx2BlockAgrees` shows
  that the saturating AVX2 block matches exactly on the inputs that fit.
- Magnitude16i.Round: multiplies root times scalar, the order of the SIMD
  code. The generic code writes `scalar * sqrtf(...)`, and
  `RoundCommutes` shows that the two orders are equal on reals.
- The square root is a parameter `sqrt: real -> real` applied lane by lane.
  `sqrtf` and `sqrt_ps` are both correctly rounded, so every variant applies
  the same function. Its values are not pinned down.
- Neon.VrecpqRefined: the `vrecpeq_f32` estimate followed by two
  `vrecpsq_f32` Newton–Raphson steps is taken as the exact reciprocal. On
  hardware it is accurate to a few units in the last place, so the NEON
  divide matches the others only up to that error.
- `volk_sse3_intrinsics.h` and `volk_avx_intrinsics.h` are not part of this
  model. `_mm_complexconjugatemul_ps`, `_mm256_complexconjugatemul_ps` and
  `_mm_magnitudesquared_ps_sse3` are modelled by their documented lane
  meaning (`Divide.ComplexConjugateMulPs`,
  `SseIntrinsics.MagnitudeSquaredSse3`).
- The ORC variants (`_u_orc`, `_a_orc`) call generated code outside this
  repository and are not modelled.
- `_mm_empty`, prefetch hints, `volatile` locals and the run-time
  dispatcher do not affect the values computed and are not modelled.
- Deinterleave.NeonVariant: the NEON kernel names its block count
  `eighth_points` but computes `num_points / 4` and steps by four samples.
  The model follows the code.
- Lanes.Rint: only round-half-to-even is modelled, with no fuel or width
  bound. Its results are unbounded integers until a caller saturates or
  narrows them.
