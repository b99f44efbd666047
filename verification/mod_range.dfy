/** volk_32f_s32f_s32f_mod_range_32f: wrap every value into
    [lower_bound, upper_bound] by adding or subtracting whole multiples of the
    distance between the bounds. */
module ModRange {
  import opened Lanes
  import opened X86

  /** The generic per-element rule: a value below the range moves up by
      `count + 1` distances, a value above moves down by `count + 1`, where
      `count` is the truncated number of whole distances it lies outside;
      values inside the closed range are kept. The result lies in the closed
      range; a value that was below it lands strictly above `lower`, one that
      was above lands strictly below `upper`. */
  function Wrap(lower: real, upper: real, val: real): (r: real)
    requires lower < upper
    ensures lower <= r <= upper
    ensures val < lower ==> lower < r
    ensures val > upper ==> r < upper
    ensures lower <= val <= upper ==> r == val
  {
    var distance := upper - lower;
    if val < lower then
      var count := Trunc((lower - val) / distance);
      StepOver(lower - val, distance);
      val + (count + 1) as real * distance
    else if val > upper then
      var count := Trunc((val - upper) / distance);
      StepOver(val - upper, distance);
      val - (count + 1) as real * distance
    else
      val
  }

  /** Sign facts for the products `ScaleBracket` combines; the solver does
      not derive them inside the larger context. */
  lemma ProductPositive(a: real, b: real)
    requires a > 0.0 && b > 0.0
    ensures a * b > 0.0
  {
  }

  lemma ProductNonNegative(a: real, b: real)
    requires a >= 0.0 && b > 0.0
    ensures a * b >= 0.0
  {
  }

  /** The linear step that closes `ScaleBracket`, stated over the products as
      opaque quantities so the solver does not re-enter nonlinear reasoning. */
  lemma BracketCombine(up: real, down: real, td: real, qd: real, d: real, e: real)
    requires up > 0.0 && down >= 0.0 && up == td + d - qd && down == qd - td && qd == e
    ensures td <= e < td + d
  {
  }

  /** If `t <= q < t + 1` and `e = q * d` with `d > 0`, then `t * d <= e < t * d + d`. */
  lemma ScaleBracket(t: real, q: real, d: real, e: real)
    requires d > 0.0 && t <= q < t + 1.0 && q * d == e
    ensures t * d <= e < t * d + d
  {
    ProductPositive(t + 1.0 - q, d);
    ProductNonNegative(q - t, d);
    BracketCombine((t + 1.0 - q) * d, (q - t) * d, t * d, q * d, d, e);
  }

  /** A value `excess > 0` outside the range moves `Trunc(excess / d) + 1`
      distances, which lands it within one distance on the other side of the
      bound it crossed: strictly past the bound, at most `d` from it. */
  lemma StepOver(excess: real, d: real)
    requires excess > 0.0 && d > 0.0
    ensures 0.0 < (Trunc(excess / d) + 1) as real * d - excess <= d
  {
    var q := excess / d;
    var t := Trunc(q);
    ScaleBracket(t as real, q, d, excess);
    assert (t + 1) as real * d == t as real * d + d;
  }

  /** A non-zero whole number of distances is at least one distance long. */
  lemma WholeMultiple(m: int, d: real, md: real)
    requires d > 0.0 && md == m as real * d
    ensures m >= 1 ==> md >= d
    ensures m <= -1 ==> md <= -d
  {
  }

  /** The wrapped value differs from the input by a whole number of
      distances: `Turns` of them. */
  function Turns(lower: real, upper: real, val: real): int
    requires lower < upper
  {
    var distance := upper - lower;
    if val < lower then Trunc((lower - val) / distance) + 1
    else if val > upper then -(Trunc((val - upper) / distance) + 1)
    else 0
  }

  lemma WrapIsWholeTurns(lower: real, upper: real, val: real)
    requires lower < upper
    ensures Wrap(lower, upper, val) == val + Turns(lower, upper, val) as real * (upper - lower)
  {
  }

  /** Wrapping is idempotent. */
  lemma WrapIdempotent(lower: real, upper: real, val: real)
    requires lower < upper
    ensures Wrap(lower, upper, Wrap(lower, upper, val)) == Wrap(lower, upper, val)
  {
  }

  /** Two values of the closed range, one of them strictly inside, that are
      whole numbers `k` and `j` of distances away from the same value use the
      same number of distances. */
  lemma SameTurns(lower: real, upper: real, val: real, k: int, j: int)
    requires lower < upper
    requires lower < val + k as real * (upper - lower) < upper
    requires lower <= val + j as real * (upper - lower) <= upper
    ensures k == j
  {
    var d := upper - lower;
    var m := k - j;
    var md := m as real * d;
    assert md == k as real * d - j as real * d;
    WholeMultiple(m, d, md);
    CanonicalCombine(k as real * d, j as real * d, md, m, d, lower, upper, val);
  }

  /** The linear step that closes `SameTurns`. */
  lemma CanonicalCombine(kd: real, jd: real, md: real, m: int, d: real, lower: real, upper: real, val: real)
    requires d == upper - lower && d > 0.0
    requires lower < val + kd < upper && lower <= val + jd <= upper
    requires md == kd - jd
    requires m >= 1 ==> md >= d
    requires m <= -1 ==> md <= -d
    ensures m == 0
  {
  }

  /** The wrapped value is the canonical representative: any value strictly
      inside the range that differs from the input by whole distances is the
      wrapped value. */
  lemma WrapIsCanonical(lower: real, upper: real, val: real, k: int)
    requires lower < upper
    requires lower < val + k as real * (upper - lower) < upper
    ensures Wrap(lower, upper, val) == val + k as real * (upper - lower)
  {
    WrapIsWholeTurns(lower, upper, val);
    SameTurns(lower, upper, val, k, Turns(lower, upper, val));
  }

  /** One lane of the SIMD blocks: the two comparison masks, the positive
      excess selected by them, the truncated quotient plus one, the sign
      selected by them, and the final scaled adjustment. */
  function Lane(lower: real, upper: real, val: real): real
    requires lower < upper
  {
    var distance := upper - lower;
    var isSmaller := val < lower;
    var isBigger := val > upper;
    var excess := if isBigger then val - upper else if isSmaller then lower - val else 0.0;
    var count := Trunc(excess / distance) as real + 1.0;
    var adj := if isBigger then -1.0 else if isSmaller then 1.0 else 0.0;
    val + count * adj * distance
  }

  /** The reference every variant meets: output `i` is input `i` wrapped. */
  ghost predicate Wrapped(lower: real, upper: real, xs: seq<real>, ys: seq<real>)
    requires lower < upper
  {
    |ys| == |xs| && forall i :: 0 <= i < |xs| ==> ys[i] == Wrap(lower, upper, xs[i])
  }

  lemma WrappedAppend(lower: real, upper: real, xs: seq<real>, ys: seq<real>, xs': seq<real>, ys': seq<real>)
    requires lower < upper
    requires Wrapped(lower, upper, xs, ys) && Wrapped(lower, upper, xs', ys')
    ensures Wrapped(lower, upper, xs + xs', ys + ys')
  {
  }

  /** The SIMD lane computes the generic element rule. */
  lemma LaneIsWrap(lower: real, upper: real, val: real)
    requires lower < upper
    ensures Lane(lower, upper, val) == Wrap(lower, upper, val)
  {
  }

  /** The last step of a lane, `val + count * adj * distance`, with the
      lane values passed as scalars. */
  lemma LaneValue(lower: real, upper: real, val: real, count: real, adj: real, distance: real)
    requires lower < upper && distance == upper - lower
    requires count == Trunc((if val > upper then val - upper else if val < lower then lower - val else 0.0) / distance) as real + 1.0
    requires adj == if val > upper then -1.0 else if val < lower then 1.0 else 0.0
    ensures val + count * adj * distance == Lane(lower, upper, val)
  {
  }

  /** How far each lane lies outside the range, from the two comparison
      masks: `or(and(v - upper, isBigger), and(lower - v, isSmaller))`. The
      masks are disjoint because `lower < upper`, so `or_ps` merges a zero
      lane with the other operand. */
  function Excess(v: seq<real>, lower: real, upper: real): (e: seq<real>)
    requires lower < upper
    ensures |e| == |v|
    ensures forall i :: 0 <= i < |v| ==>
              e[i] == if v[i] > upper then v[i] - upper else if v[i] < lower then lower - v[i] else 0.0
  {
    var n := |v|;
    var lowerV := Set1(lower, n);
    var upperV := Set1(upper, n);
    var isSmaller := CmpLtPs(v, lowerV);
    var isBigger := CmpGtPs(v, upperV);
    var below := AndPs(SubPs(lowerV, v), isSmaller);
    var above := AndPs(SubPs(v, upperV), isBigger);
    OrPs(above, below)
  }

  /** The direction of each lane's adjustment, `or(and(-1, isBigger),
      and(1, isSmaller))`. */
  method Direction(v: seq<real>, lower: real, upper: real) returns (a: seq<real>)
    requires lower < upper
    ensures |a| == |v|
    ensures forall i :: 0 <= i < |v| ==> a[i] == if v[i] > upper then -1.0 else if v[i] < lower then 1.0 else 0.0
  {
    var n := |v|;
    var isSmaller := CmpLtPs(v, Set1(lower, n));
    var isBigger := CmpGtPs(v, Set1(upper, n));
    var up := AndPs(Set1(1.0, n), isSmaller);
    var down := AndPs(Set1(-1.0, n), isBigger);
    a := OrPs(down, up);
  }

  /** How many distances each lane moves: the excess over the distance,
      truncated by `cvttps_epi32`, converted back, plus one. */
  method Count(v: seq<real>, lower: real, upper: real) returns (c: seq<real>)
    requires lower < upper
    ensures |c| == |v|
    ensures forall i :: 0 <= i < |v| ==>
              c[i] == Trunc((if v[i] > upper then v[i] - upper else if v[i] < lower then lower - v[i] else 0.0)
                            / (upper - lower)) as real + 1.0
  {
    var n := |v|;
    var distance := SubPs(Set1(upper, n), Set1(lower, n));
    var quotient := DivPs(Excess(v, lower, upper), distance);
    c := AddPs(CvtEpi32Ps(CvttPsEpi32(quotient)), Set1(1.0, n));
  }

  /** One SIMD block as the `_avx`, `_sse2` and `_sse` variants compute it:
      the excess over the distance, truncated, plus one, times the direction
      and the distance, added to the input. */
  method Block(v: seq<real>, lower: real, upper: real) returns (r: seq<real>)
    requires lower < upper
    ensures Wrapped(lower, upper, v, r)
  {
    var n := |v|;
    var distance := SubPs(Set1(upper, n), Set1(lower, n));
    var count := Count(v, lower, upper);
    var adj := Direction(v, lower, upper);
    var scaled := MulPs(count, adj);
    var step := MulPs(scaled, distance);
    r := AddPs(v, step);
    forall i | 0 <= i < n
      ensures r[i] == Wrap(lower, upper, v[i])
    {
      assert distance[i] == upper - lower;
      assert step[i] == count[i] * adj[i] * distance[i];
      LaneValue(lower, upper, v[i], count[i], adj[i], distance[i]);
      LaneIsWrap(lower, upper, v[i]);
    }
  }

  /** `_generic`: the element rule applied to every input in order. */
  method Generic(inputVector: seq<real>, lower: real, upper: real) returns (out: seq<real>)
    requires lower < upper
    ensures Wrapped(lower, upper, inputVector, out)
  {
    out := [];
    var number := 0;
    while number < |inputVector|
      invariant number <= |inputVector|
      invariant |out| == number
      invariant forall i :: 0 <= i < number ==> out[i] == Wrap(lower, upper, inputVector[i])
    {
      out := out + [Wrap(lower, upper, inputVector[number])];
      number := number + 1;
    }
  }

  /** `_u_avx`/`_a_avx` (width 8) and `_u_sse2`/`_a_sse2`/`_u_sse`/`_a_sse`
      (width 4): whole blocks, then the generic kernel on the remainder. */
  method Simd(inputVector: seq<real>, lower: real, upper: real, width: nat) returns (out: seq<real>)
    requires lower < upper
    requires width == 4 || width == 8
    ensures Wrapped(lower, upper, inputVector, out)
  {
    var blocks := |inputVector| / width;
    out := [];
    var counter := 0;
    while counter < blocks
      invariant counter <= blocks
      invariant Wrapped(lower, upper, inputVector[..width * counter], out)
    {
      var from := width * counter;
      var r := Block(inputVector[from..from + width], lower, upper);
      WrappedAppend(lower, upper, inputVector[..from], out, inputVector[from..from + width], r);
      assert inputVector[..from] + inputVector[from..from + width] == inputVector[..from + width];
      out := out + r;
      counter := counter + 1;
    }
    var rest := Generic(inputVector[width * blocks..], lower, upper);
    WrappedAppend(lower, upper, inputVector[..width * blocks], out, inputVector[width * blocks..], rest);
    assert inputVector[..width * blocks] + inputVector[width * blocks..] == inputVector;
    out := out + rest;
  }
}
