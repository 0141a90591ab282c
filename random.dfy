/** The random helpers of src/Physarum/utils.ts. `Math.random()` is not a
    function, so every draw is an explicit parameter `r`, which the runtime
    always picks in [0, 1). */
module Random {

  /** A value `Math.random()` can return. */
  predicate IsDraw(r: real) {
    0.0 <= r < 1.0
  }

  /** `rndFloat(min, max)`: linear interpolation from `min` towards `max`. */
  function RndFloat(min: real, max: real, r: real): (x: real)
    ensures min == max ==> x == min
    ensures min < max && IsDraw(r) ==> min <= x < max
    ensures min > max && IsDraw(r) ==> max < x <= min
  {
    var offset := (max - min) * r;
    if IsDraw(r) then Scaled(max - min, r, offset); min + offset
    else min + offset
  }

  /** Scaling a span by a draw stays inside the span (`offset` is the
      product, passed in so that the solver sees one term for it). */
  lemma Scaled(span: real, r: real, offset: real)
    requires IsDraw(r) && offset == span * r
    ensures span > 0.0 ==> 0.0 <= offset < span
    ensures span < 0.0 ==> span < offset <= 0.0
  {
  }

  /** JavaScript's `Math.round`: the nearest integer, halves rounded up
      (towards positive infinity, so `Math.round(-2.5) == -2`). */
  function Round(x: real): (n: int)
    ensures n as real - 0.5 <= x < n as real + 0.5
  {
    (x + 0.5).Floor
  }

  /** `Math.min` and `Math.max`. */
  function Min(a: real, b: real): (m: real)
    ensures m <= a && m <= b && (m == a || m == b)
  {
    if a <= b then a else b
  }

  function Max(a: real, b: real): (m: real)
    ensures m >= a && m >= b && (m == a || m == b)
  {
    if a >= b then a else b
  }

  /** `rndInt(min, max)`: `Math.round` of a `rndFloat` draw. */
  function RndInt(min: real, max: real, r: real): (n: int)
  {
    Round(RndFloat(min, max, r))
  }

  /** For integer bounds the result is an integer between them, both ends
      included; with equal bounds the draw does not matter. */
  lemma RndIntRange(min: int, max: int, r: real)
    requires min <= max && IsDraw(r)
    ensures min <= RndInt(min as real, max as real, r) <= max
    ensures min == max ==> RndInt(min as real, max as real, r) == min
  {
    var x := RndFloat(min as real, max as real, r);
    assert min as real <= x <= max as real;
    var n := Round(x);
    assert (min as real) - 0.5 < n as real + 0.5 - 1.0 + 0.5;
  }

  /** The ends of an integer range are drawn half as often as the inner
      values: `rndInt(0, 2)` is 0 for r < 1/4, 1 for 1/4 <= r < 3/4 and 2
      for r >= 3/4. */
  lemma {:induction false} RndIntZeroTwoBands(r: real)
    requires IsDraw(r)
    ensures RndInt(0.0, 2.0, r) == 0 <==> r < 0.25
    ensures RndInt(0.0, 2.0, r) == 1 <==> 0.25 <= r < 0.75
    ensures RndInt(0.0, 2.0, r) == 2 <==> 0.75 <= r
  {
    var n := RndInt(0.0, 2.0, r);
    assert n as real - 0.5 <= 2.0 * r < n as real + 0.5;
    RndIntRange(0, 2, r);
  }

  /** `rndInt(0, 1)` is a fair coin: 0 for r < 1/2, 1 otherwise. */
  lemma {:induction false} RndIntZeroOneBands(r: real)
    requires IsDraw(r)
    ensures RndInt(0.0, 1.0, r) == 0 <==> r < 0.5
    ensures RndInt(0.0, 1.0, r) == 1 <==> 0.5 <= r
  {
    var n := RndInt(0.0, 1.0, r);
    assert n as real - 0.5 <= r < n as real + 0.5;
    RndIntRange(0, 1, r);
  }
}
