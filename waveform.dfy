/** The two generator waveforms of `TlSim` (typescript/tlsim.ts:104-119): a
    trapezoidal pulse train and a sine, both pure functions of simulation time. */
module Waveform {
  import opened Numbers

  /** `Math.PI`, as JavaScript prints it. */
  const Pi: real := 3.141592653589793

  /** True when x is a whole number. */
  predicate IsWhole(x: real) {
    x.Floor as real == x
  }

  lemma MulStrict(x: real, y: real, b: real)
    requires x < y && b > 0.0
    ensures b * x < b * y
  {
  }

  lemma MulMono(x: real, y: real, b: real)
    requires x <= y && b >= 0.0
    ensures b * x <= b * y
  {
  }

  lemma ScaledBelow(a: real, b: real, x: real, q: real)
    requires b > 0.0 && b * x == a && x < q + 1.0
    ensures a < b * q + b
  {
    MulStrict(x, q + 1.0, b);
  }

  lemma ScaledAbove(a: real, b: real, x: real, q: real)
    requires b > 0.0 && b * x == a && q <= x
    ensures b * q <= a
  {
    MulMono(q, x, b);
  }

  lemma FloorScaled(a: real, b: real)
    requires b > 0.0
    ensures b * ((a / b).Floor as real) <= a < b * ((a / b).Floor as real) + b
  {
    var x := a / b;
    assert b * x == a;
    ScaledAbove(a, b, x, x.Floor as real);
    ScaledBelow(a, b, x, x.Floor as real);
  }

  /** A ratio of a value to a larger positive one lies in [0, 1]. */
  lemma RatioInUnit(x: real, y: real)
    requires 0.0 <= x <= y && y > 0.0
    ensures 0.0 <= x / y <= 1.0
  {
    assert x / y * y == x;
  }

  /** JavaScript's `a % b` for a finite dividend a >= 0 and a divisor b > 0: the
      remainder of truncating division, which for a >= 0 equals a - b * floor(a / b). */
  function JsRem(a: real, b: real): (r: real)
    requires a >= 0.0 && b > 0.0
    ensures 0.0 <= r < b
    ensures r <= a
    ensures IsWhole((a - r) / b)
  {
    FloorScaled(a, b);
    var q := (a / b).Floor as real;
    assert (a - (a - b * q)) / b == q;
    assert q >= 0.0 by {
      assert a / b >= 0.0;
    }
    a - b * q
  }

  /** The remainder is the offset into the period: a = k * b + x with 0 <= x < b
      gives a % b == x. */
  lemma {:induction false} JsRemOfShift(k: nat, x: real, b: real)
    requires 0.0 <= x < b
    ensures JsRem(k as real * b + x, b) == x
  {
    var a := k as real * b + x;
    assert a / b == k as real + x / b;
    assert 0.0 <= x / b < 1.0 by {
      assert x / b * b == x;
    }
    assert (a / b).Floor == k;
  }

  lemma {:induction false} JsRemDecompose(a: real, b: real)
    requires a >= 0.0 && b > 0.0
    ensures (a / b).Floor >= 0
    ensures a == (a / b).Floor as real * b + JsRem(a, b)
  {
    assert a / b >= 0.0;
  }

  /** `generator_step`: the trapezoidal pulse train. With r = simTime % tPeriod it
      ramps up over [0, tRise), stays at 1 until tPeriod/2, ramps down over
      [tPeriod/2, tPeriod/2 + tRise) and is 0 for the rest of the period. When
      tPeriod is 0 the remainder is NaN, every comparison fails and the result is 0. */
  function GeneratorStep(simTime: real, tRise: real, tPeriod: real): (level: real)
    requires simTime >= 0.0 && tRise >= 0.0 && tPeriod >= 0.0
    ensures 0.0 <= level <= 1.0
  {
    if tPeriod == 0.0 then 0.0
    else
      var rel := JsRem(simTime, tPeriod);
      if rel < tRise then
        RatioInUnit(rel, tRise);
        rel / tRise
      else if rel < tPeriod / 2.0 then 1.0
      else if rel < tPeriod / 2.0 + tRise then
        var down := tPeriod / 2.0 + tRise - rel;
        RatioInUnit(down, tRise);
        down / tRise
      else 0.0
  }

  /** Every period of the pulse train starts at level 0 (the rise has not begun). */
  lemma {:induction false} GeneratorStepStartsLow(k: nat, tRise: real, tPeriod: real)
    requires tRise > 0.0 && tPeriod > 0.0
    ensures GeneratorStep(k as real * tPeriod, tRise, tPeriod) == 0.0
  {
    JsRemOfShift(k, 0.0, tPeriod);
  }

  /** Between the end of the rise and half the period the pulse is fully on. */
  lemma {:induction false} GeneratorStepHigh(k: nat, x: real, tRise: real, tPeriod: real)
    requires tRise >= 0.0 && tPeriod > 0.0
    requires tRise <= x < tPeriod / 2.0
    ensures GeneratorStep(k as real * tPeriod + x, tRise, tPeriod) == 1.0
  {
    JsRemOfShift(k, x, tPeriod);
  }

  /** After the fall has completed the pulse is off until the period ends. */
  lemma {:induction false} GeneratorStepLow(k: nat, x: real, tRise: real, tPeriod: real)
    requires tRise >= 0.0 && tPeriod > 0.0
    requires tPeriod / 2.0 + tRise <= x < tPeriod
    ensures GeneratorStep(k as real * tPeriod + x, tRise, tPeriod) == 0.0
  {
    JsRemOfShift(k, x, tPeriod);
  }

  /** The falling edge mirrors the rising edge: the level at x into the rise equals
      the level at x before the end of the fall. */
  lemma {:induction false} GeneratorStepEdgesMirror(k: nat, x: real, tRise: real, tPeriod: real)
    requires tPeriod > 0.0 && 0.0 < x < tRise <= tPeriod / 2.0
    ensures GeneratorStep(k as real * tPeriod + x, tRise, tPeriod)
         == GeneratorStep(k as real * tPeriod + (tPeriod / 2.0 + tRise - x), tRise, tPeriod)
  {
    JsRemOfShift(k, x, tPeriod);
    JsRemOfShift(k, tPeriod / 2.0 + tRise - x, tPeriod);
  }

  /** The pulse train repeats with period tPeriod. */
  lemma {:induction false} GeneratorStepPeriodic(simTime: real, tRise: real, tPeriod: real)
    requires simTime >= 0.0 && tRise >= 0.0 && tPeriod > 0.0
    ensures GeneratorStep(simTime + tPeriod, tRise, tPeriod) == GeneratorStep(simTime, tRise, tPeriod)
  {
    JsRemPeriodic(simTime, tPeriod);
  }

  lemma {:induction false} JsRemPeriodic(a: real, b: real)
    requires a >= 0.0 && b > 0.0
    ensures JsRem(a + b, b) == JsRem(a, b)
  {
    JsRemDecompose(a, b);
    var q: nat := (a / b).Floor;
    var k: nat := q + 1;
    var x := JsRem(a, b);
    assert k as real * b == q as real * b + b;
    JsRemOfShift(k, x, b);
    assert a + b == k as real * b + x;
  }

  /** `generator_sine`: sin(2 pi t / tPeriod), with the host's sine passed in as
      `sine`. When tPeriod is 0 the argument is NaN or infinite and so is the result. */
  function GeneratorSine(sine: real -> real, simTime: real, tPeriod: real): (level: Num)
    ensures level.NonFinite? <==> tPeriod == 0.0
    ensures level.Finite? ==> level.value == sine(2.0 * Pi * simTime / tPeriod)
  {
    if tPeriod == 0.0 then NonFinite else Finite(sine(2.0 * Pi * simTime / tPeriod))
  }
}
