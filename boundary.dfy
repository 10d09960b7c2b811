/** The update formulas of the leapfrog scheme (typescript/tlsim.ts:125-138,
    152-158, 168-176) as pure functions of the values before the update, each with
    the discrete circuit law it solves. The references are to C. R. Paul, "Analysis
    of Multiconductor Transmission Lines", 2nd ed., 2008. */
module Boundary {

  lemma CancelFactor(x: real, f: real, n: real)
    requires f + 1.0 != 0.0 && x == n / (f + 1.0)
    ensures f * x + x == n
  {
    assert x * (f + 1.0) == n;
  }

  lemma PositiveRatio(dz: real, dt: real)
    requires dz > 0.0 && dt > 0.0
    ensures dz / dt > 0.0
  {
  }

  lemma NonNegativeProduct(a: real, b: real, c: real)
    requires a > 0.0 && b >= 0.0 && c > 0.0
    ensures a * b * c >= 0.0
  {
    assert a * b >= 0.0;
  }

  /** New voltage at the generator end (node 0), equation 8.81a: vSum is the source
      voltage of the previous step plus that of the current step. */
  function GeneratorVoltage(vOld: real, iFirst: real, vSum: real, rg: real, cUnit: real, dz: real, dt: real): real
    requires rg >= 0.0 && cUnit > 0.0 && dz > 0.0 && dt > 0.0
  {
    var factor := dz / dt * rg * cUnit;
    NonNegativeProduct(dz / dt, rg, cUnit);
    ((factor - 1.0) * vOld - 2.0 * rg * iFirst + vSum) / (factor + 1.0)
  }

  /** The charge balance of the half segment at node 0 over one step, with the
      source current averaged over the step ((vSum - (vNew + vOld)) / (2 rg)) and the
      line current iFirst leaving it, multiplied through by 2 rg. For rg = 0 it says
      that the node follows the ideal source: vNew + vOld == vSum. */
  predicate GeneratorBalance(vOld: real, vNew: real, iFirst: real, vSum: real, rg: real, cUnit: real, dz: real, dt: real)
    requires dt > 0.0
  {
    rg * cUnit * (dz / dt) * (vNew - vOld) == vSum - (vNew + vOld) - 2.0 * rg * iFirst
  }

  /** The generator-end update solves the generator-end charge balance. */
  lemma {:induction false} GeneratorVoltageBalance(vOld: real, iFirst: real, vSum: real, rg: real, cUnit: real, dz: real, dt: real)
    requires rg >= 0.0 && cUnit > 0.0 && dz > 0.0 && dt > 0.0
    ensures GeneratorBalance(vOld, GeneratorVoltage(vOld, iFirst, vSum, rg, cUnit, dz, dt), iFirst, vSum, rg, cUnit, dz, dt)
  {
    var factor := dz / dt * rg * cUnit;
    NonNegativeProduct(dz / dt, rg, cUnit);
    var vNew := GeneratorVoltage(vOld, iFirst, vSum, rg, cUnit, dz, dt);
    CancelFactor(vNew, factor, (factor - 1.0) * vOld - 2.0 * rg * iFirst + vSum);
    assert factor * (vNew - vOld) == factor * vNew - factor * vOld;
    assert rg * cUnit * (dz / dt) == factor;
  }

  /** New voltage at the load end (node ndz) for a resistive load, equation 8.81b. */
  function LoadResistorVoltage(vOld: real, iLast: real, rl: real, cUnit: real, dz: real, dt: real): real
    requires rl >= 0.0 && cUnit > 0.0 && dz > 0.0 && dt > 0.0
  {
    var factor := dz / dt * rl * cUnit;
    NonNegativeProduct(dz / dt, rl, cUnit);
    ((factor - 1.0) * vOld + 2.0 * rl * iLast) / (factor + 1.0)
  }

  /** The charge balance of the half segment at the load end over one step, with
      the line current iLast entering it and the load current averaged over the step
      ((vNew + vOld) / (2 rl)) leaving it, multiplied through by 2 rl. For rl = 0
      (a short) it says vNew == -vOld. */
  predicate ResistiveLoadBalance(vOld: real, vNew: real, iLast: real, rl: real, cUnit: real, dz: real, dt: real)
    requires dt > 0.0
  {
    rl * cUnit * (dz / dt) * (vNew - vOld) == 2.0 * rl * iLast - (vNew + vOld)
  }

  /** The resistive-load update solves the load-end charge balance. */
  lemma {:induction false} LoadResistorBalance(vOld: real, iLast: real, rl: real, cUnit: real, dz: real, dt: real)
    requires rl >= 0.0 && cUnit > 0.0 && dz > 0.0 && dt > 0.0
    ensures ResistiveLoadBalance(vOld, LoadResistorVoltage(vOld, iLast, rl, cUnit, dz, dt), iLast, rl, cUnit, dz, dt)
  {
    var factor := dz / dt * rl * cUnit;
    NonNegativeProduct(dz / dt, rl, cUnit);
    var vNew := LoadResistorVoltage(vOld, iLast, rl, cUnit, dz, dt);
    CancelFactor(vNew, factor, (factor - 1.0) * vOld + 2.0 * rl * iLast);
    assert factor * (vNew - vOld) == factor * vNew - factor * vOld;
    assert rl * cUnit * (dz / dt) == factor;
  }

  /** Voltage change at the load end for a capacitive load in one step, equation
      9.65; iLoad is the load current of the previous step. */
  function LoadCapacitorDelta(iLast: real, iLoad: real, cl: real, cUnit: real, dz: real, dt: real): real
    requires cl >= 0.0 && cUnit > 0.0 && dz > 0.0 && dt > 0.0
  {
    var factor := dz / dt * cUnit + cl / dt;
    PositiveRatio(dz, dt);
    assert cl / dt >= 0.0;
    (2.0 * iLast - iLoad) / factor
  }

  /** Current into the load capacitor for a voltage change dv over one step. */
  function CapacitorCurrent(dv: real, cl: real, dt: real): real
    requires dt > 0.0
  {
    cl / dt * dv
  }

  /** The charge balance of the half segment at a capacitive load end over one
      step: the charge it gains, cUnit * dz / 2 * dv, equals dt times the line current
      iLast minus the load current averaged over the old and the new step; stated
      multiplied by 2 / dt. */
  predicate CapacitiveLoadBalance(dv: real, iLast: real, iLoadOld: real, iLoadNew: real, cUnit: real, dz: real, dt: real)
    requires dt > 0.0
  {
    cUnit * (dz / dt) * dv == 2.0 * iLast - (iLoadOld + iLoadNew)
  }

  /** The capacitive-load update solves the load-end charge balance, the new load
      current being the capacitor's cl * dv / dt. */
  lemma {:induction false} LoadCapacitorBalance(iLast: real, iLoad: real, cl: real, cUnit: real, dz: real, dt: real)
    requires cl >= 0.0 && cUnit > 0.0 && dz > 0.0 && dt > 0.0
    ensures var dv := LoadCapacitorDelta(iLast, iLoad, cl, cUnit, dz, dt);
      CapacitiveLoadBalance(dv, iLast, iLoad, CapacitorCurrent(dv, cl, dt), cUnit, dz, dt)
  {
    var factor := dz / dt * cUnit + cl / dt;
    PositiveRatio(dz, dt);
    assert cl / dt >= 0.0;
    var dv := LoadCapacitorDelta(iLast, iLoad, cl, cUnit, dz, dt);
    assert dv * factor == 2.0 * iLast - iLoad;
    assert dv * factor == cUnit * (dz / dt) * dv + cl / dt * dv;
  }

  lemma ScaledIncrement(change: real, diff: real, factor: real, coeff: real, dz: real, dt: real)
    requires factor * (dz * coeff) == dt && change == factor * diff
    ensures coeff * dz * change == dt * diff
  {
    assert coeff * dz * (factor * diff) == (factor * (dz * coeff)) * diff;
  }

  /** The interior voltage sweep: every node strictly between the two ends moves by
      factor * (current on its left - current on its right); the end nodes are left alone. */
  function InteriorSweep(vs: seq<real>, cs: seq<real>, factor: real): (r: seq<real>)
    requires |vs| == |cs| + 1
    ensures |r| == |vs|
    ensures r[0] == vs[0] && r[|cs|] == vs[|cs|]
    ensures forall i {:trigger r[i]} :: 0 < i < |cs| ==> r[i] == vs[i] + factor * (cs[i - 1] - cs[i])
  {
    seq(|vs|, i requires 0 <= i < |vs| =>
      if 0 < i < |cs| then vs[i] + factor * (cs[i - 1] - cs[i]) else vs[i])
  }

  /** The coefficient of a sweep, dt / (dz * coeff), coeff being cUnit for the
      voltages and lUnit for the currents. */
  function SweepFactor(dz: real, dt: real, coeff: real): real
    requires dz > 0.0 && coeff > 0.0
  {
    dt / (dz * coeff)
  }

  lemma SweepFactorScales(dz: real, dt: real, coeff: real)
    requires dz > 0.0 && coeff > 0.0
    ensures SweepFactor(dz, dt, coeff) * (dz * coeff) == dt
  {
  }

  /** The discrete telegrapher equation cUnit * dV/dt = -dI/dz at every interior
      node, between the voltages before (vs) and after (r) a step. */
  predicate VoltageLaw(vs: seq<real>, r: seq<real>, cs: seq<real>, cUnit: real, dz: real, dt: real)
    requires |vs| == |r| == |cs| + 1
  {
    forall i {:trigger r[i]} :: 0 < i < |cs| ==> cUnit * dz * (r[i] - vs[i]) == dt * (cs[i - 1] - cs[i])
  }

  lemma NodeLaw(vs: seq<real>, cs: seq<real>, factor: real, cUnit: real, dz: real, dt: real, i: nat)
    requires |vs| == |cs| + 1 && factor * (dz * cUnit) == dt && 0 < i < |cs|
    ensures cUnit * dz * (InteriorSweep(vs, cs, factor)[i] - vs[i]) == dt * (cs[i - 1] - cs[i])
  {
    ScaledIncrement(InteriorSweep(vs, cs, factor)[i] - vs[i], cs[i - 1] - cs[i], factor, cUnit, dz, dt);
  }

  /** Any sweep factor with factor * dz * cUnit == dt makes the interior sweep obey
      the voltage law. */
  lemma {:induction false} InteriorSweepLaw(vs: seq<real>, cs: seq<real>, factor: real, cUnit: real, dz: real, dt: real)
    requires |vs| == |cs| + 1 && factor * (dz * cUnit) == dt
    ensures VoltageLaw(vs, InteriorSweep(vs, cs, factor), cs, cUnit, dz, dt)
  {
    forall i: nat | 0 < i < |cs| {
      NodeLaw(vs, cs, factor, cUnit, dz, dt, i);
    }
  }

  /** The voltage law only reads the interior of the old voltages. */
  lemma VoltageLawInterior(vs: seq<real>, ws: seq<real>, r: seq<real>, cs: seq<real>, cUnit: real, dz: real, dt: real)
    requires |vs| == |ws| == |r| == |cs| + 1
    requires forall i :: 0 < i < |cs| ==> vs[i] == ws[i]
    requires VoltageLaw(vs, r, cs, cUnit, dz, dt)
    ensures VoltageLaw(ws, r, cs, cUnit, dz, dt)
  {
    forall i {:trigger r[i]} | 0 < i < |cs|
      ensures cUnit * dz * (r[i] - ws[i]) == dt * (cs[i - 1] - cs[i])
    {
      assert vs[i] == ws[i];
    }
  }

  /** With factor = dt / (dz * cUnit) the interior sweep obeys the voltage law. */
  lemma InteriorSweepTelegrapher(vs: seq<real>, cs: seq<real>, cUnit: real, dz: real, dt: real)
    requires |vs| == |cs| + 1 && cUnit > 0.0 && dz > 0.0
    ensures VoltageLaw(vs, InteriorSweep(vs, cs, SweepFactor(dz, dt, cUnit)), cs, cUnit, dz, dt)
  {
    SweepFactorScales(dz, dt, cUnit);
    InteriorSweepLaw(vs, cs, SweepFactor(dz, dt, cUnit), cUnit, dz, dt);
  }

  /** The current sweep: every segment's current moves by
      factor * (voltage at its left node - voltage at its right node). */
  function CurrentSweep(vs: seq<real>, cs: seq<real>, factor: real): (r: seq<real>)
    requires |vs| == |cs| + 1
    ensures |r| == |cs|
    ensures forall i {:trigger r[i]} :: 0 <= i < |cs| ==> r[i] == cs[i] + factor * (vs[i] - vs[i + 1])
  {
    seq(|cs|, i requires 0 <= i < |cs| => cs[i] + factor * (vs[i] - vs[i + 1]))
  }

  /** The discrete telegrapher equation lUnit * dI/dt = -dV/dz on every segment,
      between the currents before (cs) and after (r) a step, from the voltages vs. */
  predicate CurrentLaw(cs: seq<real>, r: seq<real>, vs: seq<real>, lUnit: real, dz: real, dt: real)
    requires |cs| == |r| && |vs| == |cs| + 1
  {
    forall i {:trigger r[i]} :: 0 <= i < |cs| ==> lUnit * dz * (r[i] - cs[i]) == dt * (vs[i] - vs[i + 1])
  }

  lemma SegmentLaw(vs: seq<real>, cs: seq<real>, factor: real, lUnit: real, dz: real, dt: real, i: nat)
    requires |vs| == |cs| + 1 && factor * (dz * lUnit) == dt && i < |cs|
    ensures lUnit * dz * (CurrentSweep(vs, cs, factor)[i] - cs[i]) == dt * (vs[i] - vs[i + 1])
  {
    ScaledIncrement(CurrentSweep(vs, cs, factor)[i] - cs[i], vs[i] - vs[i + 1], factor, lUnit, dz, dt);
  }

  /** Any sweep factor with factor * dz * lUnit == dt makes the current sweep obey
      the current law, with the voltages it is given. */
  lemma {:induction false} CurrentSweepLaw(vs: seq<real>, cs: seq<real>, factor: real, lUnit: real, dz: real, dt: real)
    requires |vs| == |cs| + 1 && factor * (dz * lUnit) == dt
    ensures CurrentLaw(cs, CurrentSweep(vs, cs, factor), vs, lUnit, dz, dt)
  {
    forall i: nat | i < |cs| {
      SegmentLaw(vs, cs, factor, lUnit, dz, dt, i);
    }
  }

  /** With factor = dt / (dz * lUnit) the current sweep obeys the current law, using
      the voltages it is given (the new ones, in the leapfrog step). */
  lemma CurrentSweepTelegrapher(vs: seq<real>, cs: seq<real>, lUnit: real, dz: real, dt: real)
    requires |vs| == |cs| + 1 && lUnit > 0.0 && dz > 0.0
    ensures CurrentLaw(cs, CurrentSweep(vs, cs, SweepFactor(dz, dt, lUnit)), vs, lUnit, dz, dt)
  {
    SweepFactorScales(dz, dt, lUnit);
    CurrentSweepLaw(vs, cs, SweepFactor(dz, dt, lUnit), lUnit, dz, dt);
  }
}
