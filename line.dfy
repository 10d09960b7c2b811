/** The engine of `TlSim` (typescript/tlsim.ts) as values: its parameters, the
    quantities derived from them, the grid and terminal-sampler state, one leapfrog
    step, a run of steps up to a limit, and the limit a wall-clock time allows.
    The class `Simulator.TlSim` is proved to follow these functions. */
module Line {
  import opened Numbers
  import opened Waveform
  import opened Boundary

  /** `TlSim.noTerminalVoltages`: capacity of the terminal sample buffers. */
  const NoTerminalVoltages: nat := 1000

  /** Which of the two generator methods `generator` refers to. */
  datatype GeneratorKind = Step | Sine

  /** Which of the two load updates `updateLoad` refers to. */
  datatype LoadKind = Resistive | Capacitive

  /** The input fields of `TlSim`, in SI units; `sine` is the host's `Math.sin`. */
  datatype Params = Params(
    Z0: real, Rg: real, tRise: real, tPeriod: real, generator: GeneratorKind,
    Rl: real, Cl: real, load: LoadKind,
    lineLength: real, v: real, ndz: nat, tStopSim: real, tStopWall: real,
    sine: real -> real)

  /** What the form's parameter check guarantees of the engine's inputs: every
      number non-negative, at least one segment, a line of positive length. */
  predicate ParamsValid(p: Params) {
    && p.Z0 >= 0.0 && p.Rg >= 0.0 && p.tRise >= 0.0 && p.tPeriod >= 0.0
    && p.Rl >= 0.0 && p.Cl >= 0.0 && p.lineLength > 0.0 && p.v >= 0.0
    && p.ndz >= 1 && p.tStopSim >= 0.0 && p.tStopWall >= 0.0
  }

  /** Parameters whose steps compute with finite numbers only: a positive line
      impedance (which `startSimulation` insists on) and, for the sine generator,
      a positive period. */
  predicate Runnable(p: Params) {
    p.Z0 > 0.0 && (p.generator == Sine ==> p.tPeriod > 0.0)
  }

  /** `generator(t)`: the level of the selected generator at simulation time t. */
  function Generate(p: Params, t: real): (level: Num)
    requires t >= 0.0 && p.tRise >= 0.0 && p.tPeriod >= 0.0
    ensures level.NonFinite? <==> (p.generator == Sine && p.tPeriod == 0.0)
    ensures p.generator == Step ==> 0.0 <= level.value <= 1.0
  {
    match p.generator
    case Step => Finite(GeneratorStep(t, p.tRise, p.tPeriod))
    case Sine => GeneratorSine(p.sine, t, p.tPeriod)
  }

  /** Reflection coefficient of a termination r on a line of impedance z0; NaN
      when z0 is 0, otherwise the rho with rho * (r + z0) == r - z0. */
  function Rho(r: real, z0: real): (rho: Num)
    requires r >= 0.0 && z0 >= 0.0
    ensures rho.NonFinite? <==> z0 == 0.0
    ensures rho.Finite? ==> rho.value * (r + z0) == r - z0
  {
    if z0 == 0.0 then NonFinite else Finite((r - z0) / (r + z0))
  }

  /** The reflection coefficient is undefined exactly for z0 = 0; otherwise it lies
      in [-1, 1), is 0 exactly for a matched termination, and determines the
      termination: r * (1 - rho) == z0 * (1 + rho). */
  lemma RhoRange(r: real, z0: real)
    requires r >= 0.0 && z0 >= 0.0
    ensures Rho(r, z0).NonFinite? <==> z0 == 0.0
    ensures z0 > 0.0 ==> -1.0 <= Rho(r, z0).value < 1.0
    ensures z0 > 0.0 ==> (Rho(r, z0).value == 0.0 <==> r == z0)
    ensures z0 > 0.0 ==> r * (1.0 - Rho(r, z0).value) == z0 * (1.0 + Rho(r, z0).value)
  {
    if z0 > 0.0 {
      var d := r + z0;
      var rho := (r - z0) / d;
      assert Rho(r, z0) == Finite(rho);
      assert rho * d == r - z0;
      assert (1.0 + rho) * d == 2.0 * r;
      assert (1.0 - rho) * d == 2.0 * z0;
      assert r * (1.0 - rho) == z0 * (1.0 + rho);
      if 1.0 + rho < 0.0 {
        MulStrict(1.0 + rho, 0.0, d);
      }
      if 1.0 - rho <= 0.0 {
        MulMono(1.0 - rho, 0.0, d);
      }
    }
  }

  /** The helper fields `initParameters` derives (typescript/tlsim.ts:68-90). */
  datatype Derived = Derived(
    dz: real, dt: Num, lUnit: Num, cUnit: Num,
    noTimeSteps: nat, rhoGen: Num, rhoLoad: Num)

  lemma QuotientNonNegative(a: real, b: real)
    requires a >= 0.0 && b > 0.0
    ensures (a / b).Floor >= 0
  {
    assert a / b >= 0.0;
  }

  /** `initParameters`' derivation. A division by 0 (v = 0, or Z0 = 0 for cUnit)
      gives Infinity or NaN in the source, NonFinite here; with dt infinite,
      tStopSim / dt is 0 and so is the step count. */
  function Derive(p: Params): (d: Derived)
    requires ParamsValid(p)
    ensures d.dz > 0.0
    ensures d.dt.Finite? <==> p.v > 0.0
    ensures d.dt.Finite? ==> d.dt.value > 0.0
    ensures d.noTimeSteps > 0 ==> p.v > 0.0
    ensures d.lUnit.Finite? <==> p.v > 0.0
    ensures d.cUnit.Finite? <==> p.Z0 > 0.0 && p.v > 0.0
  {
    var dz := p.lineLength / p.ndz as real;
    if p.v > 0.0 then
      var dt := dz / p.v;
      QuotientNonNegative(p.tStopSim, dt);
      Derived(dz, Finite(dt), Finite(p.Z0 / p.v),
        if p.Z0 > 0.0 then Finite(1.0 / (p.Z0 * p.v)) else NonFinite,
        (p.tStopSim / dt).Floor, Rho(p.Rg, p.Z0), Rho(p.Rl, p.Z0))
    else
      Derived(dz, NonFinite, NonFinite, NonFinite, 0, Rho(p.Rg, p.Z0), Rho(p.Rl, p.Z0))
  }

  /** The time step is the Courant limit: one step carries a wave exactly one segment. */
  lemma CourantNumberOne(p: Params)
    requires ParamsValid(p) && p.v > 0.0
    ensures Derive(p).dt.value * p.v == Derive(p).dz
    ensures Derive(p).dz * p.ndz as real == p.lineLength
  {
  }

  /** The per-unit-length constants reproduce the line: v^2 = 1 / (lUnit * cUnit) and
      Z0 = lUnit * v, i.e. Z0^2 = lUnit / cUnit. */
  lemma LineConstants(p: Params)
    requires ParamsValid(p) && p.Z0 > 0.0 && p.v > 0.0
    ensures var d := Derive(p);
      d.lUnit.value * p.v == p.Z0 && d.cUnit.value * p.Z0 * p.v == 1.0
      && d.lUnit.value * d.cUnit.value * p.v * p.v == 1.0
  {
    var d := Derive(p);
    var l, c := d.lUnit.value, d.cUnit.value;
    assert l * p.v == p.Z0;
    assert c * (p.Z0 * p.v) == 1.0;
    assert l * c * p.v * p.v == (l * p.v) * (c * p.v);
    assert p.Z0 * (c * p.v) == c * (p.Z0 * p.v);
  }

  /** What a step computes with: a positive segment length and a finite, positive
      dt, lUnit and cUnit. */
  predicate Coefficients(d: Derived) {
    && d.dz > 0.0 && d.dt.Finite? && d.dt.value > 0.0
    && d.lUnit.Finite? && d.lUnit.value > 0.0 && d.cUnit.Finite? && d.cUnit.value > 0.0
  }

  /** A line with a positive impedance and a positive speed derives such coefficients. */
  lemma DeriveCoefficients(p: Params)
    requires ParamsValid(p) && p.Z0 > 0.0 && p.v > 0.0
    ensures Coefficients(Derive(p))
  {
    assert p.Z0 / p.v > 0.0;
  }

  lemma FloorTimes(x: real, dt: real, n: int)
    requires dt > 0.0 && n == (x / dt).Floor
    ensures n as real * dt <= x < (n + 1) as real * dt
  {
    FloorScaled(x, dt);
    assert (n + 1) as real * dt == dt * (n as real) + dt;
  }

  /** `noTimeSteps = floor(tStopSim / dt)`: the steps cover the horizon without
      passing it: noTimeSteps * dt <= tStopSim < (noTimeSteps + 1) * dt. */
  lemma HorizonCovered(p: Params)
    requires ParamsValid(p) && p.v > 0.0
    ensures var d := Derive(p);
      d.noTimeSteps as real * d.dt.value <= p.tStopSim < (d.noTimeSteps + 1) as real * d.dt.value
  {
    var d := Derive(p);
    FloorTimes(p.tStopSim, d.dt.value, d.noTimeSteps);
  }

  /** The simulation time after k steps of length dt: the product `StepTime`
      returns, kept as a separate symbol over explicit arguments so that proofs
      about the grid reason about one opaque term instead of a nonlinear product
      of `Derive(p)`'s fields. */
  function TimeOf(k: nat, dt: real): real {
    k as real * dt
  }

  /** The simulation time of step k, `stepsDone * dt`. A step within the
      horizon (k < noTimeSteps) ends by tStopSim: k * dt + dt <= tStopSim. */
  function StepTime(p: Params, k: nat): (t: real)
    requires ParamsValid(p) && p.v > 0.0
    ensures t >= 0.0
    ensures k < Derive(p).noTimeSteps ==> t + Derive(p).dt.value <= p.tStopSim
  {
    MulMono(0.0, k as real, Derive(p).dt.value);
    if k < Derive(p).noTimeSteps then
      HorizonCovered(p);
      WithinHorizon(k, Derive(p).noTimeSteps, Derive(p).dt.value, p.tStopSim);
      TimeOf(k, Derive(p).dt.value)
    else
      TimeOf(k, Derive(p).dt.value)
  }

  lemma WithinHorizon(k: nat, n: nat, dt: real, tStop: real)
    requires k < n && dt > 0.0 && n as real * dt <= tStop
    ensures k as real * dt + dt <= tStop
  {
    MulMono((k + 1) as real, n as real, dt);
    assert (k + 1) as real * dt == k as real * dt + dt;
  }

  lemma StepTimeNext(p: Params, k: nat)
    requires ParamsValid(p) && p.v > 0.0
    ensures StepTime(p, k + 1) == StepTime(p, k) + Derive(p).dt.value
  {
    assert (k + 1) as real * Derive(p).dt.value == k as real * Derive(p).dt.value + Derive(p).dt.value;
  }

  /** Every step the engine takes ends within the horizon: step s < noTimeSteps
      runs at time s * dt, and (s + 1) * dt <= tStopSim. */
  lemma StepTimeBeforeHorizon(p: Params, s: nat)
    requires ParamsValid(p) && s < Derive(p).noTimeSteps
    ensures p.v > 0.0
    ensures StepTime(p, s + 1) <= p.tStopSim
    ensures StepTime(p, s) < p.tStopSim
  {
    StepTimeNext(p, s);
  }

  /** The terminal sample buffers and their cursor `terminalStepsDone` (`count`). */
  datatype Sampler = Sampler(count: nat, times: seq<real>, generatorVoltages: seq<real>, loadVoltages: seq<real>)

  predicate SamplerShape(s: Sampler) {
    && |s.times| == NoTerminalVoltages && |s.generatorVoltages| == NoTerminalVoltages
    && |s.loadVoltages| == NoTerminalVoltages && s.count <= NoTerminalVoltages
  }

  /** A sample is due at t only while a slot is free: if t has reached sample time
      k * tStopSim / 1000 but lies before tStopSim, then k < 1000. */
  lemma SlotAvailable(k: nat, t: real, tStopSim: real)
    requires 0.0 <= t && k as real * tStopSim / NoTerminalVoltages as real <= t < tStopSim
    ensures k < NoTerminalVoltages
  {
    if k >= NoTerminalVoltages {
      MulMono(NoTerminalVoltages as real, k as real, tStopSim);
    }
  }

  /** The one-shot sample check of a step at time t (typescript/tlsim.ts:161-166):
      when t has reached the next evenly spaced sample time count * tStopSim / 1000,
      record (t, vGen, vLoad) in slot `count` and advance the cursor by one; at most
      one sample per step, even if t has passed several sample times. */
  function SampleIfDue(s: Sampler, t: real, vGen: real, vLoad: real, tStopSim: real): (r: Sampler)
    requires SamplerShape(s) && 0.0 <= t < tStopSim
    ensures SamplerShape(r)
    ensures r.count == s.count || r.count == s.count + 1
    ensures r.count == s.count + 1 <==> s.count as real * tStopSim / NoTerminalVoltages as real <= t
    ensures r.count == s.count + 1 ==>
      && s.count as real * tStopSim / NoTerminalVoltages as real <= t
      && r.times[s.count] == t && r.generatorVoltages[s.count] == vGen && r.loadVoltages[s.count] == vLoad
    ensures forall j :: 0 <= j < s.count ==>
      r.times[j] == s.times[j] && r.generatorVoltages[j] == s.generatorVoltages[j] && r.loadVoltages[j] == s.loadVoltages[j]
  {
    if t >= s.count as real * tStopSim / NoTerminalVoltages as real then
      SlotAvailable(s.count, t, tStopSim);
      Sampler(s.count + 1, s.times[s.count := t], s.generatorVoltages[s.count := vGen], s.loadVoltages[s.count := vLoad])
    else
      s
  }

  /** The mutable state of `TlSim`: node voltages, segment currents, the load
      current, the previous generator level, the step cursor, the recorded step
      times and the terminal sampler. */
  datatype Grid = Grid(
    voltages: seq<real>, currents: seq<real>, currentLoad: real, vGenPrev: Num,
    stepsDone: nat, timeSteps: seq<real>, terminal: Sampler)

  function Zeros(n: nat): (s: seq<real>)
    ensures |s| == n && forall i :: 0 <= i < n ==> s[i] == 0.0
  {
    seq(n, _ => 0.0)
  }

  /** The array sizes, a cursor within the horizon, and a previous generator level
      that is a number whenever the parameters can be stepped. */
  predicate Shaped(p: Params, g: Grid)
    requires ParamsValid(p)
  {
    && |g.voltages| == p.ndz + 1 && |g.currents| == p.ndz
    && |g.timeSteps| == Derive(p).noTimeSteps && SamplerShape(g.terminal)
    && g.stepsDone <= Derive(p).noTimeSteps
    && (Runnable(p) ==> g.vGenPrev.Finite?)
  }

  /** What the engine keeps true between steps: the shape; no more samples than
      steps; a resistive load never carries a load current; before the first step
      the previous generator level is generator(0); after it, the records of
      `Recorded`. */
  ghost predicate Inv(p: Params, g: Grid)
    requires ParamsValid(p)
  {
    && Shaped(p, g)
    && g.terminal.count <= g.stepsDone
    && (p.load == Resistive ==> g.currentLoad == 0.0)
    && (g.stepsDone == 0 ==> g.vGenPrev == Generate(p, 0.0))
    && (g.stepsDone > 0 ==> Recorded(p, g))
  }

  /** After s > 0 steps: step k was recorded at time k * dt, the previous generator
      level is the generator at step s - 1's time, and the terminal samples are in
      strictly increasing time order, each at or after its own sample time and
      before step s's time. */
  ghost predicate Recorded(p: Params, g: Grid)
    requires ParamsValid(p) && p.v > 0.0 && g.stepsDone > 0
    requires g.stepsDone <= |g.timeSteps| && SamplerShape(g.terminal)
  {
    && TimesRecorded(p, g.timeSteps, g.stepsDone)
    && g.vGenPrev == Generate(p, StepTime(p, g.stepsDone - 1))
    && SamplesRecorded(g.terminal, StepTime(p, g.stepsDone), p.tStopSim)
  }

  ghost predicate TimesRecorded(p: Params, timeSteps: seq<real>, stepsDone: nat)
    requires ParamsValid(p) && p.v > 0.0 && stepsDone <= |timeSteps|
  {
    forall k :: 0 <= k < stepsDone ==> timeSteps[k] == StepTime(p, k)
  }

  ghost predicate SamplesRecorded(s: Sampler, before: real, tStopSim: real)
    requires SamplerShape(s)
  {
    && (forall j :: 0 <= j < s.count ==>
          j as real * tStopSim / NoTerminalVoltages as real <= s.times[j] < before)
    && (forall i, j :: 0 <= i < j < s.count ==> s.times[i] < s.times[j])
  }

  /** The state `initParameters` leaves: zeroed grid, cursors at 0, load current 0,
      previous generator level generator(0), fresh buffers (their unset slots,
      holes in JavaScript, read as 0 here). */
  function InitialGrid(p: Params): (g: Grid)
    requires ParamsValid(p)
    ensures Inv(p, g)
    ensures forall i :: 0 <= i < |g.voltages| ==> g.voltages[i] == 0.0
    ensures forall i :: 0 <= i < |g.currents| ==> g.currents[i] == 0.0
  {
    Grid(Zeros(p.ndz + 1), Zeros(p.ndz), 0.0, Generate(p, 0.0), 0, Zeros(Derive(p).noTimeSteps),
      Sampler(0, Zeros(NoTerminalVoltages), Zeros(NoTerminalVoltages), Zeros(NoTerminalVoltages)))
  }

  /** `updateLoad()`: the resistive or the capacitive load update of node ndz, as
      (new voltages, new load current). */
  function LoadUpdate(p: Params, d: Derived, vs: seq<real>, cs: seq<real>, iLoad: real): (r: (seq<real>, real))
    requires ParamsValid(p) && Coefficients(d)
    requires |vs| == p.ndz + 1 && |cs| == p.ndz
    ensures |r.0| == |vs|
    ensures forall i :: 0 <= i < p.ndz ==> r.0[i] == vs[i]
    ensures p.load == Resistive ==> r.1 == iLoad
  {
    match p.load
    case Resistive =>
      (vs[p.ndz := LoadResistorVoltage(vs[p.ndz], cs[p.ndz - 1], p.Rl, d.cUnit.value, d.dz, d.dt.value)], iLoad)
    case Capacitive =>
      var dv := LoadCapacitorDelta(cs[p.ndz - 1], iLoad, p.Cl, d.cUnit.value, d.dz, d.dt.value);
      (vs[p.ndz := vs[p.ndz] + dv], CapacitorCurrent(dv, p.Cl, d.dt.value))
  }

  /** The end-node updates of one step: the generator end (equation 8.81a) with the
      source level of the previous and the current step, then the load end. */
  function UpdateEnds(p: Params, d: Derived, g: Grid, vGenNow: real): (r: (seq<real>, real))
    requires ParamsValid(p) && Coefficients(d)
    requires |g.voltages| == p.ndz + 1 && |g.currents| == p.ndz && g.vGenPrev.Finite?
    ensures |r.0| == p.ndz + 1
    ensures forall i :: 0 < i < p.ndz ==> r.0[i] == g.voltages[i]
    ensures p.load == Resistive ==> r.1 == g.currentLoad
  {
    var vGen := GeneratorVoltage(g.voltages[0], g.currents[0], g.vGenPrev.value + vGenNow,
      p.Rg, d.cUnit.value, d.dz, d.dt.value);
    LoadUpdate(p, d, g.voltages[0 := vGen], g.currents, g.currentLoad)
  }

  /** One pass of the body of the loop in `updateSimulation`
      (typescript/tlsim.ts:148-178) with the coefficients d: record
      t = stepsDone * dt, update the generator end and the load end, take a
      terminal sample if one is due, sweep the interior voltages and then all
      currents, remember the generator level and advance the cursor. */
  function StepGridBy(p: Params, d: Derived, g: Grid): Grid
    requires ParamsValid(p) && Runnable(p) && Coefficients(d)
    requires |g.voltages| == p.ndz + 1 && |g.currents| == p.ndz && g.vGenPrev.Finite?
    requires SamplerShape(g.terminal) && g.stepsDone < |g.timeSteps|
    requires 0.0 <= TimeOf(g.stepsDone, d.dt.value) < p.tStopSim
  {
    var t := TimeOf(g.stepsDone, d.dt.value);
    var vGenNow := Generate(p, t).value;
    var ends := UpdateEnds(p, d, g, vGenNow);
    var terminal := SampleIfDue(g.terminal, t, ends.0[0], ends.0[p.ndz], p.tStopSim);
    var voltages := InteriorSweep(ends.0, g.currents, SweepFactor(d.dz, d.dt.value, d.cUnit.value));
    var currents := CurrentSweep(voltages, g.currents, SweepFactor(d.dz, d.dt.value, d.lUnit.value));
    Grid(voltages, currents, ends.1, Finite(vGenNow), g.stepsDone + 1, g.timeSteps[g.stepsDone := t], terminal)
  }

  /** One engine step with the coefficients `initParameters` derives. */
  function StepGrid(p: Params, g: Grid): (r: Grid)
    requires ParamsValid(p) && Runnable(p) && Shaped(p, g) && g.stepsDone < Derive(p).noTimeSteps
    ensures |r.voltages| == p.ndz + 1 && |r.currents| == p.ndz && |r.timeSteps| == |g.timeSteps|
    ensures r.stepsDone == g.stepsDone + 1
    ensures r.timeSteps == g.timeSteps[g.stepsDone := StepTime(p, g.stepsDone)]
    ensures r.vGenPrev == Generate(p, StepTime(p, g.stepsDone))
    ensures r.terminal == SampleIfDue(g.terminal, StepTime(p, g.stepsDone), r.voltages[0], r.voltages[p.ndz], p.tStopSim)
    ensures p.load == Resistive ==> r.currentLoad == g.currentLoad
    ensures Shaped(p, r)
  {
    StepTimeBeforeHorizon(p, g.stepsDone);
    DeriveCoefficients(p);
    StepGridBy(p, Derive(p), g)
  }

  /** Recording the time of step s extends the recorded times to s + 1 steps. */
  lemma TimesAdvance(p: Params, timeSteps: seq<real>, s: nat)
    requires ParamsValid(p) && p.v > 0.0
    requires s < |timeSteps| && (s > 0 ==> TimesRecorded(p, timeSteps, s))
    ensures TimesRecorded(p, timeSteps[s := StepTime(p, s)], s + 1)
  {
  }

  /** The sample check of a step at time t, before the horizon and after every
      earlier sample, keeps the samples ordered, each at or after its own sample
      time and before any later time. */
  lemma SamplesAdvance(sampler: Sampler, t: real, later: real, tStopSim: real, vGen: real, vLoad: real)
    requires SamplerShape(sampler) && SamplesRecorded(sampler, t, tStopSim)
    requires 0.0 <= t < tStopSim && t < later
    ensures SamplesRecorded(SampleIfDue(sampler, t, vGen, vLoad, tStopSim), later, tStopSim)
  {
    var r := SampleIfDue(sampler, t, vGen, vLoad, tStopSim);
    var k := sampler.count;
    if r.count == k + 1 {
      forall j | 0 <= j < r.count
        ensures j as real * tStopSim / NoTerminalVoltages as real <= r.times[j] < later
      {
        if j < k {
          assert r.times[j] == sampler.times[j];
        }
      }
      forall i, j | 0 <= i < j < r.count
        ensures r.times[i] < r.times[j]
      {
        assert r.times[i] == sampler.times[i];
        if j < k {
          assert r.times[j] == sampler.times[j];
        }
      }
    } else {
      assert r == sampler;
    }
  }

  /** A shaped grid of runnable parameters with a step left before the horizon
      has what a step needs, and the step with the coefficients `initParameters`
      derives is `StepGrid`. */
  lemma ShapedSteppable(p: Params, g: Grid)
    requires ParamsValid(p) && Runnable(p) && Shaped(p, g) && g.stepsDone < Derive(p).noTimeSteps
    ensures Coefficients(Derive(p)) && g.vGenPrev.Finite? && g.stepsDone < |g.timeSteps|
    ensures 0.0 <= TimeOf(g.stepsDone, Derive(p).dt.value) < p.tStopSim
    ensures StepGridBy(p, Derive(p), g) == StepGrid(p, g)
  {
    StepTimeBeforeHorizon(p, g.stepsDone);
    DeriveCoefficients(p);
  }

  /** One step keeps the invariant. */
  lemma StepPreservesInv(p: Params, g: Grid)
    requires ParamsValid(p) && Runnable(p) && Inv(p, g) && g.stepsDone < Derive(p).noTimeSteps
    ensures Inv(p, StepGrid(p, g))
  {
    StepTimeBeforeHorizon(p, g.stepsDone);
    var r := StepGrid(p, g);
    if g.stepsDone > 0 {
      assert Recorded(p, g);
    }
    TimesAdvance(p, g.timeSteps, g.stepsDone);
    StepTimeNext(p, g.stepsDone);
    SamplesAdvance(g.terminal, StepTime(p, g.stepsDone), StepTime(p, g.stepsDone + 1), p.tStopSim,
      r.voltages[0], r.voltages[p.ndz]);
    assert r.stepsDone - 1 == g.stepsDone;
    assert Recorded(p, r);
  }

  /** At the generator end a step solves the charge balance between the old and the
      new node-0 voltage, with the source levels of the previous and the current
      step and the coefficients `initParameters` derived. */
  lemma StepGeneratorEnd(p: Params, g: Grid)
    requires ParamsValid(p) && Runnable(p) && Shaped(p, g) && g.stepsDone < Derive(p).noTimeSteps
    ensures GeneratorBalance(g.voltages[0], StepGrid(p, g).voltages[0], g.currents[0],
      g.vGenPrev.value + StepGrid(p, g).vGenPrev.value, p.Rg, Derive(p).cUnit.value, Derive(p).dz, Derive(p).dt.value)
  {
    StepTimeBeforeHorizon(p, g.stepsDone);
    var vGenNow := Generate(p, StepTime(p, g.stepsDone)).value;
    DeriveCoefficients(p);
    var ends := UpdateEnds(p, Derive(p), g, vGenNow);
    GeneratorVoltageBalance(g.voltages[0], g.currents[0], g.vGenPrev.value + vGenNow,
      p.Rg, Derive(p).cUnit.value, Derive(p).dz, Derive(p).dt.value);
    assert StepGrid(p, g).voltages[0] == ends.0[0];
  }

  /** At every interior node a step obeys the voltage law, cUnit * dz * dV = dt * dI. */
  lemma StepInterior(p: Params, g: Grid)
    requires ParamsValid(p) && Runnable(p) && Shaped(p, g) && g.stepsDone < Derive(p).noTimeSteps
    ensures VoltageLaw(g.voltages, StepGrid(p, g).voltages, g.currents,
      Derive(p).cUnit.value, Derive(p).dz, Derive(p).dt.value)
  {
    StepTimeBeforeHorizon(p, g.stepsDone);
    var vGenNow := Generate(p, StepTime(p, g.stepsDone)).value;
    DeriveCoefficients(p);
    var ends := UpdateEnds(p, Derive(p), g, vGenNow);
    InteriorSweepTelegrapher(ends.0, g.currents, Derive(p).cUnit.value, Derive(p).dz, Derive(p).dt.value);
    VoltageLawInterior(ends.0, g.voltages, StepGrid(p, g).voltages, g.currents, Derive(p).cUnit.value, Derive(p).dz, Derive(p).dt.value);
  }

  /** On every segment a step obeys the current law, lUnit * dz * dI = dt * dV, with
      the voltages of the same step. */
  lemma StepCurrents(p: Params, g: Grid)
    requires ParamsValid(p) && Runnable(p) && Shaped(p, g) && g.stepsDone < Derive(p).noTimeSteps
    ensures CurrentLaw(g.currents, StepGrid(p, g).currents, StepGrid(p, g).voltages,
      Derive(p).lUnit.value, Derive(p).dz, Derive(p).dt.value)
  {
    var r := StepGrid(p, g);
    CurrentSweepTelegrapher(r.voltages, g.currents, Derive(p).lUnit.value, Derive(p).dz, Derive(p).dt.value);
  }

  /** At the load end a step solves the charge balance of the resistive load
      (equation 8.81b) or of the capacitive load (equation 9.65), the latter with
      the new load current Cl / dt * dV. */
  lemma StepLoadEnd(p: Params, g: Grid)
    requires ParamsValid(p) && Runnable(p) && Shaped(p, g) && g.stepsDone < Derive(p).noTimeSteps
    ensures p.load == Resistive ==>
      ResistiveLoadBalance(g.voltages[p.ndz], StepGrid(p, g).voltages[p.ndz], g.currents[p.ndz - 1],
        p.Rl, Derive(p).cUnit.value, Derive(p).dz, Derive(p).dt.value)
    ensures p.load == Capacitive ==>
      && StepGrid(p, g).currentLoad == CapacitorCurrent(StepGrid(p, g).voltages[p.ndz] - g.voltages[p.ndz], p.Cl, Derive(p).dt.value)
      && CapacitiveLoadBalance(StepGrid(p, g).voltages[p.ndz] - g.voltages[p.ndz], g.currents[p.ndz - 1],
           g.currentLoad, StepGrid(p, g).currentLoad, Derive(p).cUnit.value, Derive(p).dz, Derive(p).dt.value)
  {
    StepTimeBeforeHorizon(p, g.stepsDone);
    var vGenNow := Generate(p, StepTime(p, g.stepsDone)).value;
    DeriveCoefficients(p);
    var ends := UpdateEnds(p, Derive(p), g, vGenNow);
    assert StepGrid(p, g).voltages[p.ndz] == ends.0[p.ndz];
    match p.load
    case Resistive =>
      LoadResistorBalance(g.voltages[p.ndz], g.currents[p.ndz - 1], p.Rl, Derive(p).cUnit.value, Derive(p).dz, Derive(p).dt.value);
    case Capacitive =>
      LoadCapacitorBalance(g.currents[p.ndz - 1], g.currentLoad, p.Cl, Derive(p).cUnit.value, Derive(p).dz, Derive(p).dt.value);
  }

  function Max(a: int, b: int): int { if a >= b then a else b }

  /** The loop of `updateSimulation`: step while fewer than `limit` steps are done. */
  function Run(p: Params, g: Grid, limit: int): (r: Grid)
    requires ParamsValid(p) && Runnable(p) && Shaped(p, g) && limit <= Derive(p).noTimeSteps
    ensures Shaped(p, r)
    decreases limit - g.stepsDone
  {
    if g.stepsDone >= limit then
      g
    else
      Run(p, StepGrid(p, g), limit)
  }

  /** Running g to limit ends in r. */
  ghost predicate RunsTo(p: Params, g: Grid, limit: int, r: Grid) {
    && ParamsValid(p) && Runnable(p) && Shaped(p, g) && limit <= Derive(p).noTimeSteps
    && Run(p, g, limit) == r
  }

  /** A run keeps the invariant. */
  lemma {:induction false} RunPreservesInv(p: Params, g: Grid, limit: int)
    requires ParamsValid(p) && Runnable(p) && Inv(p, g) && limit <= Derive(p).noTimeSteps
    ensures Inv(p, Run(p, g, limit))
    decreases limit - g.stepsDone
  {
    if g.stepsDone < limit {
      StepPreservesInv(p, g);
      RunPreservesInv(p, StepGrid(p, g), limit);
    }
  }

  /** A run stops exactly at its limit, or does nothing when the limit is already reached. */
  lemma {:induction false} RunStepsDone(p: Params, g: Grid, limit: int)
    requires ParamsValid(p) && Runnable(p) && Shaped(p, g) && limit <= Derive(p).noTimeSteps
    ensures Run(p, g, limit).stepsDone == Max(g.stepsDone, limit)
    decreases limit - g.stepsDone
  {
    if g.stepsDone < limit {
      RunStepsDone(p, StepGrid(p, g), limit);
    }
  }

  /** Runs compose: running to l1 and later to l2 >= l1 gives the state of running
      to l2 at once, so the animation's successive calls, whatever wall-clock times
      they see, reach the same state as a single call with the last limit; and
      running again to the same limit changes nothing. */
  lemma {:induction false} RunResumable(p: Params, g: Grid, l1: int, l2: int)
    requires ParamsValid(p) && Runnable(p) && Shaped(p, g)
    requires l1 <= l2 <= Derive(p).noTimeSteps
    ensures Run(p, Run(p, g, l1), l2) == Run(p, g, l2)
    decreases l1 - g.stepsDone
  {
    if g.stepsDone < l1 {
      RunResumable(p, StepGrid(p, g), l1, l2);
    }
  }

  /** A step only appends: recorded step times and terminal samples are kept, and
      at most one sample is added. */
  lemma StepKeepsRecords(p: Params, g: Grid)
    requires ParamsValid(p) && Runnable(p) && Shaped(p, g) && g.stepsDone < Derive(p).noTimeSteps
    ensures var r := StepGrid(p, g);
      && g.terminal.count <= r.terminal.count <= g.terminal.count + 1
      && (forall k :: 0 <= k < g.stepsDone ==> r.timeSteps[k] == g.timeSteps[k])
      && (forall j :: 0 <= j < g.terminal.count ==>
            && r.terminal.times[j] == g.terminal.times[j]
            && r.terminal.generatorVoltages[j] == g.terminal.generatorVoltages[j]
            && r.terminal.loadVoltages[j] == g.terminal.loadVoltages[j])
  {
  }

  /** A run only appends to the records, adding at most one terminal sample per step. */
  lemma {:induction false} RunKeepsRecords(p: Params, g: Grid, limit: int)
    requires ParamsValid(p) && Runnable(p) && Shaped(p, g) && limit <= Derive(p).noTimeSteps
    ensures var r := Run(p, g, limit);
      && g.terminal.count <= r.terminal.count
      && r.terminal.count - g.terminal.count <= r.stepsDone - g.stepsDone
      && (forall k :: 0 <= k < g.stepsDone ==> r.timeSteps[k] == g.timeSteps[k])
      && (forall j :: 0 <= j < g.terminal.count ==>
            && r.terminal.times[j] == g.terminal.times[j]
            && r.terminal.generatorVoltages[j] == g.terminal.generatorVoltages[j]
            && r.terminal.loadVoltages[j] == g.terminal.loadVoltages[j])
    decreases limit - g.stepsDone
  {
    if g.stepsDone < limit {
      StepKeepsRecords(p, g);
      RunKeepsRecords(p, StepGrid(p, g), limit);
    }
  }

  /** The first step of a run takes the first terminal sample, at time 0. */
  lemma RunFromStartSamplesAtZero(p: Params, g: Grid, limit: int)
    requires ParamsValid(p) && Runnable(p) && Inv(p, g) && limit <= Derive(p).noTimeSteps
    requires g.stepsDone == 0 && limit > 0
    ensures Run(p, g, limit).terminal.count >= 1 && Run(p, g, limit).terminal.times[0] == 0.0
  {
    var g1 := StepGrid(p, g);
    StepTimeBeforeHorizon(p, 0);
    assert StepTime(p, 0) == 0.0;
    assert g1.terminal.count == 1;
    RunKeepsRecords(p, g1, limit);
  }

  /** How many steps may be done `w` seconds of wall-clock time after the start, for
      a run meant to last tStopWall seconds: min(floor(w / tStopWall * n), n)
      (typescript/tlsim.ts:145). With tStopWall = 0 the quotient is +Infinity for
      w > 0, allowing every step, and NaN or -Infinity otherwise, allowing none. */
  function StepsLimit(w: real, tStopWall: real, n: nat): (limit: int)
    requires tStopWall >= 0.0
    ensures limit <= n
    ensures tStopWall > 0.0 && limit < n ==> w / tStopWall * n as real < (limit + 1) as real
  {
    if tStopWall > 0.0 then
      var k := (w / tStopWall * n as real).Floor;
      if k < n then k else n
    else if w > 0.0 then n
    else 0
  }

  lemma FloorMono(x: real, y: real)
    requires x <= y
    ensures x.Floor <= y.Floor
  {
  }

  /** The limit never decreases as wall-clock time passes. */
  lemma StepsLimitMonotone(w1: real, w2: real, tStopWall: real, n: nat)
    requires tStopWall >= 0.0 && w1 <= w2
    ensures StepsLimit(w1, tStopWall, n) <= StepsLimit(w2, tStopWall, n)
  {
    if tStopWall > 0.0 {
      assert w1 / tStopWall <= w2 / tStopWall;
      MulMono(w1 / tStopWall, w2 / tStopWall, n as real);
      FloorMono(w1 / tStopWall * n as real, w2 / tStopWall * n as real);
    }
  }

  /** The simulation keeps pace with the wall clock: the steps allowed are never more
      than the elapsed fraction of tStopWall times n, and once tStopWall has passed
      every step is allowed. */
  lemma StepsLimitPace(w: real, tStopWall: real, n: nat)
    requires tStopWall > 0.0
    ensures StepsLimit(w, tStopWall, n) as real <= w / tStopWall * n as real
    ensures w >= tStopWall ==> StepsLimit(w, tStopWall, n) == n
  {
    if w >= tStopWall {
      var q := w / tStopWall;
      assert q >= 1.0;
      MulMono(1.0, q, n as real);
      assert n as real <= q * n as real;
      FloorMono(n as real, q * n as real);
    }
  }

  /** One second past tStopWall, as `uiShowFinal` asks, every step is allowed, also
      for tStopWall = 0. */
  lemma StepsLimitFinal(tStopWall: real, n: nat)
    requires tStopWall >= 0.0
    ensures StepsLimit(tStopWall + 1.0, tStopWall, n) == n
  {
    if tStopWall > 0.0 {
      StepsLimitPace(tStopWall + 1.0, tStopWall, n);
    }
  }
}
