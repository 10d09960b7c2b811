/** The class `TlSim` of typescript/tlsim.ts (compiled as script/tlsim.js): the
    state of one simulation, updated in place by `initParameters`, the load
    updates and `updateSimulation`. Each method is proved to follow the engine
    functions of module `Line`; the physics and the bookkeeping are proved there. */
module Simulator {
  import opened Numbers
  import opened Waveform
  import opened Boundary
  import opened Line

  /** The field initialisers of `TlSim` (typescript/tlsim.ts:14-30), in SI units. */
  function Defaults(sine: real -> real): (p: Params)
    ensures ParamsValid(p) && Runnable(p)
  {
    Params(50.0, 20.0, 0.000000001, 0.00000002, Step, 1000.0, 0.000000000005, Resistive,
      0.10, 200000000.0, 400, 0.0000001, 10.0, sine)
  }

  /** With the default line (10 cm, 400 segments, 2e8 m/s) a step is 1.25 ps, so
      the default 100 ns horizon takes 80000 steps. */
  lemma DefaultStepCount(sine: real -> real)
    ensures Derive(Defaults(sine)).dt == Finite(0.00000000000125)
    ensures Derive(Defaults(sine)).noTimeSteps == 80000
  {
    var p := Defaults(sine);
    assert Derive(p).dz == 0.00025;
    assert 0.0000001 / 0.00000000000125 == 80000.0;
  }

  /** `Array(n).fill(0.0)`: a fresh array of n zeros. */
  method Filled(n: nat) returns (a: array<real>)
    ensures fresh(a) && a[..] == Zeros(n)
  {
    a := new real[n](_ => 0.0);
  }

  class TlSim {
    /** Messages passed to `log`, oldest first. */
    ghost var logged: seq<string>

    /** The input fields Z0, Rg, tRise, tPeriod, the generator choice, Rl, Cl, the
        load choice, lineLength, v, ndz, tStopSim and tStopWall. */
    var params: Params

    /** The helper fields dz, dt, lUnit, cUnit, noTimeSteps, rhoGen and rhoLoad,
        NonFinite where the source holds Infinity or NaN. */
    var helpers: Derived

    // The grid, updated in place.
    var voltages: array<real>
    var currents: array<real>
    var currentLoad: real
    var vGenPrev: Num
    var stepsDone: nat

    // Records, written one slot at a time.
    var timeSteps: seq<real>
    /** terminalStepsDone and the buffers timeStepsTerminal,
        voltagesGeneratorTerminal and voltagesLoadTerminal. */
    var terminal: Sampler

    function Snapshot(): Grid
      reads this`voltages, this`currents, this`currentLoad, this`vGenPrev, this`stepsDone
      reads this`timeSteps, this`terminal, voltages, currents
    {
      Grid(voltages[..], currents[..], currentLoad, vGenPrev, stepsDone, timeSteps, terminal)
    }

    /** The helper fields are those `initParameters` derives from the inputs, the
        two grid arrays are distinct, and the grid and records keep the engine
        invariant. */
    ghost predicate Valid()
      reads this, voltages, currents
    {
      && ParamsValid(params) && helpers == Derive(params) && voltages != currents
      && Inv(params, Snapshot())
    }

    /** `new TlSim()`: the default parameters (typescript/tlsim.ts:14-30), initialised. */
    constructor(sine: real -> real)
      ensures Valid() && params == Defaults(sine)
      ensures Snapshot() == InitialGrid(params)
      ensures logged == []
    {
      params := Defaults(sine);
      logged := [];
      new;
      InitParameters();
    }

    /** What the end and sweep updates need of the fields: valid parameters, finite
        positive coefficients, and two distinct arrays of the grid's sizes. */
    predicate Ready()
      reads this`params, this`helpers, this`voltages, this`currents
    {
      && ParamsValid(params) && Coefficients(helpers)
      && voltages.Length == params.ndz + 1 && currents.Length == params.ndz && voltages != currents
    }

    /** `initParameters()` (typescript/tlsim.ts:67-91): derive the helper fields from
        the inputs (unit inductance and capacitance, segment length, time step at
        the Courant limit, number of steps, reflection coefficients) and reset the
        grid, the cursors and the records. */
    method InitParameters()
      requires ParamsValid(params)
      modifies this`helpers, this`voltages, this`currents, this`currentLoad, this`vGenPrev, this`stepsDone
      modifies this`timeSteps, this`terminal
      ensures Valid() && Snapshot() == InitialGrid(params)
      ensures fresh(voltages) && fresh(currents)
    {
      helpers := Derive(params);
      ResetState();
      InitialIsValid();
    }

    /** The grid and the records of `initParameters`, reset. */
    method ResetState()
      requires ParamsValid(params) && helpers == Derive(params)
      modifies this`voltages, this`currents, this`currentLoad, this`vGenPrev, this`stepsDone
      modifies this`timeSteps, this`terminal
      ensures Snapshot() == InitialGrid(params)
      ensures fresh(voltages) && fresh(currents)
    {
      timeSteps := Zeros(helpers.noTimeSteps);
      terminal := Sampler(0, Zeros(NoTerminalVoltages), Zeros(NoTerminalVoltages), Zeros(NoTerminalVoltages));
      ResetGrid();
    }

    /** The initial grid of valid parameters keeps the invariant. */
    lemma InitialIsValid()
      requires ParamsValid(params) && helpers == Derive(params) && voltages != currents
      requires Snapshot() == InitialGrid(params)
      ensures Valid()
    {
    }

    /** A line at rest: zero voltages and currents, no load current, the generator
        level at time 0, no step done. */
    method ResetGrid()
      requires ParamsValid(params)
      modifies this`voltages, this`currents, this`currentLoad, this`vGenPrev, this`stepsDone
      ensures fresh(voltages) && fresh(currents)
      ensures voltages[..] == Zeros(params.ndz + 1) && currents[..] == Zeros(params.ndz)
      ensures currentLoad == 0.0 && vGenPrev == Generate(params, 0.0) && stepsDone == 0
    {
      voltages := Filled(params.ndz + 1);
      currents := Filled(params.ndz);
      currentLoad := 0.0;
      vGenPrev := Generate(params, 0.0);
      stepsDone := 0;
    }

    /** `startSimulation()` (typescript/tlsim.ts:93-102): initialise, then refuse to
        run on a line of zero impedance, logging why; otherwise log the start. */
    method StartSimulation() returns (started: bool)
      requires ParamsValid(params)
      modifies this
      ensures Valid() && Snapshot() == InitialGrid(params)
      ensures fresh(voltages) && fresh(currents)
      ensures params == old(params)
      ensures started <==> params.Z0 != 0.0
      ensures logged == old(logged) + [if started then "Animation started" else "Error: Z0 must be more than 0 Ohm."]
    {
      InitParameters();
      if params.Z0 == 0.0 {
        logged := logged + ["Error: Z0 must be more than 0 Ohm."];
        return false;
      }
      logged := logged + ["Animation started"];
      return true;
    }

    /** The `generatorIsSine` setter: choose the sine or the step generator. */
    method SetGeneratorIsSine(isSine: bool)
      modifies this`params
      ensures params == old(params).(generator := if isSine then Sine else Step)
    {
      params := params.(generator := if isSine then Sine else Step);
    }

    /** The `loadIsR` setter: choose the resistive or the capacitive load update. */
    method SetLoadIsR(isR: bool)
      modifies this`params
      ensures params == old(params).(load := if isR then Resistive else Capacitive)
    {
      params := params.(load := if isR then Resistive else Capacitive);
    }

    /** The generator end of one step (equation 8.81a of C. R. Paul, "Analysis of
        Multiconductor Transmission Lines"): node 0 moves to the voltage that
        balances the charge drawn through Rg from the source (levels summed over the
        previous and the current step) against the first segment current. */
    method UpdateGeneratorEnd(vSum: real)
      requires Ready()
      modifies voltages
      ensures voltages[..] == old(voltages[..])[0 := GeneratorVoltage(old(voltages[0]), currents[0], vSum, params.Rg, helpers.cUnit.value, helpers.dz, helpers.dt.value)]
      ensures GeneratorBalance(old(voltages[0]), voltages[0], currents[0], vSum, params.Rg, helpers.cUnit.value, helpers.dz, helpers.dt.value)
      ensures currents[..] == old(currents[..])
    {
      voltages[0] := GeneratorVoltage(voltages[0], currents[0], vSum, params.Rg, helpers.cUnit.value, helpers.dz, helpers.dt.value);
      GeneratorVoltageBalance(old(voltages[0]), currents[0], vSum, params.Rg, helpers.cUnit.value, helpers.dz, helpers.dt.value);
    }

    /** `updateLoadR()` (equation 8.81b): node ndz moves to the voltage that balances
        the last segment current against the current through Rl. */
    method UpdateLoadR()
      requires Ready()
      modifies voltages
      ensures var n := params.ndz;
        voltages[..] == old(voltages[..])[n := LoadResistorVoltage(old(voltages[n]), currents[n - 1], params.Rl, helpers.cUnit.value, helpers.dz, helpers.dt.value)]
      ensures var n := params.ndz;
        ResistiveLoadBalance(old(voltages[n]), voltages[n], currents[n - 1], params.Rl, helpers.cUnit.value, helpers.dz, helpers.dt.value)
      ensures currents[..] == old(currents[..])
    {
      var n := params.ndz;
      voltages[n] := LoadResistorVoltage(voltages[n], currents[n - 1], params.Rl, helpers.cUnit.value, helpers.dz, helpers.dt.value);
      LoadResistorBalance(old(voltages[n]), currents[n - 1], params.Rl, helpers.cUnit.value, helpers.dz, helpers.dt.value);
    }

    /** `updateLoadC()` (equation 9.65): node ndz rises by the voltage step that
        balances the last segment current against the capacitor current, and the
        capacitor current becomes Cl times the voltage rate. */
    method UpdateLoadC()
      requires Ready()
      modifies voltages, this`currentLoad
      ensures var n := params.ndz;
        voltages[..] == old(voltages[..])[n := old(voltages[n]) + LoadCapacitorDelta(currents[n - 1], old(currentLoad), params.Cl, helpers.cUnit.value, helpers.dz, helpers.dt.value)]
      ensures var n := params.ndz;
        currentLoad == CapacitorCurrent(voltages[n] - old(voltages[n]), params.Cl, helpers.dt.value)
      ensures var n := params.ndz;
        CapacitiveLoadBalance(voltages[n] - old(voltages[n]), currents[n - 1], old(currentLoad), currentLoad, helpers.cUnit.value, helpers.dz, helpers.dt.value)
      ensures currents[..] == old(currents[..])
    {
      var n := params.ndz;
      var deltaVoltage := LoadCapacitorDelta(currents[n - 1], currentLoad, params.Cl, helpers.cUnit.value, helpers.dz, helpers.dt.value);
      voltages[n] := voltages[n] + deltaVoltage;
      currentLoad := CapacitorCurrent(deltaVoltage, params.Cl, helpers.dt.value);
      LoadCapacitorBalance(currents[n - 1], old(currentLoad), params.Cl, helpers.cUnit.value, helpers.dz, helpers.dt.value);
    }

    /** `updateLoad()`: the update the load setter chose. */
    method UpdateLoad()
      requires Ready()
      modifies voltages, this`currentLoad
      ensures (voltages[..], currentLoad) == LoadUpdate(params, helpers, old(voltages[..]), currents[..], old(currentLoad))
      ensures currents[..] == old(currents[..])
    {
      match params.load
      case Resistive => UpdateLoadR();
      case Capacitive => UpdateLoadC();
    }

    /** The sample check of `updateSimulation`: once t reaches the next sample time
        terminalStepsDone * tStopSim / 1000, record t and the two end voltages in
        the next slot. */
    method SampleTerminals(t: real)
      requires SamplerShape(terminal) && 0.0 <= t < params.tStopSim && voltages.Length == params.ndz + 1
      modifies this`terminal
      ensures terminal == SampleIfDue(old(terminal), t, voltages[0], voltages[params.ndz], params.tStopSim)
    {
      var k := terminal.count;
      if t >= k as real * params.tStopSim / NoTerminalVoltages as real {
        SlotAvailable(k, t, params.tStopSim);
        terminal := Sampler(k + 1, terminal.times[k := t],
          terminal.generatorVoltages[k := voltages[0]], terminal.loadVoltages[k := voltages[params.ndz]]);
      }
    }

    /** The first inner loop of `updateSimulation`: each inner node 0 < i < ndz
        moves by factor times the net current flowing into it. */
    method SweepVoltages(factor: real)
      requires params.ndz >= 1 && voltages.Length == params.ndz + 1 && currents.Length == params.ndz && voltages != currents
      modifies voltages
      ensures voltages[..] == InteriorSweep(old(voltages[..]), currents[..], factor)
      ensures currents[..] == old(currents[..])
    {
      ghost var target := InteriorSweep(voltages[..], currents[..], factor);
      for i := 1 to params.ndz
        invariant forall j :: 0 <= j < i ==> voltages[j] == target[j]
        invariant forall j :: i <= j <= params.ndz ==> voltages[j] == old(voltages[j])
      {
        assert target[i] == voltages[i] + factor * (currents[i - 1] - currents[i]);
        voltages[i] := voltages[i] + factor * (currents[i - 1] - currents[i]);
      }
      assert forall j :: 0 <= j <= params.ndz ==> voltages[j] == target[j];
    }

    /** The second inner loop of `updateSimulation`: each segment current moves by
        factor times the voltage drop across the segment, using the new voltages. */
    method SweepCurrents(factor: real)
      requires params.ndz >= 1 && voltages.Length == params.ndz + 1 && currents.Length == params.ndz && voltages != currents
      modifies currents
      ensures currents[..] == CurrentSweep(voltages[..], old(currents[..]), factor)
      ensures voltages[..] == old(voltages[..])
    {
      ghost var target := CurrentSweep(voltages[..], currents[..], factor);
      for i := 0 to params.ndz
        invariant forall j :: 0 <= j < i ==> currents[j] == target[j]
        invariant forall j :: i <= j < params.ndz ==> currents[j] == old(currents[j])
      {
        currents[i] := currents[i] + factor * (voltages[i] - voltages[i + 1]);
      }
    }

    /** What one step needs besides `Ready`: runnable parameters, a previous
        generator level that is a number, sample buffers of their size, a free time
        slot, and a step time before the horizon. */
    predicate Steppable()
      reads this
    {
      && Ready() && Runnable(params) && vGenPrev.Finite? && SamplerShape(terminal)
      && stepsDone < |timeSteps| && 0.0 <= TimeOf(stepsDone, helpers.dt.value) < params.tStopSim
    }

    /** The first part of a pass of `updateSimulation`'s loop
        (typescript/tlsim.ts:148-166): record the step time t in slot stepsDone,
        update the generator end with the summed source levels, update the load end,
        and take a terminal sample if one is due. */
    method StepEnds(t: real, vGenNow: real)
      requires Ready() && vGenPrev.Finite? && SamplerShape(terminal)
      requires stepsDone < |timeSteps| && 0.0 <= t < params.tStopSim
      modifies this`timeSteps, voltages, this`currentLoad, this`terminal
      ensures timeSteps == old(timeSteps)[stepsDone := t]
      ensures (voltages[..], currentLoad) == UpdateEnds(params, helpers, old(Snapshot()), vGenNow)
      ensures terminal == SampleIfDue(old(terminal), t, voltages[0], voltages[params.ndz], params.tStopSim)
      ensures currents[..] == old(currents[..])
    {
      ghost var ends := UpdateEnds(params, helpers, Snapshot(), vGenNow);
      timeSteps := timeSteps[stepsDone := t];
      UpdateGeneratorEnd(vGenPrev.value + vGenNow);
      UpdateLoad();
      assert (voltages[..], currentLoad) == ends;
      SampleTerminals(t);
    }

    /** The two inner loops of a pass (typescript/tlsim.ts:169-176): the interior
        voltages move by the net segment currents, then every current moves by the
        new voltage drop across its segment. */
    method SweepLine()
      requires Ready()
      modifies voltages, currents
      ensures voltages[..] == InteriorSweep(old(voltages[..]), old(currents[..]), SweepFactor(helpers.dz, helpers.dt.value, helpers.cUnit.value))
      ensures currents[..] == CurrentSweep(voltages[..], old(currents[..]), SweepFactor(helpers.dz, helpers.dt.value, helpers.lUnit.value))
    {
      SweepVoltages(SweepFactor(helpers.dz, helpers.dt.value, helpers.cUnit.value));
      SweepCurrents(SweepFactor(helpers.dz, helpers.dt.value, helpers.lUnit.value));
    }

    /** The end of a pass (typescript/tlsim.ts:178 and the loop's increment):
        remember the generator level and advance the step cursor. */
    method FinishStep(vGenNow: real)
      modifies this`vGenPrev, this`stepsDone
      ensures vGenPrev == Finite(vGenNow) && stepsDone == old(stepsDone) + 1
      ensures voltages[..] == old(voltages[..]) && currents[..] == old(currents[..])
    {
      vGenPrev := Finite(vGenNow);
      stepsDone := stepsDone + 1;
    }

    /** One pass of the loop body of `updateSimulation`
        (typescript/tlsim.ts:148-178), including the cursor increment: the grid and
        records become those of one engine step with the helper fields' coefficients. */
    method SimulateStep()
      requires Steppable()
      modifies this`timeSteps, this`vGenPrev, this`stepsDone, this`currentLoad, this`terminal
      modifies voltages, currents
      ensures Snapshot() == StepGridBy(params, helpers, old(Snapshot()))
    {
      ghost var r := StepGridBy(params, helpers, Snapshot());
      var t := TimeOf(stepsDone, helpers.dt.value);
      var vGenNow := Generate(params, t).value;
      StepEnds(t, vGenNow);
      assert timeSteps == r.timeSteps && terminal == r.terminal && currentLoad == r.currentLoad;
      SweepLine();
      assert voltages[..] == r.voltages && currents[..] == r.currents;
      FinishStep(vGenNow);
    }

    /** One pass of `updateSimulation`'s loop on a valid simulation of runnable
        parameters with a step left: the engine step, which keeps it valid. */
    method ValidStep()
      requires Valid() && Runnable(params) && stepsDone < helpers.noTimeSteps
      modifies this`timeSteps, this`vGenPrev, this`stepsDone, this`currentLoad, this`terminal
      modifies voltages, currents
      ensures Valid() && Snapshot() == StepGrid(params, old(Snapshot()))
    {
      ghost var g := Snapshot();
      ShapedSteppable(params, g);
      StepPreservesInv(params, g);
      SimulateStep();
    }

    /** `updateSimulation(timestamp_wall)` (typescript/tlsim.ts:144-180): step while
        fewer steps are done than the wall-clock time allows. */
    method UpdateSimulation(timestampWall: real)
      requires Valid() && Runnable(params)
      modifies this`timeSteps, this`vGenPrev, this`stepsDone, this`currentLoad, this`terminal
      modifies voltages, currents
      ensures Valid() && params == old(params)
      ensures RunsTo(params, old(Snapshot()), StepsLimit(timestampWall, params.tStopWall, helpers.noTimeSteps), Snapshot())
    {
      ghost var p, g0 := params, Snapshot();
      var stepsLimit := StepsLimit(timestampWall, params.tStopWall, helpers.noTimeSteps);
      ghost var target := Run(p, g0, stepsLimit);
      while stepsDone < stepsLimit
        invariant Valid() && params == p
        invariant RunsTo(p, Snapshot(), stepsLimit, target)
        decreases stepsLimit - stepsDone
      {
        ValidStep();
      }
    }
  }
}
