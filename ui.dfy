/** The parameter form of the page (typescript/transmission_line_numerical.ts):
    the check `paramsBroken`, the `updateParameters` gate that copies an accepted
    form into the engine, and `uiShowFinal`, which runs the engine to its horizon.
    The page's log area is the engine's `logged`, since the page installs
    `uiLogMessage` as the engine's `log`. */
module Controls {
  import opened Numbers
  import opened Waveform
  import opened Line
  import opened Simulator

  /** A form entry: a number, or anything for which `typeof x === "number" && x >= 0`
      cannot hold however it compares (text, an empty field, NaN). */
  datatype Entry = Number(value: real) | NotNumber

  /** The form's inputs in the page's units: ns for tRise, tPeriod and tStopSim, pF
      for Cload, 1e8 m/s for v, seconds for tStopWall; `generatorType` and
      `loadType` are the selected options. */
  datatype Form = Form(
    Z0: Entry, generatorType: string, Rg: Entry, tRise: Entry, tPeriod: Entry,
    loadType: string, Rload: Entry, Cload: Entry, length: Entry, v: Entry, ndz: Entry,
    tStopSim: Entry, tStopWall: Entry)

  /** The page's read-outs of derived quantities, NonFinite where the page shows NaN
      or Infinity. */
  datatype Display = Display(
    lUnit: Num, cUnit: Num, tProp: Num, tStep: Num, nStep: Num, rhoGen: Num, rhoLoad: Num)

  const StopMessage: string := "Stopping animation because of parameter change..."
  const RunningError: string := "Error: request to show final results while animation is running"

  /** The form as the page first shows it. */
  function DefaultForm(): Form {
    Form(Number(50.0), "sine", Number(20.0), Number(1.0), Number(20.0), "R", Number(1000.0),
      Number(5.0), Number(10.0), Number(2.0), Number(400.0), Number(100.0), Number(15.0))
  }

  /** The entries `paramsBroken` checks, in its order. */
  function Entries(f: Form): (es: seq<Entry>)
    ensures |es| == 11 && es[0] == f.Z0 && es[1] == f.Rg && es[2] == f.tRise && es[3] == f.tPeriod
    ensures es[4] == f.Rload && es[5] == f.Cload && es[6] == f.length && es[7] == f.v
    ensures es[8] == f.ndz && es[9] == f.tStopSim && es[10] == f.tStopWall
  {
    [f.Z0, f.Rg, f.tRise, f.tPeriod, f.Rload, f.Cload, f.length, f.v, f.ndz, f.tStopSim, f.tStopWall]
  }

  predicate IsPositive(e: Entry) {
    e.Number? && e.value >= 0.0
  }

  /** `paramsBroken`: not every entry is a non-negative number, or fewer than one
      segment, or a line of no length. */
  predicate ParamsBroken(f: Form) {
    || !(forall i :: 0 <= i < |Entries(f)| ==> IsPositive(Entries(f)[i]))
    || (f.ndz.Number? && f.ndz.value < 1.0)
    || (f.length.Number? && f.length.value <= 0.0)
  }

  /** What the check lets through, entry by entry: every numeric entry a
      non-negative number, at least one segment, a line of positive length. A line
      impedance of 0 passes. */
  predicate Accepted(f: Form) {
    && IsPositive(f.Z0) && IsPositive(f.Rg) && IsPositive(f.tRise) && IsPositive(f.tPeriod)
    && IsPositive(f.Rload) && IsPositive(f.Cload) && IsPositive(f.length) && IsPositive(f.v)
    && IsPositive(f.ndz) && IsPositive(f.tStopSim) && IsPositive(f.tStopWall)
    && f.ndz.value >= 1.0 && f.length.value > 0.0
  }

  /** The form is broken exactly when it is not accepted. */
  lemma ParamsBrokenIff(f: Form)
    ensures ParamsBroken(f) <==> !Accepted(f)
  {
    var es := Entries(f);
    if Accepted(f) {
      forall i | 0 <= i < |es|
        ensures IsPositive(es[i])
      {
      }
    }
  }

  /** The engine parameters `updateParameters` copies from an accepted form, scaled
      to SI units; the host's sine stays. An accepted form gives parameters the
      engine accepts, and they can be stepped exactly when the impedance is
      positive and a sine generator has a positive period. */
  function ModelParams(f: Form, sine: real -> real): (p: Params)
    requires Accepted(f) && IsWhole(f.ndz.value)
    ensures ParamsValid(p)
    ensures Runnable(p) <==> f.Z0.value > 0.0 && (f.generatorType == "sine" ==> f.tPeriod.value > 0.0)
  {
    Params(f.Z0.value, f.Rg.value, f.tRise.value * 0.000000001, f.tPeriod.value * 0.000000001,
      if f.generatorType == "sine" then Sine else Step,
      f.Rload.value, f.Cload.value * 0.000000000001,
      if f.loadType == "R" then Resistive else Capacitive,
      f.length.value, f.v.value * 100000000.0, f.ndz.value.Floor, f.tStopSim.value * 0.000000001,
      f.tStopWall.value, sine)
  }

  /** The page's form gives a 10 m line of 400 segments at 2e8 m/s: a 125 ps step
      and 800 steps to the 100 ns horizon. */
  lemma DefaultFormSteps(sine: real -> real)
    ensures !ParamsBroken(DefaultForm()) && Accepted(DefaultForm())
    ensures Derive(ModelParams(DefaultForm(), sine)).dt == Finite(0.000000000125)
    ensures Derive(ModelParams(DefaultForm(), sine)).noTimeSteps == 800
  {
    ParamsBrokenIff(DefaultForm());
    var p := ModelParams(DefaultForm(), sine);
    assert p.ndz == 400 && p.v == 200000000.0 && p.tStopSim == 0.0000001;
    assert Derive(p).dz == 0.025;
    assert 0.0000001 / 0.000000000125 == 800.0;
  }

  /** `x * k`, NaN and Infinity staying so. */
  function Scaled(x: Num, k: real): Num {
    if x.Finite? then Finite(x.value * k) else NonFinite
  }

  /** The read-outs after an accepted form: lUnit in uH/m, cUnit in nF/m, the
      one-way delay length / v in ns, dt in ps, the number of steps, and the two
      reflection coefficients. On a line with a finite step the delay is ndz steps,
      and the steps fit the horizon. */
  function Shown(p: Params, d: Derived): (s: Display)
    requires ParamsValid(p) && d == Derive(p)
    ensures s.tProp.Finite? <==> p.v > 0.0
    ensures s.tStep.Finite? <==> p.v > 0.0
    ensures s.nStep == Finite(d.noTimeSteps as real) && s.rhoGen == d.rhoGen && s.rhoLoad == d.rhoLoad
    ensures p.v > 0.0 ==> s.tProp.value * 1000.0 == s.tStep.value * p.ndz as real
    ensures p.v > 0.0 ==> s.tStep.value * s.nStep.value <= p.tStopSim * 1000000000000.0
  {
    var tProp := if p.v > 0.0 then Finite(p.lineLength / p.v * 1000000000.0) else NonFinite;
    if p.v > 0.0 then
      CourantNumberOne(p);
      HorizonCovered(p);
      assert tProp.value * 1000.0 == d.dt.value * 1000000000000.0 * p.ndz as real;
      MulMono(d.noTimeSteps as real * d.dt.value, p.tStopSim, 1000000000000.0);
      Display(Scaled(d.lUnit, 1000000.0), Scaled(d.cUnit, 1000000000.0), tProp, Scaled(d.dt, 1000000000000.0),
        Finite(d.noTimeSteps as real), d.rhoGen, d.rhoLoad)
    else
      Display(Scaled(d.lUnit, 1000000.0), Scaled(d.cUnit, 1000000000.0), tProp, Scaled(d.dt, 1000000000000.0),
        Finite(d.noTimeSteps as real), d.rhoGen, d.rhoLoad)
  }

  /** The read-outs after a broken form: all NaN. */
  function Unavailable(): Display {
    Display(NonFinite, NonFinite, NonFinite, NonFinite, NonFinite, NonFinite, NonFinite)
  }

  /** The page component: its form, its read-outs, whether an animation runs, and
      the engine it drives. */
  class App {
    const model: TlSim
    var form: Form
    var display: Display
    var animationIsRunning: bool

    /** The component as mounted, before its first `updateParameters`. */
    constructor(model: TlSim)
      ensures this.model == model && form == DefaultForm() && !animationIsRunning
      ensures display == Display(Finite(0.0), Finite(0.0), Finite(0.0), Finite(0.0), Finite(0.0), Finite(-2.0), Finite(-2.0))
    {
      this.model := model;
      form := DefaultForm();
      display := Display(Finite(0.0), Finite(0.0), Finite(0.0), Finite(0.0), Finite(0.0), Finite(-2.0), Finite(-2.0));
      animationIsRunning := false;
    }

    /** `updateParameters` (typescript/transmission_line_numerical.ts:300-340): stop a
        running animation, logging why; on a broken form show NaN read-outs and
        leave the engine alone; otherwise copy the form into the engine, run
        `initParameters` and show its derived quantities. */
    method UpdateParameters()
      requires Accepted(form) ==> IsWhole(form.ndz.value)
      modifies this`animationIsRunning, this`display, model
      ensures !animationIsRunning
      ensures model.logged == old(model.logged) + (if old(animationIsRunning) then [StopMessage] else [])
      ensures ParamsBroken(form) ==>
        && display == Unavailable()
        && model.params == old(model.params) && model.helpers == old(model.helpers)
        && model.Snapshot() == old(model.Snapshot())
      ensures !ParamsBroken(form) ==>
        && Accepted(form)
        && model.params == ModelParams(form, old(model.params.sine))
        && model.Valid() && model.Snapshot() == InitialGrid(model.params)
        && display == Shown(model.params, model.helpers)
    {
      if animationIsRunning {
        model.logged := model.logged + [StopMessage];
        animationIsRunning := false;
      }
      if ParamsBroken(form) {
        display := Unavailable();
        return;
      }
      ParamsBrokenIff(form);
      model.params := ModelParams(form, model.params.sine);
      model.InitParameters();
      display := Shown(model.params, model.helpers);
    }

    /** `uiShowFinal` (typescript/transmission_line_numerical.ts:223-240): clear the
        log; while an animation runs, refuse with an error; otherwise start the
        engine afresh and run it to the end of its horizon. */
    method ShowFinal()
      requires ParamsValid(model.params)
      modifies model
      ensures old(animationIsRunning) ==>
        && model.logged == [RunningError]
        && model.params == old(model.params) && model.helpers == old(model.helpers)
        && model.Snapshot() == old(model.Snapshot())
      ensures !old(animationIsRunning) ==>
        && model.Valid() && model.params == old(model.params)
        && model.logged == [if model.params.Z0 != 0.0 then "Animation started" else "Error: Z0 must be more than 0 Ohm."]
        && (Runnable(model.params) ==>
              && model.stepsDone == model.helpers.noTimeSteps
              && RunsTo(model.params, InitialGrid(model.params), model.helpers.noTimeSteps, model.Snapshot()))
        && (!Runnable(model.params) ==> model.Snapshot() == InitialGrid(model.params))
    {
      model.logged := [];
      if animationIsRunning {
        model.logged := model.logged + [RunningError];
        return;
      }
      RunToEnd();
    }

    /** The part of `uiShowFinal` that runs the engine: `startSimulation`, then
        `updateSimulation` at one second past the wall-clock budget, which lets
        every one of the horizon's steps be due. */
    method RunToEnd()
      requires ParamsValid(model.params) && model.logged == []
      modifies model
      ensures model.Valid() && model.params == old(model.params)
      ensures model.logged == [if model.params.Z0 != 0.0 then "Animation started" else "Error: Z0 must be more than 0 Ohm."]
      ensures Runnable(model.params) ==>
        && model.stepsDone == model.helpers.noTimeSteps
        && RunsTo(model.params, InitialGrid(model.params), model.helpers.noTimeSteps, model.Snapshot())
      ensures !Runnable(model.params) ==> model.Snapshot() == InitialGrid(model.params)
    {
      var started := model.StartSimulation();
      var p := model.params;
      if !Runnable(p) {
        return;
      }
      ghost var n := model.helpers.noTimeSteps;
      StepsLimitFinal(p.tStopWall, n);
      model.UpdateSimulation(p.tStopWall + 1.0);
      RunStepsDone(p, InitialGrid(p), n);
    }
  }
}
