# Transmission-line FDTD engine, modelled in Dafny

The repository simulates a voltage pulse on a lossless transmission line. A
generator with a series resistance drives one end of the line. The other end
carries a resistive or a capacitive load. The engine is the class `TlSim`
(typescript/tlsim.ts, compiled as script/tlsim.js, with an older bundled copy
in script/transmission_line_numerical.js:2-130). It is a 1-D leapfrog
finite-difference time-domain solver:

- the line is cut into `ndz` segments;
- voltages live on the `ndz + 1` nodes and currents on the segments;
- the time step is the Courant limit `dt = dz / v`;
- both ends follow the boundary equations 8.81a, 8.81b and 9.65 of C. R. Paul,
  "Analysis of Multiconductor Transmission Lines", 2nd ed.

`updateSimulation` advances the grid resumably. It runs as many steps as the
elapsed wall-clock time allows. Every step records its simulation time. A step
also takes at most one sample of both terminal voltages into 1000-slot buffers,
when its time reaches the next of the evenly spaced sample times
k·tStopSim/1000. When a step is longer than that spacing, every step samples,
fewer than 1000 samples are taken and their times drift off that grid. The page (typescript/transmission_line_numerical.ts)
checks its form with `paramsBroken`. It copies an accepted form into the engine
in `updateParameters`, and `uiShowFinal` runs the engine to its horizon in one go.

The project has six modules.

- `Numbers` (numbers.dfy): a JavaScript number is either `Finite(value)` or
  `NonFinite`, which stands for NaN or an infinity.
- `Waveform` (waveform.dfy): JavaScript's `%` on non-negative numbers. The
  trapezoidal `generator_step` and `generator_sine`; the host's `Math.sin` is a
  function parameter `sine`.
- `Boundary` (boundary.dfy): the five update formulas as pure functions (the generator end, the
  resistive load, the capacitive load, the interior voltage sweep and the current
  sweep). Each is
  proved to solve the discrete circuit law it comes from:
  - the charge balance at either end;
  - the telegrapher equations `cUnit·dz·ΔV = dt·ΔI` and `lUnit·dz·ΔI = dt·ΔV`.
- `Line` (line.dfy): the engine as values. It holds:
  - the parameters and `initParameters`' derived quantities (`Derive`);
  - the grid, and one step (`StepGrid`);
  - the loop (`Run`) and the wall-clock step limit (`StepsLimit`);
  - the invariant the engine keeps (`Inv`), and the lemmas about all of these.
- `Simulator` (simulator.dfy): the class `TlSim`. It has `voltages` and
  `currents` arrays updated in place, with `for` loops for the two sweeps.
  Each method is proved against the functions of `Line`. `UpdateSimulation`
  ends in the state `Run` computes and keeps `Valid()`.
  - The thirteen input fields are one field `params: Params`. The seven helper
    fields are one field `helpers: Derived`. The cursor `terminalStepsDone` and
    the three sample buffers are one field `terminal: Sampler`.
  - The messages passed to `log` are the ghost field `logged`.
- `Controls` (ui.dfy): the form, `paramsBroken`, `updateParameters` and
  `uiShowFinal` on a class `App` that holds the engine.

Two behaviours of the code worth knowing:

- A line impedance of 0 is not refused by `paramsBroken`: 0 counts as
  non-negative (typescript/transmission_line_numerical.ts:275). It is refused
  later, by `startSimulation`.
- A reflection coefficient of a line with Z0 > 0 and a termination R ≥ 0 lies
  in [-1, 1) and never reaches 1 (`Line.RhoRange`).

## Model

| member | source | states |
|---|---|---|
| Waveform.JsRem | typescript/tlsim.ts:105 | `simTime % tPeriod` for a non-negative time and a positive period: a remainder in [0, tPeriod), at most simTime, that leaves a whole number of periods |
| Waveform.JsRemOfShift | typescript/tlsim.ts:105 | k whole periods plus an offset x in [0, tPeriod) leave remainder x |
| Waveform.JsRemPeriodic | typescript/tlsim.ts:105 | adding one period does not change the remainder |
| Waveform.GeneratorStep | typescript/tlsim.ts:104-115 | the trapezoidal generator's level lies in [0, 1] for every time ≥ 0, including a zero rise time and a zero period (NaN remainder, level 0) |
| Waveform.GeneratorStepStartsLow | typescript/tlsim.ts:104-107 | with tRise > 0 every period starts at level 0, in particular at time 0 |
| Waveform.GeneratorStepHigh | typescript/tlsim.ts:104-109 | for an offset r in the period with tRise ≤ r < tPeriod/2 the level is 1 |
| Waveform.GeneratorStepLow | typescript/tlsim.ts:104-115 | for an offset r in the period with r ≥ tPeriod/2 + tRise the level is 0 |
| Waveform.GeneratorStepEdgesMirror | typescript/tlsim.ts:104-113 | the falling edge mirrors the rising edge: the level x into the rise equals the level x before the fall ends |
| Waveform.GeneratorStepPeriodic | typescript/tlsim.ts:104-115 | the pulse train repeats with period tPeriod |
| Boundary.GeneratorVoltage | typescript/tlsim.ts:155-158 | the new node-0 voltage of equation 8.81a, ((f − 1)·vOld − 2·Rg·i0 + vSum)/(f + 1) with f = dz/dt·Rg·cUnit; its meaning is `Boundary.GeneratorVoltageBalance` |
| Boundary.GeneratorVoltageBalance | typescript/tlsim.ts:152-158 | the generator-end update (equation 8.81a) solves the charge balance of node 0: Rg·cUnit·(dz/dt)·ΔV = vSum − (vNew + vOld) − 2·Rg·i0 |
| Boundary.LoadResistorVoltage | typescript/tlsim.ts:127-129 | the new node-ndz voltage of equation 8.81b, ((f − 1)·vOld + 2·Rl·iLast)/(f + 1) with f = dz/dt·Rl·cUnit; its meaning is `Boundary.LoadResistorBalance` |
| Boundary.LoadResistorBalance | typescript/tlsim.ts:125-130 | the resistive-load update (equation 8.81b) solves the charge balance of node ndz against the current through Rl |
| Boundary.LoadCapacitorDelta | typescript/tlsim.ts:134-135 | the voltage step of equation 9.65, (2·iLast − iLoad)/(dz/dt·cUnit + Cl/dt); its meaning is `Boundary.LoadCapacitorBalance` |
| Boundary.CapacitorCurrent | typescript/tlsim.ts:137 | the new load current Cl/dt times the voltage step |
| Boundary.LoadCapacitorBalance | typescript/tlsim.ts:132-138 | the capacitive-load update (equation 9.65) solves the charge balance of node ndz; the new load current is Cl/dt times the voltage change |
| Boundary.InteriorSweep | typescript/tlsim.ts:170-172 | the interior voltage sweep: the same length, both end nodes kept, node i moved by factor·(I_{i−1} − I_i); its meaning is `Boundary.InteriorSweepTelegrapher` |
| Boundary.InteriorSweepTelegrapher | typescript/tlsim.ts:169-172 | the voltage sweep with factor dt/(dz·cUnit) obeys cUnit·dz·ΔV_i = dt·(I_{i−1} − I_i) at every interior node and leaves both end nodes alone |
| Boundary.CurrentSweep | typescript/tlsim.ts:174-176 | the current sweep: the same length, segment i moved by factor·(V_i − V_{i+1}); its meaning is `Boundary.CurrentSweepTelegrapher` |
| Boundary.CurrentSweepTelegrapher | typescript/tlsim.ts:173-176 | the current sweep with factor dt/(dz·lUnit) obeys lUnit·dz·ΔI_i = dt·(V_i − V_{i+1}) on every segment, with the new voltages |
| Line.Generate | typescript/tlsim.ts:104-123 | the selected generator is not finite exactly for a sine of period 0; the step generator stays in [0, 1] |
| Line.Rho | typescript/tlsim.ts:89-90 | the reflection coefficient is NaN exactly when Z0 = 0, and otherwise the ρ with ρ·(R + Z0) = R − Z0 |
| Line.RhoRange | typescript/tlsim.ts:89-90 | a reflection coefficient is NaN exactly when Z0 = 0; otherwise it lies in [−1, 1), is 0 exactly for a matched termination, and satisfies R·(1 − ρ) = Z0·(1 + ρ) |
| Line.Derive | typescript/tlsim.ts:67-90 | the derived quantities: dz > 0; dt, lUnit finite exactly when v > 0; cUnit finite exactly when Z0 > 0 and v > 0; no steps on a line with v = 0 |
| Line.CourantNumberOne | typescript/tlsim.ts:71-73 | dt·v = dz and dz·ndz = lineLength |
| Line.LineConstants | typescript/tlsim.ts:68-69 | lUnit·v = Z0, cUnit·Z0·v = 1, and lUnit·cUnit·v² = 1 |
| Line.DeriveCoefficients | typescript/tlsim.ts:68-73 | a line with Z0 > 0 and v > 0 has finite positive dt, lUnit and cUnit |
| Line.HorizonCovered | typescript/tlsim.ts:81 | noTimeSteps = floor(tStopSim/dt) steps fit the horizon and one more would pass it |
| Line.StepTimeBeforeHorizon | typescript/tlsim.ts:147-148 | every step the loop takes starts before tStopSim and ends at or before it |
| Line.SlotAvailable | typescript/tlsim.ts:161-165 | a sample due before tStopSim always finds a free slot: the cursor is below 1000 |
| Line.SampleIfDue | typescript/tlsim.ts:161-166 | the sample check adds one sample exactly when t ≥ terminalStepsDone·tStopSim/1000, and otherwise none; the sample goes into slot `terminalStepsDone`, every earlier sample is kept, and the 1000-slot bound holds |
| Line.InitialGrid | typescript/tlsim.ts:75-87 | the state `initParameters` leaves keeps the engine invariant, with all voltages and currents 0 |
| Line.LoadUpdate | typescript/tlsim.ts:159 | `updateLoad()` on values: only node ndz changes, and a resistive load keeps the load current; the balances are `Line.StepLoadEnd` |
| Line.UpdateEnds | typescript/tlsim.ts:153-159 | the generator-end then the load-end update: the interior nodes are kept and a resistive load keeps the load current |
| Line.StepTime | typescript/tlsim.ts:148 | the time `stepsDone * dt` of step k is non-negative, and a step below noTimeSteps ends by tStopSim |
| Line.StepGridBy | typescript/tlsim.ts:148-178 | one pass of the loop body with given coefficients, in the source's order: time, generator level, both ends, the sample, both sweeps, vGenPrev, the cursor; what it computes is stated by `Line.StepGrid` and the Step lemmas |
| Line.StepGrid | typescript/tlsim.ts:147-179 | one step advances the cursor by one, records its time stepsDone·dt, remembers the generator level, samples with the new end voltages, keeps a resistive load's current, and keeps the array sizes |
| Line.StepPreservesInv | typescript/tlsim.ts:147-179 | one step keeps the invariant: sizes, times k·dt for every done step k, vGenPrev = generator((stepsDone − 1)·dt), samples in strictly increasing time order, each at or after its sample time |
| Line.StepGeneratorEnd | typescript/tlsim.ts:153-158 | a step solves the generator-end charge balance with the source levels of the previous and the current step |
| Line.StepLoadEnd | typescript/tlsim.ts:125-138 | a step solves the charge balance of the resistive or of the capacitive load |
| Line.StepInterior | typescript/tlsim.ts:169-172 | a step obeys the voltage law at every interior node |
| Line.StepCurrents | typescript/tlsim.ts:173-176 | a step obeys the current law on every segment |
| Line.Run | typescript/tlsim.ts:147-179 | the loop: steps while stepsDone < limit, keeping the array sizes and the bounds; its results are `Line.RunStepsDone`, `Line.RunResumable`, `Line.RunKeepsRecords` and `Line.RunPreservesInv` |
| Line.RunPreservesInv | typescript/tlsim.ts:147 | a run of steps keeps the invariant |
| Line.RunStepsDone | typescript/tlsim.ts:146-147 | a run ends with stepsDone = max(old stepsDone, limit): the cursor never decreases |
| Line.RunResumable | typescript/tlsim.ts:144-147 | running to l1 and then to l2 ≥ l1 equals running to l2 at once; running again to the same limit changes nothing |
| Line.StepKeepsRecords | typescript/tlsim.ts:149-166 | a step keeps every recorded time and sample and adds at most one sample |
| Line.RunKeepsRecords | typescript/tlsim.ts:147-166 | a run keeps every recorded time and sample and adds at most one sample per step |
| Line.RunFromStartSamplesAtZero | typescript/tlsim.ts:161-166 | the first step of a fresh run always takes a sample, at time 0 |
| Line.StepsLimit | typescript/tlsim.ts:145-146 | the wall-clock step limit never exceeds noTimeSteps, and below noTimeSteps it is the floor of w/tStopWall·noTimeSteps: that quotient is less than limit + 1 (the other half is `Line.StepsLimitPace`) |
| Line.StepsLimitMonotone | typescript/tlsim.ts:145-146 | the limit never decreases as the wall-clock time grows |
| Line.StepsLimitPace | typescript/tlsim.ts:145-146 | the limit is at most w/tStopWall·noTimeSteps, and is noTimeSteps once w ≥ tStopWall |
| Line.StepsLimitFinal | typescript/transmission_line_numerical.ts:233 | at tStopWall + 1 every step is allowed, also for tStopWall = 0 |
| Simulator.Defaults | typescript/tlsim.ts:14-30 | the field initialisers are valid parameters that can be stepped |
| Simulator.DefaultStepCount | typescript/tlsim.ts:23-26 | the default line steps 1.25 ps at a time and takes 80000 steps to its horizon |
| Simulator.Filled | typescript/tlsim.ts:75-76 | `Array(n).fill(0.0)` is a fresh array of n zeros |
| Simulator.TlSim.constructor | typescript/tlsim.ts:63-65 | a new engine has the default parameters and is initialised |
| Simulator.TlSim.ResetState | typescript/tlsim.ts:75-87 | the reset part of `initParameters`: the grid and the records become `Line.InitialGrid` of the parameters, on fresh arrays |
| Simulator.TlSim.ResetGrid | typescript/tlsim.ts:75-79 | fresh zero voltage and current arrays of sizes ndz + 1 and ndz, no load current, vGenPrev the generator level at time 0, no step done |
| Simulator.TlSim.InitParameters | typescript/tlsim.ts:67-91 | the helper fields become those derived from the inputs, and the grid and records become the initial state, on fresh arrays |
| Simulator.TlSim.StartSimulation | typescript/tlsim.ts:93-102 | always reinitialises; returns false exactly when Z0 = 0, logging the error, and otherwise logs the start |
| Simulator.TlSim.SetGeneratorIsSine | typescript/tlsim.ts:121-123 | selects the sine or the step generator and changes nothing else |
| Simulator.TlSim.SetLoadIsR | typescript/tlsim.ts:140-142 | selects the resistive or the capacitive load update and changes nothing else |
| Simulator.TlSim.UpdateGeneratorEnd | typescript/tlsim.ts:155-158 | changes only voltages[0], to the value that solves the generator-end charge balance |
| Simulator.TlSim.UpdateLoadR | typescript/tlsim.ts:125-130 | changes only voltages[ndz], to the value that solves the resistive-load balance |
| Simulator.TlSim.UpdateLoadC | typescript/tlsim.ts:132-138 | changes only voltages[ndz] and currentLoad; the new load current is Cl/dt times the voltage change and the capacitive-load balance holds |
| Simulator.TlSim.UpdateLoad | typescript/tlsim.ts:159 | the chosen load update, as `Line.LoadUpdate` states it; the currents are unchanged |
| Simulator.TlSim.SampleTerminals | typescript/tlsim.ts:161-166 | the sampler becomes `Line.SampleIfDue` of the old sampler, the step time and the two end voltages |
| Simulator.TlSim.SweepVoltages | typescript/tlsim.ts:169-172 | the loop over the interior nodes leaves the voltages `Boundary.InteriorSweep` states and the currents unchanged |
| Simulator.TlSim.SweepCurrents | typescript/tlsim.ts:173-176 | the loop over the segments leaves the currents `Boundary.CurrentSweep` states, from the new voltages, and the voltages unchanged |
| Simulator.TlSim.StepEnds | typescript/tlsim.ts:148-166 | records the step time, applies both end updates as `Line.UpdateEnds` states them, and samples with the new end voltages |
| Simulator.TlSim.SweepLine | typescript/tlsim.ts:168-176 | the two sweeps with the factors dt/(dz·cUnit) and dt/(dz·lUnit) |
| Simulator.TlSim.FinishStep | typescript/tlsim.ts:178 | remembers the generator level and advances the cursor, leaving the grid alone |
| Simulator.TlSim.SimulateStep | typescript/tlsim.ts:148-178 | one pass of the loop body turns the state into `Line.StepGridBy` of the old state |
| Simulator.TlSim.ValidStep | typescript/tlsim.ts:147-179 | one pass on a valid engine is `Line.StepGrid` of the old state and keeps it valid |
| Simulator.TlSim.UpdateSimulation | typescript/tlsim.ts:144-180 | ends in `Line.Run` of the old state to the wall-clock limit, keeping the engine valid and its parameters unchanged |
| Controls.IsPositive | typescript/transmission_line_numerical.ts:275 | the `isPositive` test: a number that is at least 0 |
| Controls.ParamsBroken | typescript/transmission_line_numerical.ts:274-279 | `paramsBroken`: not every one of the eleven entries is a non-negative number, or ndz < 1, or length ≤ 0; its per-field reading is `Controls.ParamsBrokenIff` |
| Controls.ParamsBrokenIff | typescript/transmission_line_numerical.ts:274-279 | the form is broken exactly when some entry is not a non-negative number, ndz < 1, or the length is not positive |
| Controls.ModelParams | typescript/transmission_line_numerical.ts:317-329 | an accepted form, scaled to SI units, gives valid engine parameters; they can be stepped exactly when Z0 > 0 and a sine generator has a positive period |
| Controls.DefaultFormSteps | typescript/transmission_line_numerical.ts:248-260 | the page's default form is accepted and gives a 125 ps step and 800 steps |
| Controls.Shown | typescript/transmission_line_numerical.ts:333-339 | the read-outs: delay and step finite exactly when v > 0, the step count and reflection coefficients mirrored, the delay equal to ndz steps, and all steps within the horizon |
| Controls.Unavailable | typescript/transmission_line_numerical.ts:306-313 | the seven read-outs of a broken form, all NaN |
| Controls.App.constructor | typescript/transmission_line_numerical.ts:247-270 | the component's initial data: the default form, read-outs 0 and −2, no animation |
| Controls.App.UpdateParameters | typescript/transmission_line_numerical.ts:300-340 | stops a running animation with a log message; a broken form gives all-NaN read-outs and leaves the engine untouched; an accepted form is copied into the engine, which is reinitialised and valid, and the read-outs are `Shown` |
| Controls.App.ShowFinal | typescript/transmission_line_numerical.ts:223-240 | clears the log; refuses while an animation runs, leaving the engine alone; otherwise restarts the engine and, when it can be stepped, runs it to stepsDone = noTimeSteps; when it cannot, the engine stays at its initial state (see "Left out") |
| Controls.App.RunToEnd | typescript/transmission_line_numerical.ts:231-233 | `startSimulation` then `updateSimulation(tStopWall + 1)`: for parameters that can be stepped the engine ends in the full run from its initial state; otherwise the call is skipped (see "Left out") |

## Left out

- IEEE-754 rounding: all quantities are exact reals, so no result here speaks
  about rounding error. NaN and the infinities appear only where a zero
  parameter produces them (`Num.NonFinite`).
- Controls.Entry: a form entry that is `Infinity` is not modelled; it passes
  `paramsBroken` in the source.
- Controls.App.UpdateParameters, Controls.ModelParams: an accepted form must
  have a whole `ndz`. With a fractional `ndz` the source's `Array(ndz + 1)`
  throws a RangeError in `initParameters`, and the model does not represent the
  exception. A broken form with a fractional `ndz` is handled as in the source.
- Line.StepGrid, Line.Run, Simulator.TlSim.UpdateSimulation: stepping requires
  `Runnable` (Z0 > 0, and a positive period for the sine generator). With
  Z0 = 0, or a sine of period 0, the source's steps compute with Infinity and
  NaN, and real-valued voltages cannot hold those.
- Controls.App.ShowFinal, Controls.App.RunToEnd: for parameters that cannot be
  stepped the model skips `updateSimulation`, and the engine stays at its
  initial state with stepsDone = 0. The source's call still runs its loop. It
  advances stepsDone to noTimeSteps, records timeSteps[k] = k·dt, and advances
  terminalStepsDone with finite sample times. Only the voltages, the currents
  and the sampled voltages become NaN.
- Simulator.TlSim.SetGeneratorIsSine, Simulator.TlSim.SetLoadIsR: neither
  setter preserves `Valid()` in general, and their contracts do not promise it.
  Switching the generator changes what `vGenPrev` must equal. Switching a
  capacitive load to a resistive one leaves a load current that may be
  non-zero. The page always reinitialises after setting them, as
  `updateParameters` does.
- Waveform.GeneratorSine: `generator_sine` passes 2π·t/tPeriod to the host's
  `Math.sin`, which is a function parameter here, so nothing about its values
  is proved beyond finiteness (stated by `Line.Generate`).
- Simulator.TlSim: the input fields, the helper fields and the terminal sampler
  are grouped into the values `params`, `helpers` and `terminal`. These are
  replaced as a whole where the source assigns their fields one at a time.
  `timeSteps` and the sample buffers are sequences, so their aliasing is not
  modelled.
- Simulator.TlSim.SimulateStep: the loop body is split into helper methods
  (`StepEnds`, `SweepLine`, `FinishStep`) that run the same statements in the
  same order.
- Unset slots of `Array(n)` (the step times and the sample buffers) read as
  `undefined` in the source; they are 0 here.
- `Math.PI` is the decimal 3.141592653589793, and `Math.sin` is a function
  parameter, so nothing is proved about the sine's values.
- The wall clock (`performance.now`, `requestAnimationFrame`) is a parameter
  of `UpdateSimulation`. The animation loop `uiAnimationStep`, the frame-rate
  messages and the elapsed-time message of `uiShowFinal` are not part of this
  model.
- Chart.js, Vue and DOM glue are not part of this model: `uiInitChart`, the
  chart updates, `roundX`, the watchers, the log's HTML, and `mounted`.
  `mounted` runs `updateParameters` on the default form, which
  `Controls.DefaultFormSteps` describes. `uiUpdateTerminalsChart` reads one slot
  past the cursor; that is a chart concern and not engine behaviour.
- The engine's `log` callback is recorded as the ghost sequence `logged`.
  `uiResetLog` empties it.
