# Gate actuator controller and relocation planner, modelled in Dafny

This project models two programs from one repository.

**The gate controller (`srv.py`).** It simulates a motorised gate. A `GateSystem`
object holds:

- the gate's position and its limit switches (two for opening, two for closing);
- two obstacle sensors and a strain gauge (the stress in kgf/mm²);
- the operator's open and close buttons (KO, KZ);
- an 8-bit ADC and an 8-bit DAC;
- a `Ramp` that moves the DAC code linearly to a target over 12 s (acceleration) or 5 s
  (deceleration);
- two 16-bit I/O ports, 300h and 301h.

Every 0.25 s a decision step runs while the gate is opening or closing. In priority order:

1. An obstacle, or stress at or above 95, latches an emergency stop.
2. Stress at or above 70 enters a 30 % slow mode.
3. Stress below 55 leaves that slow mode again (hysteresis).
4. The second limit switch of the travel direction stops the drive.
5. The first limit switch decelerates the drive to 50 %, once.

Each frame, `update(dt)` does the following, in order:

1. clears the port pulses;
2. advances the ramp;
3. moves the gate at a speed proportional to the DAC voltage;
4. refreshes the limit switches;
5. runs one decision step per elapsed sample period;
6. winds a finished gate down to idle;
7. packs the ports.

**The relocation planner (`last/app.py`, and its earlier version `app.py`).** From a
catalogue of services and tasks, the planner:

- detects whether the move is international;
- picks the applicable services and estimates their cost, together with the
  employee's out-of-pocket share;
- picks the applicable tasks;
- orders them topologically;
- builds a schedule. The current version uses critical-path earliest start and finish
  days, plus buffer days that depend on the number of items, the fragile items and the
  move type. The earlier version chains the tasks one after another and adds a 10 % buffer.

## How the model is built

- **Gate state.** `GateSystem` and `Ramp` are Dafny classes whose methods update their
  fields in place. Each method is proved against a pure function in `GateSpec` or
  `RampCtl`: `View() == GateSpec.X(old(View()))`.
- **Gate properties.** The controller's promises are lemmas about those functions
  (`GateProperties`). So is the object invariant that every operation keeps
  (`GateInvariant`).
- **Where the invariant is required.** The operations called from outside the object
  (`__init__`, `reset_sensors`, `press_open`, `press_close`, `update`) require the
  invariant and keep it. The helpers that `update` and the decision step call
  (`start_ramp`, `update_limits_from_position`, `emergency_stop`,
  `normal_stop_to_zero`, `control_step`) run while the object is between two valid
  states: the position has moved but the switches are not yet refreshed, slow mode
  is already on before its ramp starts, or the sample accumulator still holds more
  than one period. They therefore promise only that a valid state stays valid.
- **Planner loops.** Each loop of the planner is a method with loop invariants, proved
  against a specification function (`Filter`, `Pass`, `Plan`, `Rows`). The two
  topological sorts are Kahn's algorithm over maps, with a sorted queue (current
  version) and a FIFO queue (earlier version). Each is proved to return a permutation of
  its input. The order is topological exactly when the dependency graph has no cycle.
- **Numbers and text.**
  - Python's `round` is exact round-half-to-even on reals (`Quantizer.PyRound`).
  - `Decimal.quantize(Decimal("0.01"))` is half-to-even rounding to cents
    (`Money.Quantize`).
  - Dates are day numbers.
  - A Python dict passed as input is the sequence of its values in insertion order.

## Model

| member | source | states |
|---|---|---|
| Quantizer.PyRound | srv.py:19-21 | Python `round`: the nearest integer, ties to the even one |
| Quantizer.PyRoundUnique | srv.py:19-21 | the nearest-integer, ties-to-even conditions determine `round`'s result uniquely |
| Quantizer.PyRoundMonotone | srv.py:67 | `round` is monotone |
| Quantizer.CodeLevels | srv.py:15-22 | the DAC codes of 116 V, 58 V and 34.8 V are `round` of their scaled voltages, and 0 < slow < half < nominal ≤ 255 |
| Quantizer.Clamp | srv.py:58-59 | `clamp` returns a value in [lo, hi]: x itself inside, the violated bound outside |
| Quantizer.ClampInt | srv.py:164 | `int(clamp(...))` of an integer code: in [lo, hi], the code itself inside, the violated bound outside |
| Quantizer.TensoToVoltage | srv.py:61-62 | stresses in [0, 120] map into [0, 15] V, and 120 maps to 15 V |
| Quantizer.TensoToVoltageMonotone | srv.py:61-62 | a larger stress never gives a smaller gauge voltage |
| Quantizer.AdcCodeFromVoltage | srv.py:64-67 | the ADC code lies in [0, 255]: 0 at or below 0 V, 255 at or above 19.5 V |
| Quantizer.AdcCodeMonotone | srv.py:64-67 | a larger voltage never gives a smaller ADC code |
| Quantizer.DacVoltageFromCode | srv.py:69-70 | codes in [0, 255] give voltages in [0, 120]: 0 gives 0 V, 255 gives 120 V |
| Quantizer.DacVoltageMonotone | srv.py:69-70 | a larger code never gives a smaller voltage |
| RampCtl.NewRamp | srv.py:77-82 | a new ramp is inactive and well formed |
| RampCtl.Started | srv.py:84-89 | a started ramp is active at t = 0 from the current code to the target, with its duration at least 1e-6 and equal to the given one above that |
| RampCtl.Progress | srv.py:95 | the fraction of the ramp lies in [0, 1], and it reaches 1 exactly when the elapsed time reaches the duration |
| RampCtl.ProgressMonotone | srv.py:95 | the ramp fraction never decreases with time |
| RampCtl.RampCodeBetween | srv.py:96 | the interpolated code lies between the start and end codes: the start code at fraction 0, the end code at fraction 1 |
| RampCtl.RampCodeMonotone | srv.py:96 | an upward ramp's code never decreases as the fraction grows |
| RampCtl.RampCodeAntitone | srv.py:96 | a downward ramp's code never increases as the fraction grows |
| RampCtl.Step | srv.py:91-100 | an inactive ramp returns its end code, not done. An active one reports done exactly when its time reaches the duration; it then returns the end code and deactivates. Every code lies between the start and end codes |
| RampCtl.CompletionReportedOnce | srv.py:91-100 | over any run of non-negative frame times, `done` is reported exactly once if the ramp was active and the total time reaches its duration, and never otherwise |
| RampCtl.Ramp.constructor | srv.py:77-82 | the object starts as the inactive ramp |
| RampCtl.Ramp.Start | srv.py:84-89 | the object's new state is the started ramp |
| RampCtl.Ramp.Update | srv.py:91-100 | the returned code and flag, and the new state, are one ramp step of the old state |
| GateSpec.PowerOn | srv.py:104-135 | power-on state: idle, closed (both close switches on, open switches off), position 0, satisfying the object invariant |
| GateSpec.NominalTargetCode | srv.py:171-177 | zero exactly when not moving; half speed exactly when the first limit switch of the travel direction is on; otherwise nominal |
| GateSpec.StartRamp | srv.py:163-169 | the target becomes the clamped code and a ramp is running; mode, direction, slow mode and the environment are unchanged; when that target is already being ramped to, the ramp and the DAC pulse are untouched, otherwise a fresh ramp starts from the present DAC code and the DAC pulse is set |
| GateSpec.UpdateLimits | srv.py:179-185 | afterwards the four limit switches match the position thresholds |
| GateSpec.EmergencyStop | srv.py:208-214 | latched STOPPED, no direction, no slow mode, ramping to zero |
| GateSpec.NormalStopToZero | srv.py:216-220 | the mode is kept; no direction, no slow mode, ramping to zero |
| GateSpec.StressAdcCode | srv.py:227-228 | the code `control_step` returns lies in [0, 255] |
| GateSpec.ControlStep | srv.py:222-283 | sets both sampling pulses and leaves the plant, the sensors and the buttons alone |
| GateSpec.Decide | srv.py:233-281 | the rules in motion only ever keep the mode or stop |
| GateSpec.EnterSlowMode | srv.py:245-251 | slow mode is on, ramping to the 30 % code; mode and direction are kept |
| GateSpec.LeaveSlowMode | srv.py:254-259 | slow mode is off, ramping back to the nominal code of the position; mode and direction are kept |
| GateSpec.LimitRules | srv.py:262-281 | the limit-switch rules keep the mode and never turn slow mode on |
| GateSpec.SpeedFraction | srv.py:300-301 | the speed fraction lies in [0, 1.2] |
| GateSpec.AdvanceRamp | srv.py:291-294 | a running ramp takes one `update(dt)` step and its code becomes the DAC code; with no ramp the DAC code becomes the target; mode, direction and position are unchanged |
| GateSpec.Integrate | srv.py:297-304 | a moving gate's new position lies in [0, 1]; otherwise the position is unchanged |
| GateSpec.Travel | srv.py:302-304 | the travelled position is clamped to [0, 1] |
| GateSpec.Move | srv.py:297-307 | moving keeps the mode |
| GateSpec.Drain | srv.py:310-314 | after the sampling loop, less than one sample period is left in the accumulator |
| GateSpec.Settle | srv.py:316-326 | keeps position, direction, target and whether the gate is STOPPED; outside STOPPED the result is IDLE exactly when the gate was IDLE or has no direction, a zero target and no ramp, and otherwise mode and buttons are kept; once the target is zero with no ramp, and the gate has no direction or is STOPPED, both buttons are released |
| GateSpec.EncodeOutputPort | srv.py:201-206 | bits 8-13 of port 301h are always zero |
| Gate.GateSystem.constructor | srv.py:104-135 | the object starts in the power-on state and satisfies its invariant |
| Gate.GateSystem.ResetSensors | srv.py:137-141 | the new state is `GateSpec.ResetSensors` of the old one; the object invariant is kept |
| Gate.GateSystem.PressOpen | srv.py:143-151 | the new state is `GateSpec.PressOpen` of the old one; the object invariant is kept |
| Gate.GateSystem.PressClose | srv.py:153-161 | the new state is `GateSpec.PressClose` of the old one; the object invariant is kept |
| Gate.GateSystem.StartRamp | srv.py:163-169 | the new state is `GateSpec.StartRamp` of the old one; from a valid state outside IDLE, towards the slow code when in slow mode, the invariant is kept |
| Gate.GateSystem.NominalTargetCode | srv.py:171-177 | returns `GateSpec.NominalTargetCode` of the state, changing nothing |
| Gate.GateSystem.UpdateLimitsFromPosition | srv.py:179-185 | the new state is `GateSpec.UpdateLimits` of the old one; a valid state stays valid |
| Gate.GateSystem.BuildPort300 | srv.py:187-199 | returns the encoding of the input-port fields of the state |
| Gate.GateSystem.BuildPort301 | srv.py:201-206 | returns the encoding of the output-port fields of the state |
| Gate.GateSystem.EmergencyStop | srv.py:208-214 | the new state is `GateSpec.EmergencyStop` of the old one; a valid state stays valid |
| Gate.GateSystem.NormalStopToZero | srv.py:216-220 | the new state is `GateSpec.NormalStopToZero` of the old one; a valid moving state stays valid |
| Gate.GateSystem.ControlStep | srv.py:222-283 | the new state is `GateSpec.ControlStep` of the old one, and it returns the ADC code of the old stress; a valid state stays valid |
| Gate.GateSystem.Update | srv.py:285-333 | the new state is `GateSpec.Update` of the old one and keeps the object invariant; the six returned values are those of `GateSpec.UpdateOutput` |
| GateInvariant.ResetSensorsKeepsInv | srv.py:137-141 | resetting the sensors keeps the object invariant |
| GateInvariant.PressOpenKeepsInv | srv.py:143-151 | pressing open keeps the object invariant |
| GateInvariant.PressCloseKeepsInv | srv.py:153-161 | pressing close keeps the object invariant |
| GateInvariant.StartRampKeepsConsistent | srv.py:163-169 | starting a ramp outside IDLE keeps the invariant (direction agrees with the mode, position in [0, 1], limit switches match it, codes in range, the ramp ends at the target) |
| GateInvariant.EmergencyStopKeepsConsistent | srv.py:208-214 | an emergency stop keeps the invariant |
| GateInvariant.NormalStopKeepsConsistent | srv.py:216-220 | a normal stop in motion keeps the invariant |
| GateInvariant.ControlStepKeepsConsistent | srv.py:222-283 | the decision step keeps the invariant |
| GateInvariant.MoveKeepsConsistent | srv.py:297-307 | moving the gate and refreshing the switches keeps the invariant |
| GateInvariant.AdvanceKeepsConsistent | srv.py:287-294 | clearing the pulses and advancing the ramp keeps the invariant |
| GateInvariant.DrainKeepsInv | srv.py:310-314 | the sampling loop restores the bound on the sample accumulator |
| GateInvariant.SettleKeepsInv | srv.py:316-326 | winding down keeps the object invariant |
| GateInvariant.UpdateKeepsInv | srv.py:285-333 | a whole frame with dt ≥ 0 keeps the object invariant |
| GateProperties.ObstacleStops | srv.py:235-237 | an obstacle in motion latches STOPPED with no direction and no slow mode |
| GateProperties.OverstressStops | srv.py:240-242 | with no obstacle in motion, the step stops exactly when stress ≥ 95, and then it ramps to zero |
| GateProperties.NoEmergencyKeepsMode | srv.py:233-281 | with no obstacle and stress below 95, the decision keeps the mode |
| GateProperties.SlowModeEntry | srv.py:245-251 | stress in [70, 95) switches slow mode on, ramping to the 30 % code the first time and changing nothing more once in slow mode |
| GateProperties.SlowModeExit | srv.py:254-259 | in slow mode, stress below 55 turns slow mode off and starts a ramp |
| GateProperties.SlowModeHysteresis | srv.py:244-259 | in slow mode, stress in [55, 70) changes nothing but the pulses |
| GateProperties.HysteresisScenario | srv.py:244-259 | opening at stress 72 and then 60 stays in slow mode |
| GateProperties.SecondLimitStops | srv.py:262-265 | the second limit switch of the direction drops the direction and ramps to zero |
| GateProperties.FirstLimitDeceleratesOnce | srv.py:266-271 | the first limit switch, above half speed and not in slow mode, ramps to the half code |
| GateProperties.SlowModeIgnoresFirstLimit | srv.py:250-271 | in slow mode the first limit switch changes nothing but the pulses |
| GateProperties.RestOnlyPulses | srv.py:232-233 | at rest the step only sets the pulses |
| GateProperties.ControlStepSettles | srv.py:222-283 | three decision steps in a row with no new input end where two do |
| GateProperties.PressOpenWhileMoving | srv.py:143-146 | while moving, pressing open only latches the buttons |
| GateProperties.PressOpenFromRest | srv.py:146-151 | from IDLE or STOPPED, pressing open starts OPENING in direction +1 with KO latched |
| GateProperties.PressCloseFromRest | srv.py:156-161 | from IDLE or STOPPED, pressing close starts CLOSING in direction −1 with KZ latched |
| GateProperties.PressCloseWhileMoving | srv.py:153-156 | while moving, pressing close only latches the buttons |
| GateProperties.StartRampIdempotent | srv.py:165-166 | starting the same running target again changes nothing |
| GateProperties.StoppedIsLatched | srv.py:316-326 | a frame never leaves STOPPED |
| GateProperties.DrainKeepsRest | srv.py:310-314 | at rest, the sampling loop keeps the mode |
| GateProperties.IdleStaysIdle | srv.py:316-321 | a frame never leaves IDLE |
| GateProperties.IdlePromotion | srv.py:316-326 | after the ramp step and the sampling loop of a frame, a gate outside STOPPED ends IDLE exactly when it was IDLE or has no direction, a zero target and no ramp; once the target is zero with no ramp, and the gate has no direction or is STOPPED, the frame releases both buttons |
| GateProperties.RestingGateStays | srv.py:298 | a frame never moves a gate that is at rest |
| GateProperties.MotionFollowsDirection | srv.py:298-304 | opening never lowers the position, and closing never raises it |
| GateProperties.InputPortRoundTrip | srv.py:187-199 | decoding port 300h gives back the packed fields |
| GateProperties.InputPortDecodeEncode | srv.py:187-199 | every 16-bit word is the packing of its decoded fields |
| GateProperties.OutputPortRoundTrip | srv.py:201-206 | decoding port 301h gives back the packed fields |
| GateProperties.OutputPortDecodeEncode | srv.py:201-206 | a word is the packing of its decoded fields exactly when bits 8-13 are clear |
| Money.Quantize | last/app.py:187 | rounding to cents gives a whole number of cents within half a cent |
| Money.QuantizeCents | last/app.py:191 | rounding an amount already in cents leaves it alone |
| Money.QuantizeMonotone | last/app.py:191 | rounding to cents is monotone |
| Text.Lower | app.py:165 | `str.lower` keeps the length and lowers each character |
| Text.LowerIdempotent | app.py:165 | lowering twice is lowering once |
| Text.ContainsIffOccurs | app.py:167 | the substring test holds exactly when the pattern occurs at some index |
| LastApp.DetectMoveType | last/app.py:151-152 | the move is INTERNATIONAL exactly when the destination country is not RU, and DOMESTIC_RU otherwise |
| LastApp.SelectServices | last/app.py:169-178 | the picked services are exactly the applicable ones (type ANY or the move's type, condition ANY, or "international" for an international move), in catalogue order |
| LastApp.SelectTasks | last/app.py:193-206 | the picked tasks are exactly the applicable ones under the four conditions, in catalogue order |
| LastApp.TaskConditions | last/app.py:193-206 | a picked task has an applicable type, and its condition is one of the four known ones and holds for the inputs |
| LastApp.EstimateCost | last/app.py:180-191 | the total is the sum of the per-service costs rounded to cents; the out-of-pocket amount is the total times 0.30 or 1.00, rounded; the breakdown maps names to the rounded costs |
| LastApp.TotalIsSum | last/app.py:187-191 | the sum of cent amounts is already in cents, so the final rounding of the total does not change it |
| LastApp.OutOfPocketBounds | last/app.py:190-191 | the out-of-pocket amount lies in [0, total], and equals the total when the employer does not cover |
| LastApp.BreakdownEntries | last/app.py:188 | each service whose name is not repeated later has its own rounded cost in the breakdown |
| LastApp.BreakdownNames | last/app.py:188 | every breakdown key is the name of some service |
| LastApp.CeilDecimal | last/app.py:232-234 | the corrected ceiling: the least integer not below d |
| LastApp.CeilDecimalAgrees | last/app.py:232-234 | for d ≥ 0 the code as written is the ceiling |
| LastApp.CeilDecimalAsWrittenOvershoots | last/app.py:232-234 | the code as written gives 1 for −0.5, whose ceiling is 0 |
| LastApp.CeilingMaskedByClamp | last/app.py:242 | after `max(1, ·)` the written and the corrected ceilings agree on every input |
| LastApp.TaskDurationDays | last/app.py:236-242 | the duration is the least whole number of days that is at least 1 and covers the raw day count |
| LastApp.BufferMonotone | last/app.py:259-276 | the buffer grows with the items and the fragile items, lies in [2, 20], and is at least 10 for an international move |
| LastSchedule.LatestFinish | last/app.py:250-251 | the earliest start is defined exactly when every dependency has a finish day; it bounds them all, is attained by one, and is 0 without dependencies |
| LastSchedule.TimeTasks | last/app.py:249-256 | the first loop yields the start, finish and duration maps of the specification pass |
| LastSchedule.StepFacts | last/app.py:250-256 | one iteration gets through exactly when every dependency of the task in the list is already timed (otherwise `KeyError`); it adds exactly that task and keeps finish = start + duration, duration ≥ 1, start ≥ 0 |
| LastSchedule.PassSomeIff | last/app.py:249-256 | the loop completes without `KeyError` exactly when every present dependency of each task comes earlier in the order |
| LastSchedule.Precedence | last/app.py:250-254 | every task starts no earlier than each present dependency finishes, at day 0 without such dependencies, and otherwise exactly when its latest dependency finishes |
| LastSchedule.SortBy | last/app.py:281 | `sorted` by a key returns a permutation that is ordered by the key |
| LastSchedule.SortByStable | last/app.py:281 | `sorted` is stable: the tasks with equal keys keep their relative order |
| LastSchedule.PlanRows | last/app.py:280-290 | the plan loop produces one row per ordered task, from its start and finish days |
| LastSchedule.BuildScheduleCP | last/app.py:244-292 | returns the specified schedule, and is defined (no `KeyError`) exactly when the order is topological among the given tasks |
| LastSchedule.ScheduleBounds | last/app.py:257-278 | the project takes 0 days exactly when there are no tasks; the move date is start + project days + buffer; every row lies within the project and ends before the move date; some row ends on its last day |
| LastSchedule.ProjectDays | last/app.py:257 | the project length is the latest finish of all tasks, 0 without tasks |
| LastSchedule.PlanOrder | last/app.py:280-290 | the plan lists every task once, in order of start day, with ties kept in topological order |
| LastSchedule.PlanSchedule | last/app.py:348-352 | sorting the picked tasks and then building the schedule succeeds exactly when their dependencies have no cycle |
| TaskGraph.BuildGraph | last/app.py:209-216 | the in-degree of each task counts its dependencies among the tasks; each adjacency list holds the tasks depending on it |
| TopoSort.TopoSortSorted | last/app.py:208-230 | returns a permutation: a topological prefix, then the tasks left over, in input order. It is fully topological exactly when there is no cycle. Whenever a task ready earlier is placed later, its key is not smaller |
| TopoSort.TopoSortFifo | app.py:201-227 | the same with a FIFO queue: a permutation with a topological prefix, fully topological exactly without a cycle, and the roots come first in input order |
| Dicts.Put | app.py:169-171 | a dict assignment updates the entry; a new key goes to the end of the insertion order, an existing one keeps its place |
| Dicts.Values | app.py:172 | `values()` lists the entries in insertion order |
| FirstPlanner.SelectServices | app.py:162-172 | returns the deduplicated candidates. Their IRIs are distinct; each is a wanted service of the catalogue; every wanted service has its IRI among them |
| FirstPlanner.SelectServicesOfCatalogue | app.py:162-172 | for a catalogue with distinct IRIs, the result is exactly the wanted services in catalogue order |
| FirstPlanner.EstimateCost | app.py:175-184 | total and out-of-pocket are the exact sum of the costs, and its 30 % or 100 % share, rounded to cents |
| FirstPlanner.RawTotalNonNegative | app.py:176-181 | non-negative prices and item counts give a non-negative total |
| FirstPlanner.EstimateBounds | app.py:183-184 | the rounded out-of-pocket amount lies between 0 and the rounded total, and equals it without employer cover |
| FirstPlanner.SelectTasks | app.py:187-198 | the picked tasks are exactly the applicable ones under the three conditions, in catalogue order |
| FirstPlanner.TaskConditions | app.py:187-198 | a picked task has an applicable type, and its condition is one of three and holds |
| FirstPlanner.BuildSchedule | app.py:230-246 | the rows and the move date are the specified chained schedule plus the buffer |
| FirstPlanner.ScheduleContiguous | app.py:233-241 | each row lasts its task's days (at least 1), and starts where the previous row ends |
| FirstPlanner.BufferBounds | app.py:243-244 | the buffer is at least 1 day, exactly 1 day up to 4 days of work, grows with the total, and from 5 days on is within half a day of 10 % |
| FirstPlanner.DependenciesFirst | app.py:230-241 | in a topological order each present dependency has a row that ends before the dependent row starts |
| FirstPlanner.PlanTasks | app.py:313-316 | the plan lists each picked task once; every row ends before the move date; without a cycle each dependency's row ends before its dependents start |

## Left out

- **Outside the core.** These parts are not part of this model:
  - the pygame drawing code and `main` of `srv.py`;
  - the Flask routes, templates and form parsing (`parse_items_from_form`);
  - loading the catalogue from RDF, and the fallback data;
  - `app_move_plan.py`.
- **Inputs as parameters.** The sensor inputs and the frame time come in as parameters.
- **The log callback** of `GateSystem` is omitted. It only records messages.
- **Ports.** `build_port300` and `build_port301` return 16-bit words. The ADC/DAC code
  enters as its residue modulo 256, which is what `& 0xFF` gives on a Python integer.
- **Floating point.** Every float and `Decimal` is an exact real.
  - `round` is exact half-to-even. With exact arithmetic, 116/120·255 = 246.5 rounds
    to the even `CODE_NOM` = 246.
- **Catalogue keys.**
  - `topo_sort` and the route methods require the task IRIs to be distinct, as a
    dict's values always are. `build_schedule_cp` takes any list; its `by_iri` dict
    keeps the last task of each IRI.
- **Errors as values.** `build_schedule_cp` raises `KeyError` when a dependency among the
  tasks comes later in the order. This is modelled as a `None` result.
- **Dates.** Dates are integer day numbers, so date overflow is not modelled.
- **Lower-casing.** `str.lower` is modelled for ASCII and the basic Cyrillic letters only.
  The service names of the catalogue use no other letters.
- **The route's budget figures** are left out: the recommended budget (out-of-pocket
  times 1.15), the difference from the desired budget, and the reserve and feasibility
  figures. Each is one multiplication or subtraction of already modelled amounts,
  followed by a rounding to cents.
- FirstPlanner.BufferBounds: `round(total_days * 0.10)` is taken on the exact product.
  The contract bounds the buffer within half a day of 10 % from 5 days on. It does
  not pin down which way the binary product rounds at exact halves.
- FirstPlanner.SelectServicesOfCatalogue: assumes distinct service IRIs. With repeated
  IRIs only FirstPlanner.SelectServices's membership contract applies.
- GateSpec.ControlStep: its own contract states only the frame; the rules it applies
  are stated by the lemmas in `GateProperties`.
- GateSpec.Decide: likewise, its own contract states only that it keeps the mode or
  stops.
- GateSpec.LimitRules: likewise, its own contract states only what it preserves.
- GateSpec.Move: its own contract states only that it keeps the mode. The kinematics
  are stated by GateSpec.Integrate and GateProperties.MotionFollowsDirection.

## Findings

| source | as written | input that shows it | evidently intended | confidence | as-written member | corrected member |
|---|---|---|---|---|---|---|
| last/app.py:232-234 | `int(d)` truncates toward zero, and 1 is added when d is not whole, so a negative non-integer rounds up one too far | d = −0.5 gives 1, but its ceiling is 0 | the least integer not below d. `task_duration_days` clamps with `max(1, ·)`, so its results do not change | not executed | LastApp.CeilDecimalAsWrittenOvershoots | LastApp.CeilDecimal |
