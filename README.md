# Engine simulator core, modelled in Dafny

The repository is a toy engine visualiser. Each frame it reads the keyboard,
advances an `Engine` object and redraws the engine. The `Engine` class exists
in two variants:

- `Engine-Simulator-main/Engine.py`, the main variant (module `MainEngine`).
  Its throttle response is cubic and peak torque is at 5000 rpm. Above
  1000 rpm a round-robin scheduler opens the intake and exhaust valves of one
  cylinder at a time. It also has a thermal sub-model, `temperature()`.
- `Engine.py`, the root variant (module `RootEngine`). Its throttle response
  is squared and peak torque is at 3000 rpm. Its single valve list latches
  open and closed on events of a tick counter whenever rpm > 0.

Both variants compute the throttle clamp, the target RPM, the 10% lag step,
the piecewise-linear torque curve and the power formula with the same code.
The module `EngineDynamics` (`dynamics.dfy`) defines these once and the two
classes use them with their own constants. The module `Arithmetic`
(`arithmetic.dfy`) holds facts about floor division and remainder that both
valve schedulers need.

Each `Engine` is a Dafny `class`:

- the configuration is `const` fields, set by the constructor or fixed, as in
  the source;
- rpm, torque, power, the running flag, the valve timer and (main variant)
  temperature and cooling rate are `var` fields;
- the per-cylinder valve lists are `bool` arrays that the valve loop rewrites
  in place.

`Valid()` is each class's invariant. Every method keeps it, and its
`ensures` tie the new state to the pure functions of the module. Those
functions carry the lemmas.

What the proofs establish:

- **Run/stop.** `start` and `stop` do nothing when repeated. A stopped engine
  always has rpm 0. `stop` keeps torque and power as they were.
- **RPM.** When idle <= max power, the target RPM lies in [idle, max power]
  for every throttle, and it does not decrease as the throttle grows. Each
  step moves rpm 10% of the way to the target. So, when idle <= max power, a
  running engine's rpm never leaves [idle, max power]. With the throttle
  released the gap to idle shrinks to 0.9^k after k steps. The constructor
  accepts an idle RPM above max power; then the zero-throttle target is idle
  itself and the band claims do not apply.
- **Torque.** Torque is 0 below idle, and 0 above max power when the peak
  lies below max power (as in both variants). When 0 <= idle <= peak, the
  torque between idle and max power lies in [0, max torque]. Ramp and decay
  meet at exactly max torque at the peak. Power is non-negative whenever
  torque and rpm are.
- **Round-robin valves (main).** The valve timer ticks exactly when the new
  rpm is above 1000. Then exactly one intake valve is open (none with no
  cylinders), at
  `(valve_timer // (valve_duration // cylinders)) % cylinders`, and the
  exhaust list equals the intake list. The open cylinder moves forward by at
  most one per tick, and by exactly one every `valve_duration // cylinders`
  ticks.
- **Latch valves (root).** The timer ticks exactly when the new rpm is
  positive. Whatever state the valves were in, the first `cylinders` ticks of
  each period leave valve i open exactly when `i + cylinders // 2 >= cylinders`,
  and the rest of the period keeps that.
- **Thermal (main).** The cooling rate stays positive and the temperature
  never exceeds the maximum. The only rise in temperature is the snap to
  80 degrees inside 799 < rpm < 2000. So from the constructor's 30 degrees
  the temperature never goes above 80, and the overheating warning (maximum
  120) can never fire. Cooling has no lower clamp and can take the
  temperature below 30.

The source raises `ZeroDivisionError` when the valve index divides by zero.
The model returns this as an `Outcome` of `ZeroDivision`, with the state the
source leaves behind at that point. This happens in the main variant with
more than 30 cylinders (`30 // cylinders == 0`) and in the root variant with
one cylinder (`30 * (1 // 2) == 0`). In both, rpm, torque, power and the
valve timer are already updated and no valve entry has been written. In the
main variant `temperature()` is not reached.

The model follows the code where it departs from what an idealised engine
model would do:

- `stop()` does not zero torque and power.
- The root variant squares the throttle although its comment says cubic.
- The thermal band is 799 < rpm < 2000, not idle < rpm < 2000.
- Temperature is not kept at or above 30.
- There is no `ticks` parameter: each `simulate` call advances the valve
  timer by one.
- The division by zero is not rejected at construction; it surfaces as the
  `ZeroDivision` outcome on the first valve pass that hits it.

## Model

| member | source | states |
|---|---|---|
| EngineDynamics.Clamp01 | Engine-Simulator-main/Engine.py:69 | the effective throttle lies in [0, 1]: it equals the input inside [0, 1], is 0 below and 1 above |
| EngineDynamics.PowInUnit | Engine-Simulator-main/Engine.py:71 | a clamped throttle raised to any power stays in [0, 1] |
| EngineDynamics.PowMonotone | Engine-Simulator-main/Engine.py:71 | the response curve is monotone in the throttle |
| EngineDynamics.TargetRpm | Engine-Simulator-main/Engine.py:73-77 | the target lies in [idle, max power] whenever idle <= max power; it is idle at zero throttle and max power at full throttle |
| EngineDynamics.TargetRpmMonotone | Engine-Simulator-main/Engine.py:74 | more throttle never gives a lower target RPM |
| EngineDynamics.Lag | Engine-Simulator-main/Engine.py:75-77 | one step leaves 90% of the gap to the target, and the new rpm lies between the old rpm and the target |
| EngineDynamics.NextRpm | Engine-Simulator-main/Engine.py:69-77 | one running step (the same code as Engine.py:42-53, with exponent 2) leaves 90% of the gap to the target; an rpm in [idle, max power] stays there; with the throttle released the gap to idle shrinks to 90% |
| EngineDynamics.RpmStaysInBand | Engine-Simulator-main/Engine.py:69-77 | from an rpm in [idle, max power], as `start` sets it, any sequence of throttles keeps rpm in that band |
| EngineDynamics.IdleApproach | Engine-Simulator-main/Engine.py:76-77 | with the throttle released for k steps, the distance to idle becomes 0.9^k of what it was |
| EngineDynamics.Torque | Engine-Simulator-main/Engine.py:52-61 | torque is 0 below idle, and 0 above max power when the peak lies below max power |
| EngineDynamics.TorqueInRange | Engine-Simulator-main/Engine.py:56-59 | with 0 <= idle <= peak < max power, torque in [idle, max power] lies in [0, max torque] |
| EngineDynamics.TorqueContinuous | Engine.py:29-32 | ramp and decay both give max torque at the peak RPM, the decay reaches 0 at max power, and with idle <= peak the torque at the peak is max torque |
| EngineDynamics.Power | Engine-Simulator-main/Engine.py:81-82 | power is non-negative for non-negative torque and rpm, and 0 when either is 0 |
| MainEngine.OpenSlot | Engine-Simulator-main/Engine.py:88 | the open cylinder index is a valid cylinder index whenever the inner floor division is non-zero |
| MainEngine.Schedule | Engine-Simulator-main/Engine.py:87-96 | the rewritten list has one entry per cylinder and exactly one open valve, at the open slot (none with no cylinders) |
| MainEngine.OpenSlotStep | Engine-Simulator-main/Engine.py:85-88 | from one tick to the next the open cylinder stays or moves to the next one, wrapping around |
| MainEngine.OpenSlotAdvance | Engine-Simulator-main/Engine.py:88 | every `valve_duration // cylinders` ticks the open cylinder advances by exactly one, wrapping around |
| MainEngine.ThermalStep | Engine-Simulator-main/Engine.py:34-48 | a positive cooling rate stays positive and the temperature ends at or below the maximum; outside the band the warning fires exactly when the engine was at or above the maximum, and the temperature does not rise |
| MainEngine.ThermalStaysAtOrBelowBand | Engine-Simulator-main/Engine.py:37-44 | a temperature at or below 80 stays there and no overheating warning fires |
| MainEngine.BandForgetsTemperature | Engine-Simulator-main/Engine.py:37-40 | inside the 799-2000 rpm band the result does not depend on the previous temperature and ends below 80 |
| MainEngine.CoolingCanUndershoot | Engine-Simulator-main/Engine.py:34-48 | outside the band, a temperature between 30 and the maximum drops by the whole new cooling rate with no clamp at 30, so a rate larger than the excess over 30 takes it below 30 |
| MainEngine.Engine.constructor | Engine-Simulator-main/Engine.py:6-27 | a stopped engine with zero rpm, torque and power, 30 degrees, cooling rate 1.5, timer 0 and all valves closed |
| MainEngine.Engine.Temperature | Engine-Simulator-main/Engine.py:29-48 | stopped: nothing changes; running: one thermal step; the invariant is kept, and a temperature at or below 80 stays there with no warning |
| MainEngine.Engine.ScheduleValves | Engine-Simulator-main/Engine.py:87-96 | both valve arrays are rewritten in place to the schedule for the current timer |
| MainEngine.Engine.Accelerate | Engine-Simulator-main/Engine.py:69-82 | rpm takes one lag step toward the target; torque and power follow rpm; with 0 <= idle <= peak, rpm, torque and power are non-negative and torque is at most max torque |
| MainEngine.Engine.Simulate | Engine-Simulator-main/Engine.py:63-98 | stopped: rpm, torque and power become 0 and nothing else changes; running: the rpm step, the timer ticks exactly when rpm > 1000, the valve lists follow the schedule or stay unchanged on a division by zero, then the thermal step |
| MainEngine.Engine.Start | Engine-Simulator-main/Engine.py:100-105 | starts a stopped engine at idle rpm; does nothing to a running one |
| MainEngine.Engine.Stop | Engine-Simulator-main/Engine.py:107-112 | stops a running engine with rpm 0 and keeps torque and power; does nothing to a stopped one |
| RootEngine.LatchStep | Engine.py:64-68 | the list keeps its length, and a phase at or past the cylinder count changes no valve |
| RootEngine.LatchRun | Engine.py:61-68 | consecutive latch passes keep the list's length |
| RootEngine.ClosePhaseShape | Engine.py:67 | with at least two cylinders a valve's closing phase differs from its opening phase |
| RootEngine.LatchSweep | Engine.py:64-68 | from the start of a period, after k ticks each valve is open, closed or unchanged according to which of its opening and closing phases are below k |
| RootEngine.LatchSettles | Engine.py:64-68 | from any valve state, the first `cylinders` ticks of a period leave valve i open exactly when i + cylinders // 2 >= cylinders, and the rest of the period keeps it |
| RootEngine.SweepFitsPeriod | Engine.py:23 | with the 30-tick duration, every cylinder count of at least two fits a whole sweep into one period |
| RootEngine.Engine.constructor | Engine.py:6-23 | a stopped engine with zero rpm, torque and power, timer 0 and all valves closed |
| RootEngine.Engine.Accelerate | Engine.py:42-58 | rpm takes one lag step toward the squared-response target; torque and power follow; with 0 <= idle <= peak they are non-negative and torque is at most max torque |
| RootEngine.Engine.LatchValves | Engine.py:64-68 | the valve array is rewritten in place to one latch pass at the current timer |
| RootEngine.Engine.Simulate | Engine.py:36-68 | stopped: rpm, torque and power become 0 and nothing else changes; running: the rpm step, the timer ticks exactly when rpm > 0, one latch pass with two or more cylinders, a division by zero with one |
| RootEngine.Engine.Start | Engine.py:70-75 | starts a stopped engine at idle rpm; does nothing to a running one |
| RootEngine.Engine.Stop | Engine.py:77-82 | stops a running engine with rpm 0 and keeps torque and power; does nothing to a stopped one |

## Left out

- Drawing and the frame loops (`draw_metrics`, `draw_gauge`, `draw_camshaftlobe`, `draw_hexagon`, `draw_engine_visual`, both `main` functions): rendering, keyboard polling and wall-clock reads. The main loop's extra `temperature()` call after `simulate` belongs to that driver. A caller can make it with `Temperature()`.
- Console output of `start`, `stop` and `temperature`: these become returned flags (`started`, `stopped`, the overheating warning).
- Floating-point rounding: rpm, torque, power and temperature are exact reals. `math.pi` is a fixed positive constant, and nothing depends on its digits.
- Engine/Camshaft.py, Engine-Simulator-main/Engine/Camshaft.py, Engine/Crankshaft.py, Engine/Starter.py and Engine/App.py are not part of this model. They hold stubs, trigonometry for drawing, keyboard gating and window setup.
- Negative cylinder counts: the count is a `nat`. Python would build empty valve lists for them.
- `displacement` is stored but, as in the source, used by nothing.
- Each variant's `simulate` is split into helper methods (`Accelerate`, `ScheduleValves`, `LatchValves`) that run in the source's order. The source writes that code inline.
