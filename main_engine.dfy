// The engine of `Engine-Simulator-main/Engine.py`: cubic throttle response,
// peak torque at 5000 rpm, a round-robin valve scheduler that runs above
// 1000 rpm with one open valve at a time, and a thermal sub-model.
module MainEngine {
  import opened EngineDynamics
  import opened Arithmetic

  /** `effective_throttle ** 3`. */
  const ThrottleExponent: nat := 3

  /** The valve scheduler only runs above this RPM. */
  const ValveRpmThreshold: real := 1000.0

  /** The outcome of `simulate`: it returns, or the valve scheduler's floor division raises ZeroDivisionError. */
  datatype Outcome = Completed(overheatWarning: bool) | ZeroDivision

  // ---------------------------------------------------------------------
  // Valve schedule

  /** The index expression's inner floor division does not give zero. */
  predicate ScheduleDefined(cylinders: nat, duration: nat)
  {
    cylinders == 0 || duration / cylinders > 0
  }

  /** `(valve_timer // (valve_duration // cylinders)) % cylinders`: the cylinder whose valves are open. */
  function OpenSlot(timer: nat, cylinders: nat, duration: nat): (slot: nat)
    requires cylinders > 0 && ScheduleDefined(cylinders, duration)
    ensures slot < cylinders
  {
    (timer / (duration / cylinders)) % cylinders
  }

  /** The number of open valves in a list. */
  function CountOpen(valves: seq<bool>): nat
  {
    if valves == [] then 0
    else CountOpen(valves[..|valves| - 1]) + (if valves[|valves| - 1] then 1 else 0)
  }

  lemma {:induction false} NoneOpen(valves: seq<bool>)
    requires forall i :: 0 <= i < |valves| ==> !valves[i]
    ensures CountOpen(valves) == 0
  {
    if valves != [] {
      NoneOpen(valves[..|valves| - 1]);
    }
  }

  /** In a list whose only open valve is at `slot`, exactly that valve is counted. */
  lemma {:induction false} OnlyOneOpen(valves: seq<bool>, slot: nat)
    requires forall i :: 0 <= i < |valves| ==> (valves[i] <==> i == slot)
    ensures CountOpen(valves) == (if slot < |valves| then 1 else 0)
  {
    if valves != [] {
      OnlyOneOpen(valves[..|valves| - 1], slot);
    }
  }

  /**
   * The list the scheduler writes into both `intake_valve_open` and
   * `exhaust_valve_open`: one entry per cylinder, exactly one of them open
   * (none when there are no cylinders), the open one at the current slot.
   */
  function Schedule(timer: nat, cylinders: nat, duration: nat): (open: seq<bool>)
    requires ScheduleDefined(cylinders, duration)
    ensures |open| == cylinders
    ensures CountOpen(open) == (if cylinders == 0 then 0 else 1)
    ensures cylinders > 0 ==> open[OpenSlot(timer, cylinders, duration)]
  {
    if cylinders == 0 then []
    else
      var slot := OpenSlot(timer, cylinders, duration);
      var open := seq(cylinders, i => i == slot);
      OnlyOneOpen(open, slot);
      open
  }

  lemma DivStep(t: nat, d: nat)
    requires d > 0
    ensures (t + d) / d == t / d + 1
    ensures (t + 1) / d == t / d || (t + 1) / d == t / d + 1
  {
    var q, r := t / d, t % d;
    assert t + d == d * (q + 1) + r;
    DivModUnique(t + d, d, q + 1, r);
    if r + 1 < d {
      DivModUnique(t + 1, d, q, r + 1);
    } else {
      assert t + 1 == d * (q + 1) + 0;
      DivModUnique(t + 1, d, q + 1, 0);
    }
  }

  lemma ModSucc(q: nat, n: nat)
    requires n > 0
    ensures (q + 1) % n == (q % n + 1) % n
  {
    var k, r := q / n, q % n;
    if r + 1 < n {
      DivModUnique(q + 1, n, k, r + 1);
      DivModUnique(r + 1, n, 0, r + 1);
    } else {
      assert q + 1 == n * (k + 1) + 0;
      DivModUnique(q + 1, n, k + 1, 0);
      DivModUnique(r + 1, n, 1, 0);
    }
  }

  /** Each tick the open slot either stays or moves on to the next cylinder, wrapping around. */
  lemma OpenSlotStep(timer: nat, cylinders: nat, duration: nat)
    requires cylinders > 0 && ScheduleDefined(cylinders, duration)
    ensures var s := OpenSlot(timer, cylinders, duration);
            OpenSlot(timer + 1, cylinders, duration) in {s, (s + 1) % cylinders}
  {
    var d := duration / cylinders;
    DivStep(timer, d);
    ModSucc(timer / d, cylinders);
  }

  /** Every `valve_duration // cylinders` ticks the open slot advances by exactly one cylinder. */
  lemma OpenSlotAdvance(timer: nat, cylinders: nat, duration: nat)
    requires cylinders > 0 && ScheduleDefined(cylinders, duration)
    ensures OpenSlot(timer + duration / cylinders, cylinders, duration)
            == (OpenSlot(timer, cylinders, duration) + 1) % cylinders
  {
    var d := duration / cylinders;
    DivStep(timer, d);
    ModSucc(timer / d, cylinders);
  }

  // ---------------------------------------------------------------------
  // Thermal model

  /** Temperature and cooling rate, the two fields `temperature()` updates. */
  datatype Thermal = Thermal(temperature: real, coolingRate: real)

  /** Inside the band 799 < rpm < 2000 the temperature is set to this value. */
  const BandTemperature: real := 80.0

  /** The engine only cools while hotter than this. */
  const CoolingThreshold: real := 30.0

  predicate InBand(rpm: real)
  {
    799.0 < rpm < 2000.0
  }

  /**
   * One `temperature()` call on a running engine: the new temperature and
   * cooling rate, and whether the overheating warning fires.
   */
  function ThermalStep(rpm: real, th: Thermal, maxTemperature: real): (r: (Thermal, bool))
    ensures th.coolingRate > 0.0 ==> r.0.coolingRate > 0.0 && r.0.temperature <= maxTemperature
    ensures rpm <= 0.0 ==> r.0.coolingRate == th.coolingRate
    ensures !(rpm > 0.0 && InBand(rpm)) ==> (r.1 <==> th.temperature >= maxTemperature)
    ensures th.coolingRate >= 0.0 && !InBand(rpm) ==> r.0.temperature <= th.temperature
  {
    var cooling :=
      if rpm > 0.0 then rpm / 1000.0 + 0.001 - (if InBand(rpm) then 0.0095 else 0.0)
      else th.coolingRate;
    var heated := if rpm > 0.0 && InBand(rpm) then BandTemperature else th.temperature;
    var overheated := heated >= maxTemperature;
    var clamped := if overheated then maxTemperature else heated;
    var cooled := if clamped > CoolingThreshold then clamped - cooling else clamped;
    (Thermal(cooled, cooling), overheated)
  }

  /**
   * The only rise in temperature is the snap to 80 degrees, so a temperature
   * at or below 80 stays there and, with a maximum above 80, the overheating
   * warning cannot fire.
   */
  lemma ThermalStaysAtOrBelowBand(rpm: real, th: Thermal, maxTemperature: real)
    requires th.temperature <= BandTemperature < maxTemperature
    requires th.coolingRate > 0.0
    ensures !ThermalStep(rpm, th, maxTemperature).1
    ensures ThermalStep(rpm, th, maxTemperature).0.temperature <= BandTemperature
  {
  }

  /** Inside the RPM band the previous temperature has no influence on the new one. */
  lemma BandForgetsTemperature(rpm: real, t1: Thermal, t2: Thermal, maxTemperature: real)
    requires InBand(rpm) && BandTemperature < maxTemperature
    ensures ThermalStep(rpm, t1, maxTemperature) == ThermalStep(rpm, t2, maxTemperature)
    ensures ThermalStep(rpm, t1, maxTemperature).0.temperature < BandTemperature
  {
  }

  /**
   * Cooling is not clamped below at 30 degrees: outside the band, a
   * temperature between 30 and the maximum loses the whole new cooling rate,
   * so a rate larger than the excess over 30 takes it under 30.
   */
  lemma CoolingCanUndershoot(rpm: real, th: Thermal, maxTemperature: real)
    requires !(rpm > 0.0 && InBand(rpm))
    requires CoolingThreshold < th.temperature < maxTemperature
    ensures var next := ThermalStep(rpm, th, maxTemperature).0;
            next.temperature == th.temperature - next.coolingRate
    ensures var next := ThermalStep(rpm, th, maxTemperature).0;
            next.coolingRate > th.temperature - CoolingThreshold ==> next.temperature < CoolingThreshold
  {
  }

  // ---------------------------------------------------------------------
  // The engine

  class Engine {
    const cylinders: nat
    const displacement: real
    const idleRpm: real
    const maxTemperature: real := 120.0
    const maxTorque: real := 400.0
    const peakTorqueRpm: real := 5000.0
    const maxPowerRpm: real := 6000.0
    const valveDuration: nat := 30
    const intakeValveOpen: array<bool>
    const exhaustValveOpen: array<bool>

    var rpm: real
    var torque: real
    var power: real
    var isRunning: bool
    var normalTemperature: real
    var coolingRate: real
    var valveTimer: nat

    function Curve(): TorqueCurve
    {
      TorqueCurve(idleRpm, peakTorqueRpm, maxPowerRpm, maxTorque)
    }

    /**
     * The engine's invariant: one intake and one exhaust entry per cylinder,
     * both lists equal with at most one open valve, a positive cooling rate,
     * a temperature never above the maximum, zero rpm while stopped and, when
     * the idle RPM does not exceed max power, a running rpm within
     * [idle, max power].
     */
    ghost predicate Valid()
      reads this, intakeValveOpen, exhaustValveOpen
    {
      && intakeValveOpen.Length == cylinders
      && exhaustValveOpen.Length == cylinders
      && intakeValveOpen != exhaustValveOpen
      && intakeValveOpen[..] == exhaustValveOpen[..]
      && CountOpen(intakeValveOpen[..]) <= 1
      && coolingRate > 0.0
      && normalTemperature <= maxTemperature
      && (!isRunning ==> rpm == 0.0)
      && (isRunning && idleRpm <= maxPowerRpm ==> idleRpm <= rpm <= maxPowerRpm)
    }

    constructor (cylinders: nat := 4, displacement: real := 2.0, idleRpm: real := 800.0)
      ensures Valid()
      ensures this.cylinders == cylinders && this.displacement == displacement && this.idleRpm == idleRpm
      ensures rpm == 0.0 && torque == 0.0 && power == 0.0 && !isRunning
      ensures normalTemperature == 30.0 && coolingRate == 1.5 && valveTimer == 0
      ensures fresh(intakeValveOpen) && fresh(exhaustValveOpen)
      ensures forall i :: 0 <= i < cylinders ==> !intakeValveOpen[i] && !exhaustValveOpen[i]
    {
      this.cylinders := cylinders;
      this.displacement := displacement;
      this.idleRpm := idleRpm;
      intakeValveOpen := new bool[cylinders](_ => false);
      exhaustValveOpen := new bool[cylinders](_ => false);
      rpm, torque, power := 0.0, 0.0, 0.0;
      isRunning := false;
      normalTemperature := 30.0;
      coolingRate := 1.5;
      valveTimer := 0;
      new;
      NoneOpen(intakeValveOpen[..]);
    }

    /**
     * `temperature()`: nothing while stopped, otherwise one thermal step;
     * returns whether the overheating warning fired. From a temperature at
     * or below 80 degrees (the constructor's 30 included) it stays there and
     * the warning does not fire.
     */
    method Temperature() returns (overheatWarning: bool)
      requires Valid()
      modifies this`normalTemperature, this`coolingRate
      ensures Valid()
      ensures !isRunning ==>
        normalTemperature == old(normalTemperature) && coolingRate == old(coolingRate) && !overheatWarning
      ensures isRunning ==>
        (Thermal(normalTemperature, coolingRate), overheatWarning)
          == ThermalStep(rpm, Thermal(old(normalTemperature), old(coolingRate)), maxTemperature)
      ensures old(normalTemperature) <= BandTemperature ==> normalTemperature <= BandTemperature && !overheatWarning
    {
      overheatWarning := false;
      if !isRunning {
        return;
      }
      ghost var before := Thermal(normalTemperature, coolingRate);
      if rpm > 0.0 {
        var temperatureIncrease := rpm / 1000.0;
        coolingRate := rpm / 1000.0 + 0.001;
        if rpm > 799.0 && rpm < 2000.0 {
          coolingRate := coolingRate - 0.0095;
          normalTemperature := normalTemperature + temperatureIncrease;
          normalTemperature := 80.0;
        }
      }
      if normalTemperature >= maxTemperature {
        overheatWarning := true;
        normalTemperature := maxTemperature;
      }
      if normalTemperature > 30.0 {
        normalTemperature := normalTemperature - coolingRate;
      }
      if before.temperature <= BandTemperature {
        ThermalStaysAtOrBelowBand(rpm, before, maxTemperature);
      }
    }

    /**
     * The per-cylinder loop of `simulate`: both valve lists are rewritten so
     * that only the cylinder at the current slot has its valves open.
     */
    method ScheduleValves()
      requires Valid()
      requires ScheduleDefined(cylinders, valveDuration)
      modifies intakeValveOpen, exhaustValveOpen
      ensures Valid()
      ensures intakeValveOpen[..] == Schedule(valveTimer, cylinders, valveDuration)
      ensures exhaustValveOpen[..] == intakeValveOpen[..]
    {
      var i := 0;
      while i < cylinders
        invariant 0 <= i <= cylinders
        invariant forall j :: 0 <= j < i ==> intakeValveOpen[j] == (j == OpenSlot(valveTimer, cylinders, valveDuration))
        invariant forall j :: 0 <= j < i ==> exhaustValveOpen[j] == intakeValveOpen[j]
      {
        var intakeSlot := (valveTimer / (valveDuration / intakeValveOpen.Length)) % intakeValveOpen.Length;
        if intakeSlot == i {
          intakeValveOpen[i] := true;
        } else {
          intakeValveOpen[i] := false;
        }
        var exhaustSlot := (valveTimer / (valveDuration / exhaustValveOpen.Length)) % exhaustValveOpen.Length;
        if exhaustSlot == i {
          exhaustValveOpen[i] := true;
        } else {
          exhaustValveOpen[i] := false;
        }
        i := i + 1;
      }
      assert intakeValveOpen[..] == Schedule(valveTimer, cylinders, valveDuration);
    }

    /**
     * The running part of `simulate` before the valves: rpm takes one lag
     * step toward the target RPM for the clamped throttle, and torque and
     * power are recomputed from the new rpm.
     */
    method Accelerate(throttle: real)
      requires Valid() && isRunning
      modifies this`rpm, this`torque, this`power
      ensures Valid()
      ensures rpm == NextRpm(idleRpm, maxPowerRpm, ThrottleExponent, old(rpm), throttle)
      ensures torque == Torque(Curve(), rpm)
      ensures power == Power(torque, rpm)
      ensures 0.0 <= idleRpm <= peakTorqueRpm ==> 0.0 <= rpm && 0.0 <= torque <= maxTorque && 0.0 <= power
    {
      ghost var target := TargetRpm(idleRpm, maxPowerRpm, ThrottleExponent, throttle);
      var effectiveThrottle := Clamp01(throttle);
      var throttleResponse := Pow(effectiveThrottle, ThrottleExponent);
      if effectiveThrottle > 0.0 {
        var raised := idleRpm + throttleResponse * (maxPowerRpm - idleRpm);
        var targetRpm := if raised < maxPowerRpm then raised else maxPowerRpm;
        assert targetRpm == target;
        rpm := rpm + (targetRpm - rpm) * 0.1;
      } else {
        rpm := rpm + (idleRpm - rpm) * 0.1;
      }
      assert rpm == Lag(old(rpm), target);

      torque := Torque(Curve(), rpm);
      if 0.0 <= idleRpm <= peakTorqueRpm {
        TorqueInRange(Curve(), rpm);
      }
      power := Power(torque, rpm);
    }

    /**
     * `simulate(throttle)`. Stopped: rpm, torque and power drop to zero and
     * nothing else changes. Running: rpm takes one lag step toward the
     * target, torque and power follow it; above 1000 rpm the valve timer
     * ticks and both valve lists are rewritten from it, unless the floor
     * division raises; then one thermal step.
     */
    method Simulate(throttle: real) returns (outcome: Outcome)
      requires Valid()
      modifies this`rpm, this`torque, this`power, this`valveTimer, this`normalTemperature, this`coolingRate
      modifies intakeValveOpen, exhaustValveOpen
      ensures Valid()
      ensures !old(isRunning) ==>
        && rpm == 0.0 && torque == 0.0 && power == 0.0
        && outcome == Completed(false)
        && valveTimer == old(valveTimer)
        && normalTemperature == old(normalTemperature) && coolingRate == old(coolingRate)
        && intakeValveOpen[..] == old(intakeValveOpen[..]) && exhaustValveOpen[..] == old(exhaustValveOpen[..])
      ensures old(isRunning) ==>
        && rpm == NextRpm(idleRpm, maxPowerRpm, ThrottleExponent, old(rpm), throttle)
        && torque == Torque(Curve(), rpm)
        && power == Power(torque, rpm)
      ensures old(isRunning) && 0.0 <= idleRpm <= peakTorqueRpm ==> 0.0 <= rpm && 0.0 <= torque <= maxTorque && 0.0 <= power
      ensures old(isRunning) && rpm <= ValveRpmThreshold ==>
        && valveTimer == old(valveTimer)
        && intakeValveOpen[..] == old(intakeValveOpen[..]) && exhaustValveOpen[..] == old(exhaustValveOpen[..])
      ensures old(isRunning) && rpm > ValveRpmThreshold ==> valveTimer == old(valveTimer) + 1
      ensures old(isRunning) && rpm > ValveRpmThreshold && ScheduleDefined(cylinders, valveDuration) ==>
        && intakeValveOpen[..] == Schedule(valveTimer, cylinders, valveDuration)
        && exhaustValveOpen[..] == intakeValveOpen[..]
      ensures old(isRunning) && (rpm <= ValveRpmThreshold || ScheduleDefined(cylinders, valveDuration)) ==>
        && outcome.Completed?
        && (Thermal(normalTemperature, coolingRate), outcome.overheatWarning)
             == ThermalStep(rpm, Thermal(old(normalTemperature), old(coolingRate)), maxTemperature)
      ensures old(isRunning) && rpm > ValveRpmThreshold && !ScheduleDefined(cylinders, valveDuration) ==>
        && outcome == ZeroDivision
        && intakeValveOpen[..] == old(intakeValveOpen[..]) && exhaustValveOpen[..] == old(exhaustValveOpen[..])
        && normalTemperature == old(normalTemperature) && coolingRate == old(coolingRate)
      ensures old(normalTemperature) <= BandTemperature ==> normalTemperature <= BandTemperature && outcome != Completed(true)
    {
      if !isRunning {
        rpm, torque, power := 0.0, 0.0, 0.0;
        return Completed(false);
      }

      Accelerate(throttle);

      if rpm > ValveRpmThreshold {
        valveTimer := valveTimer + 1;
        if cylinders > 0 && valveDuration / cylinders == 0 {
          // The first iteration's floor division by zero raises before any entry is written.
          return ZeroDivision;
        }
        ScheduleValves();
      }

      var warning := Temperature();
      outcome := Completed(warning);
    }

    /** `start()`: a stopped engine starts at idle rpm; a running one is left alone. Returns whether it started. */
    method Start() returns (started: bool)
      requires Valid()
      modifies this`isRunning, this`rpm
      ensures Valid()
      ensures started == !old(isRunning)
      ensures isRunning
      ensures rpm == (if started then idleRpm else old(rpm))
    {
      started := !isRunning;
      if !isRunning {
        isRunning := true;
        rpm := idleRpm;
      }
    }

    /** `stop()`: a running engine stops with zero rpm, torque and power kept; a stopped one is left alone. */
    method Stop() returns (stopped: bool)
      requires Valid()
      modifies this`isRunning, this`rpm
      ensures Valid()
      ensures stopped == old(isRunning)
      ensures !isRunning && rpm == 0.0
      ensures !stopped ==> rpm == old(rpm)
    {
      stopped := isRunning;
      if isRunning {
        isRunning := false;
        rpm := 0.0;
      }
    }
  }
}
