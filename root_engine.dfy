// The engine of `Engine.py`: throttle response squared (its comment says
// cubic), peak torque at 3000 rpm and a single per-cylinder valve list that
// latches open and closed on events of a tick counter whenever rpm > 0.
module RootEngine {
  import opened EngineDynamics
  import opened Arithmetic

  /** `effective_throttle ** 2`. */
  const ThrottleExponent: nat := 2

  /** The outcome of `simulate`: it returns, or the valve scheduler's modulo raises ZeroDivisionError. */
  datatype Outcome = Completed | ZeroDivision

  // ---------------------------------------------------------------------
  // Valve latch

  /** `valve_duration * (cylinders // 2)`: the length of one valve cycle in ticks. */
  function Period(cylinders: nat, duration: nat): nat
  {
    duration * (cylinders / 2)
  }

  /** `(i + cylinders // 2) % cylinders`: the phase at which valve i closes. */
  function ClosePhase(i: nat, cylinders: nat): nat
    requires cylinders > 0
  {
    (i + cylinders / 2) % cylinders
  }

  /**
   * One pass of the per-cylinder loop at tick `timer`: valve i opens when
   * the phase `timer % period` equals i, otherwise closes when the phase is
   * its closing phase, otherwise keeps its state. Phases at or past the
   * cylinder count leave every valve as it was.
   */
  function LatchStep(valves: seq<bool>, timer: nat, duration: nat): (next: seq<bool>)
    requires Period(|valves|, duration) > 0
    ensures |next| == |valves|
    ensures timer % Period(|valves|, duration) >= |valves| ==> next == valves
  {
    var n := |valves|;
    var phase := timer % Period(n, duration);
    seq(n, i requires 0 <= i < n =>
      if phase == i then true
      else if phase == ClosePhase(i, n) then false
      else valves[i])
  }

  /** The valves after `ticks` consecutive scheduler passes at timers first, first + 1, .... */
  function LatchRun(valves: seq<bool>, first: nat, ticks: nat, duration: nat): (r: seq<bool>)
    requires Period(|valves|, duration) > 0
    ensures |r| == |valves|
    decreases ticks
  {
    if ticks == 0 then valves
    else LatchStep(LatchRun(valves, first, ticks - 1, duration), first + ticks - 1, duration)
  }

  /** The pattern one full sweep leaves: valve i is open exactly when i + cylinders / 2 >= cylinders. */
  function Settled(cylinders: nat): seq<bool>
  {
    seq(cylinders, i => i + cylinders / 2 >= cylinders)
  }

  /** Valve i's state once the phases 0 .. k-1 have been seen, starting from `initial`. */
  function SweptValve(initial: bool, i: nat, n: nat, k: nat): bool
    requires n > 0
  {
    var c := ClosePhase(i, n);
    if i < k && c < k then i > c
    else if i < k then true
    else if c < k then false
    else initial
  }

  /** With at least two cylinders, no valve opens and closes at the same phase. */
  lemma ClosePhaseShape(i: nat, n: nat)
    requires n >= 2 && i < n
    ensures ClosePhase(i, n) == (if i + n / 2 < n then i + n / 2 else i + n / 2 - n)
    ensures ClosePhase(i, n) != i
  {
    ModWrapOnce(i + n / 2, n);
  }

  /** From the start of a period, the first k <= cylinders ticks have swept phases 0 .. k-1. */
  lemma {:induction false} LatchSweep(valves: seq<bool>, first: nat, k: nat, duration: nat)
    requires Period(|valves|, duration) > 0
    requires first % Period(|valves|, duration) == 0
    requires k <= |valves| <= Period(|valves|, duration)
    ensures forall i :: 0 <= i < |valves| ==>
      LatchRun(valves, first, k, duration)[i] == SweptValve(valves[i], i, |valves|, k)
    decreases k
  {
    var n := |valves|;
    if k > 0 {
      LatchSweep(valves, first, k - 1, duration);
      ModOffset(first, k - 1, Period(n, duration));
      assert (first + k - 1) % Period(n, duration) == k - 1;
      forall i | 0 <= i < n
        ensures LatchRun(valves, first, k, duration)[i] == SweptValve(valves[i], i, n, k)
      {
        ClosePhaseShape(i, n);
      }
    }
  }

  /**
   * Whatever the valves were, once the tick counter enters a new period the
   * first `cylinders` ticks leave exactly the settled pattern, and the rest
   * of the period keeps it.
   */
  lemma {:induction false} LatchSettles(valves: seq<bool>, first: nat, ticks: nat, duration: nat)
    requires Period(|valves|, duration) > 0
    requires first % Period(|valves|, duration) == 0
    requires |valves| <= ticks <= Period(|valves|, duration)
    ensures LatchRun(valves, first, ticks, duration) == Settled(|valves|)
    decreases ticks
  {
    var n := |valves|;
    if ticks == n {
      LatchSweep(valves, first, n, duration);
      forall i | 0 <= i < n
        ensures LatchRun(valves, first, n, duration)[i] == Settled(n)[i]
      {
        ClosePhaseShape(i, n);
      }
    } else {
      LatchSettles(valves, first, ticks - 1, duration);
      ModOffset(first, ticks - 1, Period(n, duration));
    }
  }

  /** With the engine's 30-tick valve duration (`valveDuration`) every cylinder count of at least two gets a whole sweep per period. */
  lemma SweepFitsPeriod(cylinders: nat)
    requires cylinders >= 2
    ensures 0 < cylinders <= Period(cylinders, 30)
  {
  }

  // ---------------------------------------------------------------------
  // The engine

  class Engine {
    const cylinders: nat
    const displacement: real
    const idleRpm: real
    const maxTorque: real := 400.0
    const peakTorqueRpm: real := 3000.0
    const maxPowerRpm: real := 6000.0
    const valveDuration: nat := 30
    const valveOpen: array<bool>

    var rpm: real
    var torque: real
    var power: real
    var isRunning: bool
    var valveTimer: nat

    function Curve(): TorqueCurve
    {
      TorqueCurve(idleRpm, peakTorqueRpm, maxPowerRpm, maxTorque)
    }

    /**
     * The engine's invariant: one valve entry per cylinder, zero rpm while
     * stopped and, when the idle RPM does not exceed max power, a running
     * rpm within [idle, max power].
     */
    ghost predicate Valid()
      reads this
    {
      && valveOpen.Length == cylinders
      && (!isRunning ==> rpm == 0.0)
      && (isRunning && idleRpm <= maxPowerRpm ==> idleRpm <= rpm <= maxPowerRpm)
    }

    constructor (cylinders: nat := 4, displacement: real := 2.0, idleRpm: real := 800.0)
      ensures Valid()
      ensures this.cylinders == cylinders && this.displacement == displacement && this.idleRpm == idleRpm
      ensures rpm == 0.0 && torque == 0.0 && power == 0.0 && !isRunning && valveTimer == 0
      ensures fresh(valveOpen)
      ensures forall i :: 0 <= i < cylinders ==> !valveOpen[i]
    {
      this.cylinders := cylinders;
      this.displacement := displacement;
      this.idleRpm := idleRpm;
      valveOpen := new bool[cylinders](_ => false);
      rpm, torque, power := 0.0, 0.0, 0.0;
      isRunning := false;
      valveTimer := 0;
    }

    /**
     * The running part of `simulate` before the valves: rpm takes one lag
     * step toward the target RPM for the clamped throttle, and torque and
     * power are recomputed from the new rpm.
     */
    method Accelerate(throttle: real)
      requires Valid() && isRunning
      modifies this`rpm, this`torque, this`power
      ensures Valid()
      ensures rpm == NextRpm(idleRpm, maxPowerRpm, ThrottleExponent, old(rpm), throttle)
      ensures torque == Torque(Curve(), rpm)
      ensures power == Power(torque, rpm)
      ensures 0.0 <= idleRpm <= peakTorqueRpm ==> 0.0 <= rpm && 0.0 <= torque <= maxTorque && 0.0 <= power
    {
      ghost var target := TargetRpm(idleRpm, maxPowerRpm, ThrottleExponent, throttle);
      var effectiveThrottle := Clamp01(throttle);
      var throttleResponse := Pow(effectiveThrottle, ThrottleExponent);
      if effectiveThrottle > 0.0 {
        var raised := idleRpm + throttleResponse * (maxPowerRpm - idleRpm);
        var targetRpm := if raised < maxPowerRpm then raised else maxPowerRpm;
        assert targetRpm == target;
        rpm := rpm + (targetRpm - rpm) * 0.1;
      } else {
        rpm := rpm + (idleRpm - rpm) * 0.1;
      }
      assert rpm == Lag(old(rpm), target);

      torque := Torque(Curve(), rpm);
      if 0.0 <= idleRpm <= peakTorqueRpm {
        TorqueInRange(Curve(), rpm);
      }
      power := Power(torque, rpm);
    }

    /** The per-cylinder loop of `simulate`: one latch pass at the current timer. */
    method LatchValves()
      requires Valid() && cylinders >= 2
      modifies valveOpen
      ensures valveOpen[..] == LatchStep(old(valveOpen[..]), valveTimer, valveDuration)
    {
      ghost var before := valveOpen[..];
      var i := 0;
      while i < cylinders
        invariant 0 <= i <= cylinders
        invariant forall j :: 0 <= j < i ==> valveOpen[j] == LatchStep(before, valveTimer, valveDuration)[j]
        invariant forall j :: i <= j < cylinders ==> valveOpen[j] == before[j]
      {
        if valveTimer % (valveDuration * (cylinders / 2)) == i {
          valveOpen[i] := true;
        } else if valveTimer % (valveDuration * (cylinders / 2)) == (i + cylinders / 2) % cylinders {
          valveOpen[i] := false;
        }
        i := i + 1;
      }
    }

    /**
     * `simulate(throttle)`. Stopped: rpm, torque and power drop to zero and
     * nothing else changes. Running: rpm takes one lag step toward the
     * target and torque and power follow it; when the new rpm is positive
     * the valve timer ticks and one latch pass runs, which with a single
     * cylinder raises on its modulo by zero.
     */
    method Simulate(throttle: real) returns (outcome: Outcome)
      requires Valid()
      modifies this`rpm, this`torque, this`power, this`valveTimer, valveOpen
      ensures Valid()
      ensures !old(isRunning) ==>
        && rpm == 0.0 && torque == 0.0 && power == 0.0
        && outcome == Completed
        && valveTimer == old(valveTimer) && valveOpen[..] == old(valveOpen[..])
      ensures old(isRunning) ==>
        && rpm == NextRpm(idleRpm, maxPowerRpm, ThrottleExponent, old(rpm), throttle)
        && torque == Torque(Curve(), rpm)
        && power == Power(torque, rpm)
        && valveTimer == (if rpm > 0.0 then old(valveTimer) + 1 else old(valveTimer))
      ensures old(isRunning) && 0.0 <= idleRpm <= peakTorqueRpm ==> 0.0 <= rpm && 0.0 <= torque <= maxTorque && 0.0 <= power
      ensures old(isRunning) && rpm > 0.0 && cylinders >= 2 ==>
        outcome == Completed && valveOpen[..] == LatchStep(old(valveOpen[..]), valveTimer, valveDuration)
      ensures old(isRunning) && rpm > 0.0 && cylinders == 1 ==>
        outcome == ZeroDivision && valveOpen[..] == old(valveOpen[..])
      ensures old(isRunning) && (rpm <= 0.0 || cylinders == 0) ==>
        outcome == Completed && valveOpen[..] == old(valveOpen[..])
    {
      if !isRunning {
        rpm, torque, power := 0.0, 0.0, 0.0;
        return Completed;
      }

      Accelerate(throttle);

      outcome := Completed;
      if rpm > 0.0 {
        valveTimer := valveTimer + 1;
        if cylinders == 1 {
          // The first iteration's modulo by `valve_duration * 0` raises before any entry is written.
          return ZeroDivision;
        }
        if cylinders >= 2 {
          LatchValves();
        }
      }
    }

    /** `start()`: a stopped engine starts at idle rpm; a running one is left alone. Returns whether it started. */
    method Start() returns (started: bool)
      requires Valid()
      modifies this`isRunning, this`rpm
      ensures Valid()
      ensures started == !old(isRunning)
      ensures isRunning
      ensures rpm == (if started then idleRpm else old(rpm))
    {
      started := !isRunning;
      if !isRunning {
        isRunning := true;
        rpm := idleRpm;
      }
    }

    /** `stop()`: a running engine stops with zero rpm, torque and power kept; a stopped one is left alone. */
    method Stop() returns (stopped: bool)
      requires Valid()
      modifies this`isRunning, this`rpm
      ensures Valid()
      ensures stopped == old(isRunning)
      ensures !isRunning && rpm == 0.0
      ensures !stopped ==> rpm == old(rpm)
    {
      stopped := isRunning;
      if isRunning {
        isRunning := false;
        rpm := 0.0;
      }
    }
  }
}
