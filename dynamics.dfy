// Engine dynamics shared by both prototypes of the engine simulator: the
// throttle clamp and response curve, the target RPM, the first-order lag that
// moves the RPM toward it, the piecewise-linear torque curve and the power
// formula. Both `Engine` classes compute these with identical code and
// differ only in their constants (throttle exponent, peak-torque RPM).
module EngineDynamics {

  /** `min(max(x, 0), 1)`: the throttle is silently clamped into [0, 1]. */
  function Clamp01(x: real): (r: real)
    ensures 0.0 <= r <= 1.0
    ensures 0.0 <= x <= 1.0 ==> r == x
    ensures x < 0.0 ==> r == 0.0
    ensures x > 1.0 ==> r == 1.0
  {
    var atLeastZero := if x > 0.0 then x else 0.0;
    if atLeastZero < 1.0 then atLeastZero else 1.0
  }

  /** `x ** n` for a natural exponent. */
  function Pow(x: real, n: nat): real
  {
    if n == 0 then 1.0 else x * Pow(x, n - 1)
  }

  lemma {:induction false} PowInUnit(x: real, n: nat)
    requires 0.0 <= x <= 1.0
    ensures 0.0 <= Pow(x, n) <= 1.0
  {
    if n > 0 {
      PowInUnit(x, n - 1);
      var p := Pow(x, n - 1);
      assert 0.0 <= x * p;
      assert x * p <= 1.0 * p;
    }
  }

  /** The response curve is monotone: more throttle never means less response. */
  lemma {:induction false} PowMonotone(x: real, y: real, n: nat)
    requires 0.0 <= x <= y
    ensures 0.0 <= Pow(x, n) <= Pow(y, n)
  {
    if n > 0 {
      PowMonotone(x, y, n - 1);
      var px, py := Pow(x, n - 1), Pow(y, n - 1);
      assert x * px <= y * px;
      assert y * px <= y * py;
    }
  }

  lemma {:induction false} PowOne(n: nat)
    ensures Pow(1.0, n) == 1.0
  {
    if n > 0 {
      PowOne(n - 1);
    }
  }

  /**
   * The RPM the engine is heading for at the given throttle: idle when the
   * clamped throttle is zero, otherwise idle plus the response share of the
   * idle-to-max-power span, capped at max power.
   */
  function TargetRpm(idleRpm: real, maxPowerRpm: real, exponent: nat, throttle: real): (target: real)
    ensures idleRpm <= maxPowerRpm ==> idleRpm <= target <= maxPowerRpm
    ensures target <= maxPowerRpm || target == idleRpm
    ensures Clamp01(throttle) == 0.0 ==> target == idleRpm
    ensures throttle >= 1.0 ==> target == maxPowerRpm
  {
    var effective := Clamp01(throttle);
    var response := Pow(effective, exponent);
    if effective > 0.0 then
      PowInUnit(effective, exponent);
      PowOne(exponent);
      ScaledSpanBounds(response, maxPowerRpm - idleRpm);
      var raised := idleRpm + response * (maxPowerRpm - idleRpm);
      if raised < maxPowerRpm then raised else maxPowerRpm
    else
      idleRpm
  }

  lemma ScaledSpanBounds(share: real, span: real)
    requires 0.0 <= share <= 1.0
    ensures span >= 0.0 ==> 0.0 <= share * span <= span
    ensures share == 1.0 ==> share * span == span
  {
    if span >= 0.0 {
      assert share * span <= 1.0 * span;
    }
  }

  lemma MulMonotone(a: real, b: real, k: real)
    requires a <= b && 0.0 <= k
    ensures a * k <= b * k
  {
  }

  /** For an open throttle, the target is the raised RPM capped at max power. */
  lemma TargetRpmOpen(idleRpm: real, maxPowerRpm: real, exponent: nat, throttle: real)
    requires Clamp01(throttle) > 0.0
    ensures var raised := idleRpm + Pow(Clamp01(throttle), exponent) * (maxPowerRpm - idleRpm);
            TargetRpm(idleRpm, maxPowerRpm, exponent, throttle) == if raised < maxPowerRpm then raised else maxPowerRpm
  {
  }

  /** Opening the throttle further never lowers the target RPM. */
  lemma TargetRpmMonotone(idleRpm: real, maxPowerRpm: real, exponent: nat, t1: real, t2: real)
    requires idleRpm <= maxPowerRpm
    requires t1 <= t2
    ensures TargetRpm(idleRpm, maxPowerRpm, exponent, t1) <= TargetRpm(idleRpm, maxPowerRpm, exponent, t2)
  {
    var e1, e2 := Clamp01(t1), Clamp01(t2);
    assert e1 <= e2;
    if e1 > 0.0 {
      var p1, p2 := Pow(e1, exponent), Pow(e2, exponent);
      PowMonotone(e1, e2, exponent);
      TargetRpmOpen(idleRpm, maxPowerRpm, exponent, t1);
      TargetRpmOpen(idleRpm, maxPowerRpm, exponent, t2);
      CappedRaiseMonotone(idleRpm, maxPowerRpm, p1, p2);
    }
  }

  /** Raising idle by a larger share of the span, then capping, never gives less. */
  lemma CappedRaiseMonotone(idleRpm: real, maxPowerRpm: real, p1: real, p2: real)
    requires idleRpm <= maxPowerRpm && 0.0 <= p1 <= p2
    ensures var r1, r2 := idleRpm + p1 * (maxPowerRpm - idleRpm), idleRpm + p2 * (maxPowerRpm - idleRpm);
            (if r1 < maxPowerRpm then r1 else maxPowerRpm) <= (if r2 < maxPowerRpm then r2 else maxPowerRpm)
  {
    MulMonotone(p1, p2, maxPowerRpm - idleRpm);
  }

  /**
   * One tick of the lag filter: the RPM covers 10% of the gap to the target,
   * so the remaining gap shrinks to 90% and the new RPM lies between the old
   * one and the target.
   */
  function Lag(rpm: real, target: real): (next: real)
    ensures target - next == 0.9 * (target - rpm)
    ensures rpm <= target ==> rpm <= next <= target
    ensures target <= rpm ==> target <= next <= rpm
  {
    rpm + (target - rpm) * 0.1
  }

  /**
   * The RPM after one running `simulate` step at the given throttle: 90% of
   * the gap to the target remains, an rpm in [idle, max power] stays there,
   * and with the throttle released the gap to idle shrinks to 90%.
   */
  function NextRpm(idleRpm: real, maxPowerRpm: real, exponent: nat, rpm: real, throttle: real): (next: real)
    ensures var target := TargetRpm(idleRpm, maxPowerRpm, exponent, throttle);
            target - next == 0.9 * (target - rpm)
    ensures idleRpm <= rpm <= maxPowerRpm ==> idleRpm <= next <= maxPowerRpm
    ensures Clamp01(throttle) == 0.0 ==> next - idleRpm == 0.9 * (rpm - idleRpm)
  {
    Lag(rpm, TargetRpm(idleRpm, maxPowerRpm, exponent, throttle))
  }

  /** The RPM after a run of running steps, one per throttle sample. */
  function RpmAfter(idleRpm: real, maxPowerRpm: real, exponent: nat, rpm: real, throttles: seq<real>): real
    decreases |throttles|
  {
    if throttles == [] then rpm
    else RpmAfter(idleRpm, maxPowerRpm, exponent, NextRpm(idleRpm, maxPowerRpm, exponent, rpm, throttles[0]), throttles[1..])
  }

  /** Once the RPM is in [idle, max power] (as `start` leaves it), no throttle sequence takes it out. */
  lemma {:induction false} RpmStaysInBand(idleRpm: real, maxPowerRpm: real, exponent: nat, rpm: real, throttles: seq<real>)
    requires idleRpm <= rpm <= maxPowerRpm
    ensures idleRpm <= RpmAfter(idleRpm, maxPowerRpm, exponent, rpm, throttles) <= maxPowerRpm
    decreases |throttles|
  {
    if throttles != [] {
      var next := NextRpm(idleRpm, maxPowerRpm, exponent, rpm, throttles[0]);
      assert idleRpm <= next <= maxPowerRpm;
      RpmStaysInBand(idleRpm, maxPowerRpm, exponent, next, throttles[1..]);
    }
  }

  /**
   * With the throttle released for k steps the distance to idle shrinks
   * geometrically, to 0.9^k of what it was.
   */
  lemma {:induction false} IdleApproach(idleRpm: real, maxPowerRpm: real, exponent: nat, rpm: real, throttles: seq<real>)
    requires forall k :: 0 <= k < |throttles| ==> throttles[k] <= 0.0
    ensures RpmAfter(idleRpm, maxPowerRpm, exponent, rpm, throttles) - idleRpm == Pow(0.9, |throttles|) * (rpm - idleRpm)
    decreases |throttles|
  {
    if throttles != [] {
      var next := NextRpm(idleRpm, maxPowerRpm, exponent, rpm, throttles[0]);
      assert next - idleRpm == 0.9 * (rpm - idleRpm);
      IdleApproach(idleRpm, maxPowerRpm, exponent, next, throttles[1..]);
      var p := Pow(0.9, |throttles| - 1);
      assert p * (0.9 * (rpm - idleRpm)) == (0.9 * p) * (rpm - idleRpm);
    }
  }

  /** The torque curve's parameters, as the `Engine` constructor sets them. */
  datatype TorqueCurve = TorqueCurve(idleRpm: real, peakTorqueRpm: real, maxPowerRpm: real, maxTorque: real)
  {
    /** Neither division of the curve divides by zero. */
    predicate Defined()
    {
      peakTorqueRpm != 0.0 && maxPowerRpm != peakTorqueRpm
    }

    /** idle <= peak torque < max power, with a non-negative idle and torque. */
    predicate Ordered()
    {
      0.0 <= idleRpm <= peakTorqueRpm < maxPowerRpm && 0.0 < peakTorqueRpm && 0.0 <= maxTorque
    }
  }

  /** The rising segment, from zero at 0 rpm to the maximum at peak torque. */
  function Ramp(c: TorqueCurve, rpm: real): real
    requires c.Defined()
  {
    (c.maxTorque / c.peakTorqueRpm) * rpm
  }

  /** The falling segment, from the maximum at peak torque to zero at max power. */
  function Decay(c: TorqueCurve, rpm: real): real
    requires c.Defined()
  {
    c.maxTorque - (c.maxTorque / (c.maxPowerRpm - c.peakTorqueRpm)) * (rpm - c.peakTorqueRpm)
  }

  /** `calculate_torque`: zero, ramp, decay, zero. */
  function Torque(c: TorqueCurve, rpm: real): (t: real)
    requires c.Defined()
    ensures rpm < c.idleRpm ==> t == 0.0
    ensures c.peakTorqueRpm < c.maxPowerRpm < rpm ==> t == 0.0
  {
    if rpm < c.idleRpm then 0.0
    else if rpm <= c.peakTorqueRpm then Ramp(c, rpm)
    else if rpm <= c.maxPowerRpm then Decay(c, rpm)
    else 0.0
  }

  /** Inside [idle, max power] the torque lies between zero and the maximum. */
  lemma TorqueInRange(c: TorqueCurve, rpm: real)
    requires c.Ordered()
    requires c.idleRpm <= rpm <= c.maxPowerRpm
    ensures c.Defined()
    ensures 0.0 <= Torque(c, rpm) <= c.maxTorque
  {
    var slope := c.maxTorque / c.peakTorqueRpm;
    assert slope >= 0.0;
    assert slope * c.peakTorqueRpm == c.maxTorque;
    if rpm <= c.peakTorqueRpm {
      assert slope * rpm <= slope * c.peakTorqueRpm;
    } else {
      var span := c.maxPowerRpm - c.peakTorqueRpm;
      var fall := c.maxTorque / span;
      assert fall * span == c.maxTorque;
      assert fall >= 0.0;
      assert 0.0 <= fall * (rpm - c.peakTorqueRpm) <= fall * span;
    }
  }

  /**
   * The ramp and the decay meet at the peak-torque RPM, where the torque is
   * exactly the maximum, and the decay reaches zero exactly at max power.
   */
  lemma TorqueContinuous(c: TorqueCurve)
    requires c.Defined()
    ensures Ramp(c, c.peakTorqueRpm) == c.maxTorque == Decay(c, c.peakTorqueRpm)
    ensures Decay(c, c.maxPowerRpm) == 0.0
    ensures c.idleRpm <= c.peakTorqueRpm ==> Torque(c, c.peakTorqueRpm) == c.maxTorque
  {
    var span := c.maxPowerRpm - c.peakTorqueRpm;
    assert (c.maxTorque / span) * span == c.maxTorque;
  }

  /** `math.pi` as a double; only its positivity is used. */
  const Pi: real := 3.141592653589793

  /** Power in kW from torque in Nm and speed in rpm (omega = rpm * pi / 30 rad/s). */
  function Power(torque: real, rpm: real): (p: real)
    ensures torque >= 0.0 && rpm >= 0.0 ==> p >= 0.0
    ensures torque == 0.0 || rpm == 0.0 ==> p == 0.0
  {
    var omega := rpm * (Pi / 30.0);
    (torque * omega) / 1000.0
  }
}
