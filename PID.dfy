/**
 * The firmware's PID controller (PID.py): a standard-form PID whose gains
 * come from a proportional band PB, an integral time Ti and a derivative
 * time Td, with an anti-windup clamp on the integral and the derivative
 * taken on the measurement. Clock readings are passed in as `now`.
 */
module PIDController {

  /** Kp, Ki and Kd. */
  datatype Gains = Gains(kp: real, ki: real, kd: real)

  function Abs(x: real): real { if x < 0.0 then -x else x }
  function Max(a: real, b: real): real { if a < b then b else a }
  function Min(a: real, b: real): real { if a < b then a else b }

  /** calculate_gains: Kp = -1/PB, Ki = Kp/Ti, Kd = Kp*Td. */
  function GainsFor(pb: real, ti: real, td: real): (g: Gains)
    requires pb != 0.0 && ti != 0.0
    ensures g.kp * pb == -1.0
    ensures g.ki * ti * pb == -1.0
    ensures g.kd * pb == -td
    ensures g.kp != 0.0 && g.ki != 0.0
  {
    var kp := -1.0 / pb;
    Gains(kp, kp / ti, kp * td)
  }

  /** inter_max = |0.5 / Ki|: the largest integral whose I term stays within 0.5. */
  function IntegralBound(ki: real): (b: real)
    requires ki != 0.0
    ensures b > 0.0
  {
    Abs(0.5 / ki)
  }

  /** The clamp bound is exactly the integral whose I term has size 0.5. */
  lemma IntegralBoundScale(ki: real)
    requires ki != 0.0
    ensures IntegralBound(ki) * Abs(ki) == 0.5
  {
    if ki < 0.0 {
      assert IntegralBound(ki) == -(0.5 / ki);
    } else {
      assert IntegralBound(ki) == 0.5 / ki;
    }
  }

  /** The anti-windup clamp: max with -bound, then min with bound. */
  function Clamp(x: real, bound: real): (r: real)
    requires bound >= 0.0
    ensures -bound <= r <= bound
    ensures -bound <= x <= bound ==> r == x
    ensures x > bound ==> r == bound
    ensures x < -bound ==> r == -bound
  {
    Min(Max(x, -bound), bound)
  }

  /** Every field of a PID object. */
  datatype PidState = PidState(
    gains: Gains, interMax: real,
    p: real, i: real, d: real, u: real,
    error: real, derv: real, inter: real,
    previousTemp: real, targetTemp: real, lastUpdatedTime: real)

  /** The gains are usable and the clamp bound is the one derived from Ki. */
  predicate WellFormed(s: PidState) {
    s.gains.ki != 0.0 && s.interMax == IntegralBound(s.gains.ki)
  }

  /** The state `__init__` leaves (PID.py:18-33). */
  function Initial(pb: real, ti: real, td: real, target: real, now: real): (s: PidState)
    requires pb != 0.0 && ti != 0.0
    ensures WellFormed(s) && s.gains == GainsFor(pb, ti, td)
    ensures s.targetTemp == target && s.previousTemp == target && s.lastUpdatedTime == now
    ensures s.inter == 0.0 && s.u == 0.0
  {
    var g := GainsFor(pb, ti, td);
    PidState(g, IntegralBound(g.ki), 0.0, 0.0, 0.0, 0.0, 0.0, 0.0, 0.0, target, target, now)
  }

  /** set_pid_target (PID.py:71-76). */
  function Retarget(s: PidState, target: real, now: real): (r: PidState)
    ensures WellFormed(s) ==> WellFormed(r)
    ensures r.gains == s.gains && r.interMax == s.interMax
    ensures r.targetTemp == target && r.inter == 0.0 && r.lastUpdatedTime == now
    ensures r.previousTemp == s.previousTemp && r.u == s.u
  {
    s.(targetTemp := target, error := 0.0, inter := 0.0, derv := 0.0, lastUpdatedTime := now)
  }

  /** set_gains (PID.py:79-84): new gains and clamp bound; the integral is not re-clamped. */
  function WithGains(s: PidState, pb: real, ti: real, td: real): (r: PidState)
    requires pb != 0.0 && ti != 0.0
    ensures WellFormed(r) && r.gains == GainsFor(pb, ti, td)
    ensures r.inter == s.inter && r.targetTemp == s.targetTemp && r.lastUpdatedTime == s.lastUpdatedTime
  {
    var g := GainsFor(pb, ti, td);
    s.(gains := g, interMax := IntegralBound(g.ki))
  }

  /** update (PID.py:43-69), one control cycle with reading `current` at time `now`. */
  function Step(s: PidState, current: real, now: real): (r: PidState)
    requires WellFormed(s) && now != s.lastUpdatedTime
    ensures WellFormed(r) && -s.interMax <= r.inter <= s.interMax
    ensures r.gains == s.gains && r.interMax == s.interMax && r.targetTemp == s.targetTemp
    ensures r.previousTemp == current && r.lastUpdatedTime == now
  {
    var error := current - s.targetTemp;
    var p := s.gains.kp * error + 0.5;
    var elapsed := now - s.lastUpdatedTime;
    var inter := Clamp(s.inter + error * elapsed, s.interMax);
    var i := s.gains.ki * inter;
    var derv := (current - s.previousTemp) / elapsed;
    var d := s.gains.kd * derv;
    s.(p := p, i := i, d := d, u := p + i + d,
       error := error, derv := derv, inter := inter,
       previousTemp := current, lastUpdatedTime := now)
  }

  /** Step written the way `update` computes it: max before min on the integral. */
  lemma StepByMaxMin(s: PidState, current: real, now: real,
                     err: real, inter: real, derv: real, p: real, i: real, d: real)
    requires WellFormed(s) && now != s.lastUpdatedTime
    requires err == current - s.targetTemp
    requires inter == Min(Max(s.inter + err * (now - s.lastUpdatedTime), -s.interMax), s.interMax)
    requires derv == (current - s.previousTemp) / (now - s.lastUpdatedTime)
    requires p == s.gains.kp * err + 0.5 && i == s.gains.ki * inter && d == s.gains.kd * derv
    ensures Step(s, current, now)
         == s.(p := p, i := i, d := d, u := p + i + d, error := err, derv := derv,
               inter := inter, previousTemp := current, lastUpdatedTime := now)
  {
  }

  // ---------------------------------------------------------------------
  // Properties of the specification

  /** Because of the clamp the integral term I = Ki*inter never exceeds 0.5 in size. */
  lemma IntegralTermBounded(s: PidState, current: real, now: real)
    requires WellFormed(s) && now != s.lastUpdatedTime
    ensures -0.5 <= Step(s, current, now).i <= 0.5
  {
    var r := Step(s, current, now);
    var ki, b, x := s.gains.ki, s.interMax, r.inter;
    assert r.i == ki * x;
    assert -b <= x <= b;
    IntegralBoundScale(ki);
    assert b * Abs(ki) == 0.5;
    ProductWithinBound(ki, x, b);
  }

  /** The product of two non-negative reals is non-negative. */
  lemma NonNegativeProduct(a: real, c: real)
    requires a >= 0.0 && c >= 0.0
    ensures a * c >= 0.0
  {
  }

  /** |k*x| <= |k|*b whenever |x| <= b. */
  lemma ProductWithinBound(k: real, x: real, b: real)
    requires -b <= x <= b
    ensures -(b * Abs(k)) <= k * x <= b * Abs(k)
  {
    var m := Abs(k);
    NonNegativeProduct(m, b - x);
    NonNegativeProduct(m, x + b);
    assert m * (b - x) == m * b - m * x;
    assert m * (x + b) == m * x + m * b;
    assert k * x == m * x || k * x == -(m * x);
  }

  /**
   * Derivative on measurement: the D term follows the change of the
   * reading alone, so moving the target changes neither the derivative
   * nor the D term of the next update.
   */
  lemma DerivativeOnMeasurement(s: PidState, target: real, current: real, now: real)
    requires WellFormed(s) && now != s.lastUpdatedTime
    ensures Step(s.(targetTemp := target), current, now).derv == Step(s, current, now).derv
    ensures Step(s.(targetTemp := target), current, now).d == Step(s, current, now).d
    ensures Step(s, current, now).d * (now - s.lastUpdatedTime) == s.gains.kd * (current - s.previousTemp)
  {
    var r := Step(s, current, now);
    var elapsed := now - s.lastUpdatedTime;
    assert r.derv * elapsed == current - s.previousTemp;
    calc {
      r.d * elapsed;
      s.gains.kd * r.derv * elapsed;
      s.gains.kd * (current - s.previousTemp);
    }
  }

  /** The first update after a retarget integrates only the new error: the old integral is gone. */
  lemma RetargetDropsStaleIntegral(s: PidState, target: real, t0: real, current: real, now: real)
    requires WellFormed(s) && now != t0
    ensures Step(Retarget(s, target, t0), current, now).inter
         == Clamp((current - target) * (now - t0), s.interMax)
  {
  }

  /** A freshly built (or reset) controller that reads exactly its target returns u = 0.5. */
  lemma InitialAtTargetGivesHalf(pb: real, ti: real, td: real, target: real, t0: real, now: real)
    requires pb != 0.0 && ti != 0.0 && now != t0
    ensures WellFormed(Initial(pb, ti, td, target, t0))
    ensures var r := Step(Initial(pb, ti, td, target, t0), target, now);
      r.error == 0.0 && r.p == 0.5 && r.i == 0.0 && r.d == 0.0 && r.u == 0.5
  {
  }

  /** P is 1 half a band below target, 0 half a band above, and in [0, 1] exactly inside the band. */
  lemma ProportionalBand(pb: real, ti: real, td: real, error: real)
    requires pb > 0.0 && ti != 0.0
    ensures var kp := GainsFor(pb, ti, td).kp;
      && kp * (-pb / 2.0) + 0.5 == 1.0
      && kp * (pb / 2.0) + 0.5 == 0.0
      && (0.0 <= kp * error + 0.5 <= 1.0 <==> -pb / 2.0 <= error <= pb / 2.0)
  {
    var kp := GainsFor(pb, ti, td).kp;
    assert kp == -1.0 / pb;
    assert kp * error + 0.5 == 0.5 - error / pb;
    assert 0.0 <= 0.5 - error / pb <==> error <= pb / 2.0 by {
      assert 0.5 - error / pb == (pb / 2.0 - error) / pb;
    }
    assert 0.5 - error / pb <= 1.0 <==> -pb / 2.0 <= error by {
      assert 1.0 - (0.5 - error / pb) == (error + pb / 2.0) / pb;
    }
  }

  /** The tuning the smoker boots with (PB 60, Ti 180, Td 45; Smoker.py:65-72). */
  lemma BootTuning()
    ensures GainsFor(60.0, 180.0, 45.0) == Gains(-1.0 / 60.0, -1.0 / 10800.0, -0.75)
    ensures IntegralBound(GainsFor(60.0, 180.0, 45.0).ki) == 5400.0
  {
  }

  /** reset passes (60, 45, 180) as (PB, Ti, Td), so Start mode runs with other gains (PID.py:90-91). */
  lemma ResetTuning()
    ensures GainsFor(60.0, 45.0, 180.0) == Gains(-1.0 / 60.0, -1.0 / 2700.0, -3.0)
    ensures IntegralBound(GainsFor(60.0, 45.0, 180.0).ki) == 1350.0
    ensures GainsFor(60.0, 45.0, 180.0) != GainsFor(60.0, 180.0, 45.0)
  {
  }

  /** The worked scenario: target 225, reading 225, fresh controller: error 0, P 0.5, I 0, D 0. */
  lemma FreshControllerAt225(t0: real, now: real)
    requires now != t0
    ensures Step(Initial(60.0, 45.0, 180.0, 225.0, t0), 225.0, now).u == 0.5
  {
    InitialAtTargetGivesHalf(60.0, 45.0, 180.0, 225.0, t0, now);
  }

  // ---------------------------------------------------------------------
  // The controller object

  class PID {
    var kp: real
    var ki: real
    var kd: real
    var p: real
    var i: real
    var d: real
    var u: real
    var error: real
    var derv: real
    var inter: real
    var interMax: real
    var previousTemp: real
    var targetTemp: real
    var lastUpdatedTime: real

    /** The object's fields as a value. */
    ghost function Snapshot(): PidState
      reads this
    {
      PidState(Gains(kp, ki, kd), interMax, p, i, d, u, error, derv, inter,
               previousTemp, targetTemp, lastUpdatedTime)
    }

    /** The integral clamp bound matches the integral gain. */
    ghost predicate Valid()
      reads this`ki, this`interMax
    {
      ki != 0.0 && interMax == IntegralBound(ki)
    }

    /** PID(PB, Ti, Td, target) at time `now`. */
    constructor (pb: real, ti: real, td: real, target: real, now: real)
      requires pb != 0.0 && ti != 0.0
      ensures Valid()
      ensures Snapshot() == Initial(pb, ti, td, target, now)
    {
      new;
      Init(pb, ti, td, target, now);
    }

    /** The body of `__init__`, which `reset` re-runs on the same object. */
    method Init(pb: real, ti: real, td: real, target: real, now: real)
      requires pb != 0.0 && ti != 0.0
      modifies this
      ensures Valid()
      ensures Snapshot() == Initial(pb, ti, td, target, now)
    {
      CalculateGains(pb, ti, td);
      p, i, d, u := 0.0, 0.0, 0.0, 0.0;
      error, derv, inter := 0.0, 0.0, 0.0;
      interMax := Abs(0.5 / ki);
      previousTemp := target;
      SetPidTarget(previousTemp, now);
    }

    method CalculateGains(pb: real, ti: real, td: real)
      requires pb != 0.0 && ti != 0.0
      modifies this`kp, this`ki, this`kd
      ensures Gains(kp, ki, kd) == GainsFor(pb, ti, td)
    {
      kp := -1.0 / pb;
      ki := kp / ti;
      kd := kp * td;
    }

    /** One control cycle; returns the unclamped duty fraction u. */
    method Update(current: real, now: real) returns (output: real)
      requires Valid() && now != lastUpdatedTime
      modifies this
      ensures Valid()
      ensures -interMax <= inter <= interMax
      ensures Snapshot() == Step(old(Snapshot()), current, now)
      ensures output == u
    {
      ghost var before := Snapshot();
      var err := current - targetTemp;
      var elapsed := now - lastUpdatedTime;
      var newInter := inter + err * elapsed;
      newInter := Max(newInter, -interMax);
      newInter := Min(newInter, interMax);
      var newDerv := (current - previousTemp) / elapsed;
      var newP, newI, newD := kp * err + 0.5, ki * newInter, kd * newDerv;
      p, i, d, u := newP, newI, newD, newP + newI + newD;
      error, derv, inter := err, newDerv, newInter;
      previousTemp, lastUpdatedTime := current, now;
      output := u;
      StepByMaxMin(before, current, now, err, newInter, newDerv, newP, newI, newD);
    }

    method SetPidTarget(target: real, now: real)
      modifies this
      ensures Snapshot() == Retarget(old(Snapshot()), target, now)
      ensures old(Valid()) ==> Valid()
    {
      targetTemp := target;
      error := 0.0;
      inter := 0.0;
      derv := 0.0;
      lastUpdatedTime := now;
    }

    method SetGains(pb: real, ti: real, td: real)
      requires pb != 0.0 && ti != 0.0
      modifies this
      ensures Valid()
      ensures Snapshot() == WithGains(old(Snapshot()), pb, ti, td)
    {
      CalculateGains(pb, ti, td);
      interMax := Abs(0.5 / ki);
    }

    /** reset(target): rebuild with PB 60, Ti 45, Td 180. */
    method Reset(target: real, now: real)
      modifies this
      ensures Valid()
      ensures Snapshot() == Initial(60.0, 45.0, 180.0, target, now)
    {
      Init(60.0, 45.0, 180.0, target, now);
    }
  }
}
