/**
 * A discrete PID controller with a trapezoidal integrator clamped against
 * wind-up, a band-limited derivative taken on the measurement, and a
 * clamped output. The arithmetic is on reals: single-precision rounding is
 * not modelled.
 */
module Pid {

  /** The three gains, as `getGains` returns them. */
  datatype PIDGains = PIDGains(kp: real, ki: real, kd: real)

  /** The configuration: gains, derivative filter constant, output and integrator limits, sampling time. */
  datatype Params = Params(
    kp: real, ki: real, kd: real, tau: real,
    limMin: real, limMax: real, limMinInt: real, limMaxInt: real, t: real)

  /** The controller's memory and its last output. */
  datatype Memory = Memory(integrator: real, prevError: real, differentiator: real, prevMeasurement: real, out: real)

  /** The memory after construction or `reset`. */
  const Cleared: Memory := Memory(0.0, 0.0, 0.0, 0.0, 0.0)

  /**
   * The limiting if-chain: above `hi` gives `hi`, else below `lo` gives
   * `lo`, else `x` unchanged.
   */
  function Clamp(x: real, lo: real, hi: real): (r: real)
    ensures lo <= hi ==> lo <= r <= hi
    ensures lo <= x <= hi ==> r == x
    ensures x > hi ==> r == hi
    ensures x < lo && lo <= hi ==> r == lo
  {
    if x > hi then hi else if x < lo then lo else x
  }

  /** Clamping a clamped value changes nothing. */
  lemma ClampIdempotent(x: real, lo: real, hi: real)
    requires lo <= hi
    ensures Clamp(Clamp(x, lo, hi), lo, hi) == Clamp(x, lo, hi)
  {
  }

  /** Clamping keeps order. */
  lemma ClampMonotone(x: real, y: real, lo: real, hi: real)
    requires lo <= hi && x <= y
    ensures Clamp(x, lo, hi) <= Clamp(y, lo, hi)
  {
  }

  /** The derivative filter's denominator 2·tau + T is not zero. */
  predicate Divisible(p: Params) {
    2.0 * p.tau + p.t != 0.0
  }

  /** The new filtered derivative from the measurement step and the previous derivative. */
  function Derivative(p: Params, m: Memory, measurement: real): real
    requires Divisible(p)
  {
    -(2.0 * p.kd * (measurement - m.prevMeasurement) + (2.0 * p.tau - p.t) * m.differentiator) / (2.0 * p.tau + p.t)
  }

  /** The derivative depends on the memory only through the previous measurement and derivative. */
  lemma DerivativeReadsMeasurement(p: Params, m1: Memory, m2: Memory, measurement: real)
    requires Divisible(p)
    requires m1.prevMeasurement == m2.prevMeasurement && m1.differentiator == m2.differentiator
    ensures Derivative(p, m1, measurement) == Derivative(p, m2, measurement)
  {
  }

  /** The trapezoidal integrator step for `error`, held within the integrator limits. */
  function Integrated(p: Params, m: Memory, error: real): real {
    Clamp(m.integrator + Trapezoid(p, m, error), p.limMinInt, p.limMaxInt)
  }

  /** The trapezoid 0.5·Ki·T·(error + previous error) the integrator gains before its limits. */
  function Trapezoid(p: Params, m: Memory, error: real): real {
    0.5 * p.ki * p.t * (error + m.prevError)
  }

  /** The PID sum for `error`, held within the output limits. */
  function Output(p: Params, error: real, integrator: real, differentiator: real): real {
    Clamp(p.kp * error + integrator + differentiator, p.limMin, p.limMax)
  }

  /** `update(setpoint, measurement)` as a function of the configuration and the memory. */
  function Step(p: Params, m: Memory, setpoint: real, measurement: real): (r: Memory)
    requires Divisible(p)
    ensures p.limMinInt <= p.limMaxInt ==> p.limMinInt <= r.integrator <= p.limMaxInt
    ensures p.limMin <= p.limMax ==> p.limMin <= r.out <= p.limMax
    ensures r.prevError == setpoint - measurement && r.prevMeasurement == measurement
  {
    var error := setpoint - measurement;
    var integrator := Integrated(p, m, error);
    var differentiator := Derivative(p, m, measurement);
    Memory(integrator, error, differentiator, measurement,
           Output(p, error, integrator, differentiator))
  }

  /**
   * Between the integrator limits the integrator grows by the trapezoid
   * 0.5·Ki·T·(error + previous error); outside them it sits on the limit
   * it crossed.
   */
  lemma IntegratorIsTrapezoid(p: Params, m: Memory, setpoint: real, measurement: real)
    requires Divisible(p) && p.limMinInt <= p.limMaxInt
    ensures var trapezoid := m.integrator + 0.5 * p.ki * p.t * (setpoint - measurement + m.prevError);
      var r := Step(p, m, setpoint, measurement);
      && (p.limMinInt <= trapezoid <= p.limMaxInt ==> r.integrator == trapezoid)
      && (trapezoid > p.limMaxInt ==> r.integrator == p.limMaxInt)
      && (trapezoid < p.limMinInt ==> r.integrator == p.limMinInt)
  {
    var trapezoid := m.integrator + 0.5 * p.ki * p.t * (setpoint - measurement + m.prevError);
    assert Step(p, m, setpoint, measurement).integrator == Clamp(trapezoid, p.limMinInt, p.limMaxInt);
  }

  /**
   * The derivative acts on the measurement, not on the error: two updates
   * that differ only in the setpoint compute the same derivative, so a
   * setpoint step causes no derivative kick.
   */
  lemma DerivativeIgnoresSetpoint(p: Params, m: Memory, sp1: real, sp2: real, measurement: real)
    requires Divisible(p)
    ensures Step(p, m, sp1, measurement).differentiator == Step(p, m, sp2, measurement).differentiator
  {
  }

  /**
   * With a positive filter constant and sampling time, a measurement that
   * does not move makes the derivative decay: its magnitude shrinks by the
   * factor |2·tau - T| / (2·tau + T) < 1.
   */
  lemma DerivativeDecays(p: Params, m: Memory, measurement: real)
    requires p.tau > 0.0 && p.t > 0.0 && measurement == m.prevMeasurement
    ensures var d := Derivative(p, m, measurement);
      && d * (2.0 * p.tau + p.t) == -(2.0 * p.tau - p.t) * m.differentiator
      && (m.differentiator != 0.0 ==> Abs(d) < Abs(m.differentiator))
      && (m.differentiator == 0.0 ==> d == 0.0)
  {
    var den := 2.0 * p.tau + p.t;
    var k := 2.0 * p.tau - p.t;
    var x := m.differentiator;
    var d := Derivative(p, m, measurement);
    assert d == -(k * x) / den;
    assert d * den == -(k * x);
    if x != 0.0 {
      AbsMul(d, den);
      AbsMul(k, x);
      ShrinkingFactor(Abs(d), Abs(k), Abs(x), den);
    }
  }

  /** If a·den = f·b with 0 <= f < den, then a < b. */
  lemma ShrinkingFactor(a: real, f: real, b: real, den: real)
    requires 0.0 <= f < den && b > 0.0 && a * den == f * b
    ensures a < b
  {
    MulStrict(f, den, b);
    assert a * den < b * den;
  }

  function Abs(x: real): real {
    if x < 0.0 then -x else x
  }

  lemma AbsMul(x: real, y: real)
    ensures Abs(x * y) == Abs(x) * Abs(y)
  {
  }

  lemma MulStrict(a: real, b: real, c: real)
    requires 0.0 <= a < b && c > 0.0
    ensures a * c < b * c
  {
  }

  /**
   * Within the output limits the output is the PID sum
   * Kp·error + integrator + derivative.
   */
  lemma UnsaturatedOutputIsSum(p: Params, m: Memory, setpoint: real, measurement: real)
    requires Divisible(p)
    ensures var r := Step(p, m, setpoint, measurement);
      var sum := p.kp * (setpoint - measurement) + r.integrator + r.differentiator;
      p.limMin <= sum <= p.limMax ==> r.out == sum
  {
  }

  /**
   * At rest: with no error, a measurement that has not moved, an empty
   * integrator and derivative, and 0 within both limits, an update leaves
   * the memory as it was.
   */
  lemma RestIsFixedPoint(p: Params, measurement: real)
    requires Divisible(p) && p.limMin <= 0.0 <= p.limMax && p.limMinInt <= 0.0 <= p.limMaxInt
    ensures var m := Memory(0.0, 0.0, 0.0, measurement, 0.0);
      Step(p, m, measurement, measurement) == m
  {
    var m := Memory(0.0, 0.0, 0.0, measurement, 0.0);
    assert Derivative(p, m, measurement) == 0.0;
  }

  /** The `PIDController` object. */
  class PIDController {
    var Kp: real
    var Ki: real
    var Kd: real
    var tau: real
    var limMin: real
    var limMax: real
    var limMinInt: real
    var limMaxInt: real
    var T: real
    var integrator: real
    var prevError: real
    var differentiator: real
    var prevMeasurement: real
    var out: real

    /** The configuration fields as a value. */
    function Config(): Params
      reads this
    {
      Params(Kp, Ki, Kd, tau, limMin, limMax, limMinInt, limMaxInt, T)
    }

    /** The memory fields as a value. */
    function State(): Memory
      reads this
    {
      Memory(integrator, prevError, differentiator, prevMeasurement, out)
    }

    /** `getGains`: the three gains. */
    function GetGains(): PIDGains
      reads this
    {
      PIDGains(Kp, Ki, Kd)
    }

    /** `getKp`: agrees with `getGains`. */
    function GetKp(): (r: real)
      reads this
      ensures r == GetGains().kp
    {
      Kp
    }

    /** `getKi`: agrees with `getGains`. */
    function GetKi(): (r: real)
      reads this
      ensures r == GetGains().ki
    {
      Ki
    }

    /** `getKd`: agrees with `getGains`. */
    function GetKd(): (r: real)
      reads this
      ensures r == GetGains().kd
    {
      Kd
    }

    /** The constructor stores the configuration and clears the memory. */
    constructor (kp: real, ki: real, kd: real, tau: real, limMin: real, limMax: real, limMinInt: real, limMaxInt: real, t: real)
      ensures Config() == Params(kp, ki, kd, tau, limMin, limMax, limMinInt, limMaxInt, t)
      ensures State() == Cleared
    {
      Kp, Ki, Kd := kp, ki, kd;
      this.tau := tau;
      this.limMin, this.limMax := limMin, limMax;
      this.limMinInt, this.limMaxInt := limMinInt, limMaxInt;
      T := t;
      integrator, prevError, differentiator, prevMeasurement, out := 0.0, 0.0, 0.0, 0.0, 0.0;
    }

    /** `reset`: the memory is cleared, the configuration kept. */
    method Reset()
      modifies this`integrator, this`prevError, this`differentiator, this`prevMeasurement, this`out
      ensures State() == Cleared
    {
      integrator := 0.0;
      prevError := 0.0;
      differentiator := 0.0;
      prevMeasurement := 0.0;
      out := 0.0;
    }

    /**
     * `update`: the memory advances as `Step` says and the returned value
     * is the stored output; the configuration is untouched.
     */
    method Update(setpoint: real, measurement: real) returns (o: real)
      requires Divisible(Config())
      modifies this`integrator, this`prevError, this`differentiator, this`prevMeasurement, this`out
      ensures State() == Step(Config(), old(State()), setpoint, measurement)
      ensures o == out
    {
      ghost var p, m := Config(), State();
      var error := setpoint - measurement;
      var proportional := Kp * error;
      Integrate(error);
      DerivativeReadsMeasurement(p, State(), m, measurement);
      Differentiate(measurement);
      Saturate(error, proportional);
      prevError := error;
      prevMeasurement := measurement;
      o := out;
      assert Config() == p;
      assert State() == Memory(integrator, error, differentiator, measurement, out);
    }

    /** The trapezoidal integrator step followed by its anti-wind-up limits. */
    method Integrate(error: real)
      modifies this`integrator
      ensures integrator == Integrated(Config(), old(State()), error)
    {
      ghost var sum := integrator + Trapezoid(Config(), State(), error);
      integrator := integrator + 0.5 * Ki * T * (error + prevError);
      assert integrator == sum;
      if integrator > limMaxInt {
        integrator := limMaxInt;
      } else if integrator < limMinInt {
        integrator := limMinInt;
      }
    }

    /** The band-limited derivative of the measurement. */
    method Differentiate(measurement: real)
      requires Divisible(Config())
      modifies this`differentiator
      ensures differentiator == Derivative(Config(), old(State()), measurement)
    {
      differentiator := -(2.0 * Kd * (measurement - prevMeasurement) + (2.0 * tau - T) * differentiator) / (2.0 * tau + T);
    }

    /** The PID sum and the output limits. */
    method Saturate(ghost error: real, proportional: real)
      requires proportional == Kp * error
      modifies this`out
      ensures out == Output(Config(), error, integrator, differentiator)
    {
      out := proportional + integrator + differentiator;
      assert Config().kp * error == proportional;
      assert Output(Config(), error, integrator, differentiator) == Clamp(out, limMin, limMax);
      if out > limMax {
        out := limMax;
      } else if out < limMin {
        out := limMin;
      }
    }

    /** `updateGains`: the three gains change, nothing else does. */
    method UpdateGains(kp: real, ki: real, kd: real)
      modifies this`Kp, this`Ki, this`Kd
      ensures GetGains() == PIDGains(kp, ki, kd)
      ensures Config() == old(Config()).(kp := kp, ki := ki, kd := kd)
    {
      Kp := kp;
      Ki := ki;
      Kd := kd;
    }
  }
}
