/** A PID feedback controller: the anti-windup clamping policy, the
    controller's state, and one control step.  The numeric type of the
    controller is modelled as `real`. */
module PidController {

  /** Which bound or bounds, if any, gate the accumulation of the integral
      term.  `BothLimits` does not require `lower <= upper`. */
  datatype Clamping =
    | None
    | LowerLimit(lower: real)
    | UpperLimit(upper: real)
    | BothLimits(lower: real, upper: real)
  {
    /** Does this policy bound values from below? */
    predicate HasLower() {
      LowerLimit? || BothLimits?
    }

    /** Does this policy bound values from above? */
    predicate HasUpper() {
      UpperLimit? || BothLimits?
    }

    /** True when `value` breaks one of the configured bounds. */
    predicate Exceeded(value: real)
      ensures Exceeded(value) <==>
                (HasLower() && value < lower) || (HasUpper() && value > upper)
      ensures None? ==> !Exceeded(value)
    {
      match this
      case None => false
      case UpperLimit(upperLimit) => value > upperLimit
      case LowerLimit(lowerLimit) => value < lowerLimit
      case BothLimits(lowerLimit, upperLimit) => value < lowerLimit || value > upperLimit
    }
  }

  /** `BothLimits` is exceeded exactly when one of its two one-sided
      policies is. */
  lemma BothLimitsIsEitherLimit(lo: real, hi: real, value: real)
    ensures BothLimits(lo, hi).Exceeded(value) <==>
              LowerLimit(lo).Exceeded(value) || UpperLimit(hi).Exceeded(value)
  {
  }

  /** The bounds are not validated: with inverted bounds every value is
      out of range, so the integral term is gated off on every step. */
  lemma InvertedLimitsAlwaysExceeded(lo: real, hi: real, value: real)
    requires hi < lo
    ensures BothLimits(lo, hi).Exceeded(value)
  {
  }

  /** The closed interval [2, 8]: out of range at 1 and 9, in range at
      2, 5 and 8 (the bounds themselves are allowed). */
  lemma ClosedIntervalExample()
    ensures BothLimits(2.0, 8.0).Exceeded(1.0) && BothLimits(2.0, 8.0).Exceeded(9.0)
    ensures !BothLimits(2.0, 8.0).Exceeded(2.0) && !BothLimits(2.0, 8.0).Exceeded(5.0)
    ensures !BothLimits(2.0, 8.0).Exceeded(8.0)
  {
  }

  /** A snapshot of every field of a controller. */
  datatype PidState = PidState(
    kp: real,
    kd: real,
    ki: real,
    target: real,
    cumulativeError: real,
    previousError: real,
    output: real,
    derivativeOnMeasurement: bool,
    clamping: Clamping)

  /** Gains, setpoint, mode and clamping policy agree: the fields a control
      step never writes. */
  predicate SameConfiguration(a: PidState, b: PidState) {
    a.kp == b.kp && a.kd == b.kd && a.ki == b.ki && a.target == b.target &&
    a.derivativeOnMeasurement == b.derivativeOnMeasurement && a.clamping == b.clamping
  }

  /** The state of a freshly built controller: every number zero,
      derivative on error, no clamping. */
  function BlankState(): PidState {
    PidState(0.0, 0.0, 0.0, 0.0, 0.0, 0.0, 0.0, false, None)
  }

  /** The derivative contribution of one step, before `previousError` is
      overwritten. */
  function DerivativeTerm(s: PidState, measured: real, timeStep: real): (d: real)
    requires timeStep != 0.0
    ensures s.kd == 0.0 ==> d == 0.0
  {
    if s.derivativeOnMeasurement then
      s.kd * -((measured - s.previousError) / timeStep)
    else
      s.kd * (((s.target - measured) - s.previousError) / timeStep)
  }

  /** The proportional contribution of one step. */
  function ProportionalTerm(kp: real, error: real): (p: real)
    ensures kp == 0.0 || error == 0.0 ==> p == 0.0
  {
    kp * error
  }

  /** The integral after one step: frozen when the previous output breaks
      the clamping policy, otherwise advanced by error times time step. */
  function IntegratedError(s: PidState, measured: real, timeStep: real): real {
    if s.clamping.Exceeded(s.output) then s.cumulativeError
    else s.cumulativeError + (s.target - measured) * timeStep
  }

  /** The integral contribution of one step: none at all while frozen. */
  function IntegralTerm(s: PidState, measured: real, timeStep: real): (i: real)
    ensures s.ki == 0.0 || s.clamping.Exceeded(s.output) ==> i == 0.0
  {
    if s.clamping.Exceeded(s.output) then 0.0
    else s.ki * IntegratedError(s, measured, timeStep)
  }

  /** The state after one control step; what the step returns is the new
      `output`.  The integral is gated on the output of the PREVIOUS step. */
  function Next(s: PidState, measured: real, timeStep: real): (n: PidState)
    requires timeStep != 0.0
    ensures SameConfiguration(n, s)
  {
    var error := s.target - measured;
    s.(cumulativeError := IntegratedError(s, measured, timeStep),
       previousError := if s.derivativeOnMeasurement then measured else error,
       output := ProportionalTerm(s.kp, error) + IntegralTerm(s, measured, timeStep)
                 + DerivativeTerm(s, measured, timeStep))
  }

  /** Within limits, the step integrates the error over the time step and
      adds the ki term of the new integral. */
  lemma NextIntegratesWithinLimits(s: PidState, measured: real, timeStep: real)
    requires timeStep != 0.0
    requires !s.clamping.Exceeded(s.output)
    ensures Next(s, measured, timeStep).cumulativeError ==
              s.cumulativeError + (s.target - measured) * timeStep
    ensures Next(s, measured, timeStep).output ==
              s.kp * (s.target - measured)
              + s.ki * Next(s, measured, timeStep).cumulativeError
              + DerivativeTerm(s, measured, timeStep)
  {
  }

  /** Anti-windup: when the previous output breaks the clamping policy the
      integral is frozen and the output has no integral term at all, so it
      does not depend on ki. */
  lemma NextFreezesIntegralWhenExceeded(s: PidState, measured: real, timeStep: real, otherKi: real)
    requires timeStep != 0.0
    requires s.clamping.Exceeded(s.output)
    ensures Next(s, measured, timeStep).cumulativeError == s.cumulativeError
    ensures Next(s, measured, timeStep).output ==
              s.kp * (s.target - measured) + DerivativeTerm(s, measured, timeStep)
    ensures Next(s.(ki := otherKi), measured, timeStep).output == Next(s, measured, timeStep).output
  {
  }

  /** The two derivative modes: on measurement `previousError` keeps the
      last measurement and the term is the negated rate of change of the
      measurement; on error it keeps the last error and the term is the rate
      of change of the error. */
  lemma NextDerivativeModes(s: PidState, measured: real, timeStep: real)
    requires timeStep != 0.0
    ensures s.derivativeOnMeasurement ==>
              Next(s, measured, timeStep).previousError == measured &&
              DerivativeTerm(s, measured, timeStep) ==
                s.kd * -((measured - s.previousError) / timeStep)
    ensures !s.derivativeOnMeasurement ==>
              Next(s, measured, timeStep).previousError == s.target - measured &&
              DerivativeTerm(s, measured, timeStep) ==
                s.kd * ((s.target - measured - s.previousError) / timeStep)
  {
  }

  /** With no integral and no derivative gain the output is the
      proportional term alone, whatever the time step and clamping. */
  lemma ProportionalOnly(s: PidState, measured: real, timeStep: real)
    requires timeStep != 0.0
    requires s.ki == 0.0 && s.kd == 0.0
    ensures Next(s, measured, timeStep).output == s.kp * (s.target - measured)
  {
  }

  /** Clamping only gates the integral; it never clips the output: with an
      upper limit of 5 a proportional-only controller still outputs 10. */
  lemma OutputIsNotClipped()
    ensures var s := BlankState().(kp := 1.0, target := 10.0, clamping := UpperLimit(5.0));
            Next(s, 0.0, 1.0).output == 10.0 && s.clamping.Exceeded(Next(s, 0.0, 1.0).output)
  {
  }

  /** The derivative kick.  Take a controller on error whose previous error
      was `oldTarget - lastMeasured`, and the same controller on measurement
      whose previous value is `lastMeasured`.  Their derivative terms differ
      by kd times the setpoint change over the time step, and agree when the
      setpoint did not change. */
  lemma DerivativeKick(s: PidState, lastMeasured: real, oldTarget: real, measured: real, timeStep: real)
    requires timeStep != 0.0
    ensures var onError := s.(derivativeOnMeasurement := false, previousError := oldTarget - lastMeasured);
            var onMeasurement := s.(derivativeOnMeasurement := true, previousError := lastMeasured);
            DerivativeTerm(onError, measured, timeStep) - DerivativeTerm(onMeasurement, measured, timeStep)
              == s.kd * ((s.target - oldTarget) / timeStep)
    ensures var onError := s.(derivativeOnMeasurement := false, previousError := oldTarget - lastMeasured);
            var onMeasurement := s.(derivativeOnMeasurement := true, previousError := lastMeasured);
            s.target == oldTarget ==>
              DerivativeTerm(onError, measured, timeStep) == DerivativeTerm(onMeasurement, measured, timeStep)
  {
  }

  /** A controller.  Gains, setpoint, mode and clamping are set by the
      caller by assigning the fields; `Step` updates the rest. */
  class Pid {
    var kp: real
    var kd: real
    var ki: real
    var target: real
    var cumulativeError: real
    var previousError: real
    var output: real
    var derivativeOnMeasurement: bool
    var clamping: Clamping

    /** The current values of all fields. */
    function State(): PidState
      reads this
    {
      PidState(kp, kd, ki, target, cumulativeError, previousError, output,
               derivativeOnMeasurement, clamping)
    }

    /** A blank controller: all numbers zero, derivative on error, no
        clamping. */
    constructor Blank()
      ensures kp == 0.0 && kd == 0.0 && ki == 0.0 && target == 0.0
      ensures cumulativeError == 0.0 && previousError == 0.0 && output == 0.0
      ensures !derivativeOnMeasurement && clamping == None
      ensures State() == BlankState()
    {
      kp, kd, ki, target := 0.0, 0.0, 0.0, 0.0;
      cumulativeError, previousError, output := 0.0, 0.0, 0.0;
      derivativeOnMeasurement := false;
      clamping := None;
    }

    /** One control step: returns the new output, which is also stored for
        the next step's anti-windup test. */
    method Step(measured: real, timeStep: real) returns (result: real)
      requires timeStep != 0.0
      modifies this
      ensures State() == Next(old(State()), measured, timeStep)
      ensures result == output
      ensures kp == old(kp) && kd == old(kd) && ki == old(ki) && target == old(target)
      ensures derivativeOnMeasurement == old(derivativeOnMeasurement) && clamping == old(clamping)
    {
      ghost var before := State();
      var error := target - measured;
      result := kp * error;

      if !clamping.Exceeded(output) {
        cumulativeError := cumulativeError + error * timeStep;
        result := result + ki * cumulativeError;
      }
      assert cumulativeError == IntegratedError(before, measured, timeStep);
      assert result == ProportionalTerm(kp, error) + IntegralTerm(before, measured, timeStep);

      if derivativeOnMeasurement {
        result := result + kd * -((measured - previousError) / timeStep);
        previousError := measured;
      } else {
        result := result + kd * ((error - previousError) / timeStep);
        previousError := error;
      }
      assert result == ProportionalTerm(kp, error) + IntegralTerm(before, measured, timeStep)
                       + DerivativeTerm(before, measured, timeStep);

      output := result;
    }
  }
}
