/** The controller driven by a caller over a sequence of samples: the
    caller chooses the cadence and supplies each measurement together with
    the time elapsed since the previous step. */
module ControlLoop {
  import opened PidController

  /** One invocation of the step: a fresh measurement and the elapsed time. */
  datatype Sample = Sample(measured: real, timeStep: real)

  predicate NonzeroTimeSteps(samples: seq<Sample>) {
    forall i :: 0 <= i < |samples| ==> samples[i].timeStep != 0.0
  }

  /** The states after each step of feeding `samples` to a controller that
      starts in `s`; `Run(s, samples)[i].output` is what step i returns. */
  function Run(s: PidState, samples: seq<Sample>): (trace: seq<PidState>)
    requires NonzeroTimeSteps(samples)
    ensures |trace| == |samples|
    ensures forall i :: 0 <= i < |trace| ==> SameConfiguration(trace[i], s)
    decreases |samples|
  {
    if samples == [] then []
    else
      var n := Next(s, samples[0].measured, samples[0].timeStep);
      [n] + Run(n, samples[1..])
  }

  /** The time-weighted sum of the errors against setpoint `target`. */
  function ErrorArea(target: real, samples: seq<Sample>): real
    decreases |samples|
  {
    if samples == [] then 0.0
    else (target - samples[0].measured) * samples[0].timeStep + ErrorArea(target, samples[1..])
  }

  /** Without clamping nothing is gated, so after a run the integral is the
      initial one plus the time-weighted sum of all errors. */
  lemma {:induction false} IntegralIsErrorArea(s: PidState, samples: seq<Sample>)
    requires NonzeroTimeSteps(samples) && samples != []
    requires s.clamping == None
    ensures Run(s, samples)[|samples| - 1].cumulativeError ==
              s.cumulativeError + ErrorArea(s.target, samples)
    decreases |samples|
  {
    var x := samples[0];
    var n := Next(s, x.measured, x.timeStep);
    NextIntegratesWithinLimits(s, x.measured, x.timeStep);
    var area := (s.target - x.measured) * x.timeStep;
    assert n.cumulativeError == s.cumulativeError + area;
    assert ErrorArea(s.target, samples) == area + ErrorArea(s.target, samples[1..]);
    assert Run(s, samples) == [n] + Run(n, samples[1..]);
    if |samples| == 1 {
      assert ErrorArea(s.target, samples[1..]) == 0.0;
    } else {
      assert n.target == s.target && n.clamping == None;
      IntegralIsErrorArea(n, samples[1..]);
      assert Run(s, samples)[|samples| - 1] == Run(n, samples[1..])[|samples| - 2];
    }
  }

  /** Zero-error stability: when every measurement equals the setpoint and
      the history is at rest (no integral; previous error zero on error, or
      previous measurement equal to the setpoint on measurement), every step
      returns 0 and the history stays at rest, whatever the gains. */
  lemma {:induction false} ZeroErrorStable(s: PidState, samples: seq<Sample>)
    requires NonzeroTimeSteps(samples)
    requires s.cumulativeError == 0.0
    requires s.previousError == if s.derivativeOnMeasurement then s.target else 0.0
    requires forall i :: 0 <= i < |samples| ==> samples[i].measured == s.target
    ensures forall i :: 0 <= i < |samples| ==>
              Run(s, samples)[i].output == 0.0 &&
              Run(s, samples)[i].cumulativeError == 0.0 &&
              Run(s, samples)[i].previousError == s.previousError
    decreases |samples|
  {
    if samples != [] {
      var n := Next(s, samples[0].measured, samples[0].timeStep);
      assert n.output == 0.0 && n.cumulativeError == 0.0 && n.previousError == s.previousError;
      ZeroErrorStable(n, samples[1..]);
      assert Run(s, samples) == [n] + Run(n, samples[1..]);
    }
  }

  /** A blank controller configured for derivative on error, fed only
      measurements equal to its setpoint, returns 0 on every step and keeps
      its integral and previous error at 0. */
  lemma BlankIsZeroErrorStable(kp: real, kd: real, ki: real, target: real,
                               clamping: Clamping, samples: seq<Sample>)
    requires NonzeroTimeSteps(samples)
    requires forall i :: 0 <= i < |samples| ==> samples[i].measured == target
    ensures var s := BlankState().(kp := kp, kd := kd, ki := ki, target := target, clamping := clamping);
            forall i :: 0 <= i < |samples| ==>
              Run(s, samples)[i].output == 0.0 &&
              Run(s, samples)[i].cumulativeError == 0.0 &&
              Run(s, samples)[i].previousError == 0.0
  {
    var s := BlankState().(kp := kp, kd := kd, ki := ki, target := target, clamping := clamping);
    ZeroErrorStable(s, samples);
  }

  /** While the setpoint stays fixed the two derivative modes behave alike:
      a controller on error whose previous error is `target - lastMeasured`
      and the same controller on measurement whose previous value is
      `lastMeasured` return the same outputs and integrals on every step. */
  lemma {:induction false} ModesAgreeUnderFixedSetpoint(a: PidState, lastMeasured: real, samples: seq<Sample>)
    requires NonzeroTimeSteps(samples)
    requires !a.derivativeOnMeasurement && a.previousError == a.target - lastMeasured
    ensures var b := a.(derivativeOnMeasurement := true, previousError := lastMeasured);
            forall i :: 0 <= i < |samples| ==>
              Run(a, samples)[i].output == Run(b, samples)[i].output &&
              Run(a, samples)[i].cumulativeError == Run(b, samples)[i].cumulativeError
    decreases |samples|
  {
    var b := a.(derivativeOnMeasurement := true, previousError := lastMeasured);
    if samples != [] {
      var m, dt := samples[0].measured, samples[0].timeStep;
      DerivativeKick(a, lastMeasured, a.target, m, dt);
      assert a.(derivativeOnMeasurement := false, previousError := a.target - lastMeasured) == a;
      assert DerivativeTerm(a, m, dt) == DerivativeTerm(b, m, dt);
      var na, nb := Next(a, m, dt), Next(b, m, dt);
      assert a.clamping.Exceeded(a.output) == b.clamping.Exceeded(b.output);
      assert IntegratedError(a, m, dt) == IntegratedError(b, m, dt);
      assert IntegralTerm(a, m, dt) == IntegralTerm(b, m, dt);
      assert nb == na.(derivativeOnMeasurement := true, previousError := m);
      ModesAgreeUnderFixedSetpoint(na, m, samples[1..]);
      assert Run(a, samples) == [na] + Run(na, samples[1..]);
      assert Run(b, samples) == [nb] + Run(nb, samples[1..]);
    }
  }

  /** Each entry of a trace is one step from the entry before it (from the
      initial state for the first entry). */
  lemma {:induction false} RunStepsByNext(s: PidState, samples: seq<Sample>, i: nat)
    requires NonzeroTimeSteps(samples) && i < |samples|
    ensures Run(s, samples)[i] ==
              Next(if i == 0 then s else Run(s, samples)[i - 1], samples[i].measured, samples[i].timeStep)
    decreases i
  {
    var n := Next(s, samples[0].measured, samples[0].timeStep);
    assert Run(s, samples) == [n] + Run(n, samples[1..]);
    if i > 0 {
      RunStepsByNext(n, samples[1..], i - 1);
    }
  }

  /** Anti-windup over a run: a step whose predecessor's output broke the
      clamping policy leaves the integral where that predecessor left it. */
  lemma RunFreezesAfterExceeded(s: PidState, samples: seq<Sample>, i: nat)
    requires NonzeroTimeSteps(samples) && 0 < i < |samples|
    requires s.clamping.Exceeded(Run(s, samples)[i - 1].output)
    ensures Run(s, samples)[i].cumulativeError == Run(s, samples)[i - 1].cumulativeError
  {
    RunStepsByNext(s, samples, i);
    assert SameConfiguration(Run(s, samples)[i - 1], s);
  }

  /** Calls `p.Step` once per sample, in order, and collects what each call
      returns: the outputs are those of `Run` from the controller's state
      before the first call, and the controller ends in the run's last
      state. */
  method Drive(p: Pid, samples: seq<Sample>) returns (outs: seq<real>)
    requires NonzeroTimeSteps(samples)
    modifies p
    ensures |outs| == |samples|
    ensures forall i :: 0 <= i < |samples| ==> outs[i] == Run(old(p.State()), samples)[i].output
    ensures p.State() == if samples == [] then old(p.State()) else Run(old(p.State()), samples)[|samples| - 1]
  {
    ghost var s0 := p.State();
    outs := [];
    var k := 0;
    while k < |samples|
      invariant 0 <= k <= |samples|
      invariant |outs| == k
      invariant forall i :: 0 <= i < k ==> outs[i] == Run(s0, samples)[i].output
      invariant k == 0 ==> p.State() == s0
      invariant k > 0 ==> p.State() == Run(s0, samples)[k - 1]
    {
      RunStepsByNext(s0, samples, k);
      var out := p.Step(samples[k].measured, samples[k].timeStep);
      outs := outs + [out];
      k := k + 1;
    }
  }

  /** A blank controller with the given configuration. */
  method NewConfigured(kp: real, kd: real, ki: real, target: real,
                       derivativeOnMeasurement: bool, clamping: Clamping)
    returns (p: Pid)
    ensures fresh(p)
    ensures p.State() == BlankState().(kp := kp, kd := kd, ki := ki, target := target,
                                         derivativeOnMeasurement := derivativeOnMeasurement,
                                         clamping := clamping)
  {
    p := new Pid.Blank();
    p.kp, p.kd, p.ki, p.target := kp, kd, ki, target;
    p.derivativeOnMeasurement, p.clamping := derivativeOnMeasurement, clamping;
  }

  /** Determinism: two independently built blank controllers, configured
      alike and fed the same samples, return the same output sequence, and
      that sequence is the outputs of the run from the configured blank
      state. */
  method BlankControllersAgree(kp: real, kd: real, ki: real, target: real,
                               derivativeOnMeasurement: bool, clamping: Clamping,
                               samples: seq<Sample>)
    returns (outsA: seq<real>, outsB: seq<real>)
    requires NonzeroTimeSteps(samples)
    ensures outsA == outsB
    ensures |outsA| == |samples|
    ensures var s := BlankState().(kp := kp, kd := kd, ki := ki, target := target,
                                   derivativeOnMeasurement := derivativeOnMeasurement,
                                   clamping := clamping);
            forall i :: 0 <= i < |samples| ==> outsA[i] == Run(s, samples)[i].output
  {
    var a := NewConfigured(kp, kd, ki, target, derivativeOnMeasurement, clamping);
    var b := NewConfigured(kp, kd, ki, target, derivativeOnMeasurement, clamping);
    outsA := Drive(a, samples);
    outsB := Drive(b, samples);
  }

  /** Zero-error stability of the class: a blank controller configured for
      derivative on error and driven with measurements equal to its setpoint
      returns 0 on every call. */
  method BlankControllerHoldsSetpoint(kp: real, kd: real, ki: real, target: real,
                                      clamping: Clamping, samples: seq<Sample>)
    returns (outs: seq<real>)
    requires NonzeroTimeSteps(samples)
    requires forall i :: 0 <= i < |samples| ==> samples[i].measured == target
    ensures |outs| == |samples|
    ensures forall i :: 0 <= i < |samples| ==> outs[i] == 0.0
  {
    var p := NewConfigured(kp, kd, ki, target, false, clamping);
    BlankIsZeroErrorStable(kp, kd, ki, target, clamping, samples);
    outs := Drive(p, samples);
  }

  /** Integral accumulation: with `kp = kd = 0`, `ki = 1`, setpoint 1, no
      clamping and no integral yet, two steps measuring 0 over a time step
      of 1 return 1 and then 2, the integral growing by 1 each time. */
  lemma IntegralAccumulationExample(s0: PidState)
    requires s0.kp == 0.0 && s0.kd == 0.0 && s0.ki == 1.0 && s0.target == 1.0
    requires s0.clamping == None && s0.cumulativeError == 0.0
    ensures Next(s0, 0.0, 1.0).output == 1.0 && Next(s0, 0.0, 1.0).cumulativeError == 1.0
    ensures Next(Next(s0, 0.0, 1.0), 0.0, 1.0).output == 2.0
    ensures Next(Next(s0, 0.0, 1.0), 0.0, 1.0).cumulativeError == 2.0
  {
    NextIntegratesWithinLimits(s0, 0.0, 1.0);
    var s1 := Next(s0, 0.0, 1.0);
    NextIntegratesWithinLimits(s1, 0.0, 1.0);
  }

  /** Anti-windup freeze: with `kp = kd = 0`, `ki = 1`, setpoint 10, an upper
      limit of 5, no integral and no output yet, and measurements of 0 over a
      time step of 1, the first step returns 10; the second sees that output
      above the limit, keeps the integral at 10 and returns 0; the third is
      back within limits and returns 20. */
  lemma AntiWindupExample(s0: PidState)
    requires s0.kp == 0.0 && s0.kd == 0.0 && s0.ki == 1.0 && s0.target == 10.0
    requires s0.clamping == UpperLimit(5.0) && s0.cumulativeError == 0.0 && s0.output == 0.0
    ensures Next(s0, 0.0, 1.0).output == 10.0 && Next(s0, 0.0, 1.0).cumulativeError == 10.0
    ensures Next(Next(s0, 0.0, 1.0), 0.0, 1.0).output == 0.0
    ensures Next(Next(s0, 0.0, 1.0), 0.0, 1.0).cumulativeError == 10.0
    ensures Next(Next(Next(s0, 0.0, 1.0), 0.0, 1.0), 0.0, 1.0).output == 20.0
    ensures Next(Next(Next(s0, 0.0, 1.0), 0.0, 1.0), 0.0, 1.0).cumulativeError == 20.0
  {
    NextIntegratesWithinLimits(s0, 0.0, 1.0);
    var s1 := Next(s0, 0.0, 1.0);
    assert s1.output == 10.0 && s1.clamping == UpperLimit(5.0);
    NextFreezesIntegralWhenExceeded(s1, 0.0, 1.0, 1.0);
    var s2 := Next(s1, 0.0, 1.0);
    assert SameConfiguration(s2, s0);
    ResumeAfterFreeze(s2);
  }

  /** The third step of `AntiWindupExample`, from the frozen state. */
  lemma ResumeAfterFreeze(s: PidState)
    requires s.kp == 0.0 && s.kd == 0.0 && s.ki == 1.0 && s.target == 10.0
    requires s.clamping == UpperLimit(5.0) && s.cumulativeError == 10.0 && s.output == 0.0
    ensures Next(s, 0.0, 1.0).output == 20.0 && Next(s, 0.0, 1.0).cumulativeError == 20.0
  {
    NextIntegratesWithinLimits(s, 0.0, 1.0);
  }
}
