# PID controller, modelled in Dafny

This project models `rust_pid_controller`, a generic PID
(proportional-integral-derivative) feedback controller. The controller's
generic float-like number type is modelled as `real`.

- `pid_controller.dfy`, module `PidController`, covers the library itself:
  - the `Clamping` policy (`None`, `LowerLimit`, `UpperLimit`, `BothLimits`) and its `Exceeded` test;
  - `PidState`, a value snapshot of every controller field;
  - `Next`, the specification function of one control step, built from the proportional, integral and derivative terms;
  - the class `Pid`, whose fields the caller configures by assignment. Its `Blank` constructor builds the all-zero controller. Its `Step` method updates `cumulativeError`, `previousError` and `output` in place and returns the new output. `Step` is proved to move the object from `old(State())` to `Next(old(State()), measured, timeStep)`.
- `control_loop.dfy`, module `ControlLoop`, covers a caller driving the controller. `Run` feeds a sequence of (measurement, time step) samples through `Next`. The lemmas over runs cover:
  - integral accumulation;
  - anti-windup freezing;
  - zero-error stability;
  - how the two derivative modes relate;
  - two concrete scenarios, integral accumulation and an anti-windup freeze;
  - `Drive`, which calls `Pid.Step` once per sample, yields the outputs of `Run`, and so carries the run lemmas over to the class;
  - determinism of two blank controllers.

The anti-windup gate tests the output of the previous step. While the gate
is closed the integral is frozen, and the output carries no integral term
at all, not even the `ki` term of the frozen integral (src/lib.rs:76-79;
`NextFreezesIntegralWhenExceeded`).

`ProportionalTerm`, `IntegralTerm` and `DerivativeTerm` split `Next` into
its three contributions. Their zero-gain `ensures` are aids for the solver.
The values lines 73-87 compute are stated by `NextIntegratesWithinLimits`,
`NextFreezesIntegralWhenExceeded` and `NextDerivativeModes`.

## Model

| member | source | states |
|---|---|---|
| `PidController.Clamping.Exceeded` | src/lib.rs:20-33 | A value breaks the policy exactly when it is below a configured lower bound or above a configured upper bound. `None` never breaks. |
| `PidController.BothLimitsIsEitherLimit` | src/lib.rs:22-31 | `BothLimits(lo, hi)` is exceeded exactly when `LowerLimit(lo)` or `UpperLimit(hi)` is. |
| `PidController.InvertedLimitsAlwaysExceeded` | src/lib.rs:29-31 | The bounds are not validated: with `hi < lo` every value exceeds `BothLimits(lo, hi)`. |
| `PidController.ClosedIntervalExample` | src/lib.rs:29-31 | For `BothLimits(2, 8)`, 1 and 9 are exceeded and 2, 5 and 8 are not. The bounds themselves are allowed. |
| `PidController.Next` | src/lib.rs:72-92 | A step never changes the gains, the setpoint, the derivative mode or the clamping policy. |
| `PidController.NextIntegratesWithinLimits` | src/lib.rs:73-79 | If the previous output is within limits, the new integral is the old one plus `(target - measured) * timeStep`. The output is `kp * error + ki * newIntegral + derivative`. |
| `PidController.NextFreezesIntegralWhenExceeded` | src/lib.rs:76-79 | If the previous output breaks the policy, the integral is unchanged and the output is `kp * error + derivative`. That output is the same for every `ki`. |
| `PidController.NextDerivativeModes` | src/lib.rs:81-87 | On measurement, `previousError` becomes `measured` and the term is `kd * -((measured - prev) / timeStep)`. On error, it becomes `target - measured` and the term is `kd * ((error - prev) / timeStep)`. |
| `PidController.ProportionalOnly` | src/lib.rs:73-91 | With `ki = kd = 0` the output is `kp * (target - measured)`, whatever the time step and clamping. |
| `PidController.OutputIsNotClipped` | src/lib.rs:76-91 | Clamping gates only the integral. A proportional controller with upper limit 5 still outputs 10. |
| `PidController.DerivativeKick` | src/lib.rs:81-87 | Compare the on-error derivative term (previous error `oldTarget - lastMeasured`) with the on-measurement term (previous value `lastMeasured`). They differ by `kd * (target - oldTarget) / timeStep`, and are equal when the setpoint is unchanged. |
| `PidController.Pid.Blank` | src/lib.rs:57-70 | Gains, setpoint, integral, previous error and output are 0, derivative on error, no clamping. |
| `PidController.Pid.Step` | src/lib.rs:72-92 | The new state of the object is `Next` of its old state. The returned value is the stored `output`. Gains, setpoint, mode and clamping are unchanged. |
| `ControlLoop.Run` | src/lib.rs:72-92 | A run yields one state per sample, and each has the initial configuration. |
| `ControlLoop.RunStepsByNext` | src/lib.rs:72-92 | Entry `i` of a run is one step from entry `i - 1`, or from the initial state when `i = 0`. |
| `ControlLoop.RunFreezesAfterExceeded` | src/lib.rs:76-79 | A step whose predecessor's output broke the policy leaves the integral where the predecessor left it. |
| `ControlLoop.IntegralIsErrorArea` | src/lib.rs:73-78 | Without clamping, the final integral is the initial one plus the sum of `(target - measured) * timeStep` over all samples. |
| `ControlLoop.ZeroErrorStable` | src/lib.rs:73-89 | Start at rest: integral 0, and previous error 0 (on error) or equal to the setpoint (on measurement). If every measurement equals the setpoint, every step returns 0 and the history stays at rest, for any gains. |
| `ControlLoop.BlankIsZeroErrorStable` | src/lib.rs:57-89 | Configure a blank controller, keeping derivative on error. Fed only measurements equal to its setpoint, it returns 0 on every step, and integral and previous error stay 0. |
| `ControlLoop.ModesAgreeUnderFixedSetpoint` | src/lib.rs:81-87 | Take a controller on error with previous error `target - lastMeasured`, and its twin on measurement with previous value `lastMeasured`. They return the same outputs and have the same integrals on every step. |
| `ControlLoop.Drive` | src/lib.rs:72-92 | Calling `Step` once per sample returns, at call `i`, the `output` of entry `i` of the run from the controller's state before the first call. The controller ends in the run's last state. |
| `ControlLoop.BlankControllersAgree` | src/lib.rs:57-92 | Build two blank controllers, configure them alike and drive them with the same samples, of any number. They return the same output sequence, which is the outputs of the run from the configured blank state. |
| `ControlLoop.BlankControllerHoldsSetpoint` | src/lib.rs:57-89 | A blank controller configured with derivative on error and driven with measurements equal to its setpoint returns 0 on every call. |
| `ControlLoop.IntegralAccumulationExample` | src/lib.rs:73-79 | With `kp = kd = 0`, `ki = 1`, setpoint 1, no clamping and no integral, two steps measuring 0 over time step 1 return 1, then 2. The integral is 1, then 2. |
| `ControlLoop.AntiWindupExample` | src/lib.rs:73-89 | With `kp = kd = 0`, `ki = 1`, setpoint 10, upper limit 5, integral and output 0, and steps measuring 0 over time step 1, the outputs are 10, 0, 20. The integral is 10, 10, 20: the second step sees output 10 above the limit and freezes. |

## Left out

- Floating-point behaviour is not modelled; numbers are exact reals. This covers rounding, infinities, NaN comparisons in `exceeded` and overflow.
- `PidController.Pid.Step`: requires a nonzero time step. The source divides by `time_step` without checking it, and Dafny's real division is undefined at zero. The same precondition is on `PidController.Next`, `PidController.DerivativeTerm` and on every sample of a `ControlLoop.Run`.
- The `rust_helper_tools::Floats` trait is not part of this model. Only the arithmetic, ordering and zero default it supplies are used.
- The `PhantomData` marker field and `#![no_std]` have no behaviour and are not modelled.
- The caller's cadence, timing and any concurrent use are outside the code. A run is a given sequence of samples.
- Changing the setpoint, gains, mode or clamping between steps is direct field assignment on `Pid`. `Run` keeps the configuration fixed; `DerivativeKick` covers a setpoint change between two steps.
