/** `PIDController`, defined identically in common/utils.py, pi/utils.py and
    surface/common/utils.py. */
module Pid {
  import opened Errors
  import opened Numeric

  /** Every attribute of a controller: the gains and limits set at construction
      and the three values `update` carries from call to call. */
  datatype PidState = PidState(kp: real, ki: real, kd: real, maxOutput: real, maxRateOfChange: real,
                               lastError: real, lastOutput: real, integral: real)

  /** A freshly constructed controller: no history, no accumulated error. */
  function Initial(kp: real, ki: real, kd: real, maxOutput: real := 90.0, maxRateOfChange: real := 180.0): (s: PidState)
    ensures s.lastError == 0.0 && s.lastOutput == 0.0 && s.integral == 0.0
    ensures s.kp == kp && s.ki == ki && s.kd == kd && s.maxOutput == maxOutput && s.maxRateOfChange == maxRateOfChange
  {
    PidState(kp, ki, kd, maxOutput, maxRateOfChange, 0.0, 0.0, 0.0)
  }

  /** The output's magnitude limit holds (a negative limit cannot hold). */
  predicate InRange(s: PidState)
  {
    0.0 <= s.maxOutput ==> -s.maxOutput <= s.lastOutput <= s.maxOutput
  }

  /** The unlimited PID sum after the integral has absorbed `error * dt`. */
  function Raw(s: PidState, error: real, dt: real): real
    requires dt != 0.0
  {
    s.kp * error + s.ki * (s.integral + error * dt) + s.kd * ((error - s.lastError) / dt)
  }

  /** `min(max(v, last - rate * dt), last + rate * dt)`. */
  function RateLimit(v: real, last: real, rate: real, dt: real): real
  {
    Min(Max(v, last - rate * dt), last + rate * dt)
  }

  /** `min(max(v, -limit), limit)`. */
  function Saturate(v: real, limit: real): real
  {
    Min(Max(v, -limit), limit)
  }

  /** The output of one update: the PID sum, limited in rate around the last
      output, then limited in magnitude. */
  function Output(s: PidState, error: real, dt: real): real
    requires dt != 0.0
  {
    Saturate(RateLimit(Raw(s, error, dt), s.lastOutput, s.maxRateOfChange, dt), s.maxOutput)
  }

  /** The state after one update: the error and output are remembered and
      the integral has absorbed `error * dt`; gains and limits stay. */
  function Next(s: PidState, error: real, dt: real): (t: PidState)
    requires dt != 0.0
    ensures t.lastOutput == Output(s, error, dt) && t.lastError == error && t.integral == s.integral + error * dt
    ensures t.kp == s.kp && t.ki == s.ki && t.kd == s.kd
    ensures t.maxOutput == s.maxOutput && t.maxRateOfChange == s.maxRateOfChange
  {
    s.(lastError := error, lastOutput := Output(s, error, dt), integral := s.integral + error * dt)
  }

  /** With a non-negative limit the output never exceeds it in magnitude. */
  lemma OutputBounded(s: PidState, error: real, dt: real)
    requires dt != 0.0 && 0.0 <= s.maxOutput
    ensures -s.maxOutput <= Output(s, error, dt) <= s.maxOutput
  {
  }

  /** Starting within a non-negative magnitude limit, the output moves by at
      most `max_rate_of_change * dt` per update. */
  lemma OutputRateBounded(s: PidState, error: real, dt: real)
    requires 0.0 < dt && 0.0 <= s.maxRateOfChange && 0.0 <= s.maxOutput && InRange(s)
    ensures Abs(Output(s, error, dt) - s.lastOutput) <= s.maxRateOfChange * dt
  {
    var band := s.maxRateOfChange * dt;
    assert 0.0 <= band;
    SaturateStaysInBand(RateLimit(Raw(s, error, dt), s.lastOutput, s.maxRateOfChange, dt), s.lastOutput, band, s.maxOutput);
  }

  /** Limiting a value already within `band` of `last` to a magnitude that
      `last` respects keeps it within `band` of `last`. */
  lemma SaturateStaysInBand(v: real, last: real, band: real, limit: real)
    requires 0.0 <= band && -limit <= last <= limit && Abs(v - last) <= band
    ensures Abs(Saturate(v, limit) - last) <= band
  {
  }

  /** Every update in `steps` (pairs of error and dt) has a positive dt. */
  predicate PositiveSteps(steps: seq<(real, real)>)
  {
    forall i :: 0 <= i < |steps| ==> 0.0 < steps[i].1
  }

  /** The outputs of a run of updates. */
  function Run(s: PidState, steps: seq<(real, real)>): (outs: seq<real>)
    requires PositiveSteps(steps)
    ensures |outs| == |steps|
    decreases |steps|
  {
    if steps == [] then []
    else [Output(s, steps[0].0, steps[0].1)] + Run(Next(s, steps[0].0, steps[0].1), steps[1..])
  }

  /** A change from `prev` to `cur` over `dt` seconds respects `rate`. */
  predicate WithinRate(prev: real, cur: real, rate: real, dt: real)
  {
    Abs(cur - prev) <= rate * dt
  }

  /** `outs` keeps the magnitude limit and each output respects the rate limit
      relative to the output before it (the first relative to `last`). */
  predicate Limited(last: real, maxOutput: real, maxRate: real, steps: seq<(real, real)>, outs: seq<real>)
    requires |outs| == |steps|
  {
    (forall i :: 0 <= i < |outs| ==> -maxOutput <= outs[i] <= maxOutput)
    && (|outs| > 0 ==> WithinRate(last, outs[0], maxRate, steps[0].1))
    && (forall i :: 0 < i < |outs| ==> WithinRate(outs[i - 1], outs[i], maxRate, steps[i].1))
  }

  /** Over any run with positive time steps, every output stays within the
      magnitude limit and differs from the one before by at most the rate limit
      times its dt. */
  lemma {:induction false} RunBounded(s: PidState, steps: seq<(real, real)>)
    requires PositiveSteps(steps) && 0.0 <= s.maxOutput && 0.0 <= s.maxRateOfChange && InRange(s)
    ensures Limited(s.lastOutput, s.maxOutput, s.maxRateOfChange, steps, Run(s, steps))
    decreases |steps|
  {
    if steps != [] {
      var out := Output(s, steps[0].0, steps[0].1);
      var t := Next(s, steps[0].0, steps[0].1);
      OutputBounded(s, steps[0].0, steps[0].1);
      OutputRateBounded(s, steps[0].0, steps[0].1);
      var rest := steps[1..];
      assert PositiveSteps(rest);
      RunBounded(t, rest);
      assert Run(s, steps) == [out] + Run(t, rest);
      LimitedCons(s.lastOutput, s.maxOutput, s.maxRateOfChange, steps, out, Run(t, rest));
    }
  }

  lemma LimitedCons(last: real, maxOutput: real, maxRate: real, steps: seq<(real, real)>, out: real, tail: seq<real>)
    requires |steps| == |tail| + 1
    requires -maxOutput <= out <= maxOutput && WithinRate(last, out, maxRate, steps[0].1)
    requires Limited(out, maxOutput, maxRate, steps[1..], tail)
    ensures Limited(last, maxOutput, maxRate, steps, [out] + tail)
  {
    var outs := [out] + tail;
    forall i | 0 < i < |outs|
      ensures WithinRate(outs[i - 1], outs[i], maxRate, steps[i].1)
    {
      assert steps[i] == steps[1..][i - 1];
      if i == 1 {
        assert outs[0] == out && outs[1] == tail[0];
      } else {
        assert outs[i - 1] == tail[i - 2] && outs[i] == tail[i - 1];
      }
    }
  }

  /** A controller object; the gains and limits are never reassigned. */
  class PIDController {
    const kp: real
    const ki: real
    const kd: real
    const maxOutput: real
    const maxRateOfChange: real
    var lastError: real
    var lastOutput: real
    var integral: real

    function State(): PidState
      reads this
    {
      PidState(kp, ki, kd, maxOutput, maxRateOfChange, lastError, lastOutput, integral)
    }

    ghost predicate Valid()
      reads this
    {
      InRange(State())
    }

    constructor (kp: real, ki: real, kd: real, maxOutput: real := 90.0, maxRateOfChange: real := 180.0)
      ensures State() == Initial(kp, ki, kd, maxOutput, maxRateOfChange)
      ensures Valid()
    {
      this.kp := kp;
      this.ki := ki;
      this.kd := kd;
      this.maxOutput := maxOutput;
      this.maxRateOfChange := maxRateOfChange;
      lastError := 0.0;
      lastOutput := 0.0;
      integral := 0.0;
    }

    /** `update(error, dt)`: a zero `dt` raises before anything changes
        (the integral absorbs `error * 0`); otherwise the controller moves to
        `Next` and returns `Output`, which lands within the magnitude limit. */
    method Update(error: real, dt: real) returns (r: Result<real>)
      modifies this
      ensures dt == 0.0 ==> r == Err(ZeroDivisionError) && unchanged(this)
      ensures dt != 0.0 ==> r == Ok(Output(old(State()), error, dt)) && State() == Next(old(State()), error, dt)
      ensures dt != 0.0 ==> Valid()
    {
      var before := State();
      integral := integral + error * dt;
      if dt == 0.0 {
        return Err(ZeroDivisionError);
      }
      var output := Output(before, error, dt);
      lastError := error;
      lastOutput := output;
      r := Ok(output);
    }
  }
}
