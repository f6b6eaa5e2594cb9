/** The plain helpers of common/utils.py (copied unchanged into
    surface/common/utils.py): `linear_map`, the IMU dictionaries and the
    slew-rate limiter. */
module CommonUtils {
  import opened Errors
  import opened Numeric

  /** The affine formula of `linear_map`. */
  function Affine(x: real, inMin: real, inMax: real, outMin: real, outMax: real): real
    requires inMin != inMax
  {
    (x - inMin) * (outMax - outMin) / (inMax - inMin) + outMin
  }

  /** `linear_map(x, in_min, in_max, out_min, out_max)`: a zero-width input range
      divides by zero. */
  function LinearMap(x: real, inMin: real := -1.0, inMax: real := 1.0,
                     outMin: real := -5.0, outMax: real := 5.0): (r: Result<real>)
    ensures r.Err? <==> inMin == inMax
    ensures r.Err? ==> r.error == ZeroDivisionError
    ensures r.Ok? ==> r.value == Affine(x, inMin, inMax, outMin, outMax)
  {
    if inMax - inMin == 0.0 then Err(ZeroDivisionError) else Ok(Affine(x, inMin, inMax, outMin, outMax))
  }

  /** The ends of the input range map to the ends of the output range. */
  lemma LinearMapEndpoints(inMin: real, inMax: real, outMin: real, outMax: real)
    requires inMin != inMax
    ensures LinearMap(inMin, inMin, inMax, outMin, outMax) == Ok(outMin)
    ensures LinearMap(inMax, inMin, inMax, outMin, outMax) == Ok(outMax)
  {
    var w, d := inMax - inMin, outMax - outMin;
    assert w * d / w == d by {
      assert (w * d / w) * w == w * d;
    }
    assert Affine(inMax, inMin, inMax, outMin, outMax) == w * d / w + outMin;
  }

  /** The map is affine: it preserves every weighted mean of two inputs. */
  lemma LinearMapAffine(x1: real, x2: real, t: real, inMin: real, inMax: real, outMin: real, outMax: real)
    requires inMin != inMax
    ensures Affine(t * x1 + (1.0 - t) * x2, inMin, inMax, outMin, outMax)
         == t * Affine(x1, inMin, inMax, outMin, outMax) + (1.0 - t) * Affine(x2, inMin, inMax, outMin, outMax)
  {
    var a := (outMax - outMin) / (inMax - inMin);
    assert forall x :: Affine(x, inMin, inMax, outMin, outMax) == a * (x - inMin) + outMin;
    assert a * (t * x1 + (1.0 - t) * x2 - inMin) == t * (a * (x1 - inMin)) + (1.0 - t) * (a * (x2 - inMin));
  }

  /** `make_xyz_dict(x, y, z)`. */
  function MakeXyzDict(x: int, y: int, z: int): (d: map<string, int>)
    ensures d.Keys == {"x", "y", "z"} && d["x"] == x && d["y"] == y && d["z"] == z
  {
    map["x" := x, "y" := y, "z" := z]
  }

  /** `init_imu_data()`: zeroed acceleration, gyroscope and magnetometer triples and
      a zeroed game quaternion. */
  function InitImuData(): (d: map<string, map<string, int>>)
    ensures d.Keys == {"acceleration", "gyroscope", "magnetometer", "game_quaternion"}
    ensures forall k :: k in d && k != "game_quaternion" ==> d[k] == MakeXyzDict(0, 0, 0)
    ensures d["game_quaternion"].Keys == {"i", "j", "k", "real"}
    ensures forall c :: c in d["game_quaternion"] ==> d["game_quaternion"][c] == 0
  {
    var quaternion := map["i" := 0, "j" := 0, "k" := 0, "real" := 0];
    map["acceleration" := MakeXyzDict(0, 0, 0), "gyroscope" := MakeXyzDict(0, 0, 0),
        "magnetometer" := MakeXyzDict(0, 0, 0), "game_quaternion" := quaternion]
  }

  /** The value a slew-rate limiter at `last` moves to when asked for `target`
      after `dt` seconds: the change is capped at `maxRate * dt`, keeping its sign. */
  function SlewStep(last: real, target: real, maxRate: real, dt: real): (r: real)
    ensures 0.0 <= maxRate * dt ==> Abs(r - last) <= maxRate * dt
    ensures 0.0 <= maxRate * dt ==> Min(last, target) <= r <= Max(last, target)
    ensures Abs(target - last) <= maxRate * dt ==> r == target
  {
    var change := target - last;
    var maxChange := maxRate * dt;
    last + (if Abs(change) > maxChange then maxChange * (if change > 0.0 then 1.0 else -1.0) else change)
  }

  /** The value after `n` updates towards the same target. */
  function SlewIterate(last: real, target: real, maxRate: real, dt: real, n: nat): real
    decreases n
  {
    if n == 0 then last else SlewIterate(SlewStep(last, target, maxRate, dt), target, maxRate, dt, n - 1)
  }

  /** Once the limiter holds the target, asking for it again keeps it there. */
  lemma SlewRepeat(last: real, target: real, maxRate: real, dt: real)
    requires 0.0 <= maxRate * dt
    ensures var once := SlewStep(last, target, maxRate, dt);
            Abs(target - last) <= maxRate * dt ==> SlewStep(once, target, maxRate, dt) == once
  {
  }

  /** With a positive step, `n` updates reach the target once `n` steps of
      `maxRate * dt` cover the distance. */
  lemma {:induction false} SlewConverges(last: real, target: real, maxRate: real, dt: real, n: nat)
    requires 0.0 < maxRate * dt
    requires Abs(target - last) <= n as real * (maxRate * dt)
    ensures SlewIterate(last, target, maxRate, dt, n) == target
    decreases n
  {
    var m := maxRate * dt;
    if n > 0 {
      var next := SlewStep(last, target, maxRate, dt);
      if Abs(target - last) <= m {
        assert next == target;
        SlewStaysAt(target, maxRate, dt, n - 1);
      } else {
        SlewStepCloser(last, target, maxRate, dt);
        assert (n - 1) as real * m == n as real * m - m;
        SlewConverges(next, target, maxRate, dt, n - 1);
      }
    }
  }

  /** Far from the target, one update closes the distance by exactly `maxRate * dt`. */
  lemma SlewStepCloser(last: real, target: real, maxRate: real, dt: real)
    requires 0.0 < maxRate * dt < Abs(target - last)
    ensures Abs(target - SlewStep(last, target, maxRate, dt)) == Abs(target - last) - maxRate * dt
  {
  }

  lemma {:induction false} SlewStaysAt(target: real, maxRate: real, dt: real, n: nat)
    requires 0.0 <= maxRate * dt
    ensures SlewIterate(target, target, maxRate, dt, n) == target
    decreases n
  {
    if n > 0 {
      SlewStaysAt(target, maxRate, dt, n - 1);
    }
  }

  /** `SlewRateLimiter`: remembers the last emitted value. */
  class SlewRateLimiter {
    const maxRate: real
    var lastValue: real

    constructor (maxRate: real, initialValue: real)
      ensures this.maxRate == maxRate && lastValue == initialValue
    {
      this.maxRate := maxRate;
      lastValue := initialValue;
    }

    /** `update(target_value, dt)`: moves towards the target by at most
        `max_rate * dt` and returns the new value. */
    method Update(targetValue: real, dt: real) returns (r: real)
      modifies this
      ensures r == lastValue == SlewStep(old(lastValue), targetValue, maxRate, dt)
    {
      var change := targetValue - lastValue;
      var maxChange := maxRate * dt;
      if Abs(change) > maxChange {
        change := maxChange * (if change > 0.0 then 1.0 else -1.0);
      }
      lastValue := lastValue + change;
      r := lastValue;
    }
  }
}

/** pi/utils.py's `linear_map`, which clamps its result to [-5, 5]. */
module PiUtils {
  import opened Errors
  import opened Numeric
  import CommonUtils

  /** `min(max(<affine value>, -5), 5)`; a zero-width input range divides by zero. */
  function LinearMap(x: real, inMin: real := -1.0, inMax: real := 1.0,
                     outMin: real := -5.0, outMax: real := 5.0): (r: Result<real>)
    ensures r.Err? <==> inMin == inMax
    ensures r.Err? ==> r.error == ZeroDivisionError
    ensures r.Ok? ==> -5.0 <= r.value <= 5.0
  {
    match CommonUtils.LinearMap(x, inMin, inMax, outMin, outMax)
    case Err(e) => Err(e)
    case Ok(v) => Ok(ClampTo(v, -5.0, 5.0))
  }

  /** Where the affine value already lies in [-5, 5] the clamp changes nothing. */
  lemma LinearMapUnclamped(x: real, inMin: real, inMax: real, outMin: real, outMax: real)
    requires inMin != inMax
    requires -5.0 <= CommonUtils.Affine(x, inMin, inMax, outMin, outMax) <= 5.0
    ensures LinearMap(x, inMin, inMax, outMin, outMax) == Ok(CommonUtils.Affine(x, inMin, inMax, outMin, outMax))
  {
  }
}
