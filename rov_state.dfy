/** pi/rov_state.py: the vehicle's control state, its thruster mix and its
    control loop. */
module RovState {
  import opened Errors
  import opened Numeric
  import opened Velocity
  import Pid
  import CommonUtils
  import PiUtils
  import Hardware
  import SimHardware

  /** The thruster names, in the order the mix dictionary lists them. */
  const ThrusterNames: seq<string> := ["front_left_horizontal", "front_right_horizontal",
    "back_left_horizontal", "back_right_horizontal", "left_vertical", "right_vertical"]

  /** The unnormalised mix, one value per name of `ThrusterNames`: the four
      horizontal thrusters combine x, y and yaw, the two vertical ones z and
      roll; pitch is not used. */
  function RawMix(v: VelocityVector): (m: seq<real>)
    ensures |m| == |ThrusterNames|
  {
    [v.x + v.y + v.yaw, v.x - v.y - v.yaw, v.x - v.y + v.yaw, v.x + v.y - v.yaw, v.z + v.roll, v.z - v.roll]
  }

  /** Every value passed through pi/utils.py's `linear_map(value, inMin, inMax, -1, 1)`
      in order; the first failure ends the loop. */
  function NormalizeAll(values: seq<real>, inMin: real, inMax: real): (r: Result<seq<real>>)
    ensures r.Ok? ==> |r.value| == |values|
    ensures r.Ok? <==> (values == [] || inMin != inMax)
  {
    if values == [] then Ok([])
    else match PiUtils.LinearMap(values[0], inMin, inMax, -1.0, 1.0)
      case Err(e) => Err(e)
      case Ok(first) =>
        match NormalizeAll(values[1..], inMin, inMax)
        case Err(e) => Err(e)
        case Ok(rest) => Ok([first] + rest)
  }

  /** `_translate_velocity_to_thruster_mix` as written: the input range is
      given as (-3, -3). */
  function TranslateVelocityToThrusterMix(v: VelocityVector): Result<seq<real>>
  {
    NormalizeAll(RawMix(v), -3.0, -3.0)
  }

  /** The mix with the input range (-3, 3) the normalisation evidently means. */
  function NormalizedMix(v: VelocityVector): Result<seq<real>>
  {
    NormalizeAll(RawMix(v), -3.0, 3.0)
  }

  /** As written, the translation divides by zero whatever the velocity. */
  lemma MixAlwaysFails(v: VelocityVector)
    ensures TranslateVelocityToThrusterMix(v) == Err(ZeroDivisionError)
  {
  }

  /** With the range (-3, 3), each value is its raw mix divided by three, kept in [-5, 5]. */
  lemma {:induction false} NormalizeAllThirds(values: seq<real>)
    ensures NormalizeAll(values, -3.0, 3.0).Ok?
    ensures forall i :: 0 <= i < |values| ==> NormalizeAll(values, -3.0, 3.0).value[i] == ClampTo(values[i] / 3.0, -5.0, 5.0)
    decreases |values|
  {
    if values != [] {
      NormalizeAllThirds(values[1..]);
      assert CommonUtils.Affine(values[0], -3.0, 3.0, -1.0, 1.0) == values[0] / 3.0;
      var rest := NormalizeAll(values[1..], -3.0, 3.0).value;
      forall i | 1 <= i < |values|
        ensures NormalizeAll(values, -3.0, 3.0).value[i] == ClampTo(values[i] / 3.0, -5.0, 5.0)
      {
        assert values[i] == values[1..][i - 1];
      }
    }
  }

  /** The corrected mix keeps its promise to land in [-1, 1] whenever every
      velocity component lies in [-1, 1]. */
  lemma NormalizedMixInUnitRange(v: VelocityVector)
    requires forall i :: 0 <= i < |Keys| ==> -1.0 <= Component(v, i) <= 1.0
    ensures NormalizedMix(v).Ok?
    ensures forall i :: 0 <= i < |ThrusterNames| ==> -1.0 <= NormalizedMix(v).value[i] <= 1.0
  {
    assert -1.0 <= Component(v, 0) <= 1.0 && -1.0 <= Component(v, 1) <= 1.0 && -1.0 <= Component(v, 2) <= 1.0;
    assert -1.0 <= Component(v, 3) <= 1.0 && -1.0 <= Component(v, 5) <= 1.0;
    var raw := RawMix(v);
    RawMixWithinThree(v);
    NormalizeAllThirds(raw);
    var out := NormalizedMix(v).value;
    forall i | 0 <= i < |ThrusterNames|
      ensures -1.0 <= out[i] <= 1.0
    {
      ClampToWithin(raw[i] / 3.0, -5.0, 5.0);
    }
  }

  /** Components in [-1, 1] keep every raw mix value in [-3, 3]. */
  lemma RawMixWithinThree(v: VelocityVector)
    requires -1.0 <= v.x <= 1.0 && -1.0 <= v.y <= 1.0 && -1.0 <= v.z <= 1.0
    requires -1.0 <= v.yaw <= 1.0 && -1.0 <= v.roll <= 1.0
    ensures forall i :: 0 <= i < |ThrusterNames| ==> -3.0 <= RawMix(v)[i] <= 3.0
  {
    var m := RawMix(v);
    assert -3.0 <= m[0] <= 3.0 && -3.0 <= m[1] <= 3.0 && -3.0 <= m[2] <= 3.0;
    assert -3.0 <= m[3] <= 3.0 && -3.0 <= m[4] <= 3.0 && -3.0 <= m[5] <= 3.0;
  }

  /** The raw mix is linear: the mix of a sum is the sum of the mixes, and a
      still vehicle drives no thruster. */
  lemma RawMixLinear(a: VelocityVector, b: VelocityVector)
    ensures forall i :: 0 <= i < |ThrusterNames| ==> RawMix(Add(a, b))[i] == RawMix(a)[i] + RawMix(b)[i]
    ensures forall i :: 0 <= i < |ThrusterNames| ==> RawMix(Zero())[i] == 0.0
  {
    var s, ma, mb := RawMix(Add(a, b)), RawMix(a), RawMix(b);
    assert s[0] == ma[0] + mb[0] && s[1] == ma[1] + mb[1] && s[2] == ma[2] + mb[2];
    assert s[3] == ma[3] + mb[3] && s[4] == ma[4] + mb[4] && s[5] == ma[5] + mb[5];
  }

  /** Pitch has no thruster: changing it leaves the mix as it was. */
  lemma RawMixIgnoresPitch(v: VelocityVector, pitch: real)
    ensures RawMix(v.(pitch := pitch)) == RawMix(v)
  {
  }

  /** The velocity whose fields are `outs`, in declaration order. */
  function FromOutputs(outs: seq<real>): (v: VelocityVector)
    requires |outs| == |Keys|
    ensures forall i :: 0 <= i < |Keys| ==> Component(v, i) == outs[i]
  {
    VelocityVector(outs[0], outs[1], outs[2], outs[3], outs[4], outs[5])
  }

  /** `output_velocity[axis] = output` for every axis in turn, as written: each
      assignment goes to a discarded copy, so the vector stays at zero. */
  method StoreOutputsAsWritten(outs: seq<real>) returns (v: VelocityVector)
    requires |outs| == |Keys|
    ensures v == Zero()
  {
    v := Zero();
    for i := 0 to |Keys|
      invariant v == Zero()
    {
      v := SetItem(v, Keys[i], outs[i]);
    }
  }

  /** `output_velocity[axis] = output` for every axis in turn, with the
      assignment setting the field. */
  method StoreOutputs(outs: seq<real>) returns (v: VelocityVector)
    requires |outs| == |Keys|
    ensures v == FromOutputs(outs)
  {
    v := Zero();
    for i := 0 to |Keys|
      invariant forall j :: 0 <= j < i ==> Component(v, j) == outs[j]
    {
      WithItemReadsBack(v, Keys[i], outs[i]);
      WithItemKeepsOthers(v, Keys[i], outs[i]);
      v := WithItem(v, Keys[i], outs[i]);
    }
  }

  /** An actuator of the `thrusters` dictionary: a `Thruster` (pi/hardware.py)
      with its active range and direction, or a `SimThruster`
      (pi/sim_hardware.py) with its active range. */
  datatype ThrusterActuator =
    | PulseThruster(activeRange: (int, int), reverse: bool)
    | SimulatedThruster(simRange: (int, int))

  /** The value `set_val(val)` stores: the actuator's own `linear_map` of `val`. */
  function Mapped(t: ThrusterActuator, val: real): int
  {
    match t
    case PulseThruster(r, rev) => Hardware.ThrusterMap(r, rev, val)
    case SimulatedThruster(r) => SimHardware.SimThrusterMap(r, val)
  }

  /** `set_val(val)`'s range check: [0, 1800] for a `Thruster`, [0, 180] for
      a `SimThruster`. */
  function SetValOutcome(t: ThrusterActuator, val: real): Outcome
  {
    match t
    case PulseThruster(_, _) => Hardware.CheckAngle(Mapped(t, val), 1800)
    case SimulatedThruster(_) => Hardware.CheckAngle(Mapped(t, val), 180)
  }

  /** `self.thrusters[name].set_val(value)` for the `i`-th name succeeds: the
      name has a thruster, and that thruster accepts the value. */
  predicate Accepts(thrusters: map<string, ThrusterActuator>, i: nat, val: real)
    requires i < |ThrusterNames|
  {
    ThrusterNames[i] in thrusters && SetValOutcome(thrusters[ThrusterNames[i]], val) == Pass
  }

  /** How many names, from the `k`-th on, get through `set_val` before the
      first one that raises: a missing name (KeyError) or a rejected value
      (ValueError). */
  function Reached(thrusters: map<string, ThrusterActuator>, values: seq<real>, k: nat): (n: nat)
    requires |values| == |ThrusterNames| && k <= |ThrusterNames|
    ensures k <= n <= |ThrusterNames|
    ensures forall i :: k <= i < n ==> Accepts(thrusters, i, values[i])
    ensures n < |ThrusterNames| ==> !Accepts(thrusters, n, values[n])
    decreases |ThrusterNames| - k
  {
    if k == |ThrusterNames| || !Accepts(thrusters, k, values[k]) then k else Reached(thrusters, values, k + 1)
  }

  /** The error `set_val` raises for the `n`-th name when it is not accepted. */
  function FailureAt(thrusters: map<string, ThrusterActuator>, n: nat): (o: Outcome)
    requires n < |ThrusterNames|
    ensures o == Fail(KeyError) <==> ThrusterNames[n] !in thrusters
    ensures o == Fail(ValueError) <==> ThrusterNames[n] in thrusters
  {
    if ThrusterNames[n] in thrusters then Fail(ValueError) else Fail(KeyError)
  }

  /** The value each of the first `n` thrusters holds after its `set_val`,
      with its name, in name order. */
  function Stored(thrusters: map<string, ThrusterActuator>, values: seq<real>, n: nat): (ps: seq<(string, int)>)
    requires |values| == |ThrusterNames| && n <= |ThrusterNames|
    requires forall i :: 0 <= i < n ==> ThrusterNames[i] in thrusters
    ensures |ps| == n
    ensures forall i :: 0 <= i < n ==> ps[i] == (ThrusterNames[i], Mapped(thrusters[ThrusterNames[i]], values[i]))
  {
    seq(n, i requires 0 <= i < n => (ThrusterNames[i], Mapped(thrusters[ThrusterNames[i]], values[i])))
  }

  lemma StoredStep(thrusters: map<string, ThrusterActuator>, values: seq<real>, i: nat)
    requires |values| == |ThrusterNames| && i < |ThrusterNames|
    requires forall j :: 0 <= j <= i ==> ThrusterNames[j] in thrusters
    ensures Stored(thrusters, values, i + 1)
      == Stored(thrusters, values, i) + [(ThrusterNames[i], Mapped(thrusters[ThrusterNames[i]], values[i]))]
  {
  }

  /** An actuator whose active range lies inside its `set_val` check. */
  predicate InBand(t: ThrusterActuator)
  {
    match t
    case PulseThruster(r, _) => 0 <= r.0 <= r.1 <= 1800
    case SimulatedThruster(r) => 0 <= r.0 <= r.1 <= 180
  }

  /** Such an actuator accepts every value in [-1, 1]. */
  lemma InBandAcceptsUnit(t: ThrusterActuator, val: real)
    requires InBand(t) && -1.0 <= val <= 1.0
    ensures SetValOutcome(t, val) == Pass
  {
    match t
    case PulseThruster(r, rev) =>
      Hardware.ThrusterMapInRange(r, rev, val);
    case SimulatedThruster(r) =>
      Hardware.ThrusterMapInRange(r, false, val);
  }

  /** When every name has an actuator whose range lies inside its check, a
      mix in [-1, 1] reaches every thruster. */
  lemma UnitMixReachesAll(thrusters: map<string, ThrusterActuator>, values: seq<real>)
    requires |values| == |ThrusterNames|
    requires forall i :: 0 <= i < |ThrusterNames| ==> ThrusterNames[i] in thrusters && InBand(thrusters[ThrusterNames[i]])
    requires forall i :: 0 <= i < |values| ==> -1.0 <= values[i] <= 1.0
    ensures Reached(thrusters, values, 0) == |ThrusterNames|
  {
    var n := Reached(thrusters, values, 0);
    if n < |ThrusterNames| {
      InBandAcceptsUnit(thrusters[ThrusterNames[n]], values[n]);
      assert false;
    }
  }

  /** A default forward `Thruster` (range (1200, 1800)) rejects any value from
      1 + 1/300 up: its pulse width passes 1800. */
  lemma DefaultThrusterRejectsPastFull(val: real)
    requires 301.0 / 300.0 <= val
    ensures Mapped(PulseThruster((1200, 1800), false), val) > 1800
    ensures SetValOutcome(PulseThruster((1200, 1800), false), val) == Fail(ValueError)
  {
    var a := CommonUtils.Affine(val, -1.0, 1.0, 1200.0, 1800.0);
    assert a == 1500.0 + 300.0 * val;
    TruncMonotone(1801.0, a);
    TruncOfInt(1801);
  }

  /** Controller outputs whose mix stays in [-1, 1] reach every thruster
      whose range lies inside its check. */
  lemma UnitOutputsReachAll(thrusters: map<string, ThrusterActuator>, outs: seq<real>)
    requires |outs| == |Keys|
    requires forall i :: 0 <= i < |Keys| ==> -1.0 <= outs[i] <= 1.0
    requires forall i :: 0 <= i < |ThrusterNames| ==> ThrusterNames[i] in thrusters && InBand(thrusters[ThrusterNames[i]])
    ensures NormalizedMix(FromOutputs(outs)).Ok?
    ensures Reached(thrusters, NormalizedMix(FromOutputs(outs)).value, 0) == |ThrusterNames|
  {
    var v := FromOutputs(outs);
    NormalizedMixInUnitRange(v);
    UnitMixReachesAll(thrusters, NormalizedMix(v).value);
  }

  /** The front-left value of the corrected mix: the raw value divided by
      three, kept in [-5, 5]. */
  lemma NormalizedMixFrontLeft(v: VelocityVector)
    ensures NormalizedMix(v).Ok?
    ensures NormalizedMix(v).value[0] == ClampTo((v.x + v.y + v.yaw) / 3.0, -5.0, 5.0)
  {
    NormalizeAllThirds(RawMix(v));
  }

  /** Controller outputs whose front-left raw mix is 3.01 or more (a surge
      output of 11, about what a fresh x controller gives for a unit target
      over 100 ms, is one) mix past 1 + 1/300 there; a default forward
      `Thruster` maps that past 1800 and rejects it, so the first name
      already raises ValueError and no thruster is set. */
  lemma FrontLeftOverloadRejected(thrusters: map<string, ThrusterActuator>, outs: seq<real>)
    requires |outs| == |Keys| && outs[0] + outs[1] + outs[3] >= 3.01
    requires ThrusterNames[0] in thrusters && thrusters[ThrusterNames[0]] == PulseThruster((1200, 1800), false)
    ensures NormalizedMix(FromOutputs(outs)).Ok?
    ensures Reached(thrusters, NormalizedMix(FromOutputs(outs)).value, 0) == 0
    ensures FailureAt(thrusters, 0) == Fail(ValueError)
  {
    var v := FromOutputs(outs);
    NormalizedMixFrontLeft(v);
    var mix := NormalizedMix(v).value;
    assert (v.x + v.y + v.yaw) / 3.0 >= 301.0 / 300.0;
    DefaultThrusterRejectsPastFull(mix[0]);
    assert !Accepts(thrusters, 0, mix[0]);
  }

  /** The error of axis `i`: target minus current. */
  function AxisError(target: VelocityVector, current: VelocityVector, i: nat): real
    requires i < |Keys|
  {
    Component(target, i) - Component(current, i)
  }

  /** `ROVState`. The thruster actuators are represented by the map from
      their names to their kind and range, and a log of the values the
      control loop's `set_val` calls store. */
  class ROVState {
    const thrusters: map<string, ThrusterActuator>
    const pidControllers: seq<Pid.PIDController>
    const controlLoopFrequency: int
    var currentVelocity: VelocityVector
    var targetVelocity: VelocityVector
    var lastTime: int
    var sent: seq<(string, int)>

    /** One controller per axis, no two the same object. */
    ghost predicate Valid()
    {
      |pidControllers| == |Keys|
      && forall i, j :: 0 <= i < j < |pidControllers| ==> pidControllers[i] != pidControllers[j]
    }

    /** `ROVState(actuators, thrusters, sensors)` at clock reading `now`: both
        velocities zero and one fresh controller per axis with kp 1.0, ki 0.1,
        kd 0.01, output limit 90 and rate limit 180. */
    constructor (thrusters: map<string, ThrusterActuator>, now: int)
      ensures Valid()
      ensures this.thrusters == thrusters && lastTime == now && controlLoopFrequency == 10 && sent == []
      ensures currentVelocity == Zero() && targetVelocity == Zero()
      ensures forall i :: 0 <= i < |Keys| ==> fresh(pidControllers[i])
      ensures forall i :: 0 <= i < |Keys| ==> pidControllers[i].State() == Pid.Initial(1.0, 0.1, 0.01, 90.0, 180.0)
    {
      var cs: seq<Pid.PIDController> := [];
      for i := 0 to |Keys|
        invariant |cs| == i
        invariant forall j, k :: 0 <= j < k < i ==> cs[j] != cs[k]
        invariant forall j :: 0 <= j < i ==> fresh(cs[j]) && cs[j].Valid()
        invariant forall j :: 0 <= j < i ==> cs[j].State() == Pid.Initial(1.0, 0.1, 0.01, 90.0, 180.0)
      {
        var c := new Pid.PIDController(1.0, 0.1, 0.01, 90.0, 180.0);
        cs := cs + [c];
      }
      this.thrusters := thrusters;
      pidControllers := cs;
      controlLoopFrequency := 10;
      currentVelocity := Zero();
      targetVelocity := Zero();
      lastTime := now;
      sent := [];
    }

    /** One pass of the loop over `pid_controllers`: axis `i`'s controller is
        updated with that axis's error, and no other controller changes. */
    method UpdateAxis(i: nat, dt: real) returns (r: Result<real>)
      requires Valid() && i < |Keys|
      modifies pidControllers[i]
      ensures Valid()
      ensures forall j :: 0 <= j < |Keys| && j != i ==> pidControllers[j].State() == old(pidControllers[j].State())
      ensures dt == 0.0 ==> r == Err(ZeroDivisionError) && unchanged(pidControllers[i])
      ensures dt != 0.0 ==> r == Ok(Pid.Output(old(pidControllers[i].State()), AxisError(targetVelocity, currentVelocity, i), dt))
      ensures dt != 0.0 ==> pidControllers[i].State() == Pid.Next(old(pidControllers[i].State()), AxisError(targetVelocity, currentVelocity, i), dt)
    {
      var target := GetItem(targetVelocity, Keys[i]);
      var current := GetItem(currentVelocity, Keys[i]);
      var error := target.value - current.value;
      r := pidControllers[i].Update(error, dt);
    }

    /** The loop over `pid_controllers`: each axis's controller is updated
        with that axis's error and the same `dt`, and its output collected;
        a zero `dt` raises at the first controller, before anything changes. */
    method UpdateControllers(dt: real) returns (r: Result<seq<real>>)
      requires Valid()
      modifies pidControllers
      ensures Valid() && unchanged(this)
      ensures dt == 0.0 ==> r == Err(ZeroDivisionError) && unchanged(pidControllers)
      ensures dt != 0.0 ==> r.Ok? && |r.value| == |Keys|
      ensures dt != 0.0 ==> forall i :: 0 <= i < |Keys| ==>
        r.value[i] == Pid.Output(old(pidControllers[i].State()), AxisError(targetVelocity, currentVelocity, i), dt)
        && pidControllers[i].State() == Pid.Next(old(pidControllers[i].State()), AxisError(targetVelocity, currentVelocity, i), dt)
    {
      if dt == 0.0 {
        var first := UpdateAxis(0, dt);
        return Err(first.error);
      }
      var outs: seq<real> := [];
      for i := 0 to |Keys|
        invariant |outs| == i
        invariant forall j :: i <= j < |Keys| ==> pidControllers[j].State() == old(pidControllers[j].State())
        invariant forall j :: 0 <= j < i ==>
          outs[j] == Pid.Output(old(pidControllers[j].State()), AxisError(targetVelocity, currentVelocity, j), dt)
          && pidControllers[j].State() == Pid.Next(old(pidControllers[j].State()), AxisError(targetVelocity, currentVelocity, j), dt)
      {
        var out := UpdateAxis(i, dt);
        outs := outs + [out.value];
      }
      r := Ok(outs);
    }

    /** `control_loop` at clock reading `now`, as written: `dt` is the time since
        `last_time` in milliseconds; the controller outputs are written through
        `output_velocity[axis] = ...`, which leaves the vector at zero; the mix
        then divides by zero, so no thruster is set and `last_time` is never
        refreshed. */
    method ControlLoop(now: int) returns (o: Outcome)
      requires Valid()
      modifies pidControllers
      ensures Valid() && o == Fail(ZeroDivisionError)
      ensures now == lastTime ==> unchanged(pidControllers)
      ensures now != lastTime ==> forall i :: 0 <= i < |Keys| ==>
        pidControllers[i].State() == Pid.Next(old(pidControllers[i].State()), AxisError(targetVelocity, currentVelocity, i), (now - lastTime) as real)
    {
      var dt := now - lastTime;
      var outs := UpdateControllers(dt as real);
      if outs.Err? {
        return Fail(outs.error);
      }
      var outputVelocity := StoreOutputsAsWritten(outs.value);
      var thrusterMix := TranslateVelocityToThrusterMix(outputVelocity);
      MixAlwaysFails(outputVelocity);
      match thrusterMix {
        case Err(e) => return Fail(e);
        case Ok(_) => assert false;
      }
    }

    /** `set_val` for each value of a mix, in order: a name with no thruster
        raises KeyError, a value the thruster's check rejects raises
        ValueError, and either ends the loop; every accepted value is stored. */
    method SendMix(values: seq<real>) returns (o: Outcome)
      requires |values| == |ThrusterNames|
      modifies this
      ensures var n := Reached(thrusters, values, 0);
        sent == old(sent) + Stored(thrusters, values, n)
        && (n == |ThrusterNames| ==> o == Pass)
        && (n < |ThrusterNames| ==> o == FailureAt(thrusters, n))
      ensures lastTime == old(lastTime) && currentVelocity == old(currentVelocity) && targetVelocity == old(targetVelocity)
    {
      ghost var n := Reached(thrusters, values, 0);
      for i := 0 to |ThrusterNames|
        invariant i <= n && sent == old(sent) + Stored(thrusters, values, i)
        invariant lastTime == old(lastTime) && currentVelocity == old(currentVelocity) && targetVelocity == old(targetVelocity)
      {
        var name := ThrusterNames[i];
        if name !in thrusters {
          return Fail(KeyError);
        }
        var t := thrusters[name];
        if SetValOutcome(t, values[i]) != Pass {
          return Fail(ValueError);
        }
        StoredStep(thrusters, values, i);
        sent := sent + [(name, Mapped(t, values[i]))];
      }
      o := Pass;
    }

    /** After the controller outputs `outs` have gone out: the corrected mix
        of the velocity they make, sent thruster by thruster until a name has
        no thruster or a thruster rejects its value; `last_time` moves to
        `later` only when every thruster accepted its value. */
    ghost predicate MixSent(outs: seq<real>, sent0: seq<(string, int)>, last0: int, later: int, o: Outcome)
      requires |outs| == |Keys|
      reads this
    {
      var mix := NormalizedMix(FromOutputs(outs));
      mix.Ok?
      && var n := Reached(thrusters, mix.value, 0);
      sent == sent0 + Stored(thrusters, mix.value, n)
      && (n == |ThrusterNames| ==> o == Pass && lastTime == later)
      && (n < |ThrusterNames| ==> o == FailureAt(thrusters, n) && lastTime == last0)
    }

    /** The part of the corrected control loop after the controllers: store the
        outputs, mix, set the thrusters in turn, and move `last_time` on once
        every one has accepted its value. */
    method ApplyOutputs(outs: seq<real>, later: int) returns (o: Outcome)
      requires |outs| == |Keys|
      modifies this
      ensures MixSent(outs, old(sent), old(lastTime), later, o)
      ensures currentVelocity == old(currentVelocity) && targetVelocity == old(targetVelocity)
    {
      var outputVelocity := StoreOutputs(outs);
      var thrusterMix := NormalizedMix(outputVelocity);
      o := SendMix(thrusterMix.value);
      if o == Pass {
        lastTime := later;
      }
    }

    /** `control_loop` as evidently intended, at clock readings `now` (start)
        and `later` (end): the outputs go into the output velocity, the mix is
        normalised over (-3, 3), the thrusters are set in turn until one
        raises, and `last_time` moves on only when all of them accepted. */
    method ControlLoopCorrected(now: int, later: int) returns (o: Outcome, ghost outs: seq<real>)
      requires Valid()
      modifies this, pidControllers
      ensures Valid()
      ensures currentVelocity == old(currentVelocity) && targetVelocity == old(targetVelocity)
      ensures now == old(lastTime) ==> o == Fail(ZeroDivisionError) && sent == old(sent) && lastTime == old(lastTime)
      ensures now == old(lastTime) ==> unchanged(pidControllers)
      ensures now != old(lastTime) ==> |outs| == |Keys| && MixSent(outs, old(sent), old(lastTime), later, o)
      ensures now != old(lastTime) ==> forall i :: 0 <= i < |Keys| ==>
        outs[i] == Pid.Output(old(pidControllers[i].State()), AxisError(old(targetVelocity), old(currentVelocity), i), (now - old(lastTime)) as real)
        && pidControllers[i].State() == Pid.Next(old(pidControllers[i].State()), AxisError(old(targetVelocity), old(currentVelocity), i), (now - old(lastTime)) as real)
    {
      var dt := now - lastTime;
      var r := UpdateControllers(dt as real);
      if r.Err? {
        return Fail(r.error), [];
      }
      outs := r.value;
      o := ApplyOutputs(r.value, later);
    }
  }
}
