/** surface/joystick.py: the Xbox drive controller of the current surface
    program. Its items are kept in lists indexed as pygame numbers them; the
    controller turns them into a velocity vector, status flags and claw
    commands. */
module DriveJoystick {
  import opened Errors
  import opened Numeric
  import Velocity

  /** A `Button` (holds the last state) or a `Toggle` (flips on a truthy state). */
  datatype Key = Button(pressed: bool) | Toggle(pressed: bool)

  /** `update(state)`. */
  function KeyUpdate(b: Key, state: bool): (r: Key)
    ensures r.Button? == b.Button?
    ensures b.Button? ==> r.pressed == state
    ensures b.Toggle? ==> (r.pressed <==> b.pressed != state)
  {
    match b
    case Button(_) => Button(state)
    case Toggle(p) => if state then Toggle(!p) else b
  }

  /** A `Hat`: `up` and `right`. */
  datatype Hat = Hat(up: int, right: int)

  /** `Hat.update(state)`: pygame reports `(x, y)`, so `up` takes the second
      value and `right` the first. */
  function HatUpdate(h: Hat, state: (int, int)): (r: Hat)
    ensures r.up == state.1 && r.right == state.0
  {
    Hat(state.1, state.0)
  }

  /** `Hat.get_joy_val()`: `(up, right)`, the reverse of the order pygame reports. */
  function HatValue(h: Hat): (int, int)
  {
    (h.up, h.right)
  }

  /** Reading a hat back after an update swaps the reported pair. */
  lemma HatRoundTrip(h: Hat, state: (int, int))
    ensures HatValue(HatUpdate(h, state)) == (state.1, state.0)
  {
  }

  /** A toggle held down through `n` polls flips on every one of them. */
  function HeldPolls(b: Key, n: nat): Key
  {
    if n == 0 then b else KeyUpdate(HeldPolls(b, n - 1), true)
  }

  lemma {:induction false} HeldToggleFlipsEachPoll(p: bool, n: nat)
    ensures HeldPolls(Toggle(p), n) == Toggle(if n % 2 == 0 then p else !p)
  {
    if n > 0 {
      HeldToggleFlipsEachPoll(p, n - 1);
      assert (n - 1) % 2 == 0 <==> n % 2 == 1;
    }
  }

  /** A pygame event as `Controller.update` reads it. */
  datatype Event =
    | AxisMotion(axis: int, value: real)
    | ButtonDown(button: int)
    | ButtonUp(button: int)
    | HatMotion(hat: int, position: (int, int))
    | OtherEvent

  /** `roll = (int(RB) - int(LB)) * 0.5`. */
  function Roll(lb: bool, rb: bool): (r: real)
    ensures r in {-0.5, 0.0, 0.5}
    ensures r == 0.5 <==> rb && !lb
    ensures r == -0.5 <==> lb && !rb
  {
    ((if rb then 1 else 0) - (if lb then 1 else 0)) as real * 0.5
  }

  /** The velocity vector of `get_velocity_vector` from the polled items,
      `deadzone` standing for `utils.deadzone_retrict`. The sticks give x
      (negated), y, z and yaw (negated); the triggers give pitch; the
      bumpers give roll. */
  function VelocityOf(axes: seq<real>, buttons: seq<Key>, deadzone: real -> real): (v: Velocity.VelocityVector)
    requires |axes| >= 6 && |buttons| >= 10
    ensures v.roll == Roll(buttons[4].pressed, buttons[5].pressed)
    ensures v.x == -deadzone(axes[0]) && v.y == deadzone(axes[1])
    ensures v.z == deadzone(axes[4]) && v.yaw == -deadzone(axes[3])
    ensures v.pitch == (deadzone(axes[2]) - deadzone(axes[5])) / 2.0
  {
    Velocity.VelocityVector(
      deadzone(axes[0]) * -1.0,
      deadzone(axes[1]),
      deadzone(axes[4]),
      deadzone(axes[3]) * -1.0,
      (deadzone(axes[2]) + 1.0) / 2.0 - (deadzone(axes[5]) + 1.0) / 2.0,
      Roll(buttons[4].pressed, buttons[5].pressed))
  }

  /** The flags of `get_status_flags`. */
  datatype StatusFlags = StatusFlags(agnesFactor: real, agnesMode: bool, autoDepth: bool)

  /** The claw entries `get_claw_vector` writes next to `camera_servo`. */
  datatype ClawValues = ClawValues(extend: real, rotate: real, closeMain: real, closeSide: int, sample: int)

  /** `close_side = int(LB) * 6 + int(RB) * -4 + 92`. */
  function CloseSide(lb: bool, rb: bool): (r: int)
    ensures r in {88, 92, 94, 98}
    ensures r == 92 <==> !lb && !rb
  {
    (if lb then 1 else 0) * 6 + (if rb then 1 else 0) * -4 + 92
  }

  /** `sample = int(B) - int(A)`. */
  function Sample(a: bool, b: bool): (r: int)
    ensures r in {-1, 0, 1}
    ensures r == 1 <==> b && !a
  {
    (if b then 1 else 0) - (if a then 1 else 0)
  }

  /** `camera_servo` moved by half the hat's `up` value, clamped to [0, 180]. */
  function CameraStep(servo: real, up: int): (r: real)
    ensures 0.0 <= r <= 180.0
    ensures 0.0 <= servo + up as real / 2.0 <= 180.0 ==> r == servo + up as real / 2.0
  {
    Max(Min(servo + up as real / 2.0, 180.0), 0.0)
  }

  /** The camera servo position after the hat has read the given `up` values. */
  function CameraSteps(servo: real, ups: seq<int>): real
  {
    if ups == [] then servo else CameraStep(CameraSteps(servo, ups[..|ups| - 1]), ups[|ups| - 1])
  }

  /** Starting at 90, the camera servo never leaves [0, 180], and with the hat
      at rest it does not move. */
  lemma {:induction false} CameraStaysInRange(servo: real, ups: seq<int>)
    requires 0.0 <= servo <= 180.0
    ensures 0.0 <= CameraSteps(servo, ups) <= 180.0
    ensures (forall i :: 0 <= i < |ups| ==> ups[i] == 0) ==> CameraSteps(servo, ups) == servo
    decreases |ups|
  {
    if ups != [] {
      CameraStaysInRange(servo, ups[..|ups| - 1]);
    }
  }

  /** `close_main`: the right trigger closes, the left opens, around 92. */
  function CloseMain(deadzone: real -> real, lt: real, rt: real): real
  {
    (deadzone(rt) + 1.0) * -4.0 + (deadzone(lt) + 1.0) * 4.0 + 92.0
  }

  /** With dead-zoned trigger values in [-1, 1] the main claw stays in [84, 100]. */
  lemma CloseMainInRange(deadzone: real -> real, lt: real, rt: real)
    requires -1.0 <= deadzone(lt) <= 1.0 && -1.0 <= deadzone(rt) <= 1.0
    ensures 84.0 <= CloseMain(deadzone, lt, rt) <= 100.0
  {
  }

  /** The claw entries from the polled items. */
  function ClawOf(axes: seq<real>, buttons: seq<Key>, deadzone: real -> real): (c: ClawValues)
    requires |axes| >= 6 && |buttons| >= 10
    ensures c.closeSide == CloseSide(buttons[4].pressed, buttons[5].pressed)
    ensures c.sample == Sample(buttons[0].pressed, buttons[1].pressed)
    ensures c.extend == deadzone(axes[1]) && c.rotate == 90.0 - 90.0 * deadzone(axes[3])
    ensures c.closeMain == CloseMain(deadzone, axes[2], axes[5])
  {
    ClawValues(
      deadzone(axes[1]),
      deadzone(axes[3]) * -90.0 + 90.0,
      CloseMain(deadzone, axes[2], axes[5]),
      CloseSide(buttons[4].pressed, buttons[5].pressed),
      Sample(buttons[0].pressed, buttons[1].pressed))
  }

  /** `XBoxDriveController` with the list items of its base class
      `Controller`; the name dictionaries are the list positions A = 0, B = 1,
      X = 2, Y = 3, LB = 4, RB = 5; left_x = 0, left_y = 1, left_trigger = 2,
      right_x = 3, right_y = 4, right_trigger = 5; hat = 0. */
  class XBoxDriveController {
    var axes: seq<real>
    var buttons: seq<Key>
    var hats: seq<Hat>
    var velocityVec: Velocity.VelocityVector
    var statusFlags: StatusFlags
    var cameraServo: real
    var claw: Option<ClawValues>

    /** The device has the items the name dictionaries refer to. */
    predicate Valid()
      reads this
    {
      |axes| >= 6 && |buttons| >= 10 && |hats| >= 1
    }

    /** `XBoxDriveController(joy_id)` for a device with the given numbers of
        axes, buttons and hats: every axis at 0.0, toggles exactly at 2 and 3,
        every hat at (0, 0). */
    constructor (axisCount: nat, buttonCount: nat, hatCount: nat)
      requires axisCount >= 6 && buttonCount >= 10 && hatCount >= 1
      ensures Valid()
      ensures |axes| == axisCount && forall i :: 0 <= i < axisCount ==> axes[i] == 0.0
      ensures |buttons| == buttonCount
      ensures forall i :: 0 <= i < buttonCount ==> buttons[i] == if i in [2, 3] then Toggle(false) else Button(false)
      ensures |hats| == hatCount && forall i :: 0 <= i < hatCount ==> hats[i] == Hat(0, 0)
      ensures velocityVec == Velocity.Zero()
      ensures statusFlags == StatusFlags(0.3, false, false)
      ensures cameraServo == 90.0 && claw == None
    {
      var xs, bs, hs := [], [], [];
      for i := 0 to axisCount
        invariant |xs| == i && forall j :: 0 <= j < i ==> xs[j] == 0.0
      {
        xs := xs + [0.0];
      }
      for i := 0 to buttonCount
        invariant |bs| == i && forall j :: 0 <= j < i ==> bs[j] == if j in [2, 3] then Toggle(false) else Button(false)
      {
        bs := bs + [if i in [2, 3] then Toggle(false) else Button(false)];
      }
      for i := 0 to hatCount
        invariant |hs| == i && forall j :: 0 <= j < i ==> hs[j] == Hat(0, 0)
      {
        hs := hs + [Hat(0, 0)];
      }
      axes, buttons, hats := xs, bs, hs;
      velocityVec := Velocity.Zero();
      statusFlags := StatusFlags(0.3, false, false);
      cameraServo, claw := 90.0, None;
    }

    /** `Controller.update(event)`: list indexing, negative indexes counting
        from the end; an index out of range raises `IndexError`. */
    method Update(e: Event) returns (o: Outcome)
      requires Valid()
      modifies this
      ensures Valid()
      ensures velocityVec == old(velocityVec) && statusFlags == old(statusFlags)
      ensures cameraServo == old(cameraServo) && claw == old(claw)
      ensures e.AxisMotion? ==>
        if InListRange(|old(axes)|, e.axis)
        then o == Pass && axes == old(axes)[ListPosition(|old(axes)|, e.axis) := e.value]
        else o == Fail(IndexError) && axes == old(axes)
      ensures (e.ButtonDown? || e.ButtonUp?) ==>
        if InListRange(|old(buttons)|, e.button)
        then o == Pass && buttons == old(buttons)[ListPosition(|old(buttons)|, e.button) :=
          KeyUpdate(old(buttons)[ListPosition(|old(buttons)|, e.button)], e.ButtonDown?)]
        else o == Fail(IndexError) && buttons == old(buttons)
      ensures e.HatMotion? ==>
        if InListRange(|old(hats)|, e.hat)
        then o == Pass && hats == old(hats)[ListPosition(|old(hats)|, e.hat) :=
          HatUpdate(old(hats)[ListPosition(|old(hats)|, e.hat)], e.position)]
        else o == Fail(IndexError) && hats == old(hats)
      ensures !e.AxisMotion? ==> axes == old(axes)
      ensures !(e.ButtonDown? || e.ButtonUp?) ==> buttons == old(buttons)
      ensures !e.HatMotion? ==> hats == old(hats)
      ensures e.OtherEvent? ==> o == Pass
    {
      match e
      case AxisMotion(a, v) =>
        if !InListRange(|axes|, a) {
          return Fail(IndexError);
        }
        axes := axes[ListPosition(|axes|, a) := v];
        o := Pass;
      case ButtonDown(b) =>
        if !InListRange(|buttons|, b) {
          return Fail(IndexError);
        }
        var k := ListPosition(|buttons|, b);
        buttons := buttons[k := KeyUpdate(buttons[k], true)];
        o := Pass;
      case ButtonUp(b) =>
        if !InListRange(|buttons|, b) {
          return Fail(IndexError);
        }
        var k := ListPosition(|buttons|, b);
        buttons := buttons[k := KeyUpdate(buttons[k], false)];
        o := Pass;
      case HatMotion(h, p) =>
        if !InListRange(|hats|, h) {
          return Fail(IndexError);
        }
        var k := ListPosition(|hats|, h);
        hats := hats[k := HatUpdate(hats[k], p)];
        o := Pass;
      case OtherEvent =>
        o := Pass;
    }

    /** `_poll()`: every item updated with the device's current reading, in
        index order; a toggle held down flips on every poll. */
    method Poll(axisReadings: seq<real>, buttonReadings: seq<bool>, hatReadings: seq<(int, int)>)
      requires Valid()
      requires |axisReadings| == |axes| && |buttonReadings| == |buttons| && |hatReadings| == |hats|
      modifies this
      ensures Valid()
      ensures axes == axisReadings
      ensures |buttons| == |old(buttons)|
      ensures forall i :: 0 <= i < |buttons| ==> buttons[i] == KeyUpdate(old(buttons)[i], buttonReadings[i])
      ensures |hats| == |old(hats)|
      ensures forall i :: 0 <= i < |hats| ==> hats[i] == HatUpdate(old(hats)[i], hatReadings[i])
      ensures velocityVec == old(velocityVec) && statusFlags == old(statusFlags)
      ensures cameraServo == old(cameraServo) && claw == old(claw)
    {
      var xs := axes;
      for i := 0 to |xs|
        invariant |xs| == |axisReadings|
        invariant forall j :: 0 <= j < i ==> xs[j] == axisReadings[j]
      {
        xs := xs[i := axisReadings[i]];
      }
      var bs := buttons;
      for i := 0 to |bs|
        invariant |bs| == |buttons|
        invariant forall j :: 0 <= j < i ==> bs[j] == KeyUpdate(buttons[j], buttonReadings[j])
        invariant forall j :: i <= j < |bs| ==> bs[j] == buttons[j]
      {
        bs := bs[i := KeyUpdate(bs[i], buttonReadings[i])];
      }
      var hs := hats;
      for i := 0 to |hs|
        invariant |hs| == |hats|
        invariant forall j :: 0 <= j < i ==> hs[j] == HatUpdate(hats[j], hatReadings[j])
        invariant forall j :: i <= j < |hs| ==> hs[j] == hats[j]
      {
        hs := hs[i := HatUpdate(hs[i], hatReadings[i])];
      }
      axes, buttons, hats := xs, bs, hs;
    }

    /** `get_velocity_vector()`: poll, then set every field of the vector from
        the polled items. */
    method GetVelocityVector(axisReadings: seq<real>, buttonReadings: seq<bool>, hatReadings: seq<(int, int)>,
                             deadzone: real -> real) returns (v: Velocity.VelocityVector)
      requires Valid()
      requires |axisReadings| == |axes| && |buttonReadings| == |buttons| && |hatReadings| == |hats|
      modifies this
      ensures Valid() && axes == axisReadings
      ensures |buttons| == |old(buttons)| && |hats| == |old(hats)|
      ensures forall i :: 0 <= i < |buttons| ==> buttons[i] == KeyUpdate(old(buttons)[i], buttonReadings[i])
      ensures forall i :: 0 <= i < |hats| ==> hats[i] == HatUpdate(old(hats)[i], hatReadings[i])
      ensures v == velocityVec == VelocityOf(axes, buttons, deadzone)
      ensures statusFlags == old(statusFlags) && cameraServo == old(cameraServo) && claw == old(claw)
    {
      Poll(axisReadings, buttonReadings, hatReadings);
      velocityVec := VelocityOf(axes, buttons, deadzone);
      v := velocityVec;
    }

    /** `get_status_flags()`: the agnes factor moves by `0.002 * up` of the
        hat; the mode follows Y and auto-depth follows X. */
    method GetStatusFlags() returns (f: StatusFlags)
      requires Valid()
      modifies this
      ensures f == statusFlags
      ensures axes == old(axes) && buttons == old(buttons) && hats == old(hats)
      ensures statusFlags.agnesFactor == old(statusFlags.agnesFactor) + hats[0].up as real * 0.002
      ensures statusFlags.agnesMode == buttons[3].pressed && statusFlags.autoDepth == buttons[2].pressed
      ensures velocityVec == old(velocityVec) && cameraServo == old(cameraServo) && claw == old(claw)
    {
      var up := HatValue(hats[0]).0;
      statusFlags := StatusFlags(statusFlags.agnesFactor + up as real * 0.002, buttons[3].pressed, buttons[2].pressed);
      f := statusFlags;
    }

    /** `get_claw_vector()`: poll, set the claw entries and move the camera
        servo by half the hat's `up` value within [0, 180]. */
    method GetClawVector(axisReadings: seq<real>, buttonReadings: seq<bool>, hatReadings: seq<(int, int)>,
                         deadzone: real -> real) returns (servo: real, c: ClawValues)
      requires Valid()
      requires |axisReadings| == |axes| && |buttonReadings| == |buttons| && |hatReadings| == |hats|
      modifies this
      ensures Valid() && axes == axisReadings
      ensures |buttons| == |old(buttons)| && |hats| == |old(hats)|
      ensures forall i :: 0 <= i < |buttons| ==> buttons[i] == KeyUpdate(old(buttons)[i], buttonReadings[i])
      ensures forall i :: 0 <= i < |hats| ==> hats[i] == HatUpdate(old(hats)[i], hatReadings[i])
      ensures claw == Some(c) && c == ClawOf(axes, buttons, deadzone)
      ensures servo == cameraServo == CameraStep(old(cameraServo), hats[0].up)
      ensures velocityVec == old(velocityVec) && statusFlags == old(statusFlags)
    {
      Poll(axisReadings, buttonReadings, hatReadings);
      c := ClawOf(axes, buttons, deadzone);
      claw := Some(c);
      cameraServo := CameraStep(cameraServo, HatValue(hats[0]).0);
      servo := cameraServo;
    }
  }
}
