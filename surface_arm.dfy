/** surface/arm.py: the surface joysticks that drive the thrusters and the
    arm. Each joystick keeps dictionaries of buttons and axes that pygame
    events update, and turns them into a `pin:val;` message. */
module SurfaceArm {
  import opened Errors
  import opened Numeric
  import opened JoyItems
  import opened PinProtocol
  import Text
  import ArmFromPi

  /** `joystick` (thruster mix) or its subclass `arm_joystick`. */
  datatype JoyKind = Drive | Arm

  /** A joystick's items and settings; the dictionaries' keys are 0 to n-1. */
  datatype JoyState = JoyState(kind: JoyKind, buttons: seq<Item>, axes: seq<real>, hat: (int, int),
                               center: real, radius: real, ratio: real)

  /** `flip_thruster(val)`: the reflection of `val` about the centre. */
  function FlipThruster(center: real, v: real): (r: real)
    ensures r - center == center - v
  {
    2.0 * center - v
  }

  /** Flipping twice gives back the value; the centre is fixed. */
  lemma FlipThrusterInvolution(center: real, v: real)
    ensures FlipThruster(center, FlipThruster(center, v)) == v
    ensures FlipThruster(center, center) == center
  {
  }

  /** The precision factor: 1.0 while button 0 reads 0, `ratio` once it reads
      more than 0.1. */
  function Precision(s: JoyState): real
    requires |s.buttons| >= 1
  {
    var p := s.buttons[0].pressed as real + 1.0;
    if p > 1.1 then s.ratio else p
  }

  lemma PrecisionOnOff(s: JoyState)
    requires |s.buttons| >= 1
    ensures s.buttons[0].pressed == 0 ==> Precision(s) == 1.0
    ensures s.buttons[0].pressed >= 1 ==> Precision(s) == s.ratio
  {
  }

  /** One horizontal thruster: the scaled average of three axis terms around the centre. */
  function Horizontal(scale: real, sum: real, center: real): real
  {
    scale * sum / 3.0 + center
  }

  /** A sum of three terms in [-1, 1] keeps a horizontal thruster, flipped or
      not, within `scale` of the centre. */
  lemma HorizontalInBand(scale: real, sum: real, center: real)
    requires 0.0 <= scale && -3.0 <= sum <= 3.0
    ensures center - scale <= Horizontal(scale, sum, center) <= center + scale
    ensures center - scale <= FlipThruster(center, Horizontal(scale, sum, center)) <= center + scale
  {
    MulNonNegative(scale, 3.0 - sum);
    MulNonNegative(scale, sum + 3.0);
  }

  /** The six thruster values of `joystick.get_rov_input` before `int()`, for
      pins 4 to 9, from the stick values: front-left (flipped), front-right,
      back-left (flipped), back-right, scaled by `radius * precision`, and the
      two verticals, scaled by `radius`. */
  function Mix(radius: real, precision: real, right: real, forward: real, yaw: real, height: real, center: real): (vs: seq<real>)
    ensures |vs| == 6 && vs[4] == vs[5]
  {
    var scale := radius * precision;
    var frontLeft := Horizontal(scale, forward + right + yaw, center);
    var backLeft := Horizontal(scale, forward - right + yaw, center);
    var frontRight := Horizontal(scale, forward - right - yaw, center);
    var backRight := Horizontal(scale, forward + right - yaw, center);
    var vertical := center + radius * height;
    [FlipThruster(center, frontLeft), frontRight, FlipThruster(center, backLeft), backRight, vertical, vertical]
  }

  /** `joystick.get_rov_input`'s values: the axes read as right, forward
      (negated), yaw and height (negated). Axes 4 and 5 are read but unused. */
  function DriveValues(s: JoyState): (vs: seq<real>)
    requires |s.axes| >= 6 && |s.buttons| >= 1
    ensures |vs| == 6 && vs[4] == vs[5]
  {
    Mix(s.radius, Precision(s), s.axes[0], -s.axes[1], s.axes[2], -s.axes[3], s.center)
  }

  /** The four horizontal mixes of three stick values in [-1, 1]. */
  lemma HorizontalsInBand(scale: real, right: real, forward: real, yaw: real, center: real)
    requires 0.0 <= scale && -1.0 <= right <= 1.0 && -1.0 <= forward <= 1.0 && -1.0 <= yaw <= 1.0
    ensures center - scale <= FlipThruster(center, Horizontal(scale, forward + right + yaw, center)) <= center + scale
    ensures center - scale <= Horizontal(scale, forward - right - yaw, center) <= center + scale
    ensures center - scale <= FlipThruster(center, Horizontal(scale, forward - right + yaw, center)) <= center + scale
    ensures center - scale <= Horizontal(scale, forward + right - yaw, center) <= center + scale
  {
    HorizontalInBand(scale, forward + right + yaw, center);
    HorizontalInBand(scale, forward - right + yaw, center);
    HorizontalInBand(scale, forward - right - yaw, center);
    HorizontalInBand(scale, forward + right - yaw, center);
  }

  lemma VerticalInBand(radius: real, height: real, center: real)
    requires 0.0 <= radius && -1.0 <= height <= 1.0
    ensures center - radius <= center + radius * height <= center + radius
  {
    ScaleWithin(radius, height);
  }

  /** Stick values in [-1, 1] keep the four horizontals within
      `radius * precision` of the centre and the verticals within `radius`. */
  lemma MixInBand(radius: real, precision: real, right: real, forward: real, yaw: real, height: real, center: real)
    requires 0.0 <= radius && 0.0 <= precision
    requires -1.0 <= right <= 1.0 && -1.0 <= forward <= 1.0 && -1.0 <= yaw <= 1.0 && -1.0 <= height <= 1.0
    ensures var vs, scale := Mix(radius, precision, right, forward, yaw, height, center), radius * precision;
      forall k :: 0 <= k < 4 ==> center - scale <= vs[k] <= center + scale
    ensures center - radius <= Mix(radius, precision, right, forward, yaw, height, center)[4] <= center + radius
  {
    MulNonNegative(radius, precision);
    HorizontalsInBand(radius * precision, right, forward, yaw, center);
    VerticalInBand(radius, height, center);
  }

  /** With the four stick axes in [-1, 1] and non-negative scales, every
      horizontal value stays within `radius * precision` of the centre and
      both verticals within `radius`. */
  lemma DriveValuesInBand(s: JoyState)
    requires |s.axes| >= 6 && |s.buttons| >= 1
    requires forall i :: 0 <= i < 4 ==> -1.0 <= s.axes[i] <= 1.0
    requires 0.0 <= s.radius && 0.0 <= Precision(s)
    ensures var vs, scale := DriveValues(s), s.radius * Precision(s);
      forall k :: 0 <= k < 4 ==> s.center - scale <= vs[k] <= s.center + scale
    ensures s.center - s.radius <= DriveValues(s)[4] <= s.center + s.radius
  {
    assert -1.0 <= s.axes[0] <= 1.0 && -1.0 <= s.axes[1] <= 1.0 && -1.0 <= s.axes[2] <= 1.0 && -1.0 <= s.axes[3] <= 1.0;
    MixInBand(s.radius, Precision(s), s.axes[0], -s.axes[1], s.axes[2], -s.axes[3], s.center);
  }

  /** Sticks at rest: every thruster sits at the centre. */
  lemma DriveValuesAtRest(s: JoyState)
    requires |s.axes| >= 6 && |s.buttons| >= 1
    requires forall i :: 0 <= i < 4 ==> s.axes[i] == 0.0
    ensures forall k :: 0 <= k < 6 ==> DriveValues(s)[k] == s.center
  {
  }

  /** The pin dictionary of `joystick.get_rov_input`; a missing axis 0 to 5 or
      button 0 is a `KeyError`. */
  function DriveCommands(s: JoyState): (r: Result<seq<Command>>)
    ensures r.Ok? <==> |s.axes| >= 6 && |s.buttons| >= 1
    ensures r.Err? ==> r.error == KeyError
    ensures r.Ok? ==> (|r.value| == 6
      && forall k :: 0 <= k < 6 ==> r.value[k] == Command(4 + k, Trunc(DriveValues(s)[k])))
  {
    if |s.axes| < 6 || |s.buttons| < 1 then Err(KeyError)
    else
      var vs := DriveValues(s);
      Ok([Command(4, Trunc(vs[0])), Command(5, Trunc(vs[1])), Command(6, Trunc(vs[2])),
          Command(7, Trunc(vs[3])), Command(8, Trunc(vs[4])), Command(9, Trunc(vs[5]))])
  }

  /** `wrist` and `extend` of `arm_joystick.get_rov_input`: the two branches
      of the conditional give the same value, and the dead zone it was meant
      to have never applies. */
  function ArmAxis(a: real): (r: real)
    ensures r == 50.0 * a
  {
    if a < 0.1 then 50.0 * a else if a > -0.1 then 50.0 * a else 0.0
  }

  /** The pin dictionary of `arm_joystick.get_rov_input`: the claw servo on
      pin 10 (180 while button 0 is on, else 20), the linear actuator buttons 4
      and 5 on pins 2 and 3, and the two arm axes on pins 12 and 13. */
  function ArmCommands(s: JoyState): (r: Result<seq<Command>>)
    ensures r.Ok? <==> |s.buttons| >= 6 && |s.axes| >= 2
    ensures r.Err? ==> r.error == KeyError
    ensures r.Ok? ==> (|r.value| == 5
      && r.value[0] == Command(10, if s.buttons[0].pressed > 0 then 180 else 20)
      && r.value[1] == Command(2, s.buttons[4].pressed)
      && r.value[2] == Command(3, s.buttons[5].pressed)
      && r.value[3] == Command(12, Trunc(50.0 * s.axes[0]))
      && r.value[4] == Command(13, Trunc(-50.0 * s.axes[1])))
  {
    if |s.buttons| < 6 || |s.axes| < 2 then Err(KeyError)
    else
      var servo := if s.buttons[0].pressed > 0 then 180 else 20;
      var la, ua := s.axes[0], -1.0 * s.axes[1];
      Ok([Command(10, servo), Command(2, s.buttons[4].pressed), Command(3, s.buttons[5].pressed),
          Command(12, Trunc(ArmAxis(la))), Command(13, Trunc(ArmAxis(ua)))])
  }

  /** With its arm axes in [-1, 1] the arm joystick's pins 12 and 13 stay in
      [-50, 50]. */
  lemma ArmCommandsInRange(s: JoyState)
    requires |s.buttons| >= 6 && |s.axes| >= 2
    requires -1.0 <= s.axes[0] <= 1.0 && -1.0 <= s.axes[1] <= 1.0
    ensures -50 <= ArmCommands(s).value[3].val <= 50 && -50 <= ArmCommands(s).value[4].val <= 50
  {
    TruncBetween(50.0 * s.axes[0], -50, 50);
    TruncBetween(-50.0 * s.axes[1], -50, 50);
  }

  /** The commands of `get_rov_input` for either kind of joystick. */
  function Commands(s: JoyState): Result<seq<Command>>
  {
    match s.kind
    case Drive => DriveCommands(s)
    case Arm => ArmCommands(s)
  }

  /** A pygame event as `detect_event` reads it. */
  datatype Event =
    | AxisMotion(axis: int, value: real)
    | BallMotion
    | ButtonDown(button: int)
    | ButtonUp(button: int)
    | HatMotion(position: (int, int))
    | OtherEvent

  /** The joystick's shape: kind, settings, the number of items and which
      buttons are toggles. */
  predicate SameShape(s: JoyState, t: JoyState)
  {
    t.kind == s.kind && t.center == s.center && t.radius == s.radius && t.ratio == s.ratio
    && |t.buttons| == |s.buttons| && |t.axes| == |s.axes|
    && forall i :: 0 <= i < |s.buttons| ==> t.buttons[i].Toggle? == s.buttons[i].Toggle?
  }

  /** The item update of `detect_event`: a key missing from a dictionary is a
      `KeyError`; a hat motion stores its two values; other events change nothing. */
  function ApplyEvent(s: JoyState, e: Event): (r: Result<JoyState>)
    ensures r.Ok? ==> SameShape(s, r.value)
    ensures r.Err? ==> r.error == KeyError
    ensures r.Err? <==> ((e.AxisMotion? && !(0 <= e.axis < |s.axes|))
                      || ((e.ButtonDown? || e.ButtonUp?) && !(0 <= e.button < |s.buttons|)))
  {
    match e
    case AxisMotion(a, v) =>
      if 0 <= a < |s.axes| then Ok(s.(axes := s.axes[a := v])) else Err(KeyError)
    case ButtonDown(b) =>
      if 0 <= b < |s.buttons| then Ok(s.(buttons := s.buttons[b := Update(s.buttons[b], 1)])) else Err(KeyError)
    case ButtonUp(b) =>
      if 0 <= b < |s.buttons| then Ok(s.(buttons := s.buttons[b := Update(s.buttons[b], 0)])) else Err(KeyError)
    case HatMotion(v) => Ok(s.(hat := v))
    case BallMotion => Ok(s)
    case OtherEvent => Ok(s)
  }

  /** An axis motion changes that one axis and nothing else. */
  lemma AxisMotionOnly(s: JoyState, a: int, v: real)
    requires 0 <= a < |s.axes|
    ensures ApplyEvent(s, AxisMotion(a, v)) == Ok(s.(axes := s.axes[a := v]))
    ensures var t := ApplyEvent(s, AxisMotion(a, v)).value;
      t.axes[a] == v && (forall i :: 0 <= i < |s.axes| && i != a ==> t.axes[i] == s.axes[i])
      && t.buttons == s.buttons && t.hat == s.hat
  {
  }

  /** Pressing and releasing a button leaves a button at 0, and a toggle at 0
      or 1 flipped. */
  lemma PressRelease(s: JoyState, b: int)
    requires 0 <= b < |s.buttons| && s.buttons[b].pressed in {0, 1}
    ensures ApplyEvent(s, ButtonDown(b)).Ok?
    ensures var t := ApplyEvent(ApplyEvent(s, ButtonDown(b)).value, ButtonUp(b)).value;
      t.buttons[b] == (if s.buttons[b].Toggle? then Toggle(1 - s.buttons[b].pressed) else Button(0))
  {
  }

  /** A joystick of `arm.py`. */
  class Joystick {
    const kind: JoyKind
    const center: real
    const radius: real
    const ratio: real
    var buttons: seq<Item>
    var axes: seq<real>
    var hat: (int, int)

    function State(): JoyState
      reads this
    {
      JoyState(kind, buttons, axes, hat, center, radius, ratio)
    }

    /** `joystick(buttons, axes, toggle_vals, trigger_vals, center, radius,
        ratio)`: toggles where listed, triggers at -1 and other axes at 0, the
        hat at (0, 0). */
    constructor (kind: JoyKind, buttonCount: nat, axisCount: nat, toggleVals: seq<int>, triggerVals: seq<int>,
                 center: real, radius: real, ratio: real)
      ensures this.kind == kind && this.center == center && this.radius == radius && this.ratio == ratio
      ensures |buttons| == buttonCount
      ensures forall i :: 0 <= i < buttonCount ==> (buttons[i].Toggle? <==> i in toggleVals) && buttons[i].pressed == 0
      ensures |axes| == axisCount
      ensures forall i :: 0 <= i < axisCount ==> axes[i] == if i in triggerVals then -1.0 else 0.0
      ensures hat == (0, 0)
    {
      this.kind := kind;
      this.center := center;
      this.radius := radius;
      this.ratio := ratio;
      var bs := MakeButtons(buttonCount, toggleVals);
      var xs := MakeAxes(axisCount, triggerVals, -1.0, 0.0);
      buttons, axes, hat := bs, xs, (0, 0);
    }

    /** `get_rov_input()`: the commands, each as `pin:val;`. */
    method GetRovInput() returns (r: Result<string>)
      ensures r.Ok? <==> Commands(State()).Ok?
      ensures r.Err? ==> r.error == KeyError
      ensures r.Ok? ==> r.value == Encode(Commands(State()).value)
    {
      var cs := Commands(State());
      if cs.Err? {
        return Err(cs.error);
      }
      var out := FormatCommands(cs.value);
      r := Ok(out);
    }

    /** `detect_event(event)`: the item update, then the message is built for
        printing, which raises `KeyError` on a joystick that lacks an item it
        reads. */
    method DetectEvent(e: Event) returns (o: Outcome)
      modifies this
      ensures ApplyEvent(old(State()), e).Err? ==> o == Fail(KeyError) && State() == old(State())
      ensures ApplyEvent(old(State()), e).Ok? ==> (State() == ApplyEvent(old(State()), e).value
        && o == if Commands(State()).Ok? then Pass else Fail(KeyError))
    {
      var next := ApplyEvent(State(), e);
      if next.Err? {
        return Fail(KeyError);
      }
      buttons, axes, hat := next.value.buttons, next.value.axes, next.value.hat;
      var msg := GetRovInput();
      o := if msg.Ok? then Pass else Fail(KeyError);
    }
  }

  /** The commands of several joysticks, in order; the first failure is raised. */
  function AllCommands(ss: seq<JoyState>): (r: Result<seq<Command>>)
    ensures r.Err? ==> r.error == KeyError
    ensures r.Ok? <==> forall i :: 0 <= i < |ss| ==> Commands(ss[i]).Ok?
  {
    if ss == [] then Ok([])
    else
      var init := ss[..|ss| - 1];
      assert forall i :: 0 <= i < |init| ==> init[i] == ss[i];
      match AllCommands(init)
      case Err(e) => Err(e)
      case Ok(cs) =>
        match Commands(ss[|ss| - 1])
        case Err(e) => Err(e)
        case Ok(c) => Ok(cs + c)
  }

  /** One more joystick after a prefix whose commands all succeed: its failure
      fails the whole list, its success appends its commands. */
  lemma AllCommandsStep(ss: seq<JoyState>, i: nat)
    requires i < |ss| && AllCommands(ss[..i]).Ok?
    ensures Commands(ss[i]).Err? ==> AllCommands(ss).Err?
    ensures Commands(ss[i]).Ok? ==> AllCommands(ss[..i + 1]) == Ok(AllCommands(ss[..i]).value + Commands(ss[i]).value)
  {
    assert ss[..i + 1][..i] == ss[..i];
  }

  /** The message of `Joysticks.get_rov_input` for the given commands: their
      text without its final `;`, then `&`. */
  function JoysticksMessage(cs: seq<Command>): string
  {
    Text.DropLast(Encode(cs)) + "&"
  }

  /** The arm receiver executes exactly the commands of the joysticks' message,
      in order; with no commands, the message is `&` and nothing happens. */
  lemma JoysticksMessageRoundTrip(cs: seq<Command>)
    ensures ArmFromPi.Parse(JoysticksMessage(cs)) == (cs, Pass)
  {
    if cs == [] {
      assert JoysticksMessage(cs) == "&";
      assert Text.Split("&", '&')[0] == "" by {
        Text.SplitCons("", "", '&');
        assert "" + ['&'] + "" == "&";
      }
    } else {
      ArmFromPi.ParseJoysticksMessage(cs);
    }
  }

  /** The states of a list of joysticks. */
  function States(js: seq<Joystick>): (ss: seq<JoyState>)
    reads js
    ensures |ss| == |js| && forall i :: 0 <= i < |js| ==> ss[i] == js[i].State()
  {
    if js == [] then [] else States(js[..|js| - 1]) + [js[|js| - 1].State()]
  }

  /** `Joysticks`: the list of joysticks whose messages are concatenated. */
  class Joysticks {
    const joysticks: seq<Joystick>

    constructor (joysticks: seq<Joystick>)
      ensures this.joysticks == joysticks
    {
      this.joysticks := joysticks;
    }

    /** `get_rov_input()`: every joystick's text in order, the last character
        dropped and `&` appended. */
    method GetRovInput() returns (r: Result<string>)
      ensures r.Ok? <==> AllCommands(States(joysticks)).Ok?
      ensures r.Err? ==> r.error == KeyError
      ensures r.Ok? ==> r.value == JoysticksMessage(AllCommands(States(joysticks)).value)
    {
      ghost var ss := States(joysticks);
      var output := "";
      for i := 0 to |joysticks|
        invariant AllCommands(ss[..i]).Ok? && output == Encode(AllCommands(ss[..i]).value)
      {
        AllCommandsStep(ss, i);
        var part := joysticks[i].GetRovInput();
        if part.Err? {
          return Err(KeyError);
        }
        EncodeAppend(AllCommands(ss[..i]).value, Commands(ss[i]).value);
        output := output + part.value;
      }
      assert ss[..|joysticks|] == ss;
      r := Ok(Text.DropLast(output) + "&");
    }
  }
}
