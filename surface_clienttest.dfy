/** surface/clienttest.py: the earlier tank-style drive joystick. Buttons
    hold a boolean, the two sticks are `axis` objects holding two values each
    (only the second is used), and the triggers are `trigger` objects. */
module ClientTest {
  import opened Errors
  import opened Numeric
  import opened PinProtocol
  import Text

  /** A `button` or a `toggle`, holding `button_pressed`. */
  datatype TestItem = Plain(pressed: bool) | Flip(pressed: bool)

  /** `update(state)`: a button records whether the state is 1; a toggle
      negates itself on state 1 and otherwise keeps its value. */
  function ItemUpdate(b: TestItem, state: int): (r: TestItem)
    ensures r.Plain? == b.Plain?
    ensures b.Plain? ==> (r.pressed <==> state == 1)
    ensures b.Flip? ==> (r.pressed <==> (b.pressed != (state == 1)))
  {
    match b
    case Plain(_) => Plain(state == 1)
    case Flip(p) => if state == 1 then Flip(!p) else b
  }

  /** `toggle.get_precision_val()`: 0.2 while the toggle is on, else 1. */
  function PrecisionVal(on: bool): real
  {
    if on then 0.2 else 1.0
  }

  /** `trigger.calculate_values(precision)`: the trigger position mapped from
      [-1, 1] onto [0, precision]. */
  function TriggerValue(t: real, precision: real): (r: real)
    ensures t == -1.0 ==> r == 0.0
    ensures t == 1.0 ==> r == precision
  {
    (1.0 + t) / 2.0 * precision
  }

  /** An `axis` object: two stored values, of which `calculate_values` reads
      the second. */
  datatype AxisPair = AxisPair(value1: real, value2: real)

  /** `axis.update(axis_num, value)` as written: the axis number is compared
      with the stored first value, not with an axis number. */
  function AxisUpdate(a: AxisPair, axisNum: int, value: real): (r: AxisPair)
    ensures axisNum as real == a.value1 ==> r == a.(value1 := value)
    ensures axisNum as real != a.value1 ==> r == a.(value2 := value)
  {
    if axisNum as real == a.value1 then a.(value1 := value) else a.(value2 := value)
  }

  /** A stick's pair starts at (0, 0): the first motion of its first axis
      fills `value1`, and every later motion of that axis with a different
      value overwrites `value2`, the value that drives the thrusters. */
  lemma AxisUpdateMixesAxes(x: real, y: real)
    requires x != 0.0
    ensures AxisUpdate(AxisUpdate(AxisPair(0.0, 0.0), 0, x), 0, y) == AxisPair(x, y)
  {
  }

  /** `axis.calculate_values(precision)`: the second value scaled by 55 around 90, truncated. */
  function AxisValue(a: AxisPair, precision: real): int
  {
    Trunc(a.value2 * precision * 55.0 + 90.0)
  }

  /** A stick value in [-1, 1] at precision in [0, 1] gives a servo value in [35, 145]. */
  lemma AxisValueInRange(a: AxisPair, precision: real)
    requires -1.0 <= a.value2 <= 1.0 && 0.0 <= precision <= 1.0
    ensures 35 <= AxisValue(a, precision) <= 145
  {
    var x := a.value2 * precision;
    MulNonNegative(1.0 - a.value2, precision);
    MulNonNegative(a.value2 + 1.0, precision);
    MulNonNegative(1.0 + a.value2, 1.0 - precision);
    MulNonNegative(1.0 - a.value2, 1.0 - precision);
    assert -1.0 <= x <= 1.0;
    TruncBetween(x * 55.0 + 90.0, 35, 145);
  }

  /** The two vertical values before `int()`: the right trigger pushes the
      front up and the back down, the left trigger the other way. */
  function Verticals(lt: real, rt: real, precision: real): (real, real)
  {
    (90.0 + 55.0 * TriggerValue(rt, precision) - 55.0 * TriggerValue(lt, precision),
     90.0 + 55.0 * TriggerValue(lt, precision) - 55.0 * TriggerValue(rt, precision))
  }

  /** The two verticals always add up to 180, and with both triggers in
      [-1, 1] each stays within 55 * precision of 90. */
  lemma VerticalsBalanced(lt: real, rt: real, precision: real)
    requires 0.0 <= precision
    ensures Verticals(lt, rt, precision).0 + Verticals(lt, rt, precision).1 == 180.0
    ensures -1.0 <= lt <= 1.0 && -1.0 <= rt <= 1.0 ==>
      90.0 - 55.0 * precision <= Verticals(lt, rt, precision).0 <= 90.0 + 55.0 * precision
  {
    if -1.0 <= lt <= 1.0 && -1.0 <= rt <= 1.0 {
      MulNonNegative((1.0 + rt) / 2.0, precision);
      MulNonNegative((1.0 - rt) / 2.0, precision);
      MulNonNegative((1.0 + lt) / 2.0, precision);
      MulNonNegative((1.0 - lt) / 2.0, precision);
    }
  }

  /** The pin dictionary of `get_rov_input`: the left value mirrored about 90
      on pins 4 and 6, the right value on 5 and 7, the verticals on 8 and 10,
      and `"0"` on 9, 11, 12 and 13. */
  function TestCommands(precisionOn: bool, left: AxisPair, right: AxisPair, lt: real, rt: real): (cs: seq<Command>)
    ensures |cs| == 10 && forall k :: 0 <= k < 10 ==> cs[k].pin == 4 + k
    ensures cs[0].val + AxisValue(left, PrecisionVal(precisionOn)) == 180 && cs[2] == cs[0].(pin := 6)
    ensures cs[1].val == AxisValue(right, PrecisionVal(precisionOn)) && cs[3] == cs[1].(pin := 7)
    ensures cs[4].val == Trunc(Verticals(lt, rt, PrecisionVal(precisionOn)).0)
    ensures cs[6].val == Trunc(Verticals(lt, rt, PrecisionVal(precisionOn)).1)
    ensures cs[5].val == 0 && cs[7].val == 0 && cs[8].val == 0 && cs[9].val == 0
  {
    var precision := PrecisionVal(precisionOn);
    var leftVal := (AxisValue(left, precision) - 90) * -1 + 90;
    var rightVal := AxisValue(right, precision);
    var (front, back) := Verticals(lt, rt, precision);
    [Command(4, leftVal), Command(5, rightVal), Command(6, leftVal), Command(7, rightVal),
     Command(8, Trunc(front)), Command(9, 0), Command(10, Trunc(back)), Command(11, 0),
     Command(12, 0), Command(13, 0)]
  }

  /** The `joystick` of clienttest.py: its button dictionary (keys 0 to 5),
      the two sticks (axes 0-1 and 2-3) and the two triggers (axes 4 and 5). */
  class TestJoystick {
    var buttons: seq<TestItem>
    var leftAxis: AxisPair
    var rightAxis: AxisPair
    var leftTrigger: real
    var rightTrigger: real

    predicate Valid()
      reads this
    {
      |buttons| == 6
    }

    /** The joystick as the script builds it: toggles at keys 0 and 2, both
        sticks at (0, 0), both triggers released. */
    constructor ()
      ensures Valid() && buttons == [Flip(false), Plain(false), Flip(false), Plain(false), Plain(false), Plain(false)]
      ensures leftAxis == AxisPair(0.0, 0.0) && rightAxis == AxisPair(0.0, 0.0)
      ensures leftTrigger == -1.0 && rightTrigger == -1.0
    {
      buttons := [Flip(false), Plain(false), Flip(false), Plain(false), Plain(false), Plain(false)];
      leftAxis, rightAxis := AxisPair(0.0, 0.0), AxisPair(0.0, 0.0);
      leftTrigger, rightTrigger := -1.0, -1.0;
    }

    /** The button-down branch of `detect_event`: buttons from 6 up are
        ignored, a negative one is not a key. */
    method ButtonDown(b: int) returns (o: Outcome)
      requires Valid()
      modifies this
      ensures Valid() && leftAxis == old(leftAxis) && rightAxis == old(rightAxis)
      ensures leftTrigger == old(leftTrigger) && rightTrigger == old(rightTrigger)
      ensures b < 0 ==> o == Fail(KeyError) && buttons == old(buttons)
      ensures b >= 6 ==> o == Pass && buttons == old(buttons)
      ensures 0 <= b < 6 ==> o == Pass && buttons == old(buttons)[b := ItemUpdate(old(buttons)[b], 1)]
    {
      if b >= 6 {
        return Pass;
      }
      if b < 0 {
        return Fail(KeyError);
      }
      buttons := buttons[b := ItemUpdate(buttons[b], 1)];
      o := Pass;
    }

    /** The axis-motion branch of `detect_event`: axes 0 and 1 update the left
        stick, 2 and 3 the right stick, 4 and 5 the triggers. */
    method AxisMotion(axis: int, value: real) returns (o: Outcome)
      requires Valid()
      modifies this
      ensures Valid() && buttons == old(buttons)
      ensures o == if 0 <= axis < 6 then Pass else Fail(KeyError)
      ensures leftAxis == if axis in {0, 1} then AxisUpdate(old(leftAxis), axis, value) else old(leftAxis)
      ensures rightAxis == if axis in {2, 3} then AxisUpdate(old(rightAxis), axis, value) else old(rightAxis)
      ensures leftTrigger == if axis == 4 then value else old(leftTrigger)
      ensures rightTrigger == if axis == 5 then value else old(rightTrigger)
    {
      if axis == 0 || axis == 1 {
        leftAxis := AxisUpdate(leftAxis, axis, value);
      } else if axis == 2 || axis == 3 {
        rightAxis := AxisUpdate(rightAxis, axis, value);
      } else if axis == 4 {
        leftTrigger := value;
      } else if axis == 5 {
        rightTrigger := value;
      } else {
        return Fail(KeyError);
      }
      o := Pass;
    }

    /** `get_rov_input()`: the pieces joined by `;`; the precision comes from
        `buttons[0]`, which must be a toggle. */
    method GetRovInput() returns (r: Result<string>)
      requires Valid()
      ensures r.Ok? <==> buttons[0].Flip?
      ensures r.Err? ==> r.error == AttributeError
      ensures r.Ok? ==> (r.value ==
        Text.Join(Pieces(TestCommands(buttons[0].pressed, leftAxis, rightAxis, leftTrigger, rightTrigger)), ';'))
    {
      if buttons[0].Plain? {
        return Err(AttributeError);
      }
      var cs := TestCommands(buttons[0].pressed, leftAxis, rightAxis, leftTrigger, rightTrigger);
      var out := FormatCommands(cs);
      EncodeIsJoin(cs);
      assert Text.DropLast(out) == Text.Join(Pieces(cs), ';');
      r := Ok(Text.DropLast(out));
    }
  }
}
