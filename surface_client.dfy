/** surface/client.py: a joystick that reports its raw state, every button
    as `i:v;`, a newline, then every axis as `i:v;`. */
module SurfaceClient {
  import opened Errors
  import opened JoyItems
  import opened PinProtocol
  import Text
  import Decimal

  /** The button values in ascending key order, as the `(key, value)`
      commands their `key:value;` entries spell. */
  function ButtonCommands(bs: seq<Item>): (cs: seq<Command>)
    ensures |cs| == |bs| && forall i :: 0 <= i < |bs| ==> cs[i] == Command(i, bs[i].pressed)
  {
    if bs == [] then [] else ButtonCommands(bs[..|bs| - 1]) + [Command(|bs| - 1, bs[|bs| - 1].pressed)]
  }

  /** The axis part: `key:text;` per axis in ascending key order, where
      `texts[i]` is Python's `str` of axis `i`'s value. */
  function AxisEntries(texts: seq<string>): string
  {
    if texts == [] then ""
    else AxisEntries(texts[..|texts| - 1]) + Decimal.IntToString(|texts| - 1) + ":" + texts[|texts| - 1] + ";"
  }

  /** An axis's value: the int 0 it is built with, or the float of the last
      motion event. */
  datatype AxisValue = StartZero | Moved(value: real)

  /** Python's `str` of an axis value: the int 0 prints as "0", a float as
      `repr` prints it (pygame's 0.0 as "0.0"). */
  function AxisText(a: AxisValue, repr: real -> string): (t: string)
    ensures a.StartZero? ==> t == "0"
    ensures a.Moved? ==> t == repr(a.value)
  {
    match a
    case StartZero => Decimal.IntToString(0)
    case Moved(v) => repr(v)
  }

  /** Python's `str` of each axis value. */
  function AxisTexts(axes: seq<AxisValue>, repr: real -> string): (ts: seq<string>)
    ensures |ts| == |axes| && forall i :: 0 <= i < |axes| ==> ts[i] == AxisText(axes[i], repr)
  {
    if axes == [] then [] else AxisTexts(axes[..|axes| - 1], repr) + [AxisText(axes[|axes| - 1], repr)]
  }

  /** The message of `get_rov_input`. */
  function ClientMessage(bs: seq<Item>, texts: seq<string>): string
  {
    Encode(ButtonCommands(bs)) + "\n" + AxisEntries(texts)
  }

  /** No newline in the axis texts means none in the axis part. */
  lemma {:induction false} AxisEntriesNoNewline(texts: seq<string>)
    requires forall i :: 0 <= i < |texts| ==> '\n' !in texts[i]
    ensures '\n' !in AxisEntries(texts)
    decreases |texts|
  {
    if texts != [] {
      AxisEntriesNoNewline(texts[..|texts| - 1]);
      var k := Decimal.IntToString(|texts| - 1);
      assert forall j :: 0 <= j < |k| ==> k[j] == '-' || Decimal.IsDigit(k[j]);
      assert '\n' !in texts[|texts| - 1];
    }
  }

  /** The message holds exactly one newline: splitting on it gives the
      button entries, then the axis entries. */
  lemma ClientMessageParts(bs: seq<Item>, texts: seq<string>)
    requires forall i :: 0 <= i < |texts| ==> '\n' !in texts[i]
    ensures Text.Split(ClientMessage(bs, texts), '\n') == [Encode(ButtonCommands(bs)), AxisEntries(texts)]
  {
    EncodeFree(ButtonCommands(bs));
    AxisEntriesNoNewline(texts);
    Text.SplitCons(Encode(ButtonCommands(bs)), AxisEntries(texts), '\n');
    Text.SplitNoSep(AxisEntries(texts), '\n');
  }

  /** An axis moved back to rest prints as a float, not as the "0" it
      printed before it ever moved. */
  lemma RestedAxisPrintsDifferently(repr: real -> string)
    requires repr(0.0) == "0.0"
    ensures AxisText(Moved(0.0), repr) != AxisText(StartZero, repr)
  {
    assert |AxisText(Moved(0.0), repr)| == 3;
  }

  /** The `joystick` of client.py. */
  class ClientJoystick {
    var buttons: seq<Item>
    var axes: seq<AxisValue>
    var hat: (int, int)

    /** Toggles where listed, every axis at the int 0, the hat at (0, 0). */
    constructor (buttonCount: nat, axisCount: nat, toggleVals: seq<int>)
      ensures |buttons| == buttonCount
      ensures forall i :: 0 <= i < buttonCount ==> (buttons[i].Toggle? <==> i in toggleVals) && buttons[i].pressed == 0
      ensures |axes| == axisCount && forall i :: 0 <= i < axisCount ==> axes[i] == StartZero
      ensures hat == (0, 0)
    {
      var bs := MakeButtons(buttonCount, toggleVals);
      var xs := seq(axisCount, _ => StartZero);
      buttons, axes, hat := bs, xs, (0, 0);
    }

    /** A `JOYAXISMOTION` event of `detect_event`: the axis takes the event's
        float value; an axis number the dictionary lacks is a KeyError. */
    method AxisMotion(axis: int, value: real) returns (o: Outcome)
      modifies this
      ensures 0 <= axis < |old(axes)| ==> o == Pass && axes == old(axes)[axis := Moved(value)]
      ensures !(0 <= axis < |old(axes)|) ==> o == Fail(KeyError) && axes == old(axes)
      ensures buttons == old(buttons) && hat == old(hat)
    {
      if 0 <= axis < |axes| {
        axes := axes[axis := Moved(value)];
        o := Pass;
      } else {
        o := Fail(KeyError);
      }
    }

    /** `get_rov_input()`, with Python's `str` of a float as `repr`. */
    method GetRovInput(repr: real -> string) returns (out: string)
      ensures out == ClientMessage(buttons, AxisTexts(axes, repr))
    {
      var head := FormatCommands(ButtonCommands(buttons));
      var texts := AxisTexts(axes, repr);
      var tail := "";
      for i := 0 to |texts|
        invariant tail == AxisEntries(texts[..i])
      {
        assert texts[..i + 1][..i] == texts[..i];
        tail := tail + Decimal.IntToString(i) + ":" + texts[i] + ";";
      }
      assert texts[..|texts|] == texts;
      out := head + "\n" + tail;
    }
  }
}
