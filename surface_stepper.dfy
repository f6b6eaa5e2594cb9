/** surface/stepper.py: a single joystick that drives the arm's servos. Its
    message is the `pin:val` pieces joined by `;`, without a final `;`. */
module SurfaceStepper {
  import opened Errors
  import opened Numeric
  import opened JoyItems
  import opened PinProtocol
  import Text
  import Server

  /** The pin dictionary of `get_rov_input`: the extend, wrist, claw and elbow
      servos on pins 1, 2, 3 and 10, each `int(center + radius * v)`; axis 0
      is not read, and a missing axis 1 to 5 is a `KeyError`. */
  function StepperCommands(axes: seq<real>, center: real, radius: real): (r: Result<seq<Command>>)
    ensures r.Ok? <==> |axes| >= 6
    ensures r.Err? ==> r.error == KeyError
    ensures r.Ok? ==> (|r.value| == 4
      && r.value[0] == Command(1, Trunc(radius * -axes[4] + center))
      && r.value[1] == Command(2, Trunc(radius * axes[3] + center))
      && r.value[2] == Command(3, Trunc(center + radius * ((axes[2] + 1.0) / 2.0 - (axes[5] + 1.0) / 2.0)))
      && r.value[3] == Command(10, Trunc(radius * -axes[1] + center)))
  {
    if |axes| < 6 then Err(KeyError)
    else
      var elbow, wrist, extend := -axes[1], axes[3], -axes[4];
      var closeClaw, openClaw := (axes[2] + 1.0) / 2.0, (axes[5] + 1.0) / 2.0;
      Ok([Command(1, Trunc(radius * extend + center)),
          Command(2, Trunc(radius * wrist + center)),
          Command(3, Trunc(center + radius * (closeClaw - openClaw))),
          Command(10, Trunc(radius * elbow + center))])
  }

  /** The claw servo on pin 3 sits at the centre when both triggers are in
      the same position, and the claw value stays within `radius` of the
      centre while both triggers are in [-1, 1]. */
  lemma ClawBalance(axes: seq<real>, center: real, radius: real)
    requires |axes| >= 6 && 0.0 <= radius
    requires -1.0 <= axes[2] <= 1.0 && -1.0 <= axes[5] <= 1.0
    ensures axes[2] == axes[5] ==> StepperCommands(axes, center, radius).value[2].val == Trunc(center)
    ensures var claw := center + radius * ((axes[2] + 1.0) / 2.0 - (axes[5] + 1.0) / 2.0);
      center - radius <= claw <= center + radius
  {
    var d := (axes[2] + 1.0) / 2.0 - (axes[5] + 1.0) / 2.0;
    assert -1.0 <= d <= 1.0;
    ScaleWithin(radius, d);
  }

  /** The message is the pieces joined by `;`: splitting it on `;` gives one
      well-formed `int:int` piece per command, each reading back as its command. */
  lemma StepperMessagePieces(cs: seq<Command>)
    requires |cs| >= 1
    ensures Text.DropLast(Encode(cs)) == Text.Join(Pieces(cs), ';')
    ensures Text.Split(Text.DropLast(Encode(cs)), ';') == Pieces(cs)
    ensures forall i :: 0 <= i < |cs| ==> ParsePiece(Pieces(cs)[i]) == Ok(cs[i])
  {
    EncodeIsJoin(cs);
    var j := Text.Join(Pieces(cs), ';');
    assert Text.DropLast(j + ";") == j;
    SplitEncoded(cs);
    forall i | 0 <= i < |cs|
      ensures ParsePiece(Pieces(cs)[i]) == Ok(cs[i])
    {
      ParsePieceOfPiece(cs[i]);
    }
  }

  /** Sent to the strict servo receiver, the message stops at its first piece:
      pin 1 is one of the table's placeholders, so nothing is written. */
  lemma StepperMessageOnServer(pins: seq<Server.PinSlot>, axes: seq<real>, center: real, radius: real)
    requires Server.IsPinTable(pins) && |axes| >= 6
    ensures var cs := StepperCommands(axes, center, radius).value;
      Server.Run(pins, Text.DropLast(Encode(cs))) == ([], Fail(AttributeError))
  {
    var cs := StepperCommands(axes, center, radius).value;
    StepperMessagePieces(cs);
    var ls := Pieces(cs);
    assert ls[..0] == [];
    Server.RunPiecesStep(pins, ls, 0);
    Server.WriteOneOnTable(pins, 1, cs[0].val);
    assert Server.PieceWrite(pins, ls[0]) == Err(AttributeError);
    Server.RunPiecesFailSticks(pins, ls, 1);
  }

  /** The `joystick` of stepper.py. */
  class StepperJoystick {
    const center: real
    const radius: real
    const ratio: real
    var buttons: seq<Item>
    var axes: seq<real>
    var hat: (int, int)

    /** Toggles where listed; axes listed in `trigger_vals` start at 0 and the
        others at -1 (the reverse of arm.py). */
    constructor (buttonCount: nat, axisCount: nat, toggleVals: seq<int>, triggerVals: seq<int>,
                 center: real, radius: real, ratio: real)
      ensures this.center == center && this.radius == radius && this.ratio == ratio
      ensures |buttons| == buttonCount
      ensures forall i :: 0 <= i < buttonCount ==> (buttons[i].Toggle? <==> i in toggleVals) && buttons[i].pressed == 0
      ensures |axes| == axisCount
      ensures forall i :: 0 <= i < axisCount ==> axes[i] == if i in triggerVals then 0.0 else -1.0
      ensures hat == (0, 0)
    {
      this.center := center;
      this.radius := radius;
      this.ratio := ratio;
      var bs := MakeButtons(buttonCount, toggleVals);
      var xs := MakeAxes(axisCount, triggerVals, 0.0, -1.0);
      buttons, axes, hat := bs, xs, (0, 0);
    }

    /** `get_rov_input()`: the accumulated `pin:val;` text without its last character. */
    method GetRovInput() returns (r: Result<string>)
      ensures r.Ok? <==> |axes| >= 6
      ensures r.Err? ==> r.error == KeyError
      ensures r.Ok? ==> r.value == Text.Join(Pieces(StepperCommands(axes, center, radius).value), ';')
    {
      var cs := StepperCommands(axes, center, radius);
      if cs.Err? {
        return Err(cs.error);
      }
      var out := FormatCommands(cs.value);
      StepperMessagePieces(cs.value);
      r := Ok(Text.DropLast(out));
    }
  }
}
