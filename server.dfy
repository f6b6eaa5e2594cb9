/** pi/server.py: the strict receiver for servo commands. Every `;` piece of a
    message must be `int:int`; each is written to the board as soon as it is
    read. The board's pins are represented by the log of `(pin, value)` writes. */
module Server {
  import opened Errors
  import Text
  import opened PinProtocol

  /** An entry of the `pins` list: the placeholder `''` or a board digital pin
      in servo mode. */
  datatype PinSlot = Placeholder | ServoPin(number: int)

  /** The step pin of the one entry of `STEPPERS`. */
  const StepperPin: int := 2

  /** `writeToArduino(pin, val)` against the list `pins`: the stepper pin fails
      on the `filter` object, which has no `direction` or `pin` attribute; any
      other index is looked up Python-style (negative from the end), and a
      placeholder has no `write`. On success, the board pin and value written. */
  function WriteOne(pins: seq<PinSlot>, pin: int, val: int): (r: Result<(int, int)>)
    ensures pin == StepperPin ==> r == Err(AttributeError)
    ensures pin != StepperPin && !InListRange(|pins|, pin) ==> r == Err(IndexError)
    ensures r.Ok? <==> pin != StepperPin && InListRange(|pins|, pin) && pins[ListPosition(|pins|, pin)].ServoPin?
    ensures r.Ok? ==> r.value == (pins[ListPosition(|pins|, pin)].number, val)
    ensures r.Err? ==> r.error in {AttributeError, IndexError}
  {
    if pin == StepperPin then Err(AttributeError)
    else if !InListRange(|pins|, pin) then Err(IndexError)
    else match pins[ListPosition(|pins|, pin)]
      case Placeholder => Err(AttributeError)
      case ServoPin(n) => Ok((n, val))
  }

  /** The `pins` table the server builds: two placeholders, then board pins 2 to 13. */
  predicate IsPinTable(pins: seq<PinSlot>)
  {
    |pins| == 14 && pins[0] == Placeholder && pins[1] == Placeholder
    && forall i :: 2 <= i < 14 ==> pins[i] == ServoPin(i)
  }

  /** With the server's table, pins 3 to 13 are written as given, and so are
      the negative indexes -12 to -1, which reach pins 2 to 13 from the end
      (pin 2 included, bypassing the stepper check); pins 0, 1, -14 and -13
      hit a placeholder, and everything from 14 up or below -14 is out of range. */
  lemma WriteOneOnTable(pins: seq<PinSlot>, pin: int, val: int)
    requires IsPinTable(pins)
    ensures 3 <= pin <= 13 ==> WriteOne(pins, pin, val) == Ok((pin, val))
    ensures -12 <= pin <= -1 ==> WriteOne(pins, pin, val) == Ok((14 + pin, val))
    ensures pin in {0, 1, -13, -14} ==> WriteOne(pins, pin, val) == Err(AttributeError)
    ensures (pin >= 14 || pin < -14) ==> WriteOne(pins, pin, val) == Err(IndexError)
  {
  }

  /** One piece of a message: parsed, then written. */
  function PieceWrite(pins: seq<PinSlot>, x: string): (r: Result<(int, int)>)
    ensures r.Ok? <==> ParsePiece(x).Ok? && WriteOne(pins, ParsePiece(x).value.pin, ParsePiece(x).value.val).Ok?
  {
    match ParsePiece(x)
    case Err(e) => Err(e)
    case Ok(c) => WriteOne(pins, c.pin, c.val)
  }

  /** The loop of `parseInput` over the pieces: each piece is parsed and
      written before the next is read; the first failure ends the loop. The
      writes made and how the loop ends. */
  function RunPieces(pins: seq<PinSlot>, ls: seq<string>): (r: (seq<(int, int)>, Outcome))
    ensures |r.0| <= |ls|
    decreases |ls|
  {
    if ls == [] then ([], Pass)
    else
      var (ws, o) := RunPieces(pins, ls[..|ls| - 1]);
      if o.Fail? then (ws, o)
      else match PieceWrite(pins, ls[|ls| - 1])
        case Err(e) => (ws, Fail(e))
        case Ok(w) => (ws + [w], Pass)
  }

  /** Once a piece has failed, later pieces change nothing. */
  lemma {:induction false} RunPiecesFailSticks(pins: seq<PinSlot>, ls: seq<string>, i: nat)
    requires i <= |ls| && RunPieces(pins, ls[..i]).1.Fail?
    ensures RunPieces(pins, ls) == RunPieces(pins, ls[..i])
    decreases |ls| - i
  {
    if i < |ls| {
      assert ls[..i + 1][..i] == ls[..i];
      RunPiecesFailSticks(pins, ls, i + 1);
    } else {
      assert ls[..i] == ls;
    }
  }

  /** One more piece after a prefix that ran through. */
  lemma RunPiecesStep(pins: seq<PinSlot>, ls: seq<string>, i: nat)
    requires i < |ls| && RunPieces(pins, ls[..i]).1 == Pass
    ensures RunPieces(pins, ls[..i + 1]) ==
      match PieceWrite(pins, ls[i])
      case Err(e) => (RunPieces(pins, ls[..i]).0, Fail(e))
      case Ok(w) => (RunPieces(pins, ls[..i]).0 + [w], Pass)
  {
    assert ls[..i + 1][..i] == ls[..i];
  }

  /** `parseInput(msg)`: the writes made and how it ends. */
  function Run(pins: seq<PinSlot>, msg: string): (seq<(int, int)>, Outcome)
  {
    RunPieces(pins, Text.Split(msg, ';'))
  }

  /** The `(pin, val)` pairs of a list of commands. */
  function Pairs(cs: seq<Command>): (ws: seq<(int, int)>)
    ensures |ws| == |cs| && forall i :: 0 <= i < |cs| ==> ws[i] == (cs[i].pin, cs[i].val)
  {
    if cs == [] then [] else Pairs(cs[..|cs| - 1]) + [(cs[|cs| - 1].pin, cs[|cs| - 1].val)]
  }

  /** Commands to the servo pins 3 to 13. */
  predicate ServoCommands(cs: seq<Command>)
  {
    forall i :: 0 <= i < |cs| ==> 3 <= cs[i].pin <= 13
  }

  /** The pieces of servo commands run to completion, writing every command in order. */
  lemma {:induction false} RunPiecesOfPieces(pins: seq<PinSlot>, cs: seq<Command>)
    requires IsPinTable(pins) && ServoCommands(cs)
    ensures RunPieces(pins, Pieces(cs)) == (Pairs(cs), Pass)
    decreases |cs|
  {
    if cs != [] {
      var init, c := cs[..|cs| - 1], cs[|cs| - 1];
      RunPiecesOfPieces(pins, init);
      assert Pieces(cs)[..|cs| - 1] == Pieces(init);
      ParsePieceOfPiece(c);
      WriteOneOnTable(pins, c.pin, c.val);
    }
  }

  /** A message of servo commands joined by `;` (no final `;`) is carried out
      completely and in order. */
  lemma RunJoined(pins: seq<PinSlot>, cs: seq<Command>)
    requires IsPinTable(pins) && ServoCommands(cs) && cs != []
    ensures Run(pins, Text.Join(Pieces(cs), ';')) == (Pairs(cs), Pass)
  {
    calc {
      Run(pins, Text.Join(Pieces(cs), ';'));
    == { Text.SplitJoin(Pieces(cs), ';'); }
      RunPieces(pins, Pieces(cs));
    == { RunPiecesOfPieces(pins, cs); }
      (Pairs(cs), Pass);
    }
  }

  /** The empty message is the single empty piece, `int('')`. */
  lemma RunEmptyMessage(pins: seq<PinSlot>)
    ensures Run(pins, "") == ([], Fail(ValueError))
  {
    assert Text.Split("", ';') == [""];
    assert Text.Split("", ':') == [""];
    assert Decimal.ParseInt("") == None;
    assert ParsePiece("") == Err(ValueError);
    assert RunPieces(pins, [""]) == ([], Fail(ValueError)) by {
      assert [""][..0] == [];
    }
  }

  /** A non-empty list of servo commands, each followed by `;`, is carried
      out and then fails on the empty last piece. */
  lemma RunEncodedCommands(pins: seq<PinSlot>, cs: seq<Command>)
    requires IsPinTable(pins) && ServoCommands(cs) && cs != []
    ensures Run(pins, Encode(cs)) == (Pairs(cs), Fail(ValueError))
  {
    var ps := Pieces(cs);
    var ls := ps + [""];
    EncodeIsJoin(cs);
    JoinSnoc(ps, "", ';');
    assert Encode(cs) == Text.Join(ls, ';');
    Text.SplitJoin(ls, ';');
    RunPiecesOfPieces(pins, cs);
    assert ls[..|ls| - 1] == ps;
    RunEmptyMessage(pins);
    assert PieceWrite(pins, ls[|ls| - 1]) == Err(ValueError);
  }

  /** A message ending in `;` (every serialiser's loop output) is carried out
      and then fails on the empty last piece, `int('')`; so does the empty message. */
  lemma RunTrailingSemicolon(pins: seq<PinSlot>, cs: seq<Command>)
    requires IsPinTable(pins) && ServoCommands(cs)
    ensures Run(pins, Encode(cs)) == (Pairs(cs), Fail(ValueError))
  {
    if cs == [] {
      RunEmptyMessage(pins);
    } else {
      RunEncodedCommands(pins, cs);
    }
  }

  /** The server: its pin table and the writes made to the board. */
  class PiServer {
    var pins: seq<PinSlot>
    var writes: seq<(int, int)>

    /** Start-up: two placeholders, then each digital pin 2 to 13 in servo mode. */
    constructor ()
      ensures IsPinTable(pins) && writes == []
    {
      var table := [Placeholder, Placeholder];
      for x := 2 to 14
        invariant |table| == x && table[0] == Placeholder && table[1] == Placeholder
        invariant forall i :: 2 <= i < x ==> table[i] == ServoPin(i)
      {
        table := table + [ServoPin(x)];
      }
      pins := table;
      writes := [];
    }

    /** `writeToArduino(pin, val)`: at most one write, none on failure. */
    method WriteToArduino(pin: int, val: int) returns (o: Outcome)
      modifies this
      ensures pins == old(pins)
      ensures WriteOne(pins, pin, val).Ok? ==> o == Pass && writes == old(writes) + [WriteOne(pins, pin, val).value]
      ensures WriteOne(pins, pin, val).Err? ==> o == Fail(WriteOne(pins, pin, val).error) && writes == old(writes)
    {
      if pin == StepperPin {
        return Fail(AttributeError);
      }
      if pin < -|pins| || pin >= |pins| {
        return Fail(IndexError);
      }
      var slot := if pin < 0 then pins[|pins| + pin] else pins[pin];
      if slot.Placeholder? {
        return Fail(AttributeError);
      }
      writes := writes + [(slot.number, val)];
      o := Pass;
    }

    /** The body of `parseInput`'s loop for one piece. */
    method HandlePiece(x: string) returns (o: Outcome)
      modifies this
      ensures pins == old(pins)
      ensures PieceWrite(pins, x).Ok? ==> o == Pass && writes == old(writes) + [PieceWrite(pins, x).value]
      ensures PieceWrite(pins, x).Err? ==> o == Fail(PieceWrite(pins, x).error) && writes == old(writes)
    {
      var c := ParsePiece(x);
      if c.Err? {
        return Fail(c.error);
      }
      o := WriteToArduino(c.value.pin, c.value.val);
    }

    /** `parseInput(msg)`. */
    method ParseInput(msg: string) returns (o: Outcome)
      modifies this
      ensures pins == old(pins)
      ensures writes == old(writes) + Run(pins, msg).0 && o == Run(pins, msg).1
    {
      var ls := Text.Split(msg, ';');
      ghost var table := pins;
      for i := 0 to |ls|
        invariant pins == table
        invariant RunPieces(table, ls[..i]).1 == Pass
        invariant writes == old(writes) + RunPieces(table, ls[..i]).0
      {
        RunPiecesStep(table, ls, i);
        o := HandlePiece(ls[i]);
        if o.Fail? {
          RunPiecesFailSticks(table, ls, i + 1);
          return o;
        }
      }
      assert ls[..|ls|] == ls;
      o := Pass;
    }
  }
}
