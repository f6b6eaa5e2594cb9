/** pi/armFromPi.py: the receiver that drives the arm's two stepper motors.
    A message is cut at its first `&`; each non-empty `pin:val` piece before it
    goes to `writeToArduino`, which only acts on a stepper's step pin: it turns
    the stepper's direction to the sign of `val` and, when the speed is high
    enough and the rest time has passed, toggles the step pin. The board's pins
    are represented by the log of `(pin, level)` writes. */
module ArmFromPi {
  import opened Errors
  import Text
  import opened PinProtocol

  /** An entry of `STEPPERS`: the step pin, the direction, the direction pin,
      the level last written to the step pin and the time of that write. */
  datatype Stepper = Stepper(pin: int, direction: bool, directionPin: int, on: int, lastTime: real)

  /** `STEPPERS` as built at start-up time `start`: steppers on pins 26 and 36
      with direction pins 28 and 34. */
  function InitialSteppers(start: real): seq<Stepper>
  {
    [Stepper(26, true, 28, 1, start), Stepper(36, true, 34, 1, start)]
  }

  /** What the receiver changes: the steppers and the log of pin writes. */
  datatype ArmState = ArmState(steppers: seq<Stepper>, writes: seq<(int, int)>)

  /** The table keeps its two steppers and their pins, and each step pin
      level is 0 or 1. */
  predicate Valid(steppers: seq<Stepper>)
  {
    |steppers| == 2
    && steppers[0].pin == 26 && steppers[0].directionPin == 28
    && steppers[1].pin == 36 && steppers[1].directionPin == 34
    && steppers[0].on in {0, 1} && steppers[1].on in {0, 1}
  }

  /** The pins the stepper table configures as outputs. */
  predicate BoardPin(pin: int)
  {
    pin in {26, 28, 34, 36}
  }

  /** `[s.pin for s in STEPPERS]`. */
  function StepPins(steppers: seq<Stepper>): (ps: seq<int>)
    ensures |ps| == |steppers| && forall i :: 0 <= i < |ps| ==> ps[i] == steppers[i].pin
  {
    if steppers == [] then [] else [steppers[0].pin] + StepPins(steppers[1..])
  }

  /** The index of the first stepper on `pin`. */
  function FirstWithPin(steppers: seq<Stepper>, pin: int): (k: nat)
    requires pin in StepPins(steppers)
    ensures k < |steppers| && steppers[k].pin == pin
    ensures forall j :: 0 <= j < k ==> steppers[j].pin != pin
  {
    if steppers[0].pin == pin then 0
    else
      assert StepPins(steppers) == [steppers[0].pin] + StepPins(steppers[1..]);
      1 + FirstWithPin(steppers[1..], pin)
  }

  /** The direction handling of `writeToArduino`: the stepper turns to the
      sign of `val` (zero keeps it), and a turn writes 1 (backward) or 0
      (forward) to its direction pin. */
  function Turn(s: Stepper, val: int): (r: (Stepper, seq<(int, int)>))
    ensures val < 0 ==> !r.0.direction
    ensures val > 0 ==> r.0.direction
    ensures val == 0 ==> r.0 == s
    ensures r.0 == s.(direction := r.0.direction)
    ensures r.1 == if r.0.direction == s.direction then [] else [(s.directionPin, if r.0.direction then 0 else 1)]
  {
    if val < 0 && s.direction then (s.(direction := false), [(s.directionPin, 1)])
    else if val > 0 && !s.direction then (s.(direction := true), [(s.directionPin, 0)])
    else (s, [])
  }

  /** `writeIfAble` fires: the speed exceeds 2 in magnitude and the last write
      is older than `0.1 / val` seconds. */
  predicate Fires(s: Stepper, val: int, now: real)
  {
    (val > 2 || val < -2) && s.lastTime < now - 0.1 / val as real
  }

  /** `writeIfAble(stepper, val, pins)` at clock reading `now`: when it fires,
      the step pin level flips, is written, and the time is recorded. */
  function Pulse(s: Stepper, val: int, now: real): (r: (Stepper, seq<(int, int)>))
    ensures -2 <= val <= 2 ==> r == (s, [])
    ensures !Fires(s, val, now) ==> r == (s, [])
    ensures Fires(s, val, now) ==> r.0 == s.(on := r.0.on, lastTime := now) && r.1 == [(s.pin, r.0.on)]
    ensures s.on in {0, 1} ==> r.0.on in {0, 1} && (Fires(s, val, now) <==> r.0.on == 1 - s.on)
  {
    if val > 2 || val < -2 then
      var restTime := 0.1 / val as real;
      if s.lastTime < now - restTime then
        var toggled := s.(on := (s.on + 1) % 2);
        (toggled.(lastTime := now), [(s.pin, toggled.on)])
      else (s, [])
    else (s, [])
  }

  /** A negative speed gives a negative rest time, so a stepper whose last
      write is not in the future fires on every message that asks for it. */
  lemma NegativeSpeedAlwaysFires(s: Stepper, val: int, now: real)
    requires val < -2 && s.lastTime <= now
    ensures Fires(s, val, now)
  {
    assert 0.1 / val as real < 0.0;
  }

  /** `writeToArduino(pin, val)` at clock reading `now`. */
  function Write(st: ArmState, pin: int, val: int, now: real): ArmState
  {
    if pin !in StepPins(st.steppers) then st
    else
      var k := FirstWithPin(st.steppers, pin);
      var (turned, w1) := Turn(st.steppers[k], val);
      var (pulsed, w2) := Pulse(turned, val, now);
      ArmState(st.steppers[k := pulsed], st.writes + w1 + w2)
  }

  /** Writes to a pin that is no stepper's step pin are ignored. */
  lemma WriteOtherPin(st: ArmState, pin: int, val: int, now: real)
    requires Valid(st.steppers) && pin != 26 && pin != 36
    ensures Write(st, pin, val, now) == st
  {
  }

  /** A write to a step pin changes only that stepper, adds at most two pin
      writes, each to one of that stepper's pins with level 0 or 1, keeps the
      table valid, and leaves the stepper facing the sign of `val`. */
  lemma WriteStepPin(st: ArmState, k: nat, val: int, now: real)
    requires Valid(st.steppers) && k < 2
    ensures var after := Write(st, st.steppers[k].pin, val, now);
      Valid(after.steppers)
      && after.steppers[1 - k] == st.steppers[1 - k]
      && |st.writes| <= |after.writes| <= |st.writes| + 2
      && after.writes[..|st.writes|] == st.writes
      && (forall i :: |st.writes| <= i < |after.writes| ==>
            after.writes[i].0 in {st.steppers[k].pin, st.steppers[k].directionPin} && after.writes[i].1 in {0, 1})
      && (val < 0 ==> !after.steppers[k].direction)
      && (val > 0 ==> after.steppers[k].direction)
      && (val == 0 ==> after.steppers[k].direction == st.steppers[k].direction)
  {
    var pin := st.steppers[k].pin;
    assert pin in StepPins(st.steppers) by {
      assert StepPins(st.steppers)[k] == pin;
    }
    assert FirstWithPin(st.steppers, pin) == k;
  }

  /** The receiver keeps its table valid and drives only the pins the table
      configured, at levels 0 and 1, whatever commands it is given. */
  lemma {:induction false} WriteAllValid(st: ArmState, cs: seq<Command>, clock: nat -> real)
    requires Valid(st.steppers)
    ensures var after := WriteAll(st, cs, clock);
      Valid(after.steppers) && after.writes[..|st.writes|] == st.writes
      && forall i :: |st.writes| <= i < |after.writes| ==> BoardPin(after.writes[i].0) && after.writes[i].1 in {0, 1}
    decreases |cs|
  {
    if cs != [] {
      var init := cs[..|cs| - 1];
      var c := cs[|cs| - 1];
      WriteAllValid(st, init, clock);
      var mid := WriteAll(st, init, clock);
      if c.pin == 26 || c.pin == 36 {
        WriteStepPin(mid, if c.pin == 26 then 0 else 1, c.val, clock(|init|));
      } else {
        WriteOtherPin(mid, c.pin, c.val, clock(|init|));
      }
    }
  }

  /** Two fast pieces for the same step pin in one message, read far enough
      apart on the clock, both fire: the pin is toggled twice and ends at the
      level it started from. */
  lemma SameStepperFiresTwice(st: ArmState, k: nat, val: int, t1: real, t2: real)
    requires Valid(st.steppers) && k < 2 && val > 2
    requires st.steppers[k].lastTime < t1 - 0.1 / val as real && t1 < t2 - 0.1 / val as real
    ensures var pin := st.steppers[k].pin;
      var once := Write(st, pin, val, t1);
      var twice := Write(once, pin, val, t2);
      once.steppers[k].on == 1 - st.steppers[k].on
      && twice.steppers[k].on == st.steppers[k].on
      && twice.steppers[k].lastTime == t2
  {
    var pin := st.steppers[k].pin;
    assert StepPins(st.steppers)[k] == pin;
    assert FirstWithPin(st.steppers, pin) == k;
    var once := Write(st, pin, val, t1);
    WriteStepPin(st, k, val, t1);
    assert StepPins(once.steppers)[k] == pin;
    assert FirstWithPin(once.steppers, pin) == k;
  }

  /** The commands of a message, applied in order; the `k`-th command runs
      at clock reading `clock(k)`. */
  function WriteAll(st: ArmState, cs: seq<Command>, clock: nat -> real): (after: ArmState)
    ensures |st.writes| <= |after.writes|
    decreases |cs|
  {
    if cs == [] then st
    else
      var c := cs[|cs| - 1];
      Write(WriteAll(st, cs[..|cs| - 1], clock), c.pin, c.val, clock(|cs| - 1))
  }

  /** The loop of `parseInput` over the `;` pieces: empty pieces are skipped,
      the commands of the others are collected in order, and the first piece
      that does not parse ends the loop with its error. */
  function ParsePieces(ls: seq<string>): (r: (seq<Command>, Outcome))
    decreases |ls|
  {
    if ls == [] then ([], Pass)
    else
      var (cs, o) := ParsePieces(ls[..|ls| - 1]);
      var last := ls[|ls| - 1];
      if o.Fail? || last == "" then (cs, o)
      else match ParsePiece(last)
        case Err(e) => (cs, Fail(e))
        case Ok(c) => (cs + [c], Pass)
  }

  /** Once a piece has failed, later pieces change nothing. */
  lemma {:induction false} ParsePiecesFailSticks(ls: seq<string>, i: nat)
    requires i <= |ls| && ParsePieces(ls[..i]).1.Fail?
    ensures ParsePieces(ls) == ParsePieces(ls[..i])
    decreases |ls| - i
  {
    if i < |ls| {
      assert ls[..i + 1][..i] == ls[..i];
      ParsePiecesFailSticks(ls, i + 1);
    } else {
      assert ls[..i] == ls;
    }
  }

  /** The commands `parseInput(msg)` executes and how it ends: only the text
      before the first `&` counts, and an empty head does nothing. */
  function Parse(msg: string): (seq<Command>, Outcome)
  {
    var head := Text.Split(msg, '&')[0];
    if |head| > 0 then ParsePieces(Text.Split(head, ';')) else ([], Pass)
  }

  /** Text from the first `&` on is ignored. */
  lemma ParseUpToAmpersand(msg: string, rest: string)
    requires '&' !in msg
    ensures Parse(msg + "&" + rest) == Parse(msg)
  {
    Text.SplitCons(msg, rest, '&');
    Text.SplitNoSep(msg, '&');
  }

  /** A parsed prefix followed by a well-formed piece collects its command. */
  lemma ParsePiecesSnoc(ls: seq<string>, x: string, c: Command)
    requires x != "" && ParsePiece(x) == Ok(c) && ParsePieces(ls).1 == Pass
    ensures ParsePieces(ls + [x]) == (ParsePieces(ls).0 + [c], Pass)
  {
    assert (ls + [x])[..|ls|] == ls;
  }

  /** The pieces a serialiser writes parse back to its commands. */
  lemma {:induction false} ParsePiecesOfPieces(cs: seq<Command>)
    ensures ParsePieces(Pieces(cs)) == (cs, Pass)
    decreases |cs|
  {
    if cs != [] {
      var init, c := cs[..|cs| - 1], cs[|cs| - 1];
      ParsePieceOfPiece(c);
      PieceNonEmpty(c);
      calc {
        ParsePieces(Pieces(cs));
        ParsePieces(Pieces(init) + [Piece(c)]);
        { ParsePiecesOfPieces(init);
          ParsePiecesSnoc(Pieces(init), Piece(c), c); }
        (init + [c], Pass);
        { InitAndLast(cs); }
        (cs, Pass);
      }
    }
  }

  /** The arm joysticks' message (the commands' text without its final `;`,
      then `&`) makes the receiver execute exactly those commands, in order. */
  lemma ParseJoysticksMessage(cs: seq<Command>)
    requires |cs| >= 1
    ensures Parse(Text.DropLast(Encode(cs)) + "&") == (cs, Pass)
  {
    var body := Text.DropLast(Encode(cs));
    SplitEncoded(cs);
    EncodeFree(cs);
    assert '&' !in body by {
      assert Encode(cs) == body + [Encode(cs)[|Encode(cs)| - 1]];
    }
    ParseUpToAmpersand(body, "");
    assert body + "&" + "" == body + "&";
    Text.SplitNoSep(body, '&');
    ParsePiecesOfPieces(cs);
    PieceNonEmpty(cs[0]);
    assert Pieces(cs)[0] == Piece(cs[0]);
  }

  /** One more piece after a prefix that parsed: an empty piece is skipped,
      any other adds its command or ends the loop with its error. */
  lemma ParsePiecesStep(ls: seq<string>, i: nat)
    requires i < |ls| && ParsePieces(ls[..i]).1 == Pass
    ensures ls[i] == "" ==> ParsePieces(ls[..i + 1]) == ParsePieces(ls[..i])
    ensures ls[i] != "" && ParsePiece(ls[i]).Err? ==> ParsePieces(ls[..i + 1]) == (ParsePieces(ls[..i]).0, Fail(ParsePiece(ls[i]).error))
    ensures ls[i] != "" && ParsePiece(ls[i]).Ok? ==> ParsePieces(ls[..i + 1]) == (ParsePieces(ls[..i]).0 + [ParsePiece(ls[i]).value], Pass)
  {
    assert ls[..i + 1][..i] == ls[..i];
  }

  /** One more command runs at the clock reading of its position. */
  lemma WriteAllSnoc(st: ArmState, cs: seq<Command>, c: Command, clock: nat -> real)
    ensures WriteAll(st, cs + [c], clock) == Write(WriteAll(st, cs, clock), c.pin, c.val, clock(|cs|))
  {
    assert (cs + [c])[..|cs|] == cs;
  }

  /** The receiver on the Pi. */
  class ArmReceiver {
    var steppers: seq<Stepper>
    var writes: seq<(int, int)>

    function State(): ArmState
      reads this
    {
      ArmState(steppers, writes)
    }

    constructor (start: real)
      ensures State() == ArmState(InitialSteppers(start), []) && Valid(steppers)
    {
      steppers := InitialSteppers(start);
      writes := [];
    }

    /** `writeIfAble(STEPPERS[k], val, pins)` at clock reading `now`. */
    method WriteIfAble(k: nat, val: int, now: real)
      requires k < |steppers|
      modifies this
      ensures steppers == old(steppers)[k := Pulse(old(steppers)[k], val, now).0]
      ensures writes == old(writes) + Pulse(old(steppers)[k], val, now).1
    {
      if val > 2 || val < -2 {
        var restTime := 0.1 / val as real;
        var s := steppers[k];
        if s.lastTime < now - restTime {
          s := s.(on := (s.on + 1) % 2);
          writes := writes + [(s.pin, s.on)];
          s := s.(lastTime := now);
          steppers := steppers[k := s];
        }
      }
    }

    /** `writeToArduino(pin, val)` at clock reading `now`: the stepper search
        loop, the direction handling, then `writeIfAble`. */
    method WriteToArduino(pin: int, val: int, now: real)
      modifies this
      ensures State() == Write(old(State()), pin, val, now)
    {
      if pin in StepPins(steppers) {
        ghost var before := State();
        ghost var first := FirstWithPin(steppers, pin);
        var k := 0;
        while steppers[k].pin != pin
          invariant k <= first
          invariant forall j :: 0 <= j < k ==> steppers[j].pin != pin
          decreases |steppers| - k
        {
          k := k + 1;
        }
        var s := steppers[k];
        ghost var turn := Turn(s, val);
        if val < 0 && s.direction {
          s := s.(direction := false);
          writes := writes + [(s.directionPin, 1)];
        } else if val > 0 && !s.direction {
          s := s.(direction := true);
          writes := writes + [(s.directionPin, 0)];
        }
        assert k == first && s == turn.0 && writes == before.writes + turn.1;
        steppers := steppers[k := s];
        WriteIfAble(k, val, now);
        assert steppers == before.steppers[k := Pulse(turn.0, val, now).0];
      }
    }

    /** `parseInput(msg)`, the `k`-th command it executes reading the clock
        as `clock(k)`. */
    method ParseInput(msg: string, clock: nat -> real) returns (o: Outcome)
      modifies this
      ensures State() == WriteAll(old(State()), Parse(msg).0, clock)
      ensures o == Parse(msg).1
    {
      ghost var st0 := State();
      var head := Text.Split(msg, '&')[0];
      if |head| == 0 {
        return Pass;
      }
      var ls := Text.Split(head, ';');
      var executed := 0;
      for i := 0 to |ls|
        invariant ParsePieces(ls[..i]).1 == Pass
        invariant executed == |ParsePieces(ls[..i]).0|
        invariant State() == WriteAll(st0, ParsePieces(ls[..i]).0, clock)
      {
        ParsePiecesStep(ls, i);
        if |ls[i]| > 0 {
          var c := ParsePiece(ls[i]);
          if c.Err? {
            ParsePiecesFailSticks(ls, i + 1);
            return Fail(c.error);
          }
          WriteAllSnoc(st0, ParsePieces(ls[..i]).0, c.value, clock);
          WriteToArduino(c.value.pin, c.value.val, clock(executed));
          executed := executed + 1;
        }
      }
      assert ls[..|ls|] == ls;
      o := Pass;
    }
  }
}
