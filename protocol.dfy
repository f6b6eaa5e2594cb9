/** The `pin:val;` text protocol between the surface joysticks and the
    Raspberry Pi: each command is the decimal pin number, a colon and the
    decimal value; commands are separated (or terminated) by semicolons. */
module PinProtocol {
  import opened Errors
  import Text
  import Decimal

  /** One command: drive board pin `pin` with `val`. */
  datatype Command = Command(pin: int, val: int)

  /** Decimal text holds none of the protocol's separators. */
  lemma DecimalHasNoSeparator(n: int)
    ensures var s := Decimal.IntToString(n); ':' !in s && ';' !in s && '&' !in s && '\n' !in s
  {
    var s := Decimal.IntToString(n);
    forall i | 0 <= i < |s|
      ensures s[i] != ':' && s[i] != ';' && s[i] != '&' && s[i] != '\n'
    {
      assert s[i] == '-' || Decimal.IsDigit(s[i]);
    }
  }

  /** `f"{pin}:{val}"`. */
  function Piece(c: Command): (s: string)
    ensures ';' !in s && '&' !in s && '\n' !in s
    ensures Text.Split(s, ':') == [Decimal.IntToString(c.pin), Decimal.IntToString(c.val)]
  {
    var p, v := Decimal.IntToString(c.pin), Decimal.IntToString(c.val);
    DecimalHasNoSeparator(c.pin);
    DecimalHasNoSeparator(c.val);
    Text.SplitNoSep(v, ':');
    Text.SplitCons(p, v, ':');
    p + ":" + v
  }

  /** A piece always holds its colon. */
  lemma PieceNonEmpty(c: Command)
    ensures Piece(c) != ""
  {
    assert |Text.Split(Piece(c), ':')| == 2;
  }

  /** The text each serialiser's loop accumulates: `pin:val;` per command, in order. */
  function Encode(cs: seq<Command>): string
  {
    if cs == [] then "" else Encode(cs[..|cs| - 1]) + Piece(cs[|cs| - 1]) + ";"
  }

  /** `output = ""; for pin in pin_dict: output += f"{pin}:{pin_dict[pin]};"`. */
  method FormatCommands(cs: seq<Command>) returns (out: string)
    ensures out == Encode(cs)
  {
    out := "";
    for i := 0 to |cs|
      invariant out == Encode(cs[..i])
    {
      assert cs[..i + 1][..i] == cs[..i];
      out := out + Piece(cs[i]) + ";";
    }
    assert cs[..|cs|] == cs;
  }

  /** The accumulated text holds neither the message terminator `&` nor a newline. */
  lemma {:induction false} EncodeFree(cs: seq<Command>)
    ensures '&' !in Encode(cs) && '\n' !in Encode(cs)
    decreases |cs|
  {
    if cs != [] {
      EncodeFree(cs[..|cs| - 1]);
    }
  }

  function Pieces(cs: seq<Command>): (ps: seq<string>)
    ensures |ps| == |cs| && forall i :: 0 <= i < |cs| ==> ps[i] == Piece(cs[i])
  {
    if cs == [] then [] else Pieces(cs[..|cs| - 1]) + [Piece(cs[|cs| - 1])]
  }

  /** A non-empty sequence is its prefix and its last element. */
  lemma InitAndLast<T>(s: seq<T>)
    requires s != []
    ensures s[..|s| - 1] + [s[|s| - 1]] == s
  {
  }

  /** Dropping the last element of `a + b`, `b` non-empty, drops it from `b`. */
  lemma DropLastOfAppend<T>(a: seq<T>, b: seq<T>)
    requires b != []
    ensures (a + b)[..|a + b| - 1] == a + b[..|b| - 1]
    ensures (a + b)[|a + b| - 1] == b[|b| - 1]
  {
  }

  lemma AppendAssoc<T>(x: seq<T>, y: seq<T>, z: seq<T>)
    ensures (x + y) + z == x + (y + z)
  {
  }

  /** The accumulated text of several outputs is the text of all their commands. */
  lemma {:induction false} EncodeAppend(a: seq<Command>, b: seq<Command>)
    ensures Encode(a + b) == Encode(a) + Encode(b)
    decreases |b|
  {
    if b != [] {
      var b', p := b[..|b| - 1], Piece(b[|b| - 1]);
      DropLastOfAppend(a, b);
      EncodeAppend(a, b');
      var x, y := Encode(a), Encode(b');
      calc {
        Encode(a + b);
      ==
        ((x + y) + p) + ";";
      == { AppendAssoc(x, y, p); }
        (x + (y + p)) + ";";
      == { AppendAssoc(x, y + p, ";"); }
        x + ((y + p) + ";");
      ==
        x + Encode(b);
      }
    } else {
      assert a + b == a;
    }
  }

  /** Without its final semicolon, the text of a non-empty command list is its
      pieces joined by semicolons. */
  lemma {:induction false} EncodeIsJoin(cs: seq<Command>)
    requires |cs| >= 1
    ensures Encode(cs) == Text.Join(Pieces(cs), ';') + ";"
    decreases |cs|
  {
    if |cs| > 1 {
      var init := cs[..|cs| - 1];
      EncodeIsJoin(init);
      JoinSnoc(Pieces(init), Piece(cs[|cs| - 1]), ';');
    } else {
      assert Encode(cs) == Encode([]) + Piece(cs[0]) + ";";
    }
  }

  lemma {:induction false} JoinSnoc(parts: seq<string>, last: string, sep: char)
    requires |parts| >= 1
    ensures Text.Join(parts + [last], sep) == Text.Join(parts, sep) + [sep] + last
    decreases |parts|
  {
    if |parts| == 1 {
      assert (parts + [last])[1..] == [last];
    } else {
      assert (parts + [last])[1..] == parts[1..] + [last];
      JoinSnoc(parts[1..], last, sep);
    }
  }

  /** The pieces a semicolon split of the accumulated text (final `;` dropped)
      yields are exactly the commands' pieces. */
  lemma SplitEncoded(cs: seq<Command>)
    requires |cs| >= 1
    ensures Text.Split(Text.DropLast(Encode(cs)), ';') == Pieces(cs)
  {
    EncodeIsJoin(cs);
    var j := Text.Join(Pieces(cs), ';');
    assert Text.DropLast(Encode(cs)) == j;
    Text.SplitJoin(Pieces(cs), ';');
  }

  /** `int(x.split(':')[0]), int(x.split(':')[1])`, evaluated left to right:
      a bad pin is a ValueError, a missing colon an IndexError, then a bad value a
      ValueError. Text after a second colon is ignored. */
  function ParsePiece(x: string): (r: Result<Command>)
    ensures r.Ok? ==> |Text.Split(x, ':')| >= 2
  {
    var parts := Text.Split(x, ':');
    match Decimal.ParseInt(parts[0])
    case None => Err(ValueError)
    case Some(pin) =>
      if |parts| < 2 then Err(IndexError)
      else match Decimal.ParseInt(parts[1])
        case None => Err(ValueError)
        case Some(val) => Ok(Command(pin, val))
  }

  /** The outcome of `ParsePiece` case by case, in the source's order of
      evaluation: the pin first (ValueError), then the presence of a value
      (IndexError), then the value (ValueError); otherwise the command of the
      two numbers. */
  lemma ParsePieceCases(x: string)
    ensures var parts, r := Text.Split(x, ':'), ParsePiece(x);
      (Decimal.ParseInt(parts[0]).None? ==> r == Err(ValueError))
      && (Decimal.ParseInt(parts[0]).Some? && |parts| < 2 ==> r == Err(IndexError))
      && (Decimal.ParseInt(parts[0]).Some? && |parts| >= 2 && Decimal.ParseInt(parts[1]).None? ==> r == Err(ValueError))
      && (r.Ok? <==> (Decimal.ParseInt(parts[0]).Some? && |parts| >= 2 && Decimal.ParseInt(parts[1]).Some?))
      && (r.Ok? ==> r.value == Command(Decimal.ParseInt(parts[0]).value, Decimal.ParseInt(parts[1]).value))
  {
  }

  /** Every piece a serialiser writes parses back to its command. */
  lemma ParsePieceOfPiece(c: Command)
    ensures ParsePiece(Piece(c)) == Ok(c)
  {
    Decimal.ParseIntToString(c.pin);
    Decimal.ParseIntToString(c.val);
  }
}
