/** pi/hardware.py: the actuators the vehicle drives through its board. Each
    actuator keeps the value its `run` loop writes to the board; the board's
    pins are represented by logs of the values written to them. */
module Hardware {
  import opened Errors
  import opened Numeric
  import CommonUtils

  /** The range check of `Servo.set_val` (inherited by `Thruster`) and of
      `SimThruster.set_val`: a mapped value outside `[0, limit]` raises
      ValueError. */
  function CheckAngle(val: int, limit: int): (o: Outcome)
    ensures o == Pass <==> 0 <= val <= limit
    ensures o != Pass ==> o == Fail(ValueError)
  {
    if val < 0 || val > limit then Fail(ValueError) else Pass
  }

  /** `Thruster.linear_map(x)`: common/utils.py's `linear_map` from [-1, 1]
      onto the active range (onto the range reversed when `reverse`), then `int()`. */
  function ThrusterMap(activeRange: (int, int), reverse: bool, x: real): int
  {
    if !reverse then Trunc(CommonUtils.LinearMap(x, -1.0, 1.0, activeRange.0 as real, activeRange.1 as real).value)
    else Trunc(CommonUtils.LinearMap(x, -1.0, 1.0, activeRange.1 as real, activeRange.0 as real).value)
  }

  /** -1 and 1 land on the ends of the active range, swapped when reversed. */
  lemma ThrusterMapEndpoints(activeRange: (int, int))
    ensures ThrusterMap(activeRange, false, -1.0) == activeRange.0
    ensures ThrusterMap(activeRange, false, 1.0) == activeRange.1
    ensures ThrusterMap(activeRange, true, -1.0) == activeRange.1
    ensures ThrusterMap(activeRange, true, 1.0) == activeRange.0
  {
    var (lo, hi) := activeRange;
    CommonUtils.LinearMapEndpoints(-1.0, 1.0, lo as real, hi as real);
    CommonUtils.LinearMapEndpoints(-1.0, 1.0, hi as real, lo as real);
    TruncOfInt(lo);
    TruncOfInt(hi);
  }

  /** A reversed thruster maps `x` where a forward one maps `-x`. */
  lemma ThrusterMapMirror(activeRange: (int, int), x: real)
    ensures ThrusterMap(activeRange, true, x) == ThrusterMap(activeRange, false, -x)
  {
    var (lo, hi) := (activeRange.0 as real, activeRange.1 as real);
    assert CommonUtils.Affine(x, -1.0, 1.0, hi, lo) == (lo + hi) / 2.0 - x * (hi - lo) / 2.0;
    assert CommonUtils.Affine(-x, -1.0, 1.0, lo, hi) == (lo + hi) / 2.0 - x * (hi - lo) / 2.0;
  }

  /** A command in [-1, 1] maps into the active range, whichever way round. */
  lemma ThrusterMapInRange(activeRange: (int, int), reverse: bool, x: real)
    requires activeRange.0 <= activeRange.1 && -1.0 <= x <= 1.0
    ensures activeRange.0 <= ThrusterMap(activeRange, reverse, x) <= activeRange.1
  {
    var (lo, hi) := (activeRange.0 as real, activeRange.1 as real);
    var t := (x + 1.0) / 2.0;
    assert 0.0 <= t <= 1.0;
    MulNonNegative(t, hi - lo);
    MulNonNegative(1.0 - t, hi - lo);
    if reverse {
      assert CommonUtils.Affine(x, -1.0, 1.0, hi, lo) == hi - t * (hi - lo);
      TruncBetween(hi - t * (hi - lo), activeRange.0, activeRange.1);
    } else {
      assert CommonUtils.Affine(x, -1.0, 1.0, lo, hi) == lo + t * (hi - lo);
      TruncBetween(lo + t * (hi - lo), activeRange.0, activeRange.1);
    }
  }

  /** With the default active range (1200, 1800), every command in [-1, 1]
      passes `set_val`'s check and the stored value is a pulse width in
      [1200, 1800]. */
  lemma DefaultThrusterAccepts(reverse: bool, x: real)
    requires -1.0 <= x <= 1.0
    ensures CheckAngle(ThrusterMap((1200, 1800), reverse, x), 1800) == Pass
    ensures 1200 <= ThrusterMap((1200, 1800), reverse, x) <= 1800
  {
    ThrusterMapInRange((1200, 1800), reverse, x);
  }

  /** `Servo`: the angle its `run` loop writes. */
  class Servo {
    var angle: int

    constructor ()
      ensures angle == 90
    {
      angle := 90;
    }

    /** `set_val(val)`: `int(val)`, rejected outside [0, 1800] with the angle
        left as it was. */
    method SetVal(val: real) returns (o: Outcome)
      modifies this
      ensures o == CheckAngle(Trunc(val), 1800)
      ensures angle == if o == Pass then Trunc(val) else old(angle)
    {
      var mapped := Trunc(val);
      o := CheckAngle(mapped, 1800);
      if o == Pass {
        angle := mapped;
      }
    }
  }

  /** `Thruster`: a servo whose value is a pulse width mapped from [-1, 1]. */
  class Thruster {
    const activeRange: (int, int)
    const reverse: bool
    var angle: int

    constructor (activeRange: (int, int) := (1200, 1800), reverse: bool := false)
      ensures this.activeRange == activeRange && this.reverse == reverse && angle == 1500
    {
      this.activeRange := activeRange;
      this.reverse := reverse;
      angle := 1500;
    }

    /** The inherited `set_val` over `Thruster.linear_map`. */
    method SetVal(val: real) returns (o: Outcome)
      modifies this
      ensures o == CheckAngle(ThrusterMap(activeRange, reverse, val), 1800)
      ensures angle == if o == Pass then ThrusterMap(activeRange, reverse, val) else old(angle)
    {
      var mapped := ThrusterMap(activeRange, reverse, val);
      o := CheckAngle(mapped, 1800);
      if o == Pass {
        angle := mapped;
      }
    }
  }

  /** The levels `LinActuator.run` writes to its two pins for a position:
      retract below the dead zone, extend above it, otherwise stop. */
  function PinLevels(pos: real, deadzone: real): (levels: (int, int))
    ensures levels.0 in {0, 1} && levels.1 in {0, 1} && levels != (1, 1)
    ensures levels.0 == 1 <==> pos < -deadzone
    ensures levels.1 == 1 <==> -deadzone <= pos && deadzone < pos
  {
    if pos < 0.0 - deadzone then (1, 0)
    else if pos > 0.0 + deadzone then (0, 1)
    else (0, 0)
  }

  /** With a non-negative dead zone, positions within it stop the actuator and
      opposite positions beyond it drive opposite pins. */
  lemma PinLevelsSymmetric(pos: real, deadzone: real)
    requires 0.0 <= deadzone
    ensures -deadzone <= pos <= deadzone <==> PinLevels(pos, deadzone) == (0, 0)
    ensures PinLevels(pos, deadzone) != (0, 0) ==>
      PinLevels(-pos, deadzone) == (PinLevels(pos, deadzone).1, PinLevels(pos, deadzone).0)
  {
  }

  /** `LinActuator`: an extension rate in [-1, 1] and the pin levels its `run`
      loop has written, one pair per pass. */
  class LinActuator {
    const deadzone: real
    var pos: real
    var writes: seq<(int, int)>

    constructor (deadzone: real := 0.1)
      ensures this.deadzone == deadzone && pos == 0.0 && writes == []
    {
      this.deadzone := deadzone;
      pos := 0.0;
      writes := [];
    }

    /** `set_val(val)`: values outside [-1, 1] raise ValueError and leave the
        position as it was. */
    method SetVal(val: real) returns (o: Outcome)
      modifies this
      ensures o == Pass <==> -1.0 <= val <= 1.0
      ensures o != Pass ==> o == Fail(ValueError) && pos == old(pos)
      ensures o == Pass ==> pos == val
      ensures writes == old(writes)
    {
      if val < -1.0 || val > 1.0 {
        return Fail(ValueError);
      }
      pos := val;
      o := Pass;
    }

    /** One pass of `run`: the pin levels for the current position. */
    method RunOnce()
      modifies this
      ensures writes == old(writes) + [PinLevels(pos, deadzone)]
      ensures pos == old(pos)
    {
      writes := writes + [PinLevels(pos, deadzone)];
    }
  }

  /** `Stepper.linear_map(x)`: `linear_map` from [-50, 50] onto [-5, 5], then `int()`. */
  function StepperMap(x: real): int
  {
    Trunc(CommonUtils.LinearMap(x, -50.0, 50.0, -5.0, 5.0).value)
  }

  /** The stepper's map is a tenth of its input, truncated toward zero. */
  lemma StepperMapTenth(x: real)
    ensures StepperMap(x) == Trunc(x / 10.0)
    ensures StepperMap(-x) == -StepperMap(x)
  {
    assert CommonUtils.Affine(x, -50.0, 50.0, -5.0, 5.0) == x / 10.0;
    assert CommonUtils.Affine(-x, -50.0, 50.0, -5.0, 5.0) == -x / 10.0;
    TruncOdd(x / 10.0);
  }

  /** `Stepper`: a speed in rev/s, a direction, and the number of writes made
      to the direction pin. */
  class Stepper {
    var direction: bool
    var speed: real
    var directionWrites: nat

    constructor (direction: bool := true)
      ensures this.direction == direction && speed == 0.0 && directionWrites == 0
    {
      this.direction := direction;
      speed := 0.0;
      directionWrites := 0;
    }

    /** `set_val(val)`: the speed is stored as given. */
    method SetVal(val: real)
      modifies this
      ensures speed == val && direction == old(direction) && directionWrites == old(directionWrites)
    {
      speed := val;
    }

    /** `reverse()`: one write to the direction pin, and the direction flips. */
    method Reverse()
      modifies this
      ensures direction == !old(direction) && speed == old(speed)
      ensures directionWrites == old(directionWrites) + 1
    {
      directionWrites := directionWrites + 1;
      direction := !direction;
    }
  }
}
