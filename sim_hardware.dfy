/** pi/sim_hardware.py: the simulated thruster, which keeps an angle in
    degrees instead of a pulse width. */
module SimHardware {
  import opened Errors
  import opened Numeric
  import Hardware

  /** `SimThruster.linear_map(x)`: [-1, 1] onto the active range, then `int()`;
      the same map as a forward `Thruster`. */
  function SimThrusterMap(activeRange: (int, int), x: real): int
  {
    Hardware.ThrusterMap(activeRange, false, x)
  }

  /** With the default range (30, 150) the map is `int(60 * x + 90)`. */
  lemma SimThrusterMapDefault(x: real)
    ensures SimThrusterMap((30, 150), x) == Trunc(60.0 * x + 90.0)
    ensures SimThrusterMap((30, 150), -1.0) == 30 && SimThrusterMap((30, 150), 1.0) == 150
  {
    Hardware.ThrusterMapEndpoints((30, 150));
  }

  /** Every command in [-1, 1] passes the [0, 180] check of the default
      simulated thruster and lands in [30, 150]. */
  lemma SimThrusterAccepts(x: real)
    requires -1.0 <= x <= 1.0
    ensures Hardware.CheckAngle(SimThrusterMap((30, 150), x), 180) == Pass
    ensures 30 <= SimThrusterMap((30, 150), x) <= 150
  {
    Hardware.ThrusterMapInRange((30, 150), false, x);
  }

  /** `SimThruster`: its `run` loop only sleeps, so `set_val` is the one
      operation that changes the angle. */
  class SimThruster {
    const pinNumber: int
    const activeRange: (int, int)
    var angle: int

    constructor (pinNumber: int, activeRange: (int, int) := (30, 150))
      ensures this.pinNumber == pinNumber && this.activeRange == activeRange && angle == 90
    {
      this.pinNumber := pinNumber;
      this.activeRange := activeRange;
      angle := 90;
    }

    /** `set_val(val)`: the mapped angle, rejected outside [0, 180] with the
        angle left as it was. */
    method SetVal(val: real) returns (o: Outcome)
      modifies this
      ensures o == Hardware.CheckAngle(SimThrusterMap(activeRange, val), 180)
      ensures angle == if o == Pass then SimThrusterMap(activeRange, val) else old(angle)
    {
      var mapped := SimThrusterMap(activeRange, val);
      o := Hardware.CheckAngle(mapped, 180);
      if o == Pass {
        angle := mapped;
      }
    }
  }
}
