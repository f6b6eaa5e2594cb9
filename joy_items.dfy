/** The joystick items of surface/arm.py, surface/stepper.py and
    surface/client.py (the three files define the same `button`, `toggle`,
    `axis` and `hat` classes). A joystick reaches its items only through its
    dictionaries, so an item is modelled as a value the joystick replaces. */
module JoyItems {

  /** A `button` (`button_pressed` is the last state) or a `toggle`
      (`button_pressed` flips on state 1). */
  datatype Item = Button(pressed: int) | Toggle(pressed: int)

  /** `item.update(state)`. */
  function Update(b: Item, state: int): (r: Item)
    ensures r.Button? == b.Button?
    ensures b.Button? ==> r.pressed == state
    ensures b.Toggle? && state != 1 ==> r == b
    ensures b.Toggle? && state == 1 && b.pressed in {0, 1} ==> r.pressed == 1 - b.pressed
    ensures b.Toggle? && b.pressed in {0, 1} ==> r.pressed in {0, 1}
  {
    match b
    case Button(_) => Button(state)
    case Toggle(p) => if state == 1 then Toggle((p + 1) % 2) else b
  }

  /** The item after `n` presses (`update(1)`). */
  function Presses(b: Item, n: nat): Item
  {
    if n == 0 then b else Update(Presses(b, n - 1), 1)
  }

  /** A toggle that starts at 0 or 1 shows the parity of its presses: two
      presses bring it back. */
  lemma {:induction false} TogglePresses(p: int, n: nat)
    requires p in {0, 1}
    ensures Presses(Toggle(p), n) == Toggle((p + n) % 2)
  {
    if n > 0 {
      TogglePresses(p, n - 1);
      assert (p + n - 1) % 2 in {0, 1};
      if (p + n - 1) % 2 == 0 {
        assert (p + n) % 2 == 1;
      } else {
        assert (p + n) % 2 == 0;
      }
    }
  }

  /** The button loop of `joystick.__init__`: index `i` holds a toggle exactly
      when `i` is listed in `toggle_vals`, and every item starts at 0. */
  method MakeButtons(n: nat, toggleVals: seq<int>) returns (bs: seq<Item>)
    ensures |bs| == n
    ensures forall i :: 0 <= i < n ==> (bs[i].Toggle? <==> i in toggleVals) && bs[i].pressed == 0
  {
    bs := [];
    for i := 0 to n
      invariant |bs| == i
      invariant forall j :: 0 <= j < i ==> (bs[j].Toggle? <==> j in toggleVals) && bs[j].pressed == 0
    {
      if i in toggleVals {
        bs := bs + [Toggle(0)];
      } else {
        bs := bs + [Button(0)];
      }
    }
  }

  /** The axis loop of `joystick.__init__`: axes listed in `trigger_vals`
      start at `triggerStart`, the others at `otherStart`. */
  method MakeAxes(n: nat, triggerVals: seq<int>, triggerStart: real, otherStart: real) returns (axes: seq<real>)
    ensures |axes| == n
    ensures forall i :: 0 <= i < n ==> axes[i] == if i in triggerVals then triggerStart else otherStart
  {
    axes := [];
    for i := 0 to n
      invariant |axes| == i
      invariant forall j :: 0 <= j < i ==> axes[j] == if j in triggerVals then triggerStart else otherStart
    {
      axes := axes + [if i in triggerVals then triggerStart else otherStart];
    }
  }
}
