/** `VelocityVector`, the six-axis command record of all three utility
    modules (common/, pi/ and surface/common/). */
module Velocity {
  import opened Errors

  /** The dataclass: x, y, z, yaw, pitch, roll, each defaulting to 0.0. */
  datatype VelocityVector = VelocityVector(x: real, y: real, z: real, yaw: real, pitch: real, roll: real)

  /** The field names, in declaration order: what `keys()` lists. */
  const Keys: seq<string> := ["x", "y", "z", "yaw", "pitch", "roll"]

  /** `VelocityVector()`: every field at its default. */
  function Zero(): VelocityVector
  {
    VelocityVector(0.0, 0.0, 0.0, 0.0, 0.0, 0.0)
  }

  /** `asdict(v)`: a fresh dictionary from field name to value. */
  function AsDict(v: VelocityVector): (d: map<string, real>)
    ensures d.Keys == set k | k in Keys
  {
    map["x" := v.x, "y" := v.y, "z" := v.z, "yaw" := v.yaw, "pitch" := v.pitch, "roll" := v.roll]
  }

  /** The value of the `i`-th field, in declaration order. */
  function Component(v: VelocityVector, i: nat): (r: real)
    requires i < |Keys|
    ensures GetItem(v, Keys[i]) == Ok(r)
  {
    [v.x, v.y, v.z, v.yaw, v.pitch, v.roll][i]
  }

  /** `v[key]`, read through `asdict`; an unknown key raises KeyError. */
  function GetItem(v: VelocityVector, key: string): (r: Result<real>)
    ensures r.Err? <==> key !in Keys
  {
    var d := AsDict(v);
    if key in d then Ok(d[key]) else Err(KeyError)
  }

  /** `v[key] = value` as written: the value goes into the copy `asdict` returns,
      which is then dropped, so the vector comes back as it was. */
  function SetItem(v: VelocityVector, key: string, value: real): (r: VelocityVector)
  {
    var copy := AsDict(v)[key := value];
    v
  }

  /** `setattr(v, key, value)`: a field name sets that field; any other name
      only adds an attribute that `asdict`, `keys` and `v[...]` never see. */
  function WithItem(v: VelocityVector, key: string, value: real): (r: VelocityVector)
  {
    match key
    case "x" => v.(x := value)
    case "y" => v.(y := value)
    case "z" => v.(z := value)
    case "yaw" => v.(yaw := value)
    case "pitch" => v.(pitch := value)
    case "roll" => v.(roll := value)
    case _ => v
  }

  /** The item assignment as written never changes the vector, for any key and value. */
  lemma SetItemIsNoOp(v: VelocityVector, key: string, value: real)
    ensures AsDict(SetItem(v, key, value)) == AsDict(v)
    ensures forall k :: k in Keys ==> GetItem(SetItem(v, key, value), k) == GetItem(v, k)
  {
  }

  /** Setting a field makes that key read back the value. */
  lemma WithItemReadsBack(v: VelocityVector, key: string, value: real)
    requires key in Keys
    ensures GetItem(WithItem(v, key, value), key) == Ok(value)
  {
    var d := AsDict(WithItem(v, key, value));
    if key == "x" {
      assert d[key] == value;
    } else if key == "y" {
      assert d[key] == value;
    } else if key == "z" {
      assert d[key] == value;
    } else if key == "yaw" {
      assert d[key] == value;
    } else if key == "pitch" {
      assert d[key] == value;
    } else {
      assert d[key] == value;
    }
  }

  /** Setting a field leaves every other key as it was. */
  lemma WithItemKeepsOthers(v: VelocityVector, key: string, value: real)
    ensures forall k :: k in Keys && k != key ==> GetItem(WithItem(v, key, value), k) == GetItem(v, k)
  {
    var w := WithItem(v, key, value);
    forall k | k in Keys && k != key
      ensures GetItem(w, k) == GetItem(v, k)
    {
      if k == "x" {
        assert w.x == v.x;
      } else if k == "y" {
        assert w.y == v.y;
      } else if k == "z" {
        assert w.z == v.z;
      } else if k == "yaw" {
        assert w.yaw == v.yaw;
      } else if k == "pitch" {
        assert w.pitch == v.pitch;
      } else {
        assert w.roll == v.roll;
      }
    }
  }

  /** The value the last `(key, value)` pair with this key gives, if any
      (later assignments overwrite earlier ones). */
  function Lookup(vals: seq<(string, real)>, key: string): Option<real>
  {
    if vals == [] then None
    else if vals[|vals| - 1].0 == key then Some(vals[|vals| - 1].1)
    else Lookup(vals[..|vals| - 1], key)
  }

  /** The value a missing key keeps: the dataclass default. */
  function OrDefault(o: Option<real>): real
  {
    match o
    case Some(value) => value
    case None => 0.0
  }

  /** `VelocityVector(vals)` (common/ and surface/common/ only): start from the
      defaults and `setattr` each dictionary item in turn. */
  method FromDict(vals: seq<(string, real)>) returns (v: VelocityVector)
    ensures forall k :: k in Keys ==> GetItem(v, k) == Ok(OrDefault(Lookup(vals, k)))
  {
    v := Zero();
    for i := 0 to |vals|
      invariant forall k :: k in Keys ==> AsDict(v)[k] == OrDefault(Lookup(vals[..i], k))
    {
      FromDictStep(v, vals, i);
      v := WithItem(v, vals[i].0, vals[i].1);
    }
    assert vals[..|vals|] == vals;
  }

  /** One `setattr` keeps every field equal to the last value given for it. */
  lemma FromDictStep(v: VelocityVector, vals: seq<(string, real)>, i: nat)
    requires i < |vals|
    requires forall k :: k in Keys ==> AsDict(v)[k] == OrDefault(Lookup(vals[..i], k))
    ensures forall k :: k in Keys ==>
      AsDict(WithItem(v, vals[i].0, vals[i].1))[k] == OrDefault(Lookup(vals[..i + 1], k))
  {
    assert vals[..i + 1][..i] == vals[..i];
    var w := WithItem(v, vals[i].0, vals[i].1);
    forall k | k in Keys
      ensures AsDict(w)[k] == OrDefault(Lookup(vals[..i + 1], k))
    {
      WithItemKeepsOthers(v, vals[i].0, vals[i].1);
      if k == vals[i].0 {
        WithItemReadsBack(v, k, vals[i].1);
        assert GetItem(w, k) == Ok(vals[i].1);
      } else {
        assert GetItem(w, k) == GetItem(v, k);
      }
    }
  }

  /** `to_dict()` without its rounding to three decimals. */
  function ToDict(v: VelocityVector): (d: map<string, real>)
    ensures d.Keys == {"x", "y", "z", "yaw", "pitch", "roll"}
    ensures forall k :: k in Keys ==> GetItem(v, k) == Ok(d[k])
  {
    AsDict(v)
  }

  /** Component-wise sum, used to state that the thruster mix is linear. */
  function Add(a: VelocityVector, b: VelocityVector): VelocityVector
  {
    VelocityVector(a.x + b.x, a.y + b.y, a.z + b.z, a.yaw + b.yaw, a.pitch + b.pitch, a.roll + b.roll)
  }
}
