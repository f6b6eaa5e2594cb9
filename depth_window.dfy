/** The depth-reading loop of pi/depth-sensor.py and pi/mock_depth_sensor.py
    (the two loops are identical apart from where a reading comes from):
    each reading is appended to `depth_list`, the oldest is dropped once the
    list reaches ten, and the whole list is sent. */
module DepthWindow {

  /** `depth_list_length`. */
  const DepthListLength: nat := 10

  /** The last `n` elements of `xs`, or all of them when there are fewer. */
  function LastN(xs: seq<real>, n: nat): (r: seq<real>)
    ensures |r| == if |xs| <= n then |xs| else n
    ensures r == xs[|xs| - |r|..]
  {
    if |xs| <= n then xs else xs[|xs| - n..]
  }

  /** One iteration's list update: append, then drop the front once the
      length has reached `depth_list_length`. */
  function Push(window: seq<real>, depth: real): (r: seq<real>)
  {
    var appended := window + [depth];
    if |appended| >= DepthListLength then appended[1..] else appended
  }

  /** A window holding the last nine readings, pushed one more reading,
      holds the last nine readings again. */
  lemma PushKeepsLastNine(readings: seq<real>, depth: real)
    ensures Push(LastN(readings, 9), depth) == LastN(readings + [depth], 9)
  {
    var w := LastN(readings, 9);
    var ext := readings + [depth];
    if |readings| < 9 {
      assert w + [depth] == ext;
    } else {
      assert |w + [depth]| == 10;
      assert (w + [depth])[1..] == ext[|ext| - 9..];
    }
  }

  /** The loop's state: the list and the messages sent so far, each message
      being the list at the moment it was sent (its JSON text is not
      modelled). `readings` is every reading taken, in order. */
  class DepthLoop {
    var depthList: seq<real>
    var sent: seq<seq<real>>
    ghost var readings: seq<real>

    /** The list is always the last nine readings (fewer at the start), and
        the `i`-th message was the list after reading `i`. */
    ghost predicate Valid()
      reads this
    {
      depthList == LastN(readings, 9)
      && |sent| == |readings|
      && forall i :: 0 <= i < |sent| ==> sent[i] == LastN(readings[..i + 1], 9)
    }

    /** `depth_list = []`. */
    constructor ()
      ensures Valid() && readings == [] && depthList == [] && sent == []
    {
      depthList, sent := [], [];
      readings := [];
    }

    /** One pass of the `while True` loop with the reading `depth`. */
    method Step(depth: real)
      requires Valid()
      modifies this
      ensures Valid() && readings == old(readings) + [depth]
      ensures depthList == Push(old(depthList), depth)
      ensures |depthList| <= 9 && depthList[|depthList| - 1] == depth
      ensures sent == old(sent) + [depthList]
    {
      PushKeepsLastNine(readings, depth);
      ghost var before := readings;
      depthList := depthList + [depth];
      if |depthList| >= DepthListLength {
        depthList := depthList[1..];
      }
      readings := readings + [depth];
      sent := sent + [depthList];
      forall i | 0 <= i < |sent|
        ensures sent[i] == LastN(readings[..i + 1], 9)
      {
        if i < |before| {
          assert readings[..i + 1] == before[..i + 1];
        } else {
          assert readings[..i + 1] == readings;
        }
      }
    }

    /** The loop run over a batch of readings. */
    method Run(batch: seq<real>)
      requires Valid()
      modifies this
      ensures Valid() && readings == old(readings) + batch
      ensures depthList == LastN(old(readings) + batch, 9)
      ensures |sent| == |old(sent)| + |batch| && sent[..|old(sent)|] == old(sent)
    {
      for i := 0 to |batch|
        invariant Valid() && readings == old(readings) + batch[..i]
        invariant |sent| == |old(sent)| + i && sent[..|old(sent)|] == old(sent)
      {
        assert batch[..i + 1] == batch[..i] + [batch[i]];
        Step(batch[i]);
      }
      assert batch[..|batch|] == batch;
    }
  }
}
