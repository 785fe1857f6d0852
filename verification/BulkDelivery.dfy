/** The ring under the bulk transfer: what every receiver extracts from what every sender packed,
    however many packets are lost, repeated or re-sent on the way. */
module BulkDelivery {
  import opened Bytes
  import opened RingNode
  import opened RingProtocol
  import opened FillFraming
  import opened FillTransfer

  /** The bulk part of each payload. */
  function Fills(payloads: seq<Payload>): (r: seq<seq<Byte>>)
    ensures |r| == |payloads|
    ensures forall k | 0 <= k < |payloads| :: r[k] == payloads[k].fill
  {
    seq(|payloads|, k requires 0 <= k < |payloads| => payloads[k].fill)
  }

  /** The first m slices of a run are the slices of its first k calls. */
  lemma {:induction false} CutRun(capacity: nat, ops: seq<Op>, m: nat) returns (k: nat)
    requires m <= |Run(capacity, ops).1|
    ensures k <= |ops| && Run(capacity, ops[..k]).1 == Run(capacity, ops).1[..m]
    ensures Enqueued(ops[..k]) <= Enqueued(ops)
  {
    hide PackWork, StuffMessage;
    if m == |Run(capacity, ops).1| {
      k := |ops|;
      assert ops[..k] == ops;
    } else {
      var before := ops[..|ops| - 1];
      assert Run(capacity, before).1 <= Run(capacity, ops).1;
      k := CutRun(capacity, before, m);
      assert before[..k] == ops[..k];
    }
  }

  lemma {:induction false} SendableGrows(a: seq<Obj>, b: seq<Obj>, capacity: nat)
    requires a <= b
    ensures Sendable(a, capacity) <= Sendable(b, capacity)
  {
    hide Frame;
    if a != [] && |Frame(a[0])| <= capacity {
      assert a[1..] <= b[1..];
      SendableGrows(a[1..], b[1..], capacity);
    }
  }

  /** What BulkRoundTrip says holds of every first part of the slices as well, counted against all
      the objects of the run. */
  lemma PartialRoundTrip(capacity: nat, size: nat, ops: seq<Op>, m: nat)
    requires capacity <= size && m <= |Run(capacity, ops).1|
    requires AllPackable(Enqueued(ops)) && Substantial(Enqueued(ops))
    ensures var slices := Run(capacity, ops).1[..m];
            var u, good := Feed(size, slices), Sendable(Enqueued(ops), capacity);
            && !u.overflow && |u.data| <= capacity
            && u.delivered == good[..WholeFrames(good, |Concat(slices)|)]
  {
    hide Run, Feed, Frames, WholeFrames, Enqueued;
    var k := CutRun(capacity, ops, m);
    var some, all := Enqueued(ops[..k]), Enqueued(ops);
    forall o | o in some
      ensures o in all
    {}
    BulkRoundTrip(capacity, size, ops[..k]);
    var _ := Conservation(capacity, ops[..k]);
    SendableGrows(some, all, capacity);
    var part, good := Sendable(some, capacity), Sendable(all, capacity);
    var n := |Concat(Run(capacity, ops[..k]).1)|;
    assert good == part + good[|part|..];
    WholeFramesInside(part, good[|part|..], n);
    WholeFramesMaximal(part, n);
  }

  /** End to end: in every state of every run of the ring, for every pair of nodes, the objects the
      receiver has extracted from a sender are the first ones that sender packed, in order and
      each once: exactly those whose last byte is in a packet the receiver accepted. The receive
      buffer does not overflow. */
  lemma EndToEnd(run: seq<Ring>, n: nat, t: nat, i: nat, j: nat, capacity: nat, size: nat, ops: seq<Op>)
    requires IsRun(run, n) && t < |run| && i < n && j < n && i != j
    requires WellShaped(run[t]) && |run[t].nodes| == n
    requires Fills(run[t].nodes[j].taken) == Run(capacity, ops).1
    requires capacity <= size
    requires AllPackable(Enqueued(ops)) && Substantial(Enqueued(ops))
    ensures var slices := Fills(run[t].nodes[i].accepted[j]);
            var u, good := Feed(size, slices), Sendable(Enqueued(ops), capacity);
            && !u.overflow && |u.data| <= capacity
            && u.delivered == good[..WholeFrames(good, |Concat(slices)|)]
            && u.delivered <= Enqueued(ops)
  {
    hide Run, Feed, WholeFrames, Enqueued;
    Agreement(run, n, t, i, j);
    var got, made := run[t].nodes[i].accepted[j], run[t].nodes[j].taken;
    assert Fills(got) == Fills(made)[..|got|];
    PartialRoundTrip(capacity, size, ops, |got|);
    SendableIsPrefix(Enqueued(ops), capacity);
  }
}
