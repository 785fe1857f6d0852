/** How much the packer puts in a store, and how much of it goes out with a message. */
module FillRates {
  import opened Bytes
  import opened FillFraming
  import opened FillTransfer

  /** Objects are packed, in order, as long as they fit: what waits afterwards starts with one that does
      not fit behind them, or that did not fit an empty store and is thrown out. */
  lemma {:induction false} PackedWhileTheyFit(p: Packer) returns (k: nat)
    requires !p.choked
    ensures k <= |p.queue|
    ensures var q := PackWork(p);
            && q.fill == p.fill + Frames(p.queue[..k])
            && (k == |p.queue| ==> q.queue == [] && !q.choked && q.dropped == p.dropped)
            && (k < |p.queue| ==>
                  && q.choked && |q.fill| + 7 + |p.queue[k].payload| > p.capacity
                  && (q.fill != [] ==> q.queue == p.queue[k..] && q.dropped == p.dropped)
                  && (q.fill == [] ==> q.queue == p.queue[k + 1..] && q.dropped == p.dropped + [p.queue[k]]))
    decreases |p.queue|
  {
    hide Frame;
    k := 0;
    assert Frames(p.queue[..0]) == [] && p.fill + [] == p.fill;
    assert p.queue[0..] == p.queue;
    if p.queue != [] && |p.fill| + |Frame(p.queue[0])| <= p.capacity {
      var next := p.(fill := p.fill + Frame(p.queue[0]), queue := p.queue[1..]);
      var j := PackedWhileTheyFit(next);
      k := j + 1;
      ConsFrames(p.queue, k);
      assert p.fill + Frame(p.queue[0]) + Frames(p.queue[1..][..j]) == p.fill + (Frame(p.queue[0]) + Frames(p.queue[1..][..j]));
      assert p.queue[1..][j..] == p.queue[k..];
      if k < |p.queue| {
        assert p.queue[1..][j + 1..] == p.queue[k + 1..];
      }
    }
  }

  /** What is there to be sent by the next message. */
  function Available(p: Packer): nat {
    if p.left > 0 then p.left else |PackWork(p).fill|
  }

  /** A message with room takes all that is there, or is filled: nothing is held back. */
  lemma RoomIsUsed(p: Packer, room: nat)
    requires PackerShaped(p)
    ensures var (q, slice) := StuffMessage(p, room);
            && (room < 32 ==> slice == [])
            && (room >= 32 ==> |slice| == if Available(p) <= room then Available(p) else room)
            && (room >= 32 ==> |slice| == room || q.left == 0)
  {
    hide PackWork;
    PackWorkShape(p);
  }

  /** Below 32 bytes of room nothing is sent, and from there on something whenever there is anything. */
  lemma SmallestRoom(p: Packer)
    requires PackerShaped(p)
    ensures StuffMessage(p, 31).1 == []
    ensures StuffMessage(p, 32).1 == [] <==> p.left == 0 && PackWork(p).fill == []
  {
    RoomIsUsed(p, 31);
    RoomIsUsed(p, 32);
  }

  /** A series of messages with the same room. */
  function Stuffed(p: Packer, room: nat, calls: nat): (q: Packer)
    requires PackerShaped(p)
    ensures PackerShaped(q)
  {
    if calls == 0 then p else StuffMessage(Stuffed(p, room, calls - 1), room).0
  }

  /** As long as a store lasts, every message takes as much of it as it has room for. */
  lemma {:induction false} StoreIsSent(p: Packer, room: nat, calls: nat)
    requires PackerShaped(p) && room >= 32 && calls * room <= p.left
    ensures var q := Stuffed(p, room, calls);
            q.left == p.left - calls * room && q.index == p.index + calls * room && q.send == p.send
    decreases calls
  {
    hide PackWork, StuffMessage;
    if calls > 0 {
      assert calls * room == (calls - 1) * room + room;
      StoreIsSent(p, room, calls - 1);
      OneMessage(Stuffed(p, room, calls - 1), room);
    }
  }

  lemma OneMessage(p: Packer, room: nat)
    requires PackerShaped(p) && 32 <= room <= p.left
    ensures var q := StuffMessage(p, room).0;
            q.left == p.left - room && q.index == p.index + room && q.send == p.send
  {
    hide PackWork;
    PackWorkShape(p);
  }

  /** In every run, the message of a call is filled, or the store it is cut from has been sent completely. */
  lemma CallUsesRoom(capacity: nat, ops: seq<Op>, room: nat)
    requires room >= 32
    ensures var before, after := Run(capacity, ops), Run(capacity, ops + [Stuff(room)]);
            && |after.1| == |before.1| + 1 && after.1[..|before.1|] == before.1
            && var slice := after.1[|before.1|];
            && |slice| <= room && (|slice| == room || after.0.left == 0)
            && (slice == [] <==> Available(before.0) == 0)
  {
    hide StuffMessage, PackWork;
    assert (ops + [Stuff(room)])[..|ops|] == ops;
    RoomIsUsed(Run(capacity, ops).0, room);
  }
}
