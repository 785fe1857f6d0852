/** The confirms of a round run from the last node but one down to the first: nobody confirms before
    the node behind it did. */
module RingConfirms {
  import opened Bytes
  import opened PacketNumbers
  import opened RingNode
  import opened RingProtocol

  /** Node j confirmed the round of this number, or a later one. */
  ghost predicate Confirmed(net: set<Packet>, j: nat, no: Num) {
    exists p :: p in net && p.Confirm? && p.sender == j && !Before(p.no, no)
  }

  /** The node behind the one that sent a confirm confirmed as well. */
  ghost predicate PassedOn(s: Ring, p: Packet) {
    p in s.net && p.Confirm? && p.sender + 2 < |s.nodes| ==> Confirmed(s.net, p.sender + 1, p.no)
  }

  /** The same for a node that is about to confirm. */
  ghost predicate MayConfirm(s: Ring, i: int)
    requires WellShaped(s)
  {
    0 <= i && i + 2 < |s.nodes| && s.nodes[i].comm.SendConfirm? ==> Confirmed(s.net, i + 1, s.nodes[i].no[i])
  }

  ghost predicate Chained(s: Ring)
    requires WellShaped(s)
  {
    (forall p :: PassedOn(s, p)) && forall i :: MayConfirm(s, i)
  }

  /** A node comes to its confirm only through a confirm that is not older than its own round. */
  lemma EntersConfirm(nd: Node, ev: Event, n: nat)
    requires Shaped(nd, n) && nd.order + 2 < n
    requires ev.Receive? ==> Expected(nd, ev.packet) && forall q | q in ev.extra :: Expected(nd, q)
    ensures var r := NodeStep(nd, ev, n).0;
            r.comm.SendConfirm? ==>
              && r.no == nd.no
              && (nd.comm.SendConfirm? || (nd.comm.WaitConfirm? && ev.Receive? && ev.packet.Confirm?
                                           && ev.packet.sender == nd.order + 1
                                           && !PacketAfter(Wire(nd.no[nd.order]), Wire(ev.packet.no))))
  {
    hide PacketAfter, CycleBits, Wire, Appended, OnMasterData, OnMasterConfirm, Clean, EnterConfirms;
  }

  lemma ConfirmSent(nd: Node, ev: Event, n: nat)
    requires Shaped(nd, n)
    requires ev.Receive? ==> Expected(nd, ev.packet) && forall q | q in ev.extra :: Expected(nd, q)
    ensures var out := NodeStep(nd, ev, n).1;
            out.Some? && out.value.Confirm? ==>
              nd.comm.SendConfirm? && out.value.sender == nd.order && out.value.no == nd.no[nd.order]
  {
    hide PacketAfter, CycleBits, Wire, OnReceive, OnNothing, AfterSend, Appended;
  }

  lemma StillConfirmed(net: set<Packet>, net': set<Packet>, j: nat, no: Num)
    requires Confirmed(net, j, no) && net <= net'
    ensures Confirmed(net', j, no)
  {
    var p :| p in net && p.Confirm? && p.sender == j && !Before(p.no, no);
    assert p in net';
  }

  /** A confirm that is taken is not older than the round of the node that takes it. */
  lemma NotOlder(s: Ring, i: nat, p: Packet)
    requires Inv(s) && i < |s.nodes| && s.nodes[i].comm.WaitConfirm? && Deliverable(s, s.nodes[i], p)
    requires !PacketAfter(Wire(s.nodes[i].no[i]), Wire(p.no))
    ensures !Before(p.no, s.nodes[i].no[i])
  {
    hide PacketAfter, Wire;
    assert NodeAt(s, i) && PairAt(s, i, 0);
    if Before(p.no, s.nodes[i].no[i]) {
      WireSeesOlder(s.nodes[i].no[i], p.no);
    }
  }

  lemma NodeKeepsChain(s: Ring, i: nat, ev: Event, k: int)
    requires Inv(s) && Enabled(s, i, ev) && Chained(s)
    ensures WellShaped(Next(s, i, ev)) && MayConfirm(Next(s, i, ev), k)
  {
    StepKeepsInv(s, i, ev);
    hide Inv, NodeStep, Confirmed;
    var t := Next(s, i, ev);
    if 0 <= k && k + 2 < |t.nodes| && t.nodes[k].comm.SendConfirm? {
      assert MayConfirm(s, k);
      if k == i {
        EntersConfirm(s.nodes[i], ev, |s.nodes|);
        if !s.nodes[i].comm.SendConfirm? {
          NotOlder(s, i, ev.packet);
          assert Confirmed(s.net, i + 1, s.nodes[i].no[i]) by {
            Witness(s.net, ev.packet, s.nodes[i].no[i]);
          }
        }
      }
      StillConfirmed(s.net, t.net, k + 1, s.nodes[k].no[k]);
    }
  }

  lemma Witness(net: set<Packet>, p: Packet, no: Num)
    requires p in net && p.Confirm? && !Before(p.no, no)
    ensures Confirmed(net, p.sender, no)
  {}

  lemma {:induction false} StepKeepsChain(s: Ring, i: nat, ev: Event)
    requires Inv(s) && Enabled(s, i, ev) && Chained(s)
    ensures WellShaped(Next(s, i, ev)) && Chained(Next(s, i, ev))
  {
    StepKeepsInv(s, i, ev);
    hide Inv, NodeStep, Confirmed;
    var t := Next(s, i, ev);
    forall k
      ensures MayConfirm(t, k)
    {
      NodeKeepsChain(s, i, ev, k);
    }
    forall p
      ensures PassedOn(t, p)
    {
      if p in t.net && p.Confirm? && p.sender + 2 < |t.nodes| {
        if p in s.net {
          assert PassedOn(s, p);
        } else {
          ConfirmSent(s.nodes[i], ev, |s.nodes|);
          assert MayConfirm(s, i);
        }
        StillConfirmed(s.net, t.net, p.sender + 1, p.no);
      }
    }
  }

  lemma {:induction false} RunKeepsChain(run: seq<Ring>, n: nat, t: nat)
    requires IsRun(run, n) && t < |run|
    ensures Inv(run[t]) && |run[t].nodes| == n && Chained(run[t])
  {
    RunKeepsInv(run, n, t);
    if t == 0 {
      forall p
        ensures PassedOn(run[0], p)
      {}
      forall i
        ensures MayConfirm(run[0], i)
      {}
    } else {
      hide Inv, Chained;
      RunKeepsChain(run, n, t - 1);
      RunShape(run, n, t - 1);
      assert StepAt(run, t - 1);
      var i: nat, ev :| Enabled(run[t - 1], i, ev) && run[t] == Next(run[t - 1], i, ev);
      StepKeepsChain(run[t - 1], i, ev);
    }
  }

  /** In every state of every run: where a node confirmed a round, every node behind it up to the last but
      one confirmed that round or a later one. */
  lemma {:induction false} ConfirmsRunDown(run: seq<Ring>, n: nat, t: nat, p: Packet, j: nat)
    requires IsRun(run, n) && t < |run| && p in run[t].net && p.Confirm? && p.sender <= j && j + 2 <= n
    ensures Confirmed(run[t].net, j, p.no)
    decreases j
  {
    hide Inv;
    if j == p.sender {
      Witness(run[t].net, p, p.no);
    } else {
      ConfirmsRunDown(run, n, t, p, j - 1);
      RunKeepsChain(run, n, t);
      RunShape(run, n, t);
      var q :| q in run[t].net && q.Confirm? && q.sender == j - 1 && !Before(q.no, p.no);
      assert PassedOn(run[t], q);
      var q' :| q' in run[t].net && q'.Confirm? && q'.sender == j && !Before(q'.no, q.no);
      Witness(run[t].net, q', p.no);
    }
  }
}
