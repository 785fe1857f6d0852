/** The whole ring: every node plus the set of all packets ever sent. A packet stays in that set
    for ever, so it may be delivered to any listener any number of times, in any order, or not at
    all. The one thing the network promises is a maximum packet age, without which 32-bit numbers
    cannot work. */
module RingProtocol {
  import opened Bytes
  import opened PacketNumbers
  import opened RingNode

  datatype Ring = Ring(nodes: seq<Node>, net: set<Packet>)

  /** How many cycles a packet may survive on the network. */
  const MAX_AGE: nat := WINDOW - 1

  function Start(n: nat): Ring {
    Ring(seq(n, i requires 0 <= i < n => StartNode(i, n)), {})
  }

  function MasterCycle(s: Ring): nat
    requires |s.nodes| > 0 && |s.nodes[0].no| > 0
  {
    s.nodes[0].no[0].cycle
  }

  ghost predicate WellShaped(s: Ring) {
    && |s.nodes| > 0
    && forall i | 0 <= i < |s.nodes| :: Shaped(s.nodes[i], |s.nodes|) && s.nodes[i].order == i
  }

  ghost predicate Deliverable(s: Ring, nd: Node, p: Packet)
    requires WellShaped(s)
  {
    p in s.net && Expected(nd, p) && p.no.cycle + MAX_AGE >= MasterCycle(s)
  }

  ghost predicate Enabled(s: Ring, i: nat, ev: Event)
    requires WellShaped(s)
  {
    && i < |s.nodes|
    && (ev.Receive? ==>
          Deliverable(s, s.nodes[i], ev.packet) && forall q | q in ev.extra :: Deliverable(s, s.nodes[i], q))
  }

  ghost function Next(s: Ring, i: nat, ev: Event): Ring
    requires WellShaped(s) && Enabled(s, i, ev)
  {
    var (nd, out) := NodeStep(s.nodes[i], ev, |s.nodes|);
    Ring(s.nodes[i := nd], if out.Some? then s.net + {out.value} else s.net)
  }

  // ---------- The inductive invariant

  /** What node `a` accepted from node `b` is a prefix of what `b` produced, and lags the master's
      cycle by at most one. */
  ghost predicate PairOk(a: Node, b: Node, m: nat)
    requires b.order < |a.no| == |a.accepted|
  {
    && |a.accepted[b.order]| == a.no[b.order].cycle
    && m <= a.no[b.order].cycle + 1 && a.no[b.order].cycle <= m
    && a.accepted[b.order] <= b.taken
  }

  /** The data held for sending is the newest taken; it belongs to the last accepted cycle of the
      master. */
  ghost predicate LoadedOk(nd: Node, m: nat)
    requires |nd.no| > 0
  {
    var a := nd.no[0].cycle;
    && m <= |nd.taken| + 1
    && (nd.toSend.None? ==> |nd.taken| == if a == 0 then 0 else a - 1)
    && (nd.toSend.Some? ==> a >= 1 && |nd.taken| == a && nd.toSend.value == nd.taken[a - 1])
  }

  /** Once past a sender in the current round, a follower holds that sender's data of at least
      the cycle it stamps on its own packets. */
  ghost predicate InRoundOk(nd: Node)
    requires nd.order < |nd.no|
  {
    !nd.comm.SyncOnZero? ==>
      var stamp := nd.no[nd.order].cycle;
      && 1 <= stamp <= nd.no[0].cycle
      && forall k | 0 <= k < |nd.no| && k != nd.order
                 && (k < nd.phase || nd.comm.WaitConfirm? || nd.comm.SendConfirm?) ::
           stamp <= nd.no[k].cycle
  }

  ghost predicate NodeOk(nd: Node, m: nat, n: nat) {
    && Shaped(nd, n) && !nd.missed && nd.allOk
    && LoadedOk(nd, m)
    && (nd.order != 0 ==> InRoundOk(nd))
  }

  /** A packet vouches for what its sender holds; data stamped with the running cycle is that
      cycle's one payload. */
  ghost predicate PacketOk(p: Packet, nodes: seq<Node>, m: nat)
  {
    && p.sender < |nodes| && 1 <= p.no.cycle <= m && !p.missed
    && var nd := nodes[p.sender];
    && |nd.no| == |nodes|
    && match p
       case Data(j, no, _, payload) =>
         && no.cycle <= |nd.taken|
         && (no.cycle == m ==> payload == nd.taken[m - 1])
         && forall k | 0 <= k < j :: no.cycle <= nd.no[k].cycle
       case Confirm(j, no, _) =>
         j > 0 && forall k | 0 <= k < |nodes| && k != j :: no.cycle <= nd.no[k].cycle
  }

  ghost predicate Heard(net: set<Packet>, j: nat, no: Num, confirm: bool) {
    exists p :: p in net && p.sender == j && p.no == no && p.Confirm? == confirm
  }

  /** How far the master got in its round, and what it then knows. */
  ghost predicate MasterOk(nd: Node, net: set<Packet>, n: nat)
    requires |nd.no| == n > 0
  {
    var m := nd.no[0];
    && m.cycle >= 1
    && (nd.comm.MasterReceive? || nd.comm.MasterConfirm? ==> nd.toSend.Some?)
    && (forall j | 1 <= j < n && ((nd.comm.MasterReceive? && j < nd.phase) || nd.comm.MasterConfirm?) ::
          nd.no[j].cycle >= m.cycle && Heard(net, j, m, false))
    && (forall j | 1 <= j && j + 2 <= n && nd.comm.MasterConfirm? && j > nd.phase ::
          Heard(net, j, m, true))
  }

  ghost predicate NodeAt(s: Ring, i: int)
    requires WellShaped(s)
  {
    0 <= i < |s.nodes| ==> NodeOk(s.nodes[i], MasterCycle(s), |s.nodes|)
  }

  ghost predicate PairAt(s: Ring, i: int, j: int)
    requires WellShaped(s)
  {
    0 <= i < |s.nodes| && 0 <= j < |s.nodes| && i != j ==>
      PairOk(s.nodes[i], s.nodes[j], MasterCycle(s))
  }

  ghost predicate PacketAt(s: Ring, p: Packet)
    requires WellShaped(s)
  {
    p in s.net ==> PacketOk(p, s.nodes, MasterCycle(s))
  }

  ghost predicate Inv(s: Ring) {
    && WellShaped(s)
    && (forall i :: NodeAt(s, i))
    && (forall i, j :: PairAt(s, i, j))
    && (forall p :: PacketAt(s, p))
    && MasterOk(s.nodes[0], s.net, |s.nodes|)
  }

  lemma StartInv(n: nat)
    requires n > 0
    ensures Inv(Start(n))
  {
    var s := Start(n);
    assert forall i | 0 <= i < n :: s.nodes[i] == StartNode(i, n);
  }

  // ---------- Steps that leave the master's cycle alone

  ghost predicate Grown(a: Node, b: Node)
    requires |a.no| == |b.no|
  {
    && a.order == b.order && a.taken <= b.taken
    && forall k | 0 <= k < |a.no| && k != a.order :: a.no[k].cycle <= b.no[k].cycle
  }

  lemma ReplaceNode(s: Ring, i: nat, nd: Node, net: set<Packet>)
    requires Inv(s) && i < |s.nodes| && Shaped(nd, |s.nodes|) && Grown(s.nodes[i], nd)
    requires s.net <= net
    requires var m, n, nodes := MasterCycle(s), |s.nodes|, s.nodes[i := nd];
             && (i == 0 ==> nd.no[0].cycle == m)
             && NodeOk(nd, m, n)
             && (forall j | 0 <= j < n && j != i :: PairOk(nd, s.nodes[j], m))
             && (forall p | p in net && p !in s.net :: PacketOk(p, nodes, m))
             && (i == 0 ==> MasterOk(nd, net, n))
    ensures Inv(Ring(s.nodes[i := nd], net))
  {
    var m, n, t := MasterCycle(s), |s.nodes|, Ring(s.nodes[i := nd], net);
    forall a
      ensures NodeAt(t, a)
    {
      assert NodeAt(s, a);
    }
    forall a, b
      ensures PairAt(t, a, b)
    {
      assert PairAt(s, a, b);
    }
    forall p
      ensures PacketAt(t, p)
    {
      if p in s.net {
        assert PacketAt(s, p);
        PacketStays(p, s.nodes, i, nd, m);
      }
    }
    if i != 0 {
      MasterHears(s.nodes[0], s.net, net, n);
    }
  }

  lemma PacketStays(p: Packet, nodes: seq<Node>, i: nat, nd: Node, m: nat)
    requires PacketOk(p, nodes, m) && i < |nodes| && nodes[i].order == i
    requires |nodes[i].no| == |nd.no| == |nodes| && Grown(nodes[i], nd)
    ensures PacketOk(p, nodes[i := nd], m)
  {
    var nodes' := nodes[i := nd];
    var a, b := nodes[p.sender], nodes'[p.sender];
    assert forall k | 0 <= k < |a.no| && k != p.sender :: a.no[k].cycle <= b.no[k].cycle;
  }

  lemma MasterHears(nd: Node, net: set<Packet>, net': set<Packet>, n: nat)
    requires |nd.no| == n > 0 && MasterOk(nd, net, n) && net <= net'
    ensures MasterOk(nd, net', n)
  {
    forall j, no, c | Heard(net, j, no, c)
      ensures Heard(net', j, no, c)
    {}
  }

  /** Accepting a delivered packet: the 32-bit comparison decides as meant, and what is accepted
      is the sender's payload for the running cycle. */
  lemma AcceptOk(s: Ring, i: nat, p: Packet, nd: Node)
    requires Inv(s) && i < |s.nodes| && p in s.net && p.Data? && p.sender != i && p.sender < |s.nodes|
    requires p.no.cycle + MAX_AGE >= MasterCycle(s)
    requires nd == Accept(s.nodes[i], p)
    ensures Shaped(nd, |s.nodes|) && Grown(s.nodes[i], nd)
    ensures forall j | 0 <= j < |s.nodes| && j != i :: PairOk(nd, s.nodes[j], MasterCycle(s))
    ensures var was := s.nodes[i].no[p.sender];
            if p.no.cycle > was.cycle then
              nd.no[p.sender] == p.no && p.no.cycle == MasterCycle(s) == was.cycle + 1
            else nd == s.nodes[i]
    ensures PacketAfter(CycleBits(Wire(p.no)), CycleBits(Wire(s.nodes[i].no[p.sender])))
       <==> p.no.cycle > s.nodes[i].no[p.sender].cycle
  {
    hide PacketAfter, CycleBits, Wire;
    var m, k, was := MasterCycle(s), p.sender, s.nodes[i];
    var sender := s.nodes[k];
    assert PacketAt(s, p);
    assert PairAt(s, i, k);
    WireOrder(p.no, was.no[k]);
    if p.no.cycle > was.no[k].cycle {
      ExtendPair(was, sender, p, m);
    }
    forall j | 0 <= j < |s.nodes| && j != i
      ensures PairOk(nd, s.nodes[j], m)
    {
      assert PairAt(s, i, j);
    }
  }

  lemma ExtendPair(was: Node, sender: Node, p: Packet, m: nat)
    requires p.Data? && p.sender == sender.order < |was.no| == |was.accepted|
    requires PairOk(was, sender, m) && was.no[p.sender].cycle < p.no.cycle <= m
    requires m <= |sender.taken| && p.payload == sender.taken[m - 1]
    ensures p.no.cycle == m
    ensures PairOk(was.(no := was.no[p.sender := p.no],
                        accepted := was.accepted[p.sender := was.accepted[p.sender] + [p.payload]]), sender, m)
  {
    var got := was.accepted[p.sender];
    assert got == sender.taken[..m - 1];
    assert got + [p.payload] == sender.taken[..m];
  }

  lemma FollowerHearsMaster(s: Ring, i: nat, p: Packet)
    requires Inv(s) && 0 < i < |s.nodes| && s.nodes[i].comm.SyncOnZero? && Deliverable(s, s.nodes[i], p)
    ensures Inv(s.(nodes := s.nodes[i := OnMaster(s.nodes[i], p, |s.nodes|)]))
  {
    hide PacketAfter, CycleBits, Wire;
    var m, n, was := MasterCycle(s), |s.nodes|, s.nodes[i];
    var nd := OnMaster(was, p, n);
    var acc := Accept(was, p);
    AcceptOk(s, i, p, acc);
    assert PacketAt(s, p) && NodeAt(s, i) && PairAt(s, i, 0);
    assert nd.no == acc.no[i := p.no] && nd.accepted == acc.accepted;
    forall j | 0 <= j < n && j != i
      ensures PairOk(nd, s.nodes[j], m)
    {
      assert PairOk(acc, s.nodes[j], m);
    }
    if p.no.cycle > was.no[0].cycle {
      assert NodeAt(s, 0);
      assert LoadedOk(was, m);
      assert LoadedOk(nd, m);
    } else {
      assert LoadedOk(nd, m);
    }
    ReplaceNode(s, i, nd, s.net);
  }

  lemma PeerKeepsRound(was: Node, p: Packet, m: nat, n: nat)
    requires NodeOk(was, m, n) && was.order > 0 && was.comm.DataReceive? && Expected(was, p)
    requires !PacketAfter(Wire(was.no[was.order]), Wire(p.no))
    requires was.no[was.order].cycle <= p.no.cycle <= Accept(was, p).no[p.sender].cycle
    requires was.no[0].cycle <= Accept(was, p).no[0].cycle
    ensures NodeOk(OnPeerData(was, p, n), m, n)
  {
    hide PacketAfter, CycleBits, Wire;
    var stamp, acc, nd := was.no[was.order].cycle, Accept(was, p), OnPeerData(was, p, n);
    assert nd.no == acc.no;
    forall k | 0 <= k < n && k != nd.order && (k < nd.phase || nd.comm.WaitConfirm? || nd.comm.SendConfirm?)
      ensures stamp <= nd.no[k].cycle
    {
      if k != p.sender {
        assert k < was.phase;
        assert acc.no[k] == was.no[k];
      }
    }
  }

  lemma FollowerHearsPeer(s: Ring, i: nat, p: Packet)
    requires Inv(s) && 0 < i < |s.nodes| && s.nodes[i].comm.DataReceive? && Deliverable(s, s.nodes[i], p)
    ensures Inv(s.(nodes := s.nodes[i := OnPeerData(s.nodes[i], p, |s.nodes|)]))
  {
    hide PacketAfter, CycleBits, Wire;
    var m, n, was := MasterCycle(s), |s.nodes|, s.nodes[i];
    var nd, acc := OnPeerData(was, p, n), Accept(was, p);
    assert PacketAt(s, p) && NodeAt(s, i) && PairAt(s, i, 0);
    if PacketAfter(Wire(was.no[i]), Wire(p.no)) {
      assert s.nodes[i := nd] == s.nodes;
    } else {
      if Before(p.no, was.no[i]) { WireSeesOlder(was.no[i], p.no); }
      AcceptOk(s, i, p, acc);
      PeerKeepsRound(was, p, m, n);
      assert nd.no == acc.no && nd.accepted == acc.accepted;
      forall j | 0 <= j < n && j != i
        ensures PairOk(nd, s.nodes[j], m)
      {
        assert PairOk(acc, s.nodes[j], m);
      }
      ReplaceNode(s, i, nd, s.net);
    }
  }

  lemma FollowerHearsConfirm(s: Ring, i: nat, p: Packet)
    requires Inv(s) && 0 < i < |s.nodes| && s.nodes[i].comm.WaitConfirm? && Deliverable(s, s.nodes[i], p)
    ensures Inv(s.(nodes := s.nodes[i := OnConfirm(s.nodes[i], p, |s.nodes|)]))
  {
    hide PacketAfter, CycleBits, Wire;
    var m, n, was := MasterCycle(s), |s.nodes|, s.nodes[i];
    var nd := OnConfirm(was, p, n);
    assert NodeAt(s, i);
    forall j | 0 <= j < n && j != i
      ensures PairOk(nd, s.nodes[j], m)
    {
      assert PairAt(s, i, j);
    }
    ReplaceNode(s, i, nd, s.net);
  }

  lemma NothingHeard(s: Ring, i: nat)
    requires Inv(s) && i < |s.nodes|
    ensures Inv(s.(nodes := s.nodes[i := OnNothing(s.nodes[i], |s.nodes|)]))
  {
    hide PacketAfter, CycleBits, Wire;
    var m, n, was := MasterCycle(s), |s.nodes|, s.nodes[i];
    var nd := OnNothing(was, n);
    assert NodeAt(s, i);
    forall j | 0 <= j < n && j != i
      ensures PairOk(nd, s.nodes[j], m)
    {
      assert PairAt(s, i, j);
    }
    ReplaceNode(s, i, nd, s.net);
  }

  /** Sending changes the state, and at most adds what was taken from the packers. */
  lemma SenderKeeps(was: Node, supply: Payload, m: nat, n: nat)
    requires NodeOk(was, m, n) && was.order > 0 && Sending(was) && was.no[0].cycle + 1 >= m
    ensures var (nd, out) := NodeStep(was, Transmit(supply), n);
            && NodeOk(nd, m, n) && Grown(was, nd) && nd.no == was.no && nd.accepted == was.accepted
            && out.Some? && out.value.sender == was.order && out.value.no == was.no[was.order] && !out.value.missed
            && (out.value.Data? ==> nd.toSend == Some(out.value.payload) && was.comm.DataSend?)
            && (out.value.Confirm? ==> was.comm.SendConfirm?)
  {}

  lemma FollowerSends(s: Ring, i: nat, supply: Payload)
    requires Inv(s) && 0 < i < |s.nodes|
    ensures Inv(Next(s, i, Transmit(supply)))
  {
    hide PacketAfter, CycleBits, Wire;
    var m, n, was := MasterCycle(s), |s.nodes|, s.nodes[i];
    if Sending(was) {
      hide NodeStep;
      var (nd, out) := NodeStep(was, Transmit(supply), n);
      assert NodeAt(s, i) && PairAt(s, i, 0);
      SenderKeeps(was, supply, m, n);
      forall j | 0 <= j < n && j != i
        ensures PairOk(nd, s.nodes[j], m)
      {
        assert PairAt(s, i, j);
      }
      ReplaceNode(s, i, nd, s.net + {out.value});
    } else {
      assert s.nodes[i := was] == s.nodes;
    }
  }

  // ---------- The master's steps

  /** What the master has heard at the end of a complete round: everybody's data, and a confirm
      of everybody except the last sender, whose data stands in for its confirm. */
  ghost predicate RoundHeard(nd: Node, net: set<Packet>, n: nat)
    requires |nd.no| == n > 0
  {
    && (forall j | 1 <= j < n :: nd.no[j].cycle >= nd.no[0].cycle && Heard(net, j, nd.no[0], false))
    && (forall j | 1 <= j && j + 2 <= n :: Heard(net, j, nd.no[0], true))
  }

  /** Every node accepted the cycle from every other node. */
  ghost predicate CycleAccepted(nodes: seq<Node>, m: nat) {
    && (forall i | 0 <= i < |nodes| :: |nodes[i].no| == |nodes|)
    && forall i, j | 0 <= i < |nodes| && 0 <= j < |nodes| && i != j :: nodes[i].no[j].cycle == m
  }

  /** A packet stamped with the running cycle shows how far its sender got. */
  lemma DataVouches(s: Ring, j: nat, no: Num)
    requires Inv(s) && 1 <= j < |s.nodes| && no.cycle == MasterCycle(s) && Heard(s.net, j, no, false)
    ensures |s.nodes[j].taken| >= MasterCycle(s)
    ensures forall k | 0 <= k < j :: s.nodes[j].no[k].cycle == MasterCycle(s)
  {
    var d :| d in s.net && d.sender == j && d.no == no && d.Data?;
    assert PacketAt(s, d);
    forall k | 0 <= k < j
      ensures s.nodes[j].no[k].cycle == MasterCycle(s)
    {
      assert PairAt(s, j, k);
    }
  }

  lemma ConfirmVouches(s: Ring, j: nat, no: Num)
    requires Inv(s) && 1 <= j < |s.nodes| && no.cycle == MasterCycle(s) && Heard(s.net, j, no, true)
    ensures forall k | 0 <= k < |s.nodes| && k != j :: s.nodes[j].no[k].cycle == MasterCycle(s)
  {
    var c :| c in s.net && c.sender == j && c.no == no && c.Confirm?;
    assert PacketAt(s, c);
    forall k | 0 <= k < |s.nodes| && k != j
      ensures s.nodes[j].no[k].cycle == MasterCycle(s)
    {
      assert PairAt(s, j, k);
    }
  }

  lemma RoundIsBarrier(s: Ring, nd: Node)
    requires Inv(s) && Shaped(nd, |s.nodes|) && nd.order == 0 && nd.no[0] == s.nodes[0].no[0]
    requires RoundHeard(nd, s.net, |s.nodes|)
    requires forall j | 1 <= j < |s.nodes| :: PairOk(nd, s.nodes[j], MasterCycle(s))
    ensures CycleAccepted(s.nodes[0 := nd], MasterCycle(s))
    ensures forall j | 1 <= j < |s.nodes| :: |s.nodes[j].taken| >= MasterCycle(s)
  {
    var m, n := MasterCycle(s), |s.nodes|;
    forall j | 1 <= j < n
      ensures |s.nodes[j].taken| >= m
      ensures forall k | 0 <= k < n && k != j :: s.nodes[j].no[k].cycle == m
      ensures nd.no[j].cycle == m
    {
      DataVouches(s, j, nd.no[0]);
      if j + 2 <= n {
        ConfirmVouches(s, j, nd.no[0]);
      }
      assert PairOk(nd, s.nodes[j], m);
    }
  }

  /** What the master's own step must keep while its cycle stays the same. */
  ghost predicate MasterStays(s: Ring, nd: Node)
    requires WellShaped(s)
  {
    && Shaped(nd, |s.nodes|) && Grown(s.nodes[0], nd)
    && nd.no[0] == s.nodes[0].no[0]
    && !nd.missed && nd.allOk && LoadedOk(nd, MasterCycle(s))
    && forall j | 1 <= j < |s.nodes| :: PairOk(nd, s.nodes[j], MasterCycle(s))
  }

  lemma MasterAdvances(s: Ring, nd: Node)
    requires Inv(s) && MasterStays(s, nd) && nd.toSend.Some?
    requires RoundHeard(nd, s.net, |s.nodes|)
    ensures Inv(s.(nodes := s.nodes[0 := Finish(nd, |s.nodes|)]))
    ensures CycleAccepted(s.nodes[0 := nd], MasterCycle(s))
  {
    hide PacketAfter, CycleBits, Wire;
    var m, n, last := MasterCycle(s), |s.nodes|, Finish(nd, |s.nodes|);
    var t := s.(nodes := s.nodes[0 := last]);
    RoundIsBarrier(s, nd);
    forall i
      ensures NodeAt(t, i)
    {
      assert NodeAt(s, i);
    }
    forall i, j
      ensures PairAt(t, i, j)
    {
      AdvancedPair(s, nd, t, i, j);
    }
    forall p
      ensures PacketAt(t, p)
    {
      assert PacketAt(s, p);
    }
  }

  lemma AdvancedPair(s: Ring, nd: Node, t: Ring, i: int, j: int)
    requires Inv(s) && MasterStays(s, nd) && WellShaped(t) && CycleAccepted(s.nodes[0 := nd], MasterCycle(s))
    requires MasterCycle(t) == MasterCycle(s) + 1
    requires t.nodes == s.nodes[0 := t.nodes[0]]
    requires t.nodes[0].taken == nd.taken && t.nodes[0].accepted == nd.accepted
    requires t.nodes[0].no == nd.no[0 := t.nodes[0].no[0]]
    ensures PairAt(t, i, j)
  {
    var n, m := |s.nodes|, MasterCycle(s);
    if 0 <= i < n && 0 <= j < n && i != j {
      assert s.nodes[0 := nd][i].no[j].cycle == m;
      assert PairAt(s, i, j);
      if i == 0 {
        assert PairOk(nd, s.nodes[j], m);
      }
    }
  }

  /** A step of the master that goes on with the same round. */
  lemma MasterContinues(s: Ring, nd: Node, net: set<Packet>)
    requires Inv(s) && MasterStays(s, nd) && MasterOk(nd, net, |s.nodes|) && s.net <= net
    requires forall p | p in net && p !in s.net :: PacketOk(p, s.nodes[0 := nd], MasterCycle(s))
    ensures Inv(Ring(s.nodes[0 := nd], net))
  {
    ReplaceNode(s, 0, nd, net);
  }

  lemma MasterUnchanged(s: Ring)
    requires Inv(s)
    ensures MasterStays(s, s.nodes[0]) && MasterOk(s.nodes[0], s.net, |s.nodes|)
  {
    assert NodeAt(s, 0);
    forall j | 1 <= j < |s.nodes|
      ensures PairOk(s.nodes[0], s.nodes[j], MasterCycle(s))
    {
      assert PairAt(s, 0, j);
    }
  }

  lemma MasterAccepts(s: Ring, p: Packet, nd: Node)
    requires Inv(s) && s.nodes[0].comm.MasterReceive? && Deliverable(s, s.nodes[0], p)
    requires s.nodes[0].no[0] == p.no && nd == Accept(s.nodes[0], p)
    ensures MasterStays(s, nd) && nd.toSend.Some? && !p.missed
    ensures forall j | 1 <= j <= p.sender :: nd.no[j].cycle >= nd.no[0].cycle && Heard(s.net, j, nd.no[0], false)
  {
    MasterUnchanged(s);
    assert PacketAt(s, p);
    AcceptOk(s, 0, p, nd);
    assert Heard(s.net, p.sender, nd.no[0], false);
  }

  lemma StageStays(s: Ring, nd: Node, next: Node)
    requires Inv(s) && MasterStays(s, nd) && Shaped(next, |s.nodes|)
    requires next == nd.(comm := next.comm, phase := next.phase)
    ensures MasterStays(s, next)
  {
    forall j | 1 <= j < |s.nodes|
      ensures PairOk(next, s.nodes[j], MasterCycle(s))
    {
      assert PairOk(nd, s.nodes[j], MasterCycle(s));
    }
  }

  /** With the data of senders 1..phase heard, the master turns to the next sender, to the
      confirms, or to the next cycle. */
  lemma MasterMovesOn(s: Ring, nd: Node)
    requires Inv(s) && MasterStays(s, nd) && nd.comm.MasterReceive? && nd.toSend.Some?
    requires forall j | 1 <= j <= nd.phase :: nd.no[j].cycle >= nd.no[0].cycle && Heard(s.net, j, nd.no[0], false)
    ensures nd.phase + 1 < |s.nodes| ==> Inv(s.(nodes := s.nodes[0 := nd.(phase := nd.phase + 1)]))
    ensures nd.phase + 1 == |s.nodes| ==> Inv(s.(nodes := s.nodes[0 := EnterConfirms(nd, |s.nodes|)]))
  {
    var n := |s.nodes|;
    if nd.phase + 1 < n {
      StageStays(s, nd, nd.(phase := nd.phase + 1));
      MasterContinues(s, nd.(phase := nd.phase + 1), s.net);
    } else if n >= 3 {
      StageStays(s, nd, nd.(comm := MasterConfirm, phase := n - 2));
      MasterContinues(s, nd.(comm := MasterConfirm, phase := n - 2), s.net);
    } else {
      MasterAdvances(s, nd);
    }
  }

  lemma MasterHearsData(s: Ring, p: Packet)
    requires Inv(s) && s.nodes[0].comm.MasterReceive? && Deliverable(s, s.nodes[0], p)
    ensures Inv(s.(nodes := s.nodes[0 := OnMasterData(s.nodes[0], p, |s.nodes|)]))
  {
    hide PacketAfter, CycleBits, Wire;
    var n, was := |s.nodes|, s.nodes[0];
    assert PacketAt(s, p);
    WireOrder(was.no[0], p.no);
    if was.no[0] != p.no {
      assert s.nodes[0 := was] == s.nodes;
    } else {
      var nd := Accept(was, p);
      MasterAccepts(s, p, nd);
      assert nd.(allOk := was.allOk && !p.missed) == nd;
      MasterMovesOn(s, nd);
    }
  }

  lemma MasterHearsConfirm(s: Ring, p: Packet)
    requires Inv(s) && s.nodes[0].comm.MasterConfirm? && Deliverable(s, s.nodes[0], p)
    ensures Inv(s.(nodes := s.nodes[0 := OnMasterConfirm(s.nodes[0], p, |s.nodes|)]))
  {
    hide PacketAfter, CycleBits, Wire;
    var m, n, was := MasterCycle(s), |s.nodes|, s.nodes[0];
    assert PacketAt(s, p);
    MasterUnchanged(s);
    WireOrder(was.no[0], p.no);
    if was.no[0] != p.no {
      assert s.nodes[0 := was] == s.nodes;
    } else {
      assert Heard(s.net, p.sender, was.no[0], true);
      if was.phase > 1 {
        MasterContinues(s, was.(phase := was.phase - 1), s.net);
      } else {
        MasterAdvances(s, was);
      }
    }
  }

  lemma MasterLoads(s: Ring, supply: Payload)
    requires Inv(s) && s.nodes[0].comm.MasterSend?
    ensures MasterStays(s, Load(s.nodes[0], supply)) && Load(s.nodes[0], supply).toSend.Some?
  {
    var m, nd := MasterCycle(s), Load(s.nodes[0], supply);
    MasterUnchanged(s);
    forall j | 1 <= j < |s.nodes|
      ensures PairOk(nd, s.nodes[j], m)
    {
      assert PairAt(s, 0, j);
    }
  }

  lemma MasterSends(s: Ring, supply: Payload)
    requires Inv(s) && s.nodes[0].comm.MasterSend?
    ensures Inv(Next(s, 0, Transmit(supply)))
  {
    hide PacketAfter, CycleBits, Wire;
    var n, was := |s.nodes|, s.nodes[0];
    var nd := Load(was, supply);
    MasterLoads(s, supply);
    MasterUnchanged(s);
    var p := Data(0, nd.no[0], nd.missed, nd.toSend.value);
    if n == 1 {
      MasterContinues(s, nd, s.net + {p});
      var mid := Ring(s.nodes[0 := nd], s.net + {p});
      MasterUnchanged(mid);
      MasterAdvances(mid, nd);
      assert mid.nodes[0 := Finish(nd, n)] == s.nodes[0 := Finish(nd, n)];
    } else {
      var next := nd.(phase := 1, comm := MasterReceive);
      StageStays(s, nd, next);
      MasterContinues(s, next, s.net + {p});
    }
  }

  /** Every step of every node keeps the invariant. */
  lemma StepKeepsInv(s: Ring, i: nat, ev: Event)
    requires Inv(s) && Enabled(s, i, ev)
    ensures Inv(Next(s, i, ev))
  {
    hide PacketAfter, CycleBits, Wire;
    var was := s.nodes[i];
    match ev
    case Receive(p, extra) =>
      assert Next(s, i, ev) == s.(nodes := s.nodes[i := OnReceive(was, p, extra, |s.nodes|)]);
      match was.comm {
        case SyncOnZero => FollowerHearsMaster(s, i, SpinToLast(was, p, extra));
        case DataReceive => FollowerHearsPeer(s, i, p);
        case WaitConfirm => FollowerHearsConfirm(s, i, p);
        case MasterReceive => MasterHearsData(s, p);
        case MasterConfirm => MasterHearsConfirm(s, p);
        case _ =>
      }
    case Transmit(supply) =>
      if i > 0 {
        FollowerSends(s, i, supply);
      } else if was.comm.MasterSend? {
        MasterSends(s, supply);
      } else {
        assert s.nodes[i := was] == s.nodes;
      }
    case _ => NothingHeard(s, i);
  }

  // ---------- Whole runs

  ghost predicate IsStep(s: Ring, t: Ring) {
    && WellShaped(s)
    && exists i: nat, ev :: Enabled(s, i, ev) && t == Next(s, i, ev)
  }

  ghost predicate StepAt(run: seq<Ring>, t: int) {
    0 <= t < |run| - 1 ==> IsStep(run[t], run[t + 1])
  }

  ghost predicate IsRun(run: seq<Ring>, n: nat) {
    && n > 0 && |run| > 0 && run[0] == Start(n)
    && forall t :: StepAt(run, t)
  }

  lemma {:induction false} RunKeepsInv(run: seq<Ring>, n: nat, t: nat)
    requires IsRun(run, n) && t < |run|
    ensures Inv(run[t]) && |run[t].nodes| == n
  {
    if t == 0 {
      StartInv(n);
    } else {
      RunKeepsInv(run, n, t - 1);
      assert StepAt(run, t - 1);
      var i: nat, ev :| Enabled(run[t - 1], i, ev) && run[t] == Next(run[t - 1], i, ev);
      StepKeepsInv(run[t - 1], i, ev);
    }
  }

  lemma StepAppends(s: Ring, t: Ring, k: nat)
    requires IsStep(s, t) && k < |s.nodes|
    ensures |t.nodes| == |s.nodes| && |t.nodes[k].accepted| == |s.nodes[k].accepted|
    ensures Appended(s.nodes[k], t.nodes[k])
  {
    var i: nat, ev :| Enabled(s, i, ev) && t == Next(s, i, ev);
    assert Appended(s.nodes[i], NodeStep(s.nodes[i], ev, |s.nodes|).0);
  }

  ghost predicate Grows(a: Node, b: Node) {
    && a.taken <= b.taken && |a.accepted| == |b.accepted|
    && forall j | 0 <= j < |a.accepted| :: a.accepted[j] <= b.accepted[j]
  }

  lemma RunShape(run: seq<Ring>, n: nat, t: nat)
    requires IsRun(run, n) && t < |run|
    ensures WellShaped(run[t]) && |run[t].nodes| == n
  {
    RunKeepsInv(run, n, t);
  }

  lemma {:induction false} RunGrows(run: seq<Ring>, n: nat, t: nat, u: nat, k: nat)
    requires IsRun(run, n) && t <= u < |run| && k < n
    ensures |run[t].nodes| == |run[u].nodes| == n
    ensures Grows(run[t].nodes[k], run[u].nodes[k])
    decreases u - t
  {
    hide Inv;
    RunShape(run, n, t);
    RunShape(run, n, u);
    if t < u {
      RunGrows(run, n, t, u - 1, k);
      assert StepAt(run, u - 1);
      StepAppends(run[u - 1], run[u], k);
      GrowsOn(run[t].nodes[k], run[u - 1].nodes[k], run[u].nodes[k]);
    }
  }

  lemma GrowsOn(a: Node, b: Node, c: Node)
    requires Grows(a, b) && |b.accepted| == |c.accepted| && Appended(b, c)
    ensures Grows(a, c)
  {}

  /** Agreement over every run: what node `i` passed to its unpackers from sender `j` is, without
      gap, repetition or change of order, a prefix of what `j` took from its packers, one payload
      a cycle; two nodes never disagree about the payload of a (sender, cycle); and no node is
      more than one cycle behind another. */
  lemma Agreement(run: seq<Ring>, n: nat, t: nat, i: nat, j: nat)
    requires IsRun(run, n) && t < |run| && i < n && j < n && i != j
    ensures WellShaped(run[t]) && |run[t].nodes| == n
    ensures var got, made := run[t].nodes[i].accepted[j], run[t].nodes[j].taken;
            && got <= made
            && |got| == run[t].nodes[i].no[j].cycle
            && MasterCycle(run[t]) - 1 <= |got| <= MasterCycle(run[t])
    ensures forall k | 0 <= k < n && k != j ::
              var a, b := run[t].nodes[i].accepted[j], run[t].nodes[k].accepted[j];
              && (a <= b || b <= a)
              && -1 <= |a| - |b| <= 1
  {
    RunKeepsInv(run, n, t);
    var s := run[t];
    assert PairAt(s, i, j);
    forall k | 0 <= k < n && k != j
      ensures -1 <= |s.nodes[i].accepted[j]| - |s.nodes[k].accepted[j]| <= 1
      ensures s.nodes[i].accepted[j] <= s.nodes[k].accepted[j] || s.nodes[k].accepted[j] <= s.nodes[i].accepted[j]
    {
      assert PairAt(s, k, j);
    }
  }

  /** The master's advance is a barrier: when a step moves it to another cycle, that is the next
      one, and every node has accepted the cycle left behind from every other node. */
  lemma StepIsBarrier(s: Ring, i: nat, ev: Event)
    requires Inv(s) && Enabled(s, i, ev) && WellShaped(Next(s, i, ev))
    requires MasterCycle(Next(s, i, ev)) != MasterCycle(s)
    ensures MasterCycle(Next(s, i, ev)) == MasterCycle(s) + 1
    ensures CycleAccepted(Next(s, i, ev).nodes, MasterCycle(s))
  {
    hide NodeStep;
    var s', n, m := Next(s, i, ev), |s.nodes|, MasterCycle(s);
    StepKeepsInv(s, i, ev);
    AdvancesByOne(s, i, ev);
    forall a, b | 0 <= a < n && 0 <= b < n && a != b
      ensures s'.nodes[a].no[b].cycle == m
    {
      assert PairAt(s', a, b);
      if a > 0 {
        assert PairAt(s, a, b);
      } else {
        assert NodeAt(s', b);
        assert PairAt(s, b, 0);
      }
    }
  }

  lemma AdvanceIsBarrier(run: seq<Ring>, n: nat, t: nat)
    requires IsRun(run, n) && t + 1 < |run|
    requires WellShaped(run[t]) && WellShaped(run[t + 1])
    requires MasterCycle(run[t + 1]) != MasterCycle(run[t])
    ensures MasterCycle(run[t + 1]) == MasterCycle(run[t]) + 1
    ensures CycleAccepted(run[t + 1].nodes, MasterCycle(run[t]))
  {
    hide NodeStep, Inv;
    RunKeepsInv(run, n, t);
    assert StepAt(run, t);
    var i: nat, ev :| Enabled(run[t], i, ev) && run[t + 1] == Next(run[t], i, ev);
    StepIsBarrier(run[t], i, ev);
  }

  lemma MasterCounts(nd: Node, ev: Event, n: nat)
    requires Shaped(nd, n) && nd.order == 0
    requires ev.Receive? ==> Expected(nd, ev.packet) && forall q | q in ev.extra :: Expected(nd, q)
    ensures nd.no[0].cycle <= NodeStep(nd, ev, n).0.no[0].cycle <= nd.no[0].cycle + 1
  {
    hide PacketAfter, CycleBits, Wire;
    match ev
    case Receive(p, extra) =>
      MasterCountsData(nd, p, n);
      if !nd.comm.MasterReceive? && nd.comm.MasterConfirm? {
        hide Accept;
        assert OnReceive(nd, p, extra, n) == OnMasterConfirm(nd, p, n);
      }
    case _ =>
  }

  lemma MasterCountsData(nd: Node, p: Packet, n: nat)
    requires Shaped(nd, n) && nd.order == 0 && Expected(nd, p)
    ensures nd.comm.MasterReceive? ==>
              nd.no[0].cycle <= OnMasterData(nd, p, n).no[0].cycle <= nd.no[0].cycle + 1
  {
    hide PacketAfter, CycleBits, Wire;
  }

  lemma AdvancesByOne(s: Ring, i: nat, ev: Event)
    requires WellShaped(s) && Enabled(s, i, ev)
    requires |Next(s, i, ev).nodes| == |s.nodes|
    requires MasterCycle(Next(s, i, ev)) != MasterCycle(s)
    ensures i == 0 && MasterCycle(Next(s, i, ev)) == MasterCycle(s) + 1
  {
    if i == 0 {
      MasterCounts(s.nodes[0], ev, |s.nodes|);
    }
  }
}
