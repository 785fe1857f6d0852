/** The ring can always go on: from whatever state a lossy network left it in, the nodes can complete the
    round, confirms included, and the master moves to the next cycle. */
module RingProgress {
  import opened Bytes
  import opened PacketNumbers
  import opened RingNode
  import opened RingProtocol

  // ---------- Paths

  ghost predicate IsPath(path: seq<Ring>, s: Ring, t: Ring) {
    && |path| > 0 && path[0] == s && path[|path| - 1] == t
    && forall k :: StepAt(path, k)
  }

  ghost predicate CanReach(s: Ring, t: Ring) {
    exists path :: IsPath(path, s, t)
  }

  lemma CanStay(s: Ring)
    ensures CanReach(s, s)
  {
    assert IsPath([s], s, s);
  }

  lemma CanGoOn(s: Ring, t: Ring, u: Ring)
    requires CanReach(s, t) && CanReach(t, u)
    ensures CanReach(s, u)
  {
    var a :| IsPath(a, s, t);
    var b :| IsPath(b, t, u);
    var path := a + b[1..];
    forall k ensures StepAt(path, k) {
      assert StepAt(a, k);
      assert StepAt(b, k - |a| + 1);
    }
    assert IsPath(path, s, u);
  }

  lemma CanStep(s: Ring, i: nat, ev: Event)
    requires Inv(s) && Enabled(s, i, ev)
    ensures CanReach(s, Next(s, i, ev)) && Inv(Next(s, i, ev)) && Moves(s, Next(s, i, ev), i)
  {
    StepKeepsInv(s, i, ev);
    hide Inv;
    var t := Next(s, i, ev);
    var path := [s, t];
    assert IsStep(s, t);
    forall k ensures StepAt(path, k) {}
    assert IsPath(path, s, t);
  }

  /** Only node i did something. */
  ghost predicate Moves(s: Ring, t: Ring, i: nat) {
    i < |s.nodes| && |t.nodes| == |s.nodes| && t.nodes == s.nodes[i := t.nodes[i]] && s.net <= t.net
  }

  ghost predicate Goes(s: Ring, t: Ring, i: nat) {
    CanReach(s, t) && Inv(t) && Moves(s, t, i)
  }

  lemma GoesOn(s: Ring, t: Ring, u: Ring, i: nat)
    requires Goes(s, t, i) && Goes(t, u, i)
    ensures Goes(s, u, i)
  {
    hide Inv, CanReach;
    CanGoOn(s, t, u);
  }

  // ---------- What one node does when it hears what it waits for

  lemma HearsMaster(nd: Node, p: Packet, n: nat)
    requires Shaped(nd, n) && nd.comm.SyncOnZero? && p.Data? && p.sender == 0
    ensures var (r, out) := NodeStep(nd, Receive(p, []), n);
            out == None && r.no[r.order] == p.no && r.phase == 1
            && r.comm == (if nd.order == 1 then DataSend else DataReceive)
  {
    hide PacketAfter, CycleBits, Wire;
  }

  lemma HearsPeer(nd: Node, p: Packet, n: nat)
    requires Shaped(nd, n) && nd.comm.DataReceive? && p.Data? && p.sender == nd.phase && nd.no[nd.order] == p.no
    ensures var (r, out) := NodeStep(nd, Receive(p, []), n);
            out == None && r.no[r.order] == p.no
            && (nd.phase + 1 == nd.order ==> r.comm == DataSend)
            && (nd.phase + 1 != nd.order && nd.phase + 1 < n ==> r.comm == DataReceive && r.phase == nd.phase + 1)
            && (nd.phase + 1 == n && nd.order + 2 == n ==> r.comm == SendConfirm)
            && (nd.phase + 1 == n && nd.order + 2 < n ==> r.comm == WaitConfirm)
  {
    WireOrder(p.no, p.no);
    hide PacketAfter, CycleBits, Wire;
  }

  lemma SendsData(nd: Node, x: Payload, n: nat)
    requires Shaped(nd, n) && nd.comm.DataSend? && !nd.missed
    ensures var (r, out) := NodeStep(nd, Transmit(x), n);
            && r.no == nd.no && out.Some? && out.value.Data? && out.value.sender == nd.order && out.value.no == nd.no[nd.order]
            && (nd.order + 1 == n ==> r.comm == SyncOnZero)
            && (nd.order + 1 < n ==> r.comm == DataReceive && r.phase == nd.order + 1)
  {}

  lemma HearsConfirm(nd: Node, p: Packet, n: nat)
    requires Shaped(nd, n) && nd.comm.WaitConfirm? && p.Confirm? && p.sender == nd.order + 1 && nd.no[nd.order] == p.no
    ensures var (r, out) := NodeStep(nd, Receive(p, []), n); out == None && r == nd.(comm := SendConfirm)
  {
    WireOrder(p.no, p.no);
    hide PacketAfter, CycleBits, Wire;
  }

  lemma SendsConfirm(nd: Node, x: Payload, n: nat)
    requires Shaped(nd, n) && nd.comm.SendConfirm?
    ensures var (r, out) := NodeStep(nd, Transmit(x), n);
            r.comm == SyncOnZero && out == Some(Confirm(nd.order, nd.no[nd.order], nd.missed))
  {}

  lemma MasterHearsPeer(nd: Node, p: Packet, n: nat)
    requires Shaped(nd, n) && nd.comm.MasterReceive? && p.Data? && p.sender == nd.phase && nd.no[0] == p.no
    requires nd.allOk && !p.missed
    ensures var (r, out) := NodeStep(nd, Receive(p, []), n);
            out == None
            && (nd.phase + 1 < n ==> r.comm == MasterReceive && r.phase == nd.phase + 1 && r.no[0] == nd.no[0])
            && (nd.phase + 1 == n && n >= 3 ==> r.comm == MasterConfirm && r.phase == n - 2 && r.no[0] == nd.no[0])
            && (nd.phase + 1 == n && n < 3 ==> r.comm == MasterSend && r.no[0] == Num(nd.no[0].cycle + 1, 0) && r.toSend == None)
  {
    hide PacketAfter, CycleBits, Wire;
  }

  lemma MasterHearsConfirm(nd: Node, p: Packet, n: nat)
    requires Shaped(nd, n) && nd.comm.MasterConfirm? && p.Confirm? && p.sender == nd.phase && nd.no[0] == p.no
    requires nd.allOk && !p.missed
    ensures var (r, out) := NodeStep(nd, Receive(p, []), n);
            out == None
            && (nd.phase > 1 ==> r.comm == MasterConfirm && r.phase == nd.phase - 1 && r.no[0] == nd.no[0])
            && (nd.phase == 1 ==> r.comm == MasterSend && r.no[0] == Num(nd.no[0].cycle + 1, 0) && r.toSend == None)
  {}

  // ---------- The same in the ring

  /** The running round: its number, and what of it was sent so far. */
  ghost predicate InRound(s: Ring, no: Num, n: nat) {
    Inv(s) && |s.nodes| == n && s.nodes[0].no[0] == no
  }

  lemma HeardPacket(s: Ring, no: Num, n: nat, j: nat, confirm: bool) returns (p: Packet)
    requires InRound(s, no, n) && Heard(s.net, j, no, confirm)
    ensures p in s.net && p.sender == j && p.no == no && p.Confirm? == confirm && !p.missed
    ensures WellShaped(s) && p.no.cycle + MAX_AGE >= MasterCycle(s)
  {
    p :| p in s.net && p.sender == j && p.no == no && p.Confirm? == confirm;
    assert PacketAt(s, p);
  }

  lemma NodeFacts(s: Ring, i: nat)
    requires Inv(s) && (i < |s.nodes| || i == 0)
    ensures i < |s.nodes| && WellShaped(s) && Shaped(s.nodes[i], |s.nodes|) && s.nodes[i].order == i
    ensures !s.nodes[i].missed && s.nodes[i].allOk
  {
    assert NodeAt(s, i);
  }

  lemma StillHeard(s: Ring, t: Ring, j: nat, no: Num, confirm: bool)
    requires s.net <= t.net && Heard(s.net, j, no, confirm)
    ensures Heard(t.net, j, no, confirm)
  {
    var p :| p in s.net && p.sender == j && p.no == no && p.Confirm? == confirm;
    assert p in t.net;
  }

  ghost predicate AllHeard(net: set<Packet>, no: Num, to: nat) {
    forall j | 0 <= j < to :: Heard(net, j, no, false)
  }

  lemma AllStillHeard(s: Ring, t: Ring, no: Num, to: nat)
    requires s.net <= t.net && AllHeard(s.net, no, to)
    ensures AllHeard(t.net, no, to)
  {
    forall j: nat | j < to ensures Heard(t.net, j, no, false) {
      StillHeard(s, t, j, no, false);
    }
  }

  lemma FollowerHearsOne(s: Ring, no: Num, n: nat, i: nat, k: nat) returns (t: Ring)
    requires InRound(s, no, n) && 0 < i < n && k < n && Heard(s.net, k, no, false)
    requires if k == 0 then s.nodes[i].comm == SyncOnZero
             else s.nodes[i].comm == DataReceive && s.nodes[i].phase == k && s.nodes[i].no[i] == no
    ensures Goes(s, t, i) && t.net == s.net && InRound(t, no, n) && t.nodes[i].no[i] == no
    ensures k != i && k + 1 != i && k + 1 < n ==> t.nodes[i].comm == DataReceive && t.nodes[i].phase == k + 1
    ensures k + 1 == i ==> t.nodes[i].comm == DataSend
    ensures k + 1 == n && i + 2 == n ==> t.nodes[i].comm == SendConfirm
    ensures k + 1 == n && i + 2 < n ==> t.nodes[i].comm == WaitConfirm
  {
    hide Inv, CanReach, NodeStep;
    NodeFacts(s, i);
    var p := HeardPacket(s, no, n, k, false);
    var ev := Receive(p, []);
    if k == 0 {
      HearsMaster(s.nodes[i], p, n);
    } else {
      HearsPeer(s.nodes[i], p, n);
    }
    CanStep(s, i, ev);
    t := Next(s, i, ev);
    NodeFacts(t, i);
  }

  lemma FollowerSendsData(s: Ring, no: Num, n: nat, i: nat, x: Payload) returns (t: Ring)
    requires InRound(s, no, n) && 0 < i < n && s.nodes[i].comm == DataSend && s.nodes[i].no[i] == no
    ensures Goes(s, t, i) && InRound(t, no, n) && t.nodes[i].no[i] == no && Heard(t.net, i, no, false)
    ensures i + 1 == n ==> t.nodes[i].comm == SyncOnZero
    ensures i + 1 < n ==> t.nodes[i].comm == DataReceive && t.nodes[i].phase == i + 1
  {
    hide Inv, CanReach, NodeStep;
    NodeFacts(s, i);
    SendsData(s.nodes[i], x, n);
    CanStep(s, i, Transmit(x));
    t := Next(s, i, Transmit(x));
    var p := NodeStep(s.nodes[i], Transmit(x), n).1.value;
    assert p in t.net && p.sender == i && p.no == no && p.Confirm? == false;
    NodeFacts(t, i);
  }

  /** Hearing the senders from k on, in order, until the own turn or the end of the round. */
  lemma {:induction false} FollowerHearsOn(s: Ring, no: Num, n: nat, i: nat, k: nat, to: nat) returns (t: Ring)
    requires InRound(s, no, n) && 0 < i < n && k < to <= n && AllHeard(s.net, no, to) && (to == i || (to == n && i < k))
    requires if k == 0 then s.nodes[i].comm == SyncOnZero
             else s.nodes[i].comm == DataReceive && s.nodes[i].phase == k && s.nodes[i].no[i] == no
    ensures Goes(s, t, i) && t.net == s.net && InRound(t, no, n) && t.nodes[i].no[i] == no
    ensures to == i ==> t.nodes[i].comm == DataSend
    ensures to == n && i + 2 == n ==> t.nodes[i].comm == SendConfirm
    ensures to == n && i + 2 < n ==> t.nodes[i].comm == WaitConfirm
    decreases n as int - k
  {
    hide Inv, CanReach, Heard;
    t := FollowerHearsOne(s, no, n, i, k);
    if k + 1 < to {
      var u := FollowerHearsOn(t, no, n, i, k + 1, to);
      GoesOn(s, t, u, i);
      t := u;
    }
  }

  /** A follower takes part up to and including its own data. */
  lemma FollowerJoins(s: Ring, no: Num, n: nat, i: nat, x: Payload) returns (t: Ring)
    requires InRound(s, no, n) && 0 < i < n && s.nodes[i].comm == SyncOnZero && AllHeard(s.net, no, i)
    ensures Goes(s, t, i) && InRound(t, no, n) && t.nodes[i].no[i] == no && AllHeard(t.net, no, i + 1)
    ensures i + 1 == n ==> t.nodes[i].comm == SyncOnZero
    ensures i + 1 < n ==> t.nodes[i].comm == DataReceive && t.nodes[i].phase == i + 1
  {
    hide Inv, CanReach, Heard;
    var u := FollowerHearsOn(s, no, n, i, 0, i);
    t := FollowerSendsData(u, no, n, i, x);
    GoesOn(s, u, t, i);
    AllStillHeard(s, t, no, i);
  }

  /** A follower after its own data: it is through when it is the last one. */
  ghost predicate Joined(s: Ring, no: Num, n: nat, i: nat)
    requires WellShaped(s) && |s.nodes| == n && i < n
  {
    && s.nodes[i].no[i] == no
    && if i + 1 == n then s.nodes[i].comm == SyncOnZero
       else s.nodes[i].comm == DataReceive && s.nodes[i].phase == i + 1
  }

  /** The followers from i on are still to take part, and the ones before wait for data behind theirs. */
  ghost predicate HalfJoined(s: Ring, no: Num, n: nat, i: nat) {
    && InRound(s, no, n) && 0 < i <= n && AllHeard(s.net, no, i)
    && (forall k | 0 < k < i :: Joined(s, no, n, k))
    && forall k | i <= k < n :: s.nodes[k].comm == SyncOnZero
  }

  lemma OneJoinedMore(s: Ring, t: Ring, no: Num, n: nat, i: nat)
    requires HalfJoined(s, no, n, i) && i < n && Goes(s, t, i) && InRound(t, no, n) && Joined(t, no, n, i)
    requires AllHeard(t.net, no, i + 1)
    ensures HalfJoined(t, no, n, i + 1) && t.nodes[0] == s.nodes[0]
  {
    NodeFacts(s, i);
    NodeFacts(t, i);
    hide Inv, CanReach, AllHeard;
    forall k | 0 < k < i + 1 ensures Joined(t, no, n, k) {
      if k < i {
        assert Joined(s, no, n, k) && t.nodes[k] == s.nodes[k];
      }
    }
  }

  lemma {:induction false} AllJoin(s: Ring, no: Num, n: nat, i: nat, x: Payload) returns (t: Ring)
    requires HalfJoined(s, no, n, i)
    ensures CanReach(s, t) && HalfJoined(t, no, n, n) && t.nodes[0] == s.nodes[0]
    decreases n - i
  {
    hide Inv, CanReach, AllHeard;
    if i == n {
      t := s;
      CanStay(s);
    } else {
      var u := FollowerJoins(s, no, n, i, x);
      OneJoinedMore(s, u, no, n, i);
      t := AllJoin(u, no, n, i + 1, x);
      CanGoOn(s, u, t);
    }
  }

  // ---------- The confirms

  lemma FollowerConfirms(s: Ring, no: Num, n: nat, i: nat, x: Payload) returns (t: Ring)
    requires InRound(s, no, n) && 0 < i && i + 1 < n && s.nodes[i].comm == SendConfirm && s.nodes[i].no[i] == no
    ensures Goes(s, t, i) && InRound(t, no, n) && t.nodes[i].comm == SyncOnZero && Heard(t.net, i, no, true)
  {
    hide Inv, CanReach, NodeStep;
    NodeFacts(s, i);
    SendsConfirm(s.nodes[i], x, n);
    CanStep(s, i, Transmit(x));
    t := Next(s, i, Transmit(x));
    var p := NodeStep(s.nodes[i], Transmit(x), n).1.value;
    assert p in t.net && p.sender == i && p.no == no && p.Confirm? == true;
    NodeFacts(t, i);
  }

  lemma FollowerHearsConfirm(s: Ring, no: Num, n: nat, i: nat) returns (t: Ring)
    requires InRound(s, no, n) && 0 < i && i + 2 < n && s.nodes[i].comm == WaitConfirm && s.nodes[i].no[i] == no
    requires Heard(s.net, i + 1, no, true)
    ensures Goes(s, t, i) && t.net == s.net && InRound(t, no, n) && t.nodes[i].no[i] == no && t.nodes[i].comm == SendConfirm
  {
    hide Inv, CanReach, NodeStep;
    NodeFacts(s, i);
    var p := HeardPacket(s, no, n, i + 1, true);
    HearsConfirm(s.nodes[i], p, n);
    CanStep(s, i, Receive(p, []));
    t := Next(s, i, Receive(p, []));
    NodeFacts(t, i);
  }

  /** A follower hears the data behind its own and the confirm of the next node, and confirms. */
  lemma FollowerFinishes(s: Ring, no: Num, n: nat, i: nat, x: Payload) returns (t: Ring)
    requires InRound(s, no, n) && 0 < i && i + 1 < n && Joined(s, no, n, i) && AllHeard(s.net, no, n)
    requires i + 2 < n ==> Heard(s.net, i + 1, no, true)
    ensures Goes(s, t, i) && InRound(t, no, n) && t.nodes[i].comm == SyncOnZero && Heard(t.net, i, no, true)
  {
    hide Inv, CanReach, Heard;
    t := FollowerHearsOn(s, no, n, i, i + 1, n);
    if i + 2 < n {
      var u := FollowerHearsConfirm(t, no, n, i);
      GoesOn(s, t, u, i);
      t := u;
    }
    var u := FollowerConfirms(t, no, n, i, x);
    GoesOn(s, t, u, i);
    t := u;
  }

  /** The followers behind i are through, and those of them that confirm have confirmed. */
  ghost predicate HalfConfirmed(s: Ring, no: Num, n: nat, i: nat) {
    && InRound(s, no, n) && i < n && AllHeard(s.net, no, n)
    && (forall k | 0 < k <= i :: Joined(s, no, n, k))
    && (forall k | i < k < n :: s.nodes[k].comm == SyncOnZero)
    && forall k: nat | i < k && k + 1 < n :: Heard(s.net, k, no, true)
  }

  lemma OneConfirmedMore(s: Ring, t: Ring, no: Num, n: nat, i: nat)
    requires HalfConfirmed(s, no, n, i) && 0 < i && Goes(s, t, i) && InRound(t, no, n)
    requires t.nodes[i].comm == SyncOnZero && (i + 1 < n ==> Heard(t.net, i, no, true))
    ensures HalfConfirmed(t, no, n, i - 1) && t.nodes[0] == s.nodes[0]
  {
    NodeFacts(s, i);
    NodeFacts(t, i);
    hide Inv, CanReach, AllHeard, Heard;
    AllStillHeard(s, t, no, n);
    forall k | 0 < k <= i - 1 ensures Joined(t, no, n, k) {
      assert Joined(s, no, n, k) && t.nodes[k] == s.nodes[k];
    }
    forall k: nat | i - 1 < k && k + 1 < n ensures Heard(t.net, k, no, true) {
      if k > i {
        StillHeard(s, t, k, no, true);
      }
    }
  }

  lemma {:induction false} AllConfirm(s: Ring, no: Num, n: nat, i: nat, x: Payload) returns (t: Ring)
    requires HalfConfirmed(s, no, n, i) && i + 1 < n
    ensures CanReach(s, t) && HalfConfirmed(t, no, n, 0) && t.nodes[0] == s.nodes[0]
    decreases i
  {
    hide Inv, CanReach, AllHeard, Heard;
    if i == 0 {
      t := s;
      CanStay(s);
    } else {
      var u := FollowerFinishes(s, no, n, i, x);
      OneConfirmedMore(s, u, no, n, i);
      t := AllConfirm(u, no, n, i - 1, x);
      CanGoOn(s, u, t);
    }
  }

  // ---------- The master's round

  /** The round is over: the master is about to send the next cycle. */
  ghost predicate NextCycleReady(s: Ring, no: Num, n: nat) {
    && Inv(s) && |s.nodes| == n && s.nodes[0].comm == MasterSend && s.nodes[0].no[0] == Num(no.cycle + 1, 0)
    && s.nodes[0].toSend == None && CycleAccepted(s.nodes, no.cycle)
  }

  lemma MasterSendsData(s: Ring, n: nat, x: Payload) returns (t: Ring, no: Num)
    requires Inv(s) && |s.nodes| == n >= 2 && s.nodes[0].comm == MasterSend
    ensures Goes(s, t, 0) && InRound(t, no, n) && no == s.nodes[0].no[0] && AllHeard(t.net, no, 1)
    ensures t.nodes[0].comm == MasterReceive && t.nodes[0].phase == 1
  {
    NodeFacts(s, 0);
    no := s.nodes[0].no[0];
    CanStep(s, 0, Transmit(x));
    t := Next(s, 0, Transmit(x));
    var p := NodeStep(s.nodes[0], Transmit(x), n).1.value;
    assert p in t.net && p.sender == 0 && p.no == no && p.Confirm? == false;
  }

  /** One packet that the master waits for; the last one ends the round. */
  lemma MasterHearsOne(s: Ring, no: Num, n: nat) returns (t: Ring)
    requires InRound(s, no, n) && n >= 2
    requires s.nodes[0].comm == MasterReceive || s.nodes[0].comm == MasterConfirm
    requires Heard(s.net, s.nodes[0].phase, no, s.nodes[0].comm == MasterConfirm)
    ensures Goes(s, t, 0) && t.net == s.net
    ensures var k := s.nodes[0].phase;
            if s.nodes[0].comm == MasterReceive then
              if k + 1 < n then InRound(t, no, n) && t.nodes[0].comm == MasterReceive && t.nodes[0].phase == k + 1
              else if n >= 3 then InRound(t, no, n) && t.nodes[0].comm == MasterConfirm && t.nodes[0].phase == n - 2
              else NextCycleReady(t, no, n)
            else if k > 1 then InRound(t, no, n) && t.nodes[0].comm == MasterConfirm && t.nodes[0].phase == k - 1
            else NextCycleReady(t, no, n)
  {
    hide Inv, CanReach, NodeStep, CycleAccepted;
    NodeFacts(s, 0);
    var p := HeardPacket(s, no, n, s.nodes[0].phase, s.nodes[0].comm == MasterConfirm);
    if s.nodes[0].comm == MasterReceive {
      MasterHearsPeer(s.nodes[0], p, n);
    } else {
      MasterHearsConfirm(s.nodes[0], p, n);
    }
    var ev := Receive(p, []);
    CanStep(s, 0, ev);
    t := Next(s, 0, ev);
    NodeFacts(t, 0);
    if t.nodes[0].no[0] != no {
      StepIsBarrier(s, 0, ev);
    }
  }

  lemma {:induction false} MasterHearsAll(s: Ring, no: Num, n: nat) returns (t: Ring)
    requires InRound(s, no, n) && n >= 2 && AllHeard(s.net, no, n)
    requires s.nodes[0].comm == MasterReceive && 1 <= s.nodes[0].phase < n
    ensures Goes(s, t, 0) && t.net == s.net
    ensures if n >= 3 then InRound(t, no, n) && t.nodes[0].comm == MasterConfirm && t.nodes[0].phase == n - 2
            else NextCycleReady(t, no, n)
    decreases n as int - s.nodes[0].phase
  {
    hide Inv, CanReach, NextCycleReady, Heard;
    var k := s.nodes[0].phase;
    t := MasterHearsOne(s, no, n);
    if k + 1 < n {
      var u := MasterHearsAll(t, no, n);
      GoesOn(s, t, u, 0);
      t := u;
    }
  }

  lemma {:induction false} MasterHearsConfirms(s: Ring, no: Num, n: nat) returns (t: Ring)
    requires InRound(s, no, n) && n >= 3 && forall k: nat | 0 < k && k + 1 < n :: Heard(s.net, k, no, true)
    requires s.nodes[0].comm == MasterConfirm && 1 <= s.nodes[0].phase <= n - 2
    ensures Goes(s, t, 0) && NextCycleReady(t, no, n)
    decreases s.nodes[0].phase
  {
    hide Inv, CanReach, NextCycleReady, Heard;
    var k := s.nodes[0].phase;
    t := MasterHearsOne(s, no, n);
    if k > 1 {
      var u := MasterHearsConfirms(t, no, n);
      GoesOn(s, t, u, 0);
      t := u;
    }
  }

  // ---------- A whole round

  /** Between two rounds: the master is about to send, and all others wait for it. */
  ghost predicate Calm(s: Ring, n: nat) {
    && Inv(s) && |s.nodes| == n && s.nodes[0].comm == MasterSend
    && forall k | 0 < k < n :: s.nodes[k].comm == SyncOnZero
  }

  lemma JoinedAll(s: Ring, no: Num, n: nat)
    requires HalfJoined(s, no, n, n) && n >= 2
    ensures HalfConfirmed(s, no, n, n - 2)
  {
    hide AllHeard, Heard;
    NodeFacts(s, 0);
    assert Joined(s, no, n, n - 1);
    hide Inv;
  }

  /** From the start of a round to its end, confirms included, over a network that loses nothing meanwhile. */
  lemma RoundCompletes(s: Ring, n: nat, x: Payload) returns (t: Ring)
    requires Calm(s, n) && n >= 2
    ensures CanReach(s, t) && NextCycleReady(t, s.nodes[0].no[0], n) && Calm(t, n)
  {
    hide Inv, CanReach, NextCycleReady, AllHeard, Heard;
    var u, no := MasterSendsData(s, n, x);
    var v := AllJoin(u, no, n, 1, x);
    CanGoOn(s, u, v);
    JoinedAll(v, no, n);
    var w := AllConfirm(v, no, n, n - 2, x);
    CanGoOn(s, v, w);
    t := MasterHearsAll(w, no, n);
    if n >= 3 {
      var end := MasterHearsConfirms(t, no, n);
      GoesOn(w, t, end, 0);
      t := end;
    }
    CanGoOn(s, w, t);
    ReadyIsCalm(w, t, no, n);
  }

  lemma ReadyIsCalm(s: Ring, t: Ring, no: Num, n: nat)
    requires HalfConfirmed(s, no, n, 0) && Goes(s, t, 0) && NextCycleReady(t, no, n)
    ensures Calm(t, n)
  {
    hide Inv, CanReach;
  }

  // ---------- From any state

  /** A step of a node that is not at its resting place, with nothing heard. */
  lemma OneCalmStep(s: Ring, i: nat, ev: Event) returns (t: Ring)
    requires Inv(s) && i < |s.nodes| && (ev == Timeout || ev.Transmit?)
    ensures Goes(s, t, i)
    ensures t.nodes[i] == NodeStep(s.nodes[i], ev, |s.nodes|).0
  {
    hide Inv, CanReach, NodeStep;
    NodeFacts(s, i);
    CanStep(s, i, ev);
    t := Next(s, i, ev);
  }

  /** A follower gives up what it was waiting for, after it has sent what it was about to send. */
  lemma FollowerCalms(s: Ring, i: nat, x: Payload) returns (t: Ring)
    requires Inv(s) && 0 < i < |s.nodes|
    ensures Goes(s, t, i) && t.nodes[i].comm == SyncOnZero
  {
    hide Inv, CanReach;
    t := s;
    CanStay(s);
    NodeFacts(s, i);
    if Sending(s.nodes[i]) {
      t := OneCalmStep(s, i, Transmit(x));
      NodeFacts(t, i);
    }
    if t.nodes[i].comm != SyncOnZero {
      var u := OneCalmStep(t, i, Timeout);
      GoesOn(s, t, u, i);
      t := u;
    }
  }

  /** The master gives the round up and is about to try the cycle again. */
  lemma MasterCalms(s: Ring) returns (t: Ring)
    requires Inv(s)
    ensures Goes(s, t, 0) && t.nodes[0].comm == MasterSend && t.nodes[0].no[0].cycle == s.nodes[0].no[0].cycle
    ensures s.nodes[0].comm != MasterSend ==> t.nodes[0].no[0] == NextRepeat(s.nodes[0].no[0])
  {
    hide Inv, CanReach;
    NodeFacts(s, 0);
    t := s;
    CanStay(s);
    if s.nodes[0].comm != MasterSend {
      t := OneCalmStep(s, 0, Timeout);
    }
  }

  lemma {:induction false} FollowersCalm(s: Ring, n: nat, i: nat, x: Payload) returns (t: Ring)
    requires Inv(s) && |s.nodes| == n && 0 < i <= n && s.nodes[0].comm == MasterSend
    requires forall k | 0 < k < i :: s.nodes[k].comm == SyncOnZero
    ensures CanReach(s, t) && Calm(t, n) && t.nodes[0] == s.nodes[0]
    decreases n - i
  {
    hide Inv, CanReach;
    t := s;
    CanStay(s);
    if i < n {
      var u := FollowerCalms(s, i, x);
      t := FollowersCalm(u, n, i + 1, x);
      CanGoOn(s, u, t);
    }
  }

  lemma OnlyNode(s: Ring, x: Payload) returns (t: Ring)
    requires Calm(s, 1)
    ensures CanReach(s, t) && NextCycleReady(t, s.nodes[0].no[0], 1) && Calm(t, 1)
  {
    NodeFacts(s, 0);
    t := OneCalmStep(s, 0, Transmit(x));
  }

  /** Whatever the network did before: from every state that satisfies the invariant the ring can get to the
      end of the running cycle, when every node has accepted it from every other node. */
  lemma CycleCanComplete(s: Ring, x: Payload) returns (t: Ring)
    requires Inv(s)
    ensures CanReach(s, t) && Calm(t, |s.nodes|)
    ensures NextCycleReady(t, Num(s.nodes[0].no[0].cycle, 0), |s.nodes|)
  {
    hide Inv, CanReach, CycleAccepted;
    var n := |s.nodes|;
    NodeFacts(s, 0);
    var u := MasterCalms(s);
    var v := FollowersCalm(u, n, 1, x);
    CanGoOn(s, u, v);
    if n == 1 {
      t := OnlyNode(v, x);
    } else {
      t := RoundCompletes(v, n, x);
    }
    CanGoOn(s, v, t);
  }

  // ---------- Whole runs

  lemma RunGoesOn(run: seq<Ring>, n: nat, t: Ring) returns (longer: seq<Ring>)
    requires IsRun(run, n) && CanReach(run[|run| - 1], t)
    ensures IsRun(longer, n) && run <= longer && longer[|longer| - 1] == t
  {
    var path :| IsPath(path, run[|run| - 1], t);
    longer := run + path[1..];
    forall k ensures StepAt(longer, k) {
      assert StepAt(run, k);
      assert StepAt(path, k - |run| + 1);
    }
  }

  /** No run gets stuck: every run of every ring can be continued until the master has gone to the next
      cycle, and every node has accepted the one before from every other node. */
  lemma EveryRunCanAdvance(run: seq<Ring>, n: nat, x: Payload) returns (longer: seq<Ring>)
    requires IsRun(run, n)
    ensures IsRun(longer, n) && run <= longer
    ensures var s, t := run[|run| - 1], longer[|longer| - 1];
            && WellShaped(s) && WellShaped(t) && MasterCycle(t) == MasterCycle(s) + 1
            && CycleAccepted(t.nodes, MasterCycle(s)) && Calm(t, n)
  {
    hide Inv, CanReach, CycleAccepted, StepAt;
    RunKeepsInv(run, n, |run| - 1);
    NodeFacts(run[|run| - 1], 0);
    var t := CycleCanComplete(run[|run| - 1], x);
    NodeFacts(t, 0);
    longer := RunGoesOn(run, n, t);
  }

  /** For rings of every size there are runs of any number of cycles: every node has then been given that
      many payloads of every other node. */
  lemma {:induction false} CyclesGoOn(n: nat, m: nat, x: Payload) returns (run: seq<Ring>)
    requires n > 0
    ensures IsRun(run, n)
    ensures var s := run[|run| - 1];
            && WellShaped(s) && |s.nodes| == n && MasterCycle(s) == m + 1
            && forall i, j | 0 <= i < n && 0 <= j < n && i != j :: |s.nodes[i].accepted[j]| == m
  {
    hide Inv, CanReach, StepAt;
    if m == 0 {
      run := [Start(n)];
      assert forall k :: StepAt(run, k) by { FirstRun(n); }
      StartState(n);
    } else {
      var before := CyclesGoOn(n, m - 1, x);
      run := EveryRunCanAdvance(before, n, x);
      RunKeepsInv(run, n, |run| - 1);
      AcceptedCounts(run[|run| - 1], n, m);
    }
  }

  lemma FirstRun(n: nat)
    ensures forall k :: StepAt([Start(n)], k)
  {}

  lemma StartState(n: nat)
    requires n > 0
    ensures var s := Start(n);
            && WellShaped(s) && |s.nodes| == n && MasterCycle(s) == 1
            && forall i, j | 0 <= i < n && 0 <= j < n && i != j :: |s.nodes[i].accepted[j]| == 0
  {
    StartInv(n);
    assert forall i | 0 <= i < n :: Start(n).nodes[i] == StartNode(i, n);
  }

  lemma AcceptedCounts(s: Ring, n: nat, m: nat)
    requires Inv(s) && |s.nodes| == n && CycleAccepted(s.nodes, m)
    ensures WellShaped(s)
    ensures forall i, j | 0 <= i < n && 0 <= j < n && i != j :: |s.nodes[i].accepted[j]| == m
  {
    forall i, j | 0 <= i < n && 0 <= j < n && i != j ensures |s.nodes[i].accepted[j]| == m {
      assert PairAt(s, i, j);
    }
  }

  // ---------- Catching up

  /** A follower that broke off in the middle of a round skips what the master sent meanwhile: of the packets
      that wait for it, it follows the last one. */
  lemma BrokenOffCatchesUp(nd: Node, ev: Event, p: Packet, extra: seq<Packet>, n: nat)
    requires Shaped(nd, n) && (nd.comm.DataReceive? || nd.comm.WaitConfirm?) && (ev == Timeout || ev == Garbage)
    requires forall q | q in [p] + extra :: q.Data? && q.sender == 0
    ensures var mid := NodeStep(nd, ev, n).0;
            && mid.comm == SyncOnZero && Expected(mid, p) && (forall q | q in extra :: Expected(mid, q))
            && var r := NodeStep(mid, Receive(p, extra), n).0;
            r.no[nd.order] == ([p] + extra)[|extra|].no
  {
    hide PacketAfter, CycleBits, Wire;
    assert p in [p] + extra;
    forall q | q in extra ensures q in [p] + extra {}
    var last := ([p] + extra)[|extra|];
    assert last in [p] + extra;
  }

  /** A follower that follows the round without a break takes the packets of the master one by one. */
  lemma InStepTakesFirst(nd: Node, p: Packet, extra: seq<Packet>, n: nat)
    requires Shaped(nd, n) && nd.comm.SyncOnZero? && !nd.purge && !p.missed
    requires forall q | q in [p] + extra :: q.Data? && q.sender == 0
    ensures Expected(nd, p) && (forall q | q in extra :: Expected(nd, q))
    ensures NodeStep(nd, Receive(p, extra), n).0.no[nd.order] == p.no
    ensures !NodeStep(nd, Receive(p, extra), n).0.purge
  {
    hide PacketAfter, CycleBits, Wire;
    assert p in [p] + extra;
    forall q | q in extra ensures q in [p] + extra {}
  }
}
