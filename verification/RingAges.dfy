/** How old packets may get: a run of a ring of two nodes after which a packet one cycle older than
    allowed is taken for a new one. */
module RingAges {
  import opened Bytes
  import opened PacketNumbers
  import opened RingNode
  import opened RingProtocol

  function Same(x: Payload, m: nat): (r: seq<Payload>)
    ensures |r| == m
  {
    seq(m, _ => x)
  }

  lemma OneMoreSame(x: Payload, m: nat)
    ensures Same(x, m) + [x] == Same(x, m + 1)
  {}

  /** The master after m cycles, about to send the next one. */
  function Master(x: Payload, m: nat): Node {
    Node(0, MasterSend, 0, [Num(m + 1, 0), Num(m, 0)], None, false, true, true, Same(x, m), [[], Same(x, m)])
  }

  /** The master when it has sent cycle m + 1. */
  function MasterSent(x: Payload, m: nat): Node {
    Master(x, m).(comm := MasterReceive, phase := 1, toSend := Some(x), taken := Same(x, m + 1))
  }

  /** The follower between two rounds, when it has taken part in m cycles. */
  function Follower(x: Payload, m: nat): Node {
    Node(1, SyncOnZero, 0, [Num(m, 0), Num(m, 0)], if m == 0 then None else Some(x), false, true, m == 0,
         Same(x, m), [Same(x, m), []])
  }

  /** The follower when it has heard cycle m + 1. */
  function FollowerHeard(x: Payload, m: nat): Node {
    Follower(x, m).(comm := DataSend, phase := 1, no := [Num(m + 1, 0), Num(m + 1, 0)], toSend := None, purge := false,
                    accepted := [Same(x, m + 1), []])
  }

  function FromMaster(x: Payload, m: nat): Packet {
    Data(0, Num(m, 0), false, x)
  }

  function FromFollower(x: Payload, m: nat): Packet {
    Data(1, Num(m, 0), false, x)
  }

  lemma Shapes(x: Payload, m: nat)
    ensures Shaped(Master(x, m), 2) && Shaped(MasterSent(x, m), 2)
    ensures Shaped(Follower(x, m), 2) && Shaped(FollowerHeard(x, m), 2)
  {}

  lemma NextIsAfter(m: nat)
    ensures PacketAfter(CycleBits(Wire(Num(m + 1, 0))), CycleBits(Wire(Num(m, 0))))
  {
    WireOrder(Num(m + 1, 0), Num(m, 0));
  }

  lemma MasterSends(x: Payload, m: nat)
    ensures Shaped(Master(x, m), 2)
    ensures NodeStep(Master(x, m), Transmit(x), 2) == (MasterSent(x, m), Some(FromMaster(x, m + 1)))
  {
    OneMoreSame(x, m);
  }

  lemma FollowerHears(x: Payload, m: nat)
    ensures Shaped(Follower(x, m), 2) && Expected(Follower(x, m), FromMaster(x, m + 1))
    ensures NodeStep(Follower(x, m), Receive(FromMaster(x, m + 1), []), 2) == (FollowerHeard(x, m), None)
  {
    hide PacketAfter, CycleBits, Wire;
    OneMoreSame(x, m);
    NextIsAfter(m);
    var nd := OnMaster(Follower(x, m), FromMaster(x, m + 1), 2);
    assert nd.no == [Num(m + 1, 0), Num(m + 1, 0)] && nd.accepted == [Same(x, m + 1), []];
  }

  lemma FollowerSends(x: Payload, m: nat)
    ensures Shaped(FollowerHeard(x, m), 2)
    ensures NodeStep(FollowerHeard(x, m), Transmit(x), 2) == (Follower(x, m + 1), Some(FromFollower(x, m + 1)))
  {
    OneMoreSame(x, m);
  }

  lemma MasterHears(x: Payload, m: nat)
    ensures Shaped(MasterSent(x, m), 2) && Expected(MasterSent(x, m), FromFollower(x, m + 1))
    ensures NodeStep(MasterSent(x, m), Receive(FromFollower(x, m + 1), []), 2) == (Master(x, m + 1), None)
  {
    hide PacketAfter, CycleBits, Wire;
    OneMoreSame(x, m);
    NextIsAfter(m);
    var nd := OnMasterData(MasterSent(x, m), FromFollower(x, m + 1), 2);
    assert nd.no == [Num(m + 2, 0), Num(m + 1, 0)] && nd.accepted == [[], Same(x, m + 1)];
  }

  /** A run of the ring that ends in s. */
  ghost predicate Reaches(run: seq<Ring>, s: Ring) {
    IsRun(run, 2) && run[|run| - 1] == s
  }

  lemma OneStepMore(run: seq<Ring>, s: Ring, i: nat, ev: Event)
    requires Reaches(run, s) && WellShaped(s) && Enabled(s, i, ev)
    ensures Reaches(run + [Next(s, i, ev)], Next(s, i, ev))
  {
    var run' := run + [Next(s, i, ev)];
    forall t ensures StepAt(run', t) {
      assert StepAt(run, t);
    }
  }

  /** The ring of these two nodes, with a packet that was sent at some time. */
  ghost predicate Holds(s: Ring, master: Node, follower: Node, p: Packet) {
    s.nodes == [master, follower] && p in s.net
  }

  lemma TwoNodes(s: Ring, x: Payload, m: nat)
    requires |s.nodes| == 2 && (s.nodes[0] == Master(x, m) || s.nodes[0] == MasterSent(x, m))
    requires s.nodes[1] == Follower(x, m) || s.nodes[1] == Follower(x, m + 1) || s.nodes[1] == FollowerHeard(x, m)
    ensures WellShaped(s) && MasterCycle(s) == m + 1
  {
    Shapes(x, m);
    Shapes(x, m + 1);
  }

  /** One round, up to where the master waits for the follower. */
  lemma RoundSent(x: Payload, m: nat, run: seq<Ring>, s: Ring) returns (run': seq<Ring>, s': Ring)
    requires Reaches(run, s) && s.nodes == [Master(x, m), Follower(x, m)]
    requires m > 0 ==> FromMaster(x, 1) in s.net
    ensures Reaches(run', s') && Holds(s', MasterSent(x, m), Follower(x, m + 1), FromFollower(x, m + 1))
    ensures FromMaster(x, 1) in s'.net
  {
    hide NodeStep, Master, MasterSent, Follower, FollowerHeard, Reaches, WellShaped, Expected;
    TwoNodes(s, x, m);
    MasterSends(x, m);
    OneStepMore(run, s, 0, Transmit(x));
    var s1 := Next(s, 0, Transmit(x));
    assert s1.nodes == [MasterSent(x, m), Follower(x, m)];
    TwoNodes(s1, x, m);
    FollowerHears(x, m);
    var heard := Receive(FromMaster(x, m + 1), []);
    var run1 := run + [s1];
    OneStepMore(run1, s1, 1, heard);
    var s2 := Next(s1, 1, heard);
    assert s2.nodes == [MasterSent(x, m), FollowerHeard(x, m)];
    TwoNodes(s2, x, m);
    FollowerSends(x, m);
    OneStepMore(run1 + [s2], s2, 1, Transmit(x));
    s' := Next(s2, 1, Transmit(x));
    assert s'.nodes == [MasterSent(x, m), Follower(x, m + 1)];
    run' := run1 + [s2] + [s'];
  }

  /** The master hears the follower and goes on to the next cycle. */
  lemma RoundDone(x: Payload, m: nat, run: seq<Ring>, s: Ring) returns (run': seq<Ring>, s': Ring)
    requires Reaches(run, s) && Holds(s, MasterSent(x, m), Follower(x, m + 1), FromFollower(x, m + 1))
    ensures Reaches(run', s') && s'.nodes == [Master(x, m + 1), Follower(x, m + 1)] && s'.net == s.net
  {
    hide NodeStep, Master, MasterSent, Follower, FollowerHeard, Reaches, WellShaped, Expected;
    TwoNodes(s, x, m);
    MasterHears(x, m);
    var heard := Receive(FromFollower(x, m + 1), []);
    OneStepMore(run, s, 0, heard);
    s' := Next(s, 0, heard);
    assert s'.nodes == [Master(x, m + 1), Follower(x, m + 1)];
    run' := run + [s'];
  }

  lemma FromTheStart(x: Payload)
    ensures Reaches([Start(2)], Start(2)) && Start(2).nodes == [Master(x, 0), Follower(x, 0)]
  {
    assert Same(x, 0) == [];
    assert StartNode(0, 2) == Master(x, 0);
    assert StartNode(1, 2) == Follower(x, 0);
  }

  /** A regular run of m cycles. */
  lemma {:induction false} RoundsGoOn(x: Payload, m: nat) returns (run: seq<Ring>, s: Ring)
    ensures Reaches(run, s) && s.nodes == [Master(x, m), Follower(x, m)]
    ensures m > 0 ==> FromMaster(x, 1) in s.net
  {
    hide Master, MasterSent, Follower, FollowerHeard, Reaches;
    if m == 0 {
      FromTheStart(x);
      run, s := [Start(2)], Start(2);
    } else {
      run, s := RoundsGoOn(x, m - 1);
      run, s := RoundSent(x, m - 1, run, s);
      run, s := RoundDone(x, m - 1, run, s);
    }
  }

  /** At a distance of WINDOW cycles the first packet of all counts as new again. */
  lemma FirstPacketIsTaken(x: Payload)
    ensures var nd := Follower(x, WINDOW + 1);
            && Shaped(nd, 2) && Expected(nd, FromMaster(x, 1))
            && OnReceive(nd, FromMaster(x, 1), [], 2).accepted[0] == Same(x, WINDOW + 2)
  {
    assert Wire(Num(1, 0)) == 0x1000 && Wire(Num(WINDOW + 1, 0)) == 0x8000_1000;
    OneMoreSame(x, WINDOW + 1);
  }

  /** The age limit is exact: after a regular run of a ring of two nodes, a packet that is one cycle
      older than MAX_AGE, sent in the first cycle, makes the follower accept old data a second time. */
  lemma OverAgePacketBreaksAgreement(x: Payload) returns (run: seq<Ring>, p: Packet)
    ensures IsRun(run, 2)
    ensures var s := run[|run| - 1];
            && WellShaped(s) && |s.nodes| == 2 && p in s.net && Expected(s.nodes[1], p)
            && p.no.cycle + MAX_AGE + 1 == MasterCycle(s)
            && !(OnReceive(s.nodes[1], p, [], 2).accepted[0] <= s.nodes[0].taken)
  {
    hide OnReceive, Follower, Expected, Same;
    var s;
    run, s := RoundsGoOn(x, WINDOW);
    run, s := RoundSent(x, WINDOW, run, s);
    p := FromMaster(x, 1);
    TwoNodes(s, x, WINDOW);
    FirstPacketIsTaken(x);
  }
}
