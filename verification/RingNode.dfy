/** One node of the ring transport, as a value: what it remembers between two blocking waits and
    what it does when a wait ends. Node 0 is the master. The numbers are kept unbounded, and
    every decision is taken on their 32-bit words, as the node does. */
module RingNode {
  import opened Bytes
  import opened PacketNumbers

  /** What one sender contributes to one cycle: the regularly packed bytes and the bulk bytes
      stuffed after them. */
  datatype Payload = Payload(regular: seq<Byte>, fill: seq<Byte>)

  datatype Packet =
    | Data(sender: nat, no: Num, missed: bool, payload: Payload)
    | Confirm(sender: nat, no: Num, missed: bool)

  /** The position in the communication logic. The first five are the states of a follower, the
      last three the stages of the master's round. */
  datatype CommState =
    | SyncOnZero | DataReceive | DataSend | WaitConfirm | SendConfirm
    | MasterSend | MasterReceive | MasterConfirm

  datatype Node = Node(
    order: nat,                   // send_order
    comm: CommState,
    phase: nat,                   // io_cycle_phase
    no: seq<Num>,                 // current_packet_no
    toSend: Option<Payload>,      // None while bytes_to_send is 0
    missed: bool,                 // i_missed_data
    allOk: bool,
    purge: bool,                  // purge_extra_messages
    taken: seq<Payload>,          // everything the packers were asked for, in order
    accepted: seq<seq<Payload>>)  // per sender, everything passed to the unpackers, in order

  /** How a wait ends. `extra` are the packets found queued behind a packet of the master. */
  datatype Event =
    | Timeout
    | Garbage
    | Receive(packet: Packet, extra: seq<Packet>)
    | Transmit(supply: Payload)

  /** The assertions at the head of each state of the communication logic. */
  ghost predicate Shaped(nd: Node, n: nat) {
    && nd.order < n && |nd.no| == n && |nd.accepted| == n
    && (nd.order == 0 <==> nd.comm.MasterSend? || nd.comm.MasterReceive? || nd.comm.MasterConfirm?)
    && match nd.comm
       case SyncOnZero => nd.phase == 0
       case DataReceive => 1 <= nd.phase < n && nd.phase != nd.order
       case DataSend => nd.phase == nd.order
       case WaitConfirm => nd.order + 2 < n
       case SendConfirm => nd.order + 1 < n
       case MasterSend => true
       case MasterReceive => 1 <= nd.phase < n
       case MasterConfirm => 1 <= nd.phase && nd.phase + 2 <= n
  }

  /** The numbers before the first round: the master starts with cycle 1, the rest with nothing. */
  function StartNumbers(order: nat, n: nat): seq<Num>
    requires order < n
  {
    seq(n, k => if k == 0 && order == 0 then Num(1, 0) else Num(0, 0))
  }

  function StartNode(order: nat, n: nat): Node
    requires order < n
  {
    Node(order, if order == 0 then MasterSend else SyncOnZero, 0, StartNumbers(order, n),
         None, false, true, true, [], seq(n, _ => []))
  }

  /** A node only ever appends to what it took from its packers and to what it handed to its
      unpackers, one payload at a time. */
  ghost predicate Appended(a: Node, b: Node)
  {
    && |a.accepted| == |b.accepted| && a.taken <= b.taken && |b.taken| <= |a.taken| + 1
    && forall j | 0 <= j < |a.accepted| ::
         a.accepted[j] <= b.accepted[j] && |b.accepted[j]| <= |a.accepted[j]| + 1
  }

  /** Does the packet come from the socket that is being waited on? */
  predicate Expected(nd: Node, p: Packet) {
    match nd.comm
    case SyncOnZero => p.Data? && p.sender == 0
    case DataReceive => p.Data? && p.sender == nd.phase
    case WaitConfirm => p.Confirm? && p.sender == nd.order + 1
    case MasterReceive => p.Data? && p.sender == nd.phase
    case MasterConfirm => p.Confirm? && p.sender == nd.phase
    case _ => false
  }

  /** Hand a packet to the unpackers if its cycle is newer than what was accepted before. */
  function Accept(nd: Node, p: Packet): (r: Node)
    requires p.Data? && p.sender < |nd.no| == |nd.accepted|
    ensures Appended(nd, r) && r.taken == nd.taken
  {
    var k := p.sender;
    if PacketAfter(CycleBits(Wire(p.no)), CycleBits(Wire(nd.no[k]))) then
      nd.(no := nd.no[k := p.no], accepted := nd.accepted[k := nd.accepted[k] + [p.payload]])
    else nd
  }

  function Resync(nd: Node): Node {
    nd.(comm := SyncOnZero, phase := 0, purge := true)
  }

  /** Of several queued packets of the master only the last one counts, when purging. */
  function SpinToLast(nd: Node, p: Packet, extra: seq<Packet>): (last: Packet)
    ensures last == p || last in extra
    ensures nd.purge || p.missed ==> last == ([p] + extra)[|extra|]
    ensures !nd.purge && !p.missed ==> last == p
  {
    if (nd.purge || p.missed) && extra != [] then extra[|extra| - 1] else p
  }

  function OnMaster(nd: Node, p: Packet, n: nat): (r: Node)
    requires Shaped(nd, n) && nd.comm.SyncOnZero? && Expected(nd, p)
    ensures Shaped(r, n) && r.order == nd.order && Appended(nd, r) && r.taken == nd.taken
  {
    var newer := PacketAfter(CycleBits(Wire(p.no)), CycleBits(Wire(nd.no[0])));
    var nd1 := Accept(nd.(missed := false, purge := false), p);
    var nd2 := if newer then nd1.(toSend := None) else nd1;
    nd2.(no := nd2.no[nd.order := p.no], phase := 1,
         comm := if nd.order == 1 then DataSend else DataReceive)
  }

  /** From one sender to the next, to the own sending, or to the confirms. */
  function AfterPeerData(nd: Node, n: nat): (r: Node)
    requires Shaped(nd, n) && nd.comm.DataReceive?
    ensures Shaped(r, n) && r.order == nd.order && Appended(nd, r) && r.taken == nd.taken
  {
    var phase := nd.phase + 1;
    if phase == nd.order then nd.(phase := phase, comm := DataSend)
    else if phase < n then nd.(phase := phase)
    else if nd.order + 2 == n then nd.(phase := phase, comm := SendConfirm)
    else nd.(phase := nd.order + 1, comm := WaitConfirm)
  }

  function OnPeerData(nd: Node, p: Packet, n: nat): (r: Node)
    requires Shaped(nd, n) && nd.comm.DataReceive? && Expected(nd, p)
    ensures Shaped(r, n) && r.order == nd.order && Appended(nd, r) && r.taken == nd.taken
  {
    if PacketAfter(Wire(nd.no[nd.order]), Wire(p.no)) then nd
    else AfterPeerData(Accept(nd, p), n)
  }

  function OnConfirm(nd: Node, p: Packet, n: nat): (r: Node)
    requires Shaped(nd, n) && nd.comm.WaitConfirm? && Expected(nd, p)
    ensures Shaped(r, n) && r.order == nd.order && Appended(nd, r) && r.taken == nd.taken
  {
    if PacketAfter(Wire(nd.no[nd.order]), Wire(p.no)) then nd else nd.(comm := SendConfirm)
  }

  /** setForCleaningRound: the same cycle is tried again under the next repeat number. */
  function Clean(nd: Node, n: nat): (r: Node)
    requires Shaped(nd, n) && nd.order == 0
    ensures Shaped(r, n) && r.order == 0 && Appended(nd, r) && r.taken == nd.taken
    ensures nd.no[0].cycle <= r.no[0].cycle <= nd.no[0].cycle + 1
  {
    nd.(no := nd.no[0 := NextRepeat(nd.no[0])], missed := false, comm := MasterSend, phase := 0)
  }

  /** The end of a complete round of the master. */
  function Finish(nd: Node, n: nat): (r: Node)
    requires Shaped(nd, n) && nd.order == 0
    ensures Shaped(r, n) && r.order == 0 && Appended(nd, r) && r.taken == nd.taken
    ensures nd.no[0].cycle <= r.no[0].cycle <= nd.no[0].cycle + 1
  {
    if nd.allOk then
      nd.(no := nd.no[0 := NextCycle(nd.no[0])], missed := false, toSend := None,
          comm := MasterSend, phase := 0)
    else Clean(nd, n)
  }

  function EnterConfirms(nd: Node, n: nat): (r: Node)
    requires Shaped(nd, n) && nd.order == 0
    ensures Shaped(r, n) && r.order == 0 && Appended(nd, r) && r.taken == nd.taken
    ensures nd.no[0].cycle <= r.no[0].cycle <= nd.no[0].cycle + 1
  {
    if n >= 3 then nd.(comm := MasterConfirm, phase := n - 2) else Finish(nd, n)
  }

  function AfterMasterData(nd: Node, n: nat): (r: Node)
    requires Shaped(nd, n) && nd.order == 0 && nd.comm.MasterReceive?
    ensures Shaped(r, n) && r.order == nd.order && Appended(nd, r) && r.taken == nd.taken
    ensures nd.no[0].cycle <= r.no[0].cycle <= nd.no[0].cycle + 1
  {
    if nd.phase + 1 == n then EnterConfirms(nd, n) else nd.(phase := nd.phase + 1)
  }

  function OnMasterData(nd: Node, p: Packet, n: nat): (r: Node)
    requires Shaped(nd, n) && nd.comm.MasterReceive? && Expected(nd, p)
    ensures Shaped(r, n) && r.order == nd.order && Appended(nd, r) && r.taken == nd.taken
  {
    if Wire(nd.no[0]) != Wire(p.no) then nd
    else AfterMasterData(Accept(nd, p).(allOk := nd.allOk && !p.missed), n)
  }

  function OnMasterConfirm(nd: Node, p: Packet, n: nat): (r: Node)
    requires Shaped(nd, n) && nd.comm.MasterConfirm? && Expected(nd, p)
    ensures Shaped(r, n) && r.order == nd.order && Appended(nd, r) && r.taken == nd.taken
  {
    if Wire(nd.no[0]) != Wire(p.no) then nd
    else
      var nd1 := nd.(allOk := nd.allOk && !p.missed);
      if nd.phase <= 1 then Finish(nd1, n) else nd1.(phase := nd.phase - 1)
  }

  function OnReceive(nd: Node, p: Packet, extra: seq<Packet>, n: nat): (r: Node)
    requires Shaped(nd, n)
    requires Expected(nd, p) && forall q | q in extra :: Expected(nd, q)
    ensures Shaped(r, n) && r.order == nd.order && Appended(nd, r) && r.taken == nd.taken
  {
    match nd.comm
    case SyncOnZero => OnMaster(nd, SpinToLast(nd, p, extra), n)
    case DataReceive => OnPeerData(nd, p, n)
    case WaitConfirm => OnConfirm(nd, p, n)
    case MasterReceive => OnMasterData(nd, p, n)
    case MasterConfirm => OnMasterConfirm(nd, p, n)
    case _ => nd
  }

  /** A wait that ended without a usable packet. */
  function OnNothing(nd: Node, n: nat): (r: Node)
    requires Shaped(nd, n)
    ensures Shaped(r, n) && r.order == nd.order && Appended(nd, r) && r.taken == nd.taken
  {
    match nd.comm
    case SyncOnZero => nd.(missed := false)
    case DataReceive => Resync(nd)
    case WaitConfirm => Resync(nd)
    case MasterReceive => Clean(nd, n)
    case MasterConfirm => Clean(nd, n)
    case _ => nd
  }

  /** sendMyData: new data is taken from the packers only after the old data was accepted. */
  function Load(nd: Node, supply: Payload): (r: Node)
    ensures Appended(nd, r)
  {
    if nd.toSend.None? then nd.(toSend := Some(supply), taken := nd.taken + [supply]) else nd
  }

  function AfterSend(nd: Node, n: nat): (r: Node)
    requires Shaped(nd, n)
    ensures Shaped(r, n) && r.order == nd.order && Appended(nd, r) && r.taken == nd.taken
  {
    match nd.comm
    case DataSend =>
      if nd.phase + 1 == n then nd.(phase := 0, comm := SyncOnZero)
      else nd.(phase := nd.phase + 1, comm := DataReceive)
    case SendConfirm => nd.(phase := 0, comm := SyncOnZero)
    case MasterSend =>
      if n == 1 then EnterConfirms(nd.(allOk := true), n)
      else nd.(allOk := true, phase := 1, comm := MasterReceive)
    case _ => nd
  }

  function Outgoing(nd: Node): Option<Packet>
    requires nd.order < |nd.no|
  {
    if nd.comm.SendConfirm? then Some(Confirm(nd.order, nd.no[nd.order], nd.missed))
    else if (nd.comm.DataSend? || nd.comm.MasterSend?) && nd.toSend.Some? then
      Some(Data(nd.order, nd.no[nd.order], nd.missed, nd.toSend.value))
    else None
  }

  predicate Sending(nd: Node) {
    nd.comm.DataSend? || nd.comm.MasterSend? || nd.comm.SendConfirm?
  }

  /** What the node is at the next wait, and what it put on the network in between. */
  function NodeStep(nd: Node, ev: Event, n: nat): (r: (Node, Option<Packet>))
    requires Shaped(nd, n)
    requires ev.Receive? ==> Expected(nd, ev.packet) && forall q | q in ev.extra :: Expected(nd, q)
    ensures Shaped(r.0, n) && r.0.order == nd.order && Appended(nd, r.0)
  {
    match ev
    case Receive(p, extra) => (OnReceive(nd, p, extra, n), None)
    case Transmit(supply) =>
      if !Sending(nd) then (nd, None)
      else
        var loaded := if nd.comm.SendConfirm? then nd else Load(nd, supply);
        (AfterSend(loaded, n), Outgoing(loaded))
    case _ => (OnNothing(nd, n), None)
  }

  /** A node takes data only when it sends, and then what its packers have. */
  lemma TakenIsSupplied(nd: Node, ev: Event, n: nat)
    requires Shaped(nd, n)
    requires ev.Receive? ==> Expected(nd, ev.packet) && forall q | q in ev.extra :: Expected(nd, q)
    ensures var r := NodeStep(nd, ev, n).0;
            if ev.Transmit? && (nd.comm.DataSend? || nd.comm.MasterSend?) && nd.toSend.None? then r.taken == nd.taken + [ev.supply]
            else r.taken == nd.taken
  {
    hide PacketAfter, OnReceive, OnNothing, AfterSend, Shaped, Expected, Appended, Outgoing;
  }

  /** A round in which some node says that it missed data does not count: the master keeps its data, and goes
      through the round to its end without success, or starts it again under the next repeat number. */
  lemma MissedMeansAgain(nd: Node, p: Packet, extra: seq<Packet>, n: nat)
    requires Shaped(nd, n) && (nd.comm.MasterReceive? || nd.comm.MasterConfirm?)
    requires Expected(nd, p) && forall q | q in extra :: Expected(nd, q)
    requires !nd.allOk || (p.missed && p.no == nd.no[0])
    ensures var r := OnReceive(nd, p, extra, n);
            && r.toSend == nd.toSend
            && (if r.comm.MasterSend? then r.no[0] == NextRepeat(nd.no[0]) else r.no[0] == nd.no[0] && !r.allOk)
  {
    hide PacketAfter, Wire, CycleBits, Appended;
  }

  /** A node puts something on the network exactly when it is its turn: under its own number, with its missed
      flag, the data that was not accepted yet, or new data where there is none. */
  lemma WhatIsSent(nd: Node, ev: Event, n: nat)
    requires Shaped(nd, n)
    requires ev.Receive? ==> Expected(nd, ev.packet) && forall q | q in ev.extra :: Expected(nd, q)
    ensures var out := NodeStep(nd, ev, n).1;
            && (out.Some? <==> ev.Transmit? && Sending(nd))
            && (out.Some? ==>
                  && out.value.sender == nd.order && out.value.no == nd.no[nd.order] && out.value.missed == nd.missed
                  && (out.value.Confirm? <==> nd.comm.SendConfirm?)
                  && (out.value.Data? ==> out.value.payload == if nd.toSend.Some? then nd.toSend.value else ev.supply))
  {
    hide PacketAfter, OnReceive, OnNothing, AfterSend, Expected, Appended;
  }
}
