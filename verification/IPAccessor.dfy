/** The accessor object itself: 32-bit packet numbers in an array, one output store that is packed
    once and re-sent with new control bytes, and one method for each way a blocking wait ends.
    `View` is the node of RingNode that the object stands for. */
module IPAccessors {
  import opened Bytes
  import opened PacketNumbers
  import opened RingNode
  import opened RingWire

  /** The buffer holds packet p, with some timing. */
  ghost predicate Carries(buffer: seq<Byte>, p: Packet) {
    Encodable(p) && (p.Confirm? ==> p.sender > 0) && exists tick, offset :: buffer == Encode(p, tick, offset)
  }

  lemma CarriedSays(buffer: seq<Byte>, p: Packet)
    requires Carries(buffer, p)
    ensures var r := GetControlData(buffer, p.sender);
            && r.Some? && r.value.no == Wire(p.no) && r.value.missed == p.missed
            && (p.Data? ==> r.value.regular <= r.value.bytes)
            && (p.Data? ==> p.payload == Payload(buffer[..r.value.regular], buffer[r.value.regular..r.value.bytes]))
  {
    var tick, offset :| buffer == Encode(p, tick, offset);
    PacketRoundTrip(p, tick, offset);
  }

  /** A buffer that starts with the payload bytes holds the same regular and bulk bytes. */
  lemma SamePayload(buffer: seq<Byte>, body: seq<Byte>, regular: nat)
    requires regular <= |body| <= |buffer| && buffer[..|body|] == body
    ensures buffer[..regular] == body[..regular] && buffer[regular..|body|] == body[regular..]
    ensures body[..regular] + body[regular..] == body
  {}

  /** A payload with the trailer behind it is the packet on the wire. */
  lemma BodyAndTrailer(order: nat, no: Num, missed: bool, body: seq<Byte>, regular: nat, tick: uint32, offset: uint32)
    requires regular <= |body|
    ensures Encode(Data(order, no, missed, Payload(body[..regular], body[regular..])), tick, offset)
            == body + Control(order, true, missed, Wire(no), regular) + (if order == 0 then Timing(tick, offset) else [])
  {
    assert body[..regular] + body[regular..] == body;
  }

  /** Every queued buffer holds the corresponding packet of the master. */
  ghost predicate AllFromMaster(queued: seq<seq<Byte>>, extra: seq<Packet>) {
    |queued| == |extra|
    && forall i | 0 <= i < |queued| :: Carries(queued[i], extra[i]) && extra[i].Data? && extra[i].sender == 0
  }

  lemma FollowIsOnMaster(nd: Node, p: Packet, n: nat)
    requires Shaped(nd, n) && nd.comm.SyncOnZero? && Expected(nd, p)
    ensures OnMaster(nd, p, n) == OnMaster(nd.(missed := false, purge := false), p, n)
  {}

  class IPAccessor {
    const order: nat
    const senders: nat
    var store: array<Byte>            // output_store[store_to_send]
    var bytesToSend: nat
    var regularBytes: nat
    var packetNo: array<uint32>       // current_packet_no
    var comm: CommState
    var phase: nat
    var missed: bool
    var allOk: bool
    var purge: bool
    var delivered: seq<seq<Payload>>  // per sender, what the unpackers were given
    ghost var nums: seq<Num>
    ghost var taken: seq<Payload>

    ghost function View(): Node
      reads this, store
    {
      Node(order, comm, phase, nums,
           if Trailer(order) <= bytesToSend <= store.Length && regularBytes <= bytesToSend - Trailer(order) then
             Some(Payload(store[..regularBytes], store[regularBytes..bytesToSend - Trailer(order)]))
           else None,
           missed, allOk, purge, taken, delivered)
    }

    ghost predicate Valid()
      reads this, store, packetNo
    {
      && Shaped(View(), senders) && senders < 0x1_0000
      && packetNo.Length == senders
      && (forall k | 0 <= k < senders :: packetNo[k] == Wire(nums[k]))
      && (bytesToSend > 0 ==>
            Trailer(order) <= bytesToSend <= store.Length && regularBytes <= bytesToSend - Trailer(order))
      && regularBytes < 0x1_0000
    }

    constructor (order: nat, senders: nat, packetSize: nat)
      requires order < senders < 0x1_0000
      ensures Valid() && fresh(store) && fresh(packetNo) && store.Length == packetSize
      ensures this.order == order && this.senders == senders
      ensures View() == StartNode(order, senders)
    {
      this.order, this.senders := order, senders;
      store := new Byte[packetSize](_ => 0);
      bytesToSend, regularBytes := 0, 0;
      packetNo := new uint32[senders](k => if k == 0 && order == 0 then 0x1000 else 0);
      comm := if order == 0 then MasterSend else SyncOnZero;
      phase, missed, allOk, purge := 0, false, true, true;
      delivered := seq(senders, _ => []);
      nums := StartNumbers(order, senders);
      taken := [];
    }

    /** Write bytes into the output store. */
    method Place(at: nat, bytes: seq<Byte>)
      requires at + |bytes| <= store.Length
      modifies store
      ensures store[..] == old(store[..at]) + bytes + old(store[at + |bytes|..])
    {
      forall i | 0 <= i < |bytes| {
        store[at + i] := bytes[i];
      }
    }

    /** Move to another stage of the communication logic. */
    method Goto(next: CommState, nextPhase: nat)
      requires Valid() && Shaped(View().(comm := next, phase := nextPhase), senders)
      modifies this`comm, this`phase
      ensures Valid() && View() == old(View()).(comm := next, phase := nextPhase)
    {
      comm, phase := next, nextPhase;
    }

    /** Ask the packers for new data, but only if the old data was accepted (bytesToSend is 0);
        otherwise drop the control bytes of the previous sending. */
    method PackWork(supply: Payload)
      requires Valid()
      requires |supply.regular| < 0x1_0000
      requires |supply.regular| + |supply.fill| + Trailer(order) <= store.Length
      modifies this`bytesToSend, this`regularBytes, this`taken, store
      ensures regularBytes <= bytesToSend <= store.Length - Trailer(order) && regularBytes < 0x1_0000
      ensures Load(old(View()), supply).toSend == Some(Payload(store[..regularBytes], store[regularBytes..bytesToSend]))
      ensures Load(old(View()), supply).taken == taken
      ensures old(bytesToSend) > 0 ==>
                bytesToSend == old(bytesToSend) - Trailer(order) && store[..] == old(store[..])
    {
      if bytesToSend == 0 {
        Place(0, supply.regular);
        regularBytes := |supply.regular|;
        Place(regularBytes, supply.fill);
        bytesToSend := regularBytes + |supply.fill|;
        taken := taken + [supply];
        assert store[..regularBytes] == supply.regular;
        assert store[regularBytes..bytesToSend] == supply.fill;
      } else {
        bytesToSend := bytesToSend - Trailer(order);
      }
    }

    /** Put the control bytes, and on the master the timing bytes, behind the payload. */
    method AddTrailer(tick: uint32, offset: uint32) returns (packet: seq<Byte>)
      requires order < senders == packetNo.Length && senders < 0x1_0000
      requires regularBytes <= bytesToSend <= store.Length - Trailer(order) && regularBytes < 0x1_0000
      modifies this`bytesToSend, store
      ensures bytesToSend == old(bytesToSend) + Trailer(order)
      ensures store[..old(bytesToSend)] == old(store[..bytesToSend])
      ensures packet == old(store[..bytesToSend]) + Control(order, true, missed, packetNo[order], regularBytes)
                        + (if order == 0 then Timing(tick, offset) else [])
    {
      ghost var body := store[..bytesToSend];
      var control := Control(order, true, missed, packetNo[order], regularBytes);
      Place(bytesToSend, control);
      bytesToSend := bytesToSend + CONTROL_BYTES;
      assert store[..bytesToSend] == body + control;
      if order == 0 {
        Place(bytesToSend, Timing(tick, offset));
        bytesToSend := bytesToSend + TIMING_BYTES;
        assert store[..bytesToSend] == body + control + Timing(tick, offset);
      }
      packet := store[..bytesToSend];
      assert packet[..old(bytesToSend)] == body;
    }

    /** Send the data of this cycle: a re-sent packet has the same payload bytes as before, and
        the packet decodes to the sender's own numbers. */
    method SendMyData(supply: Payload, tick: uint32, offset: uint32)
      returns (packet: seq<Byte>, ghost sent: Packet)
      requires Valid() && (comm.DataSend? || comm.MasterSend?)
      requires |supply.regular| < 0x1_0000
      requires |supply.regular| + |supply.fill| + Trailer(order) <= store.Length
      modifies this`bytesToSend, this`regularBytes, this`taken, store
      ensures Valid() && bytesToSend > 0
      ensures View() == Load(old(View()), supply)
      ensures Outgoing(View()) == Some(sent) && packet == Encode(sent, tick, offset)
      ensures old(bytesToSend) > 0 ==>
                |packet| == old(bytesToSend)
                && packet[..|packet| - Trailer(order)] == old(store[..bytesToSend - Trailer(order)])
    {
      hide PacketAfter, CycleBits, Wire, Appended, Control, Timing, BigEndian, Encode;
      ghost var loaded := Load(View(), supply);
      PackWork(supply);
      ghost var body, n := store[..bytesToSend], bytesToSend;
      SamePayload(store[..], body, regularBytes);
      packet := AddTrailer(tick, offset);
      assert store[..][..n] == body;
      SamePayload(store[..], body, regularBytes);
      assert View() == loaded;
      BodyAndTrailer(order, nums[order], missed, body, regularBytes, tick, offset);
      sent := Data(order, nums[order], missed, Payload(body[..regularBytes], body[regularBytes..]));
    }

    /** State DataSend of a follower. */
    method DataSendState(supply: Payload) returns (packet: seq<Byte>, ghost sent: Packet)
      requires Valid() && comm.DataSend?
      requires |supply.regular| < 0x1_0000
      requires |supply.regular| + |supply.fill| + Trailer(order) <= store.Length
      modifies this, store
      ensures Valid() && store == old(store) && packetNo == old(packetNo)
      ensures View() == AfterSend(Load(old(View()), supply), senders)
      ensures Outgoing(Load(old(View()), supply)) == Some(sent) && packet == Encode(sent, 0, 0)
    {
      packet, sent := SendMyData(supply, 0, 0);
      if phase + 1 == senders {
        Goto(SyncOnZero, 0);
      } else {
        Goto(DataReceive, phase + 1);
      }
    }

    /** State SendConfirm of a follower. */
    method SendMyConfirm() returns (packet: seq<Byte>, ghost sent: Packet)
      requires Valid() && comm.SendConfirm?
      modifies this
      ensures Valid() && store == old(store) && packetNo == old(packetNo)
      ensures View() == AfterSend(old(View()), senders)
      ensures Outgoing(old(View())) == Some(sent) && packet == Encode(sent, 0, 0)
    {
      packet, sent := Control(order, false, missed, packetNo[order], 0), Confirm(order, nums[order], missed);
      Goto(SyncOnZero, 0);
    }

    /** Pass the contents of a packet to the unpackers, if it brings a newer cycle. */
    method AcceptIfNewer(buffer: seq<Byte>, says: Says, k: nat, ghost p: Packet)
      requires Valid() && k < senders && p.Data? && p.sender == k
      requires Carries(buffer, p) && GetControlData(buffer, k) == Some(says)
      modifies this`delivered, this`nums, packetNo
      ensures Valid() && View() == Accept(old(View()), p)
    {
      hide PacketAfter, CycleBits, Wire, Carries, Appended, Encode;
      CarriedSays(buffer, p);
      if PacketAfter(CycleBits(says.no), CycleBits(packetNo[k])) {
        GetDuecaData(k, Payload(buffer[..says.regular], buffer[says.regular..says.bytes]));
        SetNumber(k, says.no, p.no);
      }
    }

    method GetDuecaData(k: nat, payload: Payload)
      requires Valid() && k < senders
      modifies this`delivered
      ensures Valid()
      ensures View() == old(View()).(accepted := old(delivered)[k := old(delivered)[k] + [payload]])
    {
      delivered := delivered[k := delivered[k] + [payload]];
    }

    /** Read everything queued on the master's socket, keep the last. */
    method ReadOn(first: seq<Byte>, queued: seq<seq<Byte>>) returns (last: seq<Byte>, newdata: nat)
      ensures newdata == |queued|
      ensures last == if queued == [] then first else queued[|queued| - 1]
    {
      last, newdata := first, 0;
      while newdata < |queued|
        invariant newdata <= |queued|
        invariant last == if newdata == 0 then first else queued[newdata - 1]
      {
        last := queued[newdata];
        newdata := newdata + 1;
      }
    }

    /** Purge the master's socket when the master hints at it or a sequence was broken off. */
    method Purge(buffer: seq<Byte>, queued: seq<seq<Byte>>, ghost p: Packet, ghost extra: seq<Packet>)
      returns (current: seq<Byte>, ghost last: Packet)
      requires p.Data? && p.sender == 0 && Carries(buffer, p) && AllFromMaster(queued, extra)
      ensures last == SpinToLast(View(), p, extra)
      ensures Carries(current, last) && last.Data? && last.sender == 0
    {
      CarriedSays(buffer, p);
      current, last := buffer, p;
      if purge || GetControlData(buffer, 0).value.missed {
        var newdata;
        current, newdata := ReadOn(buffer, queued);
        if newdata > 0 {
          last := extra[|extra| - 1];
        }
      }
    }

    method ClearFlags()
      requires Valid()
      modifies this`missed, this`purge
      ensures Valid() && View() == old(View()).(missed := false, purge := false)
    {
      missed, purge := false, false;
    }

    /** State SyncOnZero when a packet of the master arrived, possibly with others behind it. */
    method SyncOnZeroState(buffer: seq<Byte>, queued: seq<seq<Byte>>, ghost p: Packet, ghost extra: seq<Packet>)
      requires Valid() && comm.SyncOnZero?
      requires Carries(buffer, p) && p.Data? && p.sender == 0 && AllFromMaster(queued, extra)
      modifies this, packetNo
      ensures Valid() && store == old(store) && packetNo == old(packetNo)
      ensures View() == OnMaster(old(View()), SpinToLast(old(View()), p, extra), senders)
    {
      hide PacketAfter, CycleBits, Wire, GetControlData, Carries, Appended, SpinToLast, OnMaster, Encode;
      ghost var was := View();
      ghost var last;
      var current;
      current, last := Purge(buffer, queued, p, extra);
      CarriedSays(current, last);
      ClearFlags();
      FollowMaster(current, GetControlData(current, 0).value, last);
      FollowIsOnMaster(was, last, senders);
    }

    /** Accept a packet of the master, stamp the own packets with its number, start the round. */
    method FollowMaster(buffer: seq<Byte>, says: Says, ghost p: Packet)
      requires Valid() && comm.SyncOnZero? && !missed && !purge && Expected(View(), p)
      requires Carries(buffer, p) && GetControlData(buffer, 0) == Some(says)
      modifies this, packetNo
      ensures Valid() && store == old(store) && packetNo == old(packetNo)
      ensures View() == OnMaster(old(View()), p, senders)
    {
      hide PacketAfter, CycleBits, Wire, GetControlData, Carries, Appended, Encode;
      CarriedSays(buffer, p);
      var newer := PacketAfter(CycleBits(says.no), CycleBits(packetNo[0]));
      AcceptIfNewer(buffer, says, 0, p);
      if newer {
        Forget();
      }
      SetNumber(order, says.no, p.no);
      Goto(if order == 1 then DataSend else DataReceive, 1);
    }

    /** The master started a new cycle: the old data need not be sent again. */
    method Forget()
      requires Valid()
      modifies this`bytesToSend
      ensures Valid() && View() == old(View()).(toSend := None)
    {
      bytesToSend := 0;
    }

    method SetNumber(k: nat, word: uint32, ghost no: Num)
      requires Valid() && k < senders && word == Wire(no)
      modifies this`nums, packetNo
      ensures Valid() && View() == old(View()).(no := old(nums)[k := no])
    {
      nums := nums[k := no];
      packetNo[k] := word;
    }

    /** State DataReceive when a packet of the awaited sender arrived. */
    method DataReceiveState(buffer: seq<Byte>, ghost p: Packet)
      requires Valid() && comm.DataReceive? && Carries(buffer, p) && Expected(View(), p)
      modifies this, packetNo
      ensures Valid() && store == old(store) && packetNo == old(packetNo)
      ensures View() == OnPeerData(old(View()), p, senders)
    {
      hide PacketAfter, CycleBits, Wire, GetControlData, Carries, Appended, Encode, AfterPeerData, Accept;
      CarriedSays(buffer, p);
      var says := GetControlData(buffer, phase).value;
      if !PacketAfter(packetNo[order], says.no) {
        AcceptIfNewer(buffer, says, phase, p);
        NextPeer();
      }
    }

    /** Turn to the next sender, to the own sending, or to the confirms. */
    method NextPeer()
      requires Valid() && comm.DataReceive?
      modifies this`comm, this`phase
      ensures Valid() && View() == AfterPeerData(old(View()), senders)
    {
      if phase + 1 == order {
        Goto(DataSend, phase + 1);
      } else if phase + 1 < senders {
        Goto(DataReceive, phase + 1);
      } else if order + 2 == senders {
        Goto(SendConfirm, phase + 1);
      } else {
        Goto(WaitConfirm, order + 1);
      }
    }

    /** State WaitConfirm when a confirm of the next sender arrived. */
    method WaitConfirmState(buffer: seq<Byte>, ghost p: Packet)
      requires Valid() && comm.WaitConfirm? && Carries(buffer, p) && Expected(View(), p)
      modifies this
      ensures Valid() && store == old(store) && packetNo == old(packetNo)
      ensures View() == OnConfirm(old(View()), p, senders)
    {
      CarriedSays(buffer, p);
      var says := GetControlData(buffer, order + 1).value;
      if !PacketAfter(packetNo[order], says.no) {
        comm := SendConfirm;
      }
    }

    method SetForCleaningRound()
      requires Valid() && order == 0
      modifies this, packetNo
      ensures Valid() && store == old(store) && packetNo == old(packetNo)
      ensures View() == Clean(old(View()), senders)
    {
      WireSteps(nums[0]);
      SetNumber(0, WireNextRepeat(packetNo[0]), NextRepeat(nums[0]));
      missed := false;
      Goto(MasterSend, 0);
    }

    /** No packet within the time limit, or one too short to hold control information. */
    method NoUsablePacket()
      requires Valid()
      modifies this, packetNo
      ensures Valid() && store == old(store) && packetNo == old(packetNo)
      ensures View() == OnNothing(old(View()), senders)
    {
      if comm.SyncOnZero? {
        missed := false;
      } else if comm.DataReceive? || comm.WaitConfirm? {
        purge := true;
        Goto(SyncOnZero, 0);
      } else if comm.MasterReceive? || comm.MasterConfirm? {
        SetForCleaningRound();
      }
    }

    /** The end of despatch0: a complete round moves the master to the next cycle. */
    method FinishRound()
      requires Valid() && order == 0
      modifies this, packetNo
      ensures Valid() && store == old(store) && packetNo == old(packetNo)
      ensures View() == Finish(old(View()), senders)
    {
      if allOk {
        WireSteps(nums[0]);
        SetNumber(0, WireNextCycle(packetNo[0]), NextCycle(nums[0]));
        Forget();
        missed := false;
        Goto(MasterSend, 0);
      } else {
        SetForCleaningRound();
      }
    }

    /** The head of despatch0: send, then wait for the first peer. */
    method StartRound(supply: Payload, tick: uint32, offset: uint32)
      returns (packet: seq<Byte>, ghost sent: Packet)
      requires Valid() && comm.MasterSend?
      requires |supply.regular| < 0x1_0000
      requires |supply.regular| + |supply.fill| + Trailer(order) <= store.Length
      modifies this, store, packetNo
      ensures Valid() && store == old(store) && packetNo == old(packetNo)
      ensures View() == AfterSend(Load(old(View()), supply), senders)
      ensures Outgoing(Load(old(View()), supply)) == Some(sent) && packet == Encode(sent, tick, offset)
    {
      hide PacketAfter, CycleBits, Wire, Appended, Encode, Outgoing, Load, Finish;
      packet, sent := SendMyData(supply, tick, offset);
      allOk := true;
      if senders == 1 {
        FinishRound();
      } else {
        Goto(MasterReceive, 1);
      }
    }

    /** The receive loop of despatch0, one packet: others than the one asked for are skipped. */
    method MasterReceiveState(buffer: seq<Byte>, ghost p: Packet)
      requires Valid() && comm.MasterReceive? && Carries(buffer, p) && Expected(View(), p)
      modifies this, packetNo
      ensures Valid() && store == old(store) && packetNo == old(packetNo)
      ensures View() == OnMasterData(old(View()), p, senders)
    {
      hide PacketAfter, CycleBits, Wire, GetControlData, Carries, Appended, Encode, AfterMasterData, Accept;
      CarriedSays(buffer, p);
      var says := GetControlData(buffer, phase).value;
      if packetNo[0] == says.no {
        AcceptIfNewer(buffer, says, phase, p);
        NoteMissed(says.missed);
        NextInRound();
      }
    }

    method NoteMissed(says: bool)
      requires Valid()
      modifies this`allOk
      ensures Valid() && View() == old(View()).(allOk := old(allOk) && !says)
    {
      allOk := allOk && !says;
    }

    /** Turn to the next peer, to the confirms, or to the next cycle. */
    method NextInRound()
      requires Valid() && comm.MasterReceive?
      modifies this, packetNo
      ensures Valid() && store == old(store) && packetNo == old(packetNo)
      ensures View() == AfterMasterData(old(View()), senders)
    {
      if phase + 1 < senders {
        Goto(MasterReceive, phase + 1);
      } else if senders >= 3 {
        Goto(MasterConfirm, senders - 2);
      } else {
        FinishRound();
      }
    }

    /** The confirm loop of despatch0, one packet. */
    method MasterConfirmState(buffer: seq<Byte>, ghost p: Packet)
      requires Valid() && comm.MasterConfirm? && Carries(buffer, p) && Expected(View(), p)
      modifies this, packetNo
      ensures Valid() && store == old(store) && packetNo == old(packetNo)
      ensures View() == OnMasterConfirm(old(View()), p, senders)
    {
      hide PacketAfter, CycleBits, Wire, GetControlData, Carries, Appended, Encode, Finish;
      CarriedSays(buffer, p);
      var says := GetControlData(buffer, phase).value;
      if packetNo[0] == says.no {
        NoteMissed(says.missed);
        if phase <= 1 {
          FinishRound();
        } else {
          Goto(MasterConfirm, phase - 1);
        }
      }
    }
  }
}
