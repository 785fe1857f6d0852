/** The bytes of a ring packet: the payload first, then ten bytes of control information, then, in
    packets of the master only, eight bytes of timing. */
module RingWire {
  import opened Bytes
  import opened PacketNumbers
  import opened RingNode

  const CONTROL_BYTES: nat := 10
  const TIMING_BYTES: nat := 8

  function Trailer(sender: nat): nat {
    if sender == 0 then CONTROL_BYTES + TIMING_BYTES else CONTROL_BYTES
  }

  function Flag(b: bool): Byte {
    if b then 0xff else 0
  }

  /** Send order, data phase, missed data, packet number, number of regular bytes. */
  function Control(order: nat, sending: bool, missed: bool, no: uint32, regular: nat): (s: seq<Byte>)
    ensures |s| == CONTROL_BYTES
  {
    BigEndian(order, 2) + [Flag(sending), Flag(missed)] + BigEndian(no, 4) + BigEndian(regular, 2)
  }

  /** Time tick and offset in microseconds, the latter as the bits of an int32_t. */
  function Timing(tick: uint32, offset: uint32): (s: seq<Byte>)
    ensures |s| == TIMING_BYTES
  {
    BigEndian(tick, 4) + BigEndian(offset, 4)
  }

  /** The 16-bit fields of the control information can hold the packet's values. */
  predicate Encodable(p: Packet) {
    p.sender < 0x1_0000 && (p.Data? ==> |p.payload.regular| < 0x1_0000)
  }

  function Encode(p: Packet, tick: uint32, offset: uint32): seq<Byte> {
    match p
    case Data(order, no, missed, payload) =>
      payload.regular + payload.fill + Control(order, true, missed, Wire(no), |payload.regular|)
      + if order == 0 then Timing(tick, offset) else []
    case Confirm(order, no, missed) => Control(order, false, missed, Wire(no), 0)
  }

  /** What getControlData leaves in the data_says_... fields and in `bytes`. */
  datatype Says = Says(order: nat, sending: bool, missed: bool, no: uint32, regular: nat, bytes: nat)

  function GetControlData(buffer: seq<Byte>, sender: nat): (r: Option<Says>)
    ensures r.None? <==> |buffer| < Trailer(sender)
    ensures r.Some? ==> r.value.bytes == |buffer| - Trailer(sender)
  {
    if |buffer| < Trailer(sender) then None
    else
      var bytes := |buffer| - Trailer(sender);
      var c := buffer[bytes..bytes + CONTROL_BYTES];
      FromBigEndianBound(c[4..8]);
      Pow256Values();
      Some(Says(FromBigEndian(c[..2]), c[2] != 0, c[3] != 0, FromBigEndian(c[4..8]), FromBigEndian(c[8..]), bytes))
  }

  lemma ControlRoundTrip(order: nat, sending: bool, missed: bool, no: uint32, regular: nat)
    requires order < 0x1_0000 && regular < 0x1_0000
    ensures var c := Control(order, sending, missed, no, regular);
            && FromBigEndian(c[..2]) == order && (c[2] != 0) == sending && (c[3] != 0) == missed
            && FromBigEndian(c[4..8]) == no && FromBigEndian(c[8..]) == regular
  {
    Pow256Values();
    BigEndianRoundTrip(order, 2);
    BigEndianRoundTrip(no, 4);
    BigEndianRoundTrip(regular, 2);
    var c := Control(order, sending, missed, no, regular);
    assert c[..2] == BigEndian(order, 2);
    assert c[4..8] == BigEndian(no, 4);
    assert c[8..] == BigEndian(regular, 2);
  }

  /** Decoding a sent packet, on any node, yields what the sender put in: its number as stored by
      the sender, and the split of the payload into regular and bulk bytes. */
  lemma PacketRoundTrip(p: Packet, tick: uint32, offset: uint32)
    requires Encodable(p) && (p.Confirm? ==> p.sender > 0)
    ensures var buffer := Encode(p, tick, offset);
            var says := GetControlData(buffer, p.sender);
            && says.Some?
            && says.value.order == p.sender && says.value.sending == p.Data?
            && says.value.missed == p.missed && says.value.no == Wire(p.no)
            && (p.Data? ==> says.value.regular == |p.payload.regular| <= says.value.bytes)
            && (p.Data? ==> buffer[..says.value.regular] == p.payload.regular)
            && (p.Data? ==> buffer[says.value.regular..says.value.bytes] == p.payload.fill)
  {
    hide Control, Timing, BigEndian, FromBigEndian, Wire, Pow256;
    var buffer := Encode(p, tick, offset);
    var regular := if p.Data? then |p.payload.regular| else 0;
    var body := if p.Data? then p.payload.regular + p.payload.fill else [];
    var control := Control(p.sender, p.Data?, p.missed, Wire(p.no), regular);
    var timing := if p.sender == 0 then Timing(tick, offset) else [];
    assert buffer == body + control + timing;
    ThreeParts(body, control, timing);
    ControlRoundTrip(p.sender, p.Data?, p.missed, Wire(p.no), regular);
    if p.Data? {
      TwoParts(p.payload.regular, p.payload.fill, control + timing);
      assert buffer == p.payload.regular + p.payload.fill + (control + timing);
    }
  }

  lemma ThreeParts(a: seq<Byte>, b: seq<Byte>, c: seq<Byte>)
    ensures (a + b + c)[|a|..|a| + |b|] == b
  {}

  lemma TwoParts(a: seq<Byte>, b: seq<Byte>, c: seq<Byte>)
    ensures (a + b + c)[..|a|] == a && (a + b + c)[|a|..|a| + |b|] == b
  {}

  // ---------- The bytes, one by one

  /** Where the control information has which byte. */
  lemma ControlLayout(order: nat, sending: bool, missed: bool, no: uint32, regular: nat)
    ensures var c := Control(order, sending, missed, no, regular);
            && c[0] == order / 0x100 % 0x100 && c[1] == order % 0x100
            && c[2] == (if sending then 0xff else 0) && c[3] == (if missed then 0xff else 0)
            && c[4] == no / 0x100_0000 % 0x100 && c[5] == no / 0x1_0000 % 0x100 && c[6] == no / 0x100 % 0x100 && c[7] == no % 0x100
            && c[8] == regular / 0x100 % 0x100 && c[9] == regular % 0x100
  {
    hide BigEndian;
    WordLayout(order);
    WordLayout(no);
    WordLayout(regular);
  }

  /** The master's time, and how far the tick was gone, in microseconds. */
  datatype MasterTime = MasterTime(tick: uint32, offset: int)

  /** What getControlData reads behind the control information of a packet of the master. */
  function GetTiming(buffer: seq<Byte>): Option<MasterTime> {
    if |buffer| < Trailer(0) then None
    else
      var t := buffer[|buffer| - TIMING_BYTES..];
      FromBigEndianBound(t[..4]);
      FromBigEndianBound(t[4..]);
      Pow256Values();
      Some(MasterTime(FromBigEndian(t[..4]), Signed(FromBigEndian(t[4..]))))
  }

  /** The bits of an int32_t. */
  function Unsigned(x: int): uint32
    requires -TWO31 <= x < TWO31
  {
    if x < 0 then x + TWO32 else x
  }

  /** Followers get the tick and the offset that the master put in, also an offset below zero. */
  lemma TimingRoundTrip(p: Packet, tick: uint32, offset: int)
    requires p.Data? && p.sender == 0 && -TWO31 <= offset < TWO31
    ensures GetTiming(Encode(p, tick, Unsigned(offset))) == Some(MasterTime(tick, offset))
  {
    hide Control, BigEndian, FromBigEndian, Wire, Pow256;
    var buffer := Encode(p, tick, Unsigned(offset));
    var t := BigEndian(tick, 4) + BigEndian(Unsigned(offset), 4);
    assert buffer[|buffer| - TIMING_BYTES..] == t;
    assert t[..4] == BigEndian(tick, 4) && t[4..] == BigEndian(Unsigned(offset), 4);
    Pow256Values();
    BigEndianRoundTrip(tick, 4);
    BigEndianRoundTrip(Unsigned(offset), 4);
  }

  /** The tick comes before the offset. */
  lemma TimingLayout(tick: uint32, offset: uint32)
    ensures var t := Timing(tick, offset);
            && t[0] == tick / 0x100_0000 % 0x100 && t[1] == tick / 0x1_0000 % 0x100 && t[2] == tick / 0x100 % 0x100
            && t[3] == tick % 0x100 && t[4] == offset / 0x100_0000 % 0x100 && t[5] == offset / 0x1_0000 % 0x100
            && t[6] == offset / 0x100 % 0x100 && t[7] == offset % 0x100
  {
    hide BigEndian;
    WordLayout(tick);
    WordLayout(offset);
  }
}
