/** Bulk data from one packer to one unpacker, as values: two alternating stores cut into slices
    on one side, a receive buffer that is only emptied as a whole on the other. */
module FillTransfer {
  import opened Bytes
  import opened FillFraming

  const MIN_FILL: nat := 32

  // ---------- The sender

  datatype Packer = Packer(
    capacity: nat,
    fill: seq<Byte>,      // contents of store[store_to_fill]
    choked: bool,         // its choked flag
    send: seq<Byte>,      // contents of store[store_to_send]
    index: nat,           // index_to_send
    left: nat,            // bytes_to_send
    queue: seq<Obj>,      // work_queue
    dropped: seq<Obj>)    // objects thrown out as too large

  function StartPacker(capacity: nat): Packer {
    Packer(capacity, [], false, [], 0, 0, [], [])
  }

  /** Pack waiting objects until one does not fit; then the store is choked, and an object that
      does not even fit an empty store is thrown out. */
  function PackWork(p: Packer): Packer
    decreases |p.queue|
  {
    if p.queue == [] || p.choked then p
    else
      var frame := Frame(p.queue[0]);
      if |p.fill| + |frame| <= p.capacity then
        PackWork(p.(fill := p.fill + frame, queue := p.queue[1..]))
      else if p.fill == [] then
        p.(choked := true, queue := p.queue[1..], dropped := p.dropped + [p.queue[0]])
      else p.(choked := true)
  }

  /** Turn to the other store when everything was sent and there is something in it. */
  function SwapStores(p: Packer): Packer {
    if p.left == 0 && p.fill != [] then
      p.(send := p.fill, index := 0, left := |p.fill|, fill := [], choked := false)
    else p
  }

  function Slice(p: Packer, size: nat): (r: (Packer, seq<Byte>))
    requires p.index + p.left <= |p.send|
    ensures |r.1| <= size
  {
    if p.left == 0 || size < MIN_FILL then (p, [])
    else
      var n := if size < p.left then size else p.left;
      (p.(index := p.index + n, left := p.left - n), p.send[p.index..p.index + n])
  }

  ghost predicate PackerShaped(p: Packer) {
    p.index + p.left <= |p.send| && |p.fill| <= p.capacity
  }

  lemma {:induction false} PackWorkShape(p: Packer)
    requires PackerShaped(p)
    ensures var q := PackWork(p);
            PackerShaped(q) && q.send == p.send && q.index == p.index && q.left == p.left && q.capacity == p.capacity
    decreases |p.queue|
  {
    if p.queue != [] && !p.choked && |p.fill| + |Frame(p.queue[0])| <= p.capacity {
      PackWorkShape(p.(fill := p.fill + Frame(p.queue[0]), queue := p.queue[1..]));
    }
  }

  function StuffMessage(p: Packer, size: nat): (r: (Packer, seq<Byte>))
    requires PackerShaped(p)
    ensures PackerShaped(r.0) && |r.1| <= size
  {
    PackWorkShape(p);
    Slice(SwapStores(PackWork(p)), size)
  }

  datatype Op = Enqueue(obj: Obj) | Work | Stuff(size: nat)

  /** The packer and all slices it handed out, one per message, after a series of calls. */
  function Run(capacity: nat, ops: seq<Op>): (r: (Packer, seq<seq<Byte>>))
    ensures PackerShaped(r.0)
  {
    if ops == [] then (StartPacker(capacity), [])
    else
      var (p, slices) := Run(capacity, ops[..|ops| - 1]);
      match ops[|ops| - 1]
      case Enqueue(obj) => (p.(queue := p.queue + [obj]), slices)
      case Work => PackWorkShape(p); (PackWork(p), slices)
      case Stuff(size) =>
        var (q, slice) := StuffMessage(p, size);
        (q, slices + [slice])
  }

  function Enqueued(ops: seq<Op>): seq<Obj> {
    if ops == [] then []
    else
      var before := Enqueued(ops[..|ops| - 1]);
      match ops[|ops| - 1]
      case Enqueue(obj) => before + [obj]
      case _ => before
  }

  function Concat(slices: seq<seq<Byte>>): seq<Byte> {
    if slices == [] then [] else Concat(slices[..|slices| - 1]) + slices[|slices| - 1]
  }

  // ---------- The receiver

  datatype Unpacker = Unpacker(
    size: nat,              // buffer_size
    data: seq<Byte>,        // the filled part of the buffer
    index: nat,             // where the next unpacking starts
    delivered: seq<Obj>,    // objects passed on, in order
    overflow: bool)         // a slice did not fit

  function StartUnpacker(size: nat): Unpacker {
    Unpacker(size, [], 0, [], false)
  }

  ghost predicate UnpackerShaped(u: Unpacker) {
    u.index <= |u.data| <= u.size
  }

  /** Append a slice, take every complete object, and empty the buffer when nothing is left. */
  function Despatch(u: Unpacker, slice: seq<Byte>): (r: Unpacker)
    requires UnpackerShaped(u)
    ensures UnpackerShaped(r) && r.size == u.size
  {
    if u.overflow || |u.data| + |slice| > u.size then u.(overflow := true)
    else
      var data := u.data + slice;
      var (os, used) := Parse(data[u.index..]);
      var delivered := u.delivered + os;
      if u.index + used == |data| then u.(data := [], index := 0, delivered := delivered)
      else u.(data := data, index := u.index + used, delivered := delivered)
  }

  /** The accessor passes on only messages that contain bulk bytes. */
  function Feed(size: nat, slices: seq<seq<Byte>>): (u: Unpacker)
    ensures UnpackerShaped(u) && u.size == size
  {
    if slices == [] then StartUnpacker(size)
    else
      var before := Feed(size, slices[..|slices| - 1]);
      var slice := slices[|slices| - 1];
      if slice == [] then before else Despatch(before, slice)
  }

  // ---------- What the packer's stores hold

  /** The objects that can be sent: those before the first one too large for a store. */
  function Sendable(os: seq<Obj>, capacity: nat): (r: seq<Obj>)
    ensures r <= os
  {
    if os == [] || |Frame(os[0])| > capacity then [] else [os[0]] + Sendable(os[1..], capacity)
  }

  /** Which objects are in which store: all sent, in the store being sent, in the one being filled. */
  datatype Book = Book(done: seq<Obj>, sending: seq<Obj>, filling: seq<Obj>) {
    function Packed(): seq<Obj> { done + sending + filling }
  }

  ghost predicate Booked(p: Packer, b: Book, all: seq<Obj>, sent: seq<Byte>) {
    && PackerShaped(p) && |p.send| <= p.capacity
    && p.fill == Frames(b.filling) && p.send == Frames(b.sending)
    && p.index + p.left == |p.send|
    && sent == Frames(b.done) + p.send[..p.index]
    && b.Packed() + p.dropped + p.queue == all
    && (forall o | o in b.Packed() :: |Frame(o)| <= p.capacity)
    && (p.dropped == [] || (|p.dropped| == 1 && |Frame(p.dropped[0])| > p.capacity))
    && (p.dropped != [] <==> p.choked && p.fill == [])
  }

  lemma PackOneBooked(p: Packer, b: Book, all: seq<Obj>, sent: seq<Byte>)
    requires Booked(p, b, all, sent) && p.queue != [] && !p.choked
    requires |p.fill| + |Frame(p.queue[0])| <= p.capacity
    ensures Booked(p.(fill := p.fill + Frame(p.queue[0]), queue := p.queue[1..]),
                   b.(filling := b.filling + [p.queue[0]]), all, sent)
  {
    var o := p.queue[0];
    var next := b.(filling := b.filling + [o]);
    FramesConcat(b.filling, [o]);
    assert Frames([o]) == Frame(o) + Frames([]);
    assert next.Packed() == b.Packed() + [o];
    assert b.Packed() + p.dropped + p.queue == b.Packed() + ([o] + p.queue[1..]);
    assert next.Packed() + p.dropped + p.queue[1..] == b.Packed() + ([o] + p.queue[1..]);
  }

  lemma {:induction false} PackWorkBooked(p: Packer, b: Book, all: seq<Obj>, sent: seq<Byte>) returns (c: Book)
    requires Booked(p, b, all, sent)
    ensures Booked(PackWork(p), c, all, sent) && c.done == b.done && c.sending == b.sending
    decreases |p.queue|
  {
    c := b;
    if p.queue != [] && !p.choked {
      var o := p.queue[0];
      if |p.fill| + |Frame(o)| <= p.capacity {
        PackOneBooked(p, b, all, sent);
        c := PackWorkBooked(p.(fill := p.fill + Frame(o), queue := p.queue[1..]),
                            b.(filling := b.filling + [o]), all, sent);
      } else if p.fill == [] {
        assert p.queue == [o] + p.queue[1..];
        assert b.Packed() + [o] + p.queue[1..] == b.Packed() + ([o] + p.queue[1..]);
      }
    }
  }

  lemma SwapBooked(p: Packer, b: Book, all: seq<Obj>, sent: seq<Byte>) returns (c: Book)
    requires Booked(p, b, all, sent)
    ensures Booked(SwapStores(p), c, all, sent)
    ensures SwapStores(p) == p ==> c == b
    ensures SwapStores(p) != p ==> c == Book(b.done + b.sending, b.filling, []) && p.left == 0
  {
    c := b;
    if p.left == 0 && p.fill != [] {
      c := Book(b.done + b.sending, b.filling, []);
      FramesConcat(b.done, b.sending);
      assert p.send[..p.index] == p.send;
      assert c.Packed() == b.Packed();
      assert SwapStores(p).send[..0] == [];
    }
  }

  lemma SliceBooked(p: Packer, b: Book, all: seq<Obj>, sent: seq<Byte>, size: nat)
    requires Booked(p, b, all, sent)
    ensures Booked(Slice(p, size).0, b, all, sent + Slice(p, size).1)
  {
    var (q, slice) := Slice(p, size);
    hide Frames, Booked, Slice;
    SendingBooked(p, b, all, sent);
    SliceMoves(p, size);
    Extend(Frames(b.done), p.send, p.index, q.index);
    FurtherBooked(p, q, b, all, sent, sent + slice);
  }

  lemma SliceMoves(p: Packer, size: nat)
    requires p.index + p.left == |p.send|
    ensures var q, slice := Slice(p, size).0, Slice(p, size).1;
            && q == p.(index := q.index, left := q.left) && p.index <= q.index && q.index + q.left == |q.send|
            && slice == p.send[p.index..q.index]
  {}

  lemma SendingBooked(p: Packer, b: Book, all: seq<Obj>, sent: seq<Byte>)
    requires Booked(p, b, all, sent)
    ensures p.index + p.left == |p.send| && sent == Frames(b.done) + p.send[..p.index]
  {}

  /** Only the place in the store that is sent has changed. */
  lemma FurtherBooked(p: Packer, q: Packer, b: Book, all: seq<Obj>, sent: seq<Byte>, sent': seq<Byte>)
    requires Booked(p, b, all, sent) && q == p.(index := q.index, left := q.left)
    requires q.index + q.left == |q.send| && sent' == Frames(b.done) + q.send[..q.index]
    ensures Booked(q, b, all, sent')
  {
    hide Frames, Frame;
  }

  lemma Extend(done: seq<Byte>, send: seq<Byte>, i: nat, j: nat)
    requires i <= j <= |send|
    ensures done + send[..i] + send[i..j] == done + send[..j]
    ensures done + send[..i] + [] == done + send[..i]
  {
    assert send[..i] + send[i..j] == send[..j];
  }

  // ---------- What the unpacker holds, when every object has at least 2 bytes of data

  ghost predicate Synced(u: Unpacker, p: Packer, b: Book) {
    && UnpackerShaped(u) && !u.overflow && u.size >= p.capacity
    && |u.data| <= p.index <= |p.send|
    && var k := WholeFrames(b.sending, p.index);
    && u.delivered == b.done + b.sending[..k]
    && u.data == p.send[p.index - |u.data|..p.index]
    && p.index - |u.data| + u.index == |Frames(b.sending[..k])|
    && (u.index == |u.data| ==> u.data == [])
  }

  lemma SwapSynced(u: Unpacker, p: Packer, b: Book, all: seq<Obj>, sent: seq<Byte>, c: Book)
    requires Booked(p, b, all, sent) && Synced(u, p, b)
    requires if SwapStores(p) == p then c == b else c == Book(b.done + b.sending, b.filling, []) && p.left == 0
    ensures Synced(u, SwapStores(p), c)
  {
    if SwapStores(p) != p {
      WholeFramesAll(b.sending);
      assert b.sending[..|b.sending|] == b.sending;
      assert c.sending[..0] == [];
      WholeFramesMaximal(c.sending, 0);
      assert WholeFrames(c.sending, 0) == 0;
      assert c.done + [] == c.done;
    }
  }

  /** A slice is unpacked into exactly the objects it completes; the receive buffer never holds
      more than the part of one store behind the last emptying. */
  lemma SliceSynced(u: Unpacker, p: Packer, b: Book, all: seq<Obj>, sent: seq<Byte>, size: nat)
    requires Booked(p, b, all, sent) && Synced(u, p, b) && AllPackable(all) && Substantial(all)
    requires Slice(p, size).1 != []
    ensures Synced(Despatch(u, Slice(p, size).1), Slice(p, size).0, b)
  {
    hide Frames, WholeFrames, Parse, Despatch;
    AmongAll(b, p, all);
    var q := Slice(p, size).0;
    var k, l := WholeFrames(b.sending, p.index), WholeFrames(b.sending, q.index);
    UnpackSlice(u, p.send, p.index, q.index, b.sending);
    JoinObjects(b.done, b.sending, k, l);
    assert Despatch(u, p.send[p.index..q.index]).delivered == b.done + b.sending[..l];
  }

  /** The next bytes of a store, appended behind the last emptying. */
  lemma UnpackSlice(u: Unpacker, send: seq<Byte>, i: nat, j: nat, os: seq<Obj>)
    requires AllPackable(os) && Substantial(os) && send == Frames(os)
    requires |u.data| <= i <= j <= |send| <= u.size && UnpackerShaped(u) && !u.overflow
    requires u.data == send[i - |u.data|..i]
    requires i - |u.data| + u.index == |Frames(os[..WholeFrames(os, i)])|
    ensures var r, k, l := Despatch(u, send[i..j]), WholeFrames(os, i), WholeFrames(os, j);
            && k <= l && !r.overflow && r.delivered == u.delivered + os[k..l]
            && |r.data| <= j && r.data == send[j - |r.data|..j]
            && j - |r.data| + r.index == |Frames(os[..l])|
            && (r.index == |r.data| ==> r.data == [])
  {
    hide Frames, WholeFrames, Parse, Despatch;
    ParseResume(os, i, send[..j]);
    var k, l := WholeFrames(os, i), WholeFrames(os, j);
    assert |send[..j]| == j;
    AppendSlice(u, send, i, j, os[k..l], |Frames(os[..k])|, |Frames(os[..l])|);
  }

  lemma AppendSlice(u: Unpacker, send: seq<Byte>, i: nat, j: nat, taken: seq<Obj>, from: nat, to: nat)
    requires |u.data| <= i <= j <= |send| <= u.size && UnpackerShaped(u) && !u.overflow
    requires u.data == send[i - |u.data|..i] && i - |u.data| + u.index == from
    requires from <= to <= j && Parse(send[..j][from..]) == (taken, to - from)
    ensures var r := Despatch(u, send[i..j]);
            && !r.overflow && r.delivered == u.delivered + taken
            && |r.data| <= j && r.data == send[j - |r.data|..j]
            && j - |r.data| + r.index == to
            && (r.index == |r.data| ==> r.data == [])
  {
    hide Parse, Despatch;
    var base := i - |u.data|;
    JoinSlices(send, base, i, j, u.index);
    var data := u.data + send[i..j];
    assert data == send[base..j];
    assert data[u.index..] == send[..j][from..];
    DespatchIs(u, send[i..j], taken, to - from);
    var r := Despatch(u, send[i..j]);
    if r.data == [] {
      assert send[j..j] == [];
    } else {
      assert r.data == data;
    }
  }

  lemma DespatchIs(u: Unpacker, slice: seq<Byte>, os: seq<Obj>, used: nat)
    requires UnpackerShaped(u) && !u.overflow && |u.data| + |slice| <= u.size
    requires Parse((u.data + slice)[u.index..]) == (os, used)
    ensures var r := Despatch(u, slice);
            && !r.overflow && r.delivered == u.delivered + os
            && (u.index + used == |u.data| + |slice| ==> r.data == [] && r.index == 0)
            && (u.index + used != |u.data| + |slice| ==> r.data == u.data + slice && r.index == u.index + used)
  {}

  lemma JoinSlices(send: seq<Byte>, base: nat, i: nat, j: nat, x: nat)
    requires base <= i <= j <= |send| && base + x <= i
    ensures send[base..i] + send[i..j] == send[base..j]
    ensures send[base..j][x..] == send[..j][base + x..]
  {}

  lemma JoinObjects(done: seq<Obj>, os: seq<Obj>, k: nat, j: nat)
    requires k <= j <= |os|
    ensures done + os[..k] + os[k..j] == done + os[..j]
  {
    assert os[..k] + os[k..j] == os[..j];
  }

  lemma AmongAll(b: Book, p: Packer, all: seq<Obj>)
    requires b.Packed() + p.dropped + p.queue == all && AllPackable(all) && Substantial(all)
    ensures AllPackable(b.sending) && Substantial(b.sending)
  {
    forall o | o in b.sending
      ensures o in all
    {
      assert o in b.done + b.sending;
      assert o in b.Packed();
      assert o in b.Packed() + p.dropped;
    }
  }

  // ---------- Whole runs

  lemma StuffBooked(p: Packer, b: Book, all: seq<Obj>, sent: seq<Byte>, size: nat) returns (c: Book)
    requires Booked(p, b, all, sent)
    ensures Booked(StuffMessage(p, size).0, c, all, sent + StuffMessage(p, size).1)
    ensures forall u | Synced(u, p, b) && AllPackable(all) && Substantial(all) ::
              Synced(if StuffMessage(p, size).1 == [] then u else Despatch(u, StuffMessage(p, size).1),
                     StuffMessage(p, size).0, c)
  {
    hide Frames, WholeFrames, Parse, Despatch, PackWork, Substantial, AllPackable;
    PackWorkShape(p);
    var packed := PackWorkBooked(p, b, all, sent);
    c := SwapBooked(PackWork(p), packed, all, sent);
    SliceBooked(SwapStores(PackWork(p)), c, all, sent, size);
    forall u | Synced(u, p, b) && AllPackable(all) && Substantial(all)
      ensures Synced(if StuffMessage(p, size).1 == [] then u else Despatch(u, StuffMessage(p, size).1),
                     StuffMessage(p, size).0, c)
    {
      SwapSynced(u, PackWork(p), packed, all, sent, c);
      if StuffMessage(p, size).1 != [] {
        SliceSynced(u, SwapStores(PackWork(p)), c, all, sent, size);
      }
    }
  }

  lemma EnqueueBooked(p: Packer, b: Book, all: seq<Obj>, sent: seq<Byte>, obj: Obj)
    requires Booked(p, b, all, sent)
    ensures Booked(p.(queue := p.queue + [obj]), b, all + [obj], sent)
  {
    hide Frames, Frame;
    assert b.Packed() + p.dropped + (p.queue + [obj]) == b.Packed() + p.dropped + p.queue + [obj];
  }

  /** The objects of an earlier part of the run satisfy what all objects satisfy. */
  lemma EarlierObjects(ops: seq<Op>)
    requires ops != [] && AllPackable(Enqueued(ops)) && Substantial(Enqueued(ops))
    ensures AllPackable(Enqueued(ops[..|ops| - 1])) && Substantial(Enqueued(ops[..|ops| - 1]))
  {
    forall o | o in Enqueued(ops[..|ops| - 1])
      ensures o in Enqueued(ops)
    {}
  }

  ghost predicate RunOk(p: Packer, u: Unpacker, b: Book, all: seq<Obj>, sent: seq<Byte>) {
    && Booked(p, b, all, sent)
    && (AllPackable(all) && Substantial(all) ==> Synced(u, p, b))
  }

  lemma {:induction false} RunBooked(capacity: nat, size: nat, ops: seq<Op>) returns (b: Book)
    requires capacity <= size
    ensures var run := Run(capacity, ops);
            RunOk(run.0, Feed(size, run.1), b, Enqueued(ops), Concat(run.1)) && run.0.capacity == capacity
  {
    hide Synced, Booked, PackWork, StuffMessage, Despatch, Slice;
    if ops == [] {
      b := Book([], [], []);
      StartOk(capacity, size);
    } else {
      var before, op := ops[..|ops| - 1], ops[|ops| - 1];
      var a := RunBooked(capacity, size, before);
      var (p, slices) := Run(capacity, before);
      if AllPackable(Enqueued(ops)) && Substantial(Enqueued(ops)) { EarlierObjects(ops); }
      b := RunStep(p, Feed(size, slices), a, Enqueued(before), Concat(slices), op);
      if op.Stuff? {
        var slice := StuffMessage(p, op.size).1;
        assert (slices + [slice])[..|slices|] == slices;
      }
    }
  }

  lemma StartOk(capacity: nat, size: nat)
    requires capacity <= size
    ensures RunOk(StartPacker(capacity), StartUnpacker(size), Book([], [], []), [], [])
  {
    var b := Book([], [], []);
    assert b.Packed() == [];
    assert WholeFrames([], 0) == 0;
  }

  lemma RunStep(p: Packer, u: Unpacker, a: Book, all: seq<Obj>, sent: seq<Byte>, op: Op) returns (b: Book)
    requires PackerShaped(p) && UnpackerShaped(u) && RunOk(p, u, a, all, sent)
    requires op.Enqueue? && AllPackable(all + [op.obj]) && Substantial(all + [op.obj]) ==> AllPackable(all) && Substantial(all)
    ensures op.Enqueue? ==> RunOk(p.(queue := p.queue + [op.obj]), u, b, all + [op.obj], sent)
    ensures op.Work? ==> RunOk(PackWork(p), u, b, all, sent) && PackWork(p).capacity == p.capacity
    ensures op.Stuff? ==>
              var q, slice := StuffMessage(p, op.size).0, StuffMessage(p, op.size).1;
              RunOk(q, if slice == [] then u else Despatch(u, slice), b, all, sent + slice) && q.capacity == p.capacity
  {
    hide Frames, WholeFrames, Parse, Despatch, PackWork;
    b := a;
    PackWorkShape(p);
    match op
    case Enqueue(obj) => EnqueueBooked(p, a, all, sent, obj);
    case Work => b := PackWorkBooked(p, a, all, sent);
    case Stuff(room) => b := StuffBooked(p, a, all, sent, room);
  }

  lemma {:induction false} SendableContains(all: seq<Obj>, capacity: nat, n: nat)
    requires n <= |all| && forall o | o in all[..n] :: |Frame(o)| <= capacity
    ensures n <= |Sendable(all, capacity)| && Sendable(all, capacity)[..n] == all[..n]
    ensures n < |all| && |Frame(all[n])| > capacity ==> n == |Sendable(all, capacity)|
  {
    if n > 0 {
      assert all[0] in all[..n];
      assert all[1..][..n - 1] == all[1..n];
      forall o | o in all[1..][..n - 1]
        ensures |Frame(o)| <= capacity
      {
        assert o in all[..n];
      }
      SendableContains(all[1..], capacity, n - 1);
    }
  }

  /** Only sendable objects get packed; packing stops for good behind the first oversized one. */
  lemma PackedIsSendable(p: Packer, b: Book, all: seq<Obj>, sent: seq<Byte>)
    requires Booked(p, b, all, sent)
    ensures b.Packed() <= Sendable(all, p.capacity)
    ensures p.dropped != [] || p.queue == [] ==> b.Packed() == Sendable(all, p.capacity)
  {
    var packed := b.Packed();
    assert all == packed + (p.dropped + p.queue);
    assert all[..|packed|] == packed;
    SendableContains(all, p.capacity, |packed|);
    if p.dropped != [] {
      assert all[|packed|] == p.dropped[0];
    }
  }

  /** Sent, unsent in the one store and waiting in the other: together all that was packed. */
  lemma StoresHoldPacked(p: Packer, b: Book, all: seq<Obj>, sent: seq<Byte>)
    requires Booked(p, b, all, sent)
    ensures sent + p.send[p.index..] + p.fill == Frames(b.Packed())
  {
    hide Frames;
    FramesConcat(b.done + b.sending, b.filling);
    FramesConcat(b.done, b.sending);
    var done, i := Frames(b.done), p.index;
    assert p.send == p.send[..i] + p.send[i..];
    assert done + p.send[..i] + p.send[i..] == done + p.send;
  }

  /** What is packed, thrown out or still waiting is everything that was offered, in order; what
      was sent is the beginning of the framed sendable objects. */
  lemma Conservation(capacity: nat, ops: seq<Op>) returns (b: Book)
    ensures var p, slices := Run(capacity, ops).0, Run(capacity, ops).1;
            var all, good := Enqueued(ops), Sendable(Enqueued(ops), capacity);
            && b.Packed() + p.dropped + p.queue == all && b.Packed() <= good
            && (p.dropped == [] || (|p.dropped| == 1 && |Frame(p.dropped[0])| > capacity))
            && Concat(slices) + p.send[p.index..] + p.fill == Frames(b.Packed())
            && Concat(slices) <= Frames(good)
  {
    hide Run, Frames, Concat, Enqueued, Sendable;
    b := RunBooked(capacity, capacity, ops);
    var (p, slices) := Run(capacity, ops);
    var good := Sendable(Enqueued(ops), capacity);
    PackedIsSendable(p, b, Enqueued(ops), Concat(slices));
    StoresHoldPacked(p, b, Enqueued(ops), Concat(slices));
    SplitFrames(good, |b.Packed()|);
    assert good[..|b.Packed()|] == b.Packed();
    StartOf(Concat(slices), p.send[p.index..], p.fill, Frames(b.Packed()), Frames(good[|b.Packed()|..]));
  }

  lemma StartOf(x: seq<Byte>, y: seq<Byte>, z: seq<Byte>, packed: seq<Byte>, more: seq<Byte>)
    requires x + y + z == packed
    ensures x <= packed + more
  {
    assert packed + more == x + (y + z + more);
  }

  /** The bulk round trip: for every series of offered objects with at least 2 bytes of data, and
      every series of slice sizes, the unpacker has delivered, in order and each once, exactly the
      sendable objects whose last byte has arrived, and its buffer, at least as large as the
      sender's stores, never overflowed. */
  lemma BulkRoundTrip(capacity: nat, size: nat, ops: seq<Op>)
    requires capacity <= size
    requires AllPackable(Enqueued(ops)) && Substantial(Enqueued(ops))
    ensures var slices := Run(capacity, ops).1;
            var u, good := Feed(size, slices), Sendable(Enqueued(ops), capacity);
            && !u.overflow && |u.data| <= capacity
            && u.delivered == good[..WholeFrames(good, |Concat(slices)|)]
  {
    hide Run, Frames, WholeFrames, Feed;
    var b := RunBooked(capacity, size, ops);
    var (p, slices) := Run(capacity, ops);
    var good := Sendable(Enqueued(ops), capacity);
    PackedIsSendable(p, b, Enqueued(ops), Concat(slices));
    DeliveredCount(good, b, p.index);
  }

  lemma DeliveredCount(good: seq<Obj>, b: Book, index: nat)
    requires b.Packed() <= good && index <= |Frames(b.sending)|
    ensures var k := WholeFrames(b.sending, index);
            b.done + b.sending[..k] == good[..WholeFrames(good, |Frames(b.done)| + index)]
  {
    hide Frames, WholeFrames;
    var n, k := |b.done|, WholeFrames(b.sending, index);
    var rest := good[n + |b.sending|..];
    assert good[..n] == b.done;
    assert good[n..] == b.sending + rest;
    WholeFramesSplit(good, n, |Frames(b.done)| + index);
    WholeFramesInside(b.sending, rest, index);
    assert good[..n + k] == b.done + b.sending[..k];
  }

  /** A call with room for the smallest slice comes back empty only when every sendable object has
      been sent. */
  lemma EmptyOnlyWhenDone(capacity: nat, ops: seq<Op>, room: nat)
    requires room >= MIN_FILL && StuffMessage(Run(capacity, ops).0, room).1 == []
    ensures Concat(Run(capacity, ops).1) == Frames(Sendable(Enqueued(ops), capacity))
  {
    hide Run, Frames, PackWork, Concat, Enqueued, Sendable;
    var (p, slices) := Run(capacity, ops);
    var a := RunBooked(capacity, capacity, ops);
    PackWorkShape(p);
    var b := PackWorkBooked(p, a, Enqueued(ops), Concat(slices));
    var q := PackWork(p);
    PackWorkStops(p);
    assert q.left == 0 && q.fill == [];
    PackedIsSendable(q, b, Enqueued(ops), Concat(slices));
    StoresHoldPacked(q, b, Enqueued(ops), Concat(slices));
    assert Concat(slices) + [] + [] == Concat(slices);
  }

  lemma {:induction false} PackWorkStops(p: Packer)
    ensures PackWork(p).queue == [] || PackWork(p).choked
    decreases |p.queue|
  {
    if p.queue != [] && !p.choked && |p.fill| + |Frame(p.queue[0])| <= p.capacity {
      PackWorkStops(p.(fill := p.fill + Frame(p.queue[0]), queue := p.queue[1..]));
    }
  }

  // ---------- Safety for objects of any size and any slicing

  /** The unpacker's books: the frames of what it delivered, then the bytes it still holds, are the
      bytes received. */
  ghost predicate Accounted(u: Unpacker, all: seq<Obj>, received: seq<Byte>) {
    && UnpackerShaped(u) && u.delivered <= all
    && received == Frames(u.delivered) + u.data[u.index..]
  }

  lemma DespatchSafe(u: Unpacker, all: seq<Obj>, received: seq<Byte>, slice: seq<Byte>)
    requires AllPackable(all) && Accounted(u, all, received) && received + slice <= Frames(all)
    requires !Despatch(u, slice).overflow
    ensures Accounted(Despatch(u, slice), all, received + slice)
  {
    hide Frames, Parse, Despatch;
    var k, held := |u.delivered|, u.data[u.index..];
    var tail := held + slice;
    assert all[..k] == u.delivered;
    Regroup(Frames(u.delivered), held, slice);
    TailOfPrefix(all, k, received + slice);
    InsideTail(all, k);
    var j := ParseIsPrefix(all[k..], tail);
    var os := all[k..][..j];
    SplitFrames(all[k..], j);
    Regroup(Frames(u.delivered), Frames(os), tail[|Frames(os)|..]);
    assert tail == Frames(os) + tail[|Frames(os)|..];
    FramesConcat(u.delivered, os);
    assert u.delivered + os == all[..k + j];
    DespatchKeeps(u, slice, os, |Frames(os)|);
  }

  lemma Regroup(x: seq<Byte>, y: seq<Byte>, z: seq<Byte>)
    ensures x + y + z == x + (y + z) && (x + y + z)[|x|..] == y + z
  {
    assert x + y + z == x + (y + z);
  }

  lemma DespatchKeeps(u: Unpacker, slice: seq<Byte>, os: seq<Obj>, used: nat)
    requires UnpackerShaped(u) && !Despatch(u, slice).overflow
    requires Parse(u.data[u.index..] + slice) == (os, used)
    ensures used <= |u.data[u.index..] + slice|
    ensures var r := Despatch(u, slice);
            r.delivered == u.delivered + os && r.data[r.index..] == (u.data[u.index..] + slice)[used..]
  {
    hide Parse;
    var data := u.data + slice;
    assert data[u.index..] == u.data[u.index..] + slice;
    assert data[u.index + used..] == data[u.index..][used..];
  }

  lemma {:induction false} FeedAccounted(size: nat, slices: seq<seq<Byte>>, all: seq<Obj>)
    requires AllPackable(all) && Concat(slices) <= Frames(all) && !Feed(size, slices).overflow
    ensures Accounted(Feed(size, slices), all, Concat(slices))
  {
    if slices == [] {
      assert Frames([]) + [] == [];
    } else {
      var before, slice := slices[..|slices| - 1], slices[|slices| - 1];
      assert Concat(before) <= Concat(slices);
      FeedAccounted(size, before, all);
      if slice != [] {
        DespatchSafe(Feed(size, before), all, Concat(before), slice);
      } else {
        assert Concat(before) + [] == Concat(before);
      }
    }
  }

  /** Whatever the sizes of the objects, whatever the slices: as long as the buffer did not
      overflow, the delivered objects are the first offered ones, in order, each once. */
  lemma DeliveryIsPrefix(capacity: nat, size: nat, ops: seq<Op>, n: nat)
    requires AllPackable(Enqueued(ops)) && n <= |Run(capacity, ops).1|
    ensures var u := Feed(size, Run(capacity, ops).1[..n]);
            !u.overflow ==> u.delivered <= Enqueued(ops)
  {
    hide Run, Frames, Enqueued, Sendable, Feed;
    var slices := Run(capacity, ops).1;
    var u := Feed(size, slices[..n]);
    if !u.overflow {
      var all := Enqueued(ops);
      var b := Conservation(capacity, ops);
      SendableIsPrefix(all, capacity);
      SplitFrames(all, |Sendable(all, capacity)|);
      assert all[..|Sendable(all, capacity)|] == Sendable(all, capacity);
      ConcatPrefix(slices, n);
      FeedAccounted(size, slices[..n], all);
    }
  }

  lemma SendableIsPrefix(all: seq<Obj>, capacity: nat)
    ensures Sendable(all, capacity) <= all
  {}

  lemma {:induction false} ConcatPrefix(slices: seq<seq<Byte>>, n: nat)
    requires n <= |slices|
    ensures Concat(slices[..n]) <= Concat(slices)
    decreases |slices| - n
  {
    if n < |slices| {
      ConcatPrefix(slices, n + 1);
      assert slices[..n + 1][..n] == slices[..n];
    } else {
      assert slices[..n] == slices;
    }
  }

  /** An object with fewer than 2 bytes of data at the end of a store keeps the buffer from being
      emptied, so the bound fails: the next store finds the old one still in the buffer. */
  lemma TinyObjectKeepsBuffer(os: seq<Obj>, o: Obj, size: nat)
    requires AllPackable(os + [o]) && |Frames(os + [o])| <= size
    ensures var u := Despatch(StartUnpacker(size), Frames(os + [o]));
            u.data == (if |o.payload| >= 2 then [] else Frames(os + [o]))
    ensures forall next | |o.payload| < 2 && |Frames(os + [o])| + |next| > size ::
              Despatch(Despatch(StartUnpacker(size), Frames(os + [o])), next).overflow
  {
    var all := os + [o];
    var s := Frames(all);
    ParseAllExact(all);
    assert [] + s == s && s[0..] == s;
    FramesConcat(os, [o]);
  }
}
