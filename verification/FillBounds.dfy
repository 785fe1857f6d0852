/** How large the receive buffer must be: as large as a store, when no store ends with a tiny object; and
    no size is enough when all of them do. */
module FillBounds {
  import opened Bytes
  import opened FillFraming
  import opened FillTransfer

  /** A store of framed objects that the parser takes to the last byte. */
  ghost predicate EndsWell(store: seq<Byte>) {
    exists os :: WellFramed(os, store)
  }

  ghost predicate WellFramed(os: seq<Obj>, store: seq<Byte>) {
    AllPackable(os) && store == Frames(os) && (os != [] ==> |os[|os| - 1].payload| >= 2)
  }

  /** Every store that is sent in the run ends with an object of at least 2 bytes of data. */
  ghost predicate AllEndWell(capacity: nat, ops: seq<Op>) {
    forall n | 0 <= n <= |ops| :: EndsWell(Run(capacity, ops[..n]).0.send)
  }

  /** The unpacker took the first k objects of the store under way, and holds the bytes received since its
      buffer was emptied last. */
  ghost predicate Caught(u: Unpacker, p: Packer, b: Book, k: nat) {
    && UnpackerShaped(u) && !u.overflow && u.size >= p.capacity
    && |u.data| <= p.index <= |p.send| && k <= |b.sending|
    && u.delivered == b.done + b.sending[..k]
    && u.data == p.send[p.index - |u.data|..p.index]
    && p.index - |u.data| + u.index == |Frames(b.sending[..k])|
    && (u.index == |u.data| ==> u.data == [])
    && (p.index == |p.send| && EndsWell(p.send) ==> k == |b.sending|)
  }

  lemma FramesHaveBytes(os: seq<Obj>)
    ensures |Frames(os)| == 0 <==> os == []
  {}

  lemma AllTaken(os: seq<Obj>, k: nat)
    requires k <= |os| && |Frames(os[..k])| == |Frames(os)|
    ensures k == |os|
  {
    hide Frames;
    SplitFrames(os, k);
    FramesHaveBytes(os[k..]);
  }

  /** A store that ends well is framed in objects of which the last one has at least 2 bytes. */
  lemma LastIsSubstantial(os: seq<Obj>)
    requires AllPackable(os) && EndsWell(Frames(os))
    ensures os != [] ==> |os[|os| - 1].payload| >= 2
  {
    hide Parse, Frames;
    var os' :| WellFramed(os', Frames(os));
    ParseAllExact(os');
    ParseAllExact(os);
  }

  /** Objects behind the first k: what the parser takes of their first bytes, and that it takes all of them
      when the last one has at least 2 bytes. */
  lemma ParseBehind(os: seq<Obj>, k: nat, s: seq<Byte>) returns (m: nat)
    requires AllPackable(os) && k <= |os| && s <= Frames(os) && |Frames(os[..k])| <= |s|
    ensures k <= m <= |os| && |Frames(os[..k])| <= |Frames(os[..m])| <= |s|
    ensures Parse(s[|Frames(os[..k])|..]) == (os[k..m], |Frames(os[..m])| - |Frames(os[..k])|)
    ensures s == Frames(os) && (os != [] ==> |os[|os| - 1].payload| >= 2) ==> m == |os|
  {
    hide Parse, Frames, Frame;
    var tail, rest := os[k..], s[|Frames(os[..k])|..];
    TailOfPrefix(os, k, s);
    InsideTail(os, k);
    var j := ParseIsPrefix(tail, rest);
    m := k + j;
    assert os[..m] == os[..k] + os[k..m] && tail[..j] == os[k..m];
    FramesConcat(os[..k], os[k..m]);
    if s == Frames(os) && (os != [] ==> |os[|os| - 1].payload| >= 2) {
      SplitFrames(os, k);
      assert rest == Frames(tail);
      ParseAllExact(tail);
      assert tail != [] ==> tail[|tail| - 1] == os[|os| - 1];
      AllTaken(tail, j);
    }
  }

  lemma SliceCaught(u: Unpacker, p: Packer, b: Book, all: seq<Obj>, sent: seq<Byte>, size: nat, k: nat) returns (m: nat)
    requires Booked(p, b, all, sent) && Caught(u, p, b, k) && AllPackable(b.sending)
    requires Slice(p, size).1 != []
    ensures Caught(Despatch(u, Slice(p, size).1), Slice(p, size).0, b, m)
  {
    hide Frames, Parse, Despatch, EndsWell;
    var q := Slice(p, size).0;
    var s := p.send[..q.index];
    m := ParseBehind(b.sending, k, s);
    AppendSlice(u, p.send, p.index, q.index, b.sending[k..m], |Frames(b.sending[..k])|, |Frames(b.sending[..m])|);
    JoinObjects(b.done, b.sending, k, m);
    if q.index == |p.send| && EndsWell(p.send) {
      assert s == p.send;
      LastIsSubstantial(b.sending);
    }
  }

  lemma SwapCaught(u: Unpacker, p: Packer, b: Book, all: seq<Obj>, sent: seq<Byte>, c: Book, k: nat) returns (m: nat)
    requires Booked(p, b, all, sent) && Caught(u, p, b, k) && EndsWell(p.send)
    requires if SwapStores(p) == p then c == b else c == Book(b.done + b.sending, b.filling, []) && p.left == 0
    ensures Caught(u, SwapStores(p), c, m)
  {
    hide EndsWell;
    m := k;
    if SwapStores(p) != p {
      m := 0;
      assert b.sending[..|b.sending|] == b.sending && c.sending[..0] == [];
      assert c.done + [] == c.done;
      assert u.data == [];
      assert c.sending != [];
    }
  }

  lemma SendingPackable(b: Book, p: Packer, all: seq<Obj>)
    requires b.Packed() + p.dropped + p.queue == all && AllPackable(all)
    ensures AllPackable(b.sending)
  {
    forall o | o in b.sending ensures o in all {
      assert o in b.done + b.sending;
      assert o in b.Packed();
      assert o in b.Packed() + p.dropped;
    }
  }

  lemma StuffCaught(u: Unpacker, p: Packer, b: Book, all: seq<Obj>, sent: seq<Byte>, size: nat, k: nat)
    returns (c: Book, m: nat)
    requires Booked(p, b, all, sent) && Caught(u, p, b, k) && AllPackable(all) && EndsWell(p.send)
    ensures var q, slice := StuffMessage(p, size).0, StuffMessage(p, size).1;
            && Booked(q, c, all, sent + slice)
            && Caught(if slice == [] then u else Despatch(u, slice), q, c, m)
  {
    hide Frames, Parse, Despatch, PackWork, EndsWell;
    PackWorkShape(p);
    var packed := PackWorkBooked(p, b, all, sent);
    c := SwapBooked(PackWork(p), packed, all, sent);
    m := SwapCaught(u, PackWork(p), packed, all, sent, c, k);
    var swapped := SwapStores(PackWork(p));
    SliceBooked(swapped, c, all, sent, size);
    SendingPackable(c, swapped, all);
    if Slice(swapped, size).1 != [] {
      m := SliceCaught(u, swapped, c, all, sent, size, m);
    }
  }

  lemma RunCaught(capacity: nat, size: nat, ops: seq<Op>) returns (b: Book, k: nat)
    requires capacity <= size && AllPackable(Enqueued(ops)) && AllEndWell(capacity, ops)
    ensures var run := Run(capacity, ops);
            && Booked(run.0, b, Enqueued(ops), Concat(run.1)) && run.0.capacity == capacity
            && Caught(Feed(size, run.1), run.0, b, k)
    decreases |ops|
  {
    hide Caught, Booked, PackWork, StuffMessage, Despatch, Slice, EndsWell, AllPackable;
    if ops == [] {
      b, k := Book([], [], []), 0;
      StartCaught(capacity, size);
    } else {
      var before, op := ops[..|ops| - 1], ops[|ops| - 1];
      forall n | 0 <= n <= |before| ensures EndsWell(Run(capacity, before[..n]).0.send) {
        assert before[..n] == ops[..n];
      }
      assert ops[..|before|] == before && EndsWell(Run(capacity, ops[..|before|]).0.send);
      FewerObjects(ops);
      b, k := RunCaught(capacity, size, before);
      var (p, slices) := Run(capacity, before);
      b, k := StepCaught(Feed(size, slices), p, b, Enqueued(before), Concat(slices), op, k);
      if op.Stuff? {
        var slice := StuffMessage(p, op.size).1;
        assert (slices + [slice])[..|slices|] == slices;
      }
    }
  }

  lemma FewerObjects(ops: seq<Op>)
    requires ops != [] && AllPackable(Enqueued(ops))
    ensures AllPackable(Enqueued(ops[..|ops| - 1]))
  {
    forall o | o in Enqueued(ops[..|ops| - 1]) ensures o in Enqueued(ops) {}
  }

  lemma StartCaught(capacity: nat, size: nat)
    requires capacity <= size
    ensures var b := Book([], [], []);
            Booked(StartPacker(capacity), b, [], []) && Caught(StartUnpacker(size), StartPacker(capacity), b, 0)
  {
    assert Book([], [], []).Packed() == [];
  }

  lemma StepCaught(u: Unpacker, p: Packer, a: Book, all: seq<Obj>, sent: seq<Byte>, op: Op, k: nat) returns (b: Book, m: nat)
    requires PackerShaped(p) && UnpackerShaped(u) && Booked(p, a, all, sent) && Caught(u, p, a, k)
    requires AllPackable(all) && EndsWell(p.send)
    ensures op.Enqueue? ==>
              var q := p.(queue := p.queue + [op.obj]); Booked(q, b, all + [op.obj], sent) && Caught(u, q, b, m)
    ensures op.Work? ==>
              Booked(PackWork(p), b, all, sent) && Caught(u, PackWork(p), b, m) && PackWork(p).capacity == p.capacity
    ensures op.Stuff? ==>
              var q, slice := StuffMessage(p, op.size).0, StuffMessage(p, op.size).1;
              && Booked(q, b, all, sent + slice) && q.capacity == p.capacity
              && Caught(if slice == [] then u else Despatch(u, slice), q, b, m)
  {
    hide Frames, Parse, Despatch, PackWork, EndsWell, Enqueued;
    b, m := a, k;
    PackWorkShape(p);
    match op
    case Enqueue(obj) => EnqueueBooked(p, a, all, sent, obj);
    case Work => b := PackWorkBooked(p, a, all, sent);
    case Stuff(room) => b, m := StuffCaught(u, p, a, all, sent, room, k);
  }

  /** A buffer as large as a store is large enough, for objects of any size, as long as no store ends with an
      object of fewer than 2 bytes of data. */
  lemma BufferSuffices(capacity: nat, size: nat, ops: seq<Op>)
    requires capacity <= size && AllPackable(Enqueued(ops)) && AllEndWell(capacity, ops)
    ensures var u := Feed(size, Run(capacity, ops).1);
            !u.overflow && |u.data| <= capacity && u.delivered <= Enqueued(ops)
  {
    hide Run, Frames, Feed, Enqueued;
    var b, k := RunCaught(capacity, size, ops);
    DeliveredAreOffered(b, Run(capacity, ops).0, Enqueued(ops), k);
  }

  lemma DeliveredAreOffered(b: Book, p: Packer, all: seq<Obj>, k: nat)
    requires b.Packed() + p.dropped + p.queue == all && k <= |b.sending|
    ensures b.done + b.sending[..k] <= all
  {
    assert b.sending == b.sending[..k] + b.sending[k..];
    assert all == b.done + b.sending[..k] + (b.sending[k..] + b.filling + p.dropped + p.queue);
  }

  // ---------- Stores that end with a tiny object

  const TINY := Obj(0, 0, [7])

  /** One tiny object at a time, each in a store of its own. */
  function OneByOne(n: nat): seq<Op> {
    if n == 0 then [] else OneByOne(n - 1) + [Enqueue(TINY), Stuff(MIN_FILL)]
  }

  function Slices(n: nat): seq<seq<Byte>> {
    if n == 0 then [] else Slices(n - 1) + [Frame(TINY)]
  }

  lemma TinyFrame()
    ensures |Frame(TINY)| == 8 && Packable(TINY)
    ensures Parse(Frame(TINY)) == ([], 0)
    ensures Parse(Frame(TINY) + Frame(TINY)) == ([TINY], 8)
  {
    hide Frame;
    FrameTaken(TINY, Frame(TINY));
    assert [TINY] + [] == [TINY];
  }

  /** The packer when n tiny objects were sent. */
  function SentPacker(capacity: nat, n: nat): Packer {
    if n == 0 then StartPacker(capacity) else StartPacker(capacity).(send := Frame(TINY), index := 8)
  }

  lemma TinyPacked(p: Packer)
    requires p.fill == [] && !p.choked && p.capacity >= 8
    ensures PackWork(p.(queue := [TINY])) == p.(fill := Frame(TINY), queue := [])
  {
    hide Frame;
    TinyFrame();
    assert [] + Frame(TINY) == Frame(TINY) && [TINY][1..] == [];
  }

  lemma TinySent(capacity: nat, n: nat)
    requires capacity >= 8
    ensures var p := SentPacker(capacity, n); PackerShaped(p.(queue := [TINY]))
    ensures var p := SentPacker(capacity, n);
            p.queue + [TINY] == [TINY]
            && StuffMessage(p.(queue := [TINY]), MIN_FILL) == (SentPacker(capacity, n + 1), Frame(TINY))
  {
    hide Frame, Parse, PackWork;
    TinyFrame();
    var p, f := SentPacker(capacity, n), Frame(TINY);
    assert f[0..8] == f;
    TinyPacked(p);
    var full := p.(fill := f, queue := []);
    assert SwapStores(full) == p.(send := f, index := 0, left := 8);
  }

  lemma {:induction false} TinyRun(capacity: nat, n: nat)
    requires capacity >= 8
    ensures Run(capacity, OneByOne(n)) == (SentPacker(capacity, n), Slices(n))
    ensures AllPackable(Enqueued(OneByOne(n)))
  {
    hide StuffMessage, Frame;
    if n > 0 {
      TinyRun(capacity, n - 1);
      TinyFrame();
      TinySent(capacity, n - 1);
      var before := OneByOne(n - 1);
      var more := before + [Enqueue(TINY)];
      assert OneByOne(n) == more + [Stuff(MIN_FILL)];
      assert more[..|before|] == before && OneByOne(n)[..|more|] == more;
    }
  }

  /** As many bytes as n tiny objects have. */
  function Held(n: nat): (s: seq<Byte>)
    ensures |s| == 8 * n
  {
    TinyFrame();
    if n == 0 then [] else Held(n - 1) + Frame(TINY)
  }

  lemma HeldLast(n: nat)
    ensures n == 0 ==> Held(n) == []
    ensures n > 0 ==> Held(n) == Held(n - 1) + Frame(TINY)
    ensures n == 1 ==> Held(n)[0..] == Frame(TINY)
    ensures n > 1 ==> Held(n)[8 * (n - 2)..] == Frame(TINY) + Frame(TINY)
  {
    hide Frame;
    TinyFrame();
    if n > 1 {
      var f := Frame(TINY);
      assert Held(n) == Held(n - 2) + (f + f);
    } else if n == 1 {
      assert Held(1) == Frame(TINY);
    }
  }

  /** The unpacker takes each tiny object only when the next one is there, so that it never empties its
      buffer. */
  lemma {:induction false} TinyFed(size: nat, n: nat)
    requires 8 * n <= size
    ensures var u := Feed(size, Slices(n));
            !u.overflow && u.data == Held(n) && u.index == (if n == 0 then 0 else 8 * (n - 1))
  {
    hide Frame, Parse, Held, Despatch;
    if n == 0 {
      HeldLast(0);
    } else {
      TinyFed(size, n - 1);
      TinyFrame();
      HeldLast(n);
      var before, f := Slices(n - 1), Frame(TINY);
      assert Slices(n)[..|before|] == before && |Slices(n)| == |before| + 1;
      var u := Feed(size, before);
      var data := u.data + f;
      DespatchIs(u, f, Parse(data[u.index..]).0, Parse(data[u.index..]).1);
    }
  }

  /** For stores of any size and a receive buffer of any size there is a run that overflows it, with packable
      objects of one byte of data each. */
  lemma NoBufferSuffices(capacity: nat, size: nat) returns (ops: seq<Op>)
    requires capacity >= 8
    ensures AllPackable(Enqueued(ops))
    ensures Feed(size, Run(capacity, ops).1).overflow
  {
    hide Run, Frame, Enqueued;
    var n := size / 8;
    ops := OneByOne(n + 1);
    TinyRun(capacity, n + 1);
    TinyFed(size, n);
    TinyFrame();
    assert Slices(n + 1)[..|Slices(n + 1)| - 1] == Slices(n);
  }
}
