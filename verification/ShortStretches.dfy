/** Two stretches of recording that share a block: what the replay of the first one then gives. */
module ShortStretches {
  import opened Bytes
  import opened ControlBlocks
  import opened BlockFiles
  import opened StreamWriters
  import opened LogStore
  import opened LogRuns
  import opened LogSessions
  import opened LogReading
  import opened LogSegments
  import opened LogReplay
  import opened LogPositions

  lemma {:induction false} ContentAtLeast(pieces: seq<Piece>, capacity: nat)
    requires Cut(pieces, capacity) && |pieces| > 1
    ensures |Content(pieces)| >= capacity - HEADER
  {
    hide Content;
    ContentAround(pieces, 0);
  }

  lemma {:induction false} SingleContent(pieces: seq<Piece>)
    requires |pieces| == 1
    ensures Content(pieces) == pieces[0].body && Content(pieces[..0]) == []
  {
    assert pieces[..0] == [];
  }

  /** On a stream that fits in one block, replaying a stretch gives too much whenever there is a later one. */
  lemma {:induction false} ShortStreamReplaysTooMuch(early: seq<Op>, later: seq<Op>, ops: seq<Op>, s: nat, p: nat, q: nat)
    requires early <= ops && later <= ops && IsSession(ops)
    requires Tagged(early, s, p) && Tagged(later, s, q) && p <= q < |Written(ops, s)|
    requires s < |After(ops).writers| && Saved(ops, s) && After(ops).writers[s].queue == []
    requires HEADER + |Written(ops, s)| < After(ops).writers[s].capacity
    ensures s < |After(early).tags| && s < |After(later).tags|
    ensures var from, to := After(early).tags[s], After(later).tags[s];
            var replay := Replay(After(ops).file, After(ops).writers[s].capacity, from, to);
            replay.Some? && Written(ops, s)[p..q] < replay.value
  {
    hide IsSession, After, Written, PhaseOf, Saved, Unreported, Replay, DataEnd, Tagged, PiecesOf, ChainAfter, TilesAfter,
      Content, Chain, Flatten, Decode, Cut, Readable, Shown;
    SegmentReplay(early, later, ops, s, p, q);
    var j := PlaceFound(early, ops, s, p);
    var k := PlaceFound(later, ops, s, q);
    StreamOnFile(ops, s);
    var pieces := PiecesOf(ops, s);
    if |pieces| > 1 {
      ContentAtLeast(pieces, After(ops).writers[s].capacity);
    }
    SingleContent(pieces);
    ShownFacts(ChainAfter(ops, s), pieces);
    BlockDataEnd(TilesAfter(ops), s, 0);
  }

  // ---------- A session in which it happens

  const CAPACITY: nat := 64

  /** Three streams; in the third one `body` was written, and nothing or one buffer waits to be written. */
  function Three(file: seq<Byte>, body: seq<Byte>, start: Option<nat>, waiting: seq<Buffer>, mark: nat, tag: Place): Store {
    var at := if file == [] then None else Some(0);
    Store(file, |file|, |file|,
          [NewWriter(0, CAPACITY), NewWriter(1, CAPACITY),
           Writer(2, CAPACITY, waiting, Some(Buffer(body, mark, start)), 0, at, at)],
          if waiting == [] then [] else [2], [None, None, at], [Place(0, 0), Place(0, 0), tag])
  }

  lemma ThreeCreated()
    ensures Reached([Create(CAPACITY), Create(CAPACITY), Create(CAPACITY)], Three([], [], None, [], 0, Place(0, 0)))
  {
    hide Reached;
    var a := Create(CAPACITY);
    NothingYet();
    CreatesMake();
    OneMore([], NEW_FILE, a);
    OneMore([] + [a], Step(NEW_FILE, a), a);
    OneMore([] + [a] + [a], Step(Step(NEW_FILE, a), a), a);
    assert [] + [a] + [a] + [a] == [a, a, a];
  }

  lemma CreatesMake()
    ensures var a := Create(CAPACITY);
            Enabled(NEW_FILE, a) && Enabled(Step(NEW_FILE, a), a) && Enabled(Step(Step(NEW_FILE, a), a), a)
            && Step(Step(Step(NEW_FILE, a), a), a) == Three([], [], None, [], 0, Place(0, 0))
  {
  }

  lemma NothingYet()
    ensures Reached([], NEW_FILE)
  {
  }

  /** A stretch of one byte: it is asked for, an item is marked, the byte is written, the stream is closed
      off, and the block goes to file. */
  function OneByte(x: Byte): seq<Op> {
    [Segment(2), Item(2), Op.Put(2, [x]), Close(2, true), Process]
  }

  lemma MarkedAndWritten(file: seq<Byte>, body: seq<Byte>, mark: nat, tag: Place, x: Byte)
    requires |body| < 10 && (body == [] <==> mark == 0)
    ensures var st := Three(file, body, None, [], mark, tag);
            var fill := HEADER + |body|;
            var mark' := if mark == 0 then fill else mark;
            var marked := Three(file, body, Some(fill), [], mark', Place(tag.offset, 0));
            && Enabled(st, Segment(2)) && Step(st, Segment(2)) == Three(file, body, Some(0), [], mark, Place(tag.offset, 0))
            && Enabled(Step(st, Segment(2)), Item(2)) && Step(Step(st, Segment(2)), Item(2)) == marked
            && Enabled(marked, Op.Put(2, [x]))
            && Step(marked, Op.Put(2, [x])) == Three(file, body + [x], Some(fill), [], mark', Place(tag.offset, 0))
  {
    assert Repeat(0, 0) == [];
  }

  lemma ClosedOff(file: seq<Byte>, body: seq<Byte>, mark: nat, tag: Place, start: nat)
    requires 0 < start
    ensures var st := Three(file, body, Some(start), [], mark, tag);
            && Enabled(st, Close(2, true))
            && Step(st, Close(2, true)) == Three(file, body, None, [Buffer(body, mark, Some(start))], mark, tag)
  {
    assert Repeat(2, 1) == [2];
    var st := Three(file, body, Some(start), [], mark, tag);
    assert [] + [Buffer(body, mark, Some(start))] == [Buffer(body, mark, Some(start))];
  }

  /** The write job puts the block on file, and the start in the tag. */
  lemma Processed(file: seq<Byte>, body: seq<Byte>, mark: nat, tag: Place, start: nat)
    requires 0 < |body| < 10 && 0 < start && |file| in {0, CAPACITY}
    ensures var closed := Three(file, body, None, [Buffer(body, mark, Some(start))], mark, tag);
            && Enabled(closed, Process)
            && var done := Step(closed, Process);
            && |done.file| == CAPACITY && done == Three(done.file, body, None, [], mark, Place(0, start))
  {
    hide EncodeBlock, Image;
    var b := Buffer(body, mark, Some(start));
    var closed := Three(file, body, None, [b], mark, tag);
    var w := closed.writers[2];
    assert w.queue[0] == b && Fill(b) < CAPACITY && w.queue[1..] == [];
    assert Ready(closed) && InPlace(closed);
    if file == [] {
      FirstBlock(w, b, body, mark);
    } else {
      AgainBlock(w, b, body, mark);
    }
    var done := ProcessOne(closed);
    assert done.jobs == [];
    assert done.firsts == [None, None, Some(0)] && done.tags == [Place(0, 0), Place(0, 0), Place(0, start)];
    assert done.writers == Three(done.file, body, None, [], mark, Place(0, start)).writers;
  }

  lemma FirstBlock(w: Writer, b: Buffer, body: seq<Byte>, mark: nat)
    requires Fill(b) < CAPACITY
    requires w == Writer(2, CAPACITY, [b], Some(Buffer(body, mark, None)), 0, None, None)
    ensures AfterAppend(w, 0) == Writer(2, CAPACITY, [], Some(Buffer(body, mark, None)), 0, Some(0), Some(0))
    ensures |WriteAt([], 0, Image(w))| == CAPACITY
  {
    hide EncodeBlock;
    assert w.queue[1..] == [];
  }

  lemma AgainBlock(w: Writer, b: Buffer, body: seq<Byte>, mark: nat)
    requires Fill(b) < CAPACITY
    requires w == Writer(2, CAPACITY, [b], Some(Buffer(body, mark, None)), 0, Some(0), Some(0))
    ensures AfterRewrite(w) == Writer(2, CAPACITY, [], Some(Buffer(body, mark, None)), 0, Some(0), Some(0))
    ensures |Image(w)| == CAPACITY
  {
    hide EncodeBlock;
    assert w.queue[1..] == [];
  }

  /** What a stretch of one byte does to the store. */
  lemma OneByteReaches(ops: seq<Op>, file: seq<Byte>, body: seq<Byte>, mark: nat, tag: Place, x: Byte) returns (st: Store)
    requires Reached(ops, Three(file, body, None, [], mark, tag))
    requires |body| < 9 && (body == [] <==> mark == 0) && (mark == 0 || HEADER <= mark < CAPACITY) && |file| in {0, CAPACITY}
    requires tag.offset == 0
    ensures var mark' := if mark == 0 then HEADER + |body| else mark;
            && Reached(ops + OneByte(x), st) && |st.file| == CAPACITY
            && st == Three(st.file, body + [x], None, [], mark', Place(0, HEADER + |body|))
  {
    hide Reached, Step, Enabled;
    var fill := HEADER + |body|;
    var mark' := if mark == 0 then fill else mark;
    MarkedAndWritten(file, body, mark, tag, x);
    ClosedOff(file, body + [x], mark', Place(tag.offset, 0), fill);
    Processed(file, body + [x], mark', Place(tag.offset, 0), fill);
    var st0 := Three(file, body, None, [], mark, tag);
    var st1 := Step(st0, Segment(2));
    OneMore(ops, st0, Segment(2));
    OneMore(ops + [Segment(2)], st1, Item(2));
    var st2 := Step(st1, Item(2));
    OneMore(ops + [Segment(2)] + [Item(2)], st2, Op.Put(2, [x]));
    var st3 := Step(st2, Op.Put(2, [x]));
    OneMore(ops + [Segment(2)] + [Item(2)] + [Op.Put(2, [x])], st3, Close(2, true));
    var st4 := Step(st3, Close(2, true));
    OneMore(ops + [Segment(2)] + [Item(2)] + [Op.Put(2, [x])] + [Close(2, true)], st4, Process);
    st := Step(st4, Process);
    assert ops + [Segment(2)] + [Item(2)] + [Op.Put(2, [x])] + [Close(2, true)] + [Process] == ops + OneByte(x);
  }

  /** What the calls of a stretch of one byte mean. */
  lemma OneByteTold(ops: seq<Op>, x: Byte)
    ensures Written(ops + OneByte(x), 2) == Written(ops, 2) + [x]
    ensures PhaseOf(ops + OneByte(x), 2) == Begun(|Written(ops, 2)|) && Saved(ops + OneByte(x), 2)
  {
    hide Written, PhaseOf, Saved;
    CallMeans(ops, Segment(2), 2);
    var a := ops + [Segment(2)];
    CallMeans(a, Item(2), 2);
    var b := a + [Item(2)];
    CallMeans(b, Op.Put(2, [x]), 2);
    var c := b + [Op.Put(2, [x])];
    CallMeans(c, Close(2, true), 2);
    var d := c + [Close(2, true)];
    CallMeans(d, Process, 2);
    assert ops + OneByte(x) == d + [Process];
  }

  lemma CreatesTold()
    ensures Written([Create(CAPACITY), Create(CAPACITY), Create(CAPACITY)], 2) == []
  {
    var a, b := [] + [Create(CAPACITY)], [] + [Create(CAPACITY)] + [Create(CAPACITY)];
    CallMeans([], Create(CAPACITY), 2);
    CallMeans(a, Create(CAPACITY), 2);
    CallMeans(b, Create(CAPACITY), 2);
    assert b + [Create(CAPACITY)] == [Create(CAPACITY), Create(CAPACITY), Create(CAPACITY)];
  }

  lemma ThreeIsTagged(ops: seq<Op>, st: Store, q: nat)
    requires Reached(ops, st) && PhaseOf(ops, 2) == Begun(q) && |st.writers| == 3 && st.writers[2].queue == []
    requires st.writers[2].current.Some? && st.writers[2].current.value.start == None
    ensures Tagged(ops, 2, q)
  {
    hide IsSession, After, PhaseOf;
  }

  /** Two stretches of one byte each, 7 and 9: the first one is replayed with both bytes. */
  lemma ReplayGivesNextStretchToo()
    ensures var created := [Create(CAPACITY), Create(CAPACITY), Create(CAPACITY)];
            var early, ops := created + OneByte(7), created + OneByte(7) + OneByte(9);
            && Tagged(early, 2, 0) && Tagged(ops, 2, 1) && Written(ops, 2) == [7, 9]
            && 2 < |After(ops).writers| && 2 < |After(early).tags| && 2 < |After(ops).tags|
            && var replay := Replay(After(ops).file, After(ops).writers[2].capacity, After(early).tags[2], After(ops).tags[2]);
            replay.Some? && [7] < replay.value
  {
    hide Reached, Tagged, OneByte, Written, PhaseOf, Saved, Replay;
    var created := [Create(CAPACITY), Create(CAPACITY), Create(CAPACITY)];
    ThreeCreated();
    CreatesTold();
    var early := created + OneByte(7);
    var st1 := OneByteReaches(created, [], [], 0, Place(0, 0), 7);
    OneByteTold(created, 7);
    ThreeIsTagged(early, st1, 0);
    var ops := early + OneByte(9);
    assert [] + [7] == [7];
    var st2 := OneByteReaches(early, st1.file, [7], HEADER, Place(0, HEADER), 9);
    OneByteTold(early, 9);
    ThreeIsTagged(ops, st2, 1);
    ReachedIs(ops, st2);
    assert Written(ops, 2)[0..1] == [7];
    ShortStreamReplaysTooMuch(early, ops, ops, 2, 0, 1);
  }

  lemma ReachedIs(ops: seq<Op>, st: Store)
    requires Reached(ops, st)
    ensures IsSession(ops) && After(ops) == st
  {
  }
}
