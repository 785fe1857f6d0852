/** A cycle in which a recorder recorded something, followed by one in which it recorded nothing: the data
    of the first one behind its first block are lost, and the second one is replayed with data. */
module LostCycles {
  import opened Bytes
  import opened ControlBlocks
  import opened BlockFiles
  import opened StreamWriters
  import opened LogStore
  import opened LogRuns
  import opened LogSessions
  import opened LogSegments
  import opened LogPositions
  import opened ShortStretches
  import opened Recordings
  import opened CycleReplays

  /** Of a cycle with more data than fit in a block, what comes behind the first block is lost when nothing
      is recorded in the next cycle. */
  lemma NextCleanLosesData(r: Recording, i: nat, n: nat)
    requires Replayable(r, i, n) && Shape(r) && n + 1 < |r.tags|
    requires RecordedIn(r.ends, i, n) && !RecordedIn(r.ends, i, n + 1)
    requires |CycleData(r, i, n)| > After(r.ops).writers[i + 2].capacity - HEADER
    ensures CycleReplay(r, i, n).Some?
    ensures CycleReplay(r, i, n).value < CycleData(r, i, n)
  {
    hide IsSession, After, Written, EndBefore, CycleReplay, CycleData, BlockEnd, RecordingFits, Shape;
    StartIsOwn(r, i, n);
    ShapeFacts(r);
    var p := EndBefore(r.ends, i, n);
    CycleReplayIs(r, i, n, p);
    BlockEndInside(r, i, n, p);
  }

  lemma BlockEndInside(r: Recording, i: nat, n: nat, p: nat)
    requires Replayable(r, i, n) && Shape(r) && LastStart(r.ends, i, n) == Some(p)
    ensures r.tags[n][i].offset + HEADER <= |After(r.ops).file|
    ensures BlockEnd(After(r.ops).file, r.tags[n][i], p) <= p + After(r.ops).writers[i + 2].capacity - HEADER
  {
    hide IsSession, After, Written, LastStart, RecordingFits, Tagged, DataEnd, Saved, ChainAfter, PiecesOf, TilesAfter;
    RestingStream(r, i, n, p);
    var early := TagFound(r, i, n, p);
    var s := i + 2;
    var j := LogReplay.PlaceFound(early, r.ops, s, p);
    StreamOnFile(r.ops, s);
    InItsBlock(TilesAfter(r.ops), s, PiecesOf(r.ops, s), After(r.ops).writers[s].capacity, j, r.tags[n][i], p);
  }

  lemma InItsBlock(tiles: seq<Tile>, s: nat, pieces: seq<Piece>, capacity: nat, j: nat, place: Place, p: nat)
    requires Headed(tiles) && LogReading.Readable(Chain(tiles, s), capacity)
    requires Located(Chain(tiles, s), pieces, capacity, j, place, p)
    ensures place.offset + HEADER <= |Flatten(tiles)|
    ensures BlockEnd(Flatten(tiles), place, p) <= p + capacity - HEADER
  {
    hide Decode, Chain, Flatten, DataEnd, PositionOf;
    BlockDataEnd(tiles, s, j);
  }

  // ---------- A recording in which it happens

  const FIRST: seq<Byte> := seq(36, _ => 7)
  const REST: seq<Byte> := [8, 8, 8, 8]

  /** Three streams; the third one has been written 40 bytes, of which `done` buffers went to file. */
  function Forty(file: seq<Byte>, queue: seq<Buffer>, start: Option<nat>, num: nat, partial: Option<nat>, previous: Option<nat>,
                 tag: Place): Store {
    Store(file, |file|, |file|,
          [NewWriter(0, CAPACITY), NewWriter(1, CAPACITY),
           Writer(2, CAPACITY, queue, Some(Buffer(REST, 0, start)), num, partial, previous)],
          seq(|queue|, _ => 2), [None, None, if file == [] then None else Some(0)], [Place(0, 0), Place(0, 0), tag])
  }

  const FULL := Buffer(FIRST, HEADER, Some(HEADER))
  const PART := Buffer(REST, 0, None)

  lemma FortyBytes()
    ensures |FIRST| == 36 && HEADER + |FIRST| == CAPACITY && |FIRST + REST| == 40
    ensures (FIRST + REST)[..36] == FIRST && (FIRST + REST)[36..] == REST
  {}

  lemma FortyWritten()
    ensures var marked := Three([], [], Some(HEADER), [], HEADER, Place(0, 0));
            && Enabled(marked, Op.Put(2, FIRST + REST))
            && Step(marked, Op.Put(2, FIRST + REST)) == Forty([], [FULL], None, 0, None, None, Place(0, 0))
  {
    hide Image;
    FortyBytes();
    var w := Three([], [], Some(HEADER), [], HEADER, Place(0, 0)).writers[2];
    assert [] + FIRST == FIRST && [] + REST == REST;
    var w' := Fed(w, FULL);
    assert Write(w', REST) == w'.(current := Some(PART));
    assert Write(w, FIRST + REST) == w'.(current := Some(PART));
    assert Repeat(2, 1) == [2];
    var st := Step(Three([], [], Some(HEADER), [], HEADER, Place(0, 0)), Op.Put(2, FIRST + REST));
    var after := Forty([], [FULL], None, 0, None, None, Place(0, 0));
    assert w'.(current := Some(PART)) == after.writers[2];
    assert st.writers == after.writers && st.jobs == after.jobs;
  }

  lemma FortyClosed()
    ensures var st := Forty([], [FULL], None, 0, None, None, Place(0, 0));
            && Enabled(st, Close(2, true))
            && Step(st, Close(2, true)) == Forty([], [FULL, PART], None, 0, None, None, Place(0, 0))
  {
    assert Repeat(2, 1) == [2];
    assert [FULL] + [PART] == [FULL, PART];
  }

  lemma FirstToFile()
    ensures var st := Forty([], [FULL, PART], None, 0, None, None, Place(0, 0));
            && Enabled(st, Process)
            && var done := Step(st, Process);
            && |done.file| == CAPACITY && done == Forty(done.file, [PART], None, 1, None, Some(0), Place(0, HEADER))
  {
    hide EncodeBlock;
    FortyBytes();
    var st := Forty([], [FULL, PART], None, 0, None, None, Place(0, 0));
    var w := st.writers[2];
    assert w.queue[0] == FULL && w.queue[1..] == [PART] && Fill(FULL) == CAPACITY;
    var t := Image(w);
    assert |WriteAt([], 0, t)| == CAPACITY;
    var done := ProcessOne(st);
    assert done.jobs == [2];
    assert AfterAppend(w, 0) == Writer(2, CAPACITY, [PART], Some(PART), 1, None, Some(0));
    assert done.firsts == [None, None, Some(0)] && done.tags == [Place(0, 0), Place(0, 0), Place(0, HEADER)];
  }

  lemma RestToFile(file: seq<Byte>)
    requires |file| == CAPACITY
    ensures var st := Forty(file, [PART], None, 1, None, Some(0), Place(0, HEADER));
            && Enabled(st, Process)
            && var done := Step(st, Process);
            && |done.file| == 2 * CAPACITY
            && done == Forty(done.file, [], None, 1, Some(CAPACITY), Some(CAPACITY), Place(0, HEADER))
  {
    hide EncodeBlock, BigEndian;
    var st := Forty(file, [PART], None, 1, None, Some(0), Place(0, HEADER));
    var w := st.writers[2];
    assert w.queue[0] == PART && w.queue[1..] == [] && Fill(PART) < CAPACITY;
    var t := Image(w);
    var longer := WriteAt(file, CAPACITY, t);
    assert |longer| == 2 * CAPACITY && |WriteAt(longer, 0, BigEndian(CAPACITY, 8))| == 2 * CAPACITY;
    var done := ProcessOne(st);
    assert done.jobs == [];
    assert AfterAppend(w, CAPACITY) == Writer(2, CAPACITY, [], Some(PART), 1, Some(CAPACITY), Some(CAPACITY));
    assert done.firsts == [None, None, Some(0)] && done.tags == [Place(0, 0), Place(0, 0), Place(0, HEADER)];
  }

  lemma AskedAgain(file: seq<Byte>)
    requires |file| == 2 * CAPACITY
    ensures var st := Forty(file, [], None, 1, Some(CAPACITY), Some(CAPACITY), Place(0, HEADER));
            && Enabled(st, Segment(2))
            && Step(st, Segment(2)) == Forty(file, [], Some(0), 1, Some(CAPACITY), Some(CAPACITY), Place(0, 0))
  {
    assert Repeat(2, 0) == [];
  }

  const CREATED: seq<Op> := [Create(CAPACITY), Create(CAPACITY), Create(CAPACITY)]

  /** The calls of a cycle with 40 bytes, and of a next one without any. */
  lemma FortyReached() returns (st1: Store, st2: Store)
    ensures var ops1 := CREATED + [Segment(2)] + [Item(2), Op.Put(2, FIRST + REST)] + [Close(2, true), Process, Process];
            && Reached(CREATED, Three([], [], None, [], 0, Place(0, 0)))
            && IsSession(CREATED + [Segment(2)]) && IsSession(CREATED + [Segment(2)] + [Item(2), Op.Put(2, FIRST + REST)])
            && Reached(ops1, st1) && Reached(ops1 + [Segment(2)], st2)
            && st1.jobs == [] && |st1.tags| == 3 && st2.jobs == [] && |st2.tags| == 3 && |st2.writers| == 3
            && st2.writers[2].capacity == CAPACITY
  {
    hide Reached, Step, Enabled, IsSession, After;
    ThreeCreated();
    MarkedAndWritten([], [], 0, Place(0, 0), 0);
    FortyWritten();
    FortyClosed();
    FirstToFile();
    var put := Op.Put(2, FIRST + REST);
    var a := CREATED + [Segment(2)];
    OneMore(CREATED, Three([], [], None, [], 0, Place(0, 0)), Segment(2));
    OneMore(a, Three([], [], Some(0), [], 0, Place(0, 0)), Item(2));
    var b := a + [Item(2)];
    OneMore(b, Three([], [], Some(HEADER), [], HEADER, Place(0, 0)), put);
    var c := b + [put];
    OneMore(c, Forty([], [FULL], None, 0, None, None, Place(0, 0)), Close(2, true));
    var d := c + [Close(2, true)];
    var st := Forty([], [FULL, PART], None, 0, None, None, Place(0, 0));
    OneMore(d, st, Process);
    st := Step(st, Process);
    RestToFile(st.file);
    OneMore(d + [Process], st, Process);
    st1 := Step(st, Process);
    AskedAgain(st1.file);
    var e := d + [Process] + [Process];
    OneMore(e, st1, Segment(2));
    st2 := Step(st1, Segment(2));
    SessionsOf(a, Step(Three([], [], None, [], 0, Place(0, 0)), Segment(2)));
    SessionsOf(c, Forty([], [FULL], None, 0, None, None, Place(0, 0)));
    assert c == a + [Item(2), put];
    assert e == a + [Item(2), put] + [Close(2, true), Process, Process];
  }

  lemma SessionsOf(ops: seq<Op>, st: Store)
    requires Reached(ops, st)
    ensures IsSession(ops) && After(ops) == st
  {}

  const CAPACITIES: seq<nat> := [CAPACITY, CAPACITY, CAPACITY]

  function CallsOf(a: Act): seq<Op> {
    match a
    case Begin => [Segment(2)]
    case Record(_, data) => [Item(2), Op.Put(2, data)]
    case Complete(turns) => if turns == 0 then [] else [Close(2, true), Process, Process]
    case Other(op) => [op]
  }

  /** The calls of an act with one recorder. */
  lemma OneRecorderCalls(r: Recording, a: Act)
    requires |r.dirty| == 1 && !a.Other?
    requires a.Record? ==> a.i == 0
    requires a.Complete? ==> a.turns == if r.dirty[0] then 2 else 0
    ensures Calls(r, a) == CallsOf(a)
  {
    assert Asks(1) == Asks(0) + [Segment(2)];
    if a.Complete? {
      assert Closes(r.dirty[..0]) == [];
      assert Turns(2) == Turns(1) + [Process] && Turns(1) == Turns(0) + [Process];
    }
  }

  lemma ActOn(acts: seq<Act>, r: Recording, a: Act)
    requires IsRecording(CAPACITIES, acts) && Recorded(CAPACITIES, acts) == r && Can(r, a)
    ensures IsRecording(CAPACITIES, acts + [a]) && Recorded(CAPACITIES, acts + [a]) == Do(r, a)
  {
    hide Can, Do;
    assert (acts + [a])[..|acts|] == acts;
  }

  lemma TheStart()
    requires IsSession(CREATED)
    ensures IsRecording(CAPACITIES, []) && Recorded(CAPACITIES, []) == Recording(CREATED, false, [false], [], [])
  {
    hide IsSession;
    var c := Create(CAPACITY);
    assert CAPACITIES[..2][..1][..0] == [] && CAPACITIES[..2][..1] == [CAPACITY] && CAPACITIES[..2] == [CAPACITY, CAPACITY];
    assert Creates([]) == [] && Creates([CAPACITY]) == [] + [c];
    assert Creates([CAPACITY, CAPACITY]) == [] + [c] + [c] && Creates(CAPACITIES) == CREATED;
    assert AllClean(1) == [false];
  }

  /** How one recorder goes on. */
  lemma GoOn(r: Recording, a: Act, ops: seq<Op>)
    requires |r.dirty| == 1 && !a.Other? && ops == r.ops + CallsOf(a) && IsSession(ops)
    requires if a.Begin? then !r.open && !r.dirty[0] else r.open
    requires a.Record? ==> a.i == 0 && a.data != []
    requires a.Complete? ==> a.turns == (if r.dirty[0] then 2 else 0) && After(ops).jobs == [] && |After(ops).tags| == 3
                             && (r.tags != [] ==> |r.tags[|r.tags| - 1]| == 1)
    ensures Can(r, a)
    ensures var r' := Do(r, a);
            && r'.ops == ops && r'.open == !a.Complete? && r'.dirty == [a.Record?]
            && (!a.Complete? ==> r'.tags == r.tags && r'.ends == r.ends)
            && (a.Complete? ==> |r'.tags| == |r.tags| + 1 && |r'.tags[|r.tags|]| == 1
                                && r'.ends == r.ends + [[|Written(ops, 2)|]])
  {
    hide IsSession, After, Written;
    OneRecorderCalls(r, a);
    assert Calls(r, a) == CallsOf(a);
    if a.Complete? {
      assert Settled(r, After(ops));
      assert Lengths(ops, 1) == Lengths(ops, 0) + [|Written(ops, 2)|] == [|Written(ops, 2)|];
    }
    assert Do(r, a).dirty == [a.Record?];
  }

  const LOSING: seq<Act> := [Begin, Record(0, FIRST + REST), Complete(2), Begin, Complete(0)]

  lemma CycleMeans(ops: seq<Op>, data: seq<Byte>)
    requires Written(ops, 2) == []
    ensures var all := ops + [Segment(2)] + [Item(2), Op.Put(2, data)] + [Close(2, true), Process, Process];
            Written(all, 2) == data && Written(all + [Segment(2)], 2) == data
  {
    hide Written;
    var put := Op.Put(2, data);
    var a := ops + [Segment(2)];
    var b := a + [Item(2)];
    var c := b + [put];
    var d := c + [Close(2, true)];
    CallMeans(ops, Segment(2), 2);
    CallMeans(a, Item(2), 2);
    CallMeans(b, put, 2);
    CallMeans(c, Close(2, true), 2);
    CallMeans(d, Process, 2);
    CallMeans(d + [Process], Process, 2);
    CallMeans(d + [Process] + [Process], Segment(2), 2);
    assert [] + data == data;
    assert a + [Item(2), put] + [Close(2, true), Process, Process] == d + [Process] + [Process];
  }

  /** The acts lead to two cycles, the first one with 40 bytes. */
  lemma LosingReached() returns (r: Recording)
    ensures IsRecording(CAPACITIES, LOSING) && Recorded(CAPACITIES, LOSING) == r
    ensures !r.open && |r.dirty| == 1 && r.ends == [[40], [40]] && |r.tags| == 2
    ensures IsSession(r.ops) && |After(r.ops).writers| == 3 && After(r.ops).writers[2].capacity == CAPACITY
    ensures Written(r.ops, 2) == FIRST + REST
  {
    hide IsSession, After, Written, IsRecording, Recorded, Can, Do, Reached;
    var st1, st2 := FortyReached();
    SessionsOf(CREATED, Three([], [], None, [], 0, Place(0, 0)));
    CreatesTold();
    CycleMeans(CREATED, FIRST + REST);
    FortyBytes();
    TheStart();
    var r0 := Recorded(CAPACITIES, []);
    var o1 := CREATED + [Segment(2)];
    GoOn(r0, Begin, o1);
    ActOn([], r0, Begin);
    var r1 := Do(r0, Begin);
    var record := Record(0, FIRST + REST);
    var o2 := o1 + [Item(2), Op.Put(2, FIRST + REST)];
    GoOn(r1, record, o2);
    ActOn([] + [Begin], r1, record);
    var r2 := Do(r1, record);
    var o3 := o2 + [Close(2, true), Process, Process];
    SessionsOf(o3, st1);
    GoOn(r2, Complete(2), o3);
    ActOn([] + [Begin] + [record], r2, Complete(2));
    var r3 := Do(r2, Complete(2));
    var o4 := o3 + [Segment(2)];
    SessionsOf(o4, st2);
    GoOn(r3, Begin, o4);
    ActOn([] + [Begin] + [record] + [Complete(2)], r3, Begin);
    var r4 := Do(r3, Begin);
    assert o4 + [] == o4;
    GoOn(r4, Complete(0), o4);
    ActOn([] + [Begin] + [record] + [Complete(2)] + [Begin], r4, Complete(0));
    r := Do(r4, Complete(0));
    assert [] + [Begin] + [record] + [Complete(2)] + [Begin] + [Complete(0)] == LOSING;
  }

  /** Of the 40 bytes of the first cycle some are lost, and the second cycle, in which nothing was recorded, is
      replayed with data. */
  lemma LosingLoses() returns (r: Recording)
    ensures IsRecording(CAPACITIES, LOSING) && Recorded(CAPACITIES, LOSING) == r
    ensures Replayable(r, 0, 0) && Replayable(r, 0, 1)
    ensures CycleData(r, 0, 0) == FIRST + REST && CycleData(r, 0, 1) == []
    ensures CycleReplay(r, 0, 0).Some? && CycleReplay(r, 0, 0).value < CycleData(r, 0, 0)
    ensures CycleReplay(r, 0, 1) != Some([])
  {
    hide IsSession, After, Written, IsRecording, Recorded, RecordingFits, CycleReplay, CycleData;
    r := LosingReached();
    EveryRecordingFits(CAPACITIES, LOSING);
    StartIsOwn(r, 0, 0);
    StartIsOwn(r, 0, 1);
    FortyBytes();
    assert (FIRST + REST)[0..40] == FIRST + REST;
    NextCleanLosesData(r, 0, 0);
    ReplayIffSeparate(r, 0, 1);
  }
}
