/** FileStreamWrite: one stream of bytes cut into blocks. Next to it the story of what was written:
    the content every block of the stream has, or will have, when it is complete. */
module StreamWriters {
  import opened Bytes
  import opened ControlBlocks

  /** DDFFMessageBuffer: the bytes behind the header, where the first object that starts in the block
      is (0: nowhere), and the start of a stretch (None: not asked for, Some(0): asked for). */
  datatype Buffer = Buffer(body: seq<Byte>, mark: nat, start: Option<nat>)

  const EMPTY := Buffer([], 0, None)

  function Fill(b: Buffer): nat {
    HEADER + |b.body|
  }

  /** `partial` and `previous` are places in the file: of a block to be rewritten, and of the last
      block written. */
  datatype Writer = Writer(stream: nat, capacity: nat, queue: seq<Buffer>, current: Option<Buffer>,
                           num: nat, partial: Option<nat>, previous: Option<nat>)

  predicate Open(w: Writer) {
    w.current.Some? && Fill(w.current.value) < w.capacity
  }

  function NewWriter(stream: nat, capacity: nat): Writer {
    Writer(stream, capacity, [], Some(EMPTY), 0, None, None)
  }

  /** The current buffer with more data in it; a full one goes to the queue. */
  function Fed(w: Writer, b: Buffer): Writer {
    if Fill(b) < w.capacity then w.(current := Some(b))
    else w.(queue := w.queue + [b], current := Some(EMPTY))
  }

  /** One byte through the write iterator. */
  function Put(w: Writer, x: Byte): Writer
    requires Open(w)
  {
    var b := w.current.value;
    Fed(w, b.(body := b.body + [x]))
  }

  /** FileStreamWrite::write, which fills blocks as far as the data goes. */
  function Write(w: Writer, data: seq<Byte>): (r: Writer)
    requires Open(w) && w.capacity > HEADER
    ensures Open(r)
    decreases |data|
  {
    var b := w.current.value;
    if Fill(b) + |data| < w.capacity then w.(current := Some(b.(body := b.body + data)))
    else
      var room := w.capacity - Fill(b);
      var w' := Fed(w, b.(body := b.body + data[..room]));
      if |data| == room then w' else Write(w', data[room..])
  }

  function PutAll(w: Writer, data: seq<Byte>): (r: Writer)
    requires Open(w) && w.capacity > HEADER
    ensures Open(r)
    decreases |data|
  {
    if data == [] then w else PutAll(Put(w, data[0]), data[1..])
  }

  lemma {:induction false} PutAllInside(w: Writer, data: seq<Byte>)
    requires Open(w) && w.capacity > HEADER && |data| > 0 && Fill(w.current.value) + |data| <= w.capacity
    ensures var b := w.current.value; PutAll(w, data) == Fed(w, b.(body := b.body + data))
    decreases |data|
  {
    var b := w.current.value;
    if |data| == 1 {
      assert data == [data[0]];
    } else {
      PutAllInside(Put(w, data[0]), data[1..]);
      assert b.body + [data[0]] + data[1..] == b.body + data;
    }
  }

  lemma {:induction false} PutAllSplit(w: Writer, a: seq<Byte>, b: seq<Byte>)
    requires Open(w) && w.capacity > HEADER
    ensures PutAll(w, a + b) == PutAll(PutAll(w, a), b)
    decreases |a|
  {
    if a == [] {
      assert a + b == b;
    } else {
      assert (a + b)[1..] == a[1..] + b;
      PutAllSplit(Put(w, a[0]), a[1..], b);
    }
  }

  /** Writing in one piece is the same as writing byte by byte: the blocks do not depend on how the
      data is cut up into calls. */
  lemma {:induction false} WriteIsPuts(w: Writer, data: seq<Byte>)
    requires Open(w) && w.capacity > HEADER
    ensures Write(w, data) == PutAll(w, data)
    decreases |data|
  {
    hide PutAll;
    var b := w.current.value;
    if |data| == 0 {
      PutAllNothing(w);
      assert b.body + data == b.body;
    } else if Fill(b) + |data| < w.capacity {
      PutAllInside(w, data);
    } else {
      var room := w.capacity - Fill(b);
      PutAllInside(w, data[..room]);
      PutAllSplit(w, data[..room], data[room..]);
      assert data == data[..room] + data[room..];
      var w' := Fed(w, b.(body := b.body + data[..room]));
      if |data| > room {
        WriteIsPuts(w', data[room..]);
      } else {
        PutAllNothing(w');
      }
    }
  }

  lemma PutAllNothing(w: Writer)
    requires Open(w) && w.capacity > HEADER
    ensures PutAll(w, []) == w
  {
  }

  lemma WriteInPieces(w: Writer, a: seq<Byte>, b: seq<Byte>)
    requires Open(w) && w.capacity > HEADER
    ensures Write(w, a + b) == Write(Write(w, a), b)
  {
    hide PutAll, Write;
    WriteIsPuts(w, a + b);
    WriteIsPuts(w, a);
    WriteIsPuts(Write(w, a), b);
    PutAllSplit(w, a, b);
  }

  /** FileStreamWrite::markItemStart. */
  function MarkItem(w: Writer): Writer
    requires Open(w)
  {
    var b := w.current.value;
    w.(current := Some(b.(mark := if b.mark == 0 then Fill(b) else b.mark,
                          start := if b.start == Some(0) then Some(Fill(b)) else b.start)))
  }

  /** FileStreamWrite::markNewSegment. */
  function MarkSegment(w: Writer): Writer
    requires Open(w)
  {
    w.(current := Some(w.current.value.(start := Some(0))))
  }

  /** FileStreamWrite::closeOff. The copy made on an intermediate close takes the start of the stretch
      with it; a second final close does nothing. */
  function CloseOff(w: Writer, intermediate: bool): Writer {
    match w.current
    case None => w
    case Some(b) =>
      if intermediate then w.(queue := w.queue + [b], current := Some(b.(start := None)))
      else w.(queue := w.queue + [b], current := None)
  }

  /** getBufferToWrite and writingComplete on the writer. */
  function Taken(w: Writer): Writer
    requires w.queue != []
  {
    w.(queue := w.queue[1..], num := if Fill(w.queue[0]) < w.capacity then w.num else w.num + 1)
  }

  function Zeros(n: nat): (z: seq<Byte>)
    ensures |z| == n
  {
    seq(n, i => 0)
  }

  /** The block as it goes to file. */
  function Image(w: Writer): (t: seq<Byte>)
    requires w.queue != [] && Fill(w.queue[0]) <= w.capacity
    ensures |t| == w.capacity
  {
    var b := w.queue[0];
    EncodeBlock(w.stream, w.num, w.capacity, Fill(b), b.mark, b.body + Zeros(w.capacity - Fill(b)))
  }

  // ---------- The story of a stream

  /** What a block holds in the end; the last piece is the one being filled. */
  datatype Piece = Piece(body: seq<Byte>, mark: nat)

  function Content(pieces: seq<Piece>): seq<Byte> {
    if pieces == [] then [] else Content(pieces[..|pieces| - 1]) + pieces[|pieces| - 1].body
  }

  ghost predicate Cut(pieces: seq<Piece>, capacity: nat) {
    && |pieces| > 0 && capacity > HEADER
    && (forall j | 0 <= j < |pieces| - 1 :: HEADER + |pieces[j].body| == capacity)
    && HEADER + |pieces[|pieces| - 1].body| < capacity
    && forall j | 0 <= j < |pieces| :: Marked(pieces, j)
  }

  ghost predicate Marked(pieces: seq<Piece>, j: nat)
    requires j < |pieces|
  {
    var p := pieces[j];
    p.mark == 0 || (HEADER <= p.mark <= HEADER + |p.body| && (j < |pieces| - 1 ==> p.mark < HEADER + |p.body|))
  }

  lemma CutFacts(pieces: seq<Piece>, capacity: nat)
    requires Cut(pieces, capacity)
    ensures pieces != [] && capacity > HEADER && HEADER + |pieces[|pieces| - 1].body| < capacity
  {
  }

  function StoryPut(pieces: seq<Piece>, capacity: nat, x: Byte): (r: seq<Piece>)
    requires pieces != []
    ensures r != []
  {
    var m := |pieces| - 1;
    var p := pieces[m].(body := pieces[m].body + [x]);
    if HEADER + |p.body| < capacity then pieces[m := p] else pieces[m := p] + [Piece([], 0)]
  }

  function StoryMark(pieces: seq<Piece>): (r: seq<Piece>)
    requires pieces != []
    ensures r != []
  {
    var m := |pieces| - 1;
    if pieces[m].mark == 0 then pieces[m := pieces[m].(mark := HEADER + |pieces[m].body|)] else pieces
  }

  lemma StoryPutAdds(pieces: seq<Piece>, capacity: nat, x: Byte)
    requires Cut(pieces, capacity)
    ensures var r := StoryPut(pieces, capacity, x);
            && Cut(r, capacity) && Content(r) == Content(pieces) + [x]
  {
    var r, m := StoryPut(pieces, capacity, x), |pieces| - 1;
    var p := pieces[m].(body := pieces[m].body + [x]);
    assert pieces[m := p][..m] == pieces[..m];
    assert Content(pieces[m := p]) == Content(pieces) + [x];
    if |r| > |pieces| {
      assert r[..|r| - 1] == pieces[m := p];
    }
    forall j | 0 <= j < |r| ensures Marked(r, j) {
      if j <= m {
        assert Marked(pieces, j);
      }
    }
  }

  lemma StoryMarkKeeps(pieces: seq<Piece>, capacity: nat)
    requires Cut(pieces, capacity)
    ensures var r := StoryMark(pieces);
            && Cut(r, capacity) && Content(r) == Content(pieces)
  {
    var r, m := StoryMark(pieces), |pieces| - 1;
    assert r[..m] == pieces[..m];
    forall j | 0 <= j < |r| ensures Marked(r, j) {
      assert Marked(pieces, j);
    }
  }

  // ---------- How buffers and blocks follow the story

  /** An object mark as it was seen when the block had `len` bytes. */
  ghost predicate SeenMark(seen: nat, len: nat, mark: nat) {
    seen == mark || (seen == 0 && mark >= HEADER + len)
  }

  /** A state the piece has been in. */
  ghost predicate Earlier(body: seq<Byte>, mark: nat, p: Piece) {
    body <= p.body && SeenMark(mark, |body|, p.mark)
  }

  /** The buffers waiting to be written show the pieces from `num` on, up to the last one. */
  ghost predicate QueueFits(queue: seq<Buffer>, capacity: nat, num: nat, pieces: seq<Piece>)
    decreases |queue|
  {
    if queue == [] then num == |pieces| - 1
    else
      && num < |pieces| && Fill(queue[0]) <= capacity && Earlier(queue[0].body, queue[0].mark, pieces[num])
      && QueueFits(queue[1..], capacity, if Fill(queue[0]) < capacity then num else num + 1, pieces)
  }

  /** The last piece may grow. */
  lemma {:induction false} QueueFitsGrown(queue: seq<Buffer>, capacity: nat, num: nat, pieces: seq<Piece>, p: Piece)
    requires QueueFits(queue, capacity, num, pieces) && pieces != []
    requires var last := pieces[|pieces| - 1];
             last.body <= p.body && (p.mark == last.mark || (last.mark == 0 && p.mark >= HEADER + |last.body|))
    ensures QueueFits(queue, capacity, num, pieces[|pieces| - 1 := p])
    decreases |queue|
  {
    if queue != [] {
      QueueFitsGrown(queue[1..], capacity, if Fill(queue[0]) < capacity then num else num + 1, pieces, p);
    }
  }

  /** A full buffer closes the last piece, and a new piece starts. */
  lemma {:induction false} QueueFitsFull(queue: seq<Buffer>, capacity: nat, num: nat, pieces: seq<Piece>, b: Buffer)
    requires QueueFits(queue, capacity, num, pieces) && pieces != [] && Fill(b) == capacity
    requires Piece(b.body, b.mark) == pieces[|pieces| - 1]
    ensures QueueFits(queue + [b], capacity, num, pieces + [Piece([], 0)])
    decreases |queue|
  {
    if queue == [] {
      assert (queue + [b])[1..] == [];
    } else {
      assert (queue + [b])[1..] == queue[1..] + [b];
      QueueFitsFull(queue[1..], capacity, if Fill(queue[0]) < capacity then num else num + 1, pieces, b);
    }
  }

  lemma {:induction false} QueueFitsPartial(queue: seq<Buffer>, capacity: nat, num: nat, pieces: seq<Piece>, b: Buffer)
    requires QueueFits(queue, capacity, num, pieces) && pieces != [] && Fill(b) < capacity
    requires Piece(b.body, b.mark) == pieces[|pieces| - 1]
    ensures QueueFits(queue + [b], capacity, num, pieces)
    decreases |queue|
  {
    if queue == [] {
      assert (queue + [b])[1..] == [];
    } else {
      assert (queue + [b])[1..] == queue[1..] + [b];
      QueueFitsPartial(queue[1..], capacity, if Fill(queue[0]) < capacity then num else num + 1, pieces, b);
    }
  }

  /** The newest image of the last piece is complete: it waits last in the queue, or (`onFile`) it is
      in the last block on file. */
  ghost predicate Newest(queue: seq<Buffer>, pieces: seq<Piece>, onFile: bool)
    requires pieces != []
  {
    var last := pieces[|pieces| - 1];
    if queue == [] then onFile
    else var b := queue[|queue| - 1]; Piece(b.body, b.mark) == last
  }

  /** A writer and its story. */
  ghost predicate WriterFits(w: Writer, pieces: seq<Piece>) {
    && w.stream < 0x1_0000 && w.capacity < TWO32
    && Cut(pieces, w.capacity)
    && QueueFits(w.queue, w.capacity, w.num, pieces)
    && (w.current.Some? ==> Piece(w.current.value.body, w.current.value.mark) == pieces[|pieces| - 1])
  }

  lemma PutFits(w: Writer, pieces: seq<Piece>, x: Byte)
    requires WriterFits(w, pieces) && w.current.Some?
    ensures Open(w) && WriterFits(Put(w, x), StoryPut(pieces, w.capacity, x))
  {
    hide QueueFits, Content, Cut;
    var m := |pieces| - 1;
    CutFacts(pieces, w.capacity);
    StoryPutAdds(pieces, w.capacity, x);
    var b := w.current.value.(body := w.current.value.body + [x]);
    var p := Piece(b.body, b.mark);
    QueueFitsGrown(w.queue, w.capacity, w.num, pieces, p);
    if Fill(b) == w.capacity {
      QueueFitsFull(w.queue, w.capacity, w.num, pieces[m := p], b);
    }
  }

  // ---------- The start of a stretch of recording

  /** A place in the stream: which block, and where in it. */
  datatype Spot = Spot(piece: nat, inside: nat)

  function StartOf(b: Buffer, piece: nat): seq<Spot> {
    if b.start.Some? && b.start.value > 0 then [Spot(piece, b.start.value)] else []
  }

  /** The starts of stretches that are still to be reported. */
  function Starts(queue: seq<Buffer>, current: Option<Buffer>, capacity: nat, num: nat): seq<Spot>
    decreases |queue|
  {
    if queue == [] then
      match current
      case None => []
      case Some(b) => StartOf(b, num)
    else
      StartOf(queue[0], num) + Starts(queue[1..], current, capacity, if Fill(queue[0]) < capacity then num else num + 1)
  }

  function Unreported(w: Writer): seq<Spot> {
    Starts(w.queue, w.current, w.capacity, w.num)
  }

  predicate Asked(w: Writer) {
    w.current.Some? && w.current.value.start == Some(0)
  }

  /** Moving the current buffer, or a copy of it, to the queue takes its start along. */
  lemma {:induction false} StartsMove(queue: seq<Buffer>, b: Buffer, next: Option<Buffer>, capacity: nat, num: nat)
    requires next.Some? ==> next.value.start == None
    ensures Starts(queue + [b], next, capacity, num) == Starts(queue, Some(b), capacity, num)
    decreases |queue|
  {
    if queue == [] {
      assert (queue + [b])[1..] == [];
    } else {
      assert (queue + [b])[1..] == queue[1..] + [b];
      StartsMove(queue[1..], b, next, capacity, if Fill(queue[0]) < capacity then num else num + 1);
    }
  }

  lemma {:induction false} StartsSame(queue: seq<Buffer>, b: Buffer, b': Buffer, capacity: nat, num: nat)
    requires (StartOf(b, 0) == [] && StartOf(b', 0) == []) || b.start == b'.start
    ensures Starts(queue, Some(b), capacity, num) == Starts(queue, Some(b'), capacity, num)
    decreases |queue|
  {
    if queue != [] {
      StartsSame(queue[1..], b, b', capacity, if Fill(queue[0]) < capacity then num else num + 1);
    }
  }

  /** A start that is set in the current buffer comes behind all others. */
  lemma {:induction false} StartsSet(queue: seq<Buffer>, b: Buffer, b': Buffer, capacity: nat, num: nat, pieces: seq<Piece>)
    requires QueueFits(queue, capacity, num, pieces) && pieces != []
    requires StartOf(b, 0) == [] && b'.start.Some? && b'.start.value > 0
    ensures Starts(queue, Some(b'), capacity, num)
            == Starts(queue, Some(b), capacity, num) + [Spot(|pieces| - 1, b'.start.value)]
    decreases |queue|
  {
    if queue != [] {
      StartsSet(queue[1..], b, b', capacity, if Fill(queue[0]) < capacity then num else num + 1, pieces);
    }
  }

  /** How far a stretch is: nothing asked for, asked for but no item marked, or begun at a place. */
  datatype Stretch = Idle | Waiting | Began(spot: Spot)

  datatype Story = Story(pieces: seq<Piece>, stretch: Stretch, whole: bool)

  const NEW_STORY := Story([Piece([], 0)], Idle, false)

  /** A start is the last one that will be reported, or it was (`reported`) the last one. */
  ghost predicate Latest(w: Writer, spot: Spot, reported: bool) {
    var u := Unreported(w);
    if u == [] then reported else u[|u| - 1] == spot
  }

  /** The newest stretch of a stream; starts of stretches before it may still be under way. */
  ghost predicate StretchFits(w: Writer, story: Story, reported: bool) {
    match story.stretch
    case Idle => !Asked(w)
    case Waiting => Asked(w)
    case Began(spot) =>
      && !Asked(w) && Latest(w, spot, reported)
      && spot.piece < |story.pieces| && HEADER <= spot.inside <= HEADER + |story.pieces[spot.piece].body|
      && (spot.piece < |story.pieces| - 1 ==> spot.inside < HEADER + |story.pieces[spot.piece].body|)
  }

  function ToldPut(story: Story, capacity: nat, x: Byte): Story
    requires story.pieces != []
  {
    var pieces := StoryPut(story.pieces, capacity, x);
    Story(pieces, if story.stretch == Waiting && |pieces| > |story.pieces| then Idle else story.stretch, false)
  }

  function ToldMark(story: Story): Story
    requires story.pieces != []
  {
    var m := |story.pieces| - 1;
    Story(StoryMark(story.pieces),
          if story.stretch == Waiting then Began(Spot(m, HEADER + |story.pieces[m].body|)) else story.stretch, false)
  }

  function ToldClose(story: Story, open: bool): Story {
    if open then Story(story.pieces, if story.stretch == Waiting then Idle else story.stretch, true) else story
  }

  /** Everything that relates a writer to its story, as far as the file is not concerned. */
  ghost predicate Follows(w: Writer, story: Story, onFile: bool, reported: bool) {
    && WriterFits(w, story.pieces)
    && StretchFits(w, story, reported)
    && (story.whole || w.current.None? ==> Newest(w.queue, story.pieces, onFile))
    && (story.whole && w.current.Some? ==> StartOf(w.current.value, 0) == [])
  }

  lemma FollowsFacts(w: Writer, story: Story, onFile: bool, reported: bool)
    requires Follows(w, story, onFile, reported)
    ensures WriterFits(w, story.pieces) && Cut(story.pieces, w.capacity) && story.pieces != [] && w.capacity > HEADER
    ensures StretchFits(w, story, reported)
  {
  }

  /** Whether a start was reported matters only for a stretch that has begun, and then only helps. */
  lemma ReportHelps(w: Writer, story: Story, reported: bool, reported': bool)
    requires StretchFits(w, story, reported)
    requires story.stretch.Began? ==> reported' || !reported
    ensures StretchFits(w, story, reported')
  {
  }

  lemma PutFollows(w: Writer, story: Story, x: Byte, onFile: bool, reported: bool)
    requires Follows(w, story, onFile, reported) && w.current.Some?
    ensures Open(w) && Follows(Put(w, x), ToldPut(story, w.capacity, x), onFile, reported)
  {
    hide QueueFits, Content, Starts;
    PutFits(w, story.pieces, x);
    var b := w.current.value;
    var b' := b.(body := b.body + [x]);
    StartsSame(w.queue, b, b', w.capacity, w.num);
    StartsMove(w.queue, b', Some(EMPTY), w.capacity, w.num);
  }

  lemma MarkItemFollows(w: Writer, story: Story, onFile: bool, reported: bool)
    requires Follows(w, story, onFile, reported) && w.current.Some?
    ensures Open(w) && Follows(MarkItem(w), ToldMark(story), onFile, reported)
  {
    hide QueueFits, Content, Starts;
    StoryMarkKeeps(story.pieces, w.capacity);
    var b, b' := w.current.value, MarkItem(w).current.value;
    QueueFitsGrown(w.queue, w.capacity, w.num, story.pieces, Piece(b'.body, b'.mark));
    assert StoryMark(story.pieces) == story.pieces[|story.pieces| - 1 := Piece(b'.body, b'.mark)];
    if story.stretch == Waiting {
      StartsSet(w.queue, b, b', w.capacity, w.num, story.pieces);
    } else {
      StartsSame(w.queue, b, b', w.capacity, w.num);
    }
  }

  lemma MarkSegmentFollows(w: Writer, story: Story, onFile: bool, reported: bool)
    requires Follows(w, story, onFile, reported) && w.current.Some?
    ensures Open(w) && Follows(MarkSegment(w), story.(stretch := Waiting), onFile, reported)
  {
    hide QueueFits, Content;
  }

  lemma CloseOffFollows(w: Writer, story: Story, intermediate: bool, onFile: bool, reported: bool)
    requires Follows(w, story, onFile, reported)
    ensures Follows(CloseOff(w, intermediate), ToldClose(story, w.current.Some?), onFile, reported)
  {
    hide QueueFits, Content, Starts, Cut;
    if w.current.Some? {
      var b := w.current.value;
      CutFacts(story.pieces, w.capacity);
      QueueFitsPartial(w.queue, w.capacity, w.num, story.pieces, b);
      StartsMove(w.queue, b, CloseOff(w, intermediate).current, w.capacity, w.num);
    }
  }

  lemma NewWriterFollows(stream: nat, capacity: nat)
    requires stream < 0x1_0000 && HEADER < capacity < TWO32
    ensures Follows(NewWriter(stream, capacity), NEW_STORY, false, false)
  {
    assert Marked(NEW_STORY.pieces, 0);
  }

  function ToldWrite(story: Story, capacity: nat, data: seq<Byte>): (r: Story)
    requires story.pieces != []
    ensures r.pieces != []
    decreases |data|
  {
    if data == [] then story else ToldWrite(ToldPut(story, capacity, data[0]), capacity, data[1..])
  }

  /** What a write leaves alone. */
  predicate Grown(w: Writer, w': Writer) {
    && w' == w.(queue := w'.queue, current := w'.current)
    && w.queue <= w'.queue && (w.current.Some? ==> w'.current.Some?)
  }

  lemma {:induction false} ToldWriteAdds(story: Story, capacity: nat, data: seq<Byte>)
    requires Cut(story.pieces, capacity)
    ensures var r := ToldWrite(story, capacity, data);
            Cut(r.pieces, capacity) && Content(r.pieces) == Content(story.pieces) + data
    decreases |data|
  {
    hide Content, Cut, StoryPut;
    CutFacts(story.pieces, capacity);
    if data == [] {
      assert Content(story.pieces) + data == Content(story.pieces);
    } else {
      StoryPutAdds(story.pieces, capacity, data[0]);
      ToldWriteAdds(ToldPut(story, capacity, data[0]), capacity, data[1..]);
      var c := Content(story.pieces);
      assert c + [data[0]] + data[1..] == c + data;
    }
  }
}
