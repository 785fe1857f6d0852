/** Whole recording sessions: any number of streams, any interleaving of writing, marking, closing off
    and processing of write jobs. */
module LogRuns {
  import opened Bytes
  import opened ControlBlocks
  import opened BlockFiles
  import opened StreamWriters
  import opened LogStore

  const MAX_STREAMS: nat := 0x1_0000

  /** FileHandler: `position` is where the file stream stands, `offset` where the next block goes. */
  datatype Store = Store(file: seq<Byte>, position: nat, offset: nat, writers: seq<Writer>, jobs: seq<nat>,
                         firsts: seq<Option<nat>>, tags: seq<Place>)

  const NEW_FILE := Store([], 0, 0, [], [], [], [])

  datatype Op = Create(capacity: nat) | Put(s: nat, data: seq<Byte>) | Item(s: nat) | Segment(s: nat)
              | Close(s: nat, intermediate: bool) | Process | Load

  function Repeat(s: nat, n: nat): (r: seq<nat>)
    ensures |r| == n && multiset(r)[s] == n && forall x | x in multiset(r) :: x == s
  {
    if n == 0 then [] else Repeat(s, n - 1) + [s]
  }

  /** A writer after a call; every buffer it queued is one write job more. */
  function Updated(st: Store, s: nat, w: Writer): Store
    requires s < |st.writers|
  {
    var more := |w.queue| - |st.writers[s].queue|;
    st.(writers := st.writers[s := w], jobs := st.jobs + Repeat(s, if more > 0 then more else 0))
  }

  /** A writer, and what the handler keeps about its stream, after its front buffer went to file. */
  function Served(st: Store, s: nat, w: Writer, file: seq<Byte>, at: nat): Store
    requires s < |st.writers| == |st.firsts| == |st.tags| && st.jobs != [] && st.writers[s].queue != []
  {
    st.(file := file, writers := st.writers[s := w], jobs := st.jobs[1..],
        firsts := st.firsts[s := if st.firsts[s].Some? then st.firsts[s] else Some(at)],
        tags := st.tags[s := Tell(st.tags[s], s, at, st.writers[s].queue[0])])
  }

  predicate Ready(st: Store) {
    && |st.writers| == |st.firsts| == |st.tags| && st.jobs != [] && st.jobs[0] < |st.writers|
    && st.position <= |st.file|
    && var w := st.writers[st.jobs[0]];
    && w.queue != [] && Fill(w.queue[0]) <= w.capacity
    && (w.partial.Some? ==> w.partial.value <= |st.file|) && (w.previous.Some? ==> w.previous.value <= |st.file|)
  }

  /** One turn of the loop of processWrites: a block is written over the partial block of its stream, or
      at the end of the file, where the previous block of the stream is then linked to it. */
  function ProcessOne(st: Store): Store
    requires Ready(st)
  {
    var s := st.jobs[0];
    var w := st.writers[s];
    if w.partial.Some? then
      var at := w.partial.value;
      Served(st, s, AfterRewrite(w), WriteAt(st.file, at, Image(w)), at).(position := st.offset, firsts := st.firsts)
    else
      var at := st.offset;
      var file := WriteAt(st.file, st.position, Image(w));
      var linked := if w.previous.Some? then WriteAt(file, w.previous.value, BigEndian(at, 8)) else file;
      Served(st, s, AfterAppend(w, at), linked, at).(position := st.position + w.capacity, offset := at + w.capacity)
  }

  predicate CanWrite(st: Store, s: nat) {
    s < |st.writers| == |st.tags| && Open(st.writers[s]) && st.writers[s].capacity > HEADER
  }

  /** A block is appended where the file stream stands, which must be the end of the file; a rewrite
      goes to its own place. */
  predicate InPlace(st: Store) {
    st.jobs != [] && st.jobs[0] < |st.writers| && (st.writers[st.jobs[0]].partial.Some? || st.position == st.offset)
  }

  predicate Enabled(st: Store, op: Op) {
    match op
    case Create(capacity) => HEADER < capacity < TWO32 && |st.writers| < MAX_STREAMS
    case Put(s, _) => CanWrite(st, s)
    case Item(s) => CanWrite(st, s)
    case Segment(s) => CanWrite(st, s)
    case Close(s, _) => s < |st.writers|
    case Process => Ready(st) && InPlace(st) && st.offset + st.writers[st.jobs[0]].capacity < NO_NEXT
    case Load => true
  }

  /** FileWithSegments::startStretch forgets where in the block the stretch before began. */
  function Zeroed(tag: Place, s: nat): Place {
    if s >= 2 then Place(tag.offset, 0) else tag
  }

  function Step(st: Store, op: Op): Store
    requires Enabled(st, op)
  {
    match op
    case Create(capacity) =>
      st.(writers := st.writers + [NewWriter(|st.writers|, capacity)], firsts := st.firsts + [None],
          tags := st.tags + [Place(0, 0)])
    case Put(s, data) => Updated(st, s, Write(st.writers[s], data))
    case Item(s) => Updated(st, s, MarkItem(st.writers[s]))
    case Segment(s) => Updated(st, s, MarkSegment(st.writers[s])).(tags := st.tags[s := Zeroed(st.tags[s], s)])
    case Close(s, intermediate) => Updated(st, s, CloseOff(st.writers[s], intermediate))
    case Process => ProcessOne(st)
    case Load => st.(position := 0)
  }

  // ---------- The stories of all streams

  function Retold(stories: seq<Story>, st: Store, op: Op): seq<Story>
    requires Enabled(st, op) && |stories| == |st.writers| && forall s | 0 <= s < |stories| :: stories[s].pieces != []
  {
    match op
    case Create(_) => stories + [NEW_STORY]
    case Put(s, data) => stories[s := ToldWrite(stories[s], st.writers[s].capacity, data)]
    case Item(s) => stories[s := ToldMark(stories[s])]
    case Segment(s) => stories[s := stories[s].(stretch := Waiting)]
    case Close(s, _) => stories[s := ToldClose(stories[s], st.writers[s].current.Some?)]
    case Process => stories
    case Load => stories
  }

  ghost predicate StreamAt(st: Store, tiles: seq<Tile>, stories: seq<Story>, s: nat)
    requires Headed(tiles) && s < |st.writers| == |st.firsts| == |st.tags| == |stories|
  {
    && StreamFits(Chain(tiles, s), st.writers[s], stories[s], s, st.firsts[s], st.tags[s])
    && multiset(st.jobs)[s] == |st.writers[s].queue|
  }

  ghost predicate TilesKnown(tiles: seq<Tile>, streams: nat) {
    Headed(tiles) && forall k | 0 <= k < |tiles| :: StreamOf(tiles[k]) < streams
  }

  /** The file is made of whole blocks, and every stream's blocks hold what its story says. */
  ghost predicate StoreFits(st: Store, tiles: seq<Tile>, stories: seq<Story>) {
    && |st.writers| == |st.firsts| == |st.tags| == |stories| <= MAX_STREAMS
    && st.file == Flatten(tiles) && st.offset == |st.file| && st.position <= st.offset
    && TilesKnown(tiles, |st.writers|)
    && (forall s | 0 <= s < |st.writers| :: StreamAt(st, tiles, stories, s))
    && forall s | s in st.jobs :: s < |st.writers|
  }

  lemma MoreJobs(jobs: seq<nat>, s: nat, n: nat)
    ensures var jobs' := jobs + Repeat(s, n);
            && (forall i: nat :: multiset(jobs')[i] == multiset(jobs)[i] + if i == s then n else 0)
            && forall i | i in jobs' :: i in jobs || i == s
  {
    var r := Repeat(s, n);
    var all, more := multiset(jobs + r), multiset(r);
    assert all == multiset(jobs) + more;
    forall i: nat
      ensures i != s ==> more[i] == 0
    {
      assert i in more ==> i == s;
    }
    forall i | i in jobs + r
      ensures i in jobs || i == s
    {
      if i !in jobs {
        assert i in multiset(r);
      }
    }
  }

  lemma TilesHeaded(tiles: seq<Tile>, streams: nat)
    requires TilesKnown(tiles, streams)
    ensures Headed(tiles)
  {
  }

  lemma StoreFacts(st: Store, tiles: seq<Tile>, stories: seq<Story>)
    requires StoreFits(st, tiles, stories)
    ensures |stories| == |st.writers| == |st.firsts| == |st.tags| && Headed(tiles) && TilesKnown(tiles, |st.writers|)
    ensures st.file == Flatten(tiles) && st.offset == |st.file| && st.position <= st.offset
  {
    hide StreamAt, Flatten;
  }

  lemma UpdatedFits(st: Store, tiles: seq<Tile>, stories: seq<Story>, s: nat, w: Writer, story: Story)
    requires StoreFits(st, tiles, stories) && s < |st.writers|
    requires |w.queue| >= |st.writers[s].queue|
    requires StreamFits(Chain(tiles, s), w, story, s, st.firsts[s], st.tags[s])
    ensures StoreFits(Updated(st, s, w), tiles, stories[s := story])
  {
    hide StreamFits, Chain, Flatten, TilesKnown;
    var st', stories' := Updated(st, s, w), stories[s := story];
    MoreJobs(st.jobs, s, |w.queue| - |st.writers[s].queue|);
    TilesHeaded(tiles, |st.writers|);
    forall i: nat | i < |st'.writers|
      ensures StreamAt(st', tiles, stories', i)
    {
      assert StreamAt(st, tiles, stories, i);
    }
  }

  lemma RetaggedFits(st: Store, tiles: seq<Tile>, stories: seq<Story>, s: nat, tag: Place, story: Story, w: Writer)
    requires StoreFits(st, tiles, stories) && s < |st.writers|
    requires |w.queue| == |st.writers[s].queue|
    requires StreamFits(Chain(tiles, s), w, story, s, st.firsts[s], tag)
    ensures StoreFits(Updated(st, s, w).(tags := st.tags[s := tag]), tiles, stories[s := story])
  {
    hide StreamFits, Chain, Flatten, TilesKnown;
    var st', stories' := Updated(st, s, w).(tags := st.tags[s := tag]), stories[s := story];
    MoreJobs(st.jobs, s, 0);
    TilesHeaded(tiles, |st.writers|);
    forall i: nat | i < |st'.writers|
      ensures StreamAt(st', tiles, stories', i)
    {
      assert StreamAt(st, tiles, stories, i);
    }
  }

  lemma StoryKnown(st: Store, tiles: seq<Tile>, stories: seq<Story>, s: nat)
    requires StoreFits(st, tiles, stories) && s < |st.writers|
    ensures stories[s].pieces != [] && |stories| == |st.writers| && Headed(tiles)
    ensures StreamFits(Chain(tiles, s), st.writers[s], stories[s], s, st.firsts[s], st.tags[s])
    ensures multiset(st.jobs)[s] == |st.writers[s].queue|
  {
    hide Chain, Flatten, Follows, Listed, Knows, Decode;
    assert StreamAt(st, tiles, stories, s);
  }

  lemma WriterStepFits(st: Store, tiles: seq<Tile>, stories: seq<Story>, op: Op)
    requires StoreFits(st, tiles, stories) && Enabled(st, op)
    requires op.Put? || op.Item? || op.Segment? || op.Close?
    ensures forall s | 0 <= s < |stories| :: stories[s].pieces != []
    ensures StoreFits(Step(st, op), tiles, Retold(stories, st, op))
  {
    hide StreamFits, Chain, Flatten, TilesKnown, StoreFits, Write, ToldWrite, ToldMark, ToldClose, Updated, Unreported;
    forall s: nat | s < |stories|
      ensures stories[s].pieces != []
    {
      StoreFacts(st, tiles, stories);
      StoryKnown(st, tiles, stories, s);
    }
    var s := op.s;
    StoreFacts(st, tiles, stories);
    StoryKnown(st, tiles, stories, s);
    var c, w, story, first, tag := Chain(tiles, s), st.writers[s], stories[s], st.firsts[s], st.tags[s];
    match op
    case Put(_, data) =>
      WriteStream(c, w, story, s, first, tag, data);
      UpdatedFits(st, tiles, stories, s, Write(w, data), ToldWrite(story, w.capacity, data));
    case Item(_) =>
      ItemStream(c, w, story, s, first, tag);
      UpdatedFits(st, tiles, stories, s, MarkItem(w), ToldMark(story));
    case Segment(_) =>
      SegmentStream(c, w, story, s, first, tag, Zeroed(tag, s));
      RetaggedFits(st, tiles, stories, s, Zeroed(tag, s), story.(stretch := Waiting), MarkSegment(w));
    case Close(_, intermediate) =>
      CloseStream(c, w, story, s, first, tag, intermediate);
      UpdatedFits(st, tiles, stories, s, CloseOff(w, intermediate), ToldClose(story, w.current.Some?));
  }

  lemma NewStreamFits(n: nat, capacity: nat)
    requires n < MAX_STREAMS && HEADER < capacity < TWO32
    ensures StreamFits([], NewWriter(n, capacity), NEW_STORY, n, None, Place(0, 0))
  {
    NewWriterFollows(n, capacity);
  }

  lemma LoadFits(st: Store, tiles: seq<Tile>, stories: seq<Story>)
    requires StoreFits(st, tiles, stories)
    ensures StoreFits(st.(position := 0), tiles, stories)
  {
    hide Chain, Flatten, StreamFits, TilesKnown;
    TilesHeaded(tiles, |st.writers|);
    forall s: nat | s < |st.writers|
      ensures StreamAt(st.(position := 0), tiles, stories, s)
    {
      assert StreamAt(st, tiles, stories, s);
    }
  }

  lemma CreateFits(st: Store, tiles: seq<Tile>, stories: seq<Story>, capacity: nat)
    requires StoreFits(st, tiles, stories) && Enabled(st, Create(capacity))
    ensures StoreFits(Step(st, Create(capacity)), tiles, stories + [NEW_STORY])
  {
    hide Flatten, Follows, StreamFits, Decode;
    var st', stories', n := Step(st, Create(capacity)), stories + [NEW_STORY], |st.writers|;
    NoBlocks(tiles, n);
    NewStreamFits(n, capacity);
    forall s: nat | s < |st'.writers|
      ensures StreamAt(st', tiles, stories', s)
    {
      if s < n {
        assert StreamAt(st, tiles, stories, s);
      } else {
        assert n !in st.jobs;
      }
    }
  }

  lemma {:induction false} NoBlocks(tiles: seq<Tile>, s: nat)
    requires Headed(tiles) && forall k | 0 <= k < |tiles| :: StreamOf(tiles[k]) != s
    ensures Chain(tiles, s) == []
  {
    hide Decode, Flatten;
    if tiles != [] {
      NoBlocks(tiles[..|tiles| - 1], s);
    }
  }

  // ---------- Processing a write job

  /** The blocks of the file when a block of stream s is added and the last one of s is linked to it. */
  function Appended(tiles: seq<Tile>, s: nat, t: Tile): seq<Tile>
    requires Headed(tiles)
  {
    var n := |Chain(tiles, s)|;
    if n == 0 then tiles + [t] else Linked(tiles, TileIndex(tiles, s, n - 1), t)
  }

  lemma HeadedChain(tiles: seq<Tile>, s: nat)
    requires Headed(tiles)
    ensures forall b | b in Chain(tiles, s) :: |b.tile| >= HEADER && b.off <= |Flatten(tiles)|
  {
    hide Chain, Flatten, Decode;
    ChainIncreases(tiles, s);
  }

  lemma AppendedChains(tiles: seq<Tile>, s: nat, t: Tile)
    requires Headed(tiles) && |t| >= HEADER && StreamOf(t) == s && |Flatten(tiles)| <= NO_NEXT
    ensures var tiles', at := Appended(tiles, s, t), |Flatten(tiles)|;
            && Headed(tiles')
            && (forall b | b in Chain(tiles, s) :: |b.tile| >= HEADER)
            && Chain(tiles', s) == Relinked(Chain(tiles, s), at) + [Block(at, t)]
            && forall other: nat | other != s :: Chain(tiles', other) == Chain(tiles, other)
  {
    hide Chain, Flatten, Decode, PatchNext;
    HeadedChain(tiles, s);
    var n, at := |Chain(tiles, s)|, |Flatten(tiles)|;
    var linked := tiles;
    if n > 0 {
      var k := TileIndex(tiles, s, n - 1);
      var patched := PatchNext(tiles[k], at);
      PatchKeepsBlock(tiles[k], at);
      ChainUpdate(tiles, s, n - 1, patched);
      linked := tiles[k := patched];
      OffUpdate(tiles, k, patched, |tiles|);
      assert tiles[..|tiles|] == tiles && linked[..|linked|] == linked;
    }
    assert |Flatten(linked)| == at && Appended(tiles, s, t) == linked + [t];
    forall other: nat
      ensures Chain(linked + [t], other) == Chain(linked, other) + if other == s then [Block(at, t)] else []
    {
      ChainAppend(linked, t, other);
    }
    ChainAppend(linked, t, s);
  }

  /** Writing the block and then the link gives the bytes of the new list of blocks. */
  lemma AppendedBytes(tiles: seq<Tile>, s: nat, t: Tile)
    requires Headed(tiles)
    ensures var file, c := Flatten(tiles), Chain(tiles, s);
            var file' := WriteAt(file, |file|, t);
            && (c != [] ==> c[|c| - 1].off <= |file'|)
            && Flatten(Appended(tiles, s, t))
               == (if c == [] then file' else WriteAt(file', c[|c| - 1].off, BigEndian(|file|, 8)))
  {
    hide Chain, Flatten, Decode, PatchNext, BigEndian, WriteAt, Off, Appended;
    var c := Chain(tiles, s);
    AppendTile(tiles, t);
    AppendedIs(tiles, s, t);
    if c != [] {
      LinkedBytes(tiles, TileIndex(tiles, s, |c| - 1), t);
    }
  }

  lemma AppendedIs(tiles: seq<Tile>, s: nat, t: Tile)
    requires Headed(tiles)
    ensures var c := Chain(tiles, s);
            Appended(tiles, s, t) == if c == [] then tiles + [t] else Linked(tiles, TileIndex(tiles, s, |c| - 1), t)
  {
  }

  function Linked(tiles: seq<Tile>, k: nat, t: Tile): seq<Tile>
    requires k < |tiles| && |tiles[k]| >= HEADER
  {
    tiles[k := PatchNext(tiles[k], |Flatten(tiles)|)] + [t]
  }

  lemma LinkedBytes(tiles: seq<Tile>, k: nat, t: Tile)
    requires k < |tiles| && |tiles[k]| >= HEADER
    ensures Off(tiles, k) <= |Flatten(tiles + [t])|
    ensures Flatten(Linked(tiles, k, t)) == WriteAt(Flatten(tiles + [t]), Off(tiles, k), BigEndian(|Flatten(tiles)|, 8))
  {
    hide Flatten, PatchNext, BigEndian, WriteAt;
    var at := |Flatten(tiles)|;
    OffAppend(tiles, t, k);
    PatchTile(tiles + [t], k, at);
    assert (tiles + [t])[k := PatchNext(tiles[k], at)] == Linked(tiles, k, t);
  }

  lemma RewrittenChains(tiles: seq<Tile>, s: nat, t: Tile)
    requires Headed(tiles) && |t| >= HEADER && StreamOf(t) == s
    requires var c := Chain(tiles, s); c != [] && |t| == |c[|c| - 1].tile|
    ensures var c := Chain(tiles, s);
            var at := c[|c| - 1].off;
            var tiles' := tiles[TileIndex(tiles, s, |c| - 1) := t];
            && Headed(tiles') && at <= |Flatten(tiles)| && Flatten(tiles') == WriteAt(Flatten(tiles), at, t)
            && |Flatten(tiles')| == |Flatten(tiles)|
            && Chain(tiles', s) == c[|c| - 1 := Block(at, t)]
            && forall other: nat | other != s :: Chain(tiles', other) == Chain(tiles, other)
  {
    hide Chain, Flatten, Decode;
    var c := Chain(tiles, s);
    ChainUpdate(tiles, s, |c| - 1, t);
    RewriteTile(tiles, TileIndex(tiles, s, |c| - 1), t);
  }

  lemma ServedFits(st: Store, tiles: seq<Tile>, stories: seq<Story>, s: nat, w: Writer, tiles': seq<Tile>, at: nat)
    requires StoreFits(st, tiles, stories) && st.jobs != [] && s == st.jobs[0] && s < |st.writers|
    requires st.writers[s].queue != [] && |w.queue| == |st.writers[s].queue| - 1
    requires Headed(tiles') && forall other: nat | other != s :: Chain(tiles', other) == Chain(tiles, other)
    requires StreamFits(Chain(tiles', s), w, stories[s], s,
                        if st.firsts[s].Some? then st.firsts[s] else Some(at), Tell(st.tags[s], s, at, st.writers[s].queue[0]))
    requires TilesKnown(tiles', |st.writers|)
    ensures var st' := Served(st, s, w, Flatten(tiles'), at).(position := |Flatten(tiles')|, offset := |Flatten(tiles')|);
            StoreFits(st', tiles', stories)
  {
    hide StreamFits, Chain, Flatten, TilesKnown, Tell;
    var st' := Served(st, s, w, Flatten(tiles'), at).(position := |Flatten(tiles')|, offset := |Flatten(tiles')|);
    TilesHeaded(tiles, |st.writers|);
    var jobs, jobs' := multiset(st.jobs), multiset(st'.jobs);
    assert st.jobs == [s] + st'.jobs;
    assert jobs == multiset{s} + jobs';
    forall i: nat | i < |st'.writers|
      ensures StreamAt(st', tiles', stories, i)
    {
      assert StreamAt(st, tiles, stories, i);
    }
    assert forall i | i in st'.jobs :: i in st.jobs;
  }

  lemma RewrittenKnown(tiles: seq<Tile>, s: nat, k: nat, t: Tile, streams: nat)
    requires TilesKnown(tiles, streams) && k < |tiles| && |t| >= HEADER && StreamOf(t) == s < streams
    ensures TilesKnown(tiles[k := t], streams)
  {
  }

  lemma TilesStayKnown(tiles: seq<Tile>, s: nat, t: Tile, streams: nat)
    requires TilesKnown(tiles, streams) && |t| >= HEADER && StreamOf(t) == s < streams
    ensures TilesKnown(Appended(tiles, s, t), streams)
  {
    hide Chain, Flatten, Decode, PatchNext;
    if Chain(tiles, s) != [] {
      var k := TileIndex(tiles, s, |Chain(tiles, s)| - 1);
      var at := |Flatten(tiles)|;
      PatchStream(tiles[k], at);
    }
  }

  lemma PatchStream(t: Tile, at: nat)
    requires |t| >= HEADER
    ensures StreamOf(PatchNext(t, at)) == StreamOf(t)
  {
    hide BigEndian, FromBigEndian;
    assert PatchNext(t, at)[10..12] == t[10..12];
  }

  /** A write job always finds its buffer, and the places the writer remembers are in the file. */
  lemma JobsAreReady(st: Store, tiles: seq<Tile>, stories: seq<Story>)
    requires StoreFits(st, tiles, stories) && st.jobs != []
    ensures Ready(st) && st.jobs[0] < |st.writers| == |stories| && st.writers[st.jobs[0]].queue != []
    ensures WriterFits(st.writers[st.jobs[0]], stories[st.jobs[0]].pieces)
  {
    hide Chain, Flatten, Decode, Listed, StretchFits, TilesKnown;
    var s := st.jobs[0];
    TilesHeaded(tiles, |st.writers|);
    assert s in st.jobs && s in multiset(st.jobs);
    StoryKnown(st, tiles, stories, s);
    HeadedChain(tiles, s);
  }

  lemma ImageStream(w: Writer, pieces: seq<Piece>)
    requires WriterFits(w, pieces) && w.queue != []
    ensures Fill(w.queue[0]) <= w.capacity && |Image(w)| == w.capacity > HEADER && StreamOf(Image(w)) == w.stream
  {
    hide Crc16, BigEndian, FromBigEndian, Decode, EncodeBlock, Content, CrcOk;
    ImageHolds(w, pieces, 0);
  }

  /** What the writer remembers of the file. */
  lemma WriterKnows(st: Store, tiles: seq<Tile>, stories: seq<Story>, s: nat)
    requires StoreFits(st, tiles, stories) && s < |st.writers|
    ensures Headed(tiles) && forall b | b in Chain(tiles, s) :: |b.tile| >= HEADER
    ensures st.file == Flatten(tiles) && st.offset == |st.file| && TilesKnown(tiles, |st.writers|)
    ensures Knows(st.writers[s], Chain(tiles, s)) && st.writers[s].stream == s
  {
    hide Chain, Flatten, Decode, Follows;
    StoryKnown(st, tiles, stories, s);
    HeadedChain(tiles, s);
  }

  lemma AppendStepFits(st: Store, tiles: seq<Tile>, stories: seq<Story>)
    requires StoreFits(st, tiles, stories) && Enabled(st, Process) && st.writers[st.jobs[0]].partial.None?
    ensures Headed(tiles)
    ensures StoreFits(ProcessOne(st), Appended(tiles, st.jobs[0], Image(st.writers[st.jobs[0]])), stories)
  {
    hide Chain, Flatten, Decode, StreamFits, TilesKnown, Image, Tell, Appended, Relinked, WriterFits, StoreFits, WriteAt, Partial, Unreported, Ready;
    JobsAreReady(st, tiles, stories);
    var s := st.jobs[0];
    var w := st.writers[s];
    WriterKnows(st, tiles, stories, s);
    StoryKnown(st, tiles, stories, s);
    StoreFacts(st, tiles, stories);
    ImageStream(w, stories[s].pieces);
    var at, t := st.offset, Image(w);
    AppendFits(Chain(tiles, s), w, stories[s], s, st.firsts[s], st.tags[s], at);
    AppendedChains(tiles, s, t);
    AppendedBytes(tiles, s, t);
    TilesStayKnown(tiles, s, t, |st.writers|);
    var tiles' := Appended(tiles, s, t);
    ServedFits(st, tiles, stories, s, AfterAppend(w, at), tiles', at);
    AppendIsServed(st, tiles, s, t);
  }

  lemma AppendIsServed(st: Store, tiles: seq<Tile>, s: nat, t: Tile)
    requires Ready(st) && s == st.jobs[0] && st.writers[s].partial.None? && st.position == st.offset == |st.file|
    requires t == Image(st.writers[s]) && |t| == st.writers[s].capacity && Headed(tiles) && st.file == Flatten(tiles)
    requires var c := Chain(tiles, s); st.writers[s].previous == if c == [] then None else Some(c[|c| - 1].off)
    ensures var tiles' := Appended(tiles, s, t);
            ProcessOne(st) == Served(st, s, AfterAppend(st.writers[s], st.offset), Flatten(tiles'), st.offset)
                                .(position := |Flatten(tiles')|, offset := |Flatten(tiles')|)
  {
    hide Chain, Flatten, Decode, Image, Appended, AfterAppend, Served, BigEndian;
    AppendedBytes(tiles, s, t);
    HeadedChain(tiles, s);
    assert |WriteAt(st.file, |st.file|, t)| == st.offset + |t|;
  }

  lemma RewriteStepFits(st: Store, tiles: seq<Tile>, stories: seq<Story>)
    requires StoreFits(st, tiles, stories) && Enabled(st, Process) && st.writers[st.jobs[0]].partial.Some?
    ensures Headed(tiles) && Chain(tiles, st.jobs[0]) != []
    ensures var s := st.jobs[0];
            var k := TileIndex(tiles, s, |Chain(tiles, s)| - 1);
            StoreFits(ProcessOne(st), tiles[k := Image(st.writers[s])], stories)
  {
    hide Chain, Flatten, Decode, StreamFits, TilesKnown, Image, Tell, Appended, Relinked, WriterFits, StoreFits, WriteAt, Partial, Unreported, Ready;
    JobsAreReady(st, tiles, stories);
    var s := st.jobs[0];
    var w := st.writers[s];
    WriterKnows(st, tiles, stories, s);
    StoryKnown(st, tiles, stories, s);
    StoreFacts(st, tiles, stories);
    ImageStream(w, stories[s].pieces);
    var c, t := Chain(tiles, s), Image(w);
    RewriteFits(c, w, stories[s], s, st.firsts[s], st.tags[s]);
    LastBlockSize(c, w, stories[s], s, st.firsts[s], st.tags[s]);
    RewrittenChains(tiles, s, t);
    var at := w.partial.value;
    var tiles' := tiles[TileIndex(tiles, s, |c| - 1) := t];
    RewrittenKnown(tiles, s, TileIndex(tiles, s, |c| - 1), t, |st.writers|);
    FirstKnown(c, w, stories[s], s, st.firsts[s], st.tags[s]);
    ServedFits(st, tiles, stories, s, AfterRewrite(w), tiles', at);
    assert st.firsts[s := st.firsts[s]] == st.firsts;
  }

  lemma LastBlockSize(c: seq<Block>, w: Writer, story: Story, s: nat, first: Option<nat>, tag: Place)
    requires StreamFits(c, w, story, s, first, tag) && c != []
    ensures |c[|c| - 1].tile| == w.capacity
  {
    hide Decode, Follows, CrcOk, Earlier;
    assert BlockFits(c, |c| - 1, w.stream, w.capacity, story.pieces, NO_NEXT);
  }

  lemma FirstKnown(c: seq<Block>, w: Writer, story: Story, s: nat, first: Option<nat>, tag: Place)
    requires StreamFits(c, w, story, s, first, tag) && c != []
    ensures first == Some(c[0].off)
  {
    hide Decode, Follows, Listed;
  }

  // ---------- Whole runs

  /** The blocks of the file after a step. */
  function Reblocked(tiles: seq<Tile>, st: Store, op: Op): seq<Tile>
    requires Headed(tiles) && Enabled(st, op)
  {
    if op != Process then tiles
    else
      var s := st.jobs[0];
      var w, n := st.writers[s], |Chain(tiles, s)|;
      if w.partial.Some? && n > 0 then tiles[TileIndex(tiles, s, n - 1) := Image(w)] else Appended(tiles, s, Image(w))
  }

  lemma StepKeepsStore(st: Store, tiles: seq<Tile>, stories: seq<Story>, op: Op)
    requires StoreFits(st, tiles, stories) && Enabled(st, op)
    ensures Headed(tiles) && |stories| == |st.writers| && forall s | 0 <= s < |stories| :: stories[s].pieces != []
    ensures StoreFits(Step(st, op), Reblocked(tiles, st, op), Retold(stories, st, op))
  {
    hide StreamFits, Chain, Flatten, Image, Appended, ProcessOne, Ready, Unreported, Write, StreamAt, Decode;
    forall s: nat | s < |stories|
      ensures stories[s].pieces != []
    {
      StoryKnown(st, tiles, stories, s);
    }
    match op
    case Create(capacity) => CreateFits(st, tiles, stories, capacity);
    case Process =>
      if st.writers[st.jobs[0]].partial.None? {
        AppendStepFits(st, tiles, stories);
      } else {
        RewriteStepFits(st, tiles, stories);
      }
    case Load =>
      LoadFits(st, tiles, stories);
    case _ => WriterStepFits(st, tiles, stories, op);
  }
}
