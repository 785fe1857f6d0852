/** Replaying one stretch of a recording: the tags that FileWithSegments keeps for the start of every
    stretch, and what is read between the starts of two stretches. */
module LogSegments {
  import opened Bytes
  import opened ControlBlocks
  import opened BlockFiles
  import opened StreamWriters
  import opened LogStore
  import opened LogRuns
  import opened LogSessions
  import opened LogReading

  /** A place in the file, in block j of the stream, is q bytes from the start of the stream. */
  ghost predicate Located(c: seq<Block>, pieces: seq<Piece>, capacity: nat, j: nat, place: Place, q: nat) {
    && j < |c| && j < |pieces| && c[j].off == place.offset && HEADER <= place.inside < capacity
    && PositionOf(pieces, Spot(j, place.inside)) == q
  }

  /** Later blocks come behind, and earlier blocks stay where they are. */
  ghost predicate Extends(c: seq<Block>, c': seq<Block>) {
    |c| <= |c'| && forall j | 0 <= j < |c| :: c'[j].off == c[j].off
  }

  lemma StepExtends(st: Store, tiles: seq<Tile>, stories: seq<Story>, op: Op, s: nat)
    requires StoreFits(st, tiles, stories) && Enabled(st, op) && Headed(tiles) && s < |st.writers|
    ensures Headed(Reblocked(tiles, st, op)) && Extends(Chain(tiles, s), Chain(Reblocked(tiles, st, op), s))
  {
    hide Chain, Flatten, Decode, Image, Appended, StoreFits, Unreported;
    if op == Process {
      JobsAreReady(st, tiles, stories);
      FileSize(st, tiles, stories);
      var t := st.jobs[0];
      var w := st.writers[t];
      ImageStream(w, stories[t].pieces);
      WriterKnows(st, tiles, stories, t);
      var c := Chain(tiles, t);
      if w.partial.Some? && c != [] {
        StoryKnown(st, tiles, stories, t);
        LastBlockSize(c, w, stories[t], t, st.firsts[t], st.tags[t]);
        RewrittenChains(tiles, t, Image(w));
      } else {
        AppendedChains(tiles, t, Image(w));
      }
    }
  }

  lemma FileSize(st: Store, tiles: seq<Tile>, stories: seq<Story>)
    requires StoreFits(st, tiles, stories) && Enabled(st, Process)
    ensures |Flatten(tiles)| <= NO_NEXT
    ensures st.jobs[0] < |st.firsts| == |st.tags| == |st.writers| == |stories|
  {
    hide Flatten, StreamAt;
  }

  lemma StepGrows(st: Store, stories: seq<Story>, op: Op, s: nat)
    requires Enabled(st, op) && |stories| == |st.writers| && s < |stories|
    requires forall i | 0 <= i < |stories| :: stories[i].pieces != []
    requires Cut(stories[s].pieces, st.writers[s].capacity)
    ensures var pieces, pieces' := stories[s].pieces, Retold(stories, st, op)[s].pieces;
            && s < |Retold(stories, st, op)|
            && |pieces'| >= |pieces| && pieces'[..|pieces| - 1] == pieces[..|pieces| - 1]
  {
    hide ToldWrite, StoryMark, Content, Unreported, Cut;
    if op.Put? && op.s == s {
      ToldWriteKeeps(stories[s], st.writers[s].capacity, op.data);
    } else if op.Item? && op.s == s {
      StoryMarkFirst(stories[s].pieces, st.writers[s].capacity);
    }
  }

  /** The stream s as a session left it. */
  ghost function PiecesOf(ops: seq<Op>, s: nat): seq<Piece>
    requires IsSession(ops)
  {
    if s < |StoriesAfter(ops)| then StoriesAfter(ops)[s].pieces else []
  }

  ghost function ChainAfter(ops: seq<Op>, s: nat): seq<Block>
    requires IsSession(ops)
  {
    if Headed(TilesAfter(ops)) then Chain(TilesAfter(ops), s) else []
  }

  ghost function CapacityOf(ops: seq<Op>, s: nat): nat
    requires IsSession(ops)
  {
    if s < |After(ops).writers| then After(ops).writers[s].capacity else 0
  }

  lemma TellsCut(st: Store, stories: seq<Story>, ops: seq<Op>, s: nat)
    requires |stories| == |st.writers| && AllTell(st, stories, ops) && s < |stories|
    ensures Cut(stories[s].pieces, st.writers[s].capacity)
  {
    assert Tells(stories[s], st.writers[s], ops, s);
  }

  lemma {:induction false} OneStepOn(ops: seq<Op>, s: nat, j: nat, place: Place, q: nat)
    requires IsSession(ops) && ops != [] && IsSession(ops[..|ops| - 1]) && s < |After(ops[..|ops| - 1]).writers|
    requires var before := ops[..|ops| - 1];
             Located(ChainAfter(before, s), PiecesOf(before, s), CapacityOf(before, s), j, place, q)
    ensures s < |After(ops).writers| && CapacityOf(ops, s) == CapacityOf(ops[..|ops| - 1], s)
    ensures Located(ChainAfter(ops, s), PiecesOf(ops, s), CapacityOf(ops, s), j, place, q)
  {
    hide StoreFits, Step, Enabled, Reblocked, Retold, IsSession, After, StoriesAfter, TilesAfter, Chain, Tells, PositionOf;
    var before, op := ops[..|ops| - 1], ops[|ops| - 1];
    LastStep(ops);
    SessionKeepsStore(before);
    SessionKeepsStore(ops);
    var st, tiles, stories := After(before), TilesAfter(before), StoriesAfter(before);
    StepKeepsStore(st, tiles, stories, op);
    LastStories(ops);
    StepStreams(st, op);
    StepWriter(st, tiles, stories, op, s);
    StepExtends(st, tiles, stories, op, s);
    TellsCut(st, stories, before, s);
    StepGrows(st, stories, op, s);
    PositionKept(stories[s].pieces, PiecesOf(ops, s), Spot(j, place.inside));
  }

  /** A place keeps its meaning for the rest of the session. */
  lemma {:induction false} SessionKeepsPlace(early: seq<Op>, ops: seq<Op>, s: nat, j: nat, place: Place, q: nat)
    requires early <= ops && IsSession(ops) && IsSession(early) && s < |After(early).writers|
    requires Located(ChainAfter(early, s), PiecesOf(early, s), CapacityOf(early, s), j, place, q)
    ensures s < |After(ops).writers| && CapacityOf(ops, s) == CapacityOf(early, s)
    ensures Located(ChainAfter(ops, s), PiecesOf(ops, s), CapacityOf(ops, s), j, place, q)
    decreases |ops|
  {
    hide IsSession, After, Located, PiecesOf, ChainAfter, CapacityOf;
    if early == ops {
    } else {
      var before := ops[..|ops| - 1];
      assert early <= before;
      LastStep(ops);
      SessionKeepsPlace(early, before, s, j, place, q);
      OneStepOn(ops, s, j, place, q);
    }
  }

  lemma EarlierIsSession(early: seq<Op>, ops: seq<Op>)
    requires early <= ops && IsSession(ops)
    ensures IsSession(early)
    decreases |ops|
  {
    hide After, Enabled;
    if |early| < |ops| {
      assert early <= ops[..|ops| - 1];
      EarlierIsSession(early, ops[..|ops| - 1]);
    } else {
      assert early == ops;
    }
  }

  // ---------- The start of a stretch

  /** The stretch of stream s under way began at byte q, and its start is on file. */
  ghost predicate Tagged(ops: seq<Op>, s: nat, q: nat) {
    && IsSession(ops) && 2 <= s < |After(ops).writers|
    && PhaseOf(ops, s) == Begun(q) && Unreported(After(ops).writers[s]) == []
  }

  /** When the stretch was closed off and all its buffers went to file, its start is reported. */
  lemma {:induction false} SavedIsTagged(ops: seq<Op>, s: nat, q: nat)
    requires IsSession(ops) && 2 <= s < |After(ops).writers| && PhaseOf(ops, s) == Begun(q)
    requires Saved(ops, s) && After(ops).writers[s].queue == []
    ensures Tagged(ops, s, q)
  {
    hide StoreFits, IsSession, After, StoriesAfter, TilesAfter, Chain, PositionOf, Listed, Knows, Content, FirstMark, Written,
      FirstItem, PhaseOf, Saved, WriterFits, StretchFits, OnFile;
    SessionKeepsStore(ops);
    var st, stories := After(ops), StoriesAfter(ops);
    assert Tells(stories[s], st.writers[s], ops, s);
    StoryKnown(st, TilesAfter(ops), stories, s);
    assert Unreported(st.writers[s]) == [];
  }

  /** The place in the tag is where the stretch began. */
  lemma TagIsStart(ops: seq<Op>, s: nat, q: nat) returns (j: nat)
    requires Tagged(ops, s, q)
    ensures |After(ops).tags| == |After(ops).writers|
    ensures Located(ChainAfter(ops, s), PiecesOf(ops, s), CapacityOf(ops, s), j, After(ops).tags[s], q)
  {
    hide StoreFits, IsSession, After, StoriesAfter, TilesAfter, Chain, PositionOf, Unreported, Listed, Knows, Content, FirstMark, Written, FirstItem;
    SessionKeepsStore(ops);
    var st, tiles, stories := After(ops), TilesAfter(ops), StoriesAfter(ops);
    assert Tells(stories[s], st.writers[s], ops, s);
    StoryKnown(st, tiles, stories, s);
    j := stories[s].stretch.spot.piece;
  }

  // ---------- Replaying a stretch

  lemma {:induction false} TailSuffix(c: seq<Block>, j: nat, i: nat, end: nat)
    requires AllSound(c) && j <= |c| && AllSound(c[j..])
    ensures Tail(c[j..], i, end) == Tail(c, j + i, end)
    decreases |c| - i
  {
    hide Decode, AllSound;
    if j + i < |c| {
      TailSuffix(c, j, i + 1, end);
    }
  }

  lemma {:induction false} RangeSuffix(c: seq<Block>, j: nat, i: nat, start: nat, end: nat)
    requires AllSound(c) && j <= |c| && AllSound(c[j..])
    ensures Range(c[j..], i, start, end) == Range(c, j + i, start, end)
    decreases |c| - i
  {
    hide Decode, AllSound, Tail;
    if j + i < |c| {
      TailSuffix(c, j, i + 1, end);
      RangeSuffix(c, j, i + 1, start, end);
    }
  }

  /** Two places of a stream are in the order of their positions. */
  lemma PlacesInOrder(c: seq<Block>, pieces: seq<Piece>, capacity: nat, j: nat, from: Place, p: nat, k: nat, to: Place, q: nat)
    requires Shown(c, pieces) && Cut(pieces, capacity) && p <= q && p < |Content(pieces)| && q <= |Content(pieces)|
    requires Located(c, pieces, capacity, j, from, p) && Located(c, pieces, capacity, k, to, q)
    ensures j <= k && Sound(c[j]) && Sound(c[k]) && from.inside < FillOf(c[j]) && to.inside <= FillOf(c[k])
    ensures j == k ==> from.inside <= to.inside
  {
    hide Content, Decode, Shown;
    ShownFacts(c, pieces);
    InsidePiece(pieces, capacity, j, from.inside);
    InsidePiece(pieces, capacity, k, to.inside);
    if k < j {
      ContentGrows(pieces, k, j);
    }
  }

  lemma InsidePiece(pieces: seq<Piece>, capacity: nat, j: nat, inside: nat)
    requires Cut(pieces, capacity) && j < |pieces| && HEADER <= inside < capacity
    requires PositionOf(pieces, Spot(j, inside)) <= |Content(pieces)|
    ensures inside <= HEADER + |pieces[j].body| && (j < |pieces| - 1 ==> HEADER + |pieces[j].body| == capacity)
    ensures PositionOf(pieces, Spot(j, inside)) < |Content(pieces)| ==> inside < HEADER + |pieces[j].body|
  {
    hide Content;
    LastContent(pieces);
  }

  lemma ContentGrows(pieces: seq<Piece>, k: nat, j: nat)
    requires k < j < |pieces|
    ensures |Content(pieces[..k])| + |pieces[k].body| <= |Content(pieces[..j])|
  {
    hide Content;
    ContentAroundTwo(pieces, k, j);
  }

  /** The range between the starts of two stretches, on a stream that is wholly on file. */
  lemma StretchRange(c: seq<Block>, pieces: seq<Piece>, capacity: nat, j: nat, from: Place, p: nat, k: nat, to: Place, q: nat)
    requires Shown(c, pieces) && Readable(c, capacity) && Cut(pieces, capacity)
    requires p <= q && p < |Content(pieces)| && q <= |Content(pieces)|
    requires Located(c, pieces, capacity, j, from, p) && Located(c, pieces, capacity, k, to, q)
    ensures AllSound(c) && Sound(c[j])
    ensures var e := p + FillOf(c[j]) - from.inside;
            && p < e <= |Content(pieces)| && (e <= q <==> from.offset + FillOf(c[j]) <= to.offset + to.inside)
            && Range(c, j, from.offset + from.inside, to.offset + to.inside) == Content(pieces)[p..if q < e then e else q]
  {
    hide Content, Decode, Range, Shown, Cut, AllSound, PositionOf, Readable;
    PlacesInOrder(c, pieces, capacity, j, from, p, k, to, q);
    ShownFacts(c, pieces);
    FurtherOn(pieces, j, from.inside, FillOf(c[j]));
    RangeInside(c, pieces, capacity, j, from.inside, from.inside);
    if j == k {
      FurtherOn(pieces, j, from.inside, to.inside);
      RangeInside(c, pieces, capacity, j, from.inside, to.inside);
    } else {
      RangeAcross(c, pieces, capacity, j, from.inside, k, to.inside);
      InOneBlock(c, capacity, j, k);
      PieceBefore(pieces, j, k, to.inside);
    }
  }

  lemma FurtherOn(pieces: seq<Piece>, j: nat, inside: nat, further: nat)
    requires j <= |pieces|
    ensures PositionOf(pieces, Spot(j, further)) == PositionOf(pieces, Spot(j, inside)) + further - inside
  {
    hide Content;
  }

  lemma PieceBefore(pieces: seq<Piece>, j: nat, k: nat, inside: nat)
    requires j < k < |pieces| && HEADER <= inside
    ensures PositionOf(pieces, Spot(j, HEADER + |pieces[j].body|)) <= PositionOf(pieces, Spot(k, inside))
  {
    hide Content;
    ContentGrows(pieces, j, k);
  }

  lemma InOneBlock(c: seq<Block>, capacity: nat, j: nat, k: nat)
    requires Readable(c, capacity) && j < k < |c|
    ensures Sound(c[j]) && c[j].off + FillOf(c[j]) <= c[k].off
  {
    hide Decode;
  }

  /** What spooling to a stretch reads: from the place in its tag to the place in the next tag. */
  function Replay(file: seq<Byte>, capacity: nat, from: Place, to: Place): Option<seq<Byte>> {
    var c := Follow(file, from.offset, capacity);
    if AllSound(c) then Some(Range(c, 0, from.offset + from.inside, to.offset + to.inside)) else None
  }

  /** Where the data of the block at `off` ends. */
  function DataEnd(file: seq<Byte>, off: nat): nat
    requires off + HEADER <= |file|
  {
    off + Decode(file[off..off + HEADER]).fill
  }

  lemma BlockDataEnd(tiles: seq<Tile>, s: nat, j: nat)
    requires Headed(tiles) && j < |Chain(tiles, s)|
    ensures var b := Chain(tiles, s)[j];
            |b.tile| >= HEADER && b.off + HEADER <= |Flatten(tiles)| && DataEnd(Flatten(tiles), b.off) == b.off + FillOf(b)
  {
    hide Chain, Flatten, BigEndian, FromBigEndian;
    ChainBytes(tiles, s, j);
    HeadedChain(tiles, s);
    var b, file := Chain(tiles, s)[j], Flatten(tiles);
    assert file[b.off..b.off + HEADER] == file[b.off..b.off + |b.tile|][..HEADER] == b.tile[..HEADER];
    assert b.tile[..HEADER][16..20] == b.tile[16..20];
  }

  /** How many bytes of the stream there are up to the end of the data in the block where byte p is. */
  function BlockEnd(file: seq<Byte>, from: Place, p: nat): int
    requires from.offset + HEADER <= |file|
  {
    p + DataEnd(file, from.offset) - (from.offset + from.inside)
  }

  /** What a replay gives that starts at byte p and is to go on to byte q: the block where it starts is
      given to its end in any case. */
  function Delivered(written: seq<Byte>, p: nat, q: nat, blockEnd: int): seq<Byte>
    requires p <= q <= |written| && p <= blockEnd <= |written|
  {
    written[p..if q < blockEnd then blockEnd else q]
  }

  /** Replaying a stretch that began at byte p, up to one that began at byte q, gives the bytes recorded
      in between, exactly when the later stretch does not begin inside the data of the block the earlier
      one began in; otherwise the rest of that block comes with it. */
  lemma SegmentReplay(early: seq<Op>, later: seq<Op>, ops: seq<Op>, s: nat, p: nat, q: nat)
    requires early <= ops && later <= ops && IsSession(ops)
    requires Tagged(early, s, p) && Tagged(later, s, q) && p <= q
    requires s < |After(ops).writers| && Saved(ops, s) && After(ops).writers[s].queue == []
    requires p < |Written(ops, s)| && q <= |Written(ops, s)|
    ensures s < |After(early).tags| && s < |After(later).tags|
    ensures var file, from, to := After(ops).file, After(early).tags[s], After(later).tags[s];
            var replay := Replay(file, After(ops).writers[s].capacity, from, to);
            && from.offset + HEADER <= |file| && p < BlockEnd(file, from, p) <= |Written(ops, s)|
            && replay == Some(Delivered(Written(ops, s), p, q, BlockEnd(file, from, p)))
            && (replay.value == Written(ops, s)[p..q] <==> to.offset + to.inside >= DataEnd(file, from.offset))
  {
    hide IsSession, After, Located, PiecesOf, ChainAfter, CapacityOf, Written, PhaseOf, Saved, Unreported, Replay, DataEnd;
    var j := TagIsStart(early, s, p);
    var k := TagIsStart(later, s, q);
    var from, to := After(early).tags[s], After(later).tags[s];
    SessionKeepsPlace(early, ops, s, j, from, p);
    SessionKeepsPlace(later, ops, s, k, to, q);
    SegmentOf(ops, s, j, from, p, k, to, q);
  }

  /** A stream that is wholly on file. */
  lemma StreamOnFile(ops: seq<Op>, s: nat)
    requires IsSession(ops) && s < |After(ops).writers| && Saved(ops, s) && After(ops).writers[s].queue == []
    ensures var c, pieces, capacity := ChainAfter(ops, s), PiecesOf(ops, s), After(ops).writers[s].capacity;
            && Shown(c, pieces) && Readable(c, capacity) && Cut(pieces, capacity) && capacity > HEADER
            && Content(pieces) == Written(ops, s)
    ensures Headed(TilesAfter(ops)) && ChainAfter(ops, s) == Chain(TilesAfter(ops), s)
    ensures After(ops).file == Flatten(TilesAfter(ops))
  {
    hide Chain, Flatten, Decode, After, IsSession, StoreFits, Readable, Shown, FirstMark, Content, FirstItem, Written, Saved, PhaseOf;
    SessionKeepsStore(ops);
    var st, tiles, stories := After(ops), TilesAfter(ops), StoriesAfter(ops);
    FitsFacts(ops, st, tiles, stories);
    assert Tells(stories[s], st.writers[s], ops, s);
    FileIsBounded(ops);
    StreamReadable(st, tiles, stories, s);
    SavedIsShown(st, tiles, stories, s);
  }

  /** The blocks from block j on are found by following the links from its place. */
  lemma ReplayIsRange(tiles: seq<Tile>, s: nat, capacity: nat, j: nat, from: Place, to: Place)
    requires Headed(tiles) && Readable(Chain(tiles, s), capacity) && capacity > HEADER
    requires j < |Chain(tiles, s)| && Chain(tiles, s)[j].off == from.offset && AllSound(Chain(tiles, s))
    ensures Replay(Flatten(tiles), capacity, from, to)
            == Some(Range(Chain(tiles, s), j, from.offset + from.inside, to.offset + to.inside))
  {
    hide Chain, Flatten, Decode, Range, Readable, Follow, Sound;
    var c := Chain(tiles, s);
    FollowIsChain(tiles, s, capacity, j);
    assert AllSound(c[j..]) by {
      assert forall i | 0 <= i < |c[j..]| :: c[j..][i] == c[j + i];
    }
    RangeSuffix(c, j, 0, from.offset + from.inside, to.offset + to.inside);
  }

  lemma SegmentOf(ops: seq<Op>, s: nat, j: nat, from: Place, p: nat, k: nat, to: Place, q: nat)
    requires IsSession(ops) && s < |After(ops).writers| && Saved(ops, s) && After(ops).writers[s].queue == []
    requires p <= q && p < |Written(ops, s)| && q <= |Written(ops, s)|
    requires Located(ChainAfter(ops, s), PiecesOf(ops, s), CapacityOf(ops, s), j, from, p)
    requires Located(ChainAfter(ops, s), PiecesOf(ops, s), CapacityOf(ops, s), k, to, q)
    ensures var file := After(ops).file;
            var replay := Replay(file, After(ops).writers[s].capacity, from, to);
            && from.offset + HEADER <= |file| && p < BlockEnd(file, from, p) <= |Written(ops, s)|
            && replay == Some(Delivered(Written(ops, s), p, q, BlockEnd(file, from, p)))
            && (replay.value == Written(ops, s)[p..q] <==> to.offset + to.inside >= DataEnd(file, from.offset))
  {
    hide Chain, Flatten, Decode, After, IsSession, Readable, Shown, Range, Content, Written, Saved, Cut, DataEnd, Replay,
      ChainAfter, PiecesOf, PositionOf, AllSound, TilesAfter;
    StreamOnFile(ops, s);
    var c, pieces, capacity := ChainAfter(ops, s), PiecesOf(ops, s), After(ops).writers[s].capacity;
    StretchRange(c, pieces, capacity, j, from, p, k, to, q);
    BlockDataEnd(TilesAfter(ops), s, j);
    ReplayIsRange(TilesAfter(ops), s, capacity, j, from, to);
  }

  const FILE_END := Place(NO_NEXT, 0)

  /** The last stretch is replayed up to the end of the file, and is all that was recorded from its start. */
  lemma LastSegmentReplay(early: seq<Op>, ops: seq<Op>, s: nat, p: nat)
    requires early <= ops && IsSession(ops) && Tagged(early, s, p)
    requires s < |After(ops).writers| && Saved(ops, s) && After(ops).writers[s].queue == [] && p < |Written(ops, s)|
    ensures s < |After(early).tags|
    ensures Replay(After(ops).file, After(ops).writers[s].capacity, After(early).tags[s], FILE_END)
            == Some(Written(ops, s)[p..])
  {
    hide IsSession, After, PiecesOf, ChainAfter, Written, PhaseOf, Saved, Unreported, Replay, Chain, Flatten,
      Decode, Readable, Shown, Range, Content, Cut, PositionOf, AllSound, TilesAfter;
    var j := TagIsStart(early, s, p);
    var from := After(early).tags[s];
    SessionKeepsPlace(early, ops, s, j, from, p);
    StreamOnFile(ops, s);
    var c, pieces, capacity := ChainAfter(ops, s), PiecesOf(ops, s), CapacityOf(ops, s);
    ShownFacts(c, pieces);
    InsidePiece(pieces, capacity, j, from.inside);
    BlocksBelowEnd(ops, s);
    RangeToEnd(c, pieces, capacity, j, from.inside);
    ReplayIsRange(TilesAfter(ops), s, capacity, j, from, FILE_END);
  }

  lemma BlocksBelowEnd(ops: seq<Op>, s: nat)
    requires IsSession(ops) && s < |After(ops).writers| && Headed(TilesAfter(ops))
    requires Readable(Chain(TilesAfter(ops), s), After(ops).writers[s].capacity)
    ensures forall x | 0 <= x < |Chain(TilesAfter(ops), s)| ::
              Chain(TilesAfter(ops), s)[x].off + After(ops).writers[s].capacity <= NO_NEXT
  {
    hide Chain, Flatten, Decode, After, IsSession, TilesAfter, AllTell, StoreFits;
    SessionKeepsStore(ops);
    FitsFacts(ops, After(ops), TilesAfter(ops), StoriesAfter(ops));
    FileIsBounded(ops);
    ChainIncreases(TilesAfter(ops), s);
  }

  /** Only the streams of recorders, 2 and up, get into a tag. */
  lemma {:induction false} OnlyRecordersAreTagged(ops: seq<Op>, s: nat)
    requires IsSession(ops) && s < 2 && s < |After(ops).tags|
    ensures After(ops).tags[s] == Place(0, 0)
  {
    hide Image, WriteAt, BigEndian, Write, MarkItem, MarkSegment, CloseOff;
    if ops != [] {
      var before := ops[..|ops| - 1];
      if s < |After(before).tags| {
        OnlyRecordersAreTagged(before, s);
      }
    }
  }
}
