/** A reader on the file of a recording session: what comes out of its iterator is what the session wrote. */
module LogReplay {
  import opened Bytes
  import opened ControlBlocks
  import opened BlockFiles
  import opened StreamWriters
  import opened LogStore
  import opened LogRuns
  import opened LogSessions
  import opened LogReading
  import opened LogSegments
  import opened StreamReaders
  import opened StreamReading

  lemma {:induction false} BlocksAccepted(st: Store, tiles: seq<Tile>, stories: seq<Story>, s: nat)
    requires StoreFits(st, tiles, stories) && s < |st.writers|
    ensures Headed(tiles) && forall k | 0 <= k < |Chain(tiles, s)| :: Accepted(Chain(tiles, s)[k].tile, s)
  {
    hide Chain, Flatten, Decode, CrcOk, Follows, Knows, Earlier;
    StoryKnown(st, tiles, stories, s);
    var c, w, pieces := Chain(tiles, s), st.writers[s], stories[s].pieces;
    forall k | 0 <= k < |c|
      ensures Accepted(c[k].tile, s)
    {
      assert BlockFits(c, k, w.stream, w.capacity, pieces, NO_NEXT);
    }
  }

  /** A stream of a recorded file can be loaded block by block: every block passes the tests on its
      checksum and its stream. */
  lemma {:induction false} RecordedOnFile(ops: seq<Op>, s: nat)
    requires IsSession(ops) && s < |After(ops).writers| && Saved(ops, s) && After(ops).writers[s].queue == []
    ensures OnFileAs(After(ops).file, ChainAfter(ops, s), s, After(ops).writers[s].capacity)
    ensures var c := ChainAfter(ops, s); forall x | 0 <= x < |c| :: c[x].off + After(ops).writers[s].capacity <= NO_NEXT
    ensures AllSound(ChainAfter(ops, s))
  {
    hide Chain, Flatten, Decode, After, IsSession, StoreFits, AllTell, Readable, Shown, Content, Written, Saved, Cut, TilesAfter, AllSound, Accepted;
    SessionKeepsStore(ops);
    StreamOnFile(ops, s);
    BlocksBelowEnd(ops, s);
    BlocksAccepted(After(ops), TilesAfter(ops), StoriesAfter(ops), s);
    ShownFacts(ChainAfter(ops, s), PiecesOf(ops, s));
    var c, capacity := ChainAfter(ops, s), After(ops).writers[s].capacity;
    forall k | 0 <= k < |c|
      ensures |c[k].tile| == capacity
      ensures c[k].off + capacity <= |After(ops).file| && After(ops).file[c[k].off..c[k].off + capacity] == c[k].tile
    {
      TileSize(c, capacity, k);
      ChainBytes(TilesAfter(ops), s, k);
    }
  }

  /** After any session, full or not, the blocks of every stream are numbered from 0, and what a block does
      not use yet is zero on file. */
  lemma {:induction false} UnusedIsZero(ops: seq<Op>, s: nat, j: nat)
    requires IsSession(ops) && s < |After(ops).writers| && j < |ChainAfter(ops, s)|
    ensures var b, st := ChainAfter(ops, s)[j], After(ops);
            && |b.tile| == st.writers[s].capacity >= HEADER && b.off + |b.tile| <= |st.file|
            && Decode(b.tile).stream == s && Decode(b.tile).num == j % TWO32 && Decode(b.tile).size == |b.tile|
            && st.file[b.off..b.off + |b.tile|] == b.tile && FillOf(b) <= |b.tile|
            && forall i | FillOf(b) <= i < |b.tile| :: b.tile[i] == 0
  {
    hide Chain, Flatten, CrcOk, Follows, Knows, Earlier, Decode, After, IsSession, TilesAfter, StoriesAfter, AllTell;
    SessionKeepsStore(ops);
    var st, tiles, stories := After(ops), TilesAfter(ops), StoriesAfter(ops);
    StoryKnown(st, tiles, stories, s);
    var c, w := Chain(tiles, s), st.writers[s];
    assert BlockFits(c, j, w.stream, w.capacity, stories[s].pieces, NO_NEXT);
    ChainBytes(tiles, s, j);
  }

  lemma TileSize(c: seq<Block>, capacity: nat, k: nat)
    requires Readable(c, capacity) && k < |c|
    ensures |c[k].tile| == capacity
  {
    hide Decode;
  }

  /** A place in the stream as the end of a range. */
  lemma {:induction false} PlaceEnds(c: seq<Block>, capacity: nat, k: nat, inside: nat)
    requires Readable(c, capacity) && k < |c| && HEADER <= inside < capacity && c[k].off + inside <= NO_NEXT
    ensures EndFits(c, c[k].off + inside)
  {
    hide Decode;
    forall i | 0 <= i < |c| && c[i].off < c[k].off + inside
      ensures c[i].off + HEADER <= c[k].off + inside
    {
      if i < k {
        assert c[i].off + capacity <= c[k].off;
      }
    }
  }

  lemma {:induction false} EntersAtPlace(c: seq<Block>, j: nat, inside: nat, end: nat)
    requires AllSound(c) && j < |c| && Sound(c[j]) && HEADER <= inside < FillOf(c[j])
    ensures Enters(c, j, c[j].off + inside, end)
  {
    hide Decode;
  }

  lemma {:induction false} EntersAtMark(c: seq<Block>, i: nat, j: nat, start: nat, end: nat)
    requires AllSound(c) && forall x | 0 <= x < |c| :: start <= c[x].off
    requires i <= j <= |c| && forall x | i <= x < j :: Sound(c[x]) && MarkOf(c[x]) == 0
    requires j < |c| ==> Sound(c[j]) && HEADER <= MarkOf(c[j]) < FillOf(c[j])
    ensures Enters(c, i, start, end)
    decreases j - i
  {
    hide Decode;
    if i < j {
      EntersAtMark(c, i + 1, j, start, end);
    }
  }

  lemma {:induction false} PlaceFound(early: seq<Op>, ops: seq<Op>, s: nat, p: nat) returns (j: nat)
    requires early <= ops && IsSession(ops) && Tagged(early, s, p)
    ensures s < |After(early).tags| && s < |After(ops).writers|
    ensures Located(ChainAfter(ops, s), PiecesOf(ops, s), After(ops).writers[s].capacity, j, After(early).tags[s], p)
  {
    hide IsSession, After, Located, PiecesOf, ChainAfter, PhaseOf, Unreported;
    j := TagIsStart(early, s, p);
    SessionKeepsPlace(early, ops, s, j, After(early).tags[s], p);
  }

  lemma {:induction false} StretchIsReadable(ops: seq<Op>, s: nat, j: nat, from: Place, p: nat, k: nat, to: Place, q: nat)
    requires IsSession(ops) && s < |After(ops).writers| && Saved(ops, s) && After(ops).writers[s].queue == []
    requires p <= q && p < |Written(ops, s)| && q <= |Written(ops, s)|
    requires Located(ChainAfter(ops, s), PiecesOf(ops, s), After(ops).writers[s].capacity, j, from, p)
    requires Located(ChainAfter(ops, s), PiecesOf(ops, s), After(ops).writers[s].capacity, k, to, q)
    ensures var c, capacity, end := ChainAfter(ops, s), After(ops).writers[s].capacity, to.offset + to.inside;
            && OnFileAs(After(ops).file, c, s, capacity) && EndFits(c, end) && AllSound(c)
            && j < |c| && c[j].off == from.offset && Enters(c, j, from.offset + from.inside, end)
            && Replay(After(ops).file, capacity, from, to) == Some(Range(c, j, from.offset + from.inside, end))
  {
    hide Chain, Flatten, Decode, After, IsSession, Readable, Shown, Range, Content, Written, Saved, Cut, Replay,
      ChainAfter, PiecesOf, PositionOf, AllSound, TilesAfter, Enters, EndFits, Accepted;
    RecordedOnFile(ops, s);
    StreamOnFile(ops, s);
    var c, pieces, capacity := ChainAfter(ops, s), PiecesOf(ops, s), After(ops).writers[s].capacity;
    PlacesInOrder(c, pieces, capacity, j, from, p, k, to, q);
    PlaceEnds(c, capacity, k, to.inside);
    EntersAtPlace(c, j, from.inside, to.offset + to.inside);
    ReplayIsRange(TilesAfter(ops), s, capacity, j, from, to);
  }

  /** The same up to the end of the file. */
  lemma {:induction false} LastIsReadable(ops: seq<Op>, s: nat, j: nat, from: Place, p: nat)
    requires IsSession(ops) && s < |After(ops).writers| && Saved(ops, s) && After(ops).writers[s].queue == []
    requires p < |Written(ops, s)|
    requires Located(ChainAfter(ops, s), PiecesOf(ops, s), After(ops).writers[s].capacity, j, from, p)
    ensures var c, capacity := ChainAfter(ops, s), After(ops).writers[s].capacity;
            && OnFileAs(After(ops).file, c, s, capacity) && EndFits(c, NO_NEXT) && AllSound(c)
            && j < |c| && c[j].off == from.offset && Enters(c, j, from.offset + from.inside, NO_NEXT)
            && Replay(After(ops).file, capacity, from, FILE_END) == Some(Range(c, j, from.offset + from.inside, NO_NEXT))
  {
    hide Chain, Flatten, Decode, After, IsSession, Readable, Shown, Range, Content, Written, Saved, Cut, Replay,
      ChainAfter, PiecesOf, PositionOf, AllSound, TilesAfter, Enters, Accepted;
    RecordedOnFile(ops, s);
    StreamOnFile(ops, s);
    var c, pieces, capacity := ChainAfter(ops, s), PiecesOf(ops, s), After(ops).writers[s].capacity;
    ShownFacts(c, pieces);
    InsidePiece(pieces, capacity, j, from.inside);
    EntersAtPlace(c, j, from.inside, NO_NEXT);
    ReplayIsRange(TilesAfter(ops), s, capacity, j, from, FILE_END);
  }

  /** Replaying a stretch of a recording through a reader: the bytes recorded from its start to the start
      of the later stretch come out, and nothing else exactly when the later stretch does not begin
      inside the data of the block the first one began in. */
  method ReplayStretch(rd: FileStreamRead, file: seq<Byte>, from: Place, to: Place, service: seq<bool>,
                       ghost early: seq<Op>, ghost later: seq<Op>, ghost ops: seq<Op>, ghost p: nat, ghost q: nat)
    returns (data: seq<Byte>)
    requires early <= ops && later <= ops && IsSession(ops) && file == After(ops).file
    requires Tagged(early, rd.stream, p) && Tagged(later, rd.stream, q) && p <= q
    requires rd.stream < |After(ops).writers| && Saved(ops, rd.stream) && After(ops).writers[rd.stream].queue == []
    requires p < |Written(ops, rd.stream)| && q <= |Written(ops, rd.stream)|
    requires rd.stream < |After(early).tags| && rd.stream < |After(later).tags|
    requires from == After(early).tags[rd.stream] && to == After(later).tags[rd.stream]
    requires rd.cacheSize >= 1 && rd.capacity == After(ops).writers[rd.stream].capacity && OldJobs(rd.jobs, rd.cycle, ChainAfter(ops, rd.stream))
    modifies rd
    ensures from.offset + HEADER <= |file| && p < BlockEnd(file, from, p) <= |Written(ops, rd.stream)|
    ensures data == Delivered(Written(ops, rd.stream), p, q, BlockEnd(file, from, p))
    ensures data == Written(ops, rd.stream)[p..q] <==> to.offset + to.inside >= DataEnd(file, from.offset)
  {
    hide *;
    ghost var s := rd.stream;
    SegmentReplay(early, later, ops, s, p, q);
    ghost var j := PlaceFound(early, ops, s, p);
    ghost var k := PlaceFound(later, ops, s, q);
    StretchIsReadable(ops, s, j, from, p, k, to, q);
    data := ReadRange(rd, file, ChainAfter(ops, s), j, from.offset, to.offset + to.inside, from.inside, service);
  }

  /** A whole stream has a first block, and reading can start there. */
  lemma {:induction false} StreamIsReadable(ops: seq<Op>, s: nat)
    requires IsSession(ops) && s < |After(ops).writers|
    requires Saved(ops, s) && After(ops).writers[s].queue == []
    requires FirstItem(ops, s).Some? ==> FirstItem(ops, s).value < |Written(ops, s)|
    ensures |After(ops).firsts| == |After(ops).writers| && After(ops).firsts[s].Some?
    ensures var c, first := ChainAfter(ops, s), After(ops).firsts[s].value;
            && OnFileAs(After(ops).file, c, s, After(ops).writers[s].capacity) && EndFits(c, NO_NEXT) && AllSound(c)
            && c != [] && c[0].off == first && Enters(c, 0, first, NO_NEXT)
            && Range(c, 0, first, NO_NEXT)
               == if FirstItem(ops, s).Some? then Written(ops, s)[FirstItem(ops, s).value..] else []
  {
    hide Chain, Flatten, Decode, After, IsSession, Readable, Shown, Range, Content, Written, Saved, Cut,
      FirstMark, FirstItem, PositionOf, AllSound, TilesAfter, StoriesAfter, Enters, Accepted, StoreFits;
    RecordedOnFile(ops, s);
    StreamOnFile(ops, s);
    SessionKeepsStore(ops);
    var st, tiles, stories := After(ops), TilesAfter(ops), StoriesAfter(ops);
    assert Tells(stories[s], st.writers[s], ops, s);
    WholeFits(st, tiles, stories, s);
    var c, pieces, capacity := ChainAfter(ops, s), PiecesOf(ops, s), st.writers[s].capacity;
    WholeEnters(c, pieces, capacity);
    WholeRange(c, pieces, capacity);
  }

  lemma {:induction false} WholeEnters(c: seq<Block>, pieces: seq<Piece>, capacity: nat)
    requires Shown(c, pieces) && Readable(c, capacity) && Cut(pieces, capacity) && AllSound(c)
    requires FirstMark(pieces).Some? ==> FirstMark(pieces).value < |Content(pieces)|
    ensures c != [] && Enters(c, 0, c[0].off, NO_NEXT)
  {
    hide Content, Decode, FirstMark, Enters;
    var j := FirstMarked(pieces, 0);
    if j < |pieces| {
      assert Marked(pieces, j);
    }
    FirstMarkIs(pieces, j);
    ShownFacts(c, pieces);
    if j < |pieces| {
      hide PositionOf;
      MarkIsBefore(pieces, capacity, j);
    }
    EntersAtMark(c, 0, j, c[0].off, NO_NEXT);
  }

  /** Reading a whole recorded stream: what was written from the first item on comes out, byte by byte. */
  method ReadBack(rd: FileStreamRead, file: seq<Byte>, first: nat, service: seq<bool>, ghost ops: seq<Op>)
    returns (data: seq<Byte>)
    requires IsSession(ops) && file == After(ops).file && rd.stream < |After(ops).writers|
    requires Saved(ops, rd.stream) && After(ops).writers[rd.stream].queue == []
    requires FirstItem(ops, rd.stream).Some? ==> FirstItem(ops, rd.stream).value < |Written(ops, rd.stream)|
    requires rd.stream < |After(ops).firsts| && After(ops).firsts[rd.stream] == Some(first)
    requires rd.cacheSize >= 1 && rd.capacity == After(ops).writers[rd.stream].capacity && OldJobs(rd.jobs, rd.cycle, ChainAfter(ops, rd.stream))
    modifies rd
    ensures data == if FirstItem(ops, rd.stream).Some? then Written(ops, rd.stream)[FirstItem(ops, rd.stream).value..] else []
  {
    hide *;
    StreamIsReadable(ops, rd.stream);
    data := ReadRange(rd, file, ChainAfter(ops, rd.stream), 0, first, NO_NEXT, 0, service);
  }
}
