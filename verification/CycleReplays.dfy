/** Replaying the stretches of a recording: what a recorder is given for a cycle, compared with what it
    recorded in that cycle. */
module CycleReplays {
  import opened Bytes
  import opened ControlBlocks
  import opened BlockFiles
  import opened StreamWriters
  import opened LogStore
  import opened LogRuns
  import opened LogSessions
  import opened LogReading
  import opened LogSegments
  import opened StreamReaders
  import opened StreamReading
  import opened LogReplay
  import opened Recordings

  /** Up to where a cycle is replayed: to the place in the next tag, or to the end of the file. */
  function CycleEnd(r: Recording, i: nat, n: nat): Place
    requires n < |r.tags| && forall k | 0 <= k < |r.tags| :: i < |r.tags[k]|
  {
    if n + 1 < |r.tags| then r.tags[n + 1][i] else FILE_END
  }

  /** What a reader of stream s delivers. The first block must be one of the stream. */
  function Spooled(file: seq<Byte>, s: nat, capacity: nat, from: Place, to: Place): Option<seq<Byte>> {
    if from.offset + capacity <= |file| && Accepted(file[from.offset..from.offset + capacity], s) then
      Replay(file, capacity, from, to)
    else None
  }

  ghost predicate Replayable(r: Recording, i: nat, n: nat) {
    RecordingFits(r) && !r.open && i < |r.dirty| && n < |r.tags|
  }

  /** What recorder i is given for cycle n. */
  ghost function CycleReplay(r: Recording, i: nat, n: nat): Option<seq<Byte>>
    requires Replayable(r, i, n)
  {
    hide IsSession, After, RecorderFits, TagFits;
    Spooled(After(r.ops).file, i + 2, After(r.ops).writers[i + 2].capacity, r.tags[n][i], CycleEnd(r, i, n))
  }

  /** What recorder i recorded in cycle n. */
  ghost function CycleData(r: Recording, i: nat, n: nat): seq<Byte>
    requires Replayable(r, i, n)
  {
    assert TagFits(r, i, n);
    Written(r.ops, i + 2)[EndBefore(r.ends, i, n)..r.ends[n][i]]
  }

  /** The byte up to which cycle n would go if the block where it starts were not given to its end. */
  function Until(r: Recording, i: nat, n: nat, p: nat): nat
    requires n < |r.tags| == |r.ends|
  {
    if n + 1 == |r.tags| then |Written(r.ops, i + 2)|
    else if RecordedIn(r.ends, i, n + 1) then EndBefore(r.ends, i, n + 1)
    else p
  }

  lemma RecordingShape(r: Recording)
    requires RecordingFits(r)
    ensures Shape(r) && |r.tags| == |r.ends| && forall k | 0 <= k < |r.tags| :: |r.tags[k]| == |r.ends[k]| == |r.dirty|
  {
    hide IsSession, After, RecorderFits, TagFits;
  }

  lemma RestingStream(r: Recording, i: nat, n: nat, p: nat)
    requires Replayable(r, i, n) && LastStart(r.ends, i, n) == Some(p)
    ensures IsSession(r.ops) && i + 2 < |After(r.ops).writers| && Saved(r.ops, i + 2) && After(r.ops).writers[i + 2].queue == []
    ensures p < r.ends[n][i] <= |Written(r.ops, i + 2)|
    ensures n + 1 == |r.ends| ==> |Written(r.ops, i + 2)| == r.ends[n][i]
  {
    hide IsSession, After, LastStart, Written, Saved, EverMarked, EndBefore;
    assert TagFits(r, i, n) && RecorderFits(r, i);
  }

  lemma TagFound(r: Recording, i: nat, n: nat, p: nat) returns (early: seq<Op>)
    requires Replayable(r, i, n) && LastStart(r.ends, i, n) == Some(p)
    ensures TaggedAs(early, r.ops, i + 2, r.tags[n][i], p)
  {
    hide IsSession, After, LastStart, Written, Saved, EndBefore, TaggedAs, RecorderFits;
    assert TagFits(r, i, n);
    early :| TaggedAs(early, r.ops, i + 2, r.tags[n][i], p);
  }

  /** The first block of a place in a tag is accepted by a reader of the stream. */
  lemma FirstBlockAccepted(ops: seq<Op>, s: nat, early: seq<Op>, place: Place, p: nat, to: Place)
    requires TaggedAs(early, ops, s, place, p) && IsSession(ops)
    requires s < |After(ops).writers| && Saved(ops, s) && After(ops).writers[s].queue == []
    ensures var st := After(ops);
            Spooled(st.file, s, st.writers[s].capacity, place, to) == Replay(st.file, st.writers[s].capacity, place, to)
  {
    hide IsSession, After, Located, PiecesOf, Written, Saved, Replay, Accepted, Tagged;
    var j := PlaceFound(early, ops, s, p);
    RecordedOnFile(ops, s);
    LocatedBlock(ChainAfter(ops, s), PiecesOf(ops, s), After(ops).writers[s].capacity, j, place, p);
    BlockOnFile(After(ops).file, ChainAfter(ops, s), s, After(ops).writers[s].capacity, j);
  }

  lemma LocatedBlock(c: seq<Block>, pieces: seq<Piece>, capacity: nat, j: nat, place: Place, q: nat)
    requires Located(c, pieces, capacity, j, place, q)
    ensures j < |c| && c[j].off == place.offset
  {}

  lemma BlockOnFile(file: seq<Byte>, c: seq<Block>, s: nat, capacity: nat, j: nat)
    requires OnFileAs(file, c, s, capacity) && j < |c|
    ensures c[j].off + capacity <= |file| && Accepted(file[c[j].off..c[j].off + capacity], s)
  {
    hide Accepted, Readable, AllSound;
  }

  /** What a cycle's replay gives when something was recorded in it or before: from the start of the last
      stretch with data to the start of the next one, and in any case the block to its end. */
  lemma CycleReplayIs(r: Recording, i: nat, n: nat, p: nat)
    requires Replayable(r, i, n) && LastStart(r.ends, i, n) == Some(p)
    ensures IsSession(r.ops) && r.tags[n][i].offset + HEADER <= |After(r.ops).file|
    ensures var w, blockEnd := Written(r.ops, i + 2), BlockEnd(After(r.ops).file, r.tags[n][i], p);
            && p < blockEnd <= |w| && p <= Until(r, i, n, p) <= |w|
            && CycleReplay(r, i, n) == Some(Delivered(w, p, Until(r, i, n, p), blockEnd))
  {
    hide IsSession, After, LastStart, Written, Saved, EndBefore, Replay, BlockEnd, Delivered, Tagged, RecordingFits, Spooled;
    RecordingShape(r);
    var s, place := i + 2, r.tags[n][i];
    RestingStream(r, i, n, p);
    var early := TagFound(r, i, n, p);
    FirstBlockAccepted(r.ops, s, early, place, p, CycleEnd(r, i, n));
    SegmentReplay(early, early, r.ops, s, p, p);
    if n + 1 == |r.tags| {
      LastSegmentReplay(early, r.ops, s, p);
      WholeDelivered(Written(r.ops, s), p, BlockEnd(After(r.ops).file, place, p));
    } else {
      var q := Until(r, i, n, p);
      NextStart(r, i, n, p);
      var later := TagFound(r, i, n + 1, q);
      RestingStream(r, i, n + 1, q);
      SegmentReplay(early, later, r.ops, s, p, q);
    }
  }

  lemma WholeDelivered(w: seq<Byte>, p: nat, blockEnd: int)
    requires p <= blockEnd <= |w|
    ensures Delivered(w, p, |w|, blockEnd) == w[p..]
  {}

  lemma NextStart(r: Recording, i: nat, n: nat, p: nat)
    requires Replayable(r, i, n + 1) && LastStart(r.ends, i, n) == Some(p)
    ensures LastStart(r.ends, i, n + 1) == Some(Until(r, i, n, p)) && p <= Until(r, i, n, p)
  {
    hide IsSession, After, Written, RecorderFits;
    assert TagFits(r, i, n);
  }

  /** The block at the start of the file is the first one of its stream. */
  lemma {:induction false} FirstTile(tiles: seq<Tile>, s: nat)
    requires Headed(tiles) && tiles != [] && StreamOf(tiles[0]) == s
    ensures Chain(tiles, s) != [] && Chain(tiles, s)[0].off == 0
    ensures |Flatten(tiles)| >= |tiles[0]| && Flatten(tiles)[..|tiles[0]|] == tiles[0]
  {
    var k := |tiles| - 1;
    if k == 0 {
      assert tiles[..0] == [] && Flatten([]) == [];
      assert Flatten(tiles) == [] + tiles[0];
    } else {
      assert tiles[..k][0] == tiles[0];
      FirstTile(tiles[..k], s);
    }
  }

  lemma {:induction false} SomeTile(tiles: seq<Tile>)
    requires Headed(tiles) && Flatten(tiles) != []
    ensures tiles != [] && |tiles[0]| >= HEADER && |Flatten(tiles)| >= |tiles[0]| && Flatten(tiles)[..|tiles[0]|] == tiles[0]
  {
    hide Chain;
    if tiles != [] {
      FirstTile(tiles, StreamOf(tiles[0]));
    }
  }

  lemma SameStream(file: seq<Byte>, t: Tile, capacity: nat, s: nat)
    requires HEADER <= |t| <= |file| && file[..|t|] == t && HEADER <= capacity <= |file|
    requires Accepted(file[0..capacity], s)
    ensures StreamOf(t) == s
  {
    hide CrcOk, FromBigEndian;
    assert file[0..capacity][10..12] == file[10..12] == file[..|t|][10..12];
  }

  /** A recorder that recorded nothing yet is sent to the first byte of the file: what is there is not its
      own, or it is its own and has data. */
  lemma NoStartReplay(ops: seq<Op>, s: nat, at: nat, offset: nat, to: Place)
    requires Quiet(ops, s, at, offset)
    ensures IsSession(ops) && s < |After(ops).writers|
    ensures Spooled(After(ops).file, s, After(ops).writers[s].capacity, Place(0, HEADER), to) != Some([])
  {
    hide IsSession, After, Written, Saved, Replay, Accepted, StoreFits, AllTell, Chain, Flatten, Cut, TilesAfter, StoriesAfter, EverMarked;
    SessionKeepsStore(ops);
    var st, tiles, stories := After(ops), TilesAfter(ops), StoriesAfter(ops);
    FitsFacts(ops, st, tiles, stories);
    WholeFits(st, tiles, stories, s);
    CutFacts(stories[s].pieces, st.writers[s].capacity);
    var capacity := st.writers[s].capacity;
    if capacity <= |st.file| && Accepted(st.file[0..capacity], s) {
      SomeTile(tiles);
      SameStream(st.file, tiles[0], capacity, s);
      FirstTile(tiles, s);
      OwnFirstBlock(ops, s, to);
    }
  }

  lemma OwnFirstBlock(ops: seq<Op>, s: nat, to: Place)
    requires IsSession(ops) && s < |After(ops).writers| && Saved(ops, s) && After(ops).writers[s].queue == []
    requires Written(ops, s) != [] && Headed(TilesAfter(ops))
    requires Chain(TilesAfter(ops), s) != [] && Chain(TilesAfter(ops), s)[0].off == 0
    ensures var replay := Replay(After(ops).file, After(ops).writers[s].capacity, Place(0, HEADER), to);
            replay != Some([])
  {
    hide IsSession, After, Written, Saved, Chain, Flatten, Cut, TilesAfter, Decode, Range, Readable, Shown, Content, AllSound;
    StreamOnFile(ops, s);
    var c, pieces, capacity := ChainAfter(ops, s), PiecesOf(ops, s), After(ops).writers[s].capacity;
    ShownFacts(c, pieces);
    FirstPieceHasData(pieces, capacity);
    ReplayIsRange(TilesAfter(ops), s, capacity, 0, Place(0, HEADER), to);
    RangeEnters(c, 0, HEADER, to.offset + to.inside);
    assert c[0].tile[HEADER..FillOf(c[0])] != [];
  }

  lemma FirstPieceHasData(pieces: seq<Piece>, capacity: nat)
    requires Cut(pieces, capacity) && Content(pieces) != []
    ensures pieces[0].body != []
  {
    if |pieces| == 1 {
      assert Content(pieces[..0]) == [];
    }
  }

  /** Something was recorded in the cycle and, unless it is the last one: where something was recorded in
      the next cycle too, that began behind the data of the block the cycle began in; where nothing was, the
      cycle's data end with that block. */
  ghost predicate Separate(r: Recording, i: nat, n: nat)
    requires Shape(r) && i < |r.dirty| && n < |r.tags|
  {
    RecordedIn(r.ends, i, n)
    && (n + 1 < |r.tags| ==>
          && r.tags[n][i].offset + HEADER <= |After(r.ops).file|
          && var blockEnd := BlockEnd(After(r.ops).file, r.tags[n][i], EndBefore(r.ends, i, n));
          if RecordedIn(r.ends, i, n + 1) then blockEnd <= r.ends[n][i] else blockEnd == r.ends[n][i])
  }

  lemma SliceIs(w: seq<Byte>, p: nat, x: nat, y: nat)
    requires p <= x <= |w| && p <= y <= |w|
    ensures w[p..x] == w[p..y] <==> x == y
  {
    assert |w[p..x]| == x - p && |w[p..y]| == y - p;
  }

  lemma StartIsOwn(r: Recording, i: nat, n: nat)
    requires Replayable(r, i, n)
    ensures Shape(r) && (RecordedIn(r.ends, i, n) ==> LastStart(r.ends, i, n) == Some(EndBefore(r.ends, i, n)))
    ensures !RecordedIn(r.ends, i, n) ==> CycleData(r, i, n) == []
    ensures RecordedIn(r.ends, i, n) ==>
              EndBefore(r.ends, i, n) < r.ends[n][i] <= |Written(r.ops, i + 2)|
              && CycleData(r, i, n) == Written(r.ops, i + 2)[EndBefore(r.ends, i, n)..r.ends[n][i]]
  {
    hide IsSession, After, Written, RecorderFits, EndBefore;
    assert TagFits(r, i, n);
  }

  lemma NotRecordedYet(r: Recording, i: nat, n: nat)
    requires Replayable(r, i, n) && LastStart(r.ends, i, n) == None
    ensures CycleReplay(r, i, n) != Some([])
  {
    hide IsSession, After, Written, EndBefore, LastStart, Quiet, Spooled;
    RecordingShape(r);
    assert TagFits(r, i, n) && RecorderFits(r, i);
    NoStartReplay(r.ops, i + 2, LastEnd(r, i), LastOffset(r, i), CycleEnd(r, i, n));
  }

  /** In every recording, whoever recorded in whichever cycles: a recorder is given the data of a cycle, and
      nothing else, if and only if the cycle is separate. */
  lemma CycleReplayIffSeparate(capacities: seq<nat>, acts: seq<Act>, i: nat, n: nat)
    requires IsRecording(capacities, acts)
    requires var r := Recorded(capacities, acts); !r.open && i < |r.dirty| && n < |r.tags|
    ensures var r := Recorded(capacities, acts);
            && Replayable(r, i, n) && Shape(r)
            && (CycleReplay(r, i, n) == Some(CycleData(r, i, n)) <==> Separate(r, i, n))
  {
    hide IsRecording, Recorded, RecordingFits, CycleReplay, CycleData, Separate, Shape;
    EveryRecordingFits(capacities, acts);
    var r := Recorded(capacities, acts);
    StartIsOwn(r, i, n);
    ReplayIffSeparate(r, i, n);
  }

  lemma ReplayIffSeparate(r: Recording, i: nat, n: nat)
    requires Replayable(r, i, n) && Shape(r)
    ensures CycleReplay(r, i, n) == Some(CycleData(r, i, n)) <==> Separate(r, i, n)
  {
    hide IsSession, After, Written, EndBefore, CycleReplay, CycleData, BlockEnd, RecordingFits, Shape;
    StartIsOwn(r, i, n);
    ShapeFacts(r);
    if LastStart(r.ends, i, n).None? {
      NotRecordedYet(r, i, n);
    } else {
      var p := LastStart(r.ends, i, n).value;
      CycleReplayIs(r, i, n, p);
      RestingStream(r, i, n, p);
      var w, blockEnd := Written(r.ops, i + 2), BlockEnd(After(r.ops).file, r.tags[n][i], p);
      var until := Until(r, i, n, p);
      if RecordedIn(r.ends, i, n) {
        NextBegins(r, i, n);
        SliceIs(w, p, if until < blockEnd then blockEnd else until, r.ends[n][i]);
      } else {
        assert |Delivered(w, p, until, blockEnd)| > 0;
      }
    }
  }

  lemma NextBegins(r: Recording, i: nat, n: nat)
    requires Shape(r) && i < |r.dirty| && n < |r.tags|
    ensures |r.ends| == |r.tags| && n < |r.ends| && i < |r.ends[n]| && EndBefore(r.ends, i, n + 1) == r.ends[n][i]
  {
    hide IsSession, After;
  }

  lemma CycleIsReadable(r: Recording, i: nat, n: nat) returns (c: seq<Block>, j: nat)
    requires Replayable(r, i, n) && LastStart(r.ends, i, n).Some?
    ensures Shape(r) && c == ChainAfter(r.ops, i + 2)
    ensures var file, capacity := After(r.ops).file, After(r.ops).writers[i + 2].capacity;
            var from, to := r.tags[n][i], CycleEnd(r, i, n);
            var end := to.offset + to.inside;
            && OnFileAs(file, c, i + 2, capacity) && EndFits(c, end) && AllSound(c)
            && j < |c| && c[j].off == from.offset && Enters(c, j, from.offset + from.inside, end)
            && CycleReplay(r, i, n) == Some(Range(c, j, from.offset + from.inside, end))
  {
    hide IsSession, After, LastStart, Written, Saved, EndBefore, Replay, RecordingFits, Spooled, Enters, EndFits, AllSound,
      OnFileAs, Range, Located, ChainAfter, PiecesOf, Tagged;
    RecordingShape(r);
    var s, p := i + 2, LastStart(r.ends, i, n).value;
    RestingStream(r, i, n, p);
    var early := TagFound(r, i, n, p);
    FirstBlockAccepted(r.ops, s, early, r.tags[n][i], p, CycleEnd(r, i, n));
    c := ChainAfter(r.ops, s);
    j := PlaceFound(early, r.ops, s, p);
    if n + 1 == |r.tags| {
      LastIsReadable(r.ops, s, j, r.tags[n][i], p);
    } else {
      var q := Until(r, i, n, p);
      NextStart(r, i, n, p);
      RestingStream(r, i, n + 1, q);
      var later := TagFound(r, i, n + 1, q);
      var k := PlaceFound(later, r.ops, s, q);
      StretchIsReadable(r.ops, s, j, r.tags[n][i], p, k, r.tags[n + 1][i], q);
    }
  }

  /** Spooling to a cycle and reading it to its end: once a recorder has recorded something, its replay is what
      comes out of its reader, whatever the size of the cache and whenever the loads are run. */
  method ReplayCycle(rd: FileStreamRead, file: seq<Byte>, from: Place, to: Place, service: seq<bool>,
                     ghost r: Recording, ghost i: nat, ghost n: nat) returns (data: seq<Byte>)
    requires Replayable(r, i, n) && LastStart(r.ends, i, n).Some? && file == After(r.ops).file
    requires from == r.tags[n][i] && to == CycleEnd(r, i, n)
    requires rd.stream == i + 2 && rd.capacity == After(r.ops).writers[i + 2].capacity && rd.cacheSize >= 1
    requires OldJobs(rd.jobs, rd.cycle, ChainAfter(r.ops, i + 2))
    modifies rd
    ensures CycleReplay(r, i, n) == Some(data)
  {
    hide *;
    ghost var c, j := CycleIsReadable(r, i, n);
    data := ReadRange(rd, file, c, j, from.offset, to.offset + to.inside, from.inside, service);
  }
}
