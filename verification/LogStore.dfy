/** FileHandler and its writers: many streams recorded in one file of blocks. The model works on the
    bytes of the file; the invariant says which blocks these bytes are, and for every stream that its
    blocks are a linked list holding what was written. */
module LogStore {
  import opened Bytes
  import opened ControlBlocks
  import opened BlockFiles
  import opened StreamWriters

  // ---------- One stream on file

  /** Block number j of a stream, as it must be on file. */
  ghost predicate Holds(b: Block, stream: nat, capacity: nat, j: nat, next: nat, p: Piece) {
    && |b.tile| == capacity >= HEADER && CrcOk(b.tile)
    && var h := Decode(b.tile);
    && h.stream == stream && h.size == capacity && h.num == j % TWO32 && h.next == next
    && HEADER <= h.fill <= capacity && Earlier(b.tile[HEADER..h.fill], h.objectOffset, p)
    && ZeroFrom(b.tile, h.fill)
  }

  /** The bytes of a block that are not used yet are zero. */
  ghost predicate ZeroFrom(t: seq<Byte>, fill: nat) {
    forall i | fill <= i < |t| :: t[i] == 0
  }

  function FillOf(b: Block): nat
    requires |b.tile| >= HEADER
  {
    Decode(b.tile).fill
  }

  function LinkOf(blocks: seq<Block>, j: nat, end: nat): nat
    requires j < |blocks|
  {
    if j + 1 < |blocks| then blocks[j + 1].off else end
  }

  ghost predicate BlockFits(blocks: seq<Block>, j: nat, stream: nat, capacity: nat, pieces: seq<Piece>, end: nat)
    requires j < |blocks| <= |pieces|
  {
    && Holds(blocks[j], stream, capacity, j, LinkOf(blocks, j, end), pieces[j])
    && (j < |blocks| - 1 ==> FillOf(blocks[j]) == capacity)
  }

  /** The blocks of a stream: numbered from 0, linked to each other, and full up to the last; the last
      one links to `end`. */
  ghost predicate Listed(blocks: seq<Block>, stream: nat, capacity: nat, pieces: seq<Piece>, end: nat) {
    && |blocks| <= |pieces|
    && forall j | 0 <= j < |blocks| :: BlockFits(blocks, j, stream, capacity, pieces, end)
  }

  ghost predicate Partial(blocks: seq<Block>, capacity: nat) {
    blocks != [] && var b := blocks[|blocks| - 1]; |b.tile| >= HEADER && FillOf(b) < capacity
  }

  /** What the writer knows of its blocks on file. */
  ghost predicate Knows(w: Writer, blocks: seq<Block>) {
    && w.previous == (if blocks == [] then None else Some(blocks[|blocks| - 1].off))
    && w.partial == (if Partial(blocks, w.capacity) then w.previous else None)
    && w.num == (if Partial(blocks, w.capacity) then |blocks| - 1 else |blocks|)
  }

  /** The last piece is on file as far as it goes. */
  ghost predicate OnFile(blocks: seq<Block>, pieces: seq<Piece>)
    requires pieces != []
  {
    && |blocks| == |pieces|
    && var b, p := blocks[|blocks| - 1], pieces[|pieces| - 1];
    && |b.tile| >= HEADER && HEADER <= FillOf(b) <= |b.tile|
    && b.tile[HEADER..FillOf(b)] == p.body && Decode(b.tile).objectOffset == p.mark
  }

  /** What bufferWriteInformation records in the upcoming tag: a block's place in the file, and where in the block. */
  datatype Place = Place(offset: nat, inside: nat)

  function Tell(tag: Place, s: nat, at: nat, b: Buffer): Place {
    if s >= 2 && b.start.Some? && b.start.value > 0 then Place(at, b.start.value) else tag
  }

  ghost predicate Reported(blocks: seq<Block>, stretch: Stretch, s: nat, tag: Place) {
    stretch.Began? && stretch.spot.piece < |blocks|
    && (s >= 2 ==> tag == Place(blocks[stretch.spot.piece].off, stretch.spot.inside))
  }

  ghost predicate StreamFits(blocks: seq<Block>, w: Writer, story: Story, s: nat, first: Option<nat>, tag: Place) {
    && w.stream == s && story.pieces != []
    && Listed(blocks, w.stream, w.capacity, story.pieces, NO_NEXT) && Knows(w, blocks)
    && Follows(w, story, OnFile(blocks, story.pieces), Reported(blocks, story.stretch, s, tag))
    && first == (if blocks == [] then None else Some(blocks[0].off))
  }

  function Relinked(blocks: seq<Block>, at: nat): seq<Block>
    requires forall b | b in blocks :: |b.tile| >= HEADER
  {
    if blocks == [] then []
    else
      var last := |blocks| - 1;
      blocks[last := Block(blocks[last].off, PatchNext(blocks[last].tile, at))]
  }

  /** The writer when its front buffer is written at the end of the file, at `at`. */
  function AfterAppend(w: Writer, at: nat): Writer
    requires w.queue != []
  {
    Taken(w).(partial := if Fill(w.queue[0]) < w.capacity then Some(at) else None, previous := Some(at))
  }

  /** The writer when its front buffer is written over the partial block. */
  function AfterRewrite(w: Writer): Writer
    requires w.queue != []
  {
    Taken(w).(partial := if Fill(w.queue[0]) < w.capacity then w.partial else None)
  }

  /** The block image that goes to file carries what the front buffer shows. */
  lemma ImageHolds(w: Writer, pieces: seq<Piece>, off: nat)
    requires WriterFits(w, pieces) && w.queue != []
    ensures w.num < |pieces| && Fill(w.queue[0]) <= w.capacity
    ensures Holds(Block(off, Image(w)), w.stream, w.capacity, w.num, NO_NEXT, pieces[w.num])
    ensures var b, t := w.queue[0], Image(w);
            FillOf(Block(off, t)) == Fill(b) && t[HEADER..Fill(b)] == b.body && Decode(t).objectOffset == b.mark
  {
    hide Crc16, BigEndian, FromBigEndian, Decode, EncodeBlock, Content, ZeroFrom;
    var b := w.queue[0];
    assert Marked(pieces, w.num);
    var area := b.body + Zeros(w.capacity - Fill(b));
    DecodeEncode(w.stream, w.num, w.capacity, Fill(b), b.mark, area);
    var t := Image(w);
    assert t[HEADER..Fill(b)] == t[HEADER..][..|b.body|] == b.body;
    ZeroBehind(t, b.body, w.capacity - Fill(b));
  }

  lemma ZeroBehind(t: seq<Byte>, body: seq<Byte>, n: nat)
    requires |t| >= HEADER && t[HEADER..] == body + Zeros(n)
    ensures ZeroFrom(t, HEADER + |body|)
  {
    forall i | HEADER + |body| <= i < |t|
      ensures t[i] == 0
    {
      assert t[i] == t[HEADER..][i - HEADER];
    }
  }

  lemma SameZeros(t: seq<Byte>, t': seq<Byte>, fill: nat)
    requires HEADER <= fill && |t| >= HEADER && |t'| >= HEADER && t[HEADER..] == t'[HEADER..] && ZeroFrom(t, fill)
    ensures ZeroFrom(t', fill)
  {
    forall i | fill <= i < |t'|
      ensures t'[i] == 0
    {
      assert t'[i] == t'[HEADER..][i - HEADER] == t[i];
    }
  }

  /** The start of a stretch that goes to file with the front buffer is reported, and stays so. */
  lemma TakenStretch(blocks: seq<Block>, blocks': seq<Block>, w: Writer, w': Writer, story: Story, s: nat, tag: Place)
    requires w.queue != [] && StretchFits(w, story, Reported(blocks, story.stretch, s, tag))
    requires w' == Taken(w).(partial := w'.partial, previous := w'.previous)
    requires |blocks| <= |blocks'| && w.num < |blocks'|
    requires forall j | 0 <= j < |blocks| :: blocks'[j].off == blocks[j].off
    ensures StretchFits(w', story, Reported(blocks', story.stretch, s, Tell(tag, s, blocks'[w.num].off, w.queue[0])))
  {
    var b := w.queue[0];
    var rest := Unreported(w');
    assert Unreported(w) == StartOf(b, w.num) + rest;
    var all := Unreported(w);
    if rest != [] {
      assert all[|all| - 1] == rest[|rest| - 1];
    } else {
      assert all == StartOf(b, w.num);
    }
  }

  lemma TakenNewest(w: Writer, pieces: seq<Piece>, blocks': seq<Block>)
    requires WriterFits(w, pieces) && w.queue != [] && Newest(w.queue, pieces, false)
    requires |blocks'| == w.num + 1
    requires var b, t := w.queue[0], blocks'[w.num].tile;
             && |t| == w.capacity && Fill(b) <= w.capacity && FillOf(blocks'[w.num]) == Fill(b)
             && t[HEADER..Fill(b)] == b.body && Decode(t).objectOffset == b.mark
    ensures Newest(w.queue[1..], pieces, OnFile(blocks', pieces))
  {
    hide Decode, Content, Earlier;
    var b := w.queue[0];
    assert QueueFits(w.queue[1..], w.capacity, if Fill(b) < w.capacity then w.num else w.num + 1, pieces);
    if w.queue[1..] == [] {
      assert w.queue == [b];
      assert Fill(b) < w.capacity;
    }
  }

  lemma TakenFits(w: Writer, w': Writer, pieces: seq<Piece>)
    requires WriterFits(w, pieces) && w.queue != []
    requires w' == Taken(w).(partial := w'.partial, previous := w'.previous)
    ensures WriterFits(w', pieces)
  {
    hide Earlier, Cut;
  }

  lemma TakenFollows(blocks: seq<Block>, blocks': seq<Block>, w: Writer, w': Writer, story: Story, s: nat, tag: Place)
    requires story.pieces != [] && w.queue != []
    requires Follows(w, story, OnFile(blocks, story.pieces), Reported(blocks, story.stretch, s, tag))
    requires w' == Taken(w).(partial := w'.partial, previous := w'.previous)
    requires |blocks| <= |blocks'| && w.num < |blocks'| && forall j | 0 <= j < |blocks| :: blocks'[j].off == blocks[j].off
    requires |blocks'| == w.num + 1
    requires var b, t := w.queue[0], blocks'[w.num].tile;
             && |t| == w.capacity && Fill(b) <= w.capacity && FillOf(blocks'[w.num]) == Fill(b)
             && t[HEADER..Fill(b)] == b.body && Decode(t).objectOffset == b.mark
    ensures Follows(w', story, OnFile(blocks', story.pieces),
                    Reported(blocks', story.stretch, s, Tell(tag, s, blocks'[w.num].off, w.queue[0])))
  {
    hide Decode, WriterFits, StretchFits, OnFile, Reported, Tell;
    TakenFits(w, w', story.pieces);
    TakenStretch(blocks, blocks', w, w', story, s, tag);
    if story.whole || w.current.None? {
      TakenNewest(w, story.pieces, blocks');
    }
  }

  lemma PatchedHolds(b: Block, stream: nat, capacity: nat, j: nat, p: Piece, at: nat)
    requires Holds(b, stream, capacity, j, NO_NEXT, p) && at <= NO_NEXT
    ensures var b' := Block(b.off, PatchNext(b.tile, at));
            Holds(b', stream, capacity, j, at, p) && FillOf(b') == FillOf(b)
  {
    hide Crc16, BigEndian, FromBigEndian, Decode, CrcOk, PatchNext, Earlier, ZeroFrom;
    PatchKeepsBlock(b.tile, at);
    var t := PatchNext(b.tile, at);
    var fill := Decode(b.tile).fill;
    assert t[HEADER..fill] == t[HEADER..][..fill - HEADER] == b.tile[HEADER..][..fill - HEADER] == b.tile[HEADER..fill];
    SameZeros(b.tile, t, fill);
  }

  /** Linking the last block to a new one leaves all blocks in order. */
  lemma RelinkedListed(blocks: seq<Block>, stream: nat, capacity: nat, pieces: seq<Piece>, at: nat)
    requires Listed(blocks, stream, capacity, pieces, NO_NEXT) && at <= NO_NEXT
    ensures forall b | b in blocks :: |b.tile| >= HEADER
    ensures Listed(Relinked(blocks, at), stream, capacity, pieces, at)
    ensures Partial(Relinked(blocks, at), capacity) <==> Partial(blocks, capacity)
  {
    hide PatchNext, Decode, Earlier, CrcOk, ZeroFrom;
    forall j | 0 <= j < |blocks|
      ensures |blocks[j].tile| >= HEADER
    {
      assert BlockFits(blocks, j, stream, capacity, pieces, NO_NEXT);
    }
    var linked := Relinked(blocks, at);
    forall j | 0 <= j < |blocks|
      ensures BlockFits(linked, j, stream, capacity, pieces, at)
    {
      hide Holds;
      assert BlockFits(blocks, j, stream, capacity, pieces, NO_NEXT);
      if j == |blocks| - 1 {
        PatchedHolds(blocks[j], stream, capacity, j, pieces[j], at);
      }
    }
    if blocks != [] {
      assert BlockFits(blocks, |blocks| - 1, stream, capacity, pieces, NO_NEXT);
      PatchedHolds(blocks[|blocks| - 1], stream, capacity, |blocks| - 1, pieces[|blocks| - 1], at);
    }
  }

  lemma ExtendedListed(blocks: seq<Block>, b: Block, stream: nat, capacity: nat, pieces: seq<Piece>)
    requires Listed(blocks, stream, capacity, pieces, b.off) && !Partial(blocks, capacity) && |blocks| < |pieces|
    requires Holds(b, stream, capacity, |blocks|, NO_NEXT, pieces[|blocks|])
    ensures Listed(blocks + [b], stream, capacity, pieces, NO_NEXT)
  {
    hide Decode, Earlier, CrcOk, ZeroFrom;
    var blocks' := blocks + [b];
    forall j | 0 <= j < |blocks'|
      ensures BlockFits(blocks', j, stream, capacity, pieces, NO_NEXT)
    {
      if j < |blocks| {
        assert BlockFits(blocks, j, stream, capacity, pieces, b.off);
      }
    }
  }

  lemma ReplacedListed(blocks: seq<Block>, b: Block, stream: nat, capacity: nat, pieces: seq<Piece>)
    requires Listed(blocks, stream, capacity, pieces, NO_NEXT) && blocks != []
    requires b.off == blocks[|blocks| - 1].off
    requires Holds(b, stream, capacity, |blocks| - 1, NO_NEXT, pieces[|blocks| - 1])
    ensures Listed(blocks[|blocks| - 1 := b], stream, capacity, pieces, NO_NEXT)
  {
    hide Decode, Earlier, CrcOk, ZeroFrom;
    var blocks' := blocks[|blocks| - 1 := b];
    forall j | 0 <= j < |blocks'|
      ensures BlockFits(blocks', j, stream, capacity, pieces, NO_NEXT)
    {
      assert BlockFits(blocks, j, stream, capacity, pieces, NO_NEXT);
    }
  }

  /** Writing the front buffer at the end of the file, and linking the last block of the stream to it. */
  lemma AppendFits(blocks: seq<Block>, w: Writer, story: Story, s: nat, first: Option<nat>, tag: Place, at: nat)
    requires StreamFits(blocks, w, story, s, first, tag) && w.queue != [] && w.partial.None? && at <= NO_NEXT
    ensures Fill(w.queue[0]) <= w.capacity && forall b | b in blocks :: |b.tile| >= HEADER
    ensures StreamFits(Relinked(blocks, at) + [Block(at, Image(w))], AfterAppend(w, at), story, s,
                       if first.Some? then first else Some(at), Tell(tag, s, at, w.queue[0]))
  {
    hide Decode, CrcOk, PatchNext, Follows, Image, Holds, WriterFits, Listed, Tell, Reported, OnFile;
    FollowsFacts(w, story, OnFile(blocks, story.pieces), Reported(blocks, story.stretch, s, tag));
    ImageHolds(w, story.pieces, at);
    var b := Block(at, Image(w));
    RelinkedListed(blocks, w.stream, w.capacity, story.pieces, at);
    ExtendedListed(Relinked(blocks, at), b, w.stream, w.capacity, story.pieces);
    TakenFollows(blocks, Relinked(blocks, at) + [b], w, AfterAppend(w, at), story, s, tag);
  }

  /** Writing the front buffer over the partial block. */
  lemma RewriteFits(blocks: seq<Block>, w: Writer, story: Story, s: nat, first: Option<nat>, tag: Place)
    requires StreamFits(blocks, w, story, s, first, tag) && w.queue != [] && w.partial.Some?
    ensures blocks != [] && w.partial.value == blocks[|blocks| - 1].off && Fill(w.queue[0]) <= w.capacity
    ensures StreamFits(blocks[|blocks| - 1 := Block(w.partial.value, Image(w))], AfterRewrite(w), story, s, first,
                       Tell(tag, s, w.partial.value, w.queue[0]))
  {
    hide Decode, CrcOk, Follows, Image, Holds, WriterFits, Listed, Tell, Reported, OnFile;
    FollowsFacts(w, story, OnFile(blocks, story.pieces), Reported(blocks, story.stretch, s, tag));
    ImageHolds(w, story.pieces, w.partial.value);
    var b := Block(w.partial.value, Image(w));
    ReplacedListed(blocks, b, w.stream, w.capacity, story.pieces);
    TakenFollows(blocks, blocks[|blocks| - 1 := b], w, AfterRewrite(w), story, s, tag);
  }

  // ---------- What the writer does leaves the blocks on file right

  /** The last piece may grow behind the blocks' backs, and a next piece may start. */
  lemma GrownListed(blocks: seq<Block>, stream: nat, capacity: nat, pieces: seq<Piece>, p: Piece, rest: seq<Piece>)
    requires Listed(blocks, stream, capacity, pieces, NO_NEXT) && pieces != []
    requires var last := pieces[|pieces| - 1];
             last.body <= p.body && (p.mark == last.mark || (last.mark == 0 && p.mark >= HEADER + |last.body|))
    ensures Listed(blocks, stream, capacity, pieces[|pieces| - 1 := p] + rest, NO_NEXT)
  {
    hide Decode, CrcOk;
    var pieces' := pieces[|pieces| - 1 := p] + rest;
    forall j | 0 <= j < |blocks|
      ensures BlockFits(blocks, j, stream, capacity, pieces', NO_NEXT)
    {
      assert BlockFits(blocks, j, stream, capacity, pieces, NO_NEXT);
    }
  }

  lemma StreamHasStory(blocks: seq<Block>, w: Writer, story: Story, s: nat, first: Option<nat>, tag: Place)
    requires StreamFits(blocks, w, story, s, first, tag)
    ensures story.pieces != []
  {
  }

  lemma PutStream(blocks: seq<Block>, w: Writer, story: Story, s: nat, first: Option<nat>, tag: Place, x: Byte)
    requires StreamFits(blocks, w, story, s, first, tag) && w.current.Some?
    ensures Open(w) && w.capacity > HEADER && Grown(w, Put(w, x))
    ensures StreamFits(blocks, Put(w, x), ToldPut(story, w.capacity, x), s, first, tag)
  {
    hide Listed, Partial, StretchFits, WriterFits, OnFile;
    var m := |story.pieces| - 1;
    PutFollows(w, story, x, OnFile(blocks, story.pieces), Reported(blocks, story.stretch, s, tag));
    var p := story.pieces[m].(body := story.pieces[m].body + [x]);
    GrownListed(blocks, w.stream, w.capacity, story.pieces, p, []);
    GrownListed(blocks, w.stream, w.capacity, story.pieces, p, [Piece([], 0)]);
    assert story.pieces[m := p] + [] == story.pieces[m := p];
    FollowsFacts(w, story, OnFile(blocks, story.pieces), Reported(blocks, story.stretch, s, tag));
    var told := ToldPut(story, w.capacity, x);
    ReportHelps(Put(w, x), told, Reported(blocks, story.stretch, s, tag), Reported(blocks, told.stretch, s, tag));
  }

  lemma ItemStream(blocks: seq<Block>, w: Writer, story: Story, s: nat, first: Option<nat>, tag: Place)
    requires StreamFits(blocks, w, story, s, first, tag) && w.current.Some?
    ensures Open(w) && StreamFits(blocks, MarkItem(w), ToldMark(story), s, first, tag)
  {
    hide Listed, Partial, StretchFits, WriterFits, OnFile;
    var m := |story.pieces| - 1;
    var reported := story.stretch != Waiting && Reported(blocks, story.stretch, s, tag);
    FollowsFacts(w, story, OnFile(blocks, story.pieces), Reported(blocks, story.stretch, s, tag));
    ReportHelps(w, story, Reported(blocks, story.stretch, s, tag), reported);
    MarkItemFollows(w, story, OnFile(blocks, story.pieces), reported);
    var p := StoryMark(story.pieces)[m];
    GrownListed(blocks, w.stream, w.capacity, story.pieces, p, []);
    assert StoryMark(story.pieces) == story.pieces[m := p] + [];
    FollowsFacts(MarkItem(w), ToldMark(story), OnFile(blocks, story.pieces), reported);
    ReportHelps(MarkItem(w), ToldMark(story), reported, Reported(blocks, ToldMark(story).stretch, s, tag));
  }

  lemma SegmentStream(blocks: seq<Block>, w: Writer, story: Story, s: nat, first: Option<nat>, tag: Place, tag': Place)
    requires StreamFits(blocks, w, story, s, first, tag) && w.current.Some?
    ensures Open(w) && StreamFits(blocks, MarkSegment(w), story.(stretch := Waiting), s, first, tag')
  {
    hide Listed, Partial, WriterFits, OnFile, Unreported;
    MarkSegmentFollows(w, story, OnFile(blocks, story.pieces), Reported(blocks, story.stretch, s, tag));
  }

  lemma CloseStream(blocks: seq<Block>, w: Writer, story: Story, s: nat, first: Option<nat>, tag: Place, intermediate: bool)
    requires StreamFits(blocks, w, story, s, first, tag)
    ensures StreamFits(blocks, CloseOff(w, intermediate), ToldClose(story, w.current.Some?), s, first, tag)
  {
    hide Listed, Partial, WriterFits, OnFile, StretchFits;
    CloseOffFollows(w, story, intermediate, OnFile(blocks, story.pieces), Reported(blocks, story.stretch, s, tag));
    var told := ToldClose(story, w.current.Some?);
    FollowsFacts(CloseOff(w, intermediate), told, OnFile(blocks, story.pieces), Reported(blocks, story.stretch, s, tag));
    ReportHelps(CloseOff(w, intermediate), told, Reported(blocks, story.stretch, s, tag), Reported(blocks, told.stretch, s, tag));
  }

  lemma {:induction false} PutAllStream(blocks: seq<Block>, w: Writer, story: Story, s: nat, first: Option<nat>, tag: Place,
                                        data: seq<Byte>)
    requires StreamFits(blocks, w, story, s, first, tag) && w.current.Some? && w.capacity > HEADER && Open(w)
    ensures Grown(w, PutAll(w, data))
    ensures StreamFits(blocks, PutAll(w, data), ToldWrite(story, w.capacity, data), s, first, tag)
    decreases |data|
  {
    hide StreamFits;
    StreamHasStory(blocks, w, story, s, first, tag);
    if data != [] {
      PutStream(blocks, w, story, s, first, tag, data[0]);
      PutAllStream(blocks, Put(w, data[0]), ToldPut(story, w.capacity, data[0]), s, first, tag, data[1..]);
    }
  }

  lemma WriteStream(blocks: seq<Block>, w: Writer, story: Story, s: nat, first: Option<nat>, tag: Place, data: seq<Byte>)
    requires StreamFits(blocks, w, story, s, first, tag) && Open(w) && w.capacity > HEADER
    ensures Grown(w, Write(w, data))
    ensures StreamFits(blocks, Write(w, data), ToldWrite(story, w.capacity, data), s, first, tag)
  {
    hide PutAll, Write, ToldWrite, StreamFits;
    PutAllStream(blocks, w, story, s, first, tag, data);
    WriteIsPuts(w, data);
  }
}
