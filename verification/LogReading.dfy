/** What reading a range of a stream from file delivers, and that a recorded stream is read back as it
    was written. */
module LogReading {
  import opened Bytes
  import opened ControlBlocks
  import opened BlockFiles
  import opened StreamWriters
  import opened LogStore
  import opened LogRuns
  import opened LogSessions

  function MarkOf(b: Block): nat
    requires |b.tile| >= HEADER
  {
    Decode(b.tile).objectOffset
  }

  predicate Sound(b: Block) {
    |b.tile| >= HEADER && HEADER <= FillOf(b) <= |b.tile|
  }

  predicate AllSound(c: seq<Block>) {
    forall j | 0 <= j < |c| :: Sound(c[j])
  }

  /** A stream's blocks in order, linked to each other, from a file below NO_NEXT bytes. */
  ghost predicate Readable(c: seq<Block>, capacity: nat) {
    && (forall j | 0 <= j < |c| :: Sound(c[j]) && |c[j].tile| == capacity && c[j].off < NO_NEXT)
    && (forall j | 0 <= j < |c| :: Decode(c[j].tile).next == LinkOf(c, j, NO_NEXT))
    && (forall i, j | 0 <= i < j < |c| :: c[i].off + capacity <= c[j].off)
    && (forall j | 0 <= j < |c| - 1 :: FillOf(c[j]) > HEADER)
  }

  /** How far the data of a block goes when reading stops at `end`. */
  function Limit(b: Block, end: nat): int
    requires Sound(b)
  {
    if b.off + FillOf(b) > end then end - b.off else FillOf(b)
  }

  /** The data of block i and the blocks behind it, as far as they lie before `end`. */
  function Tail(c: seq<Block>, i: nat, end: nat): seq<Byte>
    requires AllSound(c)
    decreases |c| - i
  {
    if i >= |c| || c[i].off >= end || Limit(c[i], end) <= HEADER then []
    else c[i].tile[HEADER..Limit(c[i], end)] + Tail(c, i + 1, end)
  }

  /** Where reading starts in a block that comes first: at `start` if that is inside, at the first object
      mark if that is not before `start`, and otherwise not in this block. */
  function Entry(b: Block, start: nat): Option<nat>
    requires Sound(b)
  {
    if b.off < start then Some(start - b.off)
    else if MarkOf(b) == 0 then None
    else Some(MarkOf(b))
  }

  /** All data delivered when block i is the first to be loaded. The first block that is entered is read
      up to its own fill level, wherever `end` is. */
  function Range(c: seq<Block>, i: nat, start: nat, end: nat): seq<Byte>
    requires AllSound(c)
    decreases |c| - i
  {
    if i >= |c| then []
    else
      match Entry(c[i], start)
      case None => if i + 1 < |c| && c[i + 1].off < end then Range(c, i + 1, start, end) else []
      case Some(from) => (if from <= FillOf(c[i]) then c[i].tile[from..FillOf(c[i])] else []) + Tail(c, i + 1, end)
  }

  // ---------- Recorded streams

  lemma StreamReadable(st: Store, tiles: seq<Tile>, stories: seq<Story>, s: nat)
    requires StoreFits(st, tiles, stories) && s < |st.writers| && |st.file| < NO_NEXT
    ensures Headed(tiles) && Readable(Chain(tiles, s), st.writers[s].capacity)
  {
    hide Chain, Flatten, Decode, Follows, Knows, CrcOk, Earlier;
    StoryKnown(st, tiles, stories, s);
    ChainIncreases(tiles, s);
    var c, w, pieces := Chain(tiles, s), st.writers[s], stories[s].pieces;
    FollowsFacts(w, stories[s], OnFile(c, pieces), Reported(c, stories[s].stretch, s, st.tags[s]));
    forall j | 0 <= j < |c|
      ensures Sound(c[j]) && |c[j].tile| == w.capacity && Decode(c[j].tile).next == LinkOf(c, j, NO_NEXT)
      ensures j < |c| - 1 ==> FillOf(c[j]) > HEADER
      ensures c[j].off < NO_NEXT
    {
      assert BlockFits(c, j, w.stream, w.capacity, pieces, NO_NEXT);
    }
  }

  /** Everything written is on file. */
  ghost predicate Shown(c: seq<Block>, pieces: seq<Piece>) {
    && |c| == |pieces|
    && forall j | 0 <= j < |c| ::
         Sound(c[j]) && c[j].tile[HEADER..FillOf(c[j])] == pieces[j].body && MarkOf(c[j]) == pieces[j].mark
  }

  lemma SavedIsShown(st: Store, tiles: seq<Tile>, stories: seq<Story>, s: nat)
    requires StoreFits(st, tiles, stories) && s < |st.writers|
    requires st.writers[s].queue == [] && (stories[s].whole || st.writers[s].current.None?)
    ensures Headed(tiles) && Shown(Chain(tiles, s), stories[s].pieces)
  {
    hide Chain, Flatten, Decode, Knows, CrcOk, StretchFits;
    StoryKnown(st, tiles, stories, s);
    var c, w, pieces := Chain(tiles, s), st.writers[s], stories[s].pieces;
    assert OnFile(c, pieces);
    forall j | 0 <= j < |c|
      ensures Sound(c[j]) && c[j].tile[HEADER..FillOf(c[j])] == pieces[j].body && MarkOf(c[j]) == pieces[j].mark
    {
      assert BlockFits(c, j, w.stream, w.capacity, pieces, NO_NEXT);
      assert Marked(pieces, j);
    }
  }

  lemma {:induction false} ContentSplit(a: seq<Piece>, b: seq<Piece>)
    ensures Content(a + b) == Content(a) + Content(b)
  {
    if b == [] {
      assert a + b == a;
    } else {
      var last := |b| - 1;
      ContentSplit(a, b[..last]);
      assert (a + b)[..|a + b| - 1] == a + b[..last];
      var x, y, z := Content(a), Content(b[..last]), b[last].body;
      assert x + y + z == x + (y + z);
    }
  }

  lemma ContentOfOne(p: Piece)
    ensures Content([p]) == p.body
  {
    assert [p][..0] == [];
  }

  lemma ContentOfNone()
    ensures Content([]) == []
  {
  }

  lemma ContentFrom(pieces: seq<Piece>, i: nat)
    requires i < |pieces|
    ensures Content(pieces[i..]) == pieces[i].body + Content(pieces[i + 1..])
  {
    hide Content;
    assert pieces[i..] == [pieces[i]] + pieces[i + 1..];
    ContentSplit([pieces[i]], pieces[i + 1..]);
    ContentOfOne(pieces[i]);
  }

  /** The data of a piece, as it stands in its block. */
  lemma ShownBody(c: seq<Block>, pieces: seq<Piece>, j: nat, from: nat, to: nat)
    requires Shown(c, pieces) && j < |c| && HEADER <= from <= to <= FillOf(c[j])
    ensures FillOf(c[j]) == HEADER + |pieces[j].body| && FillOf(c[j]) <= |c[j].tile|
    ensures c[j].tile[from..to] == pieces[j].body[from - HEADER..to - HEADER]
  {
    hide Decode;
    var body := c[j].tile[HEADER..FillOf(c[j])];
    assert body == pieces[j].body;
    assert c[j].tile[from..to] == body[from - HEADER..to - HEADER];
  }

  /** The blocks from i on up to a place in block k. */
  lemma {:induction false} TailUpTo(c: seq<Block>, pieces: seq<Piece>, capacity: nat, i: nat, k: nat, inside: nat)
    requires Shown(c, pieces) && Readable(c, capacity) && i <= k < |c| && HEADER <= inside <= FillOf(c[k])
    ensures Tail(c, i, c[k].off + inside) == Content(pieces[i..k]) + pieces[k].body[..inside - HEADER]
    decreases k - i
  {
    hide Content, Decode, Tail, Shown, Readable;
    ShownFacts(c, pieces);
    var rest := pieces[k].body[..inside - HEADER];
    if i == k {
      LastOfTail(c, pieces, capacity, k, inside);
      assert pieces[i..k] == [];
      ContentOfNone();
      assert [] + rest == rest;
    } else {
      TailUpTo(c, pieces, capacity, i + 1, k, inside);
      HeadOfTail(c, pieces, capacity, i, k, inside);
      ContentFrom(pieces[..k], i);
      assert pieces[..k][i..] == pieces[i..k] && pieces[..k][i + 1..] == pieces[i + 1..k];
      Reassociate(pieces[i].body, Content(pieces[i + 1..k]), rest);
    }
  }

  lemma Reassociate(x: seq<Byte>, y: seq<Byte>, z: seq<Byte>)
    ensures x + y + z == x + (y + z)
  {
  }

  lemma LastOfTail(c: seq<Block>, pieces: seq<Piece>, capacity: nat, k: nat, inside: nat)
    requires Shown(c, pieces) && Readable(c, capacity) && k < |c| && HEADER <= inside <= FillOf(c[k])
    ensures FillOf(c[k]) == HEADER + |pieces[k].body|
    ensures Tail(c, k, c[k].off + inside) == pieces[k].body[..inside - HEADER]
  {
    hide Decode;
    ShownBody(c, pieces, k, HEADER, inside);
    NothingBehind(c, capacity, k, c[k].off + inside);
  }

  lemma HeadOfTail(c: seq<Block>, pieces: seq<Piece>, capacity: nat, i: nat, k: nat, inside: nat)
    requires Shown(c, pieces) && Readable(c, capacity) && i < k < |c| && HEADER <= inside <= FillOf(c[k])
    ensures var end := c[k].off + inside; Tail(c, i, end) == pieces[i].body + Tail(c, i + 1, end)
  {
    hide Decode;
    ShownBody(c, pieces, i, HEADER, FillOf(c[i]));
    assert c[i].off + capacity <= c[k].off && FillOf(c[i]) > HEADER;
  }

  lemma NothingBehind(c: seq<Block>, capacity: nat, k: nat, end: nat)
    requires Readable(c, capacity) && k < |c| && end <= c[k].off + capacity
    ensures Tail(c, k + 1, end) == []
  {
    hide Decode;
  }

  /** Where the file ends does not matter once all blocks are before it. */
  lemma {:induction false} TailToEnd(c: seq<Block>, i: nat, end: nat, end': nat)
    requires AllSound(c)
    requires forall j | 0 <= j < |c| :: Sound(c[j]) && c[j].off + FillOf(c[j]) <= end && c[j].off + FillOf(c[j]) <= end'
    ensures Tail(c, i, end) == Tail(c, i, end')
    decreases |c| - i
  {
    hide Decode;
    if i < |c| {
      TailToEnd(c, i + 1, end, end');
    }
  }

  lemma SliceWithin(before: seq<Byte>, body: seq<Byte>, behind: seq<Byte>, from: nat, to: nat)
    requires from <= to <= |body|
    ensures (before + (body + behind))[|before| + from..|before| + to] == body[from..to]
  {
  }

  lemma SliceAcross(before: seq<Byte>, first: seq<Byte>, middle: seq<Byte>, last: seq<Byte>, behind: seq<Byte>, from: nat, to: nat)
    requires from <= |first| && to <= |last|
    ensures var all := before + (first + (middle + (last + behind)));
            all[|before| + from..|before| + |first| + |middle| + to] == first[from..] + (middle + last[..to])
  {
  }

  /** The content in front of piece j, piece j, and what comes behind. */
  lemma ContentAround(pieces: seq<Piece>, j: nat)
    requires j < |pieces|
    ensures Content(pieces) == Content(pieces[..j]) + (pieces[j].body + Content(pieces[j + 1..]))
  {
    hide Content;
    assert pieces == pieces[..j] + pieces[j..];
    ContentSplit(pieces[..j], pieces[j..]);
    ContentFrom(pieces, j);
  }

  lemma ContentAroundTwo(pieces: seq<Piece>, j: nat, k: nat)
    requires j < k < |pieces|
    ensures |Content(pieces[..k])| == |Content(pieces[..j])| + |pieces[j].body| + |Content(pieces[j + 1..k])|
    ensures Content(pieces) == Content(pieces[..j]) + (pieces[j].body + (Content(pieces[j + 1..k])
                               + (pieces[k].body + Content(pieces[k + 1..]))))
  {
    hide Content;
    ContentAround(pieces, j);
    var rest := pieces[j + 1..];
    ContentAround(rest, k - j - 1);
    assert rest[..k - j - 1] == pieces[j + 1..k] && rest[k - j..] == pieces[k + 1..];
    ContentAround(pieces[..k], j);
    assert pieces[..k][..j] == pieces[..j] && pieces[..k][j + 1..] == pieces[j + 1..k];
  }

  /** A stretch of the stream inside one piece. */
  lemma ContentInside(pieces: seq<Piece>, j: nat, from: nat, to: nat)
    requires j < |pieces| && HEADER <= from <= to <= HEADER + |pieces[j].body|
    ensures var p, q := PositionOf(pieces, Spot(j, from)), PositionOf(pieces, Spot(j, to));
            0 <= p <= q <= |Content(pieces)| && Content(pieces)[p..q] == pieces[j].body[from - HEADER..to - HEADER]
  {
    hide Content;
    ContentAround(pieces, j);
    SliceWithin(Content(pieces[..j]), pieces[j].body, Content(pieces[j + 1..]), from - HEADER, to - HEADER);
  }

  /** A stretch of the stream from one piece to a later one. */
  lemma ContentAcross(pieces: seq<Piece>, j: nat, from: nat, k: nat, to: nat)
    requires j < k < |pieces| && HEADER <= from <= HEADER + |pieces[j].body| && HEADER <= to <= HEADER + |pieces[k].body|
    ensures var p, q := PositionOf(pieces, Spot(j, from)), PositionOf(pieces, Spot(k, to));
            && 0 <= p <= q <= |Content(pieces)|
            && Content(pieces)[p..q]
               == pieces[j].body[from - HEADER..] + (Content(pieces[j + 1..k]) + pieces[k].body[..to - HEADER])
  {
    hide Content;
    var before, first, middle, last := Content(pieces[..j]), pieces[j].body, Content(pieces[j + 1..k]), pieces[k].body;
    var behind := Content(pieces[k + 1..]);
    ContentAroundTwo(pieces, j, k);
    assert |Content(pieces)| == |before| + |first| + |middle| + |last| + |behind|;
    SliceAcross(before, first, middle, last, behind, from - HEADER, to - HEADER);
  }

  // ---------- Ranges

  lemma ShownFacts(c: seq<Block>, pieces: seq<Piece>)
    requires Shown(c, pieces)
    ensures |c| == |pieces| && AllSound(c)
    ensures forall j | 0 <= j < |c| :: Sound(c[j]) && FillOf(c[j]) == HEADER + |pieces[j].body|
  {
    hide Decode;
    forall j | 0 <= j < |c|
      ensures Sound(c[j]) && FillOf(c[j]) == HEADER + |pieces[j].body|
    {
      ShownBody(c, pieces, j, HEADER, HEADER);
    }
  }

  /** Reading from a place in block j to one in a later block k. */
  lemma {:induction false} RangeAcross(c: seq<Block>, pieces: seq<Piece>, capacity: nat, j: nat, from: nat, k: nat, to: nat)
    requires Shown(c, pieces) && Readable(c, capacity) && j < k < |c|
    requires HEADER <= from < FillOf(c[j]) && HEADER <= to <= FillOf(c[k])
    ensures |c| == |pieces| && AllSound(c)
    ensures var p, q := PositionOf(pieces, Spot(j, from)), PositionOf(pieces, Spot(k, to));
            && 0 <= p <= q <= |Content(pieces)|
            && Range(c, j, c[j].off + from, c[k].off + to) == Content(pieces)[p..q]
  {
    hide Content, Decode, Tail, PositionOf, Range, Shown, Readable, AllSound;
    ShownFacts(c, pieces);
    ShownBody(c, pieces, j, from, FillOf(c[j]));
    ContentAcross(pieces, j, from, k, to);
    TailUpTo(c, pieces, capacity, j + 1, k, to);
    RangeEnters(c, j, from, c[k].off + to);
  }

  lemma RangeEnters(c: seq<Block>, j: nat, from: nat, end: nat)
    requires AllSound(c) && j < |c| && 0 < from && Sound(c[j]) && from <= FillOf(c[j])
    ensures Range(c, j, c[j].off + from, end) == c[j].tile[from..FillOf(c[j])] + Tail(c, j + 1, end)
  {
    hide Decode, Tail;
  }

  /** Reading between two places in the block that is entered first: the rest of that block comes too. */
  lemma {:induction false} RangeInside(c: seq<Block>, pieces: seq<Piece>, capacity: nat, j: nat, from: nat, to: nat)
    requires Shown(c, pieces) && Readable(c, capacity) && j < |c|
    requires HEADER <= from < FillOf(c[j]) && from <= to <= FillOf(c[j])
    ensures |c| == |pieces|
    ensures var p, e := PositionOf(pieces, Spot(j, from)), PositionOf(pieces, Spot(j, FillOf(c[j])));
            && 0 <= p <= e <= |Content(pieces)|
            && Range(c, j, c[j].off + from, c[j].off + to) == Content(pieces)[p..e]
  {
    hide Content, Decode, Tail, PositionOf;
    ShownBody(c, pieces, j, from, FillOf(c[j]));
    ContentInside(pieces, j, from, FillOf(c[j]));
    NothingBehind(c, capacity, j, c[j].off + to);
  }

  // ---------- Reading a whole stream

  /** Blocks without an object mark are passed over. */
  lemma {:induction false} RangeSkips(c: seq<Block>, i: nat, j: nat, start: nat, end: nat)
    requires AllSound(c) && forall x | 0 <= x < |c| :: start <= c[x].off < end
    requires i <= j <= |c| && forall x | i <= x < j :: Sound(c[x]) && MarkOf(c[x]) == 0
    ensures Range(c, i, start, end) == Range(c, j, start, end)
    decreases j - i
  {
    hide Decode, Tail;
    if i < j {
      RangeSkips(c, i + 1, j, start, end);
    }
  }

  /** Reading from a place to the end of the file. */
  lemma {:induction false} RangeToEnd(c: seq<Block>, pieces: seq<Piece>, capacity: nat, j: nat, from: nat)
    requires Shown(c, pieces) && Readable(c, capacity) && j < |c| && HEADER <= from < FillOf(c[j])
    requires forall x | 0 <= x < |c| :: c[x].off + capacity <= NO_NEXT
    ensures |c| == |pieces| && AllSound(c)
    ensures var p := PositionOf(pieces, Spot(j, from));
            0 <= p <= |Content(pieces)| && Range(c, j, c[j].off + from, NO_NEXT) == Content(pieces)[p..]
  {
    hide Content, Decode, Tail, PositionOf, Range, Shown, AllSound, Readable;
    ShownFacts(c, pieces);
    var last := |c| - 1;
    var fill := FillOf(c[last]);
    if j == last {
      RangeInside(c, pieces, capacity, j, from, fill);
    } else {
      RangeAcross(c, pieces, capacity, j, from, last, fill);
    }
    WholePosition(pieces);
    AllOfIt(Content(pieces), PositionOf(pieces, Spot(j, from)));
    SameToEnd(c, capacity, j, from);
  }

  lemma AllOfIt(s: seq<Byte>, p: nat)
    requires p <= |s|
    ensures s[p..|s|] == s[p..]
  {
  }

  /** Reading to the end of the last block's data is reading to the end of the file. */
  lemma {:induction false} SameToEnd(c: seq<Block>, capacity: nat, j: nat, from: nat)
    requires Readable(c, capacity) && AllSound(c) && j < |c| && Sound(c[j]) && Sound(c[|c| - 1])
    requires HEADER <= from < FillOf(c[j])
    requires forall x | 0 <= x < |c| :: c[x].off + capacity <= NO_NEXT
    ensures Range(c, j, c[j].off + from, NO_NEXT) == Range(c, j, c[j].off + from, c[|c| - 1].off + FillOf(c[|c| - 1]))
  {
    hide Decode, Tail, Range, AllSound;
    var end := c[|c| - 1].off + FillOf(c[|c| - 1]);
    RangeEnters(c, j, from, end);
    RangeEnters(c, j, from, NO_NEXT);
    LastBehind(c, capacity);
    TailToEnd(c, j + 1, end, NO_NEXT);
  }

  lemma LastBehind(c: seq<Block>, capacity: nat)
    requires Readable(c, capacity) && c != []
    ensures forall j | 0 <= j < |c| :: c[j].off + FillOf(c[j]) <= c[|c| - 1].off + FillOf(c[|c| - 1])
  {
    hide Decode;
  }

  lemma RangeAtMark(c: seq<Block>, j: nat, start: nat, end: nat)
    requires AllSound(c) && j < |c| && start <= c[j].off && Sound(c[j]) && HEADER <= MarkOf(c[j]) <= FillOf(c[j])
    ensures Range(c, j, start, end) == Range(c, j, c[j].off + MarkOf(c[j]), end)
  {
    hide Decode, Tail;
  }

  lemma WholePosition(pieces: seq<Piece>)
    requires pieces != []
    ensures var m := |pieces| - 1; PositionOf(pieces, Spot(m, HEADER + |pieces[m].body|)) == |Content(pieces)|
  {
  }

  lemma {:induction false} FirstMarkIs(pieces: seq<Piece>, j: nat)
    requires j <= |pieces| && forall i | 0 <= i < j :: pieces[i].mark == 0
    requires j < |pieces| ==> pieces[j].mark >= HEADER
    ensures FirstMark(pieces) == if j < |pieces| then Some(PositionOf(pieces, Spot(j, pieces[j].mark))) else None
  {
    hide Content;
    if pieces != [] {
      var m := |pieces| - 1;
      if j == |pieces| {
        FirstMarkIs(pieces[..m], m);
      } else {
        FirstMarkIs(pieces[..m], j);
        if j < m {
          assert pieces[..m][..j] == pieces[..j];
        }
      }
    }
  }

  function FirstMarked(pieces: seq<Piece>, i: nat): (j: nat)
    requires i <= |pieces|
    ensures i <= j <= |pieces| && (forall x | i <= x < j :: pieces[x].mark == 0) && (j < |pieces| ==> pieces[j].mark != 0)
    decreases |pieces| - i
  {
    if i == |pieces| || pieces[i].mark != 0 then i else FirstMarked(pieces, i + 1)
  }

  lemma MarkIsBefore(pieces: seq<Piece>, capacity: nat, j: nat)
    requires Cut(pieces, capacity) && j < |pieces| && pieces[j].mark >= HEADER
    requires PositionOf(pieces, Spot(j, pieces[j].mark)) < |Content(pieces)|
    ensures pieces[j].mark < HEADER + |pieces[j].body|
  {
    hide Content;
    assert Marked(pieces, j);
    WholePosition(pieces);
  }

  /** The whole stream, read from its first block, is what was written from the first item on. */
  lemma {:induction false} WholeRange(c: seq<Block>, pieces: seq<Piece>, capacity: nat)
    requires Shown(c, pieces) && Readable(c, capacity) && Cut(pieces, capacity)
    requires forall x | 0 <= x < |c| :: c[x].off + capacity <= NO_NEXT
    requires FirstMark(pieces).Some? ==> FirstMark(pieces).value < |Content(pieces)|
    ensures Range(c, 0, c[0].off, NO_NEXT)
            == if FirstMark(pieces).Some? then Content(pieces)[FirstMark(pieces).value..] else []
  {
    hide Content, Decode, FirstMark;
    var j := FirstMarked(pieces, 0);
    if j < |pieces| {
      assert Marked(pieces, j);
    }
    FirstMarkIs(pieces, j);
    RangeSkips(c, 0, j, c[0].off, NO_NEXT);
    if j < |pieces| {
      hide PositionOf, Range;
      MarkIsBefore(pieces, capacity, j);
      ShownFacts(c, pieces);
      RangeAtMark(c, j, c[0].off, NO_NEXT);
      RangeToEnd(c, pieces, capacity, j, pieces[j].mark);
    }
  }

  // ---------- Following the links in the bytes of the file

  /** The blocks that are found from `off` on, link by link. */
  function Follow(file: seq<Byte>, off: nat, capacity: nat): seq<Block>
    decreases |file| - off
  {
    if capacity < HEADER || off + capacity > |file| then []
    else
      var tile := file[off..off + capacity];
      var next := Decode(tile).next;
      [Block(off, tile)] + if off < next < NO_NEXT then Follow(file, next, capacity) else []
  }

  lemma {:induction false} FollowIsChain(tiles: seq<Tile>, s: nat, capacity: nat, i: nat)
    requires Headed(tiles) && Readable(Chain(tiles, s), capacity) && i < |Chain(tiles, s)| && capacity >= HEADER
    ensures Follow(Flatten(tiles), Chain(tiles, s)[i].off, capacity) == Chain(tiles, s)[i..]
    decreases |Chain(tiles, s)| - i
  {
    hide Chain, Flatten, Decode;
    var c := Chain(tiles, s);
    ChainBytes(tiles, s, i);
    assert c[i..] == [c[i]] + c[i + 1..];
    if i + 1 < |c| {
      assert c[i].off + capacity <= c[i + 1].off;
      FollowIsChain(tiles, s, capacity, i + 1);
    }
  }

  lemma {:induction false} FileIsBounded(ops: seq<Op>)
    requires IsSession(ops)
    ensures After(ops).offset < NO_NEXT
  {
    if ops != [] {
      hide Image, Write, MarkItem, MarkSegment, CloseOff, Unreported, WriteAt, Tell;
      FileIsBounded(ops[..|ops| - 1]);
    }
  }

  lemma WholeFits(st: Store, tiles: seq<Tile>, stories: seq<Story>, s: nat)
    requires StoreFits(st, tiles, stories) && s < |st.writers| && Headed(tiles)
    ensures var c := Chain(tiles, s);
            && (forall x | 0 <= x < |c| :: |c[x].tile| == st.writers[s].capacity ==> c[x].off + st.writers[s].capacity <= |st.file|)
            && st.firsts[s] == (if c == [] then None else Some(c[0].off))
    ensures Cut(stories[s].pieces, st.writers[s].capacity)
  {
    hide Chain, Flatten, Decode, Listed, Knows, StretchFits;
    StoryKnown(st, tiles, stories, s);
    ChainIncreases(tiles, s);
  }

  /** Round trip: for any number of streams, any interleaving of writing, marking, closing off and
      processing, and writes over any number of blocks, following a stream's links from its first block
      gives exactly the bytes written from the first marked item on. */
  lemma RoundTrip(ops: seq<Op>, s: nat)
    requires IsSession(ops) && s < |After(ops).writers|
    requires Saved(ops, s) && After(ops).writers[s].queue == []
    requires FirstItem(ops, s).Some? ==> FirstItem(ops, s).value < |Written(ops, s)|
    ensures |After(ops).firsts| == |After(ops).writers| && After(ops).firsts[s].Some?
    ensures var st := After(ops);
            var first := st.firsts[s].value;
            var c := Follow(st.file, first, st.writers[s].capacity);
            && AllSound(c)
            && Range(c, 0, first, NO_NEXT)
               == if FirstItem(ops, s).Some? then Written(ops, s)[FirstItem(ops, s).value..] else []
  {
    hide Chain, Flatten, Decode, After, IsSession, StoreFits, Readable, Shown, Range, FirstMark, Content, FirstItem, Written, Saved, PositionOf, Cut;
    SessionKeepsStore(ops);
    var st, tiles, stories := After(ops), TilesAfter(ops), StoriesAfter(ops);
    FitsFacts(ops, st, tiles, stories);
    assert Tells(stories[s], st.writers[s], ops, s);
    FileIsBounded(ops);
    StreamReadable(st, tiles, stories, s);
    SavedIsShown(st, tiles, stories, s);
    var c := Chain(tiles, s);
    WholeFits(st, tiles, stories, s);
    RoundTripOf(st, tiles, c, stories[s].pieces, s);
  }

  lemma RoundTripOf(st: Store, tiles: seq<Tile>, c: seq<Block>, pieces: seq<Piece>, s: nat)
    requires Headed(tiles) && st.file == Flatten(tiles) && s < |st.writers| && c == Chain(tiles, s) && |st.file| < NO_NEXT
    requires Shown(c, pieces) && Readable(c, st.writers[s].capacity) && Cut(pieces, st.writers[s].capacity)
    requires forall x | 0 <= x < |c| :: |c[x].tile| == st.writers[s].capacity ==> c[x].off + st.writers[s].capacity <= |st.file|
    requires FirstMark(pieces).Some? ==> FirstMark(pieces).value < |Content(pieces)|
    ensures c != []
    ensures Follow(st.file, c[0].off, st.writers[s].capacity) == c && AllSound(c)
    ensures Range(c, 0, c[0].off, NO_NEXT)
            == if FirstMark(pieces).Some? then Content(pieces)[FirstMark(pieces).value..] else []
  {
    hide Chain, Flatten, Decode, Range, FirstMark, Content, Follow;
    WholeRange(c, pieces, st.writers[s].capacity);
    FollowIsChain(tiles, s, st.writers[s].capacity, 0);
  }
}
