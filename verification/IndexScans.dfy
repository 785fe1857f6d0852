/** FileHandler::checkIndices: finding the streams in a file by going through its blocks. */
module IndexScans {
  import opened Bytes
  import opened ControlBlocks
  import opened BlockFiles
  import opened StreamWriters
  import opened LogStore
  import opened LogRuns
  import opened LogSessions
  import opened LogReading

  /** FileHandler::StreamSetInfo, without reader and writer. */
  datatype Info = Info(first: Option<nat>, last: Option<nat>, size: nat)

  const NO_INFO := Info(None, None, 0)

  /** A block that comes first but is not numbered 0 is an error. A block of size 0 does not bring the
      scan further: the loop of the source does not end there. */
  datatype Scan = Found(infos: seq<Info>) | NotFirst(at: nat) | Stuck(at: nat)

  function Grown(infos: seq<Info>, size: nat): (r: seq<Info>)
    ensures |r| >= size && |r| >= |infos| && r[..|infos|] == infos
    ensures forall i | |infos| <= i < |r| :: r[i] == NO_INFO
    decreases size - |infos|
  {
    if |infos| >= size then infos else Grown(infos + [NO_INFO], size)
  }

  /** checkBlock for a block at `at`. */
  function Checked(info: Info, at: nat, h: Header): Option<Info> {
    if info.first.None? && h.num != 0 then None
    else
      var started := if info.first.None? then info.(first := Some(at), size := if info.size == 0 then h.size else info.size) else info;
      Some(if h.next == NO_NEXT && info.last.None? then started.(last := Some(at)) else started)
  }

  /** What is known of all streams with a block at `at`. */
  function Noted(infos: seq<Info>, at: nat, h: Header): Option<seq<Info>> {
    var known := Grown(infos, h.stream + 1);
    match Checked(known[h.stream], at, h)
    case None => None
    case Some(info) => Some(known[h.stream := info])
  }

  function ScanFrom(file: seq<Byte>, at: nat, infos: seq<Info>): Scan
    decreases |file| - at
  {
    if at + HEADER > |file| then Found(infos)
    else
      var h := Decode(file[at..at + HEADER]);
      match Noted(infos, at, h)
      case None => NotFirst(at)
      case Some(next) => if h.size == 0 then Stuck(at) else ScanFrom(file, at + h.size, next)
  }

  /** The loop over the blocks of the file. */
  method CheckIndices(file: seq<Byte>) returns (r: Scan)
    ensures r == ScanFrom(file, 0, [])
  {
    hide Decode, Grown, Checked;
    var at: nat := 0;
    var infos: seq<Info> := [];
    while at + HEADER <= |file|
      invariant ScanFrom(file, at, infos) == ScanFrom(file, 0, [])
      decreases |file| - at
    {
      var h := Decode(file[at..at + HEADER]);
      var known := Grown(infos, h.stream + 1);
      var info := Checked(known[h.stream], at, h);
      if info.None? {
        return NotFirst(at);
      }
      if h.size == 0 {
        return Stuck(at);
      }
      infos := known[h.stream := info.value];
      at := at + h.size;
    }
    return Found(infos);
  }

  // ---------- On any file

  /** A block the scan comes to. */
  datatype Visit = Visit(at: nat, h: Header)

  function Visits(file: seq<Byte>, at: nat): seq<Visit>
    decreases |file| - at
  {
    if at + HEADER > |file| then []
    else
      var h := Decode(file[at..at + HEADER]);
      [Visit(at, h)] + if h.size == 0 then [] else Visits(file, at + h.size)
  }

  /** A block of stream s; `ended` asks for one without a link. */
  predicate Wanted(v: Visit, s: nat, ended: bool) {
    v.h.stream == s && (ended ==> v.h.next == NO_NEXT)
  }

  /** The first such block, or the number of blocks. */
  function FirstWanted(vs: seq<Visit>, s: nat, ended: bool): (i: nat)
    ensures i <= |vs| && (i < |vs| ==> Wanted(vs[i], s, ended))
    ensures forall j | 0 <= j < i :: !Wanted(vs[j], s, ended)
  {
    if vs == [] || Wanted(vs[0], s, ended) then 0 else 1 + FirstWanted(vs[1..], s, ended)
  }

  function PlaceOf(vs: seq<Visit>, i: nat): Option<nat> {
    if i < |vs| then Some(vs[i].at) else None
  }

  /** Known from before, or found in these blocks. */
  function Then(was: Option<nat>, found: Option<nat>): Option<nat> {
    if was.Some? then was else found
  }

  /** What is known of a stream, with what these blocks tell. */
  function With(was: Info, vs: seq<Visit>, s: nat): Info {
    var i := FirstWanted(vs, s, false);
    Info(Then(was.first, PlaceOf(vs, i)), Then(was.last, PlaceOf(vs, FirstWanted(vs, s, true))),
         if was.first.None? && was.size == 0 && i < |vs| then vs[i].h.size else was.size)
  }

  lemma WithOneMore(was: Info, v: Visit, vs: seq<Visit>, s: nat)
    requires v.h.stream == s ==> Checked(was, v.at, v.h).Some?
    ensures With(was, [v] + vs, s) == With(if v.h.stream == s then Checked(was, v.at, v.h).value else was, vs, s)
  {
    assert ([v] + vs)[1..] == vs;
    forall ended: bool
      ensures FirstWanted([v] + vs, s, ended) == if Wanted(v, s, ended) then 0 else 1 + FirstWanted(vs, s, ended)
    {}
  }

  /** A block changes what is known of its own stream only. */
  lemma BlockNoted(infos: seq<Info>, at: nat, h: Header)
    ensures var noted := Noted(infos, at, h);
            && (noted.None? <==> h.num != 0 && InfoOf(infos, h.stream).first.None?)
            && (noted.Some? ==>
                  && Some(InfoOf(noted.value, h.stream)) == Checked(InfoOf(infos, h.stream), at, h)
                  && InfoOf(noted.value, h.stream).first.Some?
                  && forall s: nat | s != h.stream :: InfoOf(noted.value, s) == InfoOf(infos, s))
  {
    assert Grown(infos, h.stream + 1)[h.stream] == InfoOf(infos, h.stream);
  }

  lemma {:induction false} ScanIsWith(file: seq<Byte>, at: nat, infos: seq<Info>, s: nat)
    requires ScanFrom(file, at, infos).Found?
    ensures InfoOf(ScanFrom(file, at, infos).infos, s) == With(InfoOf(infos, s), Visits(file, at), s)
    decreases |file| - at
  {
    hide With, Decode, Noted;
    if at + HEADER > |file| {
      WithNothing(InfoOf(infos, s), s);
    } else {
      var h := Decode(file[at..at + HEADER]);
      BlockNoted(infos, at, h);
      ScanIsWith(file, at + h.size, Noted(infos, at, h).value, s);
      WithOneMore(InfoOf(infos, s), Visit(at, h), Visits(file, at + h.size), s);
    }
  }

  lemma WithNothing(was: Info, s: nat)
    ensures With(was, [], s) == was
  {}

  /** The scan of any file: each stream begins at the first of its blocks, which tells the block size, and ends
      at the first one that has no link. */
  lemma ScanFinds(file: seq<Byte>, s: nat)
    requires ScanFrom(file, 0, []).Found?
    ensures var info, vs := InfoOf(ScanFrom(file, 0, []).infos, s), Visits(file, 0);
            && info.first == PlaceOf(vs, FirstWanted(vs, s, false))
            && info.last == PlaceOf(vs, FirstWanted(vs, s, true))
            && info.size == if FirstWanted(vs, s, false) < |vs| then vs[FirstWanted(vs, s, false)].h.size else 0
  {
    ScanIsWith(file, 0, [], s);
  }

  /** A block of size 0, or the first one of a stream not known before, with another number than 0. */
  predicate Bad(infos: seq<Info>, vs: seq<Visit>, i: nat)
    requires i < |vs|
  {
    var h := vs[i].h;
    h.size == 0 || (h.num != 0 && InfoOf(infos, h.stream).first.None? && FirstWanted(vs, h.stream, false) == i)
  }

  lemma FirstIsBad(infos: seq<Info>, v: Visit, vs: seq<Visit>)
    ensures Bad(infos, [v] + vs, 0) <==>
              v.h.size == 0 || (v.h.num != 0 && InfoOf(infos, v.h.stream).first.None?)
  {}

  lemma RestIsBad(infos: seq<Info>, infos': seq<Info>, v: Visit, vs: seq<Visit>, i: nat)
    requires i < |vs| && InfoOf(infos', v.h.stream).first.Some?
    requires forall s: nat | s != v.h.stream :: InfoOf(infos', s) == InfoOf(infos, s)
    ensures Bad(infos, [v] + vs, i + 1) <==> Bad(infos', vs, i)
  {
    assert ([v] + vs)[1..] == vs && ([v] + vs)[i + 1] == vs[i];
    var s := vs[i].h.stream;
    assert FirstWanted([v] + vs, s, false) == if Wanted(v, s, false) then 0 else 1 + FirstWanted(vs, s, false);
  }

  ghost predicate NoneBad(infos: seq<Info>, vs: seq<Visit>) {
    forall i | 0 <= i < |vs| :: !Bad(infos, vs, i)
  }

  lemma NoneBadStep(infos: seq<Info>, infos': seq<Info>, v: Visit, vs: seq<Visit>)
    requires InfoOf(infos', v.h.stream).first.Some?
    requires forall s: nat | s != v.h.stream :: InfoOf(infos', s) == InfoOf(infos, s)
    ensures NoneBad(infos, [v] + vs) <==> !Bad(infos, [v] + vs, 0) && NoneBad(infos', vs)
  {
    hide Bad;
    var all := [v] + vs;
    forall i | 0 <= i < |vs|
      ensures Bad(infos, all, i + 1) <==> Bad(infos', vs, i)
    {
      RestIsBad(infos, infos', v, vs, i);
    }
    if NoneBad(infos, all) {
      forall i | 0 <= i < |vs|
        ensures !Bad(infos', vs, i)
      {
        assert !Bad(infos, all, i + 1);
      }
    } else {
      var i :| 0 <= i < |all| && Bad(infos, all, i);
      assert i > 0 ==> Bad(infos', vs, i - 1);
    }
  }

  lemma NotNoneBad(infos: seq<Info>, v: Visit, vs: seq<Visit>)
    requires Bad(infos, [v] + vs, 0)
    ensures !NoneBad(infos, [v] + vs)
  {}

  lemma NoneBadTurn(infos: seq<Info>, at: nat, h: Header, vs: seq<Visit>)
    ensures NoneBad(infos, [Visit(at, h)] + vs) <==>
              h.size > 0 && Noted(infos, at, h).Some? && NoneBad(Noted(infos, at, h).value, vs)
  {
    hide NoneBad, InfoOf, Noted, Checked, FirstWanted, Bad;
    var v := Visit(at, h);
    BlockNoted(infos, at, h);
    FirstIsBad(infos, v, vs);
    if h.size > 0 && Noted(infos, at, h).Some? {
      NoneBadStep(infos, Noted(infos, at, h).value, v, vs);
    } else {
      NotNoneBad(infos, v, vs);
    }
  }

  lemma VisitsTurn(file: seq<Byte>, at: nat, h: Header)
    requires at + HEADER <= |file| && h == Decode(file[at..at + HEADER])
    ensures Visits(file, at) == [Visit(at, h)] + if h.size == 0 then [] else Visits(file, at + h.size)
  {
    hide Decode;
  }

  lemma ScanTurn(file: seq<Byte>, at: nat, infos: seq<Info>, h: Header)
    requires at + HEADER <= |file| && h == Decode(file[at..at + HEADER])
    ensures var noted := Noted(infos, at, h);
            if h.size > 0 && noted.Some? then ScanFrom(file, at, infos) == ScanFrom(file, at + h.size, noted.value)
            else !ScanFrom(file, at, infos).Found?
  {
    hide Decode, Noted;
  }

  lemma ScanEnds(file: seq<Byte>, at: nat, infos: seq<Info>)
    requires at + HEADER > |file|
    ensures ScanFrom(file, at, infos).Found? && NoneBad(infos, Visits(file, at))
  {}

  /** The scan succeeds exactly if it comes to no such block. */
  lemma {:induction false} ScanSucceeds(file: seq<Byte>, at: nat, infos: seq<Info>)
    ensures ScanFrom(file, at, infos).Found? <==> NoneBad(infos, Visits(file, at))
    decreases |file| - at
  {
    hide Decode, Bad, NoneBad, Noted, Visits, ScanFrom;
    if at + HEADER > |file| {
      ScanEnds(file, at, infos);
    } else {
      var h := Decode(file[at..at + HEADER]);
      var vs := if h.size == 0 then [] else Visits(file, at + h.size);
      VisitsTurn(file, at, h);
      ScanTurn(file, at, infos, h);
      NoneBadTurn(infos, at, h, vs);
      if h.size > 0 && Noted(infos, at, h).Some? {
        ScanSucceeds(file, at + h.size, Noted(infos, at, h).value);
      }
    }
  }

  // ---------- On recorded files

  /** What the scan must have found for a stream when it is before block k. */
  function Expected(tiles: seq<Tile>, k: nat, s: nat): Info
    requires Headed(tiles) && k <= |tiles|
  {
    var seen, c := Chain(tiles[..k], s), Chain(tiles, s);
    if seen == [] || c == [] then NO_INFO
    else Info(Some(c[0].off), if |seen| == |c| then Some(c[|c| - 1].off) else None, |c[0].tile|)
  }

  function InfoOf(infos: seq<Info>, s: nat): Info {
    if s < |infos| then infos[s] else NO_INFO
  }

  ghost predicate Scanned(tiles: seq<Tile>, k: nat, infos: seq<Info>)
    requires Headed(tiles) && k <= |tiles|
  {
    forall s: nat :: InfoOf(infos, s) == Expected(tiles, k, s)
  }

  /** Block j of a stream, as far as the scan looks at it. */
  ghost predicate Scannable(c: seq<Block>, j: nat)
    requires j < |c|
  {
    && |c[j].tile| >= HEADER && c[j].off < NO_NEXT
    && var h := Decode(c[j].tile);
    && h.size == |c[j].tile| == |c[0].tile| && (j == 0 ==> h.num == 0) && h.next == LinkOf(c, j, NO_NEXT)
  }

  lemma {:induction false} ChainPrefix(tiles: seq<Tile>, k: nat, s: nat)
    requires Headed(tiles) && k <= |tiles|
    ensures Chain(tiles[..k], s) <= Chain(tiles, s)
    ensures k < |tiles| && StreamOf(tiles[k]) == s ==>
              |Chain(tiles[..k], s)| < |Chain(tiles, s)|
              && Chain(tiles, s)[|Chain(tiles[..k], s)|] == Block(Off(tiles, k), tiles[k])
  {
    hide Decode, Flatten;
    if k == |tiles| {
      assert tiles[..k] == tiles;
    } else {
      var last := |tiles| - 1;
      if k < last {
        ChainPrefix(tiles[..last], k, s);
        assert tiles[..last][..k] == tiles[..k];
      }
    }
  }

  lemma HeaderBytes(tiles: seq<Tile>, k: nat)
    requires Headed(tiles) && k < |tiles|
    ensures var at, file := Off(tiles, k), Flatten(tiles);
            && at + |tiles[k]| <= |file| && Decode(file[at..at + HEADER]) == Decode(tiles[k])
            && at + |tiles[k]| == Off(tiles, k + 1)
  {
    hide Flatten, BigEndian, FromBigEndian;
    TileBytes(tiles, k);
    OffStep(tiles, k);
    var at, file, t := Off(tiles, k), Flatten(tiles), tiles[k];
    assert file[at..at + HEADER] == file[at..at + |t|][..HEADER] == t[..HEADER];
    var h := t[..HEADER];
    assert h[..8] == t[..8] && h[8..10] == t[8..10] && h[10..12] == t[10..12] && h[12..16] == t[12..16];
    assert h[16..20] == t[16..20] && h[20..24] == t[20..24] && h[24..28] == t[24..28];
  }

  /** One block further. */
  lemma ScanStep(tiles: seq<Tile>, k: nat, infos: seq<Info>)
    requires Headed(tiles) && k < |tiles| && Scanned(tiles, k, infos)
    requires var c := Chain(tiles, StreamOf(tiles[k])); forall j | 0 <= j < |c| :: Scannable(c, j)
    ensures var h := Decode(tiles[k]);
            var known := Grown(infos, h.stream + 1);
            var info := Checked(known[h.stream], Off(tiles, k), h);
            info.Some? && h.size == |tiles[k]| && Scanned(tiles, k + 1, known[h.stream := info.value])
  {
    hide Decode, Flatten, Chain;
    var t := tiles[k];
    var h := Decode(t);
    var s := h.stream;
    var at, c, seen := Off(tiles, k), Chain(tiles, s), Chain(tiles[..k], s);
    ChainPrefix(tiles, k, s);
    assert Scannable(c, |seen|) && Scannable(c, 0);
    if |seen| + 1 < |c| {
      assert Scannable(c, |seen| + 1);
    }
    var known := Grown(infos, s + 1);
    assert known[s] == InfoOf(infos, s) == Expected(tiles, k, s);
    forall i: nat
      ensures Chain(tiles[..k + 1], i) == Chain(tiles[..k], i) + if i == s then [Block(at, t)] else []
    {
      assert tiles[..k + 1] == tiles[..k] + [t];
      ChainAppend(tiles[..k], t, i);
    }
    var info := Checked(known[s], at, h);
    assert info.value == Expected(tiles, k + 1, s);
    var infos' := known[s := info.value];
    forall i: nat
      ensures InfoOf(infos', i) == Expected(tiles, k + 1, i)
    {
      assert InfoOf(infos, i) == Expected(tiles, k, i);
    }
  }

  lemma OffEnds(tiles: seq<Tile>)
    ensures Off(tiles, 0) == 0 && Off(tiles, |tiles|) == |Flatten(tiles)|
  {
    assert tiles[..|tiles|] == tiles;
  }

  lemma NothingScanned(tiles: seq<Tile>)
    requires Headed(tiles)
    ensures Scanned(tiles, 0, [])
  {
    assert tiles[..0] == [];
  }

  lemma {:induction false} ScanRest(tiles: seq<Tile>, k: nat, infos: seq<Info>) returns (found: seq<Info>)
    requires Headed(tiles) && k <= |tiles| && Scanned(tiles, k, infos)
    requires forall s: nat, j | 0 <= j < |Chain(tiles, s)| :: Scannable(Chain(tiles, s), j)
    ensures ScanFrom(Flatten(tiles), Off(tiles, k), infos) == Found(found) && Scanned(tiles, |tiles|, found)
    decreases |tiles| - k
  {
    hide Decode, Flatten, Chain, Scanned, Grown, Checked, Scannable, Off;
    if k == |tiles| {
      assert tiles[..k] == tiles;
      found := infos;
      OffEnds(tiles);
    } else {
      HeaderBytes(tiles, k);
      ScanStep(tiles, k, infos);
      var h := Decode(tiles[k]);
      var known := Grown(infos, h.stream + 1);
      found := ScanRest(tiles, k + 1, known[h.stream := Checked(known[h.stream], Off(tiles, k), h).value]);
    }
  }

  lemma RecordedScannable(st: Store, tiles: seq<Tile>, stories: seq<Story>, s: nat)
    requires StoreFits(st, tiles, stories) && s < |st.writers| && |st.file| < NO_NEXT
    ensures Headed(tiles) && forall j | 0 <= j < |Chain(tiles, s)| :: Scannable(Chain(tiles, s), j)
    ensures var c := Chain(tiles, s);
            && (forall j | 0 <= j < |c| :: |c[j].tile| == st.writers[s].capacity)
            && st.firsts[s] == (if c == [] then None else Some(c[0].off))
            && st.writers[s].previous == (if c == [] then None else Some(c[|c| - 1].off))
  {
    hide Chain, Flatten, Decode, Follows, CrcOk, Earlier;
    StoryKnown(st, tiles, stories, s);
    ChainIncreases(tiles, s);
    var c, w, pieces := Chain(tiles, s), st.writers[s], stories[s].pieces;
    forall j | 0 <= j < |c|
      ensures Scannable(c, j) && |c[j].tile| == w.capacity
    {
      assert BlockFits(c, j, w.stream, w.capacity, pieces, NO_NEXT);
      assert BlockFits(c, 0, w.stream, w.capacity, pieces, NO_NEXT);
    }
  }

  /** Index rebuild: scanning the file left by any recording session ends, and finds for every stream
      the first block and the last block that the live handler and writer know, and the block size. */
  lemma IndexRebuild(ops: seq<Op>) returns (found: seq<Info>)
    requires IsSession(ops)
    ensures ScanFrom(After(ops).file, 0, []) == Found(found)
    ensures |After(ops).firsts| == |After(ops).writers|
    ensures forall s: nat | s < |After(ops).writers| ::
              InfoOf(found, s) == if After(ops).firsts[s].None? then NO_INFO
                                  else Info(After(ops).firsts[s], After(ops).writers[s].previous, After(ops).writers[s].capacity)
    ensures forall s: nat | s >= |After(ops).writers| :: InfoOf(found, s) == NO_INFO
  {
    hide Chain, Flatten, Decode, After, IsSession, StoreFits, AllTell, Scannable, ScanFrom;
    SessionKeepsStore(ops);
    var st, tiles, stories := After(ops), TilesAfter(ops), StoriesAfter(ops);
    FitsFacts(ops, st, tiles, stories);
    FileIsBounded(ops);
    forall s: nat, j | 0 <= j < |Chain(tiles, s)|
      ensures s < |st.writers| && Scannable(Chain(tiles, s), j)
    {
      OnlyKnownStreams(st, tiles, stories, s);
      RecordedScannable(st, tiles, stories, s);
    }
    NothingScanned(tiles);
    OffEnds(tiles);
    found := ScanRest(tiles, 0, []);
    assert tiles[..|tiles|] == tiles;
    forall s: nat | s < |st.writers|
      ensures InfoOf(found, s) == if st.firsts[s].None? then NO_INFO
                                  else Info(st.firsts[s], st.writers[s].previous, st.writers[s].capacity)
    {
      RecordedScannable(st, tiles, stories, s);
      assert InfoOf(found, s) == Expected(tiles, |tiles|, s);
    }
    forall s: nat | s >= |st.writers|
      ensures InfoOf(found, s) == NO_INFO
    {
      OnlyKnownStreams(st, tiles, stories, s);
      assert InfoOf(found, s) == Expected(tiles, |tiles|, s);
    }
  }

  lemma OnlyKnownStreams(st: Store, tiles: seq<Tile>, stories: seq<Story>, s: nat)
    requires StoreFits(st, tiles, stories)
    ensures Headed(tiles) && (s >= |st.writers| ==> Chain(tiles, s) == [])
  {
    hide Chain, Flatten, Decode, StreamAt;
    if s >= |st.writers| {
      NoBlocks(tiles, s);
    }
  }
}
