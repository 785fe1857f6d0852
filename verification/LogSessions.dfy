/** Recording sessions from an empty file, described by the calls that were made, and what the stories
    of the streams say about them. */
module LogSessions {
  import opened Bytes
  import opened ControlBlocks
  import opened BlockFiles
  import opened StreamWriters
  import opened LogStore
  import opened LogRuns

  // ---------- Whole sessions

  /** A session on a new file in which every step is possible when it is taken. */
  predicate IsSession(ops: seq<Op>)
    decreases |ops|, 0
  {
    ops == [] || (IsSession(ops[..|ops| - 1]) && Enabled(After(ops[..|ops| - 1]), ops[|ops| - 1]))
  }

  function After(ops: seq<Op>): Store
    requires IsSession(ops)
    decreases |ops|, 1
  {
    if ops == [] then NEW_FILE else Step(After(ops[..|ops| - 1]), ops[|ops| - 1])
  }

  /** The bytes written to stream s. */
  function Written(ops: seq<Op>, s: nat): seq<Byte> {
    if ops == [] then []
    else
      var op := ops[|ops| - 1];
      Written(ops[..|ops| - 1], s) + if op.Put? && op.s == s then op.data else []
  }

  /** How many bytes were written when an item was marked for the first time. */
  function FirstItem(ops: seq<Op>, s: nat): Option<nat> {
    if ops == [] then None
    else
      var before := ops[..|ops| - 1];
      if FirstItem(before, s).Some? || ops[|ops| - 1] != Item(s) then FirstItem(before, s) else Some(|Written(before, s)|)
  }

  /** The stream was closed off, and nothing was added since. */
  predicate Saved(ops: seq<Op>, s: nat) {
    ops != [] &&
    match ops[|ops| - 1]
    case Close(t, _) => t == s || Saved(ops[..|ops| - 1], s)
    case Put(t, _) => t != s && Saved(ops[..|ops| - 1], s)
    case Item(t) => t != s && Saved(ops[..|ops| - 1], s)
    case _ => Saved(ops[..|ops| - 1], s)
  }

  datatype Phase = NotAsked | Asking | Begun(at: nat)

  /** Where the current stretch of stream s began: at the item that was marked right after it was asked for. */
  function PhaseOf(ops: seq<Op>, s: nat): Phase {
    if ops == [] then NotAsked
    else
      var before := ops[..|ops| - 1];
      var phase := PhaseOf(before, s);
      match ops[|ops| - 1]
      case Segment(t) => if t == s then Asking else phase
      case Item(t) => if t == s && phase == Asking then Begun(|Written(before, s)|) else phase
      case Put(t, _) => if t == s && phase == Asking then NotAsked else phase
      case Close(t, _) => if t == s && phase == Asking then NotAsked else phase
      case _ => phase
  }

  /** What one call more means for a stream. */
  lemma CallMeans(ops: seq<Op>, op: Op, s: nat)
    ensures Written(ops + [op], s) == if op.Put? && op.s == s then Written(ops, s) + op.data else Written(ops, s)
    ensures var phase := PhaseOf(ops, s);
            PhaseOf(ops + [op], s)
            == if op == Segment(s) then Asking
               else if op == Item(s) && phase == Asking then Begun(|Written(ops, s)|)
               else if (op.Put? || op.Close?) && op.s == s && phase == Asking then NotAsked
               else phase
    ensures Saved(ops + [op], s)
            <==> (op.Close? && op.s == s) || (Saved(ops, s) && !((op.Put? || op.Item?) && op.s == s))
  {
    assert (ops + [op])[..|ops|] == ops;
    assert Written(ops, s) + [] == Written(ops, s);
  }

  // ---------- The stories tell what the session did

  function FirstMark(pieces: seq<Piece>): Option<nat> {
    if pieces == [] then None
    else
      var m := |pieces| - 1;
      if FirstMark(pieces[..m]).Some? || pieces[m].mark < HEADER then FirstMark(pieces[..m])
      else Some(|Content(pieces[..m])| + pieces[m].mark - HEADER)
  }

  /** A place in the stream, counted in bytes from its start. */
  function PositionOf(pieces: seq<Piece>, spot: Spot): int
    requires spot.piece <= |pieces|
  {
    |Content(pieces[..spot.piece])| + spot.inside - HEADER
  }

  ghost predicate Tells(story: Story, w: Writer, ops: seq<Op>, s: nat) {
    && Cut(story.pieces, w.capacity)
    && Content(story.pieces) == Written(ops, s)
    && FirstMark(story.pieces) == FirstItem(ops, s)
    && (Saved(ops, s) ==> story.whole || w.current.None?)
    && (PhaseOf(ops, s).Asking? ==> story.stretch == Waiting)
    && (PhaseOf(ops, s).Begun? ==>
          && story.stretch.Began? && story.stretch.spot.piece < |story.pieces|
          && PositionOf(story.pieces, story.stretch.spot) == PhaseOf(ops, s).at)
  }

  lemma StoryPutKeeps(pieces: seq<Piece>, capacity: nat, x: Byte)
    requires Cut(pieces, capacity)
    ensures var r := StoryPut(pieces, capacity, x);
            && |r| >= |pieces| && r[..|pieces| - 1] == pieces[..|pieces| - 1]
            && FirstMark(r) == FirstMark(pieces)
  {
    hide Content;
    var r, m := StoryPut(pieces, capacity, x), |pieces| - 1;
    var grown := pieces[m := pieces[m].(body := pieces[m].body + [x])];
    assert grown[..m] == pieces[..m];
    assert FirstMark(grown) == FirstMark(pieces);
    if |r| > |pieces| {
      assert r[..|r| - 1] == grown;
    }
  }

  lemma {:induction false} ToldWriteKeeps(story: Story, capacity: nat, data: seq<Byte>)
    requires Cut(story.pieces, capacity)
    ensures var r := ToldWrite(story, capacity, data);
            && |r.pieces| >= |story.pieces| && r.pieces[..|story.pieces| - 1] == story.pieces[..|story.pieces| - 1]
            && FirstMark(r.pieces) == FirstMark(story.pieces)
            && (story.stretch != Waiting ==> r.stretch == story.stretch)
    decreases |data|
  {
    hide Content, FirstMark;
    if data != [] {
      StoryPutKeeps(story.pieces, capacity, data[0]);
      StoryPutAdds(story.pieces, capacity, data[0]);
      var next := ToldPut(story, capacity, data[0]);
      ToldWriteKeeps(next, capacity, data[1..]);
      var r := ToldWrite(next, capacity, data[1..]);
      var m := |story.pieces| - 1;
      assert r.pieces[..m] == r.pieces[..|next.pieces| - 1][..m] == next.pieces[..m];
    }
  }

  lemma StoryMarkFirst(pieces: seq<Piece>, capacity: nat)
    requires Cut(pieces, capacity)
    ensures var r := StoryMark(pieces);
            && |r| == |pieces| && r[..|pieces| - 1] == pieces[..|pieces| - 1]
            && FirstMark(r) == if FirstMark(pieces).Some? then FirstMark(pieces) else Some(|Content(pieces)|)
  {
    hide Content;
    var r, m := StoryMark(pieces), |pieces| - 1;
    assert r[..m] == pieces[..m];
    assert Marked(pieces, m);
    LastContent(pieces);
  }

  /** A place before the end of the story stays the same number of bytes from its start. */
  lemma PositionKept(pieces: seq<Piece>, pieces': seq<Piece>, spot: Spot)
    requires pieces != [] && spot.piece < |pieces| <= |pieces'|
    requires pieces'[..|pieces| - 1] == pieces[..|pieces| - 1]
    ensures PositionOf(pieces', spot) == PositionOf(pieces, spot)
  {
    hide Content;
    var m := |pieces| - 1;
    assert pieces'[..spot.piece] == pieces'[..m][..spot.piece] && pieces[..spot.piece] == pieces[..m][..spot.piece];
  }

  lemma PutTells(story: Story, w: Writer, ops: seq<Op>, s: nat, op: Op, w': Writer)
    requires Tells(story, w, ops, s) && op.Put? && op.s == s && w'.capacity == w.capacity
    ensures Tells(ToldWrite(story, w.capacity, op.data), w', ops + [op], s)
  {
    hide Content, FirstMark, PositionOf, ToldWrite;
    assert (ops + [op])[..|ops|] == ops;
    ToldWriteAdds(story, w.capacity, op.data);
    ToldWriteKeeps(story, w.capacity, op.data);
    if PhaseOf(ops, s).Begun? {
      PositionKept(story.pieces, ToldWrite(story, w.capacity, op.data).pieces, story.stretch.spot);
    }
  }

  lemma ItemTells(story: Story, w: Writer, ops: seq<Op>, s: nat, w': Writer)
    requires Tells(story, w, ops, s) && w'.capacity == w.capacity
    ensures Tells(ToldMark(story), w', ops + [Item(s)], s)
  {
    hide Content, FirstMark, StoryMark;
    assert (ops + [Item(s)])[..|ops|] == ops;
    StoryMarkKeeps(story.pieces, w.capacity);
    StoryMarkFirst(story.pieces, w.capacity);
    var r := ToldMark(story);
    if PhaseOf(ops, s).Begun? {
      PositionKept(story.pieces, r.pieces, story.stretch.spot);
    } else if PhaseOf(ops, s).Asking? {
      PositionKept(story.pieces, r.pieces, r.stretch.spot);
      LastContent(story.pieces);
    }
  }

  lemma LastContent(pieces: seq<Piece>)
    requires pieces != []
    ensures |Content(pieces)| == |Content(pieces[..|pieces| - 1])| + |pieces[|pieces| - 1].body|
  {
  }

  lemma OtherTells(story: Story, w: Writer, ops: seq<Op>, s: nat, op: Op, story': Story, w': Writer)
    requires Tells(story, w, ops, s) && w'.capacity == w.capacity
    requires match op
             case Create(_) => story' == story && w' == w
             case Put(t, _) => t != s && story' == story && w' == w
             case Item(t) => t != s && story' == story && w' == w
             case Segment(t) => if t == s then story' == story.(stretch := Waiting) else story' == story && w' == w
             case Close(t, _) => if t == s then story' == ToldClose(story, w.current.Some?) else story' == story && w' == w
             case Process => story' == story && w'.current == w.current
             case Load => story' == story && w' == w
    requires op == Segment(s) ==> w'.current.Some? == w.current.Some?
    requires op.Close? && op.s == s && w.current.None? ==> w'.current.None?
    ensures Tells(story', w', ops + [op], s)
  {
    hide Content, FirstMark, PositionOf;
    assert (ops + [op])[..|ops|] == ops;
  }

  lemma {:induction false} Untouched(ops: seq<Op>, s: nat)
    requires IsSession(ops) && s >= |After(ops).writers|
    ensures Written(ops, s) == [] && FirstItem(ops, s) == None && !Saved(ops, s) && PhaseOf(ops, s) == NotAsked
  {
    hide Enabled, Step;
    if ops != [] {
      var before, op := ops[..|ops| - 1], ops[|ops| - 1];
      StepStreams(After(before), op);
      Untouched(before, s);
    }
  }

  lemma StepStreams(st: Store, op: Op)
    requires Enabled(st, op)
    ensures var st' := Step(st, op);
            && |st'.writers| == |st.writers| + (if op.Create? then 1 else 0)
            && (op.Put? || op.Item? || op.Segment? || op.Close? ==> op.s < |st.writers|)
  {
    hide Write, MarkItem, CloseOff, MarkSegment, Image, Unreported;
  }

  lemma StepWriter(st: Store, tiles: seq<Tile>, stories: seq<Story>, op: Op, s: nat)
    requires StoreFits(st, tiles, stories) && Enabled(st, op) && s < |st.writers|
    ensures var w, w' := st.writers[s], Step(st, op).writers[s];
            && w'.capacity == w.capacity
            && (op == Process || op == Load || op.Create? || op.s != s ==> w'.current == w.current)
            && (op == Load || op.Create? || (op != Process && op.s != s) ==> w' == w)
            && (op == Segment(s) ==> w'.current.Some? && w.current.Some?)
            && (op.Close? && op.s == s && w.current.None? ==> w'.current.None?)
  {
    hide Chain, Flatten, Image, Unreported, Tell, WriteAt, Decode, Follows, Listed, Knows;
    if op.Put? {
      StoryKnown(st, tiles, stories, op.s);
      WriteStream(Chain(tiles, op.s), st.writers[op.s], stories[op.s], op.s, st.firsts[op.s], st.tags[op.s], op.data);
    }
  }

  ghost predicate AllTell(st: Store, stories: seq<Story>, ops: seq<Op>)
    requires |stories| == |st.writers|
  {
    forall s | 0 <= s < |stories| :: Tells(stories[s], st.writers[s], ops, s)
  }

  lemma StepTells(st: Store, tiles: seq<Tile>, stories: seq<Story>, ops: seq<Op>, op: Op)
    requires IsSession(ops + [op]) && IsSession(ops) && st == After(ops) && Enabled(st, op)
    requires StoreFits(st, tiles, stories) && AllTell(st, stories, ops)
    requires forall s | 0 <= s < |stories| :: stories[s].pieces != []
    ensures |Retold(stories, st, op)| == |Step(st, op).writers|
    ensures AllTell(Step(st, op), Retold(stories, st, op), ops + [op])
  {
    hide Tells, ToldMark, ToldWrite, ToldClose, Step, Enabled, StoreFits, Written, PhaseOf, Saved, FirstItem, IsSession, After;
    StoreFacts(st, tiles, stories);
    var st', stories' := Step(st, op), Retold(stories, st, op);
    StepStreams(st, op);
    forall s: nat | s < |stories'|
      ensures Tells(stories'[s], st'.writers[s], ops + [op], s)
    {
      if s == |stories| {
        Untouched(ops, s);
        FreshTells(st, ops, op, s);
      } else {
        assert Tells(stories[s], st.writers[s], ops, s);
        StepWriter(st, tiles, stories, op, s);
        if op.Put? && op.s == s {
          PutTells(stories[s], st.writers[s], ops, s, op, st'.writers[s]);
        } else if op.Item? && op.s == s {
          ItemTells(stories[s], st.writers[s], ops, s, st'.writers[s]);
        } else {
          OtherTells(stories[s], st.writers[s], ops, s, op, stories'[s], st'.writers[s]);
        }
      }
    }
  }

  lemma FreshTells(st: Store, ops: seq<Op>, op: Op, s: nat)
    requires Enabled(st, op) && op.Create? && s == |st.writers|
    requires Written(ops, s) == [] && FirstItem(ops, s) == None && !Saved(ops, s) && PhaseOf(ops, s) == NotAsked
    ensures |Step(st, op).writers| == s + 1 && Tells(NEW_STORY, Step(st, op).writers[s], ops + [op], s)
  {
    assert (ops + [op])[..|ops|] == ops;
    assert Marked(NEW_STORY.pieces, 0);
    assert NEW_STORY.pieces[..0] == [];
  }

  /** The stories of the streams, and the blocks of the file, that a session leads to. */
  ghost function StoriesAfter(ops: seq<Op>): seq<Story>
    requires IsSession(ops)
  {
    if ops == [] then []
    else
      var before := ops[..|ops| - 1];
      var stories := StoriesAfter(before);
      if |stories| == |After(before).writers| && forall s | 0 <= s < |stories| :: stories[s].pieces != [] then
        Retold(stories, After(before), ops[|ops| - 1])
      else []
  }

  ghost function TilesAfter(ops: seq<Op>): seq<Tile>
    requires IsSession(ops)
  {
    if ops == [] then []
    else
      var before := ops[..|ops| - 1];
      if Headed(TilesAfter(before)) then Reblocked(TilesAfter(before), After(before), ops[|ops| - 1]) else []
  }

  ghost predicate SessionFits(ops: seq<Op>, st: Store, tiles: seq<Tile>, stories: seq<Story>) {
    StoreFits(st, tiles, stories) && AllTell(st, stories, ops)
  }

  lemma SessionStep(ops: seq<Op>, op: Op, st: Store, tiles: seq<Tile>, stories: seq<Story>)
    requires IsSession(ops + [op]) && IsSession(ops) && Enabled(st, op) && st == After(ops)
    requires SessionFits(ops, st, tiles, stories)
    ensures Headed(tiles) && |stories| == |st.writers| && forall s | 0 <= s < |stories| :: stories[s].pieces != []
    ensures SessionFits(ops + [op], Step(st, op), Reblocked(tiles, st, op), Retold(stories, st, op))
  {
    hide StoreFits, AllTell, Step, Enabled, Reblocked, Retold, IsSession, After;
    StoreFacts(st, tiles, stories);
    StepKeepsStore(st, tiles, stories, op);
    StepTells(st, tiles, stories, ops, op);
  }

  /** After any session the file is made of whole blocks, every stream's blocks are a linked list, and
      the stories of the streams tell what the session wrote and marked. */
  lemma {:induction false} SessionKeepsStore(ops: seq<Op>)
    requires IsSession(ops)
    ensures SessionFits(ops, After(ops), TilesAfter(ops), StoriesAfter(ops))
    ensures |StoriesAfter(ops)| == |After(ops).writers| == |After(ops).firsts| == |After(ops).tags|
    ensures Headed(TilesAfter(ops))
  {
    hide SessionFits, Step, Enabled, Reblocked, Retold, IsSession, After, StoriesAfter, TilesAfter;
    if ops == [] {
      EmptyFits();
    } else {
      var before, op := ops[..|ops| - 1], ops[|ops| - 1];
      LastStep(ops);
      SessionKeepsStore(before);
      assert before + [op] == ops;
      SessionStep(before, op, After(before), TilesAfter(before), StoriesAfter(before));
      LastStories(ops);
      FitsFacts(ops, After(ops), TilesAfter(ops), StoriesAfter(ops));
    }
  }

  lemma EmptyFits()
    ensures IsSession([]) && After([]) == NEW_FILE && StoriesAfter([]) == [] && TilesAfter([]) == []
    ensures SessionFits([], NEW_FILE, [], [])
  {
  }

  lemma LastStories(ops: seq<Op>)
    requires ops != [] && IsSession(ops) && IsSession(ops[..|ops| - 1])
    requires var before := ops[..|ops| - 1];
             && Headed(TilesAfter(before)) && |StoriesAfter(before)| == |After(before).writers|
             && forall s | 0 <= s < |StoriesAfter(before)| :: StoriesAfter(before)[s].pieces != []
    ensures var before, op := ops[..|ops| - 1], ops[|ops| - 1];
            && Enabled(After(before), op)
            && TilesAfter(ops) == Reblocked(TilesAfter(before), After(before), op)
            && StoriesAfter(ops) == Retold(StoriesAfter(before), After(before), op)
  {
    hide Enabled, Step, Reblocked, Retold;
  }

  lemma FitsFacts(ops: seq<Op>, st: Store, tiles: seq<Tile>, stories: seq<Story>)
    requires SessionFits(ops, st, tiles, stories)
    ensures |stories| == |st.writers| == |st.firsts| == |st.tags| && Headed(tiles)
    ensures st.file == Flatten(tiles) && st.offset == |st.file|
  {
    hide AllTell, StreamAt, Flatten;
  }

  lemma LastStep(ops: seq<Op>)
    requires IsSession(ops) && ops != []
    ensures var before, op := ops[..|ops| - 1], ops[|ops| - 1];
            IsSession(before) && Enabled(After(before), op) && After(ops) == Step(After(before), op)
  {
    hide Enabled, Step;
  }
}
