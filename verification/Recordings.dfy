/** Whole recordings: stretches are started, recorders record in some of them or in none, and stretches
    are completed, each with a tag that holds the place where the data of each recorder starts. */
module Recordings {
  import opened Bytes
  import opened ControlBlocks
  import opened BlockFiles
  import opened StreamWriters
  import opened LogStore
  import opened LogRuns
  import opened LogSessions
  import opened LogSegments
  import opened LogSync
  import SegmentFiles

  /** startStretch; one item recorded by recorder i; a call for another stream, or a write job; and
      completeStretch, with as many write jobs as there are. Recorder i has stream i + 2. */
  datatype Act = Begin | Record(i: nat, data: seq<Byte>) | Other(op: Op) | Complete(turns: nat)

  /** `dirty` is a flag of each recorder. `ends` is what the recorders had written at the end of each
      stretch. */
  datatype Recording = Recording(ops: seq<Op>, open: bool, dirty: seq<bool>, tags: seq<seq<Place>>, ends: seq<seq<nat>>)

  function Asks(n: nat): seq<Op> {
    if n == 0 then [] else Asks(n - 1) + [Segment(n + 1)]
  }

  function Closes(dirty: seq<bool>): seq<Op> {
    if dirty == [] then []
    else Closes(dirty[..|dirty| - 1]) + if dirty[|dirty| - 1] then [Close(|dirty| + 1, true)] else []
  }

  function Turns(n: nat): seq<Op> {
    if n == 0 then [] else Turns(n - 1) + [Process]
  }

  function Creates(capacities: seq<nat>): seq<Op> {
    if capacities == [] then [] else Creates(capacities[..|capacities| - 1]) + [Create(capacities[|capacities| - 1])]
  }

  /** The inventory and the tags have streams 0 and 1. */
  predicate Elsewhere(op: Op) {
    op == Process || ((op.Put? || op.Item? || op.Close?) && op.s < 2)
  }

  /** The calls that an act makes. */
  function Calls(r: Recording, a: Act): seq<Op> {
    match a
    case Begin => Asks(|r.dirty|)
    case Record(i, data) => [Item(i + 2), Op.Put(i + 2, data)]
    case Other(op) => [op]
    case Complete(turns) => Closes(r.dirty) + Turns(turns)
  }

  /** The places in a new tag: as reported, or, for a recorder that recorded nothing, the one in the tag
      before, of which the offset was never changed. */
  function NewTag(r: Recording, told: seq<Place>): (t: seq<Place>)
    requires r.tags != [] ==> |r.tags[|r.tags| - 1]| == |r.dirty|
    requires |told| == |r.dirty| + 2
    ensures |t| == |r.dirty|
  {
    seq(|r.dirty|, i requires 0 <= i < |r.dirty| =>
      if r.dirty[i] then told[i + 2]
      else Place(told[i + 2].offset, if r.tags == [] then HEADER else r.tags[|r.tags| - 1][i].inside))
  }

  /** All write jobs were done. */
  predicate Settled(r: Recording, st: Store) {
    && st.jobs == [] && |st.tags| == |r.dirty| + 2
    && (r.tags != [] ==> |r.tags[|r.tags| - 1]| == |r.dirty|)
  }

  predicate Can(r: Recording, a: Act) {
    && IsSession(r.ops + Calls(r, a))
    && match a
       case Begin => !r.open
       case Record(i, data) => r.open && i < |r.dirty| && data != []
       case Other(op) => Elsewhere(op)
       case Complete(_) => r.open && Settled(r, After(r.ops + Calls(r, a)))
  }

  function Lengths(ops: seq<Op>, n: nat): (l: seq<nat>)
    ensures |l| == n && forall i | 0 <= i < n :: l[i] == |Written(ops, i + 2)|
  {
    if n == 0 then [] else Lengths(ops, n - 1) + [|Written(ops, n + 1)|]
  }

  function AllClean(n: nat): (d: seq<bool>)
    ensures |d| == n && forall i | 0 <= i < n :: !d[i]
  {
    seq(n, _ => false)
  }

  function Do(r: Recording, a: Act): Recording
    requires Can(r, a)
  {
    hide Written, After, IsSession;
    var ops := r.ops + Calls(r, a);
    match a
    case Begin => r.(ops := ops, open := true)
    case Record(i, _) => r.(ops := ops, dirty := r.dirty[i := true])
    case Other(_) => r.(ops := ops)
    case Complete(_) =>
      Recording(ops, false, AllClean(|r.dirty|), r.tags + [NewTag(r, After(ops).tags)],
                r.ends + [Lengths(ops, |r.dirty|)])
  }

  function NewRecording(capacities: seq<nat>): Recording
    requires |capacities| >= 2
  {
    Recording(Creates(capacities), false, AllClean(|capacities| - 2), [], [])
  }

  predicate IsRecording(capacities: seq<nat>, acts: seq<Act>)
    decreases |acts|, 0
  {
    if acts == [] then |capacities| >= 2 && IsSession(Creates(capacities))
    else
      var last := |acts| - 1;
      IsRecording(capacities, acts[..last]) && Can(Recorded(capacities, acts[..last]), acts[last])
  }

  function Recorded(capacities: seq<nat>, acts: seq<Act>): Recording
    requires IsRecording(capacities, acts)
    decreases |acts|, 1
  {
    if acts == [] then NewRecording(capacities)
    else
      var last := |acts| - 1;
      Do(Recorded(capacities, acts[..last]), acts[last])
  }

  // ---------- One recorder

  /** No buffer waits, and no start is to be reported. */
  predicate Resting(w: Writer) {
    w.queue == [] && w.current.Some? && StartOf(w.current.value, 0) == []
  }

  /** No buffer was asked for a start and then not marked. */
  predicate NoneUnmarked(w: Writer) {
    && (forall b | b in w.queue :: b.start != Some(0))
    && w.current.Some? && w.current.value.start != Some(0)
  }

  /** At no time a buffer of stream s waited that was asked for a start and then not marked. */
  ghost predicate EverMarked(ops: seq<Op>, s: nat) {
    && IsSession(ops)
    && (s < |After(ops).writers| ==> forall b | b in After(ops).writers[s].queue :: b.start != Some(0))
    && (ops != [] ==> EverMarked(ops[..|ops| - 1], s))
  }

  lemma MarkedOn(ops: seq<Op>, op: Op, s: nat)
    requires EverMarked(ops, s) && IsSession(ops + [op])
    requires s < |After(ops + [op]).writers| ==> forall b | b in After(ops + [op]).writers[s].queue :: b.start != Some(0)
    ensures EverMarked(ops + [op], s)
  {
    hide IsSession, After;
    assert (ops + [op])[..|ops|] == ops;
  }

  /** Stream s recorded nothing since it had `at` bytes, and all of them are on file. */
  ghost predicate Quiet(ops: seq<Op>, s: nat, at: nat, offset: nat) {
    && IsSession(ops) && s < |After(ops).writers| == |After(ops).tags| == |After(ops).firsts|
    && |Written(ops, s)| == at && (if at == 0 then After(ops).firsts[s] == None else Saved(ops, s))
    && Resting(After(ops).writers[s]) && After(ops).tags[s].offset == offset && EverMarked(ops, s)
  }

  /** Stream s recorded something since it had `at` bytes. */
  ghost predicate Busy(ops: seq<Op>, s: nat, at: nat) {
    && IsSession(ops) && s < |After(ops).writers|
    && PhaseOf(ops, s) == Begun(at) && at < |Written(ops, s)|
    && NoneUnmarked(After(ops).writers[s]) && EverMarked(ops, s)
  }

  predicate Apart(op: Op, s: nat) {
    op == Process || op.Create? || ((op.Put? || op.Item? || op.Segment? || op.Close?) && op.s != s)
  }

  lemma LastOp(ops: seq<Op>, op: Op)
    requires IsSession(ops + [op])
    ensures IsSession(ops) && Enabled(After(ops), op) && After(ops + [op]) == Step(After(ops), op)
  {
    hide Enabled, Step;
    assert (ops + [op])[..|ops|] == ops;
  }

  /** A call for another stream, or a write job. */
  lemma ApartStep(st: Store, tiles: seq<Tile>, stories: seq<Story>, op: Op, s: nat)
    requires StoreFits(st, tiles, stories) && Enabled(st, op) && s < |st.writers| == |st.tags| == |st.firsts| && Apart(op, s)
    ensures s < |Step(st, op).writers| == |Step(st, op).tags| == |Step(st, op).firsts|
    ensures var w, w' := st.writers[s], Step(st, op).writers[s];
            && (Resting(w) ==> w' == w && Step(st, op).tags[s] == st.tags[s] && Step(st, op).firsts[s] == st.firsts[s])
            && (NoneUnmarked(w) ==> NoneUnmarked(w'))
  {
    hide StoreFits, Image, WriteAt, Tell, Write, MarkItem, MarkSegment, CloseOff, BigEndian;
    StoreFacts(st, tiles, stories);
    if op == Process {
      JobsAreReady(st, tiles, stories);
    }
  }

  lemma ApartMore(ops: seq<Op>, op: Op, s: nat)
    requires IsSession(ops + [op]) && IsSession(ops) && s < |After(ops).writers| && Apart(op, s)
    ensures |After(ops).writers| == |After(ops).tags| == |After(ops).firsts|
    ensures s < |After(ops + [op]).writers| == |After(ops + [op]).tags| == |After(ops + [op]).firsts|
    ensures var w, w' := After(ops).writers[s], After(ops + [op]).writers[s];
            && (Resting(w) ==> w' == w && After(ops + [op]).tags[s] == After(ops).tags[s]
                               && After(ops + [op]).firsts[s] == After(ops).firsts[s])
            && (NoneUnmarked(w) ==> NoneUnmarked(w'))
    ensures Written(ops + [op], s) == Written(ops, s) && PhaseOf(ops + [op], s) == PhaseOf(ops, s)
    ensures Saved(ops + [op], s) == Saved(ops, s)
    ensures var w := After(ops).writers[s];
            EverMarked(ops, s) && (Resting(w) || NoneUnmarked(w)) ==> EverMarked(ops + [op], s)
  {
    hide IsSession, After, Step, Enabled, Written, PhaseOf, Saved, StoreFits, AllTell, EverMarked;
    LastOp(ops, op);
    CallMeans(ops, op, s);
    SessionKeepsStore(ops);
    ApartStep(After(ops), TilesAfter(ops), StoriesAfter(ops), op, s);
    var w := After(ops).writers[s];
    if EverMarked(ops, s) && (Resting(w) || NoneUnmarked(w)) {
      MarkedOn(ops, op, s);
    }
  }

  /** Calls for other streams leave a recorder as it is. */
  lemma {:induction false} AllApart(ops: seq<Op>, more: seq<Op>, s: nat)
    requires IsSession(ops + more) && IsSession(ops) && s < |After(ops).writers| && forall op | op in more :: Apart(op, s)
    ensures s < |After(ops + more).writers|
    ensures PhaseOf(ops + more, s) == PhaseOf(ops, s) && Written(ops + more, s) == Written(ops, s)
    ensures forall at, offset | Quiet(ops, s, at, offset) :: Quiet(ops + more, s, at, offset)
    ensures forall at | Busy(ops, s, at) :: Busy(ops + more, s, at)
    ensures Saved(ops + more, s) == Saved(ops, s)
    decreases |more|
  {
    hide IsSession, After, Written, PhaseOf, Saved, Resting, NoneUnmarked, Apart, EverMarked;
    if more == [] {
      assert ops + more == ops;
    } else {
      var last := |more| - 1;
      var less, op := more[..last], more[last];
      assert ops + more == ops + less + [op];
      LastOp(ops + less, op);
      AllApart(ops, less, s);
      ApartMore(ops + less, op, s);
    }
  }

  lemma OwnStep(ops: seq<Op>, op: Op, s: nat)
    requires IsSession(ops + [op]) && IsSession(ops) && s < |After(ops).writers|
    requires op == Segment(s) || op == Item(s) || (op.Put? && op.s == s) || op == Close(s, true)
    ensures |After(ops).writers| == |After(ops).tags| == |After(ops).firsts|
    ensures |After(ops).writers| == |After(ops + [op]).writers| == |After(ops + [op]).tags|
    ensures After(ops + [op]).firsts == After(ops).firsts
    ensures Enabled(After(ops), op)
    ensures op.Close? || CanWrite(After(ops), s)
    ensures After(ops + [op]).writers[s]
            == if op.Segment? then MarkSegment(After(ops).writers[s])
               else if op.Item? then MarkItem(After(ops).writers[s])
               else if op.Close? then CloseOff(After(ops).writers[s], true)
               else Write(After(ops).writers[s], op.data)
    ensures After(ops + [op]).tags[s].offset == After(ops).tags[s].offset
  {
    hide IsSession, After, StoreFits, AllTell, Write, MarkItem, MarkSegment, CloseOff, ProcessOne;
    LastOp(ops, op);
    SessionKeepsStore(ops);
  }

  /** A recorder at rest is asked for the start of a stretch. */
  lemma QuietAsked(ops: seq<Op>, s: nat, at: nat, offset: nat)
    requires Quiet(ops, s, at, offset) && IsSession(ops + [Segment(s)])
    ensures Quiet(ops + [Segment(s)], s, at, offset) && PhaseOf(ops + [Segment(s)], s) == Asking
  {
    hide IsSession, After, Written, PhaseOf, Saved, EverMarked;
    OwnStep(ops, Segment(s), s);
    CallMeans(ops, Segment(s), s);
    MarkedOn(ops, Segment(s), s);
  }

  lemma {:induction false} WriteMarked(w: Writer, data: seq<Byte>)
    requires NoneUnmarked(w) && Open(w) && w.capacity > HEADER
    ensures NoneUnmarked(Write(w, data))
    decreases |data|
  {
    var b := w.current.value;
    if Fill(b) + |data| >= w.capacity {
      var room := w.capacity - Fill(b);
      var w' := Fed(w, b.(body := b.body + data[..room]));
      if |data| > room {
        WriteMarked(w', data[room..]);
      }
    }
  }

  /** Marking and writing an item. */
  lemma ItemRecorded(ops: seq<Op>, s: nat, data: seq<Byte>)
    requires IsSession(ops + [Item(s), Op.Put(s, data)]) && IsSession(ops) && s < |After(ops).writers| && data != []
    requires var w := After(ops).writers[s]; Resting(w) || NoneUnmarked(w)
    requires EverMarked(ops, s)
    ensures var ops' := ops + [Item(s), Op.Put(s, data)];
            && s < |After(ops').writers| && NoneUnmarked(After(ops').writers[s]) && EverMarked(ops', s)
            && Written(ops', s) == Written(ops, s) + data
            && PhaseOf(ops', s) == if PhaseOf(ops, s) == Asking then Begun(|Written(ops, s)|) else PhaseOf(ops, s)
  {
    hide IsSession, After, Written, PhaseOf, Saved, Write, EverMarked;
    var marked := ops + [Item(s)];
    assert ops + [Item(s), Op.Put(s, data)] == marked + [Op.Put(s, data)];
    LastOp(marked, Op.Put(s, data));
    OwnStep(ops, Item(s), s);
    CallMeans(ops, Item(s), s);
    MarkedOn(ops, Item(s), s);
    OwnStep(marked, Op.Put(s, data), s);
    CallMeans(marked, Op.Put(s, data), s);
    WriteMarked(After(marked).writers[s], data);
    MarkedOn(marked, Op.Put(s, data), s);
  }

  lemma BusyClosed(ops: seq<Op>, s: nat, at: nat)
    requires Busy(ops, s, at) && IsSession(ops + [Close(s, true)])
    ensures Busy(ops + [Close(s, true)], s, at) && Saved(ops + [Close(s, true)], s)
    ensures Written(ops + [Close(s, true)], s) == Written(ops, s)
  {
    hide IsSession, After, Written, PhaseOf, Saved, EverMarked;
    OwnStep(ops, Close(s, true), s);
    CallMeans(ops, Close(s, true), s);
    MarkedOn(ops, Close(s, true), s);
  }

  /** When all write jobs are done, the start of the stretch is reported and nothing waits. */
  lemma BusySettled(ops: seq<Op>, s: nat, at: nat)
    requires Busy(ops, s, at) && Saved(ops, s) && After(ops).jobs == [] && s >= 2
    ensures |After(ops).writers| == |After(ops).tags| == |After(ops).firsts|
    ensures Tagged(ops, s, at) && Quiet(ops, s, |Written(ops, s)|, After(ops).tags[s].offset)
  {
    hide IsSession, After, Written, PhaseOf, Saved, StoreFits, AllTell, EverMarked;
    NoBuffersLeft(ops, s);
    SavedIsTagged(ops, s, at);
    SessionKeepsStore(ops);
  }

  // ---------- All recorders

  ghost predicate Shape(r: Recording) {
    && IsSession(r.ops) && |After(r.ops).writers| == |After(r.ops).tags| == |r.dirty| + 2
    && |r.tags| == |r.ends| && forall k | 0 <= k < |r.tags| :: |r.tags[k]| == |r.ends[k]| == |r.dirty|
  }

  /** What recorder i had written when the stretch before was completed. */
  function LastEnd(r: Recording, i: nat): nat {
    if r.ends == [] then 0
    else var e := r.ends[|r.ends| - 1]; if i < |e| then e[i] else 0
  }

  function LastOffset(r: Recording, i: nat): nat {
    if r.tags == [] then 0
    else var t := r.tags[|r.tags| - 1]; if i < |t| then t[i].offset else 0
  }

  ghost predicate RecorderFits(r: Recording, i: nat)
    requires i < |r.dirty|
  {
    if r.dirty[i] then r.open && Busy(r.ops, i + 2, LastEnd(r, i))
    else Quiet(r.ops, i + 2, LastEnd(r, i), LastOffset(r, i)) && (r.open ==> PhaseOf(r.ops, i + 2) == Asking)
  }

  lemma {:induction false} AsksMeans(ops: seq<Op>, n: nat, i: nat, at: nat, offset: nat)
    requires Quiet(ops, i + 2, at, offset) && IsSession(ops + Asks(n))
    ensures Quiet(ops + Asks(n), i + 2, at, offset)
    ensures i < n ==> PhaseOf(ops + Asks(n), i + 2) == Asking
    decreases n
  {
    hide IsSession, After, Written, PhaseOf, Saved, Resting, Quiet;
    if n == 0 {
      assert ops + Asks(0) == ops;
    } else {
      var before, op := ops + Asks(n - 1), Segment(n + 1);
      assert ops + Asks(n) == before + [op];
      LastOp(before, op);
      AsksMeans(ops, n - 1, i, at, offset);
      if i == n - 1 {
        QuietAsked(before, i + 2, at, offset);
      } else {
        QuietFacts(before, i + 2, at, offset);
        AllApart(before, [op], i + 2);
      }
    }
  }

  lemma QuietFacts(ops: seq<Op>, s: nat, at: nat, offset: nat)
    requires Quiet(ops, s, at, offset)
    ensures IsSession(ops) && s < |After(ops).writers|
  {}

  lemma {:induction false} ClosesApart(dirty: seq<bool>, s: nat)
    requires s < 2 || s >= |dirty| + 2 || !dirty[s - 2]
    ensures forall op | op in Closes(dirty) :: Apart(op, s)
  {
    if dirty != [] {
      ClosesApart(dirty[..|dirty| - 1], s);
    }
  }

  lemma {:induction false} TurnsApart(n: nat, s: nat)
    ensures forall op | op in Turns(n) :: Apart(op, s)
  {
    if n > 0 {
      TurnsApart(n - 1, s);
    }
  }

  lemma ClosesLast(ops: seq<Op>, dirty: seq<bool>)
    requires dirty != [] && IsSession(ops + Closes(dirty))
    ensures var last := |dirty| - 1;
            var before, op := ops + Closes(dirty[..last]), Close(last + 2, true);
            && IsSession(before)
            && ops + Closes(dirty) == if dirty[last] then before + [op] else before
  {
    hide IsSession;
    var last := |dirty| - 1;
    var before, op := ops + Closes(dirty[..last]), Close(last + 2, true);
    if dirty[last] {
      assert ops + Closes(dirty) == before + [op];
      LastOp(before, op);
    } else {
      assert ops + Closes(dirty) == before;
    }
  }

  lemma {:induction false} ClosesMeans(ops: seq<Op>, dirty: seq<bool>, i: nat, at: nat)
    requires i < |dirty| && dirty[i] && Busy(ops, i + 2, at) && IsSession(ops + Closes(dirty))
    ensures Busy(ops + Closes(dirty), i + 2, at) && Saved(ops + Closes(dirty), i + 2)
    ensures Written(ops + Closes(dirty), i + 2) == Written(ops, i + 2)
    decreases |dirty|
  {
    hide IsSession, After, Written, PhaseOf, Saved, NoneUnmarked, Busy, Closes;
    var last := |dirty| - 1;
    var before, op := ops + Closes(dirty[..last]), Close(last + 2, true);
    ClosesLast(ops, dirty);
    BusyFacts(ops, i + 2, at);
    if i == last {
      ClosesApart(dirty[..last], i + 2);
      AllApart(ops, Closes(dirty[..last]), i + 2);
      BusyClosed(before, i + 2, at);
    } else {
      ClosesMeans(ops, dirty[..last], i, at);
      BusyFacts(before, i + 2, at);
      if dirty[last] {
        AllApart(before, [op], i + 2);
      }
    }
  }

  lemma BusyFacts(ops: seq<Op>, s: nat, at: nat)
    requires Busy(ops, s, at)
    ensures IsSession(ops) && s < |After(ops).writers| && at < |Written(ops, s)| && PhaseOf(ops, s) == Begun(at)
    ensures NoneUnmarked(After(ops).writers[s]) && EverMarked(ops, s)
  {}

  lemma {:induction false} MoreStreams(ops: seq<Op>, more: seq<Op>)
    requires IsSession(ops + more) && forall op | op in more :: !op.Create?
    ensures IsSession(ops) && |After(ops + more).writers| == |After(ops).writers| == |After(ops).tags| == |After(ops + more).tags|
    decreases |more|
  {
    hide IsSession, After, AllTell, StoreFits;
    if more == [] {
      assert ops + more == ops;
      SessionKeepsStore(ops);
    } else {
      var last := |more| - 1;
      assert ops + more == ops + more[..last] + [more[last]];
      LastOp(ops + more[..last], more[last]);
      MoreStreams(ops, more[..last]);
      StepStreams(After(ops + more[..last]), more[last]);
      SessionKeepsStore(ops + more);
    }
  }

  lemma {:induction false} NoCreates(n: nat, dirty: seq<bool>)
    ensures forall op | op in Asks(n) + Closes(dirty) + Turns(n) :: !op.Create? && !op.Put?
    decreases n + |dirty|
  {
    if n > 0 {
      NoCreates(n - 1, dirty);
    } else if dirty != [] {
      NoCreates(0, dirty[..|dirty| - 1]);
    }
  }

  lemma DoKeepsShape(r: Recording, a: Act)
    requires Shape(r) && Can(r, a)
    ensures Shape(Do(r, a))
  {
    hide IsSession, After, Written;
    NoCreates(|r.dirty|, r.dirty);
    NoCreates(if a.Complete? then a.turns else 0, r.dirty);
    MoreStreams(r.ops, Calls(r, a));
  }

  lemma BeginKeeps(r: Recording, i: nat)
    requires Shape(r) && i < |r.dirty| && RecorderFits(r, i) && Can(r, Begin)
    ensures RecorderFits(Do(r, Begin), i)
  {
    hide IsSession, After, Quiet, Busy, PhaseOf, Asks;
    AsksMeans(r.ops, |r.dirty|, i, LastEnd(r, i), LastOffset(r, i));
  }

  lemma RecordKeeps(r: Recording, j: nat, data: seq<Byte>, i: nat)
    requires Shape(r) && i < |r.dirty| && RecorderFits(r, i) && Can(r, Record(j, data))
    ensures RecorderFits(Do(r, Record(j, data)), i)
  {
    hide IsSession, After, PhaseOf, EverMarked, Written, Saved, Resting, NoneUnmarked;
    if i == j {
      assert Resting(After(r.ops).writers[i + 2]) || NoneUnmarked(After(r.ops).writers[i + 2]);
      ItemRecorded(r.ops, i + 2, data);
    } else {
      AllApart(r.ops, [Item(j + 2), Op.Put(j + 2, data)], i + 2);
    }
  }

  lemma OtherKeeps(r: Recording, op: Op, i: nat)
    requires Shape(r) && i < |r.dirty| && RecorderFits(r, i) && Can(r, Other(op))
    ensures RecorderFits(Do(r, Other(op)), i)
  {
    hide IsSession, After, PhaseOf, Quiet, Busy;
    AllApart(r.ops, [op], i + 2);
  }

  /** What completing a stretch means for a recorder. */
  lemma CompleteKeeps(r: Recording, turns: nat, i: nat)
    requires Shape(r) && i < |r.dirty| && RecorderFits(r, i) && Can(r, Complete(turns))
    ensures var r' := Do(r, Complete(turns));
            && RecorderFits(r', i)
            && LastEnd(r', i) == |Written(r.ops, i + 2)|
            && var tag := r'.tags[|r.tags|][i];
            && tag.offset == LastOffset(r', i)
            && if r.dirty[i] then
                 Tagged(r'.ops, i + 2, LastEnd(r, i)) && i + 2 < |After(r'.ops).tags| && tag == After(r'.ops).tags[i + 2]
               else tag == Place(LastOffset(r, i), if r.tags == [] then HEADER else r.tags[|r.tags| - 1][i].inside)
  {
    hide IsSession, After, PhaseOf, EverMarked, Written, Saved, Resting, NoneUnmarked, Closes, Turns, Tagged, Apart;
    var closed, ops' := r.ops + Closes(r.dirty), r.ops + Calls(r, Complete(turns));
    assert ops' == closed + Turns(turns);
    TurnsApart(turns, i + 2);
    ClosedIsSession(r, turns);
    if r.dirty[i] {
      var at := LastEnd(r, i);
      ClosesMeans(r.ops, r.dirty, i, at);
      AllApart(closed, Turns(turns), i + 2);
      BusySettled(ops', i + 2, at);
    } else {
      ClosesApart(r.dirty, i + 2);
      AllApart(r.ops, Closes(r.dirty), i + 2);
      AllApart(closed, Turns(turns), i + 2);
    }
  }

  lemma ClosedIsSession(r: Recording, turns: nat)
    requires Shape(r) && Can(r, Complete(turns))
    ensures IsSession(r.ops + Closes(r.dirty))
    ensures |After(r.ops + Closes(r.dirty)).writers| == |r.dirty| + 2
  {
    hide IsSession, After, Closes, Turns;
    var closed, ops' := r.ops + Closes(r.dirty), r.ops + Calls(r, Complete(turns));
    assert ops' == closed + Turns(turns);
    EarlierIsSession(closed, ops');
    NoCreates(0, r.dirty);
    MoreStreams(r.ops, Closes(r.dirty));
  }

  // ---------- The tags

  function EndBefore(ends: seq<seq<nat>>, i: nat, k: nat): nat
    requires k <= |ends|
  {
    if k == 0 || i >= |ends[k - 1]| then 0 else ends[k - 1][i]
  }

  /** Recorder i recorded something in stretch k. */
  predicate RecordedIn(ends: seq<seq<nat>>, i: nat, k: nat)
    requires k < |ends|
  {
    i < |ends[k]| && EndBefore(ends, i, k) < ends[k][i]
  }

  /** Where the data of the last stretch up to stretch k starts in which recorder i recorded something. */
  function LastStart(ends: seq<seq<nat>>, i: nat, k: nat): Option<nat>
    requires k < |ends|
  {
    if RecordedIn(ends, i, k) then Some(EndBefore(ends, i, k)) else if k == 0 then None else LastStart(ends, i, k - 1)
  }

  /** The place was reported when the stretch that began at byte p was completed. */
  ghost predicate TaggedAs(early: seq<Op>, ops: seq<Op>, s: nat, place: Place, p: nat) {
    early <= ops && Tagged(early, s, p) && s < |After(early).tags| && After(early).tags[s] == place
  }

  ghost predicate HasTag(ops: seq<Op>, s: nat, place: Place, p: nat) {
    exists early :: TaggedAs(early, ops, s, place, p)
  }

  ghost predicate TagFits(r: Recording, i: nat, k: nat)
    requires k < |r.tags| == |r.ends| && i < |r.tags[k]| && i < |r.ends[k]|
  {
    && EndBefore(r.ends, i, k) <= r.ends[k][i] <= |Written(r.ops, i + 2)|
    && match LastStart(r.ends, i, k)
       case None => r.tags[k][i] == Place(0, HEADER) && r.ends[k][i] == 0
       case Some(p) => p < r.ends[k][i] && HasTag(r.ops, i + 2, r.tags[k][i], p)
  }

  ghost predicate RecordingFits(r: Recording) {
    && Shape(r)
    && (forall i | 0 <= i < |r.dirty| :: RecorderFits(r, i))
    && forall k, i | 0 <= k < |r.tags| && 0 <= i < |r.dirty| :: TagFits(r, i, k)
  }

  lemma {:induction false} LastStartStays(ends: seq<seq<nat>>, more: seq<nat>, i: nat, k: nat)
    requires k < |ends|
    ensures EndBefore(ends + [more], i, k) == EndBefore(ends, i, k)
    ensures LastStart(ends + [more], i, k) == LastStart(ends, i, k)
  {
    if k > 0 {
      LastStartStays(ends, more, i, k - 1);
    }
  }

  /** Tags keep their meaning. */
  lemma TagStays(r: Recording, r': Recording, i: nat, k: nat)
    requires |r.tags| == |r.ends| <= |r'.tags| == |r'.ends| && k < |r.tags| && i < |r.tags[k]| && i < |r.ends[k]|
    requires TagFits(r, i, k) && r'.tags[k] == r.tags[k] && r'.ends[k] == r.ends[k]
    requires EndBefore(r'.ends, i, k) == EndBefore(r.ends, i, k) && LastStart(r'.ends, i, k) == LastStart(r.ends, i, k)
    requires r.ops <= r'.ops && |Written(r.ops, i + 2)| <= |Written(r'.ops, i + 2)|
    ensures TagFits(r', i, k)
  {
    hide LastStart, EndBefore, Tagged, Written;
    if LastStart(r.ends, i, k).Some? {
      var p := LastStart(r.ends, i, k).value;
      var early :| TaggedAs(early, r.ops, i + 2, r.tags[k][i], p);
      assert TaggedAs(early, r'.ops, i + 2, r'.tags[k][i], p);
    }
  }

  lemma {:induction false} WrittenGrows(ops: seq<Op>, more: seq<Op>, s: nat)
    ensures Written(ops, s) <= Written(ops + more, s)
    decreases |more|
  {
    hide Written;
    if more == [] {
      assert ops + more == ops;
    } else {
      var last := |more| - 1;
      WrittenGrows(ops, more[..last], s);
      assert ops + more == ops + more[..last] + [more[last]];
      CallMeans(ops + more[..last], more[last], s);
    }
  }

  lemma CompleteTags(r: Recording, turns: nat)
    requires Shape(r) && Can(r, Complete(turns))
    ensures var r' := Do(r, Complete(turns));
            && |r'.tags| == |r.tags| + 1 == |r'.ends| && r'.dirty == AllClean(|r.dirty|)
            && (forall k | 0 <= k < |r.tags| :: r'.tags[k] == r.tags[k] && r'.ends[k] == r.ends[k])
            && r'.ends == r.ends + [r'.ends[|r.ends|]]
  {
    hide IsSession, After, Calls, Written, Settled;
  }

  /** The new tag of a completed stretch. */
  lemma NewTagFits(r: Recording, turns: nat, i: nat)
    requires RecordingFits(r) && Can(r, Complete(turns)) && i < |r.dirty|
    ensures var r' := Do(r, Complete(turns)); Shape(r') && TagFits(r', i, |r.tags|)
  {
    hide IsSession, After, PhaseOf, Written, Tagged, Can, Do, Busy, Quiet;
    var r', k := Do(r, Complete(turns)), |r.tags|;
    DoKeepsShape(r, Complete(turns));
    CompleteKeeps(r, turns, i);
    CompleteWrites(r, turns, i);
    CompleteTags(r, turns);
    assert EndBefore(r'.ends, i, k) == LastEnd(r, i) && r'.ends[k][i] == |Written(r.ops, i + 2)|;
    if r.dirty[i] {
      BusyFacts(r.ops, i + 2, LastEnd(r, i));
      assert TaggedAs(r'.ops, r'.ops, i + 2, r'.tags[k][i], LastEnd(r, i));
    } else {
      QuietWritten(r.ops, i + 2, LastEnd(r, i), LastOffset(r, i));
      if k > 0 {
        LastStartStays(r.ends, r'.ends[k], i, k - 1);
        assert TagFits(r, i, k - 1);
        TagStays(r, r', i, k - 1);
      }
    }
  }

  lemma QuietWritten(ops: seq<Op>, s: nat, at: nat, offset: nat)
    requires Quiet(ops, s, at, offset)
    ensures |Written(ops, s)| == at
  {}

  /** Completing a stretch writes nothing more. */
  lemma CompleteWrites(r: Recording, turns: nat, i: nat)
    requires Shape(r) && Can(r, Complete(turns)) && i < |r.dirty|
    ensures var r' := Do(r, Complete(turns));
            r.ops <= r'.ops && Written(r'.ops, i + 2) == Written(r.ops, i + 2) && |r'.ends| == |r.ends| + 1
            && i < |r'.ends[|r.ends|]| && r'.ends[|r.ends|][i] == |Written(r.ops, i + 2)|
  {
    hide IsSession, After, Written, Settled, Closes, Turns;
    NoCreates(turns, r.dirty);
    NothingWritten(r.ops, Calls(r, Complete(turns)), i + 2);
  }

  lemma {:induction false} NothingWritten(ops: seq<Op>, more: seq<Op>, s: nat)
    requires forall op | op in more :: !op.Put?
    ensures Written(ops + more, s) == Written(ops, s)
    decreases |more|
  {
    hide Written;
    if more == [] {
      assert ops + more == ops;
    } else {
      var last := |more| - 1;
      NothingWritten(ops, more[..last], s);
      assert ops + more == ops + more[..last] + [more[last]];
      CallMeans(ops + more[..last], more[last], s);
    }
  }

  lemma OthersKeepTags(r: Recording, a: Act, i: nat, k: nat)
    requires RecordingFits(r) && Can(r, a) && i < |r.dirty| && k < |r.tags|
    ensures var r' := Do(r, a); Shape(r') && k < |r'.tags| && |r'.dirty| == |r.dirty| && TagFits(r', i, k)
  {
    hide IsSession, After, PhaseOf, Written, Tagged, Settled, Calls, RecorderFits, LastStart, EndBefore, HasTag;
    var r' := Do(r, a);
    DoKeepsShape(r, a);
    WrittenGrows(r.ops, Calls(r, a), i + 2);
    assert TagFits(r, i, k);
    if a.Complete? {
      LastStartStays(r.ends, r'.ends[|r.ends|], i, k);
    }
    TagStays(r, r', i, k);
  }

  /** Every act keeps all recorders and all tags right. */
  lemma ActKeepsRecording(r: Recording, a: Act)
    requires RecordingFits(r) && Can(r, a)
    ensures RecordingFits(Do(r, a))
  {
    hide IsSession, After, PhaseOf, Written, Tagged, Settled, Calls, RecorderFits, TagFits, Shape;
    var r' := Do(r, a);
    DoKeepsShape(r, a);
    ShapeFacts(r);
    ShapeFacts(r');
    forall i: nat | i < |r'.dirty| ensures RecorderFits(r', i) {
      assert RecorderFits(r, i);
      match a
      case Begin => BeginKeeps(r, i);
      case Record(j, data) => RecordKeeps(r, j, data, i);
      case Other(op) => OtherKeeps(r, op, i);
      case Complete(turns) => CompleteKeeps(r, turns, i);
    }
    forall k: nat, i: nat | k < |r'.tags| && i < |r'.dirty| ensures TagFits(r', i, k) {
      if k < |r.tags| {
        OthersKeepTags(r, a, i, k);
      } else {
        NewTagFits(r, a.turns, i);
      }
    }
  }

  lemma ShapeFacts(r: Recording)
    requires Shape(r)
    ensures |r.tags| == |r.ends| && forall k | 0 <= k < |r.tags| :: |r.tags[k]| == |r.ends[k]| == |r.dirty|
  {}

  /** New streams are at rest. */
  lemma {:induction false} CreatesRest(capacities: seq<nat>, s: nat)
    requires IsSession(Creates(capacities)) && s < |capacities|
    ensures |After(Creates(capacities)).writers| == |capacities|
    ensures Quiet(Creates(capacities), s, 0, 0)
    decreases |capacities|
  {
    hide IsSession, After, Written, PhaseOf, Saved, EverMarked;
    var last := |capacities| - 1;
    var before, op := Creates(capacities[..last]), Create(capacities[last]);
    LastOp(before, op);
    CreatesSize(capacities);
    CreatesSize(capacities[..last]);
    if s < last {
      CreatesRest(capacities[..last], s);
      ApartMore(before, op, s);
    } else {
      Untouched(before, s);
      CallMeans(before, op, s);
      NeverMarked(before, s);
      MarkedOn(before, op, s);
    }
  }

  lemma {:induction false} CreatesSize(capacities: seq<nat>)
    requires IsSession(Creates(capacities))
    ensures |After(Creates(capacities)).writers| == |capacities|
    ensures |After(Creates(capacities)).tags| == |After(Creates(capacities)).firsts| == |capacities|
  {
    hide IsSession, After;
    if capacities == [] {
      Nothing();
    } else {
      var last := |capacities| - 1;
      LastOp(Creates(capacities[..last]), Create(capacities[last]));
      CreatesSize(capacities[..last]);
    }
  }

  lemma Nothing()
    ensures IsSession([]) && After([]) == NEW_FILE
  {}

  lemma {:induction false} NeverMarked(ops: seq<Op>, s: nat)
    requires IsSession(ops) && s >= |After(ops).writers|
    ensures EverMarked(ops, s)
  {
    hide Step, Enabled;
    if ops != [] {
      LastStep(ops);
      StepStreams(After(ops[..|ops| - 1]), ops[|ops| - 1]);
      NeverMarked(ops[..|ops| - 1], s);
    }
  }

  /** In every recording all recorders and all tags are right. */
  lemma {:induction false} EveryRecordingFits(capacities: seq<nat>, acts: seq<Act>)
    requires IsRecording(capacities, acts)
    ensures RecordingFits(Recorded(capacities, acts)) && |Recorded(capacities, acts).dirty| == |capacities| - 2
    decreases |acts|
  {
    hide IsSession, After, RecordingFits, Can, Do;
    if acts == [] {
      NewFits(capacities);
    } else {
      var last := |acts| - 1;
      EveryRecordingFits(capacities, acts[..last]);
      ActKeepsRecording(Recorded(capacities, acts[..last]), acts[last]);
      SameRecorders(Recorded(capacities, acts[..last]), acts[last]);
    }
  }

  lemma SameRecorders(r: Recording, a: Act)
    requires Can(r, a)
    ensures |Do(r, a).dirty| == |r.dirty|
  {
    hide IsSession, After, Calls, Settled, Written;
  }

  lemma NewFits(capacities: seq<nat>)
    requires |capacities| >= 2 && IsSession(Creates(capacities))
    ensures RecordingFits(NewRecording(capacities))
  {
    hide IsSession, After, Quiet, RecorderFits, Creates, TagFits;
    var r := NewRecording(capacities);
    CreatesSize(capacities);
    forall i: nat | i < |r.dirty| ensures RecorderFits(r, i) {
      CreatesRest(capacities, i + 2);
      NewRecorderFits(r, i);
    }
  }

  lemma NewRecorderFits(r: Recording, i: nat)
    requires i < |r.dirty| && !r.dirty[i] && !r.open && r.tags == [] && r.ends == [] && Quiet(r.ops, i + 2, 0, 0)
    ensures RecorderFits(r, i)
  {
    hide IsSession, After, Quiet;
  }

  lemma {:induction false} EverMarkedBefore(early: seq<Op>, ops: seq<Op>, s: nat)
    requires EverMarked(ops, s) && early <= ops
    ensures EverMarked(early, s)
    decreases |ops|
  {
    hide IsSession, After;
    if |early| == |ops| {
      assert early == ops;
    } else {
      assert early <= ops[..|ops| - 1];
      EverMarkedBefore(early, ops[..|ops| - 1], s);
    }
  }

  lemma RecorderMarked(r: Recording, i: nat)
    requires RecordingFits(r) && i < |r.dirty|
    ensures EverMarked(r.ops, i + 2)
  {
    hide IsSession, After, EverMarked, TagFits;
    assert RecorderFits(r, i);
  }

  /** Whenever in a recording a block of a recorder goes to file, its buffer was not asked for a start, or
      it was marked: the assertions on a buffer that was asked for one and not marked are never met. */
  lemma NoUnmarkedBlock(capacities: seq<nat>, acts: seq<Act>, ops: seq<Op>)
    requires IsRecording(capacities, acts) && ops <= Recorded(capacities, acts).ops
    ensures IsSession(ops)
    ensures var st := After(ops);
            st.jobs != [] && 2 <= st.jobs[0] < |capacities| ==>
              st.jobs[0] < |st.writers| && st.writers[st.jobs[0]].queue != []
              && st.writers[st.jobs[0]].queue[0].start != Some(0)
  {
    hide IsSession, After, IsRecording, Recorded, StoreFits, AllTell, RecorderFits, TagFits;
    EveryRecordingFits(capacities, acts);
    var r := Recorded(capacities, acts);
    EarlierIsSession(ops, r.ops);
    SessionKeepsStore(ops);
    var st := After(ops);
    if st.jobs != [] {
      JobsAreReady(st, TilesAfter(ops), StoriesAfter(ops));
      var s := st.jobs[0];
      if 2 <= s < |capacities| {
        RecorderMarked(r, s - 2);
        EverMarkedBefore(ops, r.ops, s);
      }
    }
  }

  // ---------- The tags of the file object

  /** The places that FileWithSegments puts in a tag when its upcoming tag holds what was reported are those
      of the model. */
  lemma TagOfFile(r: Recording, told: seq<Place>, tags: seq<SegmentFiles.Tag>, offset: seq<nat>, inblock: seq<nat>, i: nat)
    requires |told| == |r.dirty| + 2 && |tags| == |r.tags| && |offset| == |inblock| == |r.dirty| && i < |r.dirty|
    requires offset[i] == told[i + 2].offset && inblock[i] == told[i + 2].inside
    requires tags != [] ==>
               var last, t := tags[|tags| - 1], r.tags[|r.tags| - 1];
               |last.inblock| == |t| == |r.dirty| && last.inblock[i] == t[i].inside
    ensures Place(offset[i], SegmentFiles.StartsOf(tags, r.dirty, inblock)[i]) == NewTag(r, told)[i]
  {}
}
