/** FileStreamRead: reading a range of a stream through a cache of blocks that are loaded on request.
    Whatever the cache size and whenever the loads are run, what is still to be read changes only when
    the iterator takes a byte. */
module StreamReaders {
  import opened Bytes
  import opened ControlBlocks
  import opened BlockFiles
  import opened LogStore
  import opened LogReading

  /** A loaded block, with where to read in it. */
  datatype Loaded = Loaded(tile: Tile, from: nat, fill: nat)

  /** A read job of the file handler for this stream. */
  datatype Job = Job(off: nat, cycle: nat)

  function BodyOf(b: Loaded): seq<Byte> {
    if HEADER <= b.fill <= |b.tile| then b.tile[HEADER..b.fill] else []
  }

  function Bodies(buffers: seq<Loaded>): seq<Byte>
    decreases |buffers|
  {
    if buffers == [] then [] else BodyOf(buffers[0]) + Bodies(buffers[1..])
  }

  lemma {:induction false} BodiesMore(buffers: seq<Loaded>, b: Loaded)
    ensures Bodies(buffers + [b]) == Bodies(buffers) + BodyOf(b)
    decreases |buffers|
  {
    hide BodyOf;
    if buffers == [] {
      assert (buffers + [b])[1..] == [];
    } else {
      BodiesMore(buffers[1..], b);
      assert (buffers + [b])[1..] == buffers[1..] + [b];
      Reassociate(BodyOf(buffers[0]), Bodies(buffers[1..]), BodyOf(b));
    }
  }

  /** The places asked for in the current read cycle; jobs of earlier cycles are stale. */
  function Waiting(jobs: seq<Job>, cycle: nat): seq<nat>
    decreases |jobs|
  {
    if jobs == [] then []
    else (if jobs[0].cycle == cycle then [jobs[0].off] else []) + Waiting(jobs[1..], cycle)
  }

  lemma {:induction false} WaitingMore(jobs: seq<Job>, j: Job, cycle: nat)
    ensures Waiting(jobs + [j], cycle) == Waiting(jobs, cycle) + if j.cycle == cycle then [j.off] else []
    decreases |jobs|
  {
    var last := if j.cycle == cycle then [j.off] else [];
    if jobs == [] {
      assert (jobs + [j])[1..] == [];
      assert Waiting([j], cycle) == last + Waiting([j][1..], cycle);
    } else {
      WaitingMore(jobs[1..], j, cycle);
      assert (jobs + [j])[1..] == jobs[1..] + [j];
      var first := if jobs[0].cycle == cycle then [jobs[0].off] else [];
      assert first + (Waiting(jobs[1..], cycle) + last) == (first + Waiting(jobs[1..], cycle)) + last;
    }
  }

  lemma {:induction false} NoneWaiting(jobs: seq<Job>, cycle: nat)
    requires forall j | j in jobs :: j.cycle < cycle
    ensures Waiting(jobs, cycle) == []
    decreases |jobs|
  {
    if jobs != [] {
      NoneWaiting(jobs[1..], cycle);
    }
  }

  /** The stream is on file in blocks of this size, and a range ends in data or behind everything. */
  ghost predicate OnFileAs(file: seq<Byte>, c: seq<Block>, stream: nat, capacity: nat) {
    && capacity > HEADER && Readable(c, capacity) && AllSound(c)
    && forall k | 0 <= k < |c| ::
         && c[k].off + capacity <= |file| && file[c[k].off..c[k].off + capacity] == c[k].tile
         && Accepted(c[k].tile, stream)
  }

  /** The tests on a block that is loaded: its checksum, and the stream it belongs to. */
  predicate Accepted(t: Tile, stream: nat) {
    |t| >= HEADER && CrcOk(t) && Decode(t).stream == stream
  }

  ghost predicate EndFits(c: seq<Block>, end: nat) {
    end <= NO_NEXT && forall k | 0 <= k < |c| :: c[k].off < end ==> c[k].off + HEADER <= end
  }

  /** The block where reading starts has data behind that place. */
  ghost predicate Enters(c: seq<Block>, i: nat, start: nat, end: nat)
    requires AllSound(c)
    decreases |c| - i
  {
    i < |c| ==>
      match Entry(c[i], start)
      case None => i + 1 < |c| && c[i + 1].off < end ==> Enters(c, i + 1, start, end)
      case Some(from) => HEADER <= from < FillOf(c[i])
  }

  // ---------- The reader

  datatype Reader = Reader(stream: nat, capacity: nat, cacheSize: nat, buffers: seq<Loaded>, links: seq<nat>, jobs: seq<Job>, start: nat,
                           end: nat, cycle: nat, firstLoad: bool, at: Option<nat>, limit: nat)

  /** The next block asked for: in the list of links, or as a read job. */
  function Requested(r: Reader): seq<nat> {
    Waiting(r.jobs, r.cycle) + r.links
  }

  /** FileStreamRead::pushRequests. */
  function PushRequests(r: Reader): Reader {
    if |r.buffers| < r.cacheSize && r.links != [] then
      r.(jobs := r.jobs + [Job(r.links[0], r.cycle)], links := r.links[1..])
    else r
  }

  function Linked(r: Reader, next: nat): Reader {
    if next < r.end then r.(links := r.links + [next]) else r
  }

  /** FileStreamRead::appendBuffer for the block `tile` loaded from `off`. The end of the iteration in the
      first buffer is set before the buffer is trimmed to the end of the range. */
  function Append(r: Reader, off: nat, tile: Tile, cycle: nat): Reader
    requires |tile| >= HEADER
  {
    if cycle < r.cycle then r
    else
      var h := Decode(tile);
      var r1 := Linked(r, h.next);
      var fill := if off + h.fill > r.end then (if r.end > off then r.end - off else 0) else h.fill;
      if r.firstLoad then
        if off >= r.start && h.objectOffset == 0 then PushRequests(r1)
        else
          var from := if off < r.start then r.start - off else h.objectOffset;
          PushRequests(r1.(limit := h.fill, buffers := r1.buffers + [Loaded(tile, from, fill)], firstLoad := false))
      else PushRequests(r1.(buffers := r1.buffers + [Loaded(tile, HEADER, fill)]))
  }

  predicate CanLoad(r: Reader, file: seq<Byte>) {
    && r.jobs != [] && r.capacity >= HEADER
    && var off := r.jobs[0].off;
    off + r.capacity <= |file| && Accepted(file[off..off + r.capacity], r.stream)
  }

  /** One turn of the loop of FileHandler::runLoads, when the block passes the tests; the source throws otherwise. */
  function RunOne(r: Reader, file: seq<Byte>): Reader
    requires CanLoad(r, file)
  {
    var j := r.jobs[0];
    Append(r.(jobs := r.jobs[1..]), j.off, file[j.off..j.off + r.capacity], j.cycle)
  }

  /** FileStreamRead::setReadRange; a new iterator is needed. */
  function SetReadRange(r: Reader, off: nat, end: nat, blockStart: nat): Reader {
    r.(start := off + blockStart, end := end, cycle := r.cycle + 1, firstLoad := true, buffers := [], links := [],
       at := None, jobs := r.jobs + [Job(off, r.cycle + 1)])
  }

  // ---------- What is still to be read

  /** The bytes of the blocks that are not loaded yet; `k` is the next block of the stream. */
  ghost function Ahead(r: Reader, c: seq<Block>, k: nat): seq<Byte>
    requires AllSound(c)
  {
    if Requested(r) == [] then []
    else if r.firstLoad then Range(c, k, r.start, r.end)
    else Tail(c, k, r.end)
  }

  /** Reading goes on in the first buffer, at this place. */
  function Position(r: Reader): nat
    requires r.buffers != []
  {
    if r.at.Some? then r.at.value else r.buffers[0].from
  }

  ghost predicate Later(r: Reader, i: nat)
    requires i < |r.buffers|
  {
    var b := r.buffers[i];
    && b.from == HEADER <= b.fill <= |b.tile|
    && (b.fill == HEADER ==> i == |r.buffers| - 1 && Requested(r) == [])
  }

  ghost predicate Known(c: seq<Block>, off: nat) {
    exists k: nat :: k < |c| && c[k].off == off
  }

  /** Read jobs of before may still be under way, as long as they are for blocks of the stream. */
  ghost predicate OldJobs(jobs: seq<Job>, cycle: nat, c: seq<Block>) {
    forall job | job in jobs :: job.cycle <= cycle && Known(c, job.off)
  }

  /** `entered` tells that the iterator's end is that of the first buffer. */
  ghost predicate BuffersFit(r: Reader, entered: bool) {
    && (forall i | 0 <= i < |r.buffers| && (i > 0 || !entered) :: Later(r, i))
    && (entered ==> r.buffers != [] && r.limit <= |r.buffers[0].tile| && Position(r) < r.limit)
    && (r.at.Some? ==> entered)
  }

  /** At most one block is asked for, and it is the next one of the stream. */
  ghost predicate RequestFits(r: Reader, c: seq<Block>, k: nat)
    requires AllSound(c)
  {
    && (Requested(r) != [] ==> k < |c| && Requested(r) == [c[k].off])
    && (Requested(r) != [] && !r.firstLoad ==> c[k].off < r.end)
    && (Requested(r) != [] && r.firstLoad ==> Enters(c, k, r.start, r.end))
    && (Requested(r) == [] && !r.firstLoad ==> k >= |c| || c[k].off >= r.end)
    && forall j | j in r.jobs :: j.cycle <= r.cycle && Known(c, j.off)
  }

  ghost predicate Fits(r: Reader, file: seq<Byte>, c: seq<Block>, k: nat, entered: bool) {
    && r.cacheSize >= 1 && OnFileAs(file, c, r.stream, r.capacity) && EndFits(c, r.end)
    && BuffersFit(r, entered) && RequestFits(r, c, k)
    && (r.firstLoad ==> r.buffers == [] && !entered)
  }

  /** The bytes of the buffers. */
  ghost function Held(r: Reader, entered: bool): seq<Byte>
    requires BuffersFit(r, entered)
  {
    if entered then r.buffers[0].tile[Position(r)..r.limit] + Bodies(r.buffers[1..]) else Bodies(r.buffers)
  }

  ghost function Unread(r: Reader, c: seq<Block>, k: nat, entered: bool): seq<Byte>
    requires AllSound(c) && BuffersFit(r, entered)
  {
    Held(r, entered) + Ahead(r, c, k)
  }

  lemma OnFileFacts(file: seq<Byte>, c: seq<Block>, stream: nat, capacity: nat)
    requires OnFileAs(file, c, stream, capacity)
    ensures AllSound(c) && Readable(c, capacity) && capacity > HEADER
  {
  }

  lemma SameRequests(r: Reader, r': Reader)
    requires r'.jobs == r.jobs && r'.cycle == r.cycle && r'.links == r.links
    ensures Requested(r') == Requested(r)
  {
  }

  lemma LinkIsRequest(r: Reader)
    requires r.links != []
    ensures Requested(r) != []
  {
  }

  /** Only what was asked for matters, not whether it is a link or a job. */
  lemma {:induction false} RequestsMoved(r: Reader, r': Reader, file: seq<Byte>, c: seq<Block>, k: nat, entered: bool)
    requires Fits(r, file, c, k, entered) && r' == r.(jobs := r'.jobs, links := r'.links)
    requires Requested(r') == Requested(r) && forall j | j in r'.jobs :: j.cycle <= r.cycle && Known(c, j.off)
    ensures Fits(r', file, c, k, entered) && Unread(r', c, k, entered) == Unread(r, c, k, entered)
  {
    hide Tail, Range, Decode, OnFileAs, EndFits, Enters, Requested, Bodies, AllSound;
    OnFileFacts(file, c, r.stream, r.capacity);
    forall i | 0 <= i < |r'.buffers| && (i > 0 || !entered)
      ensures Later(r', i)
    {
      assert Later(r, i);
    }
  }

  /** A link that becomes a job. */
  lemma {:induction false} LinkBecomesJob(r: Reader, off: nat)
    requires Requested(r) == [off] && r.links != []
    ensures r.links == [off]
    ensures Requested(r.(jobs := r.jobs + [Job(off, r.cycle)], links := r.links[1..])) == [off]
  {
    WaitingMore(r.jobs, Job(off, r.cycle), r.cycle);
    var requested := Requested(r);
    assert requested[|requested| - 1] == r.links[|r.links| - 1] && |requested| == |Waiting(r.jobs, r.cycle)| + |r.links|;
  }

  lemma {:induction false} PushRequestsKeeps(r: Reader, file: seq<Byte>, c: seq<Block>, k: nat, entered: bool)
    requires Fits(r, file, c, k, entered)
    ensures var r' := PushRequests(r);
            && Fits(r', file, c, k, entered) && Unread(r', c, k, entered) == Unread(r, c, k, entered)
            && CacheServed(r') && |r'.jobs| <= |r.jobs| + 1 && (r.links == [] ==> r' == r)
  {
    hide Tail, Range, Decode, OnFileAs, EndFits, Enters, Unread, BuffersFit, AllSound;
    OnFileFacts(file, c, r.stream, r.capacity);
    assert r.links != [] ==> Requested(r) != [];
    hide Requested;
    var r' := PushRequests(r);
    if r' != r {
      LinkBecomesJob(r, c[k].off);
      assert Known(c, c[k].off);
      RequestsMoved(r, r', file, c, k, entered);
    }
  }

  /** The cache is full, or there is nothing more to ask for. */
  ghost predicate CacheServed(r: Reader) {
    r.links != [] ==> |r.buffers| >= r.cacheSize
  }

  /** The requests after block k came in, and the block behind it was noted. */
  lemma {:induction false} LinkedRequests(r: Reader, c: seq<Block>, k: nat)
    requires k < |c| && Requested(r) == [] && r.end <= NO_NEXT
    ensures Requested(Linked(r, LinkOf(c, k, NO_NEXT)))
            == if k + 1 < |c| && c[k + 1].off < r.end then [c[k + 1].off] else []
  {
  }

  /** A first block without an object mark is passed over. */
  lemma {:induction false} SkipKeeps(r: Reader, file: seq<Byte>, c: seq<Block>, k: nat, r1: Reader)
    requires OnFileAs(file, c, r.stream, r.capacity) && EndFits(c, r.end) && r.cacheSize >= 1
    requires Requested(r) == [] && r.firstLoad && r.buffers == [] && r.at.None? && k < |c|
    requires forall j | j in r.jobs :: j.cycle <= r.cycle && Known(c, j.off)
    requires Enters(c, k, r.start, r.end) && Entry(c[k], r.start).None?
    requires r1 == Linked(r, LinkOf(c, k, NO_NEXT))
    ensures Fits(r1, file, c, k + 1, false) && Unread(r1, c, k + 1, false) == Range(c, k, r.start, r.end)
  {
    hide Tail, Decode, OnFileAs, Requested, Entry, AllSound;
    OnFileFacts(file, c, r.stream, r.capacity);
    LinkedRequests(r, c, k);
  }

  lemma {:induction false} NextRequested(r: Reader, c: seq<Block>, k: nat, r1: Reader)
    requires AllSound(c) && k < |c| && Requested(r) == [] && r.end <= NO_NEXT
    requires forall j | j in r.jobs :: j.cycle <= r.cycle && Known(c, j.off)
    requires r1.links == Linked(r, LinkOf(c, k, NO_NEXT)).links && r1.jobs == r.jobs
    requires r1.cycle == r.cycle && r1.end == r.end && !r1.firstLoad
    ensures RequestFits(r1, c, k + 1)
    ensures Requested(r1) == if k + 1 < |c| && c[k + 1].off < r.end then [c[k + 1].off] else []
  {
    hide AllSound, Known, Enters;
    LinkedRequests(r, c, k);
    assert Requested(r1) == Requested(Linked(r, LinkOf(c, k, NO_NEXT)));
  }

  /** The first block that is entered. */
  lemma {:induction false} EnterKeeps(r: Reader, file: seq<Byte>, c: seq<Block>, k: nat, r1: Reader, fill: nat)
    requires OnFileAs(file, c, r.stream, r.capacity) && EndFits(c, r.end) && r.cacheSize >= 1
    requires Requested(r) == [] && r.firstLoad && r.buffers == [] && r.at.None? && k < |c|
    requires forall j | j in r.jobs :: j.cycle <= r.cycle && Known(c, j.off)
    requires Enters(c, k, r.start, r.end) && Entry(c[k], r.start).Some? && Sound(c[k])
    requires r1 == Linked(r, LinkOf(c, k, NO_NEXT)).(limit := FillOf(c[k]), firstLoad := false,
                                                     buffers := [Loaded(c[k].tile, Entry(c[k], r.start).value, fill)])
    ensures Fits(r1, file, c, k + 1, true) && Unread(r1, c, k + 1, true) == Range(c, k, r.start, r.end)
  {
    hide Tail, Decode, OnFileAs, Entry, AllSound, Requested, RequestFits;
    OnFileFacts(file, c, r.stream, r.capacity);
    NextRequested(r, c, k, r1);
    TailEmptyBehind(c, k + 1, r.end);
    assert r1.buffers[1..] == [] && Bodies([]) == [];
    var data := c[k].tile[Entry(c[k], r.start).value..FillOf(c[k])];
    assert data + [] == data && Held(r1, true) == data;
  }

  lemma {:induction false} TailEmptyBehind(c: seq<Block>, k: nat, end: nat)
    requires AllSound(c)
    ensures k >= |c| || c[k].off >= end ==> Tail(c, k, end) == []
  {
  }

  /** A block that continues the stream. */
  lemma {:induction false} AddKeeps(r: Reader, file: seq<Byte>, c: seq<Block>, k: nat, entered: bool, r1: Reader)
    requires OnFileAs(file, c, r.stream, r.capacity) && EndFits(c, r.end) && r.cacheSize >= 1
    requires BuffersFit(r.(links := [0]), entered)
    requires Requested(r) == [] && !r.firstLoad && k < |c| && Sound(c[k]) && c[k].off < r.end
    requires forall j | j in r.jobs :: j.cycle <= r.cycle && Known(c, j.off)
    requires r1 == Linked(r, LinkOf(c, k, NO_NEXT)).(buffers := r.buffers + [Loaded(c[k].tile, HEADER, Limit(c[k], r.end))])
    ensures Fits(r1, file, c, k + 1, entered)
  {
    hide Tail, Decode, Range, AllSound, Requested, OnFileAs, RequestFits, Readable;
    OnFileFacts(file, c, r.stream, r.capacity);
    NextRequested(r, c, k, r1);
    AddedIsLater(r, c, k, r1);
    AddedBuffersFit(r, r1, entered);
  }

  lemma {:induction false} AddedBuffersFit(r: Reader, r1: Reader, entered: bool)
    requires BuffersFit(r.(links := [0]), entered)
    requires |r1.buffers| == |r.buffers| + 1 && r1.buffers[..|r.buffers|] == r.buffers && Later(r1, |r.buffers|)
    requires r1.at == r.at && r1.limit == r.limit
    ensures BuffersFit(r1, entered)
  {
    var asked := r.(links := [0]);
    assert Requested(asked) != [];
    hide Requested;
    forall i | 0 <= i < |r1.buffers| && (i > 0 || !entered)
      ensures Later(r1, i)
    {
      if i < |r.buffers| {
        assert Later(asked, i);
        assert r1.buffers[i] == r1.buffers[..|r.buffers|][i] == r.buffers[i];
      }
    }
    if entered {
      assert r1.buffers[0] == r1.buffers[..|r.buffers|][0];
    }
  }

  lemma {:induction false} AddedIsLater(r: Reader, c: seq<Block>, k: nat, r1: Reader)
    requires Readable(c, r.capacity) && r.capacity > HEADER && EndFits(c, r.end) && k < |c| && Sound(c[k]) && c[k].off < r.end
    requires r1.buffers == r.buffers + [Loaded(c[k].tile, HEADER, Limit(c[k], r.end))]
    requires Requested(r1) == if k + 1 < |c| && c[k + 1].off < r.end then [c[k + 1].off] else []
    ensures Limit(c[k], r.end) >= HEADER && Later(r1, |r.buffers|)
  {
    hide Decode, Requested;
  }

  lemma {:induction false} HeldMore(r: Reader, r1: Reader, b: Loaded, entered: bool)
    requires BuffersFit(r, entered) && BuffersFit(r1, entered)
    requires r1.buffers == r.buffers + [b] && r1.at == r.at && r1.limit == r.limit
    ensures Held(r1, entered) == Held(r, entered) + BodyOf(b)
  {
    hide Requested, BodyOf;
    if entered {
      BodiesMore(r.buffers[1..], b);
      assert r1.buffers[1..] == r.buffers[1..] + [b];
      Reassociate(r.buffers[0].tile[Position(r)..r.limit], Bodies(r.buffers[1..]), BodyOf(b));
    } else {
      BodiesMore(r.buffers, b);
    }
  }

  lemma {:induction false} AddAddsTail(r: Reader, file: seq<Byte>, c: seq<Block>, k: nat, entered: bool, r1: Reader)
    requires OnFileAs(file, c, r.stream, r.capacity) && EndFits(c, r.end)
    requires BuffersFit(r.(links := [0]), entered) && BuffersFit(r1, entered)
    requires Requested(r) == [] && !r.firstLoad && k < |c| && Sound(c[k]) && c[k].off < r.end
    requires r1 == Linked(r, LinkOf(c, k, NO_NEXT)).(buffers := r.buffers + [Loaded(c[k].tile, HEADER, Limit(c[k], r.end))])
    ensures AllSound(c) && Unread(r1, c, k + 1, entered) == Unread(r.(links := [0]), c, k, entered)
  {
    hide Tail, Decode, BodyOf, Range, Requested, Held, BuffersFit, Readable, AllSound;
    var asked := r.(links := [0]);
    LinkedRequests(r, c, k);
    SameRequests(r1, Linked(r, LinkOf(c, k, NO_NEXT)));
    LinkIsRequest(asked);
    var b := Loaded(c[k].tile, HEADER, Limit(c[k], r.end));
    HeldMore(asked, r1, b, entered);
    TailEmptyBehind(c, k + 1, r.end);
    TailIsBody(c, k, r.end, r.capacity);
    assert Ahead(r1, c, k + 1) == Tail(c, k + 1, r.end);
    Reassociate(Held(asked, entered), BodyOf(b), Tail(c, k + 1, r.end));
  }

  lemma {:induction false} TailIsBody(c: seq<Block>, k: nat, end: nat, capacity: nat)
    requires AllSound(c) && Readable(c, capacity) && capacity > HEADER && EndFits(c, end) && k < |c| && c[k].off < end
    ensures Sound(c[k]) && Limit(c[k], end) >= HEADER
    ensures Tail(c, k, end) == BodyOf(Loaded(c[k].tile, HEADER, Limit(c[k], end))) + Tail(c, k + 1, end)
  {
    hide Decode;
    if Limit(c[k], end) == HEADER {
      assert k + 1 >= |c| || c[k + 1].off >= end;
    }
  }

  /** How much there is to do for runLoads. */
  ghost function ToLoad(r: Reader, c: seq<Block>, k: nat): nat {
    |r.jobs| + if k < |c| then |c| - k else 0
  }

  /** A job of an earlier read cycle: the block is loaded and given back. */
  lemma StaleNotRequested(r: Reader)
    requires r.jobs != [] && r.jobs[0].cycle < r.cycle
    ensures Requested(r.(jobs := r.jobs[1..])) == Requested(r)
  {}

  lemma {:induction false} StaleKeeps(r: Reader, file: seq<Byte>, c: seq<Block>, k: nat, entered: bool)
    requires Fits(r, file, c, k, entered) && r.jobs != [] && r.jobs[0].cycle < r.cycle
    ensures var r' := r.(jobs := r.jobs[1..]);
            Fits(r', file, c, k, entered) && Unread(r', c, k, entered) == Unread(r, c, k, entered)
  {
    hide Tail, Range, Decode, OnFileAs, EndFits, Enters, BuffersFit, Unread, AllSound, Known, Requested, Waiting;
    OnFileFacts(file, c, r.stream, r.capacity);
    var r' := r.(jobs := r.jobs[1..]);
    StaleNotRequested(r);
    assert forall j | j in r'.jobs :: j in r.jobs;
    RequestsMoved(r, r', file, c, k, entered);
  }

  lemma {:induction false} JobLoads(r: Reader, file: seq<Byte>, c: seq<Block>, k: nat, entered: bool)
    requires Fits(r, file, c, k, entered) && r.jobs != []
    ensures CanLoad(r, file)
    ensures r.jobs[0].cycle == r.cycle ==>
              && k < |c| && r.links == [] && Waiting(r.jobs[1..], r.cycle) == []
              && r.jobs[0].off == c[k].off && file[c[k].off..c[k].off + r.capacity] == c[k].tile
              && Sound(c[k]) && Decode(c[k].tile).next == LinkOf(c, k, NO_NEXT)
  {
    hide Decode, CrcOk, EndFits, Enters, BuffersFit;
    var j := r.jobs[0];
    assert j in r.jobs && Known(c, j.off);
    if j.cycle == r.cycle {
      assert Waiting(r.jobs, r.cycle) == [j.off] + Waiting(r.jobs[1..], r.cycle);
      assert Requested(r) == [c[k].off] && |Requested(r)| == 1 + |Waiting(r.jobs[1..], r.cycle)| + |r.links|;
      assert Requested(r)[0] == j.off;
    }
  }

  /** The reader when block k, which was asked for by its first job, has come in. */
  ghost function Arrived(r: Reader, c: seq<Block>, k: nat): Reader
    requires AllSound(c) && k < |c| && Sound(c[k]) && r.jobs != []
  {
    var linked := Linked(r.(jobs := r.jobs[1..]), LinkOf(c, k, NO_NEXT));
    var limit := Limit(c[k], r.end);
    var fill: nat := if limit < 0 then 0 else limit;
    if !r.firstLoad then linked.(buffers := r.buffers + [Loaded(c[k].tile, HEADER, fill)])
    else if Entry(c[k], r.start).None? then linked
    else linked.(limit := FillOf(c[k]), firstLoad := false,
                 buffers := r.buffers + [Loaded(c[k].tile, Entry(c[k], r.start).value, fill)])
  }

  lemma {:induction false} RunOneArrives(r: Reader, file: seq<Byte>, c: seq<Block>, k: nat, entered: bool)
    requires Fits(r, file, c, k, entered) && r.jobs != [] && r.jobs[0].cycle == r.cycle
    ensures CanLoad(r, file) && AllSound(c) && k < |c| && Sound(c[k])
    ensures RunOne(r, file) == PushRequests(Arrived(r, c, k))
  {
    hide Decode, EndFits, BuffersFit, PushRequests, CrcOk, AllSound, Known, Enters, LinkOf, RequestFits, Accepted;
    JobLoads(r, file, c, k, entered);
    hide OnFileAs;
  }

  lemma {:induction false} LaterArrives(r: Reader, file: seq<Byte>, c: seq<Block>, k: nat, entered: bool)
    requires Fits(r, file, c, k, entered) && r.jobs != [] && r.jobs[0].cycle == r.cycle && !r.firstLoad
    ensures AllSound(c) && k < |c| && Sound(c[k])
    ensures var r1 := Arrived(r, c, k);
            Fits(r1, file, c, k + 1, entered) && Unread(r1, c, k + 1, entered) == Unread(r, c, k, entered)
  {
    hide Tail, Range, Decode, EndFits, BuffersFit, CrcOk, Held, AllSound, Known, Enters, LinkOf, Later, OnFileAs, Unread, Accepted;
    OnFileFacts(file, c, r.stream, r.capacity);
    JobLoads(r, file, c, k, entered);
    assert Requested(r) != [];
    var r0 := r.(jobs := r.jobs[1..]);
    assert Requested(r0) == [];
    assert forall j | j in r0.jobs :: j in r.jobs;
    hide Requested, Readable;
    var asked, r1 := r0.(links := [0]), Arrived(r, c, k);
    TailIsBody(c, k, r.end, r.capacity);
    AskedFits(r, asked, entered);
    AddKeeps(r0, file, c, k, entered, r1);
    AddAddsTail(r0, file, c, k, entered, r1);
    AskedUnread(r, asked, c, k, entered);
  }

  lemma {:induction false} FirstArrives(r: Reader, file: seq<Byte>, c: seq<Block>, k: nat, entered: bool)
    returns (entered1: bool)
    requires Fits(r, file, c, k, entered) && r.jobs != [] && r.jobs[0].cycle == r.cycle && r.firstLoad
    ensures AllSound(c) && k < |c| && Sound(c[k]) && (entered1 || Arrived(r, c, k).firstLoad)
    ensures var r1 := Arrived(r, c, k);
            Fits(r1, file, c, k + 1, entered1) && Unread(r1, c, k + 1, entered1) == Unread(r, c, k, entered)
  {
    hide Tail, Range, Decode, EndFits, BuffersFit, CrcOk, Held, AllSound, Known, Enters, LinkOf, Later, OnFileAs, Accepted;
    OnFileFacts(file, c, r.stream, r.capacity);
    JobLoads(r, file, c, k, entered);
    assert Requested(r) != [];
    var r0 := r.(jobs := r.jobs[1..]);
    assert Requested(r0) == [];
    assert forall j | j in r0.jobs :: j in r.jobs;
    FirstIsClear(r, entered);
    hide Requested;
    var r1 := Arrived(r, c, k);
    assert Unread(r, c, k, entered) == Range(c, k, r.start, r.end);
    if Entry(c[k], r.start).None? {
      SkipKeeps(r0, file, c, k, r1);
      entered1 := false;
    } else {
      EnterKeeps(r0, file, c, k, r1, r1.buffers[0].fill);
      entered1 := true;
    }
  }

  /** The block asked for comes in. */
  lemma {:induction false} FreshKeeps(r: Reader, file: seq<Byte>, c: seq<Block>, k: nat, entered: bool)
    returns (r1: Reader, entered1: bool)
    requires Fits(r, file, c, k, entered) && r.jobs != [] && r.jobs[0].cycle == r.cycle
    ensures CanLoad(r, file) && k < |c| && RunOne(r, file) == PushRequests(r1) && r1.jobs == r.jobs[1..]
    ensures r1.cycle == r.cycle && r1.cacheSize == r.cacheSize && |r1.buffers| <= |r.buffers| + 1
    ensures AllSound(c) && (entered ==> entered1) && (entered || r.firstLoad ==> entered1 || r1.firstLoad)
    ensures !entered && !r.firstLoad ==> !entered1 && !r1.firstLoad
    ensures Fits(r1, file, c, k + 1, entered1) && Unread(r1, c, k + 1, entered1) == Unread(r, c, k, entered)
  {
    hide OnFileAs, EndFits, BuffersFit, RequestFits, PushRequests, CanLoad, RunOne, AllSound, Unread, Decode;
    RunOneArrives(r, file, c, k, entered);
    r1 := Arrived(r, c, k);
    if r.firstLoad {
      entered1 := FirstArrives(r, file, c, k, entered);
    } else {
      LaterArrives(r, file, c, k, entered);
      entered1 := entered;
    }
  }

  lemma {:induction false} AskedFits(r: Reader, asked: Reader, entered: bool)
    requires BuffersFit(r, entered) && Requested(r) != []
    requires asked == r.(jobs := asked.jobs, links := [0])
    ensures BuffersFit(asked, entered) && Requested(asked) != []
  {
    assert Requested(asked) != [];
    hide Requested;
    forall i | 0 <= i < |r.buffers| && (i > 0 || !entered)
      ensures Later(asked, i)
    {
      assert Later(r, i);
    }
  }

  lemma {:induction false} AskedUnread(r: Reader, asked: Reader, c: seq<Block>, k: nat, entered: bool)
    requires BuffersFit(r, entered) && BuffersFit(asked, entered) && AllSound(c) && Requested(r) != [] && Requested(asked) != []
    requires asked == r.(jobs := asked.jobs, links := [0])
    ensures Unread(asked, c, k, entered) == Unread(r, c, k, entered)
  {
    hide Requested, Tail, Range, AllSound, BuffersFit;
  }

  lemma {:induction false} FirstIsClear(r: Reader, entered: bool)
    requires BuffersFit(r, entered) && r.buffers == []
    ensures !entered && r.at.None? && Held(r, entered) == []
  {
  }

  /** Loading a block leaves what is still to be read as it was, and brings runLoads nearer to its end. */
  lemma {:induction false} RunOneKeeps(r: Reader, file: seq<Byte>, c: seq<Block>, k: nat, entered: bool)
    returns (k': nat, entered': bool)
    requires Fits(r, file, c, k, entered) && r.jobs != []
    ensures CanLoad(r, file)
    ensures var r' := RunOne(r, file);
            && Fits(r', file, c, k', entered') && Unread(r', c, k', entered') == Unread(r, c, k, entered)
            && ToLoad(r', c, k') < ToLoad(r, c, k) && (CacheServed(r) ==> CacheServed(r')) && (entered ==> entered')
            && (entered || r.firstLoad ==> entered' || r'.firstLoad)
            && (!entered && !r.firstLoad ==> !entered' && !r'.firstLoad)
  {
    hide Tail, Range, Decode, OnFileAs, EndFits, Enters, BuffersFit, Unread, Requested, Entry, CrcOk, Known;
    JobLoads(r, file, c, k, entered);
    if r.jobs[0].cycle < r.cycle {
      StaleKeeps(r, file, c, k, entered);
      return k, entered;
    } else {
      assert r.jobs[0] in r.jobs;
      hide PushRequests, Append;
      var r1;
      r1, entered' := FreshKeeps(r, file, c, k, entered);
      PushRequestsKeeps(r1, file, c, k + 1, entered');
      k' := k + 1;
    }
  }

  // ---------- How much is kept in memory

  /** The loaded buffers and the blocks that are on their way are never more than the cache holds. */
  ghost predicate CacheBounded(r: Reader) {
    |r.buffers| + |Waiting(r.jobs, r.cycle)| <= r.cacheSize
  }

  lemma {:induction false} PushRequestsBounded(r: Reader, file: seq<Byte>, c: seq<Block>, k: nat, entered: bool)
    requires Fits(r, file, c, k, entered) && CacheBounded(r)
    ensures CacheBounded(PushRequests(r))
  {
    hide OnFileAs, EndFits, BuffersFit, AllSound, Enters, Known;
    var r' := PushRequests(r);
    if r' != r {
      assert |Requested(r)| == |Waiting(r.jobs, r.cycle)| + |r.links|;
      WaitingMore(r.jobs, Job(r.links[0], r.cycle), r.cycle);
    }
  }

  lemma {:induction false} RunOneBounded(r: Reader, file: seq<Byte>, c: seq<Block>, k: nat, entered: bool)
    requires Fits(r, file, c, k, entered) && r.jobs != [] && CacheBounded(r)
    ensures CanLoad(r, file) && CacheBounded(RunOne(r, file))
  {
    hide Fits, PushRequests, AllSound, Unread, Decode, Accepted, Append, CanLoad;
    JobLoads(r, file, c, k, entered);
    if r.jobs[0].cycle == r.cycle {
      hide RunOne;
      var r1, entered1 := FreshKeeps(r, file, c, k, entered);
      PushRequestsBounded(r1, file, c, k + 1, entered1);
    } else {
      StaleIsDropped(r, file, c, k, entered);
    }
  }

  /** What was asked for before the range was set is given back when it comes in. */
  lemma StaleIsDropped(r: Reader, file: seq<Byte>, c: seq<Block>, k: nat, entered: bool)
    requires Fits(r, file, c, k, entered) && r.jobs != [] && r.jobs[0].cycle != r.cycle && CanLoad(r, file)
    ensures RunOne(r, file) == r.(jobs := r.jobs[1..])
  {
    hide OnFileAs, EndFits, BuffersFit, AllSound, Enters, Known, Decode, CrcOk, PushRequests;
    assert r.jobs[0] in r.jobs;
  }

  // ---------- The iterator

  /** The state when the data of the first buffer is used up and the buffer is given back. */
  function Popped(r: Reader): Reader
    requires r.buffers != []
  {
    r.(buffers := r.buffers[1..], at := None)
  }

  lemma {:induction false} PoppedKeeps(r: Reader, file: seq<Byte>, c: seq<Block>, k: nat)
    requires Fits(r, file, c, k, true) && Position(r) + 1 == r.limit
    ensures AllSound(c) && Fits(Popped(r), file, c, k, false)
    ensures Unread(r, c, k, true) != [] && Unread(Popped(r), c, k, false) == Unread(r, c, k, true)[1..]
  {
    hide Tail, Range, Decode, EndFits, Enters, AllSound, Known, BodyOf;
    OnFileFacts(file, c, r.stream, r.capacity);
    hide OnFileAs;
    var r' := Popped(r);
    assert Requested(r') == Requested(r);
    hide Requested;
    forall i | 0 <= i < |r'.buffers|
      ensures Later(r', i)
    {
      assert Later(r, i + 1);
    }
    hide Bodies, Later;
    var t, p := r.buffers[0].tile, Position(r);
    assert t[p..r.limit] == [t[p]];
    DropFirst(t[p], Bodies(r.buffers[1..]), Ahead(r, c, k));
  }

  lemma {:induction false} DropFirst(x: Byte, a: seq<Byte>, b: seq<Byte>)
    ensures ([x] + a + b)[1..] == a + b && [x] + a + b != []
  {
  }

  /** One byte further inside the first buffer. */
  lemma {:induction false} AdvancedKeeps(r: Reader, file: seq<Byte>, c: seq<Block>, k: nat)
    requires Fits(r, file, c, k, true) && Position(r) + 1 < r.limit
    ensures AllSound(c) && r.buffers != [] && Fits(r.(at := Some(Position(r) + 1)), file, c, k, true)
    ensures Unread(r, c, k, true) != []
    ensures Unread(r.(at := Some(Position(r) + 1)), c, k, true) == Unread(r, c, k, true)[1..]
  {
    hide Tail, Range, Decode, EndFits, Enters, AllSound, Known, Bodies, Requested;
    OnFileFacts(file, c, r.stream, r.capacity);
    hide OnFileAs;
    var r' := r.(at := Some(Position(r) + 1));
    SameRequests(r', r);
    forall i | 1 <= i < |r'.buffers|
      ensures Later(r', i)
    {
      assert Later(r, i);
    }
    hide Later;
    DropInside(r.buffers[0].tile, Position(r), r.limit, Bodies(r.buffers[1..]), Ahead(r, c, k));
  }

  lemma {:induction false} DropInside(t: seq<Byte>, p: nat, limit: nat, a: seq<Byte>, b: seq<Byte>)
    requires p < limit <= |t|
    ensures (t[p..limit] + a + b)[1..] == t[p + 1..limit] + a + b && t[p..limit] + a + b != []
  {
    assert t[p..limit][1..] == t[p + 1..limit];
    assert (t[p..limit] + a + b)[1..] == t[p..limit][1..] + a + b;
  }

  /** Going over to the next buffer; one without data is the last. */
  function NextBuffer(r: Reader): Reader {
    if r.buffers == [] then r
    else if r.buffers[0].fill == HEADER then r.(buffers := r.buffers[1..])
    else r.(limit := r.buffers[0].fill, at := Some(r.buffers[0].from))
  }

  lemma {:induction false} NextBufferKeeps(r: Reader, file: seq<Byte>, c: seq<Block>, k: nat)
    requires Fits(r, file, c, k, false) && (r.buffers == [] ==> Requested(r) == [])
    ensures var r' := NextBuffer(r);
            && Fits(r', file, c, k, r'.at.Some?) && AllSound(c) && Unread(r', c, k, r'.at.Some?) == Unread(r, c, k, false)
            && (r'.at.Some? <==> Unread(r, c, k, false) != [])
            && (r'.at.None? ==> r'.buffers == [] && Requested(r') == [])
  {
    hide Tail, Range, Decode, EndFits, Enters, AllSound, Known;
    OnFileFacts(file, c, r.stream, r.capacity);
    hide OnFileAs;
    var r' := NextBuffer(r);
    assert Requested(r') == Requested(r);
    hide Requested;
    if r.buffers != [] {
      assert Later(r, 0);
      assert Bodies(r.buffers) == BodyOf(r.buffers[0]) + Bodies(r.buffers[1..]);
      forall i | 1 <= i < |r.buffers|
        ensures r.buffers[0].fill > HEADER && Later(r', i)
      {
        assert Later(r, i);
      }
    }
  }

  /** The blocks asked for in earlier cycles do not count any more. */
  lemma RangeBounded(r: Reader, off: nat, end: nat, blockStart: nat)
    requires r.cacheSize >= 1 && forall j | j in r.jobs :: j.cycle <= r.cycle
    ensures CacheBounded(SetReadRange(r, off, end, blockStart))
  {
    NoneWaiting(r.jobs, r.cycle + 1);
    WaitingMore(r.jobs, Job(off, r.cycle + 1), r.cycle + 1);
  }

  /** A reader that is sent to a range has all of the range ahead of it. */
  lemma {:induction false} RangeIsAhead(r: Reader, file: seq<Byte>, c: seq<Block>, j: nat, end: nat, blockStart: nat)
    requires r.cacheSize >= 1 && OnFileAs(file, c, r.stream, r.capacity) && EndFits(c, end) && AllSound(c)
    requires j < |c| && Enters(c, j, c[j].off + blockStart, end)
    requires OldJobs(r.jobs, r.cycle, c)
    ensures var r' := SetReadRange(r, c[j].off, end, blockStart);
            Fits(r', file, c, j, false) && Unread(r', c, j, false) == Range(c, j, c[j].off + blockStart, end)
  {
    hide Range, Decode, OnFileAs, AllSound, Enters;
    var r' := SetReadRange(r, c[j].off, end, blockStart);
    NoneWaiting(r.jobs, r'.cycle);
    WaitingMore(r.jobs, Job(c[j].off, r'.cycle), r'.cycle);
    assert Requested(r') == [c[j].off];
    assert Known(c, c[j].off);
  }

  lemma {:induction false} IteratorIsAtFirst(r: Reader, file: seq<Byte>, c: seq<Block>, k: nat)
    requires Fits(r, file, c, k, true)
    ensures AllSound(c) && Position(r) < |r.buffers[0].tile|
    ensures Unread(r, c, k, true) != [] && Unread(r, c, k, true)[0] == r.buffers[0].tile[Position(r)]
  {
    hide Tail, Range, Decode, AllSound, Bodies, Requested, OnFileAs;
    OnFileFacts(file, c, r.stream, r.capacity);
  }
}
