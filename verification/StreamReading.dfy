/** FileStreamRead as an object, with the loop of FileHandler::runLoads that serves it. What its methods
    promise is said of the bytes that are still to be read. */
module StreamReading {
  import opened Bytes
  import opened ControlBlocks
  import opened BlockFiles
  import opened LogStore
  import opened LogReading
  import opened StreamReaders

  class FileStreamRead {
    const stream: nat
    const capacity: nat
    const cacheSize: nat
    var buffers: seq<Loaded>
    var links: seq<nat>
    /** The read jobs of the file handler for this stream. */
    var jobs: seq<Job>
    var start: nat
    var end: nat
    var cycle: nat
    var firstLoad: bool
    /** Where the iterator is in the first buffer, and the end of the data there. */
    var at: Option<nat>
    var limit: nat
    /** The next block to be loaded, and whether `limit` is that of the first buffer. */
    ghost var next: nat
    ghost var entered: bool

    function View(): Reader
      reads this
    {
      Reader(stream, capacity, cacheSize, buffers, links, jobs, start, end, cycle, firstLoad, at, limit)
    }

    ghost predicate Valid(file: seq<Byte>, c: seq<Block>)
      reads this
    {
      Fits(View(), file, c, next, entered) && AllSound(c) && CacheBounded(View())
    }

    /** Everything that is still to be read. */
    ghost function Left(file: seq<Byte>, c: seq<Block>): seq<Byte>
      requires Valid(file, c)
      reads this
    {
      Unread(View(), c, next, entered)
    }

    constructor (stream: nat, capacity: nat, cacheSize: nat)
      ensures this.stream == stream && this.capacity == capacity && this.cacheSize == cacheSize
      ensures buffers == [] && links == [] && jobs == [] && at == None && cycle == 0 && end == NO_NEXT
    {
      this.stream, this.capacity, this.cacheSize := stream, capacity, cacheSize;
      buffers, links, jobs, at, limit := [], [], [], None, 0;
      start, end, cycle, firstLoad := 0, NO_NEXT, 0, true;
      next, entered := 0, false;
    }

    /** Start reading at `blockStart` in the block at `off`; jobs still under way go stale. */
    method SetReadRange(off: nat, end: nat, blockStart: nat, ghost file: seq<Byte>, ghost c: seq<Block>, ghost j: nat)
      requires cacheSize >= 1 && OnFileAs(file, c, stream, capacity) && EndFits(c, end) && AllSound(c)
      requires j < |c| && c[j].off == off && Enters(c, j, off + blockStart, end)
      requires OldJobs(jobs, cycle, c)
      modifies this
      ensures Valid(file, c) && Left(file, c) == Range(c, j, off + blockStart, end)
      ensures at == None && links == [] && firstLoad
    {
      hide Fits, Unread, AllSound, Range, Enters, OnFileAs, EndFits, Known, CacheBounded;
      RangeIsAhead(View(), file, c, j, end, blockStart);
      RangeBounded(View(), off, end, blockStart);
      start := off + blockStart;
      this.end := end;
      cycle := cycle + 1;
      firstLoad := true;
      buffers, links, at := [], [], None;
      jobs := jobs + [Job(off, cycle)];
      next, entered := j, false;
      assert View() == StreamReaders.SetReadRange(old(View()), off, end, blockStart);
    }

    method PushRequests()
      modifies `links, `jobs
      ensures View() == StreamReaders.PushRequests(old(View()))
    {
      if |buffers| < cacheSize && links != [] {
        jobs := jobs + [Job(links[0], cycle)];
        links := links[1..];
      }
    }

    method AppendBuffer(off: nat, tile: Tile, jobCycle: nat)
      requires |tile| >= HEADER
      modifies `links, `jobs, `buffers, `limit, `firstLoad
      ensures View() == Append(old(View()), off, tile, jobCycle)
    {
      hide Decode;
      if jobCycle < cycle {
        return;
      }
      var h := Decode(tile);
      if h.next < end {
        links := links + [h.next];
      }
      var from := HEADER;
      if firstLoad {
        if off < start {
          from := start - off;
        } else if h.objectOffset == 0 {
          PushRequests();
          return;
        } else {
          from := h.objectOffset;
        }
        limit := h.fill;
      }
      var fill := h.fill;
      if off + h.fill > end {
        fill := if end > off then end - off else 0;
      }
      buffers := buffers + [Loaded(tile, from, fill)];
      firstLoad := false;
      PushRequests();
    }

    /** The file handler loads the block of the first job. */
    method RunLoad(file: seq<Byte>, ghost c: seq<Block>)
      requires Valid(file, c) && jobs != []
      modifies this
      ensures Valid(file, c) && Left(file, c) == old(Left(file, c)) && at == old(at)
      ensures ToLoad(View(), c, next) < old(ToLoad(View(), c, next)) && (old(CacheServed(View())) ==> CacheServed(View()))
      ensures (old(entered) ==> entered) && (old(entered || firstLoad) ==> entered || firstLoad)
      ensures !old(entered || firstLoad) ==> !entered && !firstLoad
    {
      hide Fits, Unread, Append, CacheServed, AllSound, RunOne, ToLoad, CacheBounded, Decode, CrcOk, Waiting, Requested;
      ghost var before := View();
      ghost var k, e := RunOneKeeps(before, file, c, next, entered);
      RunOneBounded(before, file, c, next, entered);
      var job := jobs[0];
      jobs := jobs[1..];
      AppendBuffer(job.off, file[job.off..job.off + capacity], job.cycle);
      RunOneIs(before, file);
      next, entered := k, e;
    }

    /** FileHandler::runLoads: nothing is read or lost by it, and afterwards the cache is served. */
    method RunLoads(file: seq<Byte>, ghost c: seq<Block>)
      requires Valid(file, c)
      modifies this
      ensures Valid(file, c) && Left(file, c) == old(Left(file, c))
      ensures jobs == [] && at == old(at) && (old(CacheServed(View())) ==> CacheServed(View()))
      ensures (old(entered) ==> entered) && (old(entered || firstLoad) ==> entered || firstLoad)
      ensures !old(entered || firstLoad) ==> !entered && !firstLoad
      ensures |buffers| <= cacheSize
    {
      hide Fits, Unread, CacheServed, AllSound, ToLoad;
      while jobs != []
        invariant Valid(file, c) && Left(file, c) == old(Left(file, c)) && at == old(at)
        invariant old(CacheServed(View())) ==> CacheServed(View())
        invariant (old(entered) ==> entered) && (old(entered || firstLoad) ==> entered || firstLoad)
        invariant !old(entered || firstLoad) ==> !entered && !firstLoad
        decreases ToLoad(View(), c, next)
      {
        RunLoad(file, c);
      }
    }

    /** An iterator at the first byte that is to be read; without a loaded buffer it is the end. */
    method Iterator(ghost file: seq<Byte>, ghost c: seq<Block>)
      requires Valid(file, c) && at == None && (entered || buffers == [])
      modifies `at
      ensures Valid(file, c) && Left(file, c) == old(Left(file, c))
      ensures at.Some? <==> buffers != []
      ensures View() == old(View()).(at := at)
    {
      hide Bodies, Decode, OnFileAs, AllSound, Tail, Range, Requested;
      if buffers != [] {
        at := Some(buffers[0].from);
        RequestsStay(old(View()), View());
      }
    }

    /** When no buffer is left, the next block is loaded in the reading thread. */
    method Refill(file: seq<Byte>, ghost c: seq<Block>)
      requires Valid(file, c) && at == None && !entered && !firstLoad && cacheSize >= 1
      modifies this
      ensures Valid(file, c) && Left(file, c) == old(Left(file, c)) && at == None && !entered
      ensures buffers == [] ==> Requested(View()) == []
    {
      if buffers == [] {
        hide Fits, Unread, AllSound, StreamReaders.PushRequests, Requested, CacheServed, CacheBounded;
        PushRequestsKeeps(View(), file, c, next, entered);
        PushRequestsBounded(View(), file, c, next, entered);
        PushRequests();
        RunLoads(file, c);
        CacheFacts(View());
      }
    }

    /** Going over to the next buffer, if there is one with data in it. */
    method EnterNext(ghost file: seq<Byte>, ghost c: seq<Block>)
      requires Valid(file, c) && at == None && !entered && (buffers == [] ==> Requested(View()) == [])
      modifies `buffers, `limit, `at, `entered
      ensures Valid(file, c) && Left(file, c) == old(Left(file, c))
      ensures at.Some? <==> Left(file, c) != []
      ensures at.None? ==> buffers == [] && !entered
    {
      hide Fits, Unread, AllSound, Requested;
      NextBufferKeeps(View(), file, c, next);
      if buffers != [] {
        if buffers[0].fill == HEADER {
          buffers := buffers[1..];
        } else {
          limit := buffers[0].fill;
          at := Some(buffers[0].from);
          entered := true;
        }
      }
      assert View() == NextBuffer(old(View()));
    }

    /** Taking a byte: what is left is the rest, and the iterator becomes the end when nothing is left. */
    method Increment(file: seq<Byte>, ghost c: seq<Block>)
      requires Valid(file, c) && at.Some?
      modifies this
      ensures Valid(file, c) && old(Left(file, c)) != [] && Left(file, c) == old(Left(file, c))[1..]
      ensures at.Some? <==> Left(file, c) != []
      ensures at.None? ==> buffers == [] && !entered
    {
      hide Fits, Unread, AllSound, Requested;
      IteratorFacts(View(), file, c, next, entered);
      if at.value + 1 < limit {
        AdvancedKeeps(View(), file, c, next);
        at := Some(at.value + 1);
        assert View() == old(View()).(at := at);
        IteratorIsAtFirst(View(), file, c, next);
      } else {
        PoppedKeeps(View(), file, c, next);
        buffers := buffers[1..];
        at := None;
        entered := false;
        assert View() == Popped(old(View()));
        Refill(file, c);
        EnterNext(file, c);
      }
    }

    /** The byte the iterator is at. */
    function Value(): Byte
      requires at.Some? && buffers != [] && at.value < |buffers[0].tile|
      reads this
    {
      buffers[0].tile[at.value]
    }
  }

  /** Spooling to a range: its first blocks are loaded, and the iterator is set. */
  method Spool(rd: FileStreamRead, file: seq<Byte>, ghost c: seq<Block>, ghost j: nat, off: nat, end: nat, blockStart: nat)
    requires rd.cacheSize >= 1 && OnFileAs(file, c, rd.stream, rd.capacity) && EndFits(c, end) && AllSound(c)
    requires j < |c| && c[j].off == off && Enters(c, j, off + blockStart, end)
    requires OldJobs(rd.jobs, rd.cycle, c)
    modifies rd
    ensures rd.Valid(file, c) && rd.Left(file, c) == Range(c, j, off + blockStart, end)
    ensures rd.at.Some? <==> rd.Left(file, c) != []
  {
    hide Fits, Unread, AllSound, Requested, Range, Enters, Known, CacheServed, CacheBounded;
    rd.SetReadRange(off, end, blockStart, file, c, j);
    CacheFacts(rd.View());
    rd.RunLoads(file, c);
    FirstFacts(rd.View(), file, c, rd.next, rd.entered);
    CacheFacts(rd.View());
    rd.Iterator(file, c);
    CacheFacts(rd.View());
    AtEnd(rd.View(), file, c, rd.next, rd.entered);
  }

  /** Reading a range to its end. `service` tells before which bytes the file handler's thread happens to
      run the loads; neither that nor the size of the cache makes a difference. */
  method ReadRange(rd: FileStreamRead, file: seq<Byte>, ghost c: seq<Block>, ghost j: nat, off: nat, end: nat, blockStart: nat,
                   service: seq<bool>) returns (data: seq<Byte>)
    requires rd.cacheSize >= 1 && OnFileAs(file, c, rd.stream, rd.capacity) && EndFits(c, end) && AllSound(c)
    requires j < |c| && c[j].off == off && Enters(c, j, off + blockStart, end)
    requires OldJobs(rd.jobs, rd.cycle, c)
    modifies rd
    ensures data == Range(c, j, off + blockStart, end)
  {
    hide Fits, Unread, AllSound, Range, Enters, OnFileAs, EndFits, CacheBounded;
    Spool(rd, file, c, j, off, end, blockStart);
    data := [];
    ghost var all := Range(c, j, off + blockStart, end);
    while rd.at.Some?
      invariant rd.Valid(file, c) && data + rd.Left(file, c) == all
      invariant rd.at.Some? <==> rd.Left(file, c) != []
      decreases |rd.Left(file, c)|
    {
      if |data| < |service| && service[|data|] {
        rd.RunLoads(file, c);
      }
      IteratorFacts(rd.View(), file, c, rd.next, rd.entered);
      IteratorIsAtFirst(rd.View(), file, c, rd.next);
      OneMore(data, rd.Left(file, c));
      data := data + [rd.Value()];
      rd.Increment(file, c);
    }
  }

  lemma OneMore(data: seq<Byte>, left: seq<Byte>)
    requires left != []
    ensures data + [left[0]] + left[1..] == data + left
  {
  }

  lemma CacheFacts(r: Reader)
    ensures CacheServed(r) <==> (r.links != [] ==> |r.buffers| >= r.cacheSize)
    ensures r.jobs == [] ==> Requested(r) == r.links
  {
  }

  lemma RunOneIs(r: Reader, file: seq<Byte>)
    requires CanLoad(r, file)
    ensures |file[r.jobs[0].off..r.jobs[0].off + r.capacity]| >= HEADER
    ensures RunOne(r, file) == Append(r.(jobs := r.jobs[1..]), r.jobs[0].off,
                                      file[r.jobs[0].off..r.jobs[0].off + r.capacity], r.jobs[0].cycle)
  {
    hide Append, CrcOk, Decode;
  }

  lemma {:induction false} FirstFacts(r: Reader, file: seq<Byte>, c: seq<Block>, k: nat, entered: bool)
    requires Fits(r, file, c, k, entered)
    ensures r.firstLoad ==> r.buffers == []
  {
  }

  /** With all loads done, no buffer means that nothing is left. */
  lemma {:induction false} AtEnd(r: Reader, file: seq<Byte>, c: seq<Block>, k: nat, entered: bool)
    requires Fits(r, file, c, k, entered) && r.jobs == [] && CacheServed(r) && (r.at.Some? <==> r.buffers != [])
    ensures AllSound(c) && (r.at.Some? <==> Unread(r, c, k, entered) != [])
  {
    hide Tail, Range, Decode, AllSound;
    OnFileFacts(file, c, r.stream, r.capacity);
    if r.at.Some? {
      IteratorIsAtFirst(r, file, c, k);
    }
  }

  lemma {:induction false} IteratorFacts(r: Reader, file: seq<Byte>, c: seq<Block>, k: nat, entered: bool)
    requires Fits(r, file, c, k, entered) && r.at.Some?
    ensures entered && r.buffers != [] && Position(r) == r.at.value < r.limit <= |r.buffers[0].tile| && r.cacheSize >= 1 && !r.firstLoad
  {
    hide OnFileAs, EndFits, RequestFits;
  }

  lemma RequestsStay(r: Reader, r': Reader)
    requires r' == r.(at := r'.at)
    ensures Requested(r') == Requested(r)
    ensures forall i | 0 <= i < |r.buffers| :: Later(r', i) <==> Later(r, i)
  {
  }
}
