/** Processing all write jobs, as a synchronisation with the file does. */
module LogSync {
  import opened Bytes
  import opened ControlBlocks
  import opened BlockFiles
  import opened StreamWriters
  import opened LogStore
  import opened LogRuns
  import opened LogSessions
  import opened LogReading

  predicate CanDrain(st: Store)
    decreases |st.jobs|
  {
    st.jobs == [] || (Enabled(st, Process) && |ProcessOne(st).jobs| < |st.jobs| && CanDrain(ProcessOne(st)))
  }

  /** FileHandler::processWrites. */
  function Drained(st: Store): Store
    requires CanDrain(st)
    decreases |st.jobs|
  {
    if st.jobs == [] then st else Drained(ProcessOne(st))
  }

  lemma NothingToDrain(st: Store)
    requires st.jobs == []
    ensures CanDrain(st) && Drained(st) == st
  {
  }

  /** How much the file can grow at most when these jobs are processed. */
  function Growth(writers: seq<Writer>, jobs: seq<nat>): nat {
    if jobs == [] then 0
    else Growth(writers, jobs[1..]) + if jobs[0] < |writers| then writers[jobs[0]].capacity else 0
  }

  lemma {:induction false} GrowthSame(writers: seq<Writer>, writers': seq<Writer>, jobs: seq<nat>)
    requires |writers'| == |writers| && forall i | 0 <= i < |writers| :: writers'[i].capacity == writers[i].capacity
    ensures Growth(writers', jobs) == Growth(writers, jobs)
    decreases |jobs|
  {
    if jobs != [] {
      GrowthSame(writers, writers', jobs[1..]);
    }
  }

  lemma ProcessFacts(st: Store)
    requires Ready(st)
    ensures var st' := ProcessOne(st);
            && st'.jobs == st.jobs[1..] && |st'.writers| == |st.writers|
            && (forall i | 0 <= i < |st.writers| :: st'.writers[i].capacity == st.writers[i].capacity)
            && st'.offset <= st.offset + st.writers[st.jobs[0]].capacity
            && (InPlace(st) ==> st'.position == st'.offset)
  {
    hide Image, WriteAt, BigEndian, Tell;
  }

  /** Once the first job is in place all jobs can be processed, as long as the file does not grow too large. */
  lemma {:induction false} DrainsInPlace(st: Store, tiles: seq<Tile>, stories: seq<Story>)
    requires StoreFits(st, tiles, stories) && (st.jobs == [] || InPlace(st))
    requires st.offset + Growth(st.writers, st.jobs) < NO_NEXT
    ensures CanDrain(st)
    decreases |st.jobs|
  {
    hide StoreFits, ProcessOne, Ready, Reblocked;
    if st.jobs != [] {
      JobsAreReady(st, tiles, stories);
      ProcessFacts(st);
      StepKeepsStore(st, tiles, stories, Process);
      var st' := ProcessOne(st);
      GrowthSame(st.writers, st'.writers, st'.jobs);
      if st'.jobs != [] {
        JobsAreReady(st', Reblocked(tiles, st, Process), stories);
      }
      DrainsInPlace(st', Reblocked(tiles, st, Process), stories);
    }
  }

  /** One turn of processWrites. */
  lemma DrainTurn(st: Store, tiles: seq<Tile>, stories: seq<Story>)
    requires StoreFits(st, tiles, stories) && CanDrain(st) && st.jobs != []
    ensures Ready(st) && Enabled(st, Process) && st.jobs[0] < |st.writers| && Headed(tiles)
    ensures var st' := ProcessOne(st);
            && StoreFits(st', Reblocked(tiles, st, Process), stories)
            && CanDrain(st') && Drained(st) == Drained(st') && |st'.jobs| == |st.jobs| - 1
  {
    hide StoreFits, ProcessOne, Reblocked;
    JobsAreReady(st, tiles, stories);
    StepKeepsStore(st, tiles, stories, Process);
    ProcessFacts(st);
  }

  /** Draining is the last part of a session, and leaves no job and no buffer behind. */
  lemma {:induction false} DrainedSession(ops: seq<Op>) returns (done: seq<Op>)
    requires IsSession(ops) && CanDrain(After(ops))
    ensures IsSession(done) && After(done) == Drained(After(ops)) && After(done).jobs == []
    ensures ops <= done && forall op | op in done[|ops|..] :: op == Process
    decreases |After(ops).jobs|
  {
    hide ProcessOne, Unreported;
    if After(ops).jobs == [] {
      done := ops;
    } else {
      var more := ops + [Process];
      assert more[..|ops|] == ops;
      assert After(more) == ProcessOne(After(ops));
      done := DrainedSession(more);
      assert done[|ops|..] == [done[|ops|]] + done[|more|..];
      assert done[|ops|] == more[|ops|];
    }
  }

  /** Jobs that are all done leave no buffers. */
  lemma NoBuffersLeft(ops: seq<Op>, s: nat)
    requires IsSession(ops) && After(ops).jobs == [] && s < |After(ops).writers|
    ensures After(ops).writers[s].queue == []
  {
    hide StoreFits, IsSession, After, StreamFits, AllTell;
    SessionKeepsStore(ops);
    StoryKnown(After(ops), TilesAfter(ops), StoriesAfter(ops), s);
  }

  /** Processing jobs changes nothing of what was written, marked and closed off. */
  lemma {:induction false} ProcessingTellsNothing(ops: seq<Op>, done: seq<Op>, s: nat)
    requires ops <= done && forall op | op in done[|ops|..] :: op == Process
    ensures Written(done, s) == Written(ops, s) && FirstItem(done, s) == FirstItem(ops, s)
    ensures Saved(done, s) <==> Saved(ops, s)
    decreases |done|
  {
    if |ops| < |done| {
      var before := done[..|done| - 1];
      assert done[|ops|..][|done| - 1 - |ops|] == done[|done| - 1];
      assert done[|done| - 1] in done[|ops|..];
      forall op | op in before[|ops|..]
        ensures op == Process
      {
        assert op in done[|ops|..];
      }
      ProcessingTellsNothing(ops, before, s);
      assert Written(done, s) == Written(before, s) + [];
    } else {
      assert done == ops;
    }
  }

  /** Synchronising with the file: after any session in which a stream was closed off at the end, once
      all write jobs are processed, the file gives back all that was written from the first item on. */
  lemma SyncedRoundTrip(ops: seq<Op>, s: nat)
    requires IsSession(ops) && CanDrain(After(ops)) && s < |After(ops).writers| && Saved(ops, s)
    requires FirstItem(ops, s).Some? ==> FirstItem(ops, s).value < |Written(ops, s)|
    ensures var st := Drained(After(ops));
            && s < |st.firsts| && s < |st.writers| && st.firsts[s].Some?
            && var first := st.firsts[s].value;
            var c := Follow(st.file, first, st.writers[s].capacity);
            && AllSound(c)
            && Range(c, 0, first, NO_NEXT)
               == if FirstItem(ops, s).Some? then Written(ops, s)[FirstItem(ops, s).value..] else []
  {
    hide IsSession, After, CanDrain, Drained, Written, FirstItem, Saved, Follow, Range, AllSound;
    var done := DrainedSession(ops);
    ProcessingTellsNothing(ops, done, s);
    StreamsStay(ops, done);
    NoBuffersLeft(done, s);
    RoundTrip(done, s);
  }

  lemma {:induction false} StreamsStay(ops: seq<Op>, done: seq<Op>)
    requires ops <= done && IsSession(done) && IsSession(ops)
    ensures |After(done).writers| >= |After(ops).writers|
    decreases |done|
  {
    hide Step, Enabled;
    if |ops| < |done| {
      var before := done[..|done| - 1];
      assert ops <= before;
      LastStep(done);
      StreamsStay(ops, before);
      StepStreams(After(before), done[|done| - 1]);
    } else {
      assert ops == done;
    }
  }
}
