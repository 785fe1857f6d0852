/** Replaying one recorded segment into a channel: the items come off the stream as a header with
    the time they were recorded, and an object. What was recorded from one tick on is written from
    another tick on. */
module EventReplay {
  import opened Bytes

  const MAX_TIMETICK: uint32 := 0xffff_ffff

  /** An item as recorded: events have no span. */
  datatype Item = Item(tick: uint32, span: uint32, content: seq<Byte>)

  datatype Token = Header(tick: uint32, span: uint32) | Object(content: seq<Byte>)

  /** What the channel is given. */
  datatype Written = Written(start: uint32, end: int, content: seq<Byte>)

  function Tokens(items: seq<Item>): (ts: seq<Token>)
    ensures |ts| == 2 * |items|
    ensures forall k | 0 <= k < |items| ::
              ts[2 * k] == Header(items[k].tick, items[k].span) && ts[2 * k + 1] == Object(items[k].content)
  {
    if items == [] then [] else
      var last := |items| - 1;
      Tokens(items[..last]) + [Header(items[last].tick, items[last].span), Object(items[last].content)]
  }

  /** The tick at which an item recorded at `tick` is replayed, in 32-bit arithmetic. */
  function Shift(tick: uint32, recordTick: uint32, startTick: uint32): uint32 {
    (tick - recordTick + startTick) % TWO32
  }

  datatype Timing = Timing(recordTick: uint32, startTick: uint32) {
    function At(item: Item): uint32 {
      Shift(item.tick, recordTick, startTick)
    }

    function Event(item: Item): Written {
      Written(At(item), At(item), item.content)
    }
  }

  /** How far the replay is after a call at time t: it goes on as long as items are due. */
  function Onward(items: seq<Item>, done: nat, timing: Timing, t: uint32): (r: nat)
    requires done <= |items|
    ensures done <= r <= |items|
    ensures forall i | done <= i < r :: timing.At(items[i]) <= t
    ensures r < |items| ==> timing.At(items[r]) > t
    decreases |items| - done
  {
    if done < |items| && timing.At(items[done]) <= t then Onward(items, done + 1, timing, t) else done
  }

  function EventsOf(items: seq<Item>, timing: Timing): seq<Written>
  {
    seq(|items|, i requires 0 <= i < |items| => timing.Event(items[i]))
  }

  /** The items from `first` on that are out, behind what was out before. */
  ghost predicate OutSoFar(items: seq<Item>, first: nat, k: nat, timing: Timing, t: uint32, was: seq<Written>, out: seq<Written>) {
    && first <= k <= |items|
    && Onward(items, k, timing, t) == Onward(items, first, timing, t)
    && out == was + EventsOf(items[first..k], timing)
  }

  lemma NothingYet(items: seq<Item>, first: nat, timing: Timing, t: uint32, was: seq<Written>)
    requires first <= |items|
    ensures OutSoFar(items, first, first, timing, t, was, was)
  {
    assert EventsOf(items[first..first], timing) == [];
  }

  lemma OneMore(items: seq<Item>, first: nat, k: nat, timing: Timing, t: uint32, was: seq<Written>, out: seq<Written>)
    requires OutSoFar(items, first, k, timing, t, was, out) && k < |items| && timing.At(items[k]) <= t
    ensures OutSoFar(items, first, k + 1, timing, t, was, out + [timing.Event(items[k])])
  {
    assert EventsOf(items[first..k + 1], timing) == EventsOf(items[first..k], timing) + [timing.Event(items[k])];
  }

  lemma AllOut(items: seq<Item>, first: nat, k: nat, timing: Timing, t: uint32, was: seq<Written>, out: seq<Written>)
    requires OutSoFar(items, first, k, timing, t, was, out) && (k == |items| || timing.At(items[k]) > t)
    ensures first <= k <= |items| && k == Onward(items, first, timing, t) && out == was + EventsOf(items[first..k], timing)
  {}

  /** An event is written with its own contents, at the tick at which it was recorded, counted from the first tick
      of the segment, behind the tick at which the replay started. */
  predicate OnTime(w: Written, item: Item, timing: Timing) {
    && w.start == w.end == (item.tick - timing.recordTick + timing.startTick) % 0x1_0000_0000
    && w.content == item.content
  }

  lemma TimesOf(items: seq<Item>, first: nat, k: nat, timing: Timing, was: seq<Written>)
    requires first <= k <= |items|
    ensures var out := was + EventsOf(items[first..k], timing);
            && |out| == |was| + k - first
            && forall i | |was| <= i < |out| :: OnTime(out[i], items[i - |was| + first], timing)
  {}

  lemma ShiftIs(item: Item, timing: Timing)
    ensures timing.At(item) == (item.tick - timing.recordTick + timing.startTick) % 0x1_0000_0000
  {}

  /** Where the replay is after a series of calls. */
  function AfterCalls(items: seq<Item>, timing: Timing, times: seq<uint32>): (r: nat)
    ensures r <= |items|
  {
    if times == [] then 0
    else Onward(items, AfterCalls(items, timing, times[..|times| - 1]), timing, times[|times| - 1])
  }

  /** Over every series of calls, at whatever times: an item is out exactly if it and all items in
      front of it are due at the latest of the times. */
  lemma {:induction false} OutWhenDue(items: seq<Item>, timing: Timing, times: seq<uint32>, latest: uint32, i: nat)
    requires latest in times && (forall t | t in times :: t <= latest) && i < |items|
    ensures i < AfterCalls(items, timing, times) <==>
            forall j | 0 <= j <= i :: (items[j].tick - timing.recordTick + timing.startTick) % 0x1_0000_0000 <= latest
  {
    AllDueBefore(items, timing, times, latest);
    var n := AfterCalls(items, timing, times);
    NothingDueBehind(items, timing, times, latest);
    if n <= i {
      assert timing.At(items[n]) > latest;
    }
  }

  lemma {:induction false} AllDueBefore(items: seq<Item>, timing: Timing, times: seq<uint32>, latest: uint32)
    requires forall t | t in times :: t <= latest
    ensures forall j | 0 <= j < AfterCalls(items, timing, times) :: timing.At(items[j]) <= latest
  {
    if times != [] {
      var before := times[..|times| - 1];
      assert times[|times| - 1] in times;
      forall t | t in before ensures t <= latest {
        assert t in times;
      }
      AllDueBefore(items, timing, before, latest);
    }
  }

  lemma {:induction false} NothingDueBehind(items: seq<Item>, timing: Timing, times: seq<uint32>, t: uint32)
    requires t in times
    ensures var n := AfterCalls(items, timing, times); n < |items| ==> timing.At(items[n]) > t
  {
    var last := |times| - 1;
    var before := times[..last];
    if times[last] != t {
      assert t in before;
      NothingDueBehind(items, timing, before, t);
    }
  }

  /** A segment recorded in order, and replayed where the clock does not run over: exactly the
      events due by the latest call are out, which is a matter of each event alone. */
  lemma DueEventsAreOut(items: seq<Item>, timing: Timing, times: seq<uint32>, latest: uint32)
    requires latest in times && forall t | t in times :: t <= latest
    requires forall i, j | 0 <= i <= j < |items| :: items[i].tick <= items[j].tick
    requires forall item | item in items :: 0 <= item.tick - timing.recordTick + timing.startTick < 0x1_0000_0000
    ensures forall i | 0 <= i < |items| ::
              i < AfterCalls(items, timing, times) <==> items[i].tick - timing.recordTick + timing.startTick <= latest
  {
    hide AfterCalls;
    forall i | 0 <= i < |items|
      ensures i < AfterCalls(items, timing, times) <==> items[i].tick - timing.recordTick + timing.startTick <= latest
    {
      OutWhenDue(items, timing, times, latest, i);
      var shift := timing.startTick - timing.recordTick;
      forall j | 0 <= j <= i
        ensures (items[j].tick - timing.recordTick + timing.startTick) % 0x1_0000_0000 == items[j].tick + shift
        ensures items[j].tick <= items[i].tick
      {
        assert items[j] in items;
      }
    }
  }

  /** The events of one more call follow those of the calls before: no gap and no repetition. */
  lemma CallsAddUp(items: seq<Item>, timing: Timing, times: seq<uint32>, t: uint32)
    ensures var before, after := AfterCalls(items, timing, times), AfterCalls(items, timing, times + [t]);
            && after == Onward(items, before, timing, t)
            && EventsOf(items[..before], timing) + EventsOf(items[before..after], timing)
               == EventsOf(items[..after], timing)
  {
    assert (times + [t])[..|times|] == times;
  }

  /** What a series of calls writes, call by call. */
  function WrittenAfter(items: seq<Item>, timing: Timing, times: seq<uint32>): seq<Written> {
    if times == [] then []
    else
      var before := times[..|times| - 1];
      WrittenAfter(items, timing, before)
      + EventsOf(items[AfterCalls(items, timing, before)..AfterCalls(items, timing, times)], timing)
  }

  lemma {:induction false} WrittenIsAll(items: seq<Item>, timing: Timing, times: seq<uint32>)
    ensures WrittenAfter(items, timing, times) == EventsOf(items[..AfterCalls(items, timing, times)], timing)
  {
    hide EventsOf;
    if times == [] {
      NoEvents(items[..0], timing);
    } else {
      var before, t := times[..|times| - 1], times[|times| - 1];
      WrittenIsAll(items, timing, before);
      CallsAddUp(items, timing, before, t);
      assert before + [t] == times;
    }
  }

  lemma NoEvents(items: seq<Item>, timing: Timing)
    requires items == []
    ensures EventsOf(items, timing) == []
  {}

  /** Over every series of calls: the event that comes out as number i is item i of the segment, on time. */
  lemma EachAtItsTime(items: seq<Item>, timing: Timing, times: seq<uint32>, i: nat)
    requires i < AfterCalls(items, timing, times)
    ensures |WrittenAfter(items, timing, times)| == AfterCalls(items, timing, times)
    ensures var w, tick := WrittenAfter(items, timing, times)[i], items[i].tick - timing.recordTick + timing.startTick;
            && w.content == items[i].content && w.start == w.end == tick % 0x1_0000_0000
            && (0 <= tick < 0x1_0000_0000 ==> w.start == tick)
  {
    hide AfterCalls, WrittenAfter, EventsOf, Shift, OnTime;
    WrittenIsAll(items, timing, times);
    var n := AfterCalls(items, timing, times);
    TimesOf(items, 0, n, timing, []);
    assert items[..n] == items[0..n];
    var out := [] + EventsOf(items[0..n], timing);
    assert out == WrittenAfter(items, timing, times);
    assert OnTime(out[i], items[i - 0 + 0], timing);
    OnTimeMeans(out[i], items[i], timing);
  }

  lemma OnTimeMeans(w: Written, item: Item, timing: Timing)
    requires OnTime(w, item, timing)
    ensures var tick := item.tick - timing.recordTick + timing.startTick;
            && w.content == item.content && w.start == w.end == tick % 0x1_0000_0000
            && (0 <= tick < 0x1_0000_0000 ==> w.start == tick)
  {}

  class DDFFDataRecorder {
    var items: seq<Item>            // the segment being replayed
    var tokens: seq<Token>          // what r_stream yields
    var rit: nat                    // rit0
    var replayTick: uint32
    var replaySpan: uint32
    var timing: Timing
    var written: seq<Written>       // everything the channel was given

    ghost var done: nat             // the number of items that were written
    ghost var headed: bool          // the header of the next one was unpacked

    ghost predicate Framed()
      reads this
    {
      && tokens == Tokens(items) && done <= |items|
      && (forall item | item in items :: timing.At(item) != MAX_TIMETICK)
      && rit == 2 * done + (if headed then 1 else 0)
      && (headed ==> Headed())
    }

    ghost predicate Valid()
      reads this
    {
      Framed() && (done < |items| ==> headed == (replayTick != MAX_TIMETICK))
    }

    ghost predicate Headed()
      reads this
    {
      done < |items| && replayTick == timing.At(items[done]) && replaySpan == items[done].span
    }

    constructor (items: seq<Item>, recordTick: uint32, startTick: uint32)
      requires forall item | item in items :: Shift(item.tick, recordTick, startTick) != MAX_TIMETICK
      ensures Valid() && done == 0 && written == [] && this.items == items
      ensures timing == Timing(recordTick, startTick)
    {
      this.items, tokens := items, Tokens(items);
      rit, replayTick, replaySpan, timing, written := 0, MAX_TIMETICK, 0, Timing(recordTick, startTick), [];
      done, headed := 0, false;
    }

    /** Unpack the timing of the next item. */
    method UnpackHeader()
      requires Framed() && done < |items| && !headed
      modifies this`rit, this`replayTick, this`replaySpan, this`headed
      ensures Valid() && headed
    {
      hide Tokens;
      assert items[done] in items;
      replayTick := tokens[rit].tick;
      replaySpan := tokens[rit].span;
      rit := rit + 1;
      replayTick := Shift(replayTick, timing.recordTick, timing.startTick);
      headed := true;
    }

    /** Unpack an object and write it to the channel. */
    method ApplyFunctor(start: uint32, end: int)
      requires Valid() && headed
      modifies this`rit, this`written, this`done, this`headed
      ensures Framed() && !headed && done == old(done) + 1
      ensures written == old(written) + [Written(start, end, items[old(done)].content)]
    {
      hide Tokens;
      written := written + [Written(start, end, tokens[rit].content)];
      rit := rit + 1;
      done, headed := done + 1, false;
    }

    /** Write one event at its own time, and unpack the timing of the next one. */
    method WriteEvent() returns (exhausted: bool)
      requires Valid() && headed
      modifies this`rit, this`replayTick, this`replaySpan, this`written, this`done, this`headed
      ensures Valid() && done == old(done) + 1 && exhausted == (done == |items|) && headed == !exhausted
      ensures written == old(written) + [timing.Event(items[old(done)])]
    {
      hide Tokens, Shift;
      ApplyFunctor(replayTick, replayTick);
      exhausted := rit == |tokens|;
      if !exhausted {
        UnpackHeader();
      }
    }

    /** Events go out as long as they are due: the count is the number that was written, and what
        was written are those events, each at its own time. */
    method ReplayEvents(start: uint32) returns (count: nat)
      requires Valid() && headed
      modifies this`rit, this`replayTick, this`replaySpan, this`written, this`done, this`headed
      ensures Valid() && done == Onward(items, old(done), timing, start)
      ensures count == done - old(done)
      ensures written == old(written) + EventsOf(items[old(done)..done], timing)
      ensures forall i | |old(written)| <= i < |written| ::
                OnTime(written[i], items[i - |old(written)| + old(done)], timing)
    {
      hide Tokens, Shift, EventsOf, Onward, OutSoFar, OnTime;
      count := 0;
      ghost var first, was := done, written;
      NothingYet(items, first, timing, start, was);
      while replayTick <= start
        invariant Valid() && headed && first <= done
        invariant count == done - first
        invariant OutSoFar(items, first, done, timing, start, was, written)
        decreases |items| - done
      {
        OneMore(items, first, done, timing, start, was, written);
        var exhausted := WriteEvent();
        count := count + 1;
        if exhausted {
          AllOut(items, first, done, timing, start, was, written);
          TimesOf(items, first, done, timing, was);
          return;
        }
      }
      AllOut(items, first, done, timing, start, was, written);
      TimesOf(items, first, done, timing, was);
    }

    /** One call of the channel. Events: those that are due by now. An item with a span must be
        asked for with exactly its span. */
    method ChannelReplay(start: uint32, span: uint32) returns (count: Option<nat>)
      requires Valid()
      modifies this`rit, this`replayTick, this`replaySpan, this`written, this`done, this`headed
      ensures Valid()
      ensures old(done) == |items| ==> count == Some(0) && done == old(done) && written == old(written)
      ensures old(done) < |items| && items[old(done)].span == 0 ==>
                && done == Onward(items, old(done), timing, start)
                && count == Some(done - old(done))
                && written == old(written) + EventsOf(items[old(done)..done], timing)
                && forall i | |old(written)| <= i < |written| ::
                     OnTime(written[i], items[i - |old(written)| + old(done)], timing)
      ensures old(done) < |items| && items[old(done)].span > 0 ==>
                var item := items[old(done)];
                if (item.tick - timing.recordTick + timing.startTick) % 0x1_0000_0000 == start && item.span == span then
                  count == Some(1) && done == old(done) + 1
                  && written == old(written) + [Written(start, start + span, item.content)]
                else count == None && done == old(done) && written == old(written)
    {
      hide Tokens, Shift, EventsOf, Onward, OnTime;
      if done < |items| {
        ShiftIs(items[done], timing);
      }
      if rit == |tokens| {
        return Some(0);
      }
      if replayTick == MAX_TIMETICK {
        UnpackHeader();
      }
      if replaySpan == 0 {
        var n := ReplayEvents(start);
        count := Some(n);
      } else if replayTick != start || span != replaySpan {
        count := None;
      } else {
        ApplyFunctor(start, start + span);
        replayTick := MAX_TIMETICK;
        count := Some(1);
      }
    }
  }
}
