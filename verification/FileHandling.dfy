/** FileHandler as an object, with its writers: blocks are written when the write jobs are processed.
    `View` is the store of LogRuns that the object stands for. */
module FileHandling {
  import opened Bytes
  import opened ControlBlocks
  import opened BlockFiles
  import opened StreamWriters
  import opened LogStore
  import opened LogRuns
  import opened LogSync
  import opened MessageBuffers
  import opened StreamWriting

  class FileHandler {
    const readOnly: bool
    const blocksize: nat
    var file: seq<Byte>
    /** Where the file stream stands, and where the next block goes. */
    var position: nat
    var offset: nat
    var writers: seq<FileStreamWrite>
    var jobs: seq<nat>
    var firsts: seq<Option<nat>>
    var tags: seq<Place>
    ghost var views: seq<Writer>

    /** The objects of the writers. */
    ghost var Owned: set<object>

    ghost predicate WriterIs(i: nat)
      requires i < |writers| == |views|
      reads this, Owned
    {
      var w := writers[i];
      && w in Owned && w in w.Repr && w.Repr <= Owned && this !in w.Repr
      && w.Valid() && w.View() == views[i]
    }

    /** Two writers have no object in common. */
    ghost predicate Disjoint(i: nat, j: nat)
      requires i < |writers| && j < |writers|
      reads this, Owned
    {
      writers[i] in Owned && writers[j] in Owned && writers[i].Repr !! writers[j].Repr
    }

    ghost predicate Valid()
      reads this, Owned
    {
      && |views| == |writers| && |firsts| == |writers| && |tags| == |writers| && this !in Owned
      && (forall i: nat | i < |writers| :: WriterIs(i))
      && forall i: nat, j: nat | i < |writers| && j < |writers| && i != j :: Disjoint(i, j)
    }

    ghost function View(): Store
      reads this
    {
      Store(file, position, offset, views, jobs, firsts, tags)
    }

    constructor (readOnly: bool, blocksize: nat)
      ensures Valid() && View() == NEW_FILE && this.readOnly == readOnly && this.blocksize == blocksize
    {
      this.readOnly, this.blocksize := readOnly, blocksize;
      file, position, offset, writers, jobs, firsts, tags := [], 0, 0, [], [], [], [];
      views := [];
      Owned := {};
    }

    /** A new stream, with its writer; null for a file that is only read. */
    method CreateWrite(bufsize: nat) returns (w: FileStreamWrite?)
      requires Valid() && HEADER < SizeFor(bufsize) < TWO32 && |writers| < MAX_STREAMS
      modifies this
      ensures w != null ==> w.stream == |old(writers)| && w.capacity == if bufsize == 0 then blocksize else bufsize
      ensures Valid() && (w == null <==> readOnly)
      ensures w == null ==> View() == old(View()) && writers == old(writers)
      ensures w != null ==>
                View() == Step(old(View()), Create(SizeFor(bufsize))) && writers == old(writers) + [w]
                && fresh(Owned - old(Owned))
    {
      if readOnly {
        return null;
      }
      w := new FileStreamWrite(|writers|, SizeFor(bufsize));
      AddStream(w);
    }

    /** The size of the blocks of a stream. */
    function SizeFor(bufsize: nat): nat {
      if bufsize != 0 then bufsize else blocksize
    }

    method AddStream(w: FileStreamWrite)
      requires Valid() && w.Valid() && w.Repr !! Owned && this !in w.Repr
      modifies `views, `writers, `firsts, `tags, `Owned
      ensures Valid() && writers == old(writers) + [w] && Owned == old(Owned) + w.Repr
      ensures View() == old(View()).(writers := old(views) + [w.View()], firsts := old(firsts) + [None], tags := old(tags) + [Place(0, 0)])
    {
      assert w in w.Repr;
      assert forall i: nat | i < |writers| :: WriterIs(i);
      hide FileStreamWrite.Valid, FileStreamWrite.View;
      ghost var was := writers;
      views := views + [w.View()];
      writers := writers + [w];
      firsts := firsts + [None];
      tags := tags + [Place(0, 0)];
      Owned := Owned + w.Repr;
      assert forall i: nat | i < |was| :: writers[i] == was[i];
      forall i: nat | i < |writers|
        ensures WriterIs(i)
      {
        assert i < |was| ==> old(WriterIs(i));
      }
      forall i: nat, j: nat | i < |writers| && j < |writers| && i != j
        ensures Disjoint(i, j)
      {
        assert WriterIs(i) && WriterIs(j);
        if i < |was| && j < |was| {
          assert old(Disjoint(i, j));
        } else if i < |was| {
          assert old(WriterIs(i)) && writers[i].Repr <= old(Owned);
        } else {
          assert old(WriterIs(j)) && writers[j].Repr <= old(Owned);
        }
      }
    }

    /** FileWithSegments::bufferWriteInformation; tells whether what it asserts holds. */
    method BufferWriteInformation(s: nat, at: nat, start: nat, capacity: nat) returns (asserted: bool)
      requires s < |tags|
      modifies `tags
      ensures tags == old(tags)[s := if s >= 2 && start != UNSET && start > 0 then Place(at, start) else old(tags)[s]]
      ensures asserted <==> start == UNSET
                            || (s >= 2 && (start > 0 || (tags[s].offset == at && 0 < tags[s].inside <= capacity)))
    {
      asserted := true;
      if start != UNSET {
        if start > 0 && s >= 2 {
          tags := tags[s := Place(at, start)];
        } else {
          asserted := s >= 2 && at == tags[s].offset && tags[s].inside > 0 && tags[s].inside <= capacity;
        }
      }
    }

    /** StreamSetInfo::blockWritten. */
    method FirstBlock(s: nat, at: nat)
      requires s < |firsts|
      modifies `firsts
      ensures firsts == old(firsts)[s := if old(firsts)[s].Some? then old(firsts)[s] else Some(at)]
    {
      if firsts[s].None? {
        firsts := firsts[s := Some(at)];
      }
    }

    /** fstream::write where the file stream stands. */
    method WriteFile(bytes: seq<Byte>)
      requires position <= |file|
      modifies `file, `position
      ensures file == WriteAt(old(file), old(position), bytes) && position == old(position) + |bytes|
    {
      file := WriteAt(file, position, bytes);
      position := position + |bytes|;
    }

    /** A buffer of stream s goes over the block at `at`. */
    method WriteOver(at: nat, s: nat, bytes: seq<Byte>, start: nat)
      requires at <= |file| && s < |tags|
      modifies `file, `position, `tags
      ensures file == WriteAt(old(file), at, bytes) && position == offset
      ensures tags == old(tags)[s := if s >= 2 && start != UNSET && start > 0 then Place(at, start) else old(tags)[s]]
    {
      hide WriteAt;
      position := at;
      WriteFile(bytes);
      var asserted := BufferWriteInformation(s, at, start, |bytes|);
      position := offset;
    }

    /** A buffer of stream s goes behind the last block of the file, and the block before it in the stream
        is linked to it. */
    method WriteBehind(previous: Option<nat>, s: nat, bytes: seq<Byte>, start: nat)
      requires position <= |file| && (previous.Some? ==> previous.value <= |file|) && s < |tags| && s < |firsts|
      modifies `file, `position, `offset, `tags, `firsts
      ensures var written := WriteAt(old(file), old(position), bytes);
              file == if previous.Some? then WriteAt(written, previous.value, BigEndian(old(offset), 8)) else written
      ensures position == old(position) + |bytes| && offset == old(offset) + |bytes|
      ensures tags == old(tags)[s := if s >= 2 && start != UNSET && start > 0 then Place(old(offset), start) else old(tags)[s]]
      ensures firsts == old(firsts)[s := if old(firsts)[s].Some? then old(firsts)[s] else Some(old(offset))]
    {
      hide WriteAt, BigEndian;
      WriteFile(bytes);
      var asserted := BufferWriteInformation(s, offset, start, |bytes|);
      FirstBlock(s, offset);
      if previous.Some? {
        var here := position;
        position := previous.value;
        WriteFile(BigEndian(offset, 8));
        position := here;
      }
      offset := offset + |bytes|;
    }

    /** The file's part in a write job. */
    method WriteBlock(partial: Option<nat>, previous: Option<nat>, s: nat, bytes: seq<Byte>, start: nat,
                      ghost w: Writer, ghost wr: FileStreamWrite) returns (at: nat)
      requires Ready(View()) && s == jobs[0] && w == views[s] && bytes == Image(w)
      requires partial == w.partial && previous == w.previous
      requires wr.Valid() && this !in wr.Repr
      requires start == (if w.queue[0].start.Some? then w.queue[0].start.value else UNSET)
      requires w.queue[0].start.Some? ==> start < UNSET
      modifies `file, `position, `offset, `tags, `firsts
      ensures at == if w.partial.Some? then w.partial.value else old(offset)
      ensures wr.Valid() && wr.View() == old(wr.View()) && wr.buffers == old(wr.buffers)
      ensures jobs == old(jobs) && views == old(views)
      ensures View().(jobs := jobs[1..], writers := LogRuns.ProcessOne(old(View())).writers) == LogRuns.ProcessOne(old(View()))
    {
      hide WriteAt, BigEndian, Image, EncodeBlock;
      if partial.Some? {
        at := partial.value;
        WriteOver(at, s, bytes, start);
      } else {
        at := offset;
        WriteBehind(previous, s, bytes, start);
      }
    }

    /** The end of a write job. */
    method FinishJob(w: FileStreamWrite, s: nat, at: nat, again: bool, appended: bool, ghost was: Writer)
      requires w.Valid() && this !in w.Repr && w.buffers != [] && jobs != [] && s < |views|
      requires was.queue != [] && again == (Fill(was.queue[0]) < was.capacity)
      requires w.View() == was.(num := if again then was.num else was.num + 1)
      requires appended == was.partial.None? && (was.partial.None? || at == was.partial.value)
      modifies `jobs, `views, w`partialBlock, w`previousBlock, w`buffers, w`queued
      ensures w.Valid()
      ensures w.View() == if was.partial.Some? then AfterRewrite(was) else AfterAppend(was, at)
      ensures jobs == old(jobs)[1..] && views == old(views)[s := w.View()]
    {
      hide AfterAppend, AfterRewrite;
      jobs := jobs[1..];
      views := views[s := if was.partial.Some? then AfterRewrite(was) else AfterAppend(was, at)];
      w.BlockDone(at, again, appended);
      DoneIsAfter(was, at, again, w.View());
    }

    /** The work of one write job, for the writer that asked for it. */
    method ServeJob(w: FileStreamWrite, s: nat)
      requires Ready(View()) && s == jobs[0] && s < |views|
      requires w.Valid() && w.View() == views[s] && this !in w.Repr && w.buffers != []
      modifies `file, `position, `offset, `tags, `firsts, `jobs, `views
      modifies w`bufferNum, w`partialBlock, w`previousBlock, w`buffers, w`queued, w.buffers[0].buffer
      ensures View() == LogRuns.ProcessOne(old(View())) && writers == old(writers) && Owned == old(Owned) && w.Repr == old(w.Repr)
      ensures w.Valid() && w.View() == views[s]
    {
      hide WriteAt, BigEndian, Image, LogRuns.ProcessOne, AfterAppend, AfterRewrite, FileStreamWrite.ListValid;
      ghost var st := View();
      ghost var was := w.View();
      var bytes, start, again, place, previous := w.PrepareBlock();
      var at := WriteBlock(place, previous, s, bytes, start, was, w);
      FinishJob(w, s, at, again, place.None?, was);
      ProcessOneParts(st);
    }

    lemma FrontIsThere(s: nat)
      requires Valid() && s < |writers|
      ensures WriterIs(s) && |writers[s].buffers| == |views[s].queue|
      ensures writers[s].buffers != [] ==> writers[s].buffers[0].buffer in writers[s].Repr
    {
      assert WriterIs(s);
    }

    /** One turn of the loop of processWrites. */
    method ProcessOne()
      requires Valid() && Ready(View()) && jobs != [] && jobs[0] < |writers|
      modifies this, Owned
      ensures Valid() && View() == LogRuns.ProcessOne(old(View())) && Owned == old(Owned)
    {
      hide LogRuns.ProcessOne, FileStreamWrite.Valid, FileStreamWrite.View, Fill;
      var s := jobs[0];
      var w := writers[s];
      FrontIsThere(s);
      ProcessOneParts(View());
      ServeJob(w, s);
      forall i: nat | i < |writers|
        ensures WriterIs(i)
      {
        assert old(WriterIs(i));
        if i != s {
          assert old(Disjoint(i, s));
        }
      }
      forall i: nat, j: nat | i < |writers| && j < |writers| && i != j
        ensures Disjoint(i, j)
      {
        assert old(Disjoint(i, j));
      }
    }

    lemma AsManyViews()
      requires Valid()
      ensures |writers| == |views|
    {
    }

    /** processWrites, from a state where the first job is in place: all jobs are done, and the file is
        what the write jobs make of it. */
    method ProcessWrites(ghost tiles: seq<Tile>, ghost stories: seq<Story>) returns (nwrites: nat)
      requires Valid() && StoreFits(View(), tiles, stories) && (jobs == [] || InPlace(View()))
      requires offset + Growth(views, jobs) < NO_NEXT
      modifies this, Owned
      ensures Valid() && jobs == [] && nwrites == |old(jobs)| && Owned == old(Owned)
      ensures CanDrain(old(View())) && View() == Drained(old(View()))
    {
      hide LogRuns.ProcessOne, WriterIs, StoreFits, Valid, CanDrain, Drained, Reblocked, Ready, Enabled;
      ghost var t := tiles;
      DrainsInPlace(View(), tiles, stories);
      nwrites := 0;
      while jobs != []
        invariant Valid() && StoreFits(View(), t, stories) && CanDrain(View()) && Drained(View()) == Drained(old(View()))
        invariant nwrites + |jobs| == |old(jobs)| && Owned == old(Owned)
        decreases |jobs|
      {
        DrainTurn(View(), t, stories);
        t := Reblocked(t, View(), Process);
        AsManyViews();
        ProcessOne();
        nwrites := nwrites + 1;
      }
      NothingToDrain(View());
    }
  }

  lemma DoneIsAfter(w: Writer, at: nat, partial: bool, w': Writer)
    requires w.queue != [] && partial == (Fill(w.queue[0]) < w.capacity)
    requires w.partial.None? || at == w.partial.value
    requires w' == w.(num := if partial then w.num else w.num + 1, queue := w.queue[1..],
                      partial := if partial then Some(at) else None, previous := if w.partial.None? then Some(at) else w.previous)
    ensures w' == if w.partial.Some? then AfterRewrite(w) else AfterAppend(w, at)
  {
  }

  lemma ProcessOneParts(st: Store)
    requires Ready(st)
    ensures var s, st' := st.jobs[0], LogRuns.ProcessOne(st);
            var w := st.writers[s];
            && st'.jobs == st.jobs[1..] && |st'.firsts| == |st.firsts| && |st'.tags| == |st.tags|
            && st'.writers == st.writers[s := if w.partial.Some? then AfterRewrite(w) else AfterAppend(w, st.offset)]
  {
    hide Image, WriteAt, BigEndian;
  }
}
