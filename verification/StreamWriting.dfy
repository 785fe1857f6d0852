/** FileStreamWrite as an object: a buffer that is being filled, and a list of buffers on their way to
    the file. `View` is the writer of StreamWriters that the object stands for. */
module StreamWriting {
  import opened Bytes
  import opened ControlBlocks
  import opened StreamWriters
  import opened MessageBuffers

  /** The unused part of a buffer that is on its way to the file is zero. */
  ghost predicate Cleared(b: DDFFMessageBuffer)
    requires b.Valid()
    reads b, b.buffer
  {
    forall i | b.fill <= i < b.capacity :: b.buffer[i] == 0
  }

  lemma ClearedArea(b: DDFFMessageBuffer)
    requires b.Valid() && Cleared(b)
    ensures b.buffer[HEADER..] == b.View().body + Zeros(b.capacity - Fill(b.View()))
    ensures Fill(b.View()) == b.fill
  {
  }

  lemma StillCleared(b: DDFFMessageBuffer, area: seq<Byte>, fill: nat)
    requires b.Valid() && area == b.buffer[HEADER..] && fill == b.fill
    requires area[fill - HEADER..] == Zeros(b.capacity - fill)
    ensures Cleared(b)
  {
    forall i | b.fill <= i < b.capacity
      ensures b.buffer[i] == 0
    {
      assert b.buffer[i] == area[fill - HEADER..][i - fill];
    }
  }

  class FileStreamWrite {
    const stream: nat
    const capacity: nat
    var buffers: seq<DDFFMessageBuffer>
    var current: DDFFMessageBuffer?
    var bufferNum: nat
    var partialBlock: Option<nat>
    var previousBlock: Option<nat>
    /** The buffers of the list, as values. */
    ghost var queued: seq<Buffer>

    /** The objects that make up the stream. */
    ghost var Repr: set<object>

    ghost predicate ListValid()
      reads this, Repr
    {
      && |queued| == |buffers|
      && (forall i | 0 <= i < |buffers| ::
            && buffers[i] in Repr && buffers[i].buffer in Repr
            && buffers[i].Valid() && buffers[i].capacity == capacity && Cleared(buffers[i]) && buffers[i].View() == queued[i])
      && forall i, j | 0 <= i < j < |buffers| :: buffers[i] != buffers[j] && buffers[i].buffer != buffers[j].buffer
    }

    ghost predicate Valid()
      reads this, Repr
    {
      && this in Repr && stream < 0x1_0000 && HEADER < capacity < TWO32
      && ListValid()
      && (current != null ==>
            && current in Repr && current.buffer in Repr
            && current.Valid() && current.capacity == capacity && current.Partial()
            && forall i | 0 <= i < |buffers| :: buffers[i] != current && buffers[i].buffer != current.buffer)
    }

    ghost function View(): Writer
      requires Valid()
      reads this, Repr
    {
      Writer(stream, capacity, queued, if current == null then None else Some(current.View()), bufferNum, partialBlock, previousBlock)
    }

    constructor (stream: nat, capacity: nat)
      requires stream < 0x1_0000 && HEADER < capacity < TWO32
      ensures Valid() && View() == NewWriter(stream, capacity) && fresh(Repr)
      ensures current != null
    {
      this.stream, this.capacity := stream, capacity;
      var b := new DDFFMessageBuffer(capacity);
      current := b;
      buffers, bufferNum, partialBlock, previousBlock := [], 0, None, None;
      queued := [];
      Repr := {this, b, b.buffer};
    }

    /** The current buffer is full: it goes to the list, and a spare one takes its place. */
    method SwitchBuffer()
      requires stream < 0x1_0000 && HEADER < capacity < TWO32 && ListValid()
      requires current != null && current.Valid() && current.capacity == capacity && !current.Partial()
      requires forall i | 0 <= i < |buffers| :: buffers[i] != current && buffers[i].buffer != current.buffer
      requires this in Repr && current in Repr && current.buffer in Repr
      modifies this
      ensures fresh(Repr - old(Repr))
      ensures Valid() && current != null && fresh(current) && fresh(current.buffer)
      ensures buffers == old(buffers + [current]) && queued == old(queued + [current.View()])
      ensures current.View() == EMPTY
      ensures bufferNum == old(bufferNum) && partialBlock == old(partialBlock) && previousBlock == old(previousBlock)
    {
      ListBack(current);
      current := new DDFFMessageBuffer(capacity);
      Repr := Repr + {current, current.buffer};
    }

    /** One byte through the write iterator; tells whether a buffer was handed on. */
    method Increment(x: Byte) returns (handed: bool)
      requires Valid() && current != null
      modifies this, current, current.buffer
      ensures Valid() && Open(old(View())) && View() == Put(old(View()), x)
      ensures handed <==> |buffers| > old(|buffers|)
      ensures fresh(Repr - old(Repr))
    {
      ghost var was := View();
      current.Write([x]);
      handed := !current.Partial();
      if handed {
        SwitchBuffer();
      }
      assert View() == Put(was, x);
    }

    /** What fits is written, and the buffer handed on. */
    method FillUp(data: seq<Byte>)
      requires Valid() && current != null && current.fill + |data| == capacity
      modifies this, current, current.buffer
      ensures Valid() && current != null && fresh(current) && fresh(current.buffer)
      ensures Open(old(View())) && Open(View()) && |buffers| == old(|buffers|) + 1 && fresh(Repr - old(Repr))
      ensures var b := old(View()).current.value; View() == Fed(old(View()), b.(body := b.body + data))
    {
      ghost var was := View();
      current.Write(data);
      SwitchBuffer();
      ghost var b := was.current.value;
      assert View() == Fed(was, b.(body := b.body + data));
    }

    /** Returns how many buffers were handed on for writing. */
    method WriteData(data: seq<Byte>) returns (handed: nat)
      requires Valid() && current != null
      modifies this, current, current.buffer
      ensures Valid() && current != null && Open(old(View())) && View() == StreamWriters.Write(old(View()), data)
      ensures handed == |buffers| - old(|buffers|)
      ensures fresh(Repr - old(Repr))
      decreases |data|
    {
      if current.fill + |data| < current.capacity {
        current.Write(data);
        handed := 0;
      } else {
        var room := current.capacity - current.fill;
        FillUp(data[..room]);
        var rest := 0;
        if |data| > room {
          rest := WriteData(data[room..]);
        }
        handed := 1 + rest;
      }
    }

    method MarkItemStart()
      requires Valid() && current != null
      modifies current
      ensures Valid() && Open(old(View())) && View() == MarkItem(old(View()))
    {
      current.MarkOffsets();
    }

    method MarkNewSegment()
      requires Valid() && current != null
      modifies current
      ensures Valid() && Open(old(View())) && View() == MarkSegment(old(View()))
    {
      current.startOffset := 0;
    }

    /** write_list_back: a buffer joins the list. */
    method ListBack(b: DDFFMessageBuffer)
      requires ListValid() && b.Valid() && b.capacity == capacity && Cleared(b)
      requires forall i | 0 <= i < |buffers| :: buffers[i] != b && buffers[i].buffer != b.buffer
      requires b in Repr && b.buffer in Repr
      modifies `buffers, `queued
      ensures ListValid() && buffers == old(buffers) + [b] && queued == old(queued) + [b.View()]
    {
      queued := queued + [b.View()];
      buffers := buffers + [b];
    }

    /** Hands on a copy of the current buffer, or in the end the buffer itself. */
    method CloseOff(intermediate: bool) returns (handed: bool)
      requires Valid()
      modifies this, current, if current == null then {} else {current.buffer}
      ensures Valid() && View() == StreamWriters.CloseOff(old(View()), intermediate)
      ensures handed <==> |buffers| > old(|buffers|)
      ensures fresh(Repr - old(Repr))
    {
      if current == null {
        return false;
      }
      if intermediate {
        CopyToList();
      } else {
        current.ZeroUnused();
        ListBack(current);
        current := null;
      }
      handed := true;
    }

    /** A copy of the current buffer, which takes over the start of the stretch. */
    method Copy() returns (copy: DDFFMessageBuffer)
      requires current != null && current.Valid() && current.capacity == capacity && current.Partial()
      modifies current`startOffset
      ensures fresh(copy) && fresh(copy.buffer) && copy.Valid() && copy.capacity == capacity && Cleared(copy)
      ensures copy.View() == old(current.View())
      ensures current.Valid() && current.Partial() && current.View() == old(current.View()).(start := None)
    {
      copy := new DDFFMessageBuffer(capacity);
      var copied := copy.Assign(current);
      copy.ZeroUnused();
    }

    method CopyToList()
      requires Valid() && current != null
      modifies `buffers, `queued, `Repr, current`startOffset
      ensures fresh(Repr - old(Repr))
      ensures Valid() && View() == StreamWriters.CloseOff(old(View()), true) && |buffers| > old(|buffers|)
    {
      var copy := Copy();
      Repr := Repr + {copy, copy.buffer};
      ListBack(copy);
    }

    /** The first buffer of the list, with its header. */
    method GetBufferToWrite() returns (b: DDFFMessageBuffer)
      requires Valid() && buffers != []
      modifies this`bufferNum, buffers[0].buffer
      ensures Valid() && buffers == old(buffers) && b == buffers[0]
      ensures queued != [] && Fill(queued[0]) <= capacity && b.buffer[..] == Image(old(View()))
      ensures View() == old(View()).(num := if Fill(queued[0]) < capacity then old(bufferNum) else old(bufferNum) + 1)
    {
      hide EncodeBlock, Image, Zeros;
      b := buffers[0];
      HeadFirst();
      if !b.Partial() {
        bufferNum := bufferNum + 1;
      }
    }

    /** What the file handler needs for a write job: the bytes of the block, the start of a stretch in it,
        whether it is to be rewritten, and where it goes. */
    method PrepareBlock() returns (bytes: seq<Byte>, start: nat, again: bool, at: Option<nat>, previous: Option<nat>)
      requires Valid() && buffers != []
      modifies this`bufferNum, buffers[0].buffer
      ensures Valid() && buffers == old(buffers)
      ensures var w := old(View());
              && w.queue != [] && Fill(w.queue[0]) <= w.capacity && bytes == Image(w)
              && View() == w.(num := if again then w.num else w.num + 1)
              && again == (Fill(w.queue[0]) < w.capacity) && at == w.partial && previous == w.previous
              && (w.queue[0].start.Some? ==> start < UNSET)
              && start == if w.queue[0].start.Some? then w.queue[0].start.value else UNSET
    {
      hide Image, EncodeBlock;
      var b := GetBufferToWrite();
      return b.buffer[..], b.startOffset, b.Partial(), partialBlock, previousBlock;
    }

    method HeadFirst()
      requires Valid() && buffers != []
      modifies buffers[0].buffer
      ensures Valid() && View() == old(View()) && queued != [] && Fill(queued[0]) <= capacity
      ensures buffers[0].buffer[..] == Image(View())
    {
      hide EncodeBlock, Zeros;
      var b := buffers[0];
      ClearedArea(b);
      b.WriteHeader(stream, bufferNum);
      StillCleared(b, b.buffer[HEADER..], b.fill);
    }

    method WritingComplete()
      requires Valid() && buffers != []
      modifies this`buffers, this`queued
      ensures Valid() && View() == old(View()).(queue := old(queued)[1..])
      ensures buffers == old(buffers)[1..]
    {
      buffers := buffers[1..];
      queued := queued[1..];
    }

    /** After the first buffer went to file at `at`: whether that block is to be rewritten, where the last
        block of the stream is, and the buffer is done with. */
    method BlockDone(at: nat, partial: bool, appended: bool)
      requires Valid() && buffers != []
      modifies `partialBlock, `previousBlock, `buffers, `queued
      ensures Valid()
      ensures View() == old(View()).(queue := old(queued)[1..], partial := if partial then Some(at) else None,
                                             previous := if appended then Some(at) else old(previousBlock))
    {
      partialBlock := if partial then Some(at) else None;
      if appended {
        previousBlock := Some(at);
      }
      WritingComplete();
    }
  }
}
