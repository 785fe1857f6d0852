/** DDFFMessageBuffer: the memory of one block, with a fill level, the place of the first object and the
    place where a stretch of recording starts. */
module MessageBuffers {
  import opened Bytes
  import opened ControlBlocks
  import opened StreamWriters
  import AmorphStores

  /** std::numeric_limits<uint32_t>::max(): no start of a stretch is asked for. */
  const UNSET: nat := 0xffff_ffff

  class DDFFMessageBuffer {
    const capacity: nat
    const buffer: array<Byte>
    var fill: nat
    var objectOffset: nat
    var startOffset: nat

    ghost predicate Valid()
      reads this, buffer
    {
      && buffer.Length == capacity && HEADER < capacity < TWO32 && HEADER <= fill <= capacity
      && objectOffset <= fill && (startOffset <= fill || startOffset == UNSET)
    }

    /** The buffer as a value. */
    ghost function View(): Buffer
      requires Valid()
      reads this, buffer
    {
      Buffer(buffer[HEADER..fill], objectOffset, if startOffset == UNSET then None else Some(startOffset))
    }

    /** A spare buffer, set up for the data of a stream. */
    constructor (capacity: nat)
      requires HEADER < capacity < TWO32
      ensures Valid() && fresh(buffer) && this.capacity == capacity && View() == EMPTY
    {
      this.capacity := capacity;
      buffer := new Byte[capacity](_ => 0);
      fill, objectOffset, startOffset := HEADER, 0, UNSET;
    }

    predicate Partial()
      reads this
    {
      fill < capacity
    }

    method Write(data: seq<Byte>)
      requires Valid() && fill + |data| <= capacity
      modifies `fill, buffer
      ensures Valid() && View() == old(View()).(body := old(View()).body + data)
      ensures fill == old(fill) + |data|
    {
      ghost var was := buffer[HEADER..fill];
      AmorphStores.Memcpy(buffer, fill, data);
      fill := fill + |data|;
      assert buffer[HEADER..fill] == was + data;
    }

    method ZeroUnused()
      requires Valid()
      modifies buffer
      ensures Valid() && View() == old(View())
      ensures forall i | fill <= i < capacity :: buffer[i] == 0
    {
      forall i | fill <= i < capacity {
        buffer[i] := 0;
      }
      assert buffer[HEADER..fill] == old(buffer[HEADER..fill]);
    }

    /** operator=: the data is copied if it fits; the start of the stretch moves over to the copy. */
    method Assign(o: DDFFMessageBuffer) returns (ok: bool)
      requires Valid() && o.Valid() && (o != this ==> o.buffer != buffer)
      modifies this`fill, this`objectOffset, this`startOffset, buffer, o`startOffset
      ensures Valid() && o.Valid() && ok == (o == this || o.fill <= capacity)
      ensures ok && o != this ==> View() == old(o.View()) && o.View() == old(o.View()).(start := None)
      ensures !ok || o == this ==> View() == old(View()) && o.View() == old(o.View())
    {
      if o == this {
        return true;
      }
      if capacity < o.fill {
        return false;
      }
      ok := true;
      fill, objectOffset, startOffset := o.fill, o.objectOffset, o.startOffset;
      o.startOffset := UNSET;
      AmorphStores.Memcpy(buffer, 0, o.buffer[..o.fill]);
      assert buffer[HEADER..fill] == o.buffer[..o.fill][HEADER..];
    }

    method MarkOffsets()
      requires Valid() && fill != UNSET
      modifies `objectOffset, `startOffset
      ensures Valid()
      ensures var b := old(View());
              View() == b.(mark := if b.mark == 0 then Fill(b) else b.mark,
                           start := if b.start == Some(0) then Some(Fill(b)) else b.start)
    {
      if objectOffset == 0 {
        objectOffset := fill;
      }
      if startOffset == 0 {
        startOffset := fill;
      }
    }

    /** control_block_write: the header goes in front of the data. */
    method WriteHeader(stream: nat, num: nat)
      requires Valid() && stream < 0x1_0000
      modifies buffer
      ensures Valid() && View() == old(View())
      ensures buffer[..] == EncodeBlock(stream, num, capacity, fill, objectOffset, old(buffer[HEADER..]))
      ensures buffer[HEADER..] == old(buffer[HEADER..])
    {
      hide Crc16, BigEndian, Checked;
      ghost var was := buffer[..];
      var link, checked := BigEndian(NO_NEXT, 8), Checked(stream, capacity, fill, objectOffset, num);
      AmorphStores.Memcpy(buffer, 0, link);
      AmorphStores.Memcpy(buffer, CHECKED_FROM, checked);
      HeaderParts(was, link, checked, []);
      var checksum := BigEndian(Crc16(buffer[CHECKED_FROM..]), 2);
      AmorphStores.Memcpy(buffer, 8, checksum);
      HeaderParts(was, link, checked, checksum);
      assert buffer[HEADER..fill] == buffer[HEADER..][..fill - HEADER] == was[HEADER..][..fill - HEADER];
    }
  }

  /** The three parts of a header, one after the other, in front of the data. */
  lemma HeaderParts(was: seq<Byte>, link: seq<Byte>, checked: seq<Byte>, checksum: seq<Byte>)
    requires |was| > HEADER && |link| == 8 && |checked| == HEADER - CHECKED_FROM && |checksum| in {0, 2}
    ensures var linked := was[..0] + link + was[8..];
            var filled := linked[..CHECKED_FROM] + checked + linked[CHECKED_FROM + |checked|..];
            && filled[CHECKED_FROM..] == checked + was[HEADER..]
            && (|checksum| == 2 ==>
                  var all := filled[..8] + checksum + filled[10..];
                  all == link + checksum + (checked + was[HEADER..]) && all[HEADER..] == was[HEADER..])
  {
  }
}
