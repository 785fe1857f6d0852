/** The store objects data is packed into and unpacked from. A pack or unpack call that the source
    ends with an exception returns false here. */
module AmorphStores {
  import opened Bytes

  /** memcpy(&dst[at], bytes) */
  method Memcpy(dst: array<Byte>, at: nat, bytes: seq<Byte>)
    requires at + |bytes| <= dst.Length
    modifies dst
    ensures dst[..] == old(dst[..at]) + bytes + old(dst[at + |bytes|..])
  {
    forall i | 0 <= i < |bytes| {
      dst[at + i] := bytes[i];
    }
  }

  /** Once something did not fit, nothing fits any more until the store is re-used. */
  class AmorphStore {
    const stor: array<Byte>
    var index: nat
    var choked: bool
    var markPoint: nat

    ghost predicate Valid()
      reads this
    {
      index <= stor.Length
    }

    ghost function Contents(): seq<Byte>
      reads this, stor
      requires Valid()
    {
      stor[..index]
    }

    constructor (capacity: nat)
      ensures Valid() && fresh(stor) && stor.Length == capacity && Contents() == [] && !choked
    {
      stor := new Byte[capacity](_ => 0);
      index, choked, markPoint := 0, false, 0;
    }

    method InternalCheckForRoom(size: nat) returns (ok: bool)
      modifies this`choked
      ensures ok <==> !old(choked) && index + size <= stor.Length
      ensures choked == (old(choked) || !ok)
    {
      ok := !choked && index + size <= stor.Length;
      if !ok {
        choked := true;
      }
    }

    /** packData of a byte string; the numeric overloads do the same with big-endian bytes. */
    method PackData(bytes: seq<Byte>) returns (ok: bool)
      requires Valid()
      modifies this`index, this`choked, stor
      ensures Valid()
      ensures ok <==> !old(choked) && old(index) + |bytes| <= stor.Length
      ensures choked == (old(choked) || !ok)
      ensures Contents() == old(Contents()) + if ok then bytes else []
      ensures stor[..old(index)] == old(Contents())
      ensures forall i | old(index) + |bytes| <= i < stor.Length :: stor[i] == old(stor[i])
    {
      ok := InternalCheckForRoom(|bytes|);
      if ok {
        Memcpy(stor, index, bytes);
        index := index + |bytes|;
      }
    }

    method StartBigMark() returns (ok: bool)
      requires Valid()
      modifies this`index, this`choked, this`markPoint
      ensures Valid()
      ensures ok <==> !old(choked) && old(index) + 4 <= stor.Length
      ensures choked == (old(choked) || !ok)
      ensures index == old(index) + (if ok then 4 else 0)
      ensures ok ==> markPoint == old(index)
    {
      ok := InternalCheckForRoom(4);
      if ok {
        markPoint := index;
        index := index + 4;
      }
    }

    /** Write the number of bytes packed since the mark into the mark. */
    method EndBigMark()
      requires Valid() && markPoint + 4 <= index
      modifies this`markPoint, stor
      ensures Valid()
      ensures Contents() == old(stor[..markPoint]) + BigEndian((index - old(markPoint) - 4) % TWO32, 4)
                            + old(stor[markPoint + 4..index])
    {
      Memcpy(stor, markPoint, BigEndian((index - markPoint - 4) % TWO32, 4));
      markPoint := 0;
    }

    method SetSize(size: nat)
      requires size <= stor.Length
      modifies this`index
      ensures Valid() && index == size
    {
      index := size;
    }

    method ReUse()
      modifies this`index, this`choked
      ensures Valid() && Contents() == [] && !choked
    {
      index, choked := 0, false;
    }
  }

  class AmorphReStore {
    const stor: array<Byte>
    var index: nat
    var fillLevel: nat
    var exhausted: bool

    ghost predicate Valid()
      reads this
    {
      index <= fillLevel <= stor.Length
    }

    /** The bytes received and not yet dropped. */
    ghost function Data(): seq<Byte>
      reads this, stor
      requires Valid()
    {
      stor[..fillLevel]
    }

    /** The bytes still to be unpacked. */
    ghost function Left(): seq<Byte>
      reads this, stor
      requires Valid()
    {
      stor[index..fillLevel]
    }

    constructor (capacity: nat)
      ensures Valid() && fresh(stor) && stor.Length == capacity && Data() == [] && index == 0
    {
      stor := new Byte[capacity](_ => 0);
      index, fillLevel, exhausted := 0, 0, false;
    }

    function Size(): nat
      reads this
      requires Valid()
    {
      fillLevel - index
    }

    predicate IsExhausted()
      reads this
    {
      exhausted || index >= fillLevel
    }

    /** Add received bytes behind the ones held. */
    method Append(bytes: seq<Byte>)
      requires Valid() && fillLevel + |bytes| <= stor.Length
      modifies this`fillLevel, this`exhausted, stor
      ensures Valid() && Data() == old(Data()) + bytes && !exhausted
    {
      Memcpy(stor, fillLevel, bytes);
      fillLevel := fillLevel + |bytes|;
      exhausted := false;
    }

    method UnPackData(n: nat) returns (ok: bool, bytes: seq<Byte>)
      requires Valid()
      modifies this`index, this`exhausted
      ensures Valid() && ok == (old(Size()) >= n)
      ensures ok ==> bytes == old(Left())[..n] && index == old(index) + n && exhausted == old(exhausted)
      ensures !ok ==> exhausted && index == old(index)
    {
      ok := index + n <= fillLevel;
      if ok {
        bytes := stor[index..index + n];
        assert bytes == Left()[..n];
        index := index + n;
      } else {
        bytes := [];
        exhausted := true;
      }
    }

    /** Look at the length mark without moving on. */
    method PeekBigMark() returns (ok: bool, n: nat)
      requires Valid()
      modifies this`exhausted
      ensures ok == (Size() >= 4) && exhausted == (old(exhausted) || !ok)
      ensures ok ==> n == FromBigEndian(Left()[..4]) < TWO32
    {
      ok := index + 4 <= fillLevel;
      n := 0;
      if ok {
        n := FromBigEndian(stor[index..index + 4]);
        FromBigEndianBound(stor[index..index + 4]);
        Pow256Values();
        assert Left()[..4] == stor[index..index + 4];
      } else {
        exhausted := true;
      }
    }

    method SetIndex(at: nat)
      requires Valid() && at <= fillLevel
      modifies this`index
      ensures Valid() && index == at
    {
      index := at;
    }

    method ReUse()
      modifies this
      ensures Valid() && index == 0 && fillLevel == 0 && !exhausted
    {
      index, fillLevel, exhausted := 0, 0, false;
    }
  }
}
