/** The fill packer: two byte stores in turn, one being filled while the other is cut into
    messages. `View` is the packer of FillTransfer that the object stands for. */
module FillPackers {
  import opened Bytes
  import opened FillFraming
  import opened FillTransfer
  import opened AmorphStores

  class FillPacker {
    const first: AmorphStore
    const second: AmorphStore
    const bufferSize: nat
    var toFill: nat           // store_to_fill
    var toSend: nat           // store_to_send
    var bytesToSend: nat
    var indexToSend: nat
    var workQueue: seq<Obj>
    var dropped: seq<Obj>     // reported as too large

    function Store(k: nat): AmorphStore {
      if k == 0 then first else second
    }

    ghost predicate Valid()
      reads this, first, second
    {
      && first != second && first.stor != second.stor
      && first.stor.Length == second.stor.Length == bufferSize
      && first.Valid() && second.Valid()
      && toFill < 2 && toSend < 2
      && (toFill == toSend ==> bytesToSend == 0 && indexToSend == 0)
      && (toFill != toSend ==> indexToSend + bytesToSend <= Store(toSend).index)
      && AllPackable(workQueue)
    }

    ghost function View(): Packer
      reads this, first, second, first.stor, second.stor
      requires Valid()
    {
      Packer(bufferSize, Store(toFill).Contents(), Store(toFill).choked,
             if toSend == toFill then [] else Store(toSend).Contents(),
             indexToSend, bytesToSend, workQueue, dropped)
    }

    constructor (bufferSize: nat)
      ensures Valid() && View() == StartPacker(bufferSize)
      ensures fresh(first) && fresh(second) && fresh(first.stor) && fresh(second.stor)
    {
      this.bufferSize := bufferSize;
      first := new AmorphStore(bufferSize);
      second := new AmorphStore(bufferSize);
      toFill, toSend, bytesToSend, indexToSend := 0, 0, 0, 0;
      workQueue, dropped := [], [];
    }

    method Push(obj: Obj)
      requires Valid() && Packable(obj)
      modifies this`workQueue
      ensures Valid() && View() == old(View()).(queue := old(workQueue) + [obj])
    {
      workQueue := workQueue + [obj];
    }

    /** Channel id, length mark, data; the mark is written when the length is known. */
    method PackOneSet(store: AmorphStore, obj: Obj) returns (ok: bool)
      requires store.Valid() && Packable(obj)
      modifies store`index, store`choked, store`markPoint, store.stor
      ensures store.Valid() && store.choked == (old(store.choked) || !ok)
      ensures ok <==> !old(store.choked) && old(store.index) + |Frame(obj)| <= store.stor.Length
      ensures ok ==> store.Contents() == old(store.Contents()) + Frame(obj)
      ensures old(store.index) <= store.index && store.stor[..old(store.index)] == old(store.Contents())
    {
      ghost var before := store.Contents();
      ok := PackId(store, obj);
      if !ok { return; }
      ghost var id := [obj.location] + BigEndian(obj.channel, 2);
      ok := PackMarked(store, obj.payload);
      assert before == (before + id)[..|before|] == store.stor[..|before + id|][..|before|];
      if ok {
        MarkedFrame(before, id, obj, store.Contents());
      }
    }

    method PackId(store: AmorphStore, obj: Obj) returns (ok: bool)
      requires store.Valid()
      modifies store`index, store`choked, store.stor
      ensures store.Valid() && store.choked == (old(store.choked) || !ok)
      ensures ok <==> !old(store.choked) && old(store.index) + 3 <= store.stor.Length
      ensures ok ==> store.Contents() == old(store.Contents()) + ([obj.location] + BigEndian(obj.channel, 2))
      ensures old(store.index) <= store.index && store.stor[..old(store.index)] == old(store.Contents())
    {
      ghost var before := store.Contents();
      ok := store.PackData([obj.location]);
      if !ok { return; }
      ok := store.PackData(BigEndian(obj.channel, 2));
      assert before == store.stor[..|before| + 1][..|before|];
    }

    /** A length mark and the data, packed in between startBigMark and endBigMark. */
    method PackMarked(store: AmorphStore, payload: seq<Byte>) returns (ok: bool)
      requires store.Valid() && |payload| < 0x1_0000_0000
      modifies store`index, store`choked, store`markPoint, store.stor
      ensures store.Valid() && store.choked == (old(store.choked) || !ok)
      ensures ok <==> !old(store.choked) && old(store.index) + 4 + |payload| <= store.stor.Length
      ensures ok ==> store.Contents() == old(store.Contents()) + BigEndian(|payload|, 4) + payload
      ensures old(store.index) <= store.index && store.stor[..old(store.index)] == old(store.Contents())
    {
      ghost var before := store.Contents();
      ok := store.StartBigMark();
      if !ok { return; }
      ghost var marked := store.Contents();
      ok := store.PackData(payload);
      assert store.stor[..|marked|] == marked && marked[..|before|] == before;
      assert store.stor[..|before|] == store.stor[..|marked|][..|before|];
      if !ok { return; }
      assert store.stor[|marked|..store.index] == store.Contents()[|marked|..] == payload;
      ghost var size := store.index - store.markPoint - 4;
      assert size == |payload| && size % 0x1_0000_0000 == size;
      assert store.stor[..store.markPoint] == before;
      store.EndBigMark();
      assert store.stor[..|before|] == store.Contents()[..|before|];
    }

    static lemma MarkedFrame(before: seq<Byte>, id: seq<Byte>, obj: Obj, contents: seq<Byte>)
      requires id == [obj.location] + BigEndian(obj.channel, 2)
      requires contents == before + id + BigEndian(|obj.payload|, 4) + obj.payload
      ensures contents == before + Frame(obj)
    {
      assert Frame(obj) == id + BigEndian(|obj.payload|, 4) + obj.payload;
    }

    /** Pack the object at the front of the queue; if it does not fit, restore the level the store
        had, and throw the object out when the store was empty. */
    method PackFront() returns (fits: bool)
      requires Valid() && workQueue != [] && !Store(toFill).choked
      modifies this`workQueue, this`dropped, Store(toFill), Store(toFill).stor
      ensures Valid()
      ensures var was, frame := old(View()), Frame(old(workQueue)[0]);
              && fits == (|was.fill| + |frame| <= bufferSize)
              && View() == if fits then was.(fill := was.fill + frame, queue := was.queue[1..])
                           else if was.fill == [] then
                             was.(choked := true, queue := was.queue[1..], dropped := was.dropped + [was.queue[0]])
                           else was.(choked := true)
    {
      var store := Store(toFill);
      var oldLevel := store.index;
      ghost var was := View();
      var front := workQueue[0];
      fits := PackOneSet(store, front);
      if fits {
        workQueue := workQueue[1..];
      } else {
        if oldLevel == 0 {
          dropped := dropped + [front];
          workQueue := workQueue[1..];
        }
        store.SetSize(oldLevel);
        assert store.Contents() == was.fill;
      }
    }

    /** Pack waiting objects until the queue is empty or one does not fit. */
    method PackWork()
      requires Valid()
      modifies this`workQueue, this`dropped, Store(toFill), Store(toFill).stor
      ensures Valid() && View() == FillTransfer.PackWork(old(View()))
    {
      hide Frame;
      ghost var was := View();
      var fits := true;
      while fits && workQueue != [] && !Store(toFill).choked
        invariant Valid() && Store(toFill) == old(Store(toFill))
        invariant FillTransfer.PackWork(View()) == FillTransfer.PackWork(was)
        invariant !fits ==> Store(toFill).choked
        decreases |workQueue|, fits
      {
        fits := PackFront();
      }
    }

    /** Turn to the other store when this one is used up and there is something in the other. */
    method SwapIfSent()
      requires Valid()
      modifies this`bytesToSend, this`indexToSend, this`toSend, this`toFill, Store(1 - toFill)
      ensures Valid() && View() == SwapStores(old(View()))
    {
      if bytesToSend == 0 && Store(toFill).index != 0 {
        bytesToSend := Store(toFill).index;
        indexToSend := 0;
        toSend := toFill;
        toFill := 1 - toFill;
        Store(toFill).ReUse();
      }
    }

    /** The next n bytes of the store that is sent are copied out. */
    method CopyOut(buff: array<Byte>, at: nat, n: nat)
      requires Valid() && PackerShaped(View()) && 0 < bytesToSend && n <= bytesToSend && at + n <= buff.Length
      requires buff != first.stor && buff != second.stor
      modifies buff
      ensures Valid() && View() == old(View())
      ensures buff[..] == old(buff[..at]) + View().send[indexToSend..indexToSend + n] + old(buff[at + n..])
    {
      var source := Store(toSend).stor;
      var bytes := source[indexToSend..indexToSend + n];
      SubSlice(source[..], Store(toSend).index, indexToSend, indexToSend + n);
      assert bytes == View().send[indexToSend..indexToSend + n];
      Memcpy(buff, at, bytes);
    }

    method CutSlice(buff: array<Byte>, at: nat, size: nat) returns (n: nat)
      requires Valid() && PackerShaped(View()) && at + size <= buff.Length
      requires buff != first.stor && buff != second.stor
      modifies this`bytesToSend, this`indexToSend, buff
      ensures Valid() && n <= size
      ensures var p, slice := Slice(old(View()), size).0, Slice(old(View()), size).1;
              && View() == p && n == |slice|
              && buff[..] == old(buff[..at]) + slice + old(buff[at + n..])
    {
      ghost var was := View();
      if bytesToSend == 0 || size < MIN_FILL {
        n := 0;
        assert buff[..] == buff[..at] + [] + buff[at..];
      } else {
        n := if size < bytesToSend then size else bytesToSend;
        CopyOut(buff, at, n);
        SetSent(n);
      }
    }

    static lemma SubSlice(s: seq<Byte>, end: nat, i: nat, j: nat)
      requires i <= j <= end <= |s|
      ensures s[..end][i..j] == s[i..j]
    {}

    method SetSent(n: nat)
      requires Valid() && n <= bytesToSend
      modifies this`bytesToSend, this`indexToSend
      ensures Valid() && View() == old(View()).(index := old(indexToSend) + n, left := old(bytesToSend) - n)
    {
      indexToSend := indexToSend + n;
      bytesToSend := bytesToSend - n;
    }

    /** Write the next slice into the message, behind the regularly packed bytes. */
    method StuffMessage(buff: array<Byte>, at: nat, size: nat) returns (n: nat)
      requires Valid() && at + size <= buff.Length
      requires buff != first.stor && buff != second.stor
      modifies this, first, second, first.stor, second.stor, buff
      ensures Valid() && n <= size
      ensures PackerShaped(old(View()))
      ensures var cut := FillTransfer.StuffMessage(old(View()), size);
              var p, slice := cut.0, cut.1;
              && View() == p && n == |slice|
              && buff[..] == old(buff[..at]) + slice + old(buff[at + n..])
    {
      PackWorkShape(View());
      PackWork();
      SwapIfSent();
      n := CutSlice(buff, at, size);
    }
  }
}
