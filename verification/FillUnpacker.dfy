/** The fill unpacker: a receive buffer per sender, appended to by every message and only emptied
    as a whole. `View` is the unpacker of FillTransfer that one sender's buffer stands for. */
module FillUnpackers {
  import opened Bytes
  import opened FillFraming
  import opened FillTransfer
  import opened AmorphStores

  /** The objects for channels that have an end in this node, the others are skipped. */
  function Local(os: seq<Obj>, here: set<nat>): (r: seq<Obj>)
    ensures |r| <= |os|
  {
    if os == [] then []
    else Local(os[..|os| - 1], here) + if os[|os| - 1].channel in here then [os[|os| - 1]] else []
  }

  lemma {:induction false} LocalConcat(a: seq<Obj>, b: seq<Obj>, here: set<nat>)
    ensures Local(a + b, here) == Local(a, here) + Local(b, here)
  {
    if b == [] {
      assert a + b == a;
    } else {
      LocalConcat(a, b[..|b| - 1], here);
      assert (a + b)[..|a + b| - 1] == a + b[..|b| - 1];
    }
  }

  /** `at` says where the picked objects are: in order, and at all places where the channel has an end here. */
  ghost predicate PickedAt(os: seq<Obj>, here: set<nat>, picked: seq<Obj>, at: seq<nat>) {
    && |at| == |picked|
    && (forall k | 0 <= k < |at| :: at[k] < |os| && picked[k] == os[at[k]])
    && (forall j, k | 0 <= j < k < |at| :: at[j] < at[k])
    && forall i | 0 <= i < |os| :: os[i].channel in here <==> i in at
  }

  lemma PickedMore(os: seq<Obj>, here: set<nat>, picked: seq<Obj>, at: seq<nat>, o: Obj)
    requires PickedAt(os, here, picked, at)
    ensures if o.channel in here then PickedAt(os + [o], here, picked + [o], at + [|os|])
            else PickedAt(os + [o], here, picked, at)
  {
    var os', at' := os + [o], if o.channel in here then at + [|os|] else at;
    forall i | 0 <= i < |os'|
      ensures os'[i].channel in here <==> i in at'
    {
      if i < |os| {
        assert os'[i] == os[i] && (os[i].channel in here <==> i in at);
      } else {
        assert i !in at;
      }
    }
  }

  /** Exactly the objects for channels with an end here, in their order, each as often as it came. */
  lemma {:induction false} LocalIs(os: seq<Obj>, here: set<nat>) returns (at: seq<nat>)
    ensures PickedAt(os, here, Local(os, here), at)
  {
    if os == [] {
      at := [];
    } else {
      hide PickedAt;
      var last := |os| - 1;
      at := LocalIs(os[..last], here);
      PickedMore(os[..last], here, Local(os[..last], here), at, os[last]);
      assert os[..last] + [os[last]] == os;
      if os[last].channel in here {
        at := at + [last];
      } else {
        assert Local(os, here) == Local(os[..last], here);
      }
    }
  }

  /** No complete object declares a length so large that adding the mark's own 4 bytes wraps
      around in 32 bits. Every packed object satisfies this. */
  predicate NoHugeMark(s: seq<Byte>)
    decreases |s|
  {
    |s| > 8 ==>
      DeclaredSize(s) + MARK_BYTES < 0x1_0000_0000
      && (Complete(s) ==> NoHugeMark(s[7 + DeclaredSize(s)..]))
  }

  lemma HugeMarkStep(s: seq<Byte>)
    requires NoHugeMark(s) && Complete(s)
    ensures NoHugeMark(s[7 + DeclaredSize(s)..]) && 7 + DeclaredSize(s) <= |s|
  {}

  lemma TooShort(s: seq<Byte>)
    ensures |s| <= 8 ==> !Complete(s)
  {}

  lemma {:induction false} FramedHasNoHugeMark(os: seq<Obj>, s: seq<Byte>)
    requires AllPackable(os) && s <= Frames(os)
    ensures NoHugeMark(s)
  {
    if |s| > 8 {
      assert os != [];
      PrefixHead(os, s);
      FrameFields(os[0], []);
      if |s| < |Frame(os[0])| {
        CutFrameNotTaken(os[0], |s|);
        assert s[3..7] == (Frame(os[0]) + [])[3..7];
      } else {
        FrameFields(os[0], s[|Frame(os[0])|..]);
        InsideTail(os, 1);
        FramedHasNoHugeMark(os[1..], s[|Frame(os[0])|..]);
      }
    }
  }

  /** So far `took` was taken from `all`, in `used` bytes, and `left` remains. */
  ghost predicate Progress(all: seq<Byte>, took: seq<Obj>, left: seq<Byte>, used: nat) {
    Parse(all) == (took + Parse(left).0, used + Parse(left).1)
  }

  lemma ProgressStarts(all: seq<Byte>)
    ensures Progress(all, [], all, 0)
  {
    assert [] + Parse(all).0 == Parse(all).0;
  }

  lemma ProgressStep(all: seq<Byte>, took: seq<Obj>, left: seq<Byte>, used: nat)
    requires Progress(all, took, left, used) && Complete(left)
    ensures Progress(all, took + [HeadObject(left)], left[7 + DeclaredSize(left)..], used + 7 + DeclaredSize(left))
  {
    var rest := left[7 + DeclaredSize(left)..];
    assert took + ([HeadObject(left)] + Parse(rest).0) == took + [HeadObject(left)] + Parse(rest).0;
  }

  lemma ProgressEnds(all: seq<Byte>, took: seq<Obj>, left: seq<Byte>, used: nat)
    requires Progress(all, took, left, used) && !Complete(left)
    ensures Parse(all) == (took, used)
  {
    assert took + [] == took;
  }

  lemma LocalNothing(here: set<nat>)
    ensures Local([], here) == []
  {}

  lemma LocalStep(took: seq<Obj>, obj: Obj, here: set<nat>)
    ensures Local(took + [obj], here) == Local(took, here) + if obj.channel in here then [obj] else []
  {
    assert (took + [obj])[..|took|] == took;
  }

  class FillUnpacker {
    const restores: seq<AmorphReStore>
    const bufferSize: nat
    const here: set<nat>
    var passed: seq<seq<Obj>>       // per sender, objects handed to their channel
    var overflow: seq<bool>         // per sender, a critical error was raised
    ghost var taken: seq<seq<Obj>>  // per sender, objects unpacked or skipped

    ghost predicate Valid()
      reads this, restores, set k | 0 <= k < |restores| :: restores[k].stor
    {
      && |passed| == |overflow| == |taken| == |restores|
      && (forall k | 0 <= k < |restores| ::
            restores[k].Valid() && restores[k].stor.Length == bufferSize && passed[k] == Local(taken[k], here))
      && (forall j, k | 0 <= j < k < |restores| ::
            restores[j] != restores[k] && restores[j].stor != restores[k].stor)
    }

    ghost function View(k: nat): Unpacker
      reads this, restores, set k | 0 <= k < |restores| :: restores[k].stor
      requires Valid() && k < |restores|
    {
      Unpacker(bufferSize, restores[k].Data(), restores[k].index, taken[k], overflow[k])
    }

    /** Take one object from the store if it is completely there; otherwise call it exhausted. */
    method TakeOne(store: AmorphReStore) returns (got: bool, obj: Obj)
      requires store.Valid() && !store.IsExhausted() && store.Size() > 3 + 4 + 1
      requires NoHugeMark(store.Left())
      modifies store`index, store`exhausted
      ensures store.Valid() && got == Complete(old(store.Left()))
      ensures got ==> obj == HeadObject(old(store.Left())) && !store.exhausted
                      && store.index == old(store.index) + 7 + DeclaredSize(old(store.Left()))
      ensures !got ==> store.exhausted && old(store.index) <= store.index <= old(store.index) + 3
    {
      ghost var left := store.Left();
      var ok, id := store.UnPackData(3);
      assert store.Left() == left[3..];
      var peeked, nextSize := store.PeekBigMark();
      assert left[3..][..4] == left[3..7];
      assert nextSize == DeclaredSize(left);
      obj := Obj(id[0], FromBigEndian(id[1..]), []);
      got := (nextSize + 4) % TWO32 <= store.Size();
      if got {
        var marked, mark := store.UnPackData(4);
        assert store.Left() == left[7..];
        var present, data := store.UnPackData(nextSize);
        assert data == left[7..][..nextSize] == left[7..7 + nextSize];
        assert id[1..] == left[1..3];
        obj := obj.(payload := data);
      } else {
        store.exhausted := true;
      }
    }

    /** Extract every complete object, then empty the store if nothing is left, or go back to the
        start of the incomplete object. */
    method TakeAll(store: AmorphReStore) returns (ghost took: seq<Obj>, forHere: seq<Obj>)
      requires store.Valid() && !store.exhausted && NoHugeMark(store.Left())
      modifies store
      ensures store.Valid() && took == Parse(old(store.Left())).0 && forHere == Local(took, here)
      ensures var end := old(store.index) + Parse(old(store.Left())).1;
              if end == old(store.fillLevel) then store.Data() == [] && store.index == 0
              else store.Data() == old(store.Data()) && store.index == end
    {
      hide Parse, Complete, HeadObject, DeclaredSize, Local, Progress, NoHugeMark;
      LocalNothing(here);
      took, forHere := [], [];
      ghost var data, start, all := store.Data(), store.index, store.Left();
      ghost var used: nat := 0;
      var current := store.index;
      ghost var left := all;
      ProgressStarts(all);
      while !store.IsExhausted() && store.Size() > 3 + 4 + 1
        invariant store.Valid() && store.Data() == data
        invariant current == start + used <= |data| && left == data[current..]
        invariant if store.exhausted then current <= store.index < |data| && !Complete(left)
                  else store.index == current && NoHugeMark(left)
        invariant Progress(all, took, left, used) && forHere == Local(took, here)
        decreases |left|, !store.exhausted
      {
        assert store.Left() == left;
        var got, obj := TakeOne(store);
        if got {
          ProgressStep(all, took, left, used);
          HugeMarkStep(left);
          LocalStep(took, obj, here);
          used := used + 7 + DeclaredSize(left);
          left := left[7 + DeclaredSize(left)..];
          current := store.index;
          took := took + [obj];
          if obj.channel in here {
            forHere := forHere + [obj];
          }
        }
      }
      TooShort(left);
      ProgressEnds(all, took, left, used);
      if store.Size() > 0 {
        store.SetIndex(current);
      } else {
        store.ReUse();
      }
    }

    /** Add the bulk bytes of a message to its sender's buffer and take every complete object. */
    method Despatch(sender: nat, slice: seq<Byte>)
      requires Valid() && sender < |restores| && slice != []
      requires NoHugeMark(View(sender).data[View(sender).index..] + slice)
      modifies this, restores[sender], restores[sender].stor
      ensures Valid() && UnpackerShaped(old(View(sender)))
      ensures View(sender) == FillTransfer.Despatch(old(View(sender)), slice)
      ensures forall k | 0 <= k < |restores| && k != sender :: View(k) == old(View(k))
    {
      var store := restores[sender];
      if overflow[sender] || |slice| + store.fillLevel > bufferSize {
        overflow := overflow[sender := true];
      } else {
        ghost var was := View(sender);
        store.Append(slice);
        assert store.Left() == (was.data + slice)[was.index..] == was.data[was.index..] + slice;
        ghost var took;
        var forHere;
        took, forHere := TakeAll(store);
        LocalConcat(taken[sender], took, here);
        taken := taken[sender := taken[sender] + took];
        passed := passed[sender := passed[sender] + forHere];
      }
    }
  }
}
