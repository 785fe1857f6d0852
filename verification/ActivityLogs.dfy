/** The log of what an activity manager did: a header and a list of bits. Packing cuts the list
    where the store is full and corrects the count that was packed in front of it. */
module ActivityLogs {
  import opened Bytes
  import opened AmorphStores

  /** A 64-bit floating point number, as its bytes. */
  type Double = s: seq<Byte> | |s| == 8 witness [0, 0, 0, 0, 0, 0, 0, 0]

  datatype ActivityBit =
    ActivityBit(tickPlus: uint16, fracInTick: uint16, kind: Byte, activity: uint16, start: uint32, end: uint32)

  datatype Head = Head(nodeId: Byte, managerNumber: Byte, baseTick: uint32, fractionMult: Double)

  const HEAD_SIZES: seq<nat> := [1, 1, 4, 8]
  const BIT_SIZES: seq<nat> := [2, 2, 1, 2, 4, 4]
  const HEAD_BYTES: nat := 14
  const COUNT_BYTES: nat := 2
  const BIT_BYTES: nat := 15

  function HeadFields(h: Head): seq<seq<Byte>> {
    [[h.nodeId], [h.managerNumber], BigEndian(h.baseTick, 4), h.fractionMult]
  }

  function BitFields(b: ActivityBit): seq<seq<Byte>> {
    [BigEndian(b.tickPlus, 2), BigEndian(b.fracInTick, 2), [b.kind], BigEndian(b.activity, 2),
     BigEndian(b.start, 4), BigEndian(b.end, 4)]
  }

  function Concat(fields: seq<seq<Byte>>): seq<Byte> {
    if fields == [] then [] else fields[0] + Concat(fields[1..])
  }

  function Sum(sizes: seq<nat>): nat {
    if sizes == [] then 0 else sizes[0] + Sum(sizes[1..])
  }

  predicate Sized(fields: seq<seq<Byte>>, sizes: seq<nat>) {
    |fields| == |sizes| && forall i | 0 <= i < |fields| :: |fields[i]| == sizes[i]
  }

  lemma {:induction false} SizedConcat(fields: seq<seq<Byte>>, sizes: seq<nat>)
    requires Sized(fields, sizes)
    ensures |Concat(fields)| == Sum(sizes)
  {
    if fields != [] {
      SizedConcat(fields[1..], sizes[1..]);
    }
  }

  lemma {:induction false} ConcatGrows(fields: seq<seq<Byte>>, i: nat)
    requires i < |fields|
    ensures Concat(fields[..i + 1]) == Concat(fields[..i]) + fields[i]
  {
    if i > 0 {
      var tail := fields[1..];
      ConcatGrows(tail, i - 1);
      assert fields[..i + 1][1..] == tail[..i] && fields[..i][1..] == tail[..i - 1];
    }
  }

  lemma {:induction false} SumGrows(sizes: seq<nat>, i: nat)
    requires i < |sizes|
    ensures Sum(sizes[..i + 1]) == Sum(sizes[..i]) + sizes[i] <= Sum(sizes)
  {
    if i > 0 {
      var tail := sizes[1..];
      SumGrows(tail, i - 1);
      assert sizes[..i + 1][1..] == tail[..i] && sizes[..i][1..] == tail[..i - 1];
    } else {
      assert sizes[..1][1..] == [];
    }
  }

  /** The value of a field of 2 or 4 bytes. */
  function Word(s: seq<Byte>): uint16
    requires |s| == 2
  {
    FromBigEndianBound(s);
    Pow256Values();
    FromBigEndian(s)
  }

  function LongWord(s: seq<Byte>): uint32
    requires |s| == 4
  {
    FromBigEndianBound(s);
    Pow256Values();
    FromBigEndian(s)
  }

  function BitFrom(s: seq<Byte>): ActivityBit
    requires |s| == BIT_BYTES
  {
    ActivityBit(Word(s[..2]), Word(s[2..4]), s[4], Word(s[5..7]), LongWord(s[7..11]), LongWord(s[11..]))
  }

  function HeadFrom(s: seq<Byte>): Head
    requires |s| == HEAD_BYTES
  {
    Head(s[0], s[1], LongWord(s[2..6]), s[6..])
  }

  lemma WordsComeBack(w: uint16, l: uint32)
    ensures Word(BigEndian(w, 2)) == w && LongWord(BigEndian(l, 4)) == l
  {
    Pow256Values();
    BigEndianRoundTrip(w, 2);
    BigEndianRoundTrip(l, 4);
  }

  lemma BitRoundTrip(b: ActivityBit)
    ensures Sized(BitFields(b), BIT_SIZES)
    ensures |Concat(BitFields(b))| == BIT_BYTES && BitFrom(Concat(BitFields(b))) == b
  {
    hide BigEndian, FromBigEndian, Pow256, Word, LongWord, Concat;
    var s := Concat(BitFields(b));
    var f: seq<seq<Byte>> := BitFields(b);
    Empty(f, BIT_SIZES);
    ConcatGrows(f, 0);
    ConcatGrows(f, 1);
    ConcatGrows(f, 2);
    ConcatGrows(f, 3);
    ConcatGrows(f, 4);
    ConcatGrows(f, 5);
    assert f[..6] == f;
    assert s[..2] == f[0] && s[2..4] == f[1] && s[4] == b.kind && s[5..7] == f[3] && s[7..11] == f[4] && s[11..] == f[5];
    WordsComeBack(b.tickPlus, b.start);
    WordsComeBack(b.fracInTick, b.end);
    WordsComeBack(b.activity, 0);
  }

  lemma HeadRoundTrip(h: Head)
    ensures Sized(HeadFields(h), HEAD_SIZES)
    ensures |Concat(HeadFields(h))| == HEAD_BYTES && HeadFrom(Concat(HeadFields(h))) == h
  {
    hide BigEndian, FromBigEndian, Pow256, Word, LongWord, Concat;
    var s := Concat(HeadFields(h));
    var f: seq<seq<Byte>> := HeadFields(h);
    Empty(f, HEAD_SIZES);
    ConcatGrows(f, 0);
    ConcatGrows(f, 1);
    ConcatGrows(f, 2);
    ConcatGrows(f, 3);
    assert f[..4] == f;
    assert s[0] == h.nodeId && s[1] == h.managerNumber && s[2..6] == f[2] && s[6..] == f[3];
    WordsComeBack(0, h.baseTick);
  }

  function BitsBytes(bits: seq<ActivityBit>): (s: seq<Byte>) {
    if bits == [] then [] else Concat(BitFields(bits[0])) + BitsBytes(bits[1..])
  }

  function LogBytes(h: Head, bits: seq<ActivityBit>): (s: seq<Byte>) {
    Concat(HeadFields(h)) + BigEndian(|bits|, COUNT_BYTES) + BitsBytes(bits)
  }

  /** How many of a number of bits go into some room behind the count: as many as possible. */
  function Fitting(count: nat, room: nat): (n: nat)
    ensures n <= count && BIT_BYTES * n <= room
    ensures n < count ==> room < BIT_BYTES * (n + 1)
  {
    if count <= room / BIT_BYTES then count else room / BIT_BYTES
  }

  function BitsFrom(s: seq<Byte>, n: nat): seq<ActivityBit>
    requires |s| >= BIT_BYTES * n
  {
    if n == 0 then [] else [BitFrom(s[..BIT_BYTES])] + BitsFrom(s[BIT_BYTES..], n - 1)
  }

  /** A log in front of other bytes, and how many of the bytes it takes; None when bytes are missing. */
  function Decode(s: seq<Byte>): Option<(Head, seq<ActivityBit>, nat)> {
    if |s| < HEAD_BYTES + COUNT_BYTES then None
    else
      var n := Word(s[HEAD_BYTES..HEAD_BYTES + COUNT_BYTES]);
      var size := HEAD_BYTES + COUNT_BYTES + BIT_BYTES * n;
      if |s| < size then None
      else Some((HeadFrom(s[..HEAD_BYTES]), BitsFrom(s[HEAD_BYTES + COUNT_BYTES..], n), size))
  }

  lemma FirstBit(b: seq<Byte>, tail: seq<Byte>, n: nat)
    requires |b| == BIT_BYTES && n > 0 && |tail| >= BIT_BYTES * (n - 1)
    ensures BitsFrom(b + tail, n) == [BitFrom(b)] + BitsFrom(tail, n - 1)
  {
    hide BitFrom;
    assert (b + tail)[..BIT_BYTES] == b && (b + tail)[BIT_BYTES..] == tail;
  }

  lemma {:induction false} BitsLength(bits: seq<ActivityBit>)
    ensures |BitsBytes(bits)| == BIT_BYTES * |bits|
  {
    if bits != [] {
      BitRoundTrip(bits[0]);
      BitsLength(bits[1..]);
    }
  }

  lemma {:induction false} BitsRoundTrip(bits: seq<ActivityBit>, rest: seq<Byte>)
    ensures |BitsBytes(bits)| == BIT_BYTES * |bits|
    ensures BitsFrom(BitsBytes(bits) + rest, |bits|) == bits
  {
    hide BitFrom, BitFields, Concat, BitsFrom;
    BitsLength(bits);
    if bits == [] {
      NoBits(rest);
    } else {
      var b, tail := Concat(BitFields(bits[0])), BitsBytes(bits[1..]) + rest;
      BitRoundTrip(bits[0]);
      BitsRoundTrip(bits[1..], rest);
      FirstBit(b, tail, |bits|);
      assert BitsBytes(bits) + rest == b + tail;
    }
  }

  lemma NoBits(s: seq<Byte>)
    ensures BitsFrom([] + s, 0) == []
  {}

  /** What was packed is unpacked, whatever follows it. */
  lemma LogRoundTrip(h: Head, bits: seq<ActivityBit>, rest: seq<Byte>)
    requires |bits| < 0x1_0000
    ensures |LogBytes(h, bits)| == HEAD_BYTES + COUNT_BYTES + BIT_BYTES * |bits|
    ensures Decode(LogBytes(h, bits) + rest) == Some((h, bits, |LogBytes(h, bits)|))
  {
    hide BigEndian, FromBigEndian, Pow256, Word, BitFrom, HeadFrom, HeadFields, Concat, BitsBytes, BitsFrom;
    var s := LogBytes(h, bits) + rest;
    HeadRoundTrip(h);
    WordsComeBack(|bits|, 0);
    BitsRoundTrip(bits, rest);
    assert s[..HEAD_BYTES] == Concat(HeadFields(h));
    assert s[HEAD_BYTES..HEAD_BYTES + COUNT_BYTES] == BigEndian(|bits|, COUNT_BYTES);
    assert s[HEAD_BYTES + COUNT_BYTES..] == BitsBytes(bits) + rest;
  }

  lemma {:induction false} BitsGrow(bits: seq<ActivityBit>, i: nat)
    requires i < |bits|
    ensures BitsBytes(bits[..i + 1]) == BitsBytes(bits[..i]) + Concat(BitFields(bits[i]))
  {
    if i > 0 {
      var tail := bits[1..];
      BitsGrow(tail, i - 1);
      assert bits[..i + 1][1..] == tail[..i] && bits[..i][1..] == tail[..i - 1];
    } else {
      assert bits[..1][1..] == [];
    }
  }

  /** Packing stops at the first field that does not fit. */
  method PackFields(fields: seq<seq<Byte>>, sizes: seq<nat>, s: AmorphStore) returns (ok: bool)
    requires s.Valid() && Sized(fields, sizes) && fields != []
    modifies s, s.stor
    ensures s.Valid() && s.choked == !ok
    ensures ok <==> !old(s.choked) && old(s.index) + Sum(sizes) <= s.stor.Length
    ensures ok ==> s.Contents() == old(s.Contents()) + Concat(fields)
    ensures old(s.index) <= s.index && s.stor[..old(s.index)] == old(s.Contents())
  {
    hide Concat, Sum;
    ok := true;
    var i := 0;
    Empty(fields, sizes);
    while ok && i < |fields|
      invariant 0 <= i <= |fields| && s.Valid() && s.choked == (old(s.choked) || !ok) && (i > 0 ==> s.choked == !ok)
      invariant ok ==> s.Contents() == old(s.Contents()) + Concat(fields[..i])
      invariant ok ==> s.index == old(s.index) + Sum(sizes[..i]) && Sum(sizes[..i]) <= Sum(sizes)
      invariant !ok ==> old(s.choked) || old(s.index) + Sum(sizes) > s.stor.Length
      invariant old(s.index) <= s.index && s.stor[..old(s.index)] == old(s.Contents())
    {
      ConcatGrows(fields, i);
      SumGrows(sizes, i);
      ok := s.PackData(fields[i]);
      i := i + 1;
    }
    assert fields[..|fields|] == fields && sizes[..|sizes|] == sizes;
  }

  lemma Empty(fields: seq<seq<Byte>>, sizes: seq<nat>)
    ensures Concat(fields[..0]) == [] && Sum(sizes[..0]) == 0
  {}

  lemma Sizes()
    ensures Sum(HEAD_SIZES) == HEAD_BYTES && Sum(BIT_SIZES) == BIT_BYTES
  {
    assert HEAD_SIZES[1..][1..] == [4, 8] && [4, 8][1..] == [8];
    assert BIT_SIZES[1..][1..] == [1, 2, 4, 4] && [1, 2, 4, 4][1..][1..] == [4, 4] && [4, 4][1..] == [4];
    assert Sum([4, 4]) == 8 && Sum([2, 4, 4]) == 10 && Sum([1, 2, 4, 4]) == 11;
  }

  lemma LogBehind(front: seq<Byte>, h: Head, bits: seq<ActivityBit>)
    ensures front + Concat(HeadFields(h)) + BigEndian(|bits|, COUNT_BYTES) + BitsBytes(bits) == front + LogBytes(h, bits)
  {
    hide Concat, HeadFields, BigEndian, BitsBytes;
    var a, b, c := Concat(HeadFields(h)), BigEndian(|bits|, COUNT_BYTES), BitsBytes(bits);
    assert front + a + b + c == front + (a + b + c);
  }

  // ---------- The bytes, one by one

  /** Where the bytes of a bit are. */
  lemma BitLayout(b: ActivityBit)
    ensures var s := Concat(BitFields(b));
            && |s| == 15
            && s[0] == b.tickPlus / 0x100 && s[1] == b.tickPlus % 0x100
            && s[2] == b.fracInTick / 0x100 && s[3] == b.fracInTick % 0x100
            && s[4] == b.kind && s[5] == b.activity / 0x100 && s[6] == b.activity % 0x100
            && s[7] == b.start / 0x100_0000 && s[8] == b.start / 0x1_0000 % 0x100 && s[9] == b.start / 0x100 % 0x100
            && s[10] == b.start % 0x100
            && s[11] == b.end / 0x100_0000 && s[12] == b.end / 0x1_0000 % 0x100 && s[13] == b.end / 0x100 % 0x100
            && s[14] == b.end % 0x100
  {
    hide BigEndian, Concat;
    BitIs(b);
    WordLayout(b.tickPlus);
    WordLayout(b.fracInTick);
    WordLayout(b.activity);
    WordLayout(b.start);
    WordLayout(b.end);
  }

  lemma BitIs(b: ActivityBit)
    ensures Concat(BitFields(b))
            == BigEndian(b.tickPlus, 2) + BigEndian(b.fracInTick, 2) + [b.kind] + BigEndian(b.activity, 2)
               + BigEndian(b.start, 4) + BigEndian(b.end, 4)
  {
    hide BigEndian, Concat;
    var f: seq<seq<Byte>> := BitFields(b);
    Empty(f, BIT_SIZES);
    ConcatGrows(f, 0);
    ConcatGrows(f, 1);
    ConcatGrows(f, 2);
    ConcatGrows(f, 3);
    ConcatGrows(f, 4);
    ConcatGrows(f, 5);
    assert f[..6] == f;
  }

  lemma HeadIs(h: Head)
    ensures Concat(HeadFields(h)) == [h.nodeId, h.managerNumber] + BigEndian(h.baseTick, 4) + h.fractionMult
  {
    hide BigEndian, Concat;
    var f: seq<seq<Byte>> := HeadFields(h);
    Empty(f, HEAD_SIZES);
    ConcatGrows(f, 0);
    ConcatGrows(f, 1);
    ConcatGrows(f, 2);
    ConcatGrows(f, 3);
    assert f[..4] == f;
  }

  lemma {:induction false} BitAt(bits: seq<ActivityBit>, i: nat)
    requires i < |bits|
    ensures |BitsBytes(bits)| == 15 * |bits|
    ensures BitsBytes(bits)[15 * i..15 * i + 15] == Concat(BitFields(bits[i]))
    decreases i
  {
    hide BitFields, Concat;
    BitsLength(bits);
    BitRoundTrip(bits[0]);
    BitsLength(bits[1..]);
    if i > 0 {
      BitAt(bits[1..], i - 1);
      assert BitsBytes(bits)[15 * i..15 * i + 15] == BitsBytes(bits[1..])[15 * (i - 1)..15 * (i - 1) + 15];
    }
  }

  /** Where the parts of a log are: the header, the number of bits, and the bits behind each other. */
  lemma LogLayout(h: Head, bits: seq<ActivityBit>, i: nat)
    requires i < |bits| < 0x1_0000
    ensures var s := LogBytes(h, bits);
            && |s| == 16 + 15 * |bits|
            && s[0] == h.nodeId && s[1] == h.managerNumber
            && s[2] == h.baseTick / 0x100_0000 && s[3] == h.baseTick / 0x1_0000 % 0x100 && s[4] == h.baseTick / 0x100 % 0x100
            && s[5] == h.baseTick % 0x100 && s[6..14] == h.fractionMult
            && s[14] == |bits| / 0x100 && s[15] == |bits| % 0x100
            && s[16 + 15 * i..][..15] == Concat(BitFields(bits[i]))
  {
    hide BigEndian, Concat, BitFields, HeadFields, BitsBytes;
    HeadIs(h);
    WordLayout(h.baseTick);
    WordLayout(|bits|);
    BitAt(bits, i);
    var s, front := LogBytes(h, bits), Concat(HeadFields(h)) + BigEndian(|bits|, COUNT_BYTES);
    assert s == front + BitsBytes(bits);
    Behind(front, BitsBytes(bits), 15 * i);
  }

  lemma Behind(front: seq<Byte>, s: seq<Byte>, i: nat)
    requires i + 15 <= |s|
    ensures (front + s)[|front| + i..][..15] == s[i..i + 15]
  {}

  lemma Sliced(a: seq<Byte>, b: seq<Byte>, c: seq<Byte>, s: seq<Byte>)
    requires s == a + b + c
    ensures s[..|a|] == a && s[|a| + |b|..] == c
  {}

  class ActivityLog {
    var head: Head
    var bits: seq<ActivityBit>     // bit_list
    var noOfBits: uint16

    ghost predicate Valid()
      reads this
    {
      noOfBits == |bits|
    }

    constructor (head: Head, first: ActivityBit)
      ensures Valid() && this.head == head && bits == [first]
    {
      this.head, bits, noOfBits := head, [first], 1;
    }

    /** A log without bits yet. */
    constructor Restored(head: Head)
      ensures Valid() && this.head == head && bits == []
    {
      this.head, bits, noOfBits := head, [], 0;
    }

    /** A log that cannot count any further keeps what it has. */
    method AppendActivityBit(b: ActivityBit)
      requires Valid()
      modifies this`bits, this`noOfBits
      ensures Valid() && bits == if |old(bits)| < 0xffff then old(bits) + [b] else old(bits)
    {
      if noOfBits < 0xffff {
        bits := bits + [b];
        noOfBits := noOfBits + 1;
      }
    }

    method PackBit(b: ActivityBit, s: AmorphStore) returns (ok: bool)
      requires s.Valid()
      modifies s, s.stor
      ensures s.Valid() && s.choked == !ok
      ensures ok <==> !old(s.choked) && old(s.index) + BIT_BYTES <= s.stor.Length
      ensures ok ==> s.Contents() == old(s.Contents()) + Concat(BitFields(b)) && s.index == old(s.index) + BIT_BYTES
      ensures old(s.index) <= s.index && s.stor[..old(s.index)] == old(s.Contents())
    {
      BitRoundTrip(b);
      Sizes();
      ok := PackFields(BitFields(b), BIT_SIZES, s);
    }

    method PackHead(s: AmorphStore) returns (ok: bool)
      requires s.Valid()
      modifies s, s.stor
      ensures s.Valid() && s.choked == !ok
      ensures ok <==> !old(s.choked) && old(s.index) + HEAD_BYTES <= s.stor.Length
      ensures ok ==> s.Contents() == old(s.Contents()) + Concat(HeadFields(head)) && s.index == old(s.index) + HEAD_BYTES
    {
      HeadRoundTrip(head);
      Sizes();
      ok := PackFields(HeadFields(head), HEAD_SIZES, s);
    }

    /** Pack bits until one does not fit. */
    method PackBits(s: AmorphStore) returns (nbits: nat, storesize: nat)
      requires Valid() && s.Valid() && !s.choked
      modifies s, s.stor
      ensures s.Valid() && nbits == Fitting(|bits|, s.stor.Length - old(s.index))
      ensures storesize == old(s.index) + BIT_BYTES * nbits <= s.stor.Length
      ensures s.stor[..storesize] == old(s.Contents()) + BitsBytes(bits[..nbits])
      ensures s.choked == (nbits < |bits|) && (!s.choked ==> s.index == storesize)
    {
      hide Concat, BitFields;
      nbits, storesize := 0, s.index;
      var ok := true;
      while ok && nbits < |bits|
        invariant nbits <= |bits| && s.Valid() && s.choked == !ok && storesize <= s.index
        invariant storesize == old(s.index) + BIT_BYTES * nbits && (ok ==> s.index == storesize)
        invariant s.stor[..storesize] == old(s.Contents()) + BitsBytes(bits[..nbits])
        invariant !ok ==> nbits < |bits| && storesize + BIT_BYTES > s.stor.Length
      {
        ghost var was := s.stor[..storesize];
        ok := PackBit(bits[nbits], s);
        if ok {
          BitsGrow(bits, nbits);
          storesize := s.index;
          nbits := nbits + 1;
        }
      }
    }

    /** Packing is possible again, from behind the last complete bit. */
    method CorrectCount(s: AmorphStore, countAt: nat, nbits: uint16, storesize: nat)
      requires s.Valid() && countAt + COUNT_BYTES <= storesize <= s.stor.Length
      modifies s, s.stor
      ensures s.Valid() && !s.choked
      ensures s.Contents() == old(s.stor[..countAt]) + BigEndian(nbits, COUNT_BYTES)
                              + old(s.stor[countAt + COUNT_BYTES..storesize])
    {
      s.ReUse();
      s.SetSize(countAt);
      var ok := s.PackData(BigEndian(nbits, COUNT_BYTES));
      s.SetSize(storesize);
    }

    /** Pack what fits behind the count at the end of the store, and make the count right. */
    method PackBitsAndCount(s: AmorphStore, countAt: nat, ghost front: seq<Byte>) returns (ok: bool)
      requires Valid() && s.Valid() && !s.choked && |front| == countAt
      requires s.Contents() == front + BigEndian(noOfBits, COUNT_BYTES)
      modifies s, s.stor
      ensures s.Valid() && s.choked == !ok
      ensures ok <==> bits == [] || old(s.index) + BIT_BYTES <= s.stor.Length
      ensures var n := Fitting(|bits|, s.stor.Length - old(s.index));
              ok ==> s.Contents() == front + BigEndian(n, COUNT_BYTES) + BitsBytes(bits[..n])
    {
      hide Concat, BitFields, HeadFields, BitsBytes, BigEndian, Fitting, LogBytes;
      var nbits, storesize := PackBits(s);
      assert bits[..|bits|] == bits;
      ok := !s.choked || nbits > 0;
      if s.choked && nbits > 0 {
        Sliced(front, BigEndian(noOfBits, COUNT_BYTES), BitsBytes(bits[..nbits]), s.stor[..storesize]);
        CorrectCount(s, countAt, nbits, storesize);
      }
    }

    /** The header and as many bits as fit, with their number; it fails only where not even one bit
        fits. Whatever was in the store before stays in front. */
    method PackData(s: AmorphStore) returns (ok: bool)
      requires Valid() && s.Valid()
      modifies s, s.stor
      ensures s.Valid() && s.choked == !ok
      ensures var room := s.stor.Length - old(s.index) - HEAD_BYTES - COUNT_BYTES;
              && (ok <==> !old(s.choked) && room >= 0 && (bits == [] || room >= BIT_BYTES))
              && (ok ==> s.Contents() == old(s.Contents()) + LogBytes(head, bits[..Fitting(|bits|, room)]))
    {
      hide Concat, BitFields, HeadFields, BitsBytes, BigEndian, Fitting, LogBytes;
      ok := PackHead(s);
      if ok {
        ghost var front := s.Contents();
        var countAt := s.index;
        ok := s.PackData(BigEndian(noOfBits, COUNT_BYTES));
        if ok {
          ghost var n := Fitting(|bits|, s.stor.Length - s.index);
          ok := PackBitsAndCount(s, countAt, front);
          LogBehind(old(s.Contents()), head, bits[..n]);
        }
      }
    }
  }

  lemma SliceStep(s: seq<Byte>, k: nat, n: nat)
    requires k <= |s| && n <= |s[k..]|
    ensures s[..k] + s[k..][..n] == s[..k + n] && s[k..][n..] == s[k + n..]
  {}

  /** The first n bytes were read, and the rest is left. */
  ghost predicate TakenSoFar(all: seq<Byte>, n: nat, bytes: seq<Byte>, left: seq<Byte>) {
    n <= |all| && bytes == all[..n] && left == all[n..]
  }

  lemma NothingTaken(all: seq<Byte>)
    ensures TakenSoFar(all, 0, [], all)
  {}

  lemma TakenMore(all: seq<Byte>, n: nat, bytes: seq<Byte>, left: seq<Byte>, size: nat)
    requires TakenSoFar(all, n, bytes, left)
    ensures size <= |left| <==> n + size <= |all|
    ensures size <= |left| ==> TakenSoFar(all, n + size, bytes + left[..size], left[size..])
  {
    if size <= |left| {
      SliceStep(all, n, size);
    }
  }

  /** Read fields of given sizes, one behind the other. */
  method UnPackFields(sizes: seq<nat>, r: AmorphReStore) returns (ok: bool, bytes: seq<Byte>)
    requires r.Valid()
    modifies r
    ensures r.Valid() && (ok <==> |old(r.Left())| >= Sum(sizes))
    ensures ok ==> bytes == old(r.Left())[..Sum(sizes)] && r.Left() == old(r.Left())[Sum(sizes)..]
  {
    hide Sum, Concat, TakenSoFar;
    Empty([], sizes);
    ghost var all := r.Left();
    NothingTaken(all);
    ok, bytes := true, [];
    var i := 0;
    while ok && i < |sizes|
      invariant 0 <= i <= |sizes| && r.Valid()
      invariant ok ==> TakenSoFar(all, Sum(sizes[..i]), bytes, r.Left())
      invariant !ok ==> |all| < Sum(sizes)
    {
      SumGrows(sizes, i);
      ghost var left, before := r.Left(), bytes;
      TakenMore(all, Sum(sizes[..i]), before, left, sizes[i]);
      var field;
      ok, field := r.UnPackData(sizes[i]);
      bytes := bytes + field;
      i := i + 1;
    }
    assert sizes[..|sizes|] == sizes;
    if ok {
      AllTaken(all, Sum(sizes), bytes, r.Left());
    }
  }

  lemma AllTaken(all: seq<Byte>, n: nat, bytes: seq<Byte>, left: seq<Byte>)
    requires TakenSoFar(all, n, bytes, left)
    ensures n <= |all| && bytes == all[..n] && left == all[n..]
  {}

  lemma {:induction false} BitsFromGrow(s: seq<Byte>, n: nat)
    requires |s| >= BIT_BYTES * (n + 1)
    ensures BitsFrom(s, n + 1) == BitsFrom(s, n) + [BitFrom(s[BIT_BYTES * n..][..BIT_BYTES])]
  {
    hide BitFrom;
    if n > 0 {
      var tail := s[BIT_BYTES..];
      BitsFromGrow(tail, n - 1);
      assert tail[BIT_BYTES * (n - 1)..] == s[BIT_BYTES * n..];
    } else {
      assert s[0..] == s;
    }
  }

  /** The first n bits were read, and the bytes behind them are left. */
  ghost predicate ReadSoFar(all: seq<Byte>, n: nat, left: seq<Byte>, bits: seq<ActivityBit>) {
    BIT_BYTES * n <= |all| && left == all[BIT_BYTES * n..] && bits == BitsFrom(all, n)
  }

  lemma NothingRead(all: seq<Byte>)
    ensures ReadSoFar(all, 0, all, [])
  {
    NoBits(all);
    assert [] + all == all;
  }

  lemma LeftBytes(all: seq<Byte>, n: nat, left: seq<Byte>, bits: seq<ActivityBit>)
    requires ReadSoFar(all, n, left, bits)
    ensures |left| == |all| - BIT_BYTES * n && left == all[BIT_BYTES * n..] && bits == BitsFrom(all, n)
  {}

  /** One bit more was read from what was left. */
  lemma OneBitMore(all: seq<Byte>, n: nat, left: seq<Byte>, bits: seq<ActivityBit>)
    requires ReadSoFar(all, n, left, bits) && |left| >= BIT_BYTES
    ensures ReadSoFar(all, n + 1, left[BIT_BYTES..], bits + [BitFrom(left[..BIT_BYTES])])
  {
    BitsFromGrow(all, n);
  }

  method UnPackBit(r: AmorphReStore) returns (ok: bool, b: ActivityBit)
    requires r.Valid()
    modifies r
    ensures r.Valid() && (ok <==> |old(r.Left())| >= BIT_BYTES)
    ensures ok ==> b == BitFrom(old(r.Left())[..BIT_BYTES]) && r.Left() == old(r.Left())[BIT_BYTES..]
  {
    hide Sum, BitFrom;
    Sizes();
    var bytes;
    ok, bytes := UnPackFields(BIT_SIZES, r);
    if ok {
      b := BitFrom(bytes);
    } else {
      b := ActivityBit(0, 0, 0, 0, 0, 0);
    }
  }

  method RestoreBits(r: AmorphReStore, log: ActivityLog, n: uint16) returns (ok: bool)
    requires r.Valid() && log.Valid() && log.bits == []
    modifies r, log
    ensures r.Valid() && log.Valid() && log.head == old(log.head)
    ensures ok <==> |old(r.Left())| >= BIT_BYTES * n
    ensures ok ==> log.bits == BitsFrom(old(r.Left()), n) && r.Left() == old(r.Left())[BIT_BYTES * n..]
  {
    hide BitFrom, BitsFrom, ReadSoFar;
    ghost var all := r.Left();
    NothingRead(all);
    ok := true;
    while ok && log.noOfBits < n
      invariant r.Valid() && log.Valid() && log.head == old(log.head) && log.noOfBits <= n
      invariant ok ==> ReadSoFar(all, log.noOfBits, r.Left(), log.bits)
      invariant !ok ==> |all| < BIT_BYTES * n
      decreases ok, n - log.noOfBits
    {
      LeftBytes(all, log.noOfBits, r.Left(), log.bits);
      ghost var left, bits := r.Left(), log.bits;
      var b;
      ok, b := UnPackBit(r);
      if ok {
        OneBitMore(all, |bits|, left, bits);
        log.AppendActivityBit(b);
      }
    }
    if ok {
      LeftBytes(all, n, r.Left(), log.bits);
    }
  }

  /** The log at the front of received bytes; null where bytes are missing. */
  method Restore(r: AmorphReStore) returns (log: ActivityLog?)
    requires r.Valid()
    modifies r
    ensures r.Valid() && (log == null <==> Decode(old(r.Left())).None?)
    ensures log != null ==>
              var d := Decode(old(r.Left())).value;
              fresh(log) && log.Valid() && (log.head, log.bits) == (d.0, d.1) && r.Left() == old(r.Left())[d.2..]
  {
    hide Sum, HeadFrom, BitsFrom, Word;
    Sizes();
    ghost var all := r.Left();
    var ok, bytes := UnPackFields(HEAD_SIZES, r);
    if !ok {
      return null;
    }
    var head := HeadFrom(bytes);
    ok, bytes := r.UnPackData(COUNT_BYTES);
    if !ok {
      return null;
    }
    assert bytes == all[HEAD_BYTES..HEAD_BYTES + COUNT_BYTES];
    assert r.Left() == all[HEAD_BYTES + COUNT_BYTES..];
    log := new ActivityLog.Restored(head);
    ok := RestoreBits(r, log, Word(bytes));
    if !ok {
      return null;
    }
  }
}
