/** Bulk objects as bytes, and what can be parsed back from a byte string that may stop anywhere. */
module FillFraming {
  import opened Bytes

  /** One bulk object: the global id of its channel and the bytes of its data. */
  datatype Obj = Obj(location: Byte, channel: nat, payload: seq<Byte>)

  const ID_BYTES: nat := 3
  const MARK_BYTES: nat := 4

  /** The channel number fits its two bytes, and the data length its 4-byte mark. */
  predicate Packable(o: Obj) {
    o.channel < 0x1_0000 && |o.payload| + MARK_BYTES < 0x1_0000_0000
  }

  predicate AllPackable(os: seq<Obj>) {
    forall o | o in os :: Packable(o)
  }

  /** Global id, length mark, data. */
  function Frame(o: Obj): (s: seq<Byte>)
    ensures |s| == ID_BYTES + MARK_BYTES + |o.payload|
  {
    [o.location] + BigEndian(o.channel, 2) + BigEndian(|o.payload|, 4) + o.payload
  }

  /** Where a frame has which byte. */
  lemma FrameLayout(o: Obj)
    ensures var f := Frame(o);
            && f[0] == o.location && f[1] == o.channel / 0x100 % 0x100 && f[2] == o.channel % 0x100
            && f[3] == |o.payload| / 0x100_0000 % 0x100 && f[4] == |o.payload| / 0x1_0000 % 0x100
            && f[5] == |o.payload| / 0x100 % 0x100 && f[6] == |o.payload| % 0x100 && f[7..] == o.payload
  {
    hide BigEndian;
    WordLayout(o.channel);
    WordLayout(|o.payload|);
  }

  function Frames(os: seq<Obj>): seq<Byte> {
    if os == [] then [] else Frame(os[0]) + Frames(os[1..])
  }

  lemma {:induction false} FramesConcat(a: seq<Obj>, b: seq<Obj>)
    ensures Frames(a + b) == Frames(a) + Frames(b)
  {
    if a == [] {
      assert a + b == b;
    } else {
      FramesConcat(a[1..], b);
      assert (a + b)[1..] == a[1..] + b && (a + b)[0] == a[0];
      var f, x, y := Frame(a[0]), Frames(a[1..]), Frames(b);
      assert f + (x + y) == (f + x) + y;
    }
  }

  /** The declared data length of the frame at the head of the bytes. */
  function DeclaredSize(s: seq<Byte>): nat
    requires |s| >= ID_BYTES + MARK_BYTES
  {
    FromBigEndian(s[ID_BYTES..ID_BYTES + MARK_BYTES])
  }

  /** The test the unpacking loop makes before it takes an object: more than 8 bytes left, and the
      declared bytes all present. */
  predicate Complete(s: seq<Byte>) {
    |s| > 8 && ID_BYTES + MARK_BYTES + DeclaredSize(s) <= |s|
  }

  function HeadObject(s: seq<Byte>): Obj
    requires Complete(s)
  {
    Obj(s[0], FromBigEndian(s[1..3]), s[7..7 + DeclaredSize(s)])
  }

  /** The objects taken from the bytes, and how many bytes they occupied. */
  function Parse(s: seq<Byte>): (r: (seq<Obj>, nat))
    ensures r.1 <= |s|
    decreases |s|
  {
    if !Complete(s) then ([], 0)
    else
      var (os, used) := Parse(s[7 + DeclaredSize(s)..]);
      ([HeadObject(s)] + os, 7 + DeclaredSize(s) + used)
  }

  lemma FrameFields(o: Obj, rest: seq<Byte>)
    requires Packable(o)
    ensures var s := Frame(o) + rest;
            && DeclaredSize(s) == |o.payload|
            && s[7..7 + |o.payload|] == o.payload
            && s[0] == o.location && FromBigEndian(s[1..3]) == o.channel
            && s[7 + |o.payload|..] == rest
  {
    var s := Frame(o) + rest;
    Pow256Values();
    BigEndianRoundTrip(o.channel, 2);
    BigEndianRoundTrip(|o.payload|, 4);
    assert s[1..3] == BigEndian(o.channel, 2);
    assert s[3..7] == BigEndian(|o.payload|, 4);
  }

  /** A frame with anything behind it is taken exactly when more than 8 bytes are there. */
  lemma FrameTaken(o: Obj, rest: seq<Byte>)
    requires Packable(o)
    ensures Complete(Frame(o) + rest) <==> |o.payload| + |rest| >= 2
    ensures Complete(Frame(o) + rest) ==>
              HeadObject(Frame(o) + rest) == o
              && Parse(Frame(o) + rest) == ([o] + Parse(rest).0, |Frame(o)| + Parse(rest).1)
  {
    FrameFields(o, rest);
  }

  /** Bytes that stop inside a frame contain no complete object. */
  lemma CutFrameNotTaken(o: Obj, n: nat)
    requires Packable(o) && n < |Frame(o)|
    ensures !Complete(Frame(o)[..n])
  {
    var s := Frame(o)[..n];
    if n > 8 {
      FrameFields(o, []);
      assert Frame(o) + [] == Frame(o);
      assert s[3..7] == Frame(o)[3..7];
    }
  }

  lemma ConsFrames(os: seq<Obj>, k: nat)
    requires 0 < k <= |os|
    ensures os[..k] == [os[0]] + os[1..][..k - 1]
    ensures Frames(os[..k]) == Frame(os[0]) + Frames(os[1..][..k - 1])
  {
    assert os[..k] == [os[0]] + os[1..][..k - 1];
    assert os[..k][1..] == os[1..][..k - 1];
  }

  /** The head of a first part of a frame sequence is a whole frame or part of one. */
  lemma PrefixHead(os: seq<Obj>, s: seq<Byte>)
    requires os != [] && s <= Frames(os)
    ensures |s| < |Frame(os[0])| ==> s == Frame(os[0])[..|s|]
    ensures |s| >= |Frame(os[0])| ==>
              s == Frame(os[0]) + s[|Frame(os[0])|..] && s[|Frame(os[0])|..] <= Frames(os[1..])
  {
    var frame, rest := Frame(os[0]), Frames(os[1..]);
    assert s == (frame + rest)[..|s|];
    if |s| >= |frame| {
      assert s[|frame|..] == rest[..|s| - |frame|];
    }
  }

  /** How many whole frames fit into the first n bytes. */
  function WholeFrames(os: seq<Obj>, n: nat): (k: nat)
    ensures k <= |os|
  {
    if os == [] || n < |Frame(os[0])| then 0 else 1 + WholeFrames(os[1..], n - |Frame(os[0])|)
  }

  /** WholeFrames is the longest run of objects whose last byte is among the first n. */
  lemma {:induction false} WholeFramesMaximal(os: seq<Obj>, n: nat)
    ensures var k := WholeFrames(os, n);
            |Frames(os[..k])| <= n && (k < |os| ==> n < |Frames(os[..k + 1])|)
  {
    if os != [] && n >= |Frame(os[0])| {
      var k := WholeFrames(os, n);
      WholeFramesMaximal(os[1..], n - |Frame(os[0])|);
      assert os[..k] == [os[0]] + os[1..][..k - 1];
      if k < |os| {
        assert os[..k + 1] == [os[0]] + os[1..][..k];
      }
    } else if os != [] {
      assert os[..1] == [os[0]];
      assert Frames(os[..1]) == Frame(os[0]) + Frames([]);
    }
  }

  lemma {:induction false} WholeFramesSplit(os: seq<Obj>, k: nat, n: nat)
    requires k <= |os| && |Frames(os[..k])| <= n
    ensures WholeFrames(os, n) == k + WholeFrames(os[k..], n - |Frames(os[..k])|)
  {
    if k == 0 {
      assert os[k..] == os;
    } else {
      ConsFrames(os, k);
      WholeFramesSplit(os[1..], k - 1, n - |Frame(os[0])|);
      assert os[k..] == os[1..][k - 1..];
    }
  }

  lemma WholeFramesAll(os: seq<Obj>)
    ensures WholeFrames(os, |Frames(os)|) == |os|
  {
    assert os[..|os|] == os;
    WholeFramesSplit(os, |os|, |Frames(os)|);
  }

  lemma SplitFrames(os: seq<Obj>, k: nat)
    requires k <= |os|
    ensures os == os[..k] + os[k..] && Frames(os) == Frames(os[..k]) + Frames(os[k..])
  {
    assert os == os[..k] + os[k..];
    FramesConcat(os[..k], os[k..]);
  }

  /** Frames behind the first n bytes do not matter. */
  lemma {:induction false} WholeFramesInside(os: seq<Obj>, more: seq<Obj>, n: nat)
    requires n <= |Frames(os)|
    ensures WholeFrames(os + more, n) == WholeFrames(os, n)
  {
    if os == [] {
      assert os + more == more;
    } else {
      assert (os + more)[0] == os[0] && (os + more)[1..] == os[1..] + more;
      if n >= |Frame(os[0])| {
        WholeFramesInside(os[1..], more, n - |Frame(os[0])|);
      }
    }
  }

  predicate Substantial(os: seq<Obj>) {
    forall o | o in os :: |o.payload| >= 2
  }

  /** With data of at least 2 bytes per object, parsing any first part of a frame sequence takes
      exactly the objects that are completely there. */
  lemma {:induction false} ParsePrefix(os: seq<Obj>, s: seq<Byte>)
    requires AllPackable(os) && Substantial(os) && s <= Frames(os)
    ensures var k := WholeFrames(os, |s|);
            Parse(s) == (os[..k], |Frames(os[..k])|)
  {
    hide Frame, DeclaredSize, HeadObject;
    if os != [] {
      PrefixHead(os, s);
      if |s| < |Frame(os[0])| {
        CutFrameNotTaken(os[0], |s|);
        assert os[..0] == [];
      } else {
        var rest := s[|Frame(os[0])|..];
        var k := WholeFrames(os[1..], |rest|);
        assert WholeFrames(os, |s|) == 1 + k;
        InsideTail(os, 1);
        ParsePrefix(os[1..], rest);
        TakeOne(os, s, rest, k);
      }
    }
  }

  lemma TakeOne(os: seq<Obj>, s: seq<Byte>, rest: seq<Byte>, k: nat)
    requires os != [] && Packable(os[0]) && |os[0].payload| + |rest| >= 2 && s == Frame(os[0]) + rest
    requires k < |os| && Parse(rest) == (os[1..][..k], |Frames(os[1..][..k])|)
    ensures Parse(s) == (os[..k + 1], |Frames(os[..k + 1])|)
  {
    hide Parse, Frames, Frame, Complete;
    FrameTaken(os[0], rest);
    ConsFrames(os, k + 1);
  }

  lemma InsideTail(os: seq<Obj>, k: nat)
    requires AllPackable(os) && k <= |os|
    ensures AllPackable(os[k..]) && (Substantial(os) ==> Substantial(os[k..]))
  {
    forall o | o in os[k..]
      ensures o in os
    {}
  }

  lemma MoreWholeFrames(os: seq<Obj>, m: nat, n: nat)
    requires m <= n
    ensures var k, j := WholeFrames(os, m), WholeFrames(os, n);
            && k <= j && |Frames(os[..k])| <= m && |Frames(os[..j])| <= n
            && Frames(os[..j]) == Frames(os[..k]) + Frames(os[k..j])
            && j == k + WholeFrames(os[k..], n - |Frames(os[..k])|)
  {
    hide Frames, WholeFrames;
    var k, j := WholeFrames(os, m), WholeFrames(os, n);
    WholeFramesMaximal(os, m);
    WholeFramesMaximal(os, n);
    WholeFramesSplit(os, k, n);
    assert os[..j] == os[..k] + os[k..j];
    FramesConcat(os[..k], os[k..j]);
  }

  /** Parsing can be taken up again behind the objects already taken. */
  lemma ParseResume(os: seq<Obj>, m: nat, s: seq<Byte>)
    requires AllPackable(os) && Substantial(os) && m <= |s| && s <= Frames(os)
    ensures var k, j := WholeFrames(os, m), WholeFrames(os, |s|);
            && k <= j && |Frames(os[..k])| <= |Frames(os[..j])| <= |s|
            && Parse(s[|Frames(os[..k])|..]) == (os[k..j], |Frames(os[..j])| - |Frames(os[..k])|)
  {
    hide Parse, Frames, WholeFrames;
    var k, j := WholeFrames(os, m), WholeFrames(os, |s|);
    MoreWholeFrames(os, m, |s|);
    TailOfPrefix(os, k, s);
    InsideTail(os, k);
    ParseTail(os[k..], s[|Frames(os[..k])|..], j - k);
    assert os[k..][..j - k] == os[k..j];
  }

  lemma ParseTail(tail: seq<Obj>, rest: seq<Byte>, k: nat)
    requires AllPackable(tail) && Substantial(tail) && rest <= Frames(tail) && k == WholeFrames(tail, |rest|)
    ensures Parse(rest) == (tail[..k], |Frames(tail[..k])|)
  {
    ParsePrefix(tail, rest);
  }

  lemma TailOfPrefix(os: seq<Obj>, k: nat, s: seq<Byte>)
    requires k <= |os| && s <= Frames(os) && |Frames(os[..k])| <= |s|
    ensures s[|Frames(os[..k])|..] <= Frames(os[k..])
  {
    SplitFrames(os, k);
    var a, b := Frames(os[..k]), Frames(os[k..]);
    assert s == (a + b)[..|s|];
    assert s[|a|..] == b[..|s| - |a|];
  }

  /** Without that condition: a complete frame sequence is taken completely exactly when its last
      object has at least 2 bytes of data. The loop condition leaves a shorter one waiting for
      bytes that belong to something else. */
  lemma {:induction false} ParseAllExact(os: seq<Obj>)
    requires AllPackable(os)
    ensures Parse(Frames(os)).1 == |Frames(os)| <==> os == [] || |os[|os| - 1].payload| >= 2
  {
    if os != [] {
      assert Frames(os) == Frame(os[0]) + Frames(os[1..]);
      FrameTaken(os[0], Frames(os[1..]));
      ParseAllExact(os[1..]);
      if |os| > 1 {
        assert Frames(os[1..]) == Frame(os[1]) + Frames(os[1..][1..]);
        assert os[1..][|os| - 2] == os[|os| - 1];
      }
    }
  }

  /** Whatever the data sizes, only sent objects come out, in order, none twice. */
  lemma {:induction false} ParseIsPrefix(os: seq<Obj>, s: seq<Byte>) returns (k: nat)
    requires AllPackable(os) && s <= Frames(os)
    ensures k <= |os| && Parse(s) == (os[..k], |Frames(os[..k])|)
  {
    k := 0;
    if os != [] {
      PrefixHead(os, s);
      if |s| < |Frame(os[0])| {
        CutFrameNotTaken(os[0], |s|);
      } else {
        var rest := s[|Frame(os[0])|..];
        if |os[0].payload| + |rest| >= 2 {
          InsideTail(os, 1);
          k := ParseIsPrefix(os[1..], rest);
          TakeOne(os, s, rest, k);
          k := k + 1;
        } else {
          FrameTaken(os[0], rest);
        }
      }
    }
  }
}
