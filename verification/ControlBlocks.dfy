/** The 28-byte header of a file block and its checksum. The checksum covers everything behind the
    link to the next block and the checksum itself, so patching the link leaves it valid. */
module ControlBlocks {
  import opened Bytes

  const HEADER: nat := 28
  const CHECKED_FROM: nat := 10
  const NO_NEXT: nat := 0x7fff_ffff_ffff_ffff

  // ---------- crc16_ccitt: polynomial 0x1021, start value 0xffff, no reflection

  function Pow2(k: nat): (p: nat)
    ensures p > 0
  {
    if k == 0 then 1 else 2 * Pow2(k - 1)
  }

  lemma Pow2Values()
    ensures Pow2(8) == 0x100 && Pow2(16) == 0x1_0000
  {
    assert Pow2(4) == 16 && Pow2(12) == 4096;
  }

  /** The exclusive or of the k low bits. */
  function Xor(a: nat, b: nat, k: nat): (r: nat)
    ensures r < Pow2(k)
  {
    if k == 0 then 0 else 2 * Xor(a / 2, b / 2, k - 1) + if a % 2 != b % 2 then 1 else 0
  }

  function CrcBit(c: uint16): uint16 {
    Pow2Values();
    if c >= 0x8000 then Xor(2 * c - 0x1_0000, 0x1021, 16) else 2 * c
  }

  function EightBits(c: uint16): uint16 {
    CrcBit(CrcBit(CrcBit(CrcBit(CrcBit(CrcBit(CrcBit(CrcBit(c))))))))
  }

  function CrcByte(c: uint16, b: Byte): uint16 {
    Pow2Values();
    EightBits(Xor(c, 0x100 * b, 16))
  }

  function CrcFrom(c: uint16, s: seq<Byte>): uint16 {
    if s == [] then c else CrcByte(CrcFrom(c, s[..|s| - 1]), s[|s| - 1])
  }

  function Crc16(s: seq<Byte>): uint16 {
    CrcFrom(0xffff, s)
  }

  /** The polynomial is x^16 + x^12 + x^5 + 1 and the start value is all ones. */
  lemma Polynomial()
    ensures CrcBit(0x8000) == 0x1021 && Crc16([]) == 0xffff
  {
    XorZero(0x1021, 16);
  }

  lemma {:induction false} XorZero(b: nat, k: nat)
    requires b < Pow2(k)
    ensures Xor(0, b, k) == b
  {
    if k > 0 {
      XorZero(b / 2, k - 1);
    }
  }

  // ---------- The header

  datatype Header = Header(next: nat, checksum: nat, stream: nat, size: nat, fill: nat, objectOffset: nat, num: nat)

  /** The header fields that are under the checksum. */
  function Checked(stream: nat, size: nat, fill: nat, objectOffset: nat, num: nat): (s: seq<Byte>)
    ensures |s| == HEADER - CHECKED_FROM
  {
    BigEndian(stream, 2) + BigEndian(size, 4) + BigEndian(fill, 4) + BigEndian(objectOffset, 4) + BigEndian(num, 4)
  }

  /** control_block_write in front of the data area of a block; the link starts out as "none". */
  function EncodeBlock(stream: nat, num: nat, size: nat, fill: nat, objectOffset: nat, area: seq<Byte>): (t: seq<Byte>)
    ensures |t| == HEADER + |area|
  {
    var checked := Checked(stream, size, fill, objectOffset, num) + area;
    BigEndian(NO_NEXT, 8) + BigEndian(Crc16(checked), 2) + checked
  }

  /** ControlBlockRead of the header alone. */
  function Decode(t: seq<Byte>): Header
    requires |t| >= HEADER
  {
    Header(FromBigEndian(t[..8]), FromBigEndian(t[8..10]), FromBigEndian(t[10..12]), FromBigEndian(t[12..16]),
           FromBigEndian(t[16..20]), FromBigEndian(t[20..24]), FromBigEndian(t[24..28]))
  }

  /** The test ControlBlockRead makes on a whole block. */
  predicate CrcOk(t: seq<Byte>)
    requires |t| >= HEADER
  {
    Decode(t).checksum == Crc16(t[CHECKED_FROM..])
  }

  /** Writing the link to the next block into a block on file. */
  function PatchNext(t: seq<Byte>, next: nat): (r: seq<Byte>)
    requires |t| >= HEADER
    ensures |r| == |t|
  {
    BigEndian(next, 8) + t[8..]
  }

  lemma DecodeEncode(stream: nat, num: nat, size: nat, fill: nat, objectOffset: nat, area: seq<Byte>)
    requires stream < 0x1_0000 && size < TWO32 && fill < TWO32 && objectOffset < TWO32
    ensures var t := EncodeBlock(stream, num, size, fill, objectOffset, area);
            && CrcOk(t) && t[HEADER..] == area
            && Decode(t) == Header(NO_NEXT, Decode(t).checksum, stream, size, fill, objectOffset, num % TWO32)
  {
    hide Crc16, BigEndian, FromBigEndian;
    var t := EncodeBlock(stream, num, size, fill, objectOffset, area);
    var crc := Crc16(Checked(stream, size, fill, objectOffset, num) + area);
    FieldSlices(stream, num, size, fill, objectOffset, area);
    Pow256Values();
    BigEndianRoundTrip(NO_NEXT, 8);
    BigEndianRoundTrip(crc, 2);
    BigEndianRoundTrip(stream, 2);
    BigEndianRoundTrip(size, 4);
    BigEndianRoundTrip(fill, 4);
    BigEndianRoundTrip(objectOffset, 4);
    BigEndianLow(num, 4);
  }

  lemma FieldSlices(stream: nat, num: nat, size: nat, fill: nat, objectOffset: nat, area: seq<Byte>)
    ensures var t := EncodeBlock(stream, num, size, fill, objectOffset, area);
            && t[..8] == BigEndian(NO_NEXT, 8)
            && t[8..10] == BigEndian(Crc16(Checked(stream, size, fill, objectOffset, num) + area), 2)
            && t[10..12] == BigEndian(stream, 2) && t[12..16] == BigEndian(size, 4)
            && t[16..20] == BigEndian(fill, 4) && t[20..24] == BigEndian(objectOffset, 4)
            && t[24..28] == BigEndian(num, 4) && t[HEADER..] == area
            && t[CHECKED_FROM..] == Checked(stream, size, fill, objectOffset, num) + area
  {
    hide Crc16, BigEndian;
  }

  /** Patching the link changes the link and nothing else; the checksum still verifies. */
  lemma PatchKeepsBlock(t: seq<Byte>, next: nat)
    requires |t| >= HEADER && next <= NO_NEXT
    ensures var r := PatchNext(t, next);
            && Decode(r) == Decode(t).(next := next)
            && r[CHECKED_FROM..] == t[CHECKED_FROM..] && r[HEADER..] == t[HEADER..]
            && (CrcOk(r) <==> CrcOk(t))
  {
    hide Crc16, BigEndian, FromBigEndian;
    var r := PatchNext(t, next);
    Pow256Values();
    assert r[..8] == BigEndian(next, 8);
    BigEndianRoundTrip(next, 8);
    assert r[8..10] == t[8..10] && r[10..12] == t[10..12] && r[12..16] == t[12..16];
    assert r[16..20] == t[16..20] && r[20..24] == t[20..24] && r[24..28] == t[24..28];
  }

  // ---------- What the checksum detects

  /** Different words stay different, and different bits are set in the result. */
  lemma {:induction false} XorApart(a: nat, b: nat, m: nat, k: nat)
    requires a < Pow2(k) && b < Pow2(k) && a != b
    ensures Xor(a, m, k) != Xor(b, m, k) && Xor(m, a, k) != Xor(m, b, k)
    decreases k
  {
    if k > 0 && a % 2 == b % 2 {
      XorApart(a / 2, b / 2, m / 2, k - 1);
    }
  }

  lemma XorLowBit(a: nat, b: nat, k: nat)
    requires k > 0
    ensures Xor(a, b, k) % 2 == if a % 2 != b % 2 then 1 else 0
  {}

  lemma CrcBitApart(c: uint16, d: uint16)
    requires c != d
    ensures CrcBit(c) != CrcBit(d)
  {
    hide Xor;
    Pow2Values();
    if c >= 0x8000 {
      XorLowBit(2 * c - 0x1_0000, 0x1021, 16);
    }
    if d >= 0x8000 {
      XorLowBit(2 * d - 0x1_0000, 0x1021, 16);
    }
    if c >= 0x8000 && d >= 0x8000 {
      XorApart(2 * c - 0x1_0000, 2 * d - 0x1_0000, 0x1021, 16);
    }
  }

  lemma EightBitsApart(c: uint16, d: uint16)
    requires c != d
    ensures EightBits(c) != EightBits(d)
  {
    hide CrcBit;
    var c1, d1 := CrcBit(c), CrcBit(d);
    CrcBitApart(c, d);
    var c2, d2 := CrcBit(c1), CrcBit(d1);
    CrcBitApart(c1, d1);
    var c3, d3 := CrcBit(c2), CrcBit(d2);
    CrcBitApart(c2, d2);
    var c4, d4 := CrcBit(c3), CrcBit(d3);
    CrcBitApart(c3, d3);
    var c5, d5 := CrcBit(c4), CrcBit(d4);
    CrcBitApart(c4, d4);
    var c6, d6 := CrcBit(c5), CrcBit(d5);
    CrcBitApart(c5, d5);
    var c7, d7 := CrcBit(c6), CrcBit(d6);
    CrcBitApart(c6, d6);
    CrcBitApart(c7, d7);
  }

  /** Two states of the checksum stay apart over the same bytes, and different bytes set them apart. */
  lemma CrcByteApart(c: uint16, d: uint16, a: Byte, b: Byte)
    requires (c != d && a == b) || (c == d && a != b)
    ensures CrcByte(c, a) != CrcByte(d, b)
  {
    hide EightBits, Xor;
    Pow2Values();
    if a == b {
      XorApart(c, d, 0x100 * a, 16);
    } else {
      XorApart(0x100 * a, 0x100 * b, c, 16);
    }
    EightBitsApart(Xor(c, 0x100 * a, 16), Xor(d, 0x100 * b, 16));
  }

  lemma {:induction false} CrcTellsOneByte(c: uint16, s: seq<Byte>, i: nat, x: Byte)
    requires i < |s| && x != s[i]
    ensures CrcFrom(c, s[i := x]) != CrcFrom(c, s)
    decreases |s|
  {
    hide CrcByte;
    var last, s' := |s| - 1, s[i := x];
    if i == last {
      assert s'[..last] == s[..last];
      CrcByteApart(CrcFrom(c, s[..last]), CrcFrom(c, s[..last]), x, s[last]);
    } else {
      assert s'[..last] == s[..last][i := x];
      CrcTellsOneByte(c, s[..last], i, x);
      CrcByteApart(CrcFrom(c, s'[..last]), CrcFrom(c, s[..last]), s[last], s[last]);
    }
  }

  /** A block of which one byte behind the checksum was changed does not pass the test any more. */
  lemma ChangedByteIsFound(t: seq<Byte>, i: nat, x: Byte)
    requires |t| >= HEADER && CrcOk(t) && CHECKED_FROM <= i < |t| && x != t[i]
    ensures !CrcOk(t[i := x])
  {
    hide CrcFrom, FromBigEndian;
    var t' := t[i := x];
    var s := t[CHECKED_FROM..];
    assert t'[CHECKED_FROM..] == s[i - CHECKED_FROM := x];
    CrcTellsOneByte(0xffff, s, i - CHECKED_FROM, x);
    assert t'[8..10] == t[8..10];
  }
}
