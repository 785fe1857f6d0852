/** Bytes and words, and whole numbers in network byte order, as AmorphStore packs and unpacks them. */
module Bytes {

  const TWO16: int := 0x1_0000
  const TWO31: int := 0x8000_0000
  const TWO32: int := 0x1_0000_0000

  type Byte = b: int | 0 <= b < 256
  type uint16 = x: int | 0 <= x < TWO16
  type uint32 = x: int | 0 <= x < TWO32

  /** The bits of a word read as int32_t. */
  function Signed(w: uint32): int {
    if w < TWO31 then w else w - TWO32
  }

  datatype Option<+T> = None | Some(value: T)

  function Pow256(k: nat): (r: nat)
    ensures r > 0
  {
    if k == 0 then 1 else 256 * Pow256(k - 1)
  }

  /** The k low bytes of n, most significant first. */
  function BigEndian(n: nat, k: nat): (s: seq<Byte>)
    ensures |s| == k
  {
    if k == 0 then [] else BigEndian(n / 256, k - 1) + [n % 256]
  }

  function FromBigEndian(s: seq<Byte>): nat {
    if s == [] then 0 else FromBigEndian(s[..|s| - 1]) * 256 + s[|s| - 1]
  }

  lemma {:induction false} BigEndianRoundTrip(n: nat, k: nat)
    requires n < Pow256(k)
    ensures FromBigEndian(BigEndian(n, k)) == n
  {
    if k > 0 {
      BigEndianRoundTrip(n / 256, k - 1);
      var s := BigEndian(n, k);
      assert s[..|s| - 1] == BigEndian(n / 256, k - 1);
    }
  }

  /** Of a number that is too large, the low bytes are kept. */
  lemma {:induction false} BigEndianLow(n: nat, k: nat)
    ensures FromBigEndian(BigEndian(n, k)) == n % Pow256(k)
  {
    if k > 0 {
      var p, q := Pow256(k - 1), n / 256;
      BigEndianLow(q, k - 1);
      var s := BigEndian(n, k);
      assert s[..|s| - 1] == BigEndian(q, k - 1);
      SplitLow(n, p);
    }
  }

  lemma SplitLow(n: nat, p: nat)
    requires p > 0
    ensures n % (256 * p) == (n / 256 % p) * 256 + n % 256
  {
    var q := n / 256;
    var r := (q % p) * 256 + n % 256;
    assert q == (q / p) * p + q % p;
    assert n == q * 256 + n % 256;
    assert n == (256 * p) * (q / p) + r;
    assert 0 <= r < 256 * p;
    QuotientIsUnique(n, 256 * p, q / p, r);
  }

  lemma {:induction false} MulStep(d: nat, p: nat, q: nat)
    requires p < q
    ensures d * q >= d * p + d
  {
    if p + 1 < q {
      MulStep(d, p, q - 1);
      assert d * q == d * (q - 1) + d;
    }
  }

  lemma QuotientIsUnique(n: nat, d: nat, q: nat, r: nat)
    requires d > 0 && n == d * q + r && r < d
    ensures n % d == r
  {
    var p, m := n / d, n % d;
    assert n == d * p + m;
    if q > p {
      MulStep(d, p, q);
    } else if q < p {
      MulStep(d, q, p);
    }
  }

  lemma {:induction false} FromBigEndianBound(s: seq<Byte>)
    ensures FromBigEndian(s) < Pow256(|s|)
    ensures BigEndian(FromBigEndian(s), |s|) == s
  {
    if s != [] {
      var front, last := s[..|s| - 1], s[|s| - 1];
      FromBigEndianBound(front);
      var n := FromBigEndian(s);
      assert n == FromBigEndian(front) * 256 + last;
      assert n / 256 == FromBigEndian(front) && n % 256 == last;
      assert BigEndian(n, |s|) == BigEndian(n / 256, |front|) + [last];
      assert s == front + [last];
    }
  }

  lemma Pow256Values()
    ensures Pow256(1) == 256 && Pow256(2) == 0x1_0000 && Pow256(4) == 0x1_0000_0000
    ensures Pow256(8) == 0x1_0000_0000_0000_0000
  {
    assert Pow256(2) == 256 * Pow256(1);
    assert Pow256(3) == 256 * Pow256(2);
    assert Pow256(4) == 256 * Pow256(3);
    assert Pow256(5) == 256 * Pow256(4);
    assert Pow256(6) == 256 * Pow256(5);
    assert Pow256(7) == 256 * Pow256(6);
  }

  // ---------- Network byte order

  /** Byte i counts the 256^(k - 1 - i): the most significant byte comes first. */
  lemma {:induction false} BigEndianDigit(n: nat, k: nat, i: nat)
    requires i < k
    ensures BigEndian(n, k)[i] == n / Pow256(k - 1 - i) % 256
    decreases k
  {
    if i == k - 1 {
      assert Pow256(0) == 1;
    } else {
      BigEndianDigit(n / 256, k - 1, i);
      DivideTwice(n, Pow256(k - 2 - i));
    }
  }

  lemma DivideTwice(n: nat, p: nat)
    requires p > 0
    ensures n / 256 / p == n / (256 * p)
  {
    var q, r := n / 256, n % 256;
    var d, e := q / p, q % p;
    assert n == 256 * q + r && q == d * p + e;
    assert n == d * (256 * p) + (256 * e + r);
    assert 0 <= 256 * e + r < 256 * p;
    QuotientIs(n, 256 * p, d, 256 * e + r);
  }

  lemma QuotientIs(n: nat, d: nat, q: nat, r: nat)
    requires d > 0 && n == q * d + r && r < d
    ensures n / d == q
  {
    assert n == d * q + r;
    QuotientIsUnique(n, d, q, r);
    var p := n / d;
    assert n == d * p + r;
    if p < q {
      MulStep(d, p, q);
    } else if q < p {
      MulStep(d, q, p);
    }
  }

  /** Of two strings of one length, the first byte that differs decides which number is larger. */
  lemma {:induction false} FirstByteDecides(a: seq<Byte>, b: seq<Byte>, i: nat)
    requires |a| == |b| && i < |a| && a[..i] == b[..i] && a[i] < b[i]
    ensures FromBigEndian(a) < FromBigEndian(b)
    decreases |a|
  {
    var last := |a| - 1;
    var x, y := a[..last], b[..last];
    if i == last {
      assert x == y;
    } else {
      assert x[..i] == a[..i] && y[..i] == b[..i];
      FirstByteDecides(x, y, i);
    }
  }

  /** What the bytes of numbers of 2, 4 and 8 bytes are. */
  lemma WordLayout(n: nat)
    ensures BigEndian(n, 2) == [n / 0x100 % 0x100, n % 0x100]
    ensures BigEndian(n, 4) == [n / 0x100_0000 % 0x100, n / 0x1_0000 % 0x100, n / 0x100 % 0x100, n % 0x100]
  {
    Pow256Values();
    assert Pow256(0) == 1 && Pow256(3) == 0x100_0000;
    BigEndianDigit(n, 2, 0);
    BigEndianDigit(n, 2, 1);
    BigEndianDigit(n, 4, 0);
    BigEndianDigit(n, 4, 1);
    BigEndianDigit(n, 4, 2);
    BigEndianDigit(n, 4, 3);
  }
}
