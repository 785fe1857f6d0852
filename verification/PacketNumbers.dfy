/** The 32-bit packet numbers of the ring transport: 20 bits of cycle count, 12 bits of repeat
    count, compared with a signed 32-bit subtraction. `Num` is the unbounded number a node means;
    `Wire` is the 32-bit word it stores and sends. */
module PacketNumbers {
  import opened Bytes

  const REPEATS: int := 0x1000
  const CYCLES: int := 0x10_0000

  type Repeat = r: int | 0 <= r < REPEATS

  datatype Num = Num(cycle: nat, rep: Repeat) {
    function Value(): nat { cycle * REPEATS + rep }
  }

  function Wire(n: Num): uint32 {
    (n.cycle % CYCLES) * REPEATS + n.rep
  }

  /** A difference of two int32_t values, wrapped around in two's complement. */
  function Wrap(d: int): int {
    if d >= TWO31 then d - TWO32 else if d < -TWO31 then d + TWO32 else d
  }

  /** The macro packet_after. */
  predicate PacketAfter(a: uint32, b: uint32) {
    Wrap(Signed(b) - Signed(a)) < 0
  }

  /** w & 0xfffff000 */
  function CycleBits(w: uint32): uint32 {
    w - w % REPEATS
  }

  /** The number of the next attempt at the same cycle; the 12 repeat bits wrap around. */
  function NextRepeat(n: Num): Num {
    Num(n.cycle, (n.rep + 1) % REPEATS)
  }

  /** The first number of the next cycle. */
  function NextCycle(n: Num): Num {
    Num(n.cycle + 1, 0)
  }

  /** setForCleaningRound on the stored word: (w & 0xfffff000) | (((w & 0xfff) + 1) & 0xfff) */
  function WireNextRepeat(w: uint32): uint32 {
    CycleBits(w) + (w % REPEATS + 1) % REPEATS
  }

  /** The advance on the stored word: (w & 0xfffff000) + 0x1000, wrapping around. */
  function WireNextCycle(w: uint32): uint32 {
    (CycleBits(w) + REPEATS) % TWO32
  }

  lemma WireIsValue(n: Num)
    ensures Wire(n) == n.Value() % TWO32
    ensures CycleBits(Wire(n)) == (n.cycle * REPEATS) % TWO32
  {
    var q, c := n.cycle / CYCLES, n.cycle % CYCLES;
    assert n.cycle == q * CYCLES + c;
    assert n.Value() == q * TWO32 + Wire(n);
    assert n.cycle * REPEATS == q * TWO32 + c * REPEATS;
    ModShift(Wire(n), q);
    ModShift(c * REPEATS, q);
    LowBits(c, n.rep);
  }

  lemma LowBits(c: nat, r: Repeat)
    ensures (c * REPEATS + r) % REPEATS == r
  {}

  /** The words a node stores follow the numbers it means, wrap-around included: a cleaning
      round leaves the cycle bits alone. */
  lemma WireSteps(n: Num)
    ensures WireNextRepeat(Wire(n)) == Wire(NextRepeat(n))
    ensures CycleBits(WireNextRepeat(Wire(n))) == CycleBits(Wire(n))
    ensures WireNextCycle(Wire(n)) == Wire(NextCycle(n))
  {
    var c := n.cycle % CYCLES;
    assert Wire(n) % REPEATS == n.rep;
    assert (c * REPEATS + (n.rep + 1) % REPEATS) % REPEATS == (n.rep + 1) % REPEATS;
    if c == CYCLES - 1 {
      assert n.cycle + 1 == (n.cycle / CYCLES + 1) * CYCLES;
      assert (n.cycle + 1) % CYCLES == 0;
    } else {
      assert n.cycle + 1 == (n.cycle / CYCLES) * CYCLES + (c + 1);
      assert (n.cycle + 1) % CYCLES == c + 1;
    }
  }

  /** Exactly which true distances the macro calls "after", for all counters. */
  lemma PacketAfterExact(x: nat, y: nat)
    ensures PacketAfter(x % TWO32, y % TWO32) <==> 1 <= (x - y) % TWO32 <= TWO31
  {
    var a, b := x % TWO32, y % TWO32;
    var qx, qy := x / TWO32, y / TWO32;
    assert x - y == (qx - qy) * TWO32 + (a - b);
    ModShift(a - b, qx - qy);
    var d := (a - b) % TWO32;
    var k := (if a >= TWO31 then 1 else 0) - (if b >= TWO31 then 1 else 0);
    assert Signed(b) - Signed(a) == k * TWO32 + (b - a);
    ModShift(b - a, k);
    assert (b - a) % TWO32 == (if d == 0 then 0 else TWO32 - d);
  }

  lemma ModShift(x: int, k: int)
    ensures (k * TWO32 + x) % TWO32 == x % TWO32
  {
    var q := x / TWO32;
    assert k * TWO32 + x == (k + q) * TWO32 + x % TWO32;
  }

  /** The macro is the unbounded order exactly when the distance, taken modulo 2^32, is not on
      the wrong side; in particular whenever the numbers are less than 2^31 apart. */
  lemma PacketAfterIsOrder(x: nat, y: nat)
    ensures (PacketAfter(x % TWO32, y % TWO32) <==> x > y)
       <==> (x > y <==> 1 <= (x - y) % TWO32 <= TWO31)
    ensures -TWO31 < x - y < TWO31 ==> (PacketAfter(x % TWO32, y % TWO32) <==> x > y)
  {
    PacketAfterExact(x, y);
    var d := x - y;
    if -TWO31 < d < 0 {
      ModShift(d, 1);
      assert d % TWO32 == d + TWO32;
    }
  }

  /** A packet exactly 2^31 counts older is taken for a newer one. */
  lemma PacketAfterFailsAtHalfRange()
    ensures var past, now := Num(1, 0), Num(0x8_0001, 0);
            past.Value() < now.Value() && PacketAfter(Wire(past), Wire(now))
  {
    assert Wire(Num(1, 0)) == 0x1000;
    assert Wire(Num(0x8_0001, 0)) == 0x8000_1000;
  }

  predicate Before(m: Num, n: Num) {
    m.cycle < n.cycle || (m.cycle == n.cycle && m.rep < n.rep)
  }

  /** How far apart two cycles may be for the 32-bit comparisons to decide correctly. */
  const WINDOW: int := 0x8_0000

  predicate Close(m: Num, n: Num) {
    -WINDOW < m.cycle - n.cycle < WINDOW
  }

  /** Inside the window the word comparisons a node makes are the comparisons it means. */
  lemma WireOrder(m: Num, n: Num)
    requires Close(m, n)
    ensures PacketAfter(Wire(m), Wire(n)) <==> Before(n, m)
    ensures PacketAfter(CycleBits(Wire(m)), CycleBits(Wire(n))) <==> m.cycle > n.cycle
    ensures Wire(m) == Wire(n) <==> m == n
  {
    WireIsValue(m);
    WireIsValue(n);
    PacketAfterIsOrder(m.Value(), n.Value());
    PacketAfterIsOrder(m.cycle * REPEATS, n.cycle * REPEATS);
    PacketAfterIsOrder(n.Value(), m.Value());
    assert !PacketAfter(Wire(m), Wire(m));
  }

  /** Towards the past the window is all that matters: an older packet is seen to be older. */
  lemma WireSeesOlder(m: Num, n: Num)
    requires Before(n, m) && m.cycle - n.cycle < WINDOW
    ensures PacketAfter(Wire(m), Wire(n))
  {
    WireOrder(m, n);
  }

  // ---------- The words

  /** A retry counts the word up by one, and starts again from the lowest number of the cycle behind the
      highest one; a new cycle goes to the next multiple of 4096, and behind the highest one to zero. */
  lemma WordsCountUp(w: uint32)
    ensures WireNextRepeat(w) == if w % 0x1000 == 0xfff then w - 0xfff else w + 1
    ensures WireNextCycle(w) == if w >= 0xffff_f000 then 0 else w - w % 0x1000 + 0x1000
  {
    var c, r := w / 0x1000, w % 0x1000;
    assert w == c * 0x1000 + r && c <= 0xf_ffff;
    assert CycleBits(w) == c * 0x1000;
  }

  /** The word of a number: twenty bits of cycle, twelve bits of repetition. */
  lemma WordIs(n: Num)
    ensures Wire(n) == n.cycle % 0x10_0000 * 0x1000 + n.rep
    ensures Wire(n) / 0x1000 == n.cycle % 0x10_0000 && Wire(n) % 0x1000 == n.rep
  {
    LowBits(n.cycle % CYCLES, n.rep);
  }

  /** The number after k retries in a cycle. */
  function Retried(n: Num, k: nat): Num {
    if k == 0 then n else NextRepeat(Retried(n, k - 1))
  }

  lemma {:induction false} RetriesCount(cycle: nat, k: nat)
    requires k < 0x1000
    ensures Retried(Num(cycle, 0), k) == Num(cycle, k)
  {
    if k > 0 {
      RetriesCount(cycle, k - 1);
    }
  }
}
