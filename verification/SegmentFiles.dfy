/** FileWithSegments: names for recordings, and for every recording a tag with the place in each stream
    where its data starts. */
module SegmentFiles {
  import opened Bytes
  import opened ControlBlocks
  import opened StreamWriters
  import opened LogStore
  import opened LogRuns
  import opened LogSessions
  import opened LogReading
  import opened LogSegments
  import LogSync

  // ---------- Names

  function Digits(n: nat): string {
    if n < 10 then [DIGITS[n]] else Digits(n / 10) + [DIGITS[n % 10]]
  }

  const DIGITS: seq<char> := "0123456789"

  function Zeros6(n: nat): string {
    if n == 0 then "" else "0" + Zeros6(n - 1)
  }

  /** A number in at least six digits. */
  function Padded(n: nat): string {
    var d := Digits(n);
    Zeros6(if |d| < 6 then 6 - |d| else 0) + d
  }

  function Suffixed(name: string, n: nat): string {
    name + "_" + Padded(n)
  }

  function DigitOf(c: char): nat {
    if '0' <= c <= '9' then (c - '0') as nat else 0
  }

  function ValueOf(s: string): nat {
    if s == "" then 0 else 10 * ValueOf(s[..|s| - 1]) + DigitOf(s[|s| - 1])
  }

  lemma {:induction false} ValueOfDigits(zeros: nat, n: nat)
    ensures ValueOf(Zeros6(zeros) + Digits(n)) == n
    decreases n
  {
    hide ValueOf, DigitOf, Zeros6;
    var z := Zeros6(zeros);
    DigitIs(n % 10);
    if n < 10 {
      ValueOfZeros(zeros);
      ValueOfMore(z, DIGITS[n]);
    } else {
      ValueOfDigits(zeros, n / 10);
      ValueOfMore(z + Digits(n / 10), DIGITS[n % 10]);
      assert z + Digits(n) == z + Digits(n / 10) + [DIGITS[n % 10]];
    }
  }

  lemma DigitIs(d: nat)
    requires d < 10
    ensures DigitOf(DIGITS[d]) == d
  {
  }

  lemma ValueOfMore(s: string, c: char)
    ensures ValueOf(s + [c]) == 10 * ValueOf(s) + DigitOf(c)
  {
    hide DigitOf;
    assert (s + [c])[..|s|] == s;
  }

  lemma {:induction false} ValueOfZeros(n: nat)
    ensures ValueOf(Zeros6(n)) == 0
  {
    if n > 0 {
      ValueOfZeros(n - 1);
      ZerosLast(n - 1);
      var s := Zeros6(n);
      assert s[|s| - 1] == '0' && s[..|s| - 1] == Zeros6(n - 1);
    }
  }

  lemma {:induction false} ZerosLast(n: nat)
    ensures Zeros6(n) + "0" == "0" + Zeros6(n)
  {
    if n > 0 {
      ZerosLast(n - 1);
      assert Zeros6(n) + "0" == "0" + (Zeros6(n - 1) + "0");
    }
  }

  /** Different numbers give different names. */
  lemma SuffixedApart(name: string, m: nat, n: nat)
    requires Suffixed(name, m) == Suffixed(name, n)
    ensures m == n
  {
    hide Padded;
    var a, b := Suffixed(name, m), Suffixed(name, n);
    assert Padded(m) == a[|name| + 1..] == b[|name| + 1..] == Padded(n);
    PaddedValue(m);
    PaddedValue(n);
  }

  lemma PaddedValue(n: nat)
    ensures ValueOf(Padded(n)) == n
  {
    var d := Digits(n);
    ValueOfDigits(if |d| < 6 then 6 - |d| else 0, n);
  }

  function DigitChar(d: nat): char {
    '0' + (d % 10) as char
  }

  lemma DigitCharIs(d: nat)
    ensures DIGITS[d % 10] == DigitChar(d)
  {
    assert DigitChar(0) == '0' && DigitChar(9) == '9';
  }

  /** A number in k digits is the number without its last digit in one digit less, and that digit. */
  lemma LastDigit(n: nat, k: nat)
    requires k >= 2 && |Digits(n)| <= k && (n < 10 ==> |Digits(n / 10)| == 1)
    ensures |Digits(n / 10)| <= k - 1 || n < 10
    ensures n >= 10 ==> Zeros6(k - |Digits(n)|) + Digits(n) == Zeros6(k - 1 - |Digits(n / 10)|) + Digits(n / 10) + [DigitChar(n)]
    ensures n < 10 ==> Zeros6(k - 1) + Digits(n) == Zeros6(k - 2) + Digits(0) + [DigitChar(n)]
  {
    hide Zeros6;
    DigitCharIs(n);
    if n < 10 {
      ZerosStep(k - 2);
    }
  }

  lemma ZerosStep(n: nat)
    ensures Zeros6(n + 1) == Zeros6(n) + "0" && Digits(0) == "0"
  {
    ZerosLast(n);
  }

  function InDigits(n: nat, k: nat): string {
    if k == 0 then "" else InDigits(n / 10, k - 1) + [DigitChar(n)]
  }

  lemma {:induction false} DigitsInPlace(n: nat, k: nat)
    requires k >= 1 && |Digits(n)| <= k
    ensures Zeros6(k - |Digits(n)|) + Digits(n) == InDigits(n, k)
    decreases k
  {
    hide Zeros6, DigitChar;
    if k == 1 {
      OneDigit(n);
    } else {
      assert Digits(0) == "0";
      LastDigit(n, k);
      DigitsInPlace(n / 10, k - 1);
    }
  }

  lemma OneDigit(n: nat)
    requires |Digits(n)| == 1
    ensures n < 10 && Zeros6(0) + Digits(n) == InDigits(n, 1)
  {
    DigitCharIs(n);
  }

  lemma {:induction false} DigitsLength(n: nat, k: nat, bound: nat)
    requires k >= 1 && bound == Power10(k) && n < bound
    ensures 1 <= |Digits(n)| <= k
    decreases k
  {
    if n >= 10 {
      DigitsLength(n / 10, k - 1, Power10(k - 1));
    }
  }

  function Power10(k: nat): nat {
    if k == 0 then 1 else 10 * Power10(k - 1)
  }

  /** Up to a million the number is written in six digits, behind an underscore. */
  lemma SuffixIs(name: string, n: nat)
    requires n < 1_000_000
    ensures Suffixed(name, n)
            == name + ['_', DigitChar(n / 100_000), DigitChar(n / 10_000), DigitChar(n / 1000), DigitChar(n / 100),
                       DigitChar(n / 10), DigitChar(n)]
    ensures DigitChar(0) == '0' && DigitChar(1) == '1' && DigitChar(9) == '9'
  {
    hide DigitChar;
    assert Power10(3) == 1000 && Power10(6) == 1_000_000;
    DigitsLength(n, 6, 1_000_000);
    DigitsInPlace(n, 6);
    SixDigits(n);
    hide *;
    DigitCharValues();
    SuffixedIs(name, n);
    assert name + "_" + InDigits(n, 6) == name + ("_" + InDigits(n, 6));
  }

  lemma DigitCharValues()
    ensures DigitChar(0) == '0' && DigitChar(1) == '1' && DigitChar(9) == '9'
  {}

  lemma SuffixedIs(name: string, n: nat)
    requires 1 <= |Digits(n)| <= 6
    ensures Suffixed(name, n) == name + "_" + (Zeros6(6 - |Digits(n)|) + Digits(n))
  {
    hide Digits, Zeros6;
  }

  lemma SixDigits(n: nat)
    ensures InDigits(n, 6) == [DigitChar(n / 100_000), DigitChar(n / 10_000), DigitChar(n / 1000), DigitChar(n / 100),
                               DigitChar(n / 10), DigitChar(n)]
  {
    hide DigitChar;
    assert n / 10 / 10 == n / 100 && n / 100 / 10 == n / 1000 && n / 1000 / 10 == n / 10_000 && n / 10_000 / 10 == n / 100_000;
    assert InDigits(n / 100_000, 1) == [DigitChar(n / 100_000)];
    assert InDigits(n / 10_000, 2) == InDigits(n / 100_000, 1) + [DigitChar(n / 10_000)];
    assert InDigits(n / 1000, 3) == InDigits(n / 10_000, 2) + [DigitChar(n / 1000)];
    assert InDigits(n / 100, 4) == InDigits(n / 1000, 3) + [DigitChar(n / 100)];
    assert InDigits(n / 10, 5) == InDigits(n / 100, 4) + [DigitChar(n / 10)];
  }

  lemma {:induction false} SubsetSize(a: set<string>, b: set<string>)
    requires a <= b
    ensures |a| <= |b|
    decreases |a|
  {
    if a != {} {
      var x :| x in a;
      SubsetSize(a - {x}, b - {x});
    }
  }

  /** The name that a recording gets: the one asked for, or the first free numbered one. */
  ghost predicate FirstFree(wanted: string, taken: set<string>, name: string) {
    && name !in taken
    && if wanted !in taken then name == wanted
       else exists k: nat :: k >= 1 && name == Suffixed(wanted, k) && forall i | 1 <= i < k :: Suffixed(wanted, i) in taken
  }

  // ---------- The file

  datatype Tag = Tag(cycle: nat, index0: nat, name: string, offset: seq<nat>, inblock: seq<nat>)

  datatype Outcome = Recorded | IndexNotCorrect

  /** Where the data of a stretch starts in the block of each recorder: as reported, or, for a recorder
      that recorded nothing, where the stretch before it started. */
  function StartsOf(tags: seq<Tag>, dirty: seq<bool>, reported: seq<nat>): (r: seq<nat>)
    requires |dirty| == |reported| && (tags != [] ==> |tags[|tags| - 1].inblock| >= |dirty|)
    ensures |r| == |dirty|
  {
    seq(|dirty|, i requires 0 <= i < |dirty| =>
      if dirty[i] then reported[i] else if tags == [] then HEADER else tags[|tags| - 1].inblock[i])
  }

  class FileWithSegments {
    var name: string
    var cycle: nat
    var index0: nat
    /** The upcoming tag's places, one for each recorder. */
    var offset: seq<nat>
    var inblock: seq<nat>
    var tags: seq<Tag>
    var lookup: map<string, nat>
    var recording: bool
    /** What the recorders know of themselves: whether they recorded in this stretch, and up to when. */
    var dirty: seq<bool>
    var marked: seq<nat>

    ghost predicate Valid()
      reads this
    {
      && |offset| == |inblock| == |dirty| == |marked|
      && forall t | t in tags :: |t.inblock| == |t.offset| == |dirty|
    }

    constructor (recorders: nat)
      ensures Valid() && tags == [] && lookup == map[] && |dirty| == recorders && !recording
      ensures inblock == seq(recorders, _ => 0) && offset == seq(recorders, _ => 0)
    {
      name, cycle, index0, recording := "", 0, 0, false;
      offset, inblock := seq(recorders, _ => 0), seq(recorders, _ => 0);
      dirty, marked := seq(recorders, _ => false), seq(recorders, _ => 0);
      tags, lookup := [], map[];
    }

    /** Make the name of the next recording unique. */
    method NameRecording(wanted: string)
      modifies `name
      ensures FirstFree(wanted, lookup.Keys, name)
    {
      hide Suffixed;
      var suffix: nat := 0;
      name := wanted;
      ghost var tried: set<string> := {};
      while name in lookup
        invariant name == if suffix == 0 then wanted else Suffixed(wanted, suffix)
        invariant tried <= lookup.Keys && |tried| == suffix
        invariant forall t | t in tried :: t == wanted || exists i: nat :: 1 <= i < suffix && t == Suffixed(wanted, i)
        invariant suffix > 0 ==> wanted in lookup && forall i | 1 <= i < suffix :: Suffixed(wanted, i) in lookup
        invariant name !in tried
        decreases |lookup| - suffix
      {
        ghost var more := tried + {name};
        SubsetSize(more, lookup.Keys);
        assert |more| == suffix + 1;
        suffix := suffix + 1;
        NotTried(wanted, suffix, more);
        name := Suffixed(wanted, suffix);
        tried := more;
      }
    }

    method StartStretch(tick: nat)
      requires Valid()
      modifies this
      ensures Valid() && recording && tags == old(tags) && lookup == old(lookup) && dirty == old(dirty) && marked == old(marked)
      ensures name == old(name) && offset == old(offset)
      ensures inblock == if name == "" then old(inblock) else seq(|old(inblock)|, _ => 0)
      ensures name != "" ==> cycle == |tags| && index0 == tick
    {
      if name != "" {
        index0, cycle := tick, |tags|;
        inblock := seq(|inblock|, _ => 0);
      }
      recording := true;
    }

    /** Has every recorder recorded up to the end of the stretch? */
    method AllWritten(tick: nat) returns (complete: bool)
      ensures complete <==> forall i | 0 <= i < |marked| :: tick <= marked[i]
    {
      complete := true;
      for i := 0 to |marked|
        invariant complete <==> forall j | 0 <= j < i :: tick <= marked[j]
      {
        complete := complete && tick <= marked[i];
      }
    }

    /** Every recorder is made clean, and the places of those that recorded nothing are filled in; tells
        whether all others were reported. */
    method FillStarts() returns (complete: bool)
      requires Valid()
      modifies `dirty, `inblock
      ensures Valid() && dirty == seq(|old(dirty)|, _ => false)
      ensures inblock == StartsOf(tags, old(dirty), old(inblock))
      ensures complete <==> forall i | 0 <= i < |old(dirty)| :: old(dirty)[i] ==> old(inblock)[i] != 0
    {
      complete := true;
      for idx := 0 to |dirty|
        invariant Valid() && |dirty| == |old(dirty)|
        invariant forall i | 0 <= i < |dirty| :: dirty[i] == (i >= idx && old(dirty)[i])
        invariant forall i | 0 <= i < |dirty| ::
                    inblock[i] == if i < idx then StartsOf(tags, old(dirty), old(inblock))[i] else old(inblock)[i]
        invariant complete <==> forall i | 0 <= i < idx :: old(dirty)[i] ==> old(inblock)[i] != 0
      {
        if dirty[idx] {
          dirty := dirty[idx := false];
          if inblock[idx] == 0 {
            complete := false;
          }
        } else {
          inblock := inblock[idx := if tags != [] then tags[|tags| - 1].inblock[idx] else HEADER];
        }
      }
    }

    /** The second part of completeStretch, when the recorders' data went to file and was reported. */
    method CompleteTag() returns (outcome: Outcome)
      requires Valid()
      modifies this
      ensures Valid() && offset == old(offset) && dirty == seq(|old(dirty)|, _ => false) && marked == old(marked)
      ensures inblock == StartsOf(old(tags), old(dirty), old(inblock))
      ensures outcome == if forall i | 0 <= i < |old(dirty)| :: old(dirty)[i] ==> old(inblock)[i] != 0 then Recorded
                         else IndexNotCorrect
      ensures outcome.Recorded? ==>
                && tags == old(tags) + [Tag(cycle, index0, name, offset, inblock)] && !recording
                && lookup == if name in old(lookup) then old(lookup) else old(lookup)[name := |old(tags)|]
      ensures outcome.IndexNotCorrect? ==> tags == old(tags) && lookup == old(lookup) && recording == old(recording)
      ensures cycle == old(cycle) && index0 == old(index0) && name == old(name)
    {
      var complete := FillStarts();
      if !complete {
        return IndexNotCorrect;
      }
      recording := false;
      if name !in lookup {
        lookup := lookup[name := |tags|];
      }
      tags := tags + [Tag(cycle, index0, name, offset, inblock)];
      return Recorded;
    }
  }

  /** The next numbered name was not tried before. */
  lemma NotTried(wanted: string, suffix: nat, tried: set<string>)
    requires forall t | t in tried :: t == wanted || exists i: nat :: 1 <= i < suffix && t == Suffixed(wanted, i)
    ensures Suffixed(wanted, suffix) !in tried
  {
    assert |Suffixed(wanted, suffix)| > |wanted|;
    if Suffixed(wanted, suffix) in tried {
      var i: nat :| 1 <= i < suffix && Suffixed(wanted, suffix) == Suffixed(wanted, i);
      SuffixedApart(wanted, suffix, i);
    }
  }

  // ---------- Tags and recordings

  /** A recorder that recorded in the stretch always has its start reported when its buffers are on file:
      completing the tag does not fail, and the tag holds the place where the stretch began. */
  lemma DirtyStartIsReported(ops: seq<Op>, s: nat, q: nat)
    requires IsSession(ops) && 2 <= s < |After(ops).writers| && PhaseOf(ops, s) == Begun(q)
    requires Saved(ops, s) && After(ops).jobs == []
    ensures s < |After(ops).tags| && After(ops).tags[s].inside >= HEADER && Tagged(ops, s, q)
  {
    hide IsSession, After, PhaseOf, Saved, PiecesOf, ChainAfter, CapacityOf, Tagged;
    LogSync.NoBuffersLeft(ops, s);
    SavedIsTagged(ops, s, q);
    var j := TagIsStart(ops, s, q);
  }
}
