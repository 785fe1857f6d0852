/** The queue of activities that wait for one activity manager. A more important activity has a
    higher order, and an older one is more important: one tick of age counts as much as 100 in
    order. */
module RunQueues {
  import opened Bytes

  const TIME_WEIGHT: int := 100

  datatype ActivityItem = ActivityItem(activity: nat, order: int, start: uint32)

  /** What a number becomes in 32-bit signed arithmetic. */
  function Int(x: int): int {
    Signed(x % TWO32)
  }

  /** The comparison as written: unsigned difference of the start ticks, taken the way round that is
      not negative, as a signed number from there on. */
  predicate Less(a: ActivityItem, b: ActivityItem) {
    if a.start > b.start then
      Int(Int(a.order - b.order) - Int(TIME_WEIGHT * Int(a.start - b.start))) < 0
    else
      Int(Int(a.order - b.order) + Int(TIME_WEIGHT * Int(b.start - a.start))) < 0
  }

  function Key(a: ActivityItem): int {
    a.order - TIME_WEIGHT * a.start
  }

  lemma IntIs(x: int)
    ensures exists k :: Int(x) == x + k * TWO32
    ensures -0x8000_0000 <= Int(x) < 0x8000_0000
  {
    assert x == (x / TWO32) * TWO32 + x % TWO32;
    if x % TWO32 >= 0x8000_0000 {
      assert Int(x) == x + (-(x / TWO32) - 1) * TWO32;
    } else {
      assert Int(x) == x + (-(x / TWO32)) * TWO32;
    }
  }

  lemma SameInt(x: int, y: int, k: int)
    requires x == y + k * TWO32
    ensures Int(x) == Int(y)
  {
    assert x % TWO32 == y % TWO32 by {
      var q, r := y / TWO32, y % TWO32;
      assert x == (q + k) * TWO32 + r;
    }
  }

  /** For all items, the comparison is about the difference of the keys, in 32 bits. */
  lemma LessIsAboutKeys(a: ActivityItem, b: ActivityItem)
    ensures Less(a, b) <==> Int(Key(a) - Key(b)) < 0
  {
    var d := a.order - b.order;
    var t := if a.start > b.start then a.start - b.start else b.start - a.start;
    var s := if a.start > b.start then -1 else 1;
    IntIs(d);
    IntIs(t);
    var i :| Int(d) == d + i * TWO32;
    var j :| Int(t) == t + j * TWO32;
    IntIs(TIME_WEIGHT * Int(t));
    var k :| Int(TIME_WEIGHT * Int(t)) == TIME_WEIGHT * Int(t) + k * TWO32;
    SameInt(Int(d) + s * Int(TIME_WEIGHT * Int(t)), d + s * TIME_WEIGHT * t, i + s * (TIME_WEIGHT * j + k));
  }

  /** Keys that are less than 2^31 apart are compared as they are. */
  predicate Near(a: ActivityItem, b: ActivityItem) {
    -0x8000_0000 < Key(a) - Key(b) < 0x8000_0000
  }

  lemma LessIsKeyOrder(a: ActivityItem, b: ActivityItem)
    requires Near(a, b)
    ensures Less(a, b) <==> Key(a) < Key(b)
  {
    LessIsAboutKeys(a, b);
  }

  /** An item and its number in the order of scheduling. */
  datatype Entry = Entry(item: ActivityItem, serial: nat)

  /** Farther apart it fails: of two activities of the same order, one that waits for 2^31 / 100
      ticks counts as the less important one. */
  lemma OldItemLooksLess(activity: nat, order: int)
    ensures var older, newer := ActivityItem(activity, order, 0), ActivityItem(activity, order, 21_474_837);
            Key(newer) < Key(older) && Less(older, newer)
  {
    LessIsAboutKeys(ActivityItem(activity, order, 0), ActivityItem(activity, order, 21_474_837));
  }

  /** The entry that has to run first: the one with the larger key, and of equal keys the older one. */
  predicate Before(a: Entry, b: Entry) {
    Key(a.item) > Key(b.item) || (Key(a.item) == Key(b.item) && a.serial < b.serial)
  }

  predicate Sorted(queue: seq<Entry>) {
    forall i, j | 0 <= i < j < |queue| :: Before(queue[i], queue[j])
  }

  /** The place of a new item: from the end of the queue, past all items that are less. */
  function Place(queue: seq<Entry>, item: ActivityItem): (i: nat)
    ensures i <= |queue|
    ensures forall k | i <= k < |queue| :: Less(queue[k].item, item)
    ensures i > 0 ==> !Less(queue[i - 1].item, item)
  {
    if queue == [] || !Less(queue[|queue| - 1].item, item) then |queue|
    else Place(queue[..|queue| - 1], item)
  }

  /** Everything that was scheduled so far, waiting or taken off the queue. */
  datatype History = History(queue: seq<Entry>, popped: seq<Entry>, scheduled: seq<Entry>)

  const START: History := History([], [], [])

  datatype Step = Schedule(item: ActivityItem) | Pop

  function After(h: History, s: Step): History {
    match s
    case Schedule(item) =>
      var i := Place(h.queue, item);
      var e := Entry(item, |h.scheduled|);
      History(h.queue[..i] + [e] + h.queue[i..], h.popped, h.scheduled + [e])
    case Pop =>
      if h.queue == [] then h else History(h.queue[1..], h.popped + [h.queue[0]], h.scheduled)
  }

  function Run(steps: seq<Step>): History {
    if steps == [] then START else After(Run(steps[..|steps| - 1]), steps[|steps| - 1])
  }

  /** No item is scheduled while another one waits whose key is 2^31 or more away. */
  ghost predicate Moderate(h: History, s: Step) {
    s.Schedule? ==> forall e | e in h.queue :: Near(e.item, s.item)
  }

  ghost predicate AllModerate(steps: seq<Step>) {
    forall i | 0 <= i < |steps| :: Moderate(Run(steps[..i]), steps[i])
  }

  /** An entry that went first although it was scheduled later has the larger key. */
  predicate NoneUnfair(h: History) {
    && (forall i, j | 0 <= i < j < |h.popped| && h.popped[j].serial < h.popped[i].serial ::
          Key(h.popped[j].item) < Key(h.popped[i].item))
    && (forall p, w | p in h.popped && w in h.queue && w.serial < p.serial :: Key(w.item) < Key(p.item))
  }

  /** Everything scheduled is waiting or gone, each item once. */
  ghost predicate NoneLost(h: History) {
    && multiset(h.queue) + multiset(h.popped) == multiset(h.scheduled)
    && forall i | 0 <= i < |h.scheduled| :: h.scheduled[i].serial == i
  }

  lemma OldSerials(h: History, e: Entry)
    requires NoneLost(h) && (e in h.queue || e in h.popped)
    ensures e.serial < |h.scheduled|
  {
    assert e in multiset(h.queue) + multiset(h.popped);
    assert e in h.scheduled;
  }

  lemma InsertedInOrder(q: seq<Entry>, i: nat, e: Entry)
    requires i <= |q| && Sorted(q)
    requires forall k | 0 <= k < i :: Before(q[k], e)
    requires forall k | i <= k < |q| :: Before(e, q[k])
    ensures Sorted(q[..i] + [e] + q[i..])
  {
    hide Before;
    var r := q[..i] + [e] + q[i..];
    forall a, b | 0 <= a < b < |r| ensures Before(r[a], r[b]) {
      assert r[a] == if a < i then q[a] else if a == i then e else q[a - 1];
      assert r[b] == if b < i then q[b] else if b == i then e else q[b - 1];
    }
  }

  lemma PlaceIsRight(h: History, item: ActivityItem, k: nat)
    requires Sorted(h.queue) && NoneLost(h) && Moderate(h, Schedule(item)) && k < |h.queue|
    ensures var e := Entry(item, |h.scheduled|);
            if k < Place(h.queue, item) then Before(h.queue[k], e) else Before(e, h.queue[k])
  {
    hide Less;
    var i, q := Place(h.queue, item), h.queue;
    assert q[k] in q;
    OldSerials(h, q[k]);
    LessIsKeyOrder(q[k].item, item);
    if k < i {
      assert q[i - 1] in q;
      LessIsKeyOrder(q[i - 1].item, item);
      assert k < i - 1 ==> Before(q[k], q[i - 1]);
    }
  }

  lemma ScheduleKeepsOrder(h: History, item: ActivityItem)
    requires Sorted(h.queue) && NoneLost(h) && Moderate(h, Schedule(item))
    ensures Sorted(After(h, Schedule(item)).queue)
  {
    var i, q := Place(h.queue, item), h.queue;
    var e := Entry(item, |h.scheduled|);
    forall k | 0 <= k < |q|
      ensures if k < i then Before(q[k], e) else Before(e, q[k])
    {
      PlaceIsRight(h, item, k);
    }
    InsertedInOrder(q, i, e);
  }

  lemma NothingGetsLost(h: History, s: Step)
    requires NoneLost(h)
    ensures NoneLost(After(h, s))
  {
    hide Place;
    var r := After(h, s);
    if s.Schedule? {
      var i := Place(h.queue, s.item);
      assert h.queue == h.queue[..i] + h.queue[i..];
    } else if h.queue != [] {
      assert h.queue == [h.queue[0]] + r.queue;
    }
  }

  lemma ScheduleIsFair(h: History, item: ActivityItem)
    requires NoneLost(h) && NoneUnfair(h)
    ensures NoneUnfair(After(h, Schedule(item)))
  {
    hide Place, Key;
    var r := After(h, Schedule(item));
    forall p, w | p in r.popped && w in r.queue && w.serial < p.serial
      ensures Key(w.item) < Key(p.item)
    {
      OldSerials(h, p);
      assert w in h.queue;
    }
  }

  lemma PopIsFair(h: History)
    requires Sorted(h.queue) && NoneUnfair(h)
    ensures Sorted(After(h, Pop).queue) && NoneUnfair(After(h, Pop))
  {
    if h.queue != [] {
      var r, first := After(h, Pop), h.queue[0];
      assert h.queue == [first] + r.queue;
      forall i, j | 0 <= i < j < |r.popped| && r.popped[j].serial < r.popped[i].serial
        ensures Key(r.popped[j].item) < Key(r.popped[i].item)
      {
        assert r.popped[i] in h.popped && first in h.queue;
      }
      forall p, w | p in r.popped && w in r.queue && w.serial < p.serial
        ensures Key(w.item) < Key(p.item)
      {
        var k :| 0 <= k < |r.queue| && r.queue[k] == w;
        assert Before(h.queue[0], h.queue[k + 1]);
        assert p == first || p in h.popped;
      }
    }
  }

  /** Over every run of moderate differences: the queue is in order, nothing is lost or doubled, and
      an item overtakes one scheduled before it only if its key is larger. */
  lemma {:induction false} RunsAreFair(steps: seq<Step>)
    requires AllModerate(steps)
    ensures var h := Run(steps); Sorted(h.queue) && NoneLost(h) && NoneUnfair(h)
  {
    if steps != [] {
      var last := |steps| - 1;
      var before := steps[..last];
      forall i | 0 <= i < last ensures Moderate(Run(before[..i]), before[i]) {
        assert before[..i] == steps[..i];
        assert Moderate(Run(steps[..i]), steps[i]);
      }
      RunsAreFair(before);
      assert Moderate(Run(steps[..last]), steps[last]);
      NothingGetsLost(Run(before), steps[last]);
      if steps[last].Schedule? {
        ScheduleKeepsOrder(Run(before), steps[last].item);
        ScheduleIsFair(Run(before), steps[last].item);
      } else {
        PopIsFair(Run(before));
      }
    }
  }

  /** How much later an item that overtakes can start: less than the difference in order allows. */
  lemma OvertakingIsBounded(steps: seq<Step>, early: Entry, late: Entry)
    requires AllModerate(steps) && early.serial < late.serial
    requires var h := Run(steps);
             late in h.popped
             && (early in h.queue || exists i, j :: 0 <= i < j < |h.popped| && h.popped[i] == late && h.popped[j] == early)
    ensures TIME_WEIGHT * (late.item.start - early.item.start) < late.item.order - early.item.order
  {
    RunsAreFair(steps);
  }

  class RunQueue {
    const prio: nat
    var items: seq<ActivityItem>      // the list between head and tail
    var qsize: nat
    ghost var history: History

    ghost predicate Valid()
      reads this
    {
      && qsize == |items| == |history.queue|
      && forall i | 0 <= i < |items| :: items[i] == history.queue[i].item
    }

    constructor (prio: nat)
      ensures Valid() && this.prio == prio && history == START
    {
      this.prio := prio;
      items, qsize, history := [], 0, START;
    }

    /** From the tail of the queue, past all items that are less. */
    method FindPlace(item: ActivityItem) returns (tmp: nat)
      requires Valid()
      ensures tmp == Place(history.queue, item)
    {
      hide Place, Less;
      tmp := |items|;
      while tmp > 0 && Less(items[tmp - 1], item)
        invariant tmp <= |items| && forall k | tmp <= k < |items| :: Less(items[k], item)
      {
        tmp := tmp - 1;
      }
    }

    /** Queue an item: in its place, or without priority at the end. */
    method Schedule(item: ActivityItem)
      requires Valid()
      modifies this
      ensures Valid() && qsize == old(qsize) + 1
      ensures prio != 0 ==> history == After(old(history), Step.Schedule(item))
      ensures prio == 0 ==> items == old(items) + [item]
    {
      hide Place, Less;
      var tmp := |items|;
      if prio != 0 {
        tmp := FindPlace(item);
      }
      ghost var e := Entry(item, |history.scheduled|);
      items := items[..tmp] + [item] + items[tmp..];
      history := History(history.queue[..tmp] + [e] + history.queue[tmp..], history.popped, history.scheduled + [e]);
      qsize := qsize + 1;
    }

    /** Take the first item off the queue, as the manager does before it despatches it. */
    method PopAfter() returns (item: ActivityItem)
      requires Valid() && items != []
      modifies this
      ensures Valid() && qsize == old(qsize) - 1 && item == old(items[0])
      ensures history == After(old(history), Pop)
    {
      item := items[0];
      items := items[1..];
      history := After(history, Pop);
      qsize := qsize - 1;
    }
  }
}
