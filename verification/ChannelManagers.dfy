/** The registry of channels on node 0: one organiser per channel name, found by name when an event
    arrives and by identity when somebody asks for the name. */
module ChannelManagers {
  import opened ChannelOrganisers

  const NUM_LOCAL_CHANNELS: nat := 2

  /** The name set of three empty parts. */
  const NO_NAME: NameSet := "://"

  /** Identities are 16-bit numbers, of which the last stands for none. */
  const MAX_CHANNELS: nat := 0xfffc

  /** What the registry keeps per channel. Entries that stand for no channel have neither name nor
      identity. */
  datatype Slot = Slot(name: NameSet, channel: nat)

  const EMPTY: Slot := Slot(NO_NAME, INVALID_CHANNEL)

  /** The first organiser with a name, or the end. */
  function Find(slots: seq<Slot>, name: NameSet): (i: nat)
    ensures i <= |slots| && (i < |slots| ==> slots[i].name == name)
    ensures forall j | 0 <= j < i :: slots[j].name != name
  {
    if slots == [] then 0 else if slots[0].name == name then 0 else 1 + Find(slots[1..], name)
  }

  /** The registry and the last identity given out. */
  datatype Registry = Registry(slots: seq<Slot>, count: nat)

  function Resized(slots: seq<Slot>, n: nat): seq<Slot> {
    if n <= |slots| then slots[..n] else slots + seq(n - |slots|, _ => EMPTY)
  }

  function Request(r: Registry, name: NameSet): Registry {
    if Find(r.slots, name) < |r.slots| then r
    else
      var count := (r.count + 1) % 0x1_0000;
      var slots := if count >= |r.slots| then Resized(r.slots, count) else r.slots;
      Registry(slots + [Slot(name, count)], count)
  }

  function Requested(names: seq<NameSet>): Registry {
    if names == [] then Registry([], NUM_LOCAL_CHANNELS)
    else Request(Requested(names[..|names| - 1]), names[|names| - 1])
  }

  /** No organiser yet, or one at the place of each identity that was given out. */
  predicate Tidy(r: Registry) {
    if r.slots == [] then r.count == NUM_LOCAL_CHANNELS
    else
      && |r.slots| == r.count + 1 && NUM_LOCAL_CHANNELS < r.count < INVALID_CHANNEL
      && (forall i | 0 <= i <= NUM_LOCAL_CHANNELS :: r.slots[i] == EMPTY)
      && (forall i | NUM_LOCAL_CHANNELS < i <= r.count :: r.slots[i].channel == i)
      && (forall i, j | NUM_LOCAL_CHANNELS < i < j <= r.count :: r.slots[i].name != r.slots[j].name)
  }

  lemma RequestIsTidy(r: Registry, name: NameSet)
    requires Tidy(r) && r.count + 1 < INVALID_CHANNEL
    ensures Tidy(Request(r, name)) && Request(r, name).count <= r.count + 1 && r.slots <= Request(r, name).slots
    ensures Find(Request(r, name).slots, name) < |Request(r, name).slots|
    ensures Find(r.slots, name) == |r.slots| && name != NO_NAME ==>
              Find(Request(r, name).slots, name) == |Request(r, name).slots| - 1
  {
    hide Find;
    var next := Request(r, name);
    var s := next.slots;
    if Find(r.slots, name) == |r.slots| {
      if r.slots == [] {
        assert s == [EMPTY, EMPTY, EMPTY, Slot(name, next.count)];
      } else {
        assert s == r.slots + [Slot(name, next.count)];
      }
      assert s[|s| - 1].name == name;
    }
  }

  lemma FindStays(a: seq<Slot>, b: seq<Slot>, name: NameSet)
    requires a <= b
    ensures Find(a, name) < |a| ==> Find(b, name) == Find(a, name)
  {
    var i, j := Find(a, name), Find(b, name);
    if i < |a| {
      assert b[i] == a[i];
      assert j < |a| ==> b[j] == a[j];
    }
  }

  lemma {:induction false} RequestsAreTidy(names: seq<NameSet>)
    requires |names| <= MAX_CHANNELS
    ensures Tidy(Requested(names)) && Requested(names).count <= NUM_LOCAL_CHANNELS + |names|
    ensures forall i | 0 <= i < |names| :: Find(Requested(names).slots, names[i]) < |Requested(names).slots|
  {
    hide Tidy, Request, Find;
    if names == [] {
      EmptyIsTidy();
    } else {
      var before := names[..|names| - 1];
      RequestsAreTidy(before);
      RequestIsTidy(Requested(before), names[|names| - 1]);
      forall i | 0 <= i < |names|
        ensures Find(Requested(names).slots, names[i]) < |Requested(names).slots|
      {
        if i < |before| {
          assert names[i] == before[i];
          FindStays(Requested(before).slots, Requested(names).slots, names[i]);
        }
      }
    }
  }

  lemma EmptyIsTidy()
    ensures Tidy(Requested([]))
  {}

  /** Whatever was requested before and is requested afterwards, a name keeps the organiser it got;
      and that organiser gives out an identity that looks up to the name again exactly if the name
      is not the empty one, which finds a filler entry in front of its own. */
  lemma NameKeepsItsId(names: seq<NameSet>, more: seq<NameSet>, name: NameSet)
    requires name in names && |names| + |more| <= MAX_CHANNELS
    ensures var r := Requested(names);
            var i := Find(r.slots, name);
            && i < |r.slots| && Find(Requested(names + more).slots, name) == i
            && (r.slots[i].channel == i <==> name != NO_NAME)
            && (name != NO_NAME ==> i > NUM_LOCAL_CHANNELS)
            && (name == NO_NAME ==> r.slots[i].channel == INVALID_CHANNEL)
  {
    RequestsAreTidy(names);
    MoreRequests(names, more);
    FindStays(Requested(names).slots, Requested(names + more).slots, name);
  }

  /** The first identity given out is 3. */
  lemma FirstIdentity(a: NameSet)
    ensures Requested([a]) == Registry([EMPTY, EMPTY, EMPTY, Slot(a, 3)], 3)
  {
    assert [a][..0] == [] && Requested([]) == Registry([], 2);
    assert Resized([], 3) == [EMPTY, EMPTY, EMPTY];
  }

  /** A new name gets the next one, and a known name none. */
  lemma NextIdentity(r: Registry, name: NameSet)
    requires Tidy(r)
    ensures var next := Request(r, name);
            if Find(r.slots, name) < |r.slots| then next == r
            else next.count == r.count + 1 && next.slots != [] && next.slots[|next.slots| - 1] == Slot(name, r.count + 1)
  {
    CountIsSmall(r);
    hide Find, Resized, Tidy;
  }

  lemma CountIsSmall(r: Registry)
    requires Tidy(r)
    ensures r.count < INVALID_CHANNEL
  {}

  lemma {:induction false} MoreRequests(names: seq<NameSet>, more: seq<NameSet>)
    requires |names| + |more| <= MAX_CHANNELS
    ensures Requested(names).slots <= Requested(names + more).slots
  {
    if more == [] {
      assert names + more == names;
    } else {
      var less := more[..|more| - 1];
      MoreRequests(names, less);
      assert (names + more)[..|names + more| - 1] == names + less;
      RequestsAreTidy(names + less);
      RequestIsTidy(Requested(names + less), more[|more| - 1]);
    }
  }

  function SlotsOf(organisers: seq<ChannelOrganiser>): seq<Slot> {
    seq(|organisers|, i requires 0 <= i < |organisers| => Slot(organisers[i].name, organisers[i].channel))
  }

  ghost predicate AllDifferent(organisers: seq<ChannelOrganiser>) {
    forall i, j | 0 <= i < j < |organisers| :: organisers[i] != organisers[j]
  }

  lemma NamedSlot(r: Registry, name: NameSet)
    requires Tidy(r) && name != NO_NAME && Find(r.slots, name) < |r.slots|
    ensures r.slots[Find(r.slots, name)].channel == Find(r.slots, name) > NUM_LOCAL_CHANNELS
  {}

  class ChannelManager {
    var organisers: seq<ChannelOrganiser>   // channel_organisation
    var count: nat                          // channel_id_count

    ghost predicate Sound()
      reads this, organisers
    {
      AllDifferent(organisers) && forall o | o in organisers :: o.Valid()
    }

    ghost predicate Valid()
      reads this, organisers
    {
      Sound() && Tidy(View())
    }

    /** The registry that the organisers stand for. */
    ghost function View(): Registry
      reads this
    {
      Registry(SlotsOf(organisers), count)
    }

    /** What is known of the channel with a name: nobody takes part in an unknown one. */
    ghost function Members(name: NameSet): Membership
      reads this, organisers
    {
      var i := Find(SlotsOf(organisers), name);
      if i < |organisers| then organisers[i].View() else NOBODY
    }

    constructor ()
      ensures Valid() && View() == Requested([]) && organisers == []
    {
      organisers, count := [], NUM_LOCAL_CHANNELS;
    }

    method IndexOf(name: NameSet) returns (i: nat)
      ensures i == Find(SlotsOf(organisers), name)
    {
      ghost var slots := SlotsOf(organisers);
      i := 0;
      while i < |organisers| && organisers[i].name != name
        invariant 0 <= i <= |organisers|
        invariant forall j | 0 <= j < i :: slots[j].name != name
      {
        i := i + 1;
      }
      assert i < |organisers| ==> slots[i].name == name;
    }

    method PushBack(name: NameSet, channel: nat)
      requires Sound()
      modifies this`organisers
      ensures Sound() && |organisers| == |old(organisers)| + 1 && old(organisers) <= organisers
      ensures var o := organisers[|organisers| - 1]; fresh(o) && o.View() == NOBODY && o.sent == []
      ensures SlotsOf(organisers) == SlotsOf(old(organisers)) + [Slot(name, channel)]
    {
      var o := new ChannelOrganiser(name, channel);
      organisers := organisers + [o];
    }

    /** Fill up with entries that stand for no channel. */
    method Resize(n: nat)
      requires Sound() && |organisers| <= n
      modifies this`organisers
      ensures Sound() && old(organisers) <= organisers
      ensures fresh(set o | o in organisers[|old(organisers)|..])
      ensures SlotsOf(organisers) == Resized(SlotsOf(old(organisers)), n)
    {
      while |organisers| < n
        invariant Sound() && old(organisers) <= organisers && |organisers| <= n
        invariant fresh(set o | o in organisers[|old(organisers)|..])
        invariant SlotsOf(organisers) == Resized(SlotsOf(old(organisers)), |organisers|)
      {
        PushBack(NO_NAME, INVALID_CHANNEL);
      }
    }

    /** Make an organiser for a name that has none. */
    method NewChannel(name: NameSet)
      requires Valid() && Find(SlotsOf(organisers), name) == |organisers| && count + 1 < INVALID_CHANNEL
      modifies this
      ensures Valid() && old(organisers) <= organisers && View() == Request(old(View()), name)
      ensures fresh(set o | o in organisers[|old(organisers)|..])
      ensures var o := organisers[|organisers| - 1]; o.View() == NOBODY && o.sent == []
    {
      hide Tidy, Resized, Find;
      RequestIsTidy(View(), name);
      count := (count + 1) % 0x1_0000;
      if count >= |organisers| {
        Resize(count);
      }
      PushBack(name, count);
    }

    /** The organiser of a name, which is made if need be. */
    method FindOrMake(name: NameSet) returns (i: nat)
      requires Valid() && name != NO_NAME && count + 1 < INVALID_CHANNEL
      modifies this
      ensures Valid() && old(organisers) <= organisers && View() == Request(old(View()), name)
      ensures fresh(set o | o in organisers[|old(organisers)|..])
      ensures NUM_LOCAL_CHANNELS < i == Find(View().slots, name) < |organisers|
      ensures organisers[i].name == name && organisers[i].channel == i
      ensures organisers[i].View() == old(Members(name))
    {
      hide Tidy, Resized, Find;
      RequestIsTidy(View(), name);
      i := IndexOf(name);
      if i == |organisers| {
        NewChannel(name);
        i := IndexOf(name);
      }
      NamedSlot(View(), name);
      assert View().slots[i] == Slot(organisers[i].name, organisers[i].channel);
    }

    /** An event reaches the organiser of its name and no other. */
    method HandleChannelConfigurationRequest(n: Notification)
      requires Valid() && n.name != NO_NAME && count + 1 < INVALID_CHANNEL
      requires Sensible(Members(n.name), n, Find(Request(View(), n.name).slots, n.name))
      modifies this, organisers
      ensures Valid() && old(organisers) <= organisers && View() == Request(old(View()), n.name)
      ensures var i := Find(View().slots, n.name);
              && NUM_LOCAL_CHANNELS < i < |organisers|
              && GetGlobalNameSet(i) == n.name && organisers[i].channel == i
              && organisers[i].View() == Happen(old(Members(n.name)), n, i)
              && (forall u | u in organisers[i].sent ::
                    u.end.channel == i && (u.IdIssued? ==> u.name == n.name == GetGlobalNameSet(u.end.channel)))
              && forall j | 0 <= j < |old(organisers)| && j != i ::
                   organisers[j].View() == old(organisers[j].View()) && organisers[j].sent == old(organisers[j].sent)
    {
      hide Tidy, Resized, Find, Request;
      var i := FindOrMake(n.name);
      organisers[i].HandleEvent(n);
    }

    /** The name of a channel, from its identity. */
    function GetGlobalNameSet(id: nat): (name: NameSet)
      requires id >= NUM_LOCAL_CHANNELS
      reads this
    {
      if |organisers| <= id then NO_NAME else organisers[id].name
    }
  }
}
