/** The organiser of one channel: it knows the ends of the channel on all nodes, decides which end
    is the master, and tells each end what it has to know. `Reading` is what somebody learns who
    hears all updates of one channel; the organiser is specified by what its updates say, not by
    the updates one by one. */
module ChannelOrganisers {
  import opened Bytes

  const INVALID_LOCATION: nat := 0xff
  const INVALID_CHANNEL: nat := 0xffff

  type NameSet = string

  datatype GlobalId = GlobalId(location: nat, channel: nat) {
    predicate ValidId() {
      location != INVALID_LOCATION && channel != INVALID_CHANNEL
    }
  }

  datatype NotificationType = NewChannelEnd | RemoveEnd | IsWritingEnd

  datatype Notification = Notification(kind: NotificationType, name: NameSet, location: nat, transport: Byte)

  datatype Update =
    | IdIssued(end: GlobalId, name: NameSet)
    | SetMaster(end: GlobalId, master: GlobalId, transport: Byte)
    | AddDestination(end: GlobalId, destination: GlobalId)
    | DeleteEnd(end: GlobalId)

  /** What the updates of a channel say: which ends have an identity, which master each of them
      was told, and which end sends to which other. */
  datatype Reading = Reading(
    issued: set<GlobalId>,
    told: map<GlobalId, (GlobalId, Byte)>,
    links: set<(GlobalId, GlobalId)>)

  const NOTHING: Reading := Reading({}, map[], {})

  function Learn(r: Reading, u: Update): Reading {
    match u
    case IdIssued(e, _) => r.(issued := r.issued + {e})
    case SetMaster(e, m, t) => r.(told := r.told[e := (m, t)])
    case AddDestination(e, d) => r.(links := r.links + {(e, d)})
    case DeleteEnd(e) =>
      Reading(r.issued - {e}, r.told - {e}, set l | l in r.links && l.0 != e && l.1 != e)
  }

  /** An update makes sense where it arrives: an identity comes first and once, then one master,
      and only then destinations (an end without a transport class cannot have any), each once. */
  predicate InOrder(r: Reading, u: Update) {
    match u
    case IdIssued(e, _) => e !in r.issued
    case SetMaster(e, _, _) => e in r.issued && e !in r.told
    case AddDestination(e, d) => e in r.told && d in r.issued && e != d && (e, d) !in r.links
    case DeleteEnd(e) => e in r.issued
  }

  function Heard(us: seq<Update>): Reading {
    if us == [] then NOTHING else Learn(Heard(us[..|us| - 1]), us[|us| - 1])
  }

  ghost predicate AllInOrder(us: seq<Update>) {
    us == [] || (AllInOrder(us[..|us| - 1]) && InOrder(Heard(us[..|us| - 1]), us[|us| - 1]))
  }

  lemma HeardOne(us: seq<Update>, u: Update)
    ensures Heard(us + [u]) == Learn(Heard(us), u)
    ensures AllInOrder(us + [u]) <==> AllInOrder(us) && InOrder(Heard(us), u)
  {
    assert (us + [u])[..|us|] == us;
  }

  /** The update at j was sent, and neither end was deleted since. */
  predicate StillHolds(us: seq<Update>, j: nat, u: Update, a: GlobalId, b: GlobalId) {
    j < |us| && us[j] == u && forall k | j < k < |us| :: us[k] != DeleteEnd(a) && us[k] != DeleteEnd(b)
  }

  /** One end sends to another exactly if it was told to, and neither was deleted since. */
  lemma {:induction false} LinksAreTold(us: seq<Update>, a: GlobalId, b: GlobalId)
    ensures (a, b) in Heard(us).links <==> exists j: nat :: StillHolds(us, j, AddDestination(a, b), a, b)
  {
    if us != [] {
      var last := |us| - 1;
      var before := us[..last];
      LinksAreTold(before, a, b);
      if (a, b) in Heard(us).links {
        if us[last] == AddDestination(a, b) {
          assert StillHolds(us, last, us[last], a, b);
        } else {
          var j: nat :| StillHolds(before, j, AddDestination(a, b), a, b);
          assert us[j] == before[j];
          assert StillHolds(us, j, us[j], a, b);
        }
      }
      forall j: nat | StillHolds(us, j, AddDestination(a, b), a, b)
        ensures (a, b) in Heard(us).links
      {
        if j < last {
          assert us[last] != DeleteEnd(a) && us[last] != DeleteEnd(b);
          assert StillHolds(before, j, AddDestination(a, b), a, b);
        }
      }
    }
  }

  /** An end knows its master exactly if it was told so last, and was not deleted since. */
  lemma {:induction false} MastersAreTold(us: seq<Update>, e: GlobalId)
    requires AllInOrder(us)
    ensures var told := Heard(us).told;
            && (e in told ==> exists j: nat :: StillHolds(us, j, SetMaster(e, told[e].0, told[e].1), e, e))
            && (forall j: nat, m: GlobalId, t: Byte | StillHolds(us, j, SetMaster(e, m, t), e, e) :: e in told && told[e] == (m, t))
  {
    if us != [] {
      var last := |us| - 1;
      var before := us[..last];
      MastersAreTold(before, e);
      var told := Heard(us).told;
      if e in told {
        var u := SetMaster(e, told[e].0, told[e].1);
        if us[last] == u {
          assert StillHolds(us, last, u, e, e);
        } else {
          var j: nat :| StillHolds(before, j, u, e, e);
          assert us[j] == before[j];
          assert StillHolds(us, j, u, e, e);
        }
      }
      forall j: nat, m: GlobalId, t: Byte | StillHolds(us, j, SetMaster(e, m, t), e, e)
        ensures e in told && told[e] == (m, t)
      {
        if j < last {
          assert us[last] != DeleteEnd(e);
          assert StillHolds(before, j, SetMaster(e, m, t), e, e);
        }
      }
    }
  }

  /** In a history in order, whoever is given a destination has its master, and the destination has
      its identity, at that moment. */
  lemma {:induction false} DestinationsComeLast(us: seq<Update>, i: nat, e: GlobalId, d: GlobalId)
    requires AllInOrder(us) && i < |us| && us[i] == AddDestination(e, d)
    ensures d in Heard(us[..i]).issued
    ensures exists j: nat, m: GlobalId, t: Byte :: StillHolds(us[..i], j, SetMaster(e, m, t), e, e)
    ensures !exists j: nat :: StillHolds(us[..i], j, us[i], e, d)
  {
    if i + 1 == |us| {
      MastersAreTold(us[..i], e);
      LinksAreTold(us[..i], e, d);
      var told := Heard(us[..i]).told;
      var j: nat :| StillHolds(us[..i], j, SetMaster(e, told[e].0, told[e].1), e, e);
    } else {
      var before := us[..|us| - 1];
      assert before[..i] == us[..i];
      DestinationsComeLast(before, i, e, d);
    }
  }

  function Elements(s: seq<GlobalId>): set<GlobalId> {
    set e | e in s
  }

  lemma ElementsGrow(s: seq<GlobalId>, i: nat)
    requires i < |s|
    ensures Elements(s[..i + 1]) == Elements(s[..i]) + {s[i]}
    ensures s[..|s|] == s
  {
    assert s[..i + 1] == s[..i] + [s[i]];
  }

  function From(e: GlobalId, others: set<GlobalId>): set<(GlobalId, GlobalId)> {
    set o | o in others && o != e :: (e, o)
  }

  function To(e: GlobalId, others: set<GlobalId>): set<(GlobalId, GlobalId)> {
    set o | o in others && o != e :: (o, e)
  }

  /** Every end in `from` sends to every other end in `to`. */
  function Pairs(from: set<GlobalId>, to: set<GlobalId>): set<(GlobalId, GlobalId)> {
    set a, b | a in from && b in to && a != b :: (a, b)
  }

  lemma PairsGrow(done: set<GlobalId>, all: set<GlobalId>, e: GlobalId)
    ensures Pairs(done + {e}, all) == Pairs(done, all) + From(e, all)
    ensures Pairs(done + {e}, done + {e}) == Pairs(done, done) + From(e, done) + To(e, done)
    ensures From(e, all + {e}) == From(e, all)
  {}

  lemma FromGrows(e: GlobalId, done: set<GlobalId>, o: GlobalId)
    requires e != o
    ensures From(e, done + {o}) == From(e, done) + {(e, o)} && To(e, done + {o}) == To(e, done) + {(o, e)}
    ensures o !in done ==> (e, o) !in From(e, done) && (o, e) !in To(e, done)
  {}

  function Told(ends: set<GlobalId>, master: GlobalId, transport: Byte): map<GlobalId, (GlobalId, Byte)> {
    map e | e in ends :: (master, transport)
  }

  /** The events of one channel, as far as they say who takes part and who leads. */
  datatype Membership = Membership(ends: seq<GlobalId>, master: GlobalId, transport: Byte)

  const NOBODY: Membership := Membership([], GlobalId(INVALID_LOCATION, INVALID_CHANNEL), 0)

  predicate Distinct(ends: seq<GlobalId>) {
    forall i, j | 0 <= i < j < |ends| :: ends[i] != ends[j]
  }

  function Without(ends: seq<GlobalId>, id: GlobalId): seq<GlobalId> {
    if ends == [] then [] else if ends[0] == id then ends[1..] else [ends[0]] + Without(ends[1..], id)
  }

  lemma {:induction false} WithoutAt(ends: seq<GlobalId>, i: nat)
    requires i < |ends| && ends[i] !in ends[..i]
    ensures Without(ends, ends[i]) == ends[..i] + ends[i + 1..]
  {
    if i > 0 {
      WithoutAt(ends[1..], i - 1);
    }
  }

  /** An end that is registered does not register again, and only a registered end is removed. */
  predicate Sensible(m: Membership, n: Notification, channel: nat) {
    var id := GlobalId(n.location, channel);
    && id.ValidId()
    && (n.kind.NewChannelEnd? ==> id !in m.ends)
    && (n.kind.RemoveEnd? ==> id in m.ends)
  }

  function Happen(m: Membership, n: Notification, channel: nat): Membership {
    var id := GlobalId(n.location, channel);
    match n.kind
    case NewChannelEnd => m.(ends := m.ends + [id])
    case RemoveEnd => m.(ends := Without(m.ends, id))
    case IsWritingEnd => if m.master.ValidId() then m else m.(master := id, transport := n.transport)
  }

  function Happened(ns: seq<Notification>, channel: nat): Membership {
    if ns == [] then NOBODY else Happen(Happened(ns[..|ns| - 1], channel), ns[|ns| - 1], channel)
  }

  ghost predicate AllSensible(ns: seq<Notification>, channel: nat) {
    forall i | 0 <= i < |ns| :: Sensible(Happened(ns[..i], channel), ns[i], channel)
  }

  /** The index of the first report of a writing end. */
  function FirstWriter(ns: seq<Notification>): (i: nat)
    ensures i <= |ns| && (i < |ns| ==> ns[i].kind.IsWritingEnd?)
    ensures forall j | 0 <= j < i :: !ns[j].kind.IsWritingEnd?
  {
    if ns == [] then 0
    else
      var last := |ns| - 1;
      var i := FirstWriter(ns[..last]);
      if i < last then i else if ns[last].kind.IsWritingEnd? then last else |ns|
  }

  /** Over every run: the first end that reported writing is the master, for good. */
  lemma {:induction false} FirstWriterLeads(ns: seq<Notification>, channel: nat)
    requires AllSensible(ns, channel)
    ensures var m, i := Happened(ns, channel), FirstWriter(ns);
            && m.master.ValidId() == (i < |ns|)
            && (i < |ns| ==> m.master == GlobalId(ns[i].location, channel) && m.transport == ns[i].transport)
  {
    if ns != [] {
      var last := |ns| - 1;
      var before := ns[..last];
      forall i | 0 <= i < last ensures Sensible(Happened(before[..i], channel), before[i], channel) {
        assert before[..i] == ns[..i];
        assert Sensible(Happened(ns[..i], channel), ns[i], channel);
      }
      FirstWriterLeads(before, channel);
      assert Sensible(Happened(before, channel), ns[last], channel);
    }
  }

  predicate Registers(n: Notification, location: nat) {
    n.location == location && n.kind.NewChannelEnd?
  }

  predicate Leaves(n: Notification, location: nat) {
    n.location == location && n.kind.RemoveEnd?
  }

  lemma {:induction false} WithoutIsOneLess(ends: seq<GlobalId>, id: GlobalId)
    requires Distinct(ends)
    ensures var r := Without(ends, id);
            && (forall e :: e in r <==> e in ends && e != id)
            && Distinct(r)
  {
    if ends != [] {
      var rest := ends[1..];
      assert ends == [ends[0]] + rest;
      forall k | 0 <= k < |rest| ensures rest[k] != ends[0] {
        assert rest[k] == ends[k + 1];
      }
      if ends[0] != id {
        WithoutIsOneLess(rest, id);
        var tail := Without(rest, id);
        var r := [ends[0]] + tail;
        assert r == Without(ends, id);
        forall e ensures e in r <==> e in ends && e != id {
          assert e in r <==> e == ends[0] || e in tail;
          assert e in tail <==> e in rest && e != id;
        }
        forall i, j | 0 <= i < j < |r| ensures r[i] != r[j] {
          assert r[j] == tail[j - 1] && tail[j - 1] in tail;
          if i > 0 {
            assert r[i] == tail[i - 1];
          }
        }
      } else {
        assert Without(ends, id) == rest;
      }
    }
  }

  predicate Registered(ns: seq<Notification>, location: nat) {
    exists i | 0 <= i < |ns| ::
      Registers(ns[i], location) && forall j | i < j < |ns| :: !Leaves(ns[j], location)
  }

  lemma RegisteredStep(ns: seq<Notification>, n: Notification, location: nat)
    ensures Registered(ns + [n], location) <==>
              Registers(n, location) || (Registered(ns, location) && !Leaves(n, location))
  {
    var all := ns + [n];
    if Registers(n, location) {
      assert Registers(all[|ns|], location);
    }
    if Registered(ns, location) && !Leaves(n, location) {
      var i :| 0 <= i < |ns| && Registers(ns[i], location) && forall j | i < j < |ns| :: !Leaves(ns[j], location);
      assert Registers(all[i], location);
    }
    if Registered(all, location) {
      var i :| 0 <= i < |all| && Registers(all[i], location) && forall j | i < j < |all| :: !Leaves(all[j], location);
      if i < |ns| {
        assert Registers(ns[i], location);
        assert !Leaves(all[|ns|], location);
        forall j | i < j < |ns| ensures !Leaves(ns[j], location) {
          assert ns[j] == all[j];
        }
      }
    }
  }

  predicate Proper(ends: seq<GlobalId>, channel: nat) {
    Distinct(ends) && forall e | e in ends :: e.channel == channel
  }

  lemma HappenChangesTheList(m: Membership, n: Notification, channel: nat)
    requires Sensible(m, n, channel) && Proper(m.ends, channel)
    ensures var r := Happen(m, n, channel);
            && Proper(r.ends, channel)
            && forall location :: GlobalId(location, channel) in r.ends <==>
                 Registers(n, location) || (GlobalId(location, channel) in m.ends && !Leaves(n, location))
  {
    hide Without;
    WithoutIsOneLess(m.ends, GlobalId(n.location, channel));
  }

  /** The ends in the list are those that registered and did not leave since, each once. */
  lemma {:induction false} RegisteredEndsAreListed(ns: seq<Notification>, channel: nat)
    requires AllSensible(ns, channel)
    ensures var m := Happened(ns, channel);
            && (forall location :: GlobalId(location, channel) in m.ends <==> Registered(ns, location))
            && Proper(m.ends, channel)
  {
    if ns != [] {
      var last := |ns| - 1;
      var before, n := ns[..last], ns[last];
      assert ns == before + [n];
      forall i | 0 <= i < last ensures before[..i] == ns[..i] {}
      RegisteredEndsAreListed(before, channel);
      assert Sensible(Happened(before, channel), n, channel);
      HappenChangesTheList(Happened(before, channel), n, channel);
      forall location
        ensures GlobalId(location, channel) in Happened(ns, channel).ends <==> Registered(ns, location)
      {
        RegisteredStep(before, n, location);
      }
    }
  }

  /** What the ends should know: with a master, each end knows it and sends to all other ends. */
  function FullMesh(ends: seq<GlobalId>, master: GlobalId, transport: Byte): Reading {
    var all := Elements(ends);
    if master.ValidId() then Reading(all, Told(all, master, transport), Pairs(all, all))
    else Reading(all, map[], {})
  }

  /** The update is about an end of this channel; an identity is issued under the channel's name. */
  predicate OfChannel(u: Update, name: NameSet, channel: nat) {
    u.end.channel == channel && (u.IdIssued? ==> u.name == name) && (u.AddDestination? ==> u.destination.channel == channel)
  }

  lemma MeshIs(ends: seq<GlobalId>, master: GlobalId, transport: Byte)
    ensures var r := FullMesh(ends, master, transport);
            && (forall e :: e in r.issued <==> e in ends)
            && (forall e :: e in r.told <==> master.ValidId() && e in ends)
            && (forall e | e in r.told :: r.told[e] == (master, transport))
            && (forall a, b :: (a, b) in r.links <==> master.ValidId() && a in ends && b in ends && a != b)
  {}

  lemma MeshKnowsItsEnds(ends: seq<GlobalId>, master: GlobalId, transport: Byte)
    ensures var r := FullMesh(ends, master, transport);
            && (forall e :: e in r.issued <==> e in ends)
            && r.told.Keys == (if master.ValidId() then r.issued else {})
            && (forall l | l in r.links :: l.0 in ends && l.1 in ends)
  {}

  lemma MeshGrows(ends: seq<GlobalId>, id: GlobalId, master: GlobalId, transport: Byte)
    requires id !in ends
    ensures var r, all := FullMesh(ends, master, transport), Elements(ends);
            FullMesh(ends + [id], master, transport)
            == if master.ValidId() then
                 Reading(r.issued + {id}, r.told[id := (master, transport)], r.links + From(id, all) + To(id, all))
               else r.(issued := r.issued + {id})
  {
    var all := Elements(ends);
    assert Elements(ends + [id]) == all + {id};
    PairsGrow(all, all, id);
    assert Told(all + {id}, master, transport) == Told(all, master, transport)[id := (master, transport)];
  }

  /** The first i ends know the master and all their destinations. */
  function ToldUpTo(ends: seq<GlobalId>, i: nat, master: GlobalId, transport: Byte): Reading
    requires i <= |ends|
  {
    Reading(Elements(ends), Told(Elements(ends[..i]), master, transport), Pairs(Elements(ends[..i]), Elements(ends)))
  }

  /** Moreover the next end knows the master, and the first j of its destinations. */
  function Halfway(ends: seq<GlobalId>, i: nat, j: nat, master: GlobalId, transport: Byte): Reading
    requires i < |ends| && j <= |ends|
  {
    Reading(Elements(ends), Told(Elements(ends[..i + 1]), master, transport),
            Pairs(Elements(ends[..i]), Elements(ends)) + From(ends[i], Elements(ends[..j])))
  }

  lemma TellingEnds(ends: seq<GlobalId>, i: nat, master: GlobalId, transport: Byte)
    requires i < |ends| && Distinct(ends)
    ensures var u := SetMaster(ends[i], master, transport);
            && InOrder(ToldUpTo(ends, i, master, transport), u)
            && Learn(ToldUpTo(ends, i, master, transport), u) == Halfway(ends, i, 0, master, transport)
    ensures Halfway(ends, i, |ends|, master, transport) == ToldUpTo(ends, i + 1, master, transport)
  {
    var done, e := Elements(ends[..i]), ends[i];
    ElementsGrow(ends, i);
    PairsGrow(done, Elements(ends), e);
    assert Told(done + {e}, master, transport) == Told(done, master, transport)[e := (master, transport)];
    assert From(e, Elements(ends[..0])) == {};
  }

  lemma TellingStep(ends: seq<GlobalId>, i: nat, j: nat, master: GlobalId, transport: Byte)
    requires i < |ends| && j < |ends| && Distinct(ends)
    ensures var r, next := Halfway(ends, i, j, master, transport), Halfway(ends, i, j + 1, master, transport);
            var u := AddDestination(ends[i], ends[j]);
            if ends[i] == ends[j] then next == r else InOrder(r, u) && Learn(r, u) == next
  {
    ElementsGrow(ends, i);
    ElementsGrow(ends, j);
    assert ends[i] !in Elements(ends[..i]);
    assert ends[j] !in Elements(ends[..j]);
    if ends[i] != ends[j] {
      FromGrows(ends[i], Elements(ends[..j]), ends[j]);
    } else {
      assert From(ends[i], Elements(ends[..j]) + {ends[i]}) == From(ends[i], Elements(ends[..j]));
    }
  }

  lemma MeshShrinks(ends: seq<GlobalId>, e: GlobalId, master: GlobalId, transport: Byte)
    requires Distinct(ends)
    ensures FullMesh(Without(ends, e), master, transport)
            == Learn(FullMesh(ends, master, transport), DeleteEnd(e))
  {
    var all := Elements(ends);
    WithoutIsOneLess(ends, e);
    assert Elements(Without(ends, e)) == all - {e};
    assert Told(all - {e}, master, transport) == Told(all, master, transport) - {e};
    assert Pairs(all - {e}, all - {e}) == set l | l in Pairs(all, all) && l.0 != e && l.1 != e;
  }

  class ChannelOrganiser {
    const name: NameSet
    const channel: nat                // common_end_id
    var master: GlobalId
    var transport: Byte
    var ends: seq<GlobalId>           // end_spec
    var sent: seq<Update>             // every update of this channel, in order

    ghost predicate Valid()
      reads this
    {
      && Proper(ends, channel)
      && SentWell()
      && Heard(sent) == FullMesh(ends, master, transport)
    }

    /** The updates came in order, and they are about ends of this channel and issue its name. */
    ghost predicate SentWell()
      reads this
    {
      AllInOrder(sent) && forall u | u in sent :: OfChannel(u, name, channel)
    }

    constructor (name: NameSet, channel: nat)
      ensures Valid() && this.name == name && this.channel == channel
      ensures View() == NOBODY && sent == []
    {
      this.name, this.channel := name, channel;
      master, transport, ends := GlobalId(INVALID_LOCATION, INVALID_CHANNEL), 0, [];
      sent := [];
    }

    /** One update goes out on the channel of updates. */
    method Send(u: Update)
      requires SentWell() && InOrder(Heard(sent), u) && OfChannel(u, name, channel)
      modifies this`sent
      ensures sent == old(sent) + [u] && SentWell()
      ensures Heard(sent) == Learn(old(Heard(sent)), u)
    {
      HeardOne(sent, u);
      sent := sent + [u];
    }

    /** Connect a new end with the ends before it in the list, both ways. */
    method ConnectWithOthers(id: GlobalId)
      requires SentWell() && |ends| > 0 && ends[|ends| - 1] == id
      requires Proper(ends, channel)
      requires forall e | e in ends :: e in Heard(sent).issued && e in Heard(sent).told
      requires forall l | l in Heard(sent).links :: l.0 != id && l.1 != id
      modifies this`sent
      ensures SentWell() && old(sent) <= sent
      ensures var r := old(Heard(sent));
              var others := Elements(ends[..|ends| - 1]);
              Heard(sent) == r.(links := r.links + From(id, others) + To(id, others))
    {
      hide Heard, AllInOrder;
      ghost var r := Heard(sent);
      var i := 0;
      while ends[i] != id
        invariant 0 <= i < |ends| && old(sent) <= sent && SentWell()
        invariant Heard(sent) == r.(links := r.links + From(id, Elements(ends[..i])) + To(id, Elements(ends[..i])))
        decreases |ends| - i
      {
        ghost var done := Elements(ends[..i]);
        ElementsGrow(ends, i);
        FromGrows(id, done, ends[i]);
        Send(AddDestination(ends[i], id));
        Send(AddDestination(id, ends[i]));
        i := i + 1;
      }
    }

    method NewEnd(id: GlobalId, nameSet: NameSet)
      requires Valid() && id.channel == channel && id !in ends && nameSet == name
      modifies this`ends, this`sent
      ensures Valid() && ends == old(ends) + [id] && old(sent) <= sent
    {
      hide Heard, AllInOrder, From, To, FullMesh;
      MeshKnowsItsEnds(ends, master, transport);
      MeshGrows(ends, id, master, transport);
      assert (ends + [id])[..|ends|] == ends;
      ends := ends + [id];
      Send(IdIssued(id, nameSet));
      if master.ValidId() {
        Send(SetMaster(id, master, transport));
        ConnectWithOthers(id);
      }
    }

    method RemoveTheEnd(id: GlobalId)
      requires Valid() && id in ends
      modifies this`ends, this`sent
      ensures Valid() && old(sent) <= sent && ends == Without(old(ends), id)
    {
      hide Heard, AllInOrder, FullMesh;
      var i := 0;
      while ends[i] != id
        invariant 0 <= i < |ends| && id !in ends[..i]
        decreases |ends| - i
      {
        i := i + 1;
      }
      MeshKnowsItsEnds(ends, master, transport);
      MeshShrinks(ends, id, master, transport);
      WithoutIsOneLess(ends, id);
      WithoutAt(ends, i);
      Send(DeleteEnd(ends[i]));
      ends := ends[..i] + ends[i + 1..];
    }

    /** Tell one end who is master, and let it send to all others. */
    method TellEnd(i: nat)
      requires SentWell() && i < |ends|
      requires Proper(ends, channel)
      requires Heard(sent) == ToldUpTo(ends, i, master, transport)
      modifies this`sent
      ensures SentWell() && old(sent) <= sent
      ensures Heard(sent) == ToldUpTo(ends, i + 1, master, transport)
    {
      hide Heard, AllInOrder, ToldUpTo, Halfway, InOrder, Learn, FullMesh;
      TellingEnds(ends, i, master, transport);
      Send(SetMaster(ends[i], master, transport));
      var j := 0;
      while j < |ends|
        invariant 0 <= j <= |ends| && old(sent) <= sent && SentWell()
        invariant Heard(sent) == Halfway(ends, i, j, master, transport)
      {
        TellingStep(ends, i, j, master, transport);
        if ends[i] != ends[j] {
          Send(AddDestination(ends[i], ends[j]));
        }
        j := j + 1;
      }
    }

    /** The decision on the master goes to all ends. */
    method TellAll()
      requires SentWell() && master.ValidId()
      requires Proper(ends, channel)
      requires Heard(sent) == Reading(Elements(ends), map[], {})
      modifies this`sent
      ensures SentWell() && old(sent) <= sent
      ensures Heard(sent) == FullMesh(ends, master, transport)
    {
      hide Heard, AllInOrder;
      assert Told({}, master, transport) == map[];
      assert Pairs({}, Elements(ends)) == {};
      var i := 0;
      while i < |ends|
        invariant 0 <= i <= |ends| && old(sent) <= sent && SentWell()
        invariant Heard(sent) == ToldUpTo(ends, i, master, transport)
      {
        TellEnd(i);
        i := i + 1;
      }
      assert ends[..i] == ends;
    }

    /** Only the first end that reports becomes master. */
    method WritingEnd(id: GlobalId, transportClass: Byte)
      requires Valid() && id.ValidId()
      modifies this`master, this`transport, this`sent
      ensures Valid() && old(sent) <= sent
      ensures old(master).ValidId() ==> master == old(master) && transport == old(transport) && sent == old(sent)
      ensures !old(master).ValidId() ==> master == id && transport == transportClass
    {
      hide Heard, AllInOrder;
      if !master.ValidId() {
        master, transport := id, transportClass;
        TellAll();
      }
    }

    function View(): Membership
      reads this
    {
      Membership(ends, master, transport)
    }

    /** Every event leaves behind what it should, and the updates sent so far say exactly that:
        the ends that are registered are issued an identity; once there is a master they all know
        it and each of them sends to each other one; and no update was superfluous or early. */
    method HandleEvent(n: Notification)
      requires Valid() && n.name == name && Sensible(View(), n, channel)
      modifies this`master, this`transport, this`ends, this`sent
      ensures Valid() && old(sent) <= sent
      ensures View() == Happen(old(View()), n, channel)
      ensures forall u | u in sent :: u.end.channel == channel && (u.IdIssued? ==> u.name == n.name)
      ensures var r := Heard(sent);
              && (forall e :: e in r.issued <==> e in ends)
              && (forall e :: e in r.told <==> master.ValidId() && e in ends)
              && (forall e | e in r.told :: r.told[e] == (master, transport))
              && (forall a, b :: (a, b) in r.links <==> master.ValidId() && a in ends && b in ends && a != b)
    {
      hide Heard, AllInOrder;
      var id := GlobalId(n.location, channel);
      match n.kind
      case NewChannelEnd => NewEnd(id, n.name);
      case RemoveEnd => RemoveTheEnd(id);
      case IsWritingEnd => WritingEnd(id, n.transport);
      MeshIs(ends, master, transport);
    }
  }
}
