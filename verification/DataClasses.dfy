/** The registry of data classes. A class names its parent; the members of all its ancestors come
    before its own in the index of members, and completing a class fills in what that index needs. */
module DataClasses {
  import opened Bytes

  /** An entry of a table: a name, and the object that gives access to the member. */
  datatype Member = Member(name: string, access: nat)

  /** A registered class; a root has the empty name as parent. */
  datatype DataClass = DataClass(parent: string, table: seq<Member>)

  type Classes = map<string, DataClass>

  /** Parents of parents come to an end. */
  ghost predicate Acyclic(cs: Classes, rank: string -> nat) {
    forall n | n in cs && cs[n].parent in cs :: rank(cs[n].parent) < rank(n)
  }

  /** The class and all its ancestors are registered. */
  ghost predicate Linked(cs: Classes, rank: string -> nat, n: string)
    requires Acyclic(cs, rank)
    decreases rank(n)
  {
    n in cs && (cs[n].parent == "" || (cs[n].parent in cs && Linked(cs, rank, cs[n].parent)))
  }

  /** A class and its ancestors, the class itself first. */
  ghost function Lineage(cs: Classes, rank: string -> nat, n: string): seq<string>
    requires Acyclic(cs, rank) && Linked(cs, rank, n)
    decreases rank(n)
  {
    [n] + if cs[n].parent == "" then [] else Lineage(cs, rank, cs[n].parent)
  }

  /** All members by index: those of the root first. */
  ghost function Members(cs: Classes, rank: string -> nat, n: string): seq<Member>
    requires Acyclic(cs, rank) && Linked(cs, rank, n)
    decreases rank(n)
  {
    Inherited(cs, rank, n) + cs[n].table
  }

  ghost function Inherited(cs: Classes, rank: string -> nat, n: string): seq<Member>
    requires Acyclic(cs, rank) && Linked(cs, rank, n)
    decreases rank(n), 0
  {
    if cs[n].parent == "" then [] else Members(cs, rank, cs[n].parent)
  }

  /** The last member of a table with each name. */
  function Named(table: seq<Member>): map<string, Member> {
    if table == [] then map[]
    else Named(table[..|table| - 1])[table[|table| - 1].name := table[|table| - 1]]
  }

  /** All members by name: a class hides what its ancestors call by the same name. */
  ghost function AllNamed(cs: Classes, rank: string -> nat, n: string): map<string, Member>
    requires Acyclic(cs, rank) && Linked(cs, rank, n)
    decreases rank(n)
  {
    var own := Named(cs[n].table);
    if cs[n].parent == "" then own else AllNamed(cs, rank, cs[n].parent) + own
  }

  /** The first member with a name, or the number of members. */
  function IndexOf(ms: seq<Member>, name: string): (i: nat)
    ensures i <= |ms| && (i < |ms| ==> ms[i].name == name)
    ensures forall k | 0 <= k < i :: ms[k].name != name
  {
    if ms == [] then 0 else if ms[0].name == name then 0 else 1 + IndexOf(ms[1..], name)
  }

  /** The last member with a name, or the number of members. */
  function LastOf(ms: seq<Member>, name: string): (i: nat)
    ensures i <= |ms| && (i < |ms| ==> ms[i].name == name)
    ensures forall k | 0 <= k < |ms| && ms[k].name == name :: k <= i < |ms|
  {
    if ms == [] then 0
    else
      var last := |ms| - 1;
      var i := LastOf(ms[..last], name);
      if ms[last].name == name then last else if i < last then i else |ms|
  }

  lemma {:induction false} NamedIsLast(ms: seq<Member>, name: string)
    ensures name in Named(ms) <==> LastOf(ms, name) < |ms|
    ensures name in Named(ms) ==> Named(ms)[name] == ms[LastOf(ms, name)]
  {
    if ms != [] {
      NamedIsLast(ms[..|ms| - 1], name);
    }
  }

  lemma NamedNothing(ms: seq<Member>)
    requires ms == []
    ensures Named(ms) == map[]
  {}

  lemma NamedOneMore(ms: seq<Member>, m: Member)
    ensures Named(ms + [m]) == Named(ms)[m.name := m]
  {
    assert (ms + [m])[..|ms|] == ms;
  }

  lemma {:induction false} NamedConcat(a: seq<Member>, b: seq<Member>)
    ensures Named(a + b) == Named(a) + Named(b)
  {
    hide Named;
    if b == [] {
      assert a + b == a && Named(b) == map[] by {
        NamedNothing(b);
      }
    } else {
      var last := |b| - 1;
      NamedConcat(a, b[..last]);
      NamedOneMore(a + b[..last], b[last]);
      NamedOneMore(b[..last], b[last]);
      assert a + b == a + b[..last] + [b[last]] && b == b[..last] + [b[last]];
    }
  }

  /** The members by name are the members by index, where the last one of a name counts. */
  lemma {:induction false} AllNamedIsLast(cs: Classes, rank: string -> nat, n: string)
    requires Acyclic(cs, rank) && Linked(cs, rank, n)
    ensures AllNamed(cs, rank, n) == Named(Members(cs, rank, n))
    decreases rank(n)
  {
    NamedConcat(Inherited(cs, rank, n), cs[n].table);
    if cs[n].parent != "" {
      AllNamedIsLast(cs, rank, cs[n].parent);
    } else {
      assert [] + cs[n].table == cs[n].table;
    }
  }

  /** The class k steps up from a class, if there are that many. */
  function Up(cs: Classes, n: string, k: nat): Option<string>
    decreases k
  {
    if n !in cs then None
    else if k == 0 then Some(n)
    else if cs[n].parent == "" then None
    else Up(cs, cs[n].parent, k - 1)
  }

  /** The lineage is what is found on the way up, until a class has no parent. */
  lemma {:induction false} LineageIsUpward(cs: Classes, rank: string -> nat, n: string, k: nat)
    requires Acyclic(cs, rank) && Linked(cs, rank, n)
    ensures var names := Lineage(cs, rank, n);
            Up(cs, n, k) == if k < |names| then Some(names[k]) else None
    decreases k
  {
    if k > 0 && cs[n].parent != "" {
      LineageIsUpward(cs, rank, cs[n].parent, k - 1);
    }
  }

  /** A class has the members of each of its ancestors at the same indices as the ancestor itself. */
  lemma {:induction false} IndicesAreInherited(cs: Classes, rank: string -> nat, n: string, a: string)
    requires Acyclic(cs, rank) && Linked(cs, rank, n) && a in Lineage(cs, rank, n)
    ensures Linked(cs, rank, a) && Members(cs, rank, a) <= Members(cs, rank, n)
    decreases rank(n)
  {
    if a != n {
      var parent := cs[n].parent;
      assert Members(cs, rank, parent) <= Members(cs, rank, n);
      IndicesAreInherited(cs, rank, parent, a);
    }
  }

  predicate Once(ms: seq<Member>, i: nat)
    requires i < |ms|
  {
    forall k | 0 <= k < |ms| && k != i :: ms[k].name != ms[i].name
  }

  /** From an index to the name and back it works exactly if no member before has the same name: the
      index finds the first member of a name, and the map finds the last one. If each member has its
      own access object they agree exactly on the names that occur once. */
  lemma SameAccessIffOnce(cs: Classes, rank: string -> nat, n: string, i: nat)
    requires Acyclic(cs, rank) && Linked(cs, rank, n)
    requires i < |Members(cs, rank, n)|
    requires forall j, k | 0 <= j < k < |Members(cs, rank, n)| ::
               Members(cs, rank, n)[j].access != Members(cs, rank, n)[k].access
    ensures var ms := Members(cs, rank, n);
            var name := ms[i].name;
            && IndexOf(ms, name) < |ms| && name in AllNamed(cs, rank, n)
            && (IndexOf(ms, name) == i <==> forall k | 0 <= k < i :: ms[k].name != name)
            && (Once(ms, i) <==> ms[IndexOf(ms, name)].access == AllNamed(cs, rank, n)[name].access == ms[i].access)
  {
    var ms := Members(cs, rank, n);
    var name := ms[i].name;
    AllNamedIsLast(cs, rank, n);
    NamedIsLast(ms, name);
    var first, last := IndexOf(ms, name), LastOf(ms, name);
    if first == last {
      forall k | 0 <= k < |ms| && ms[k].name == name ensures k == first {}
      assert i == first;
    }
  }

  lemma IndexOfConcat(a: seq<Member>, b: seq<Member>, name: string)
    ensures IndexOf(a + b, name) == if IndexOf(a, name) < |a| then IndexOf(a, name) else |a| + IndexOf(b, name)
  {
    hide IndexOf;
    var i, j, k := IndexOf(a + b, name), IndexOf(a, name), IndexOf(b, name);
    assert j < |a| ==> (a + b)[j] == a[j];
    assert k < |b| ==> (a + b)[|a| + k] == b[k];
    assert i < |a| ==> (a + b)[i] == a[i];
    assert |a| <= i < |a| + |b| ==> (a + b)[i] == b[i - |a|];
  }

  /** What completing a class fills in. */
  datatype Entry = Entry(nMembers: Option<nat>, nInParents: nat, byName: map<string, Member>)

  class DataClassRegistry {
    const classes: Classes
    ghost const rank: string -> nat
    var entries: map<string, Entry>

    ghost predicate Completed(n: string)
      reads this
      requires Acyclic(classes, rank)
    {
      && Linked(classes, rank, n) && n in entries
      && entries[n].nMembers == Some(|Members(classes, rank, n)|)
      && entries[n].nInParents == |Inherited(classes, rank, n)|
      && entries[n].byName == AllNamed(classes, rank, n)
      && (classes[n].parent != "" ==> classes[n].parent in entries && entries[classes[n].parent].nMembers.Some?)
    }

    ghost predicate Valid()
      reads this
    {
      && Acyclic(classes, rank) && entries.Keys == classes.Keys
      && forall n | n in entries && entries[n].nMembers.Some? :: Completed(n)
    }

    constructor (classes: Classes, ghost rank: string -> nat)
      requires Acyclic(classes, rank)
      ensures Valid() && this.classes == classes
    {
      this.classes, this.rank := classes, rank;
      entries := map n | n in classes :: Entry(None, 0, map[]);
    }

    method OwnMembers(n: string) returns (count: nat, byName: map<string, Member>)
      requires n in classes
      ensures count == |classes[n].table| && byName == Named(classes[n].table)
    {
      var table := classes[n].table;
      count, byName := 0, map[];
      while count < |table|
        invariant count <= |table| && byName == Named(table[..count])
      {
        assert table[..count + 1][..count] == table[..count];
        byName := byName[table[count].name := table[count]];
        count := count + 1;
      }
      assert table[..count] == table;
    }

    /** Members of a parent are added unless the class has a member of that name. */
    method AddInherited(own: map<string, Member>, parent: map<string, Member>) returns (all: map<string, Member>)
      ensures all == parent + own
    {
      all := own;
      var left := parent.Keys;
      while left != {}
        invariant left <= parent.Keys
        invariant all == (map k | k in parent && k !in left :: parent[k]) + own
      {
        var name :| name in left;
        if name !in all {
          all := all[name := parent[name]];
        }
        left := left - {name};
      }
    }

    method FillIn(n: string, e: Entry)
      requires Valid() && Linked(classes, rank, n)
      requires e == Entry(Some(|Members(classes, rank, n)|), |Inherited(classes, rank, n)|, AllNamed(classes, rank, n))
      requires classes[n].parent != "" ==> Completed(classes[n].parent)
      modifies this
      ensures Valid() && Completed(n)
      ensures forall k | k in old(entries) && old(entries)[k].nMembers.Some? :: entries[k] == old(entries)[k]
    {
      hide Members, Inherited, AllNamed;
      ghost var was := entries;
      assert forall k | k in was && was[k].nMembers.Some? :: Completed(k);
      entries := entries[n := e];
      forall k | k in entries && entries[k].nMembers.Some? ensures Completed(k) {
        assert k == n || was[k].nMembers.Some?;
      }
    }

    /** Fill in a class and its ancestors, once. */
    method CompleteIndices(n: string) returns (count: nat)
      requires Valid() && Linked(classes, rank, n)
      modifies this
      ensures Valid() && Completed(n) && count == |Members(classes, rank, n)|
      ensures forall k | k in old(entries) && old(entries)[k].nMembers.Some? :: entries[k] == old(entries)[k]
      decreases rank(n)
    {
      if entries[n].nMembers.None? {
        var byName;
        count, byName := OwnMembers(n);
        var inParents := 0;
        var parent := classes[n].parent;
        if parent != "" {
          inParents := CompleteIndices(parent);
          byName := AddInherited(byName, entries[parent].byName);
        }
        count := count + inParents;
        FillIn(n, Entry(Some(count), inParents, byName));
      }
      count := entries[n].nMembers.value;
    }

    /** By index, in the table of the class or through its parents. */
    function GetMemberAt(n: string, idx: nat): (r: Option<Member>)
      requires Valid() && n in entries && entries[n].nMembers.Some?
      reads this
      ensures var ms := Members(classes, rank, n); r == if idx < |ms| then Some(ms[idx]) else None
      decreases rank(n)
    {
      assert Completed(n);
      if idx >= entries[n].nMembers.value then None
      else if idx >= entries[n].nInParents then Some(classes[n].table[idx - entries[n].nInParents])
      else GetMemberAt(classes[n].parent, idx)
    }

    function GetMemberNamed(n: string, name: string): (r: Option<Member>)
      requires Valid() && n in entries && entries[n].nMembers.Some?
      reads this
      ensures var ms := Members(classes, rank, n);
              r == if LastOf(ms, name) < |ms| then Some(ms[LastOf(ms, name)]) else None
    {
      assert Completed(n);
      AllNamedIsLast(classes, rank, n);
      NamedIsLast(Members(classes, rank, n), name);
      if name in entries[n].byName then Some(entries[n].byName[name]) else None
    }

    /** Search the ancestors, then the own table, counting what is passed on the way. */
    method SearchMember(n: string, member: string, start: nat) returns (found: bool, idx: nat)
      requires Valid() && n in entries && entries[n].nMembers.Some?
      ensures found == (IndexOf(Members(classes, rank, n), member) < |Members(classes, rank, n)|)
      ensures idx == start + IndexOf(Members(classes, rank, n), member)
      decreases rank(n)
    {
      hide IndexOf;
      assert Completed(n);
      ghost var inherited := Inherited(classes, rank, n);
      var table := classes[n].table;
      IndexOfConcat(inherited, table, member);
      found, idx := false, start;
      if classes[n].parent != "" {
        found, idx := SearchMember(classes[n].parent, member, idx);
        if found {
          return;
        }
      }
      var res := 0;
      while res < |table|
        invariant res <= |table| && idx == start + |inherited| + res
        invariant forall k | 0 <= k < res :: table[k].name != member
      {
        if table[res].name == member {
          return true, idx;
        }
        idx := idx + 1;
        res := res + 1;
      }
    }

    /** A class is compatible with itself and with its ancestors; the empty name, which stands for no
        parent, counts as an ancestor of all. */
    method IsCompatible(tryclass: string, n: string) returns (r: bool)
      requires Valid() && Linked(classes, rank, n)
      modifies this
      ensures Valid() && r == (tryclass == "" || tryclass in Lineage(classes, rank, n))
    {
      var count := CompleteIndices(n);
      if tryclass == n {
        return true;
      }
      var ix := n;
      while true
        invariant Linked(classes, rank, ix)
        invariant tryclass != ix
        invariant tryclass in Lineage(classes, rank, ix) <==> tryclass in Lineage(classes, rank, n)
        decreases rank(ix)
      {
        if classes[ix].parent == tryclass {
          return true;
        }
        if classes[ix].parent == "" {
          return false;
        }
        ix := classes[ix].parent;
      }
    }
  }
}
