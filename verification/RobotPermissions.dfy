/** Robot permissions: comparison after sorting copies with an unstable sort. */
module RobotPermissions {
  import opened Values
  import opened Sorting

  datatype Access = Access(resource: string, action: string, effect: string)

  /** A permission as the caller holds it; its access list is a slice, null when nil. */
  datatype Permission = Permission(kind: string, namespace: string, access: array?<Access>)

  /** A permission of the normalised copy. */
  datatype Entry = Entry(kind: string, namespace: string, access: seq<Access>)

  /** What a permission grants, whatever the order of its access list. */
  datatype Grant = Grant(kind: string, namespace: string, access: multiset<Access>)

  predicate AccessLess(a: Access, b: Access) {
    if a.resource != b.resource then Less(a.resource, b.resource)
    else if a.action != b.action then Less(a.action, b.action)
    else Less(a.effect, b.effect)
  }

  predicate EntryLess(a: Entry, b: Entry) {
    if a.kind != b.kind then Less(a.kind, b.kind) else Less(a.namespace, b.namespace)
  }

  /** Access rules that rank alike are equal. */
  lemma AccessOrder()
    ensures WeakOrder(AccessLess) && forall a, b :: Alike(AccessLess, a, b) <==> a == b
  {
    LessIsTotalOrder();
  }

  /** Entries that rank alike have the same kind and namespace, and nothing more. */
  lemma EntryOrder()
    ensures WeakOrder(EntryLess) && forall a, b :: Alike(EntryLess, a, b) <==>
        a.kind == b.kind && a.namespace == b.namespace
  {
    LessIsTotalOrder();
  }

  // ---------- the specification ----------

  function List(p: Permission): seq<Access>
    reads if p.access == null then {} else {p.access}
  {
    if p.access == null then [] else p.access[..]
  }

  ghost function Slices(perms: seq<Permission>): set<array<Access>> {
    set i | 0 <= i < |perms| && perms[i].access != null :: perms[i].access
  }

  ghost function GrantIn(p: Permission): Grant
    reads if p.access == null then {} else {p.access}
  {
    Grant(p.kind, p.namespace, multiset(List(p)))
  }

  ghost function Grants(perms: seq<Permission>): (gs: seq<Grant>)
    reads Slices(perms)
    ensures |gs| == |perms| && forall i :: 0 <= i < |perms| ==> gs[i] == GrantIn(perms[i])
  {
    seq(|perms|, i requires 0 <= i < |perms| reads Slices(perms) => GrantIn(perms[i]))
  }

  ghost function EntryOf(g: Grant): Entry {
    EveryMultisetIsListed(g.access);
    var s :| multiset(s) == g.access && Sorted(AccessLess, s);
    Entry(g.kind, g.namespace, s)
  }

  function GrantOf(e: Entry): Grant { Grant(e.kind, e.namespace, multiset(e.access)) }

  ghost predicate Ordered(e: Entry) { Sorted(AccessLess, e.access) }

  lemma {:induction false} EveryMultisetIsListed(m: multiset<Access>)
    ensures exists s :: multiset(s) == m && Sorted(AccessLess, s)
    decreases |m|
  {
    AccessOrder();
    if m == multiset{} {
      assert multiset([]) == m && Sorted(AccessLess, []);
    } else {
      var x :| x in m;
      EveryMultisetIsListed(m - multiset{x});
      var s :| multiset(s) == m - multiset{x} && Sorted(AccessLess, s);
      InsertAdds(AccessLess, s, x);
      InsertKeepsSorted(AccessLess, s, x);
      assert multiset(Insert(AccessLess, s, x)) == m;
    }
  }

  /** An ordered entry and its grant determine each other. */
  lemma EntryOfGrant(e: Entry)
    requires Ordered(e)
    ensures EntryOf(GrantOf(e)) == e
  {
    AccessOrder();
    var f := EntryOf(GrantOf(e));
    SortedPermutationIsUnique(AccessLess, f.access, e.access);
  }

  ghost function Entries(gs: seq<Grant>): seq<Entry> { Mapped(EntryOf, gs) }

  /**
   What the final sort.Slice may return for permissions with these grants: any arrangement sorted by kind and
   namespace.
   */
  ghost predicate Outcome(out: seq<Entry>, gs: seq<Grant>) {
    Sorted(EntryLess, out) && multiset(out) == multiset(Entries(gs))
  }

  /** Permissions with one kind and namespace grant the same access. */
  ghost predicate OneGrantPerScope(gs: seq<Grant>) {
    forall g, h :: g in multiset(gs) && h in multiset(gs) && g.kind == h.kind && g.namespace == h.namespace ==> g == h
  }

  lemma {:induction false} GrantsOfEntries(gs: seq<Grant>)
    ensures Mapped(GrantOf, Entries(gs)) == gs
    ensures forall e :: e in multiset(Entries(gs)) ==> GrantOf(e) in multiset(gs) && EntryOf(GrantOf(e)) == e
  {
    if gs != [] {
      GrantsOfEntries(gs[1..]);
      assert gs == [gs[0]] + gs[1..];
      assert Entries(gs)[1..] == Entries(gs[1..]);
      assert GrantOf(EntryOf(gs[0])) == gs[0];
    }
  }

  lemma {:induction false} EntryPresent(gs: seq<Grant>, g: Grant)
    requires g in multiset(gs)
    ensures EntryOf(g) in multiset(Entries(gs))
  {
    if gs[0] != g {
      assert gs == [gs[0]] + gs[1..];
      EntryPresent(gs[1..], g);
    }
  }

  lemma SameEntriesExactlyWhenSameGrants(x: seq<Grant>, y: seq<Grant>)
    ensures multiset(Entries(x)) == multiset(Entries(y)) <==> multiset(x) == multiset(y)
  {
    if multiset(x) == multiset(y) { MappedPermutes(EntryOf, x, y); }
    if multiset(Entries(x)) == multiset(Entries(y)) {
      MappedPermutes(GrantOf, Entries(x), Entries(y));
      GrantsOfEntries(x);
      GrantsOfEntries(y);
    }
  }

  lemma SomeOutcome(s: seq<Entry>, gs: seq<Grant>)
    requires multiset(s) == multiset(Entries(gs))
    ensures Outcome(StableSorted(EntryLess, s), gs)
  {
    EntryOrder();
    StableSortedIsStable(EntryLess, s);
    StableSortedPermutes(EntryLess, s);
  }

  /** The comparison can succeed exactly for equal multisets of grants. */
  lemma CanBeEqualExactlyWhenSameGrants(x: seq<Grant>, y: seq<Grant>)
    ensures (exists out :: Outcome(out, x) && Outcome(out, y)) <==> multiset(x) == multiset(y)
  {
    SameEntriesExactlyWhenSameGrants(x, y);
    if multiset(x) == multiset(y) {
      SomeOutcome(Entries(x), x);
      SomeOutcome(Entries(x), y);
    }
  }

  lemma OutcomeIsDetermined(a: seq<Entry>, b: seq<Entry>, x: seq<Grant>, y: seq<Grant>)
    requires Outcome(a, x) && Outcome(b, y) && multiset(x) == multiset(y) && OneGrantPerScope(x)
    ensures a == b
  {
    EntryOrder();
    SameEntriesExactlyWhenSameGrants(x, y);
    GrantsOfEntries(x);
    forall e, f | e in multiset(a) && f in multiset(a) && Alike(EntryLess, e, f) ensures e == f {
      assert GrantOf(e) == GrantOf(f);
    }
    SortedPermutationIsUnique(EntryLess, a, b);
  }

  /** The comparison succeeds whatever the sort does exactly when, besides, no scope is granted two different lists. */
  lemma AlwaysEqualExactlyWhenDetermined(x: seq<Grant>, y: seq<Grant>)
    ensures (forall a, b :: Outcome(a, x) && Outcome(b, y) ==> a == b) <==>
        multiset(x) == multiset(y) && OneGrantPerScope(x)
  {
    EntryOrder();
    if multiset(x) == multiset(y) && OneGrantPerScope(x) {
      forall a, b | Outcome(a, x) && Outcome(b, y) ensures a == b { OutcomeIsDetermined(a, b, x, y); }
    } else if multiset(x) != multiset(y) {
      SomeOutcome(Entries(x), x);
      SomeOutcome(Entries(y), y);
      CanBeEqualExactlyWhenSameGrants(x, y);
    } else {
      SameEntriesExactlyWhenSameGrants(x, y);
      var g, h :| g in multiset(x) && h in multiset(x) && g.kind == h.kind && g.namespace == h.namespace && g != h;
      EntryPresent(x, g);
      EntryPresent(x, h);
      assert GrantOf(EntryOf(g)) == g && GrantOf(EntryOf(h)) == h;
      var s := Entries(x);
      AlikeElementsCanSwap(EntryLess, s, EntryOf(g), EntryOf(h));
      SomeOutcome(BroughtForward(s, EntryOf(g)), x);
      SomeOutcome(BroughtForward(s, EntryOf(h)), y);
    }
  }

  /** Entries in source order, each with its access list sorted. */
  ghost predicate Listed(es: seq<Entry>, gs: seq<Grant>) {
    |es| == |gs| && forall i :: 0 <= i < |es| ==> Ordered(es[i]) && GrantOf(es[i]) == gs[i]
  }

  lemma {:induction false} ListedIsEntries(es: seq<Entry>, gs: seq<Grant>)
    requires Listed(es, gs)
    ensures es == Entries(gs)
  {
    if es != [] {
      EntryOfGrant(es[0]);
      ListedIsEntries(es[1..], gs[1..]);
    }
  }

  // ---------- the code ----------

  /** A sorted copy of one access list. */
  method SortedAccess(p: Permission) returns (e: Entry)
    ensures Ordered(e) && GrantOf(e) == GrantIn(p)
  {
    AccessOrder();
    var list := List(p);
    var access := new Access[|list|](i requires 0 <= i < |list| => list[i]);
    assert access[..] == list;
    Slice(access, AccessLess);
    e := Entry(p.kind, p.namespace, access[..]);
  }

  /** normalizeRobotPermissions; having no modifies clause, it leaves the caller's slices alone. */
  method Normalize(perms: seq<Permission>, ghost gs: seq<Grant>) returns (out: seq<Entry>)
    requires gs == Grants(perms)
    ensures Outcome(out, gs)
  {
    out := [];
    for i := 0 to |perms|
      invariant Listed(out, gs[..i])
    {
      var e := SortedAccess(perms[i]);
      assert gs[..i + 1] == gs[..i] + [gs[i]];
      out := out + [e];
    }
    assert gs[..|perms|] == gs;
    ListedIsEntries(out, gs);
    out := SortedByScope(out);
  }

  method SortedByScope(entries: seq<Entry>) returns (out: seq<Entry>)
    ensures Sorted(EntryLess, out) && multiset(out) == multiset(entries)
  {
    EntryOrder();
    var sorted := new Entry[|entries|](i requires 0 <= i < |entries| => entries[i]);
    assert sorted[..] == entries;
    Slice(sorted, EntryLess);
    out := sorted[..];
  }

  /** robotPermissionsEqual. */
  method PermissionsEqual(a: seq<Permission>, b: seq<Permission>) returns (equal: bool)
    ensures equal ==> multiset(Grants(a)) == multiset(Grants(b))
    ensures multiset(Grants(a)) == multiset(Grants(b)) && OneGrantPerScope(Grants(a)) ==> equal
  {
    ghost var g, h := Grants(a), Grants(b);
    equal := Compare(a, b, g, h);
    assert Grants(a) == g && Grants(b) == h;
  }

  method Compare(a: seq<Permission>, b: seq<Permission>, ghost g: seq<Grant>, ghost h: seq<Grant>) returns (equal: bool)
    requires g == Grants(a) && h == Grants(b)
    ensures equal ==> multiset(g) == multiset(h)
    ensures multiset(g) == multiset(h) && OneGrantPerScope(g) ==> equal
  {
    var x := Normalize(a, g);
    assert Grants(b) == h;
    var y := Normalize(b, h);
    equal := SameEntries(x, y);
    Answer(x, y, g, h);
  }

  lemma Answer(x: seq<Entry>, y: seq<Entry>, g: seq<Grant>, h: seq<Grant>)
    requires Outcome(x, g) && Outcome(y, h)
    ensures x == y ==> multiset(g) == multiset(h)
    ensures multiset(g) == multiset(h) && OneGrantPerScope(g) ==> x == y
  {
    CanBeEqualExactlyWhenSameGrants(g, h);
    AlwaysEqualExactlyWhenDetermined(g, h);
  }

  /** The nested comparison loops. */
  method SameEntries(x: seq<Entry>, y: seq<Entry>) returns (same: bool)
    ensures same <==> x == y
  {
    if |x| != |y| { return false; }
    for i := 0 to |x|
      invariant x[..i] == y[..i]
    {
      if x[i].kind != y[i].kind || x[i].namespace != y[i].namespace { return false; }
      if |x[i].access| != |y[i].access| { return false; }
      for j := 0 to |x[i].access|
        invariant x[i].access[..j] == y[i].access[..j]
      {
        if x[i].access[j] != y[i].access[j] { return false; }
      }
      assert x[i].access == y[i].access;
    }
    return true;
  }
}
