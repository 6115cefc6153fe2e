/** Singleton kinds: which of the resources that reach one Harbor instance may manage it. */
module Singletons {
  import opened Values
  import opened Connections
  import opened Sorting

  datatype Name = Name(namespace: string, name: string)

  /** A listed resource of a singleton kind. */
  datatype Item = Item(name: Name, createdAt: int, deleting: bool, ref: Option<Ref>)
  datatype Candidate = Candidate(name: Name, createdAt: int)

  /** One moment: the operator's forced connection, the connections and the listing. */
  datatype Snapshot = Snapshot(forced: string, conns: map<Key, Connection>, items: seq<Item>)

  /** What one ownership check reads: a snapshot, the peers whose connection it could not read, and its own resource. */
  datatype Check = Check(snapshot: Snapshot, unread: set<Name>, current: Item)

  datatype Verdict = Owner | Conflict(with: Name) | Unresolved

  function CandidateOf(i: Item): Candidate { Candidate(i.name, i.createdAt) }

  predicate Earlier(a: Candidate, b: Candidate) {
    if a.createdAt != b.createdAt then a.createdAt < b.createdAt
    else if a.name.namespace != b.name.namespace then Less(a.name.namespace, b.name.namespace)
    else Less(a.name.name, b.name.name)
  }

  /** The first competitor is the oldest; of the oldest, that of the first namespace; there, that of the first name. */
  lemma FirstByFields(s: Snapshot, url: string, i: Item, j: Item)
    requires First(s, url, i) && Competes(s, url, j)
    ensures i.createdAt <= j.createdAt
    ensures i.createdAt == j.createdAt ==> !Less(j.name.namespace, i.name.namespace)
    ensures i.createdAt == j.createdAt && i.name.namespace == j.name.namespace ==> !Less(j.name.name, i.name.name)
  {
    LessIsTotalOrder();
  }

  lemma EarlierOrder()
    ensures WeakOrder(Earlier) && forall a, b :: Alike(Earlier, a, b) <==> a == b
  {
    LessIsTotalOrder();
  }

  /** The BaseURL of the client a resource gets, or None when its connection does not resolve. */
  function ClientURL(s: Snapshot, i: Item): Option<string> {
    match Resolve(s.forced, s.conns, i.name.namespace, i.ref)
    case Found(_, url) => Some(TrimSlashes(url))
    case _ => None
  }

  /** Another live resource of the listing whose client talks to the same Harbor. */
  predicate Rival(s: Snapshot, current: Item, i: Item) {
    i in s.items && i.name != current.name && !i.deleting && ClientURL(s, i).Some?
        && ClientURL(s, i) == ClientURL(s, current)
  }

  // ---------- the code ----------

  /** singletonOwnerConflict: None, or the owner in the way. */
  method OwnerConflict(current: Candidate, peers: seq<Candidate>) returns (owner: Option<Name>)
    requires forall i :: 0 <= i < |peers| ==> peers[i].name != current.name
    ensures owner.None? <==> forall i :: 0 <= i < |peers| ==> Earlier(current, peers[i])
    ensures owner.Some? ==> exists i :: 0 <= i < |peers| && peers[i].name == owner.value && Earlier(peers[i], current)
                                        && forall j :: 0 <= j < |peers| ==> !Earlier(peers[j], peers[i])
  {
    if |peers| == 0 { return None; }
    EarlierOrder();
    var all := peers + [current];
    var candidates := new Candidate[|all|](i requires 0 <= i < |all| => all[i]);
    assert candidates[..] == peers + [current];
    Slice(candidates, Earlier);
    var first := candidates[0];
    FirstOfSorted(candidates[..], peers + [current]);
    assert first == candidates[..][0];
    if first.name == current.name {
      assert first == current;
      return None;
    }
    var i :| 0 <= i < |peers| && peers[i] == first;
    assert Earlier(first, current);
    return Some(first.name);
  }

  lemma FirstOfSorted(sorted: seq<Candidate>, all: seq<Candidate>)
    requires Sorted(Earlier, sorted) && multiset(sorted) == multiset(all) && sorted != []
    ensures sorted[0] in all && forall c :: c in all ==> c == sorted[0] || Earlier(sorted[0], c)
  {
    EarlierOrder();
    assert sorted[0] in multiset(all);
    forall c | c in all ensures c == sorted[0] || Earlier(sorted[0], c) {
      assert c in multiset(sorted);
      var k :| 0 <= k < |sorted| && sorted[k] == c;
      assert Alike(Earlier, sorted[0], c) || Earlier(sorted[0], c);
    }
  }

  /** ensureSingletonOwner; `unread` are the peers whose connection could not be read, and which are passed over. */
  method EnsureOwner(s: Snapshot, current: Item, unread: set<Name>) returns (v: Verdict)
    ensures v.Unresolved? <==> ClientURL(s, current).None?
    ensures v.Owner? <==> Passes(s, unread, current)
    ensures v.Conflict? ==> exists i :: Blocks(s, unread, current, i) && i.name == v.with
  {
    var resolved := Resolve(s.forced, s.conns, current.name.namespace, current.ref);
    if !resolved.Found? { return Unresolved; }
    var peers := Peers(s, current, unread, TrimSlashes(resolved.url));
    forall n | 0 <= n < |peers| ensures peers[n].name != current.name { assert peers[n] in peers; }
    var owner := OwnerConflict(CandidateOf(current), peers);
    EarlierOrder();
    if owner.None? {
      forall i | Seen(s, unread, current, i) ensures Earlier(CandidateOf(current), CandidateOf(i)) {
        assert CandidateOf(i) in peers;
      }
      return Owner;
    }
    var n :| 0 <= n < |peers| && peers[n].name == owner.value && Earlier(peers[n], CandidateOf(current))
             && forall j :: 0 <= j < |peers| ==> !Earlier(peers[j], peers[n]);
    assert peers[n] in peers;
    var i :| Seen(s, unread, current, i) && CandidateOf(i) == peers[n];
    forall j | Seen(s, unread, current, j) ensures !Earlier(CandidateOf(j), CandidateOf(i)) {
      assert CandidateOf(j) in peers;
    }
    return Conflict(owner.value);
  }

  /** The loop that collects the peers. */
  method Peers(s: Snapshot, current: Item, unread: set<Name>, url: string) returns (peers: seq<Candidate>)
    requires ClientURL(s, current) == Some(url)
    ensures forall c :: c in peers <==> exists i :: Seen(s, unread, current, i) && CandidateOf(i) == c
  {
    peers := [];
    for n := 0 to |s.items|
      invariant forall c :: c in peers <==>
                  exists k :: 0 <= k < n && Seen(s, unread, current, s.items[k]) && CandidateOf(s.items[k]) == c
    {
      var item := s.items[n];
      if item.name == current.name || item.deleting { continue; }
      if item.name in unread { continue; }
      var r := Resolve(s.forced, s.conns, item.name.namespace, item.ref);
      if !r.Found? || TrimSlashes(r.url) != url { continue; }
      peers := peers + [Candidate(item.name, item.createdAt)];
    }
    forall i | Seen(s, unread, current, i) ensures CandidateOf(i) in peers {
      var k :| 0 <= k < |s.items| && s.items[k] == i;
    }
  }

  // ---------- who passes ----------

  /** The earliest of the rivals that were read, and earlier than the current resource. */
  ghost predicate Blocks(s: Snapshot, unread: set<Name>, current: Item, i: Item) {
    && Seen(s, unread, current, i) && Earlier(CandidateOf(i), CandidateOf(current))
    && forall j :: Seen(s, unread, current, j) ==> !Earlier(CandidateOf(j), CandidateOf(i))
  }

  /** A rival whose connection was read. */
  predicate Seen(s: Snapshot, unread: set<Name>, current: Item, i: Item) { Rival(s, current, i) && i.name !in unread }

  ghost predicate Passes(s: Snapshot, unread: set<Name>, current: Item) {
    ClientURL(s, current).Some? && forall i :: Seen(s, unread, current, i) ==>
        Earlier(CandidateOf(current), CandidateOf(i))
  }

  ghost predicate Owns(c: Check) { Passes(c.snapshot, c.unread, c.current) }

  /** The API server stores one object per name. */
  ghost predicate Distinct(items: seq<Item>) {
    forall i, j :: 0 <= i < j < |items| ==> items[i].name != items[j].name
  }

  /** A live resource whose client uses this URL. */
  predicate Competes(s: Snapshot, url: string, i: Item) {
    i in s.items && !i.deleting && ClientURL(s, i) == Some(url)
  }

  ghost predicate First(s: Snapshot, url: string, i: Item) {
    Competes(s, url, i) && forall j :: Competes(s, url, j) ==> j == i || Earlier(CandidateOf(i), CandidateOf(j))
  }

  lemma SameNameSameItem(items: seq<Item>, a: Item, b: Item)
    requires Distinct(items) && a in items && b in items && a.name == b.name
    ensures a == b
  {
    var i, j :| 0 <= i < |items| && items[i] == a && 0 <= j < |items| && items[j] == b;
  }

  /** A competitor passes exactly when it is the earliest by creation time, namespace and name. */
  lemma PassesExactlyWhenFirst(s: Snapshot, url: string, i: Item)
    requires Distinct(s.items) && Competes(s, url, i)
    ensures Passes(s, {}, i) <==> First(s, url, i)
  {
    forall j | Competes(s, url, j) ensures j == i || Rival(s, i, j) {
      if j.name == i.name { SameNameSameItem(s.items, i, j); }
    }
    forall j | Rival(s, i, j) ensures Competes(s, url, j) {}
  }

  lemma {:induction false} EarliestExists(pool: set<Candidate>)
    requires pool != {}
    ensures exists c :: c in pool && forall d :: d in pool ==> d == c || Earlier(c, d)
    decreases |pool|
  {
    EarlierOrder();
    var x :| x in pool;
    var rest := pool - {x};
    if rest == {} {
      assert pool == {x};
    } else {
      EarliestExists(rest);
      var c :| c in rest && forall d :: d in rest ==> d == c || Earlier(c, d);
      assert Alike(Earlier, x, c) ==> x == c;
      var best := if Earlier(x, c) then x else c;
      forall d | d in pool ensures d == best || Earlier(best, d) {
        assert Alike(Earlier, best, d) ==> best == d;
        assert d == x || d in rest;
      }
    }
  }

  /** In every snapshot exactly one of the live resources that share a client URL passes. */
  lemma ExactlyOnePasses(s: Snapshot, url: string)
    requires Distinct(s.items) && exists i :: Competes(s, url, i)
    ensures exists i :: Competes(s, url, i) && Passes(s, {}, i) && First(s, url, i)
    ensures forall i, j :: Competes(s, url, i) && Competes(s, url, j) && Passes(s, {}, i) && Passes(s, {}, j) ==> i == j
  {
    var pool := set i | i in s.items && Competes(s, url, i) :: CandidateOf(i);
    var some :| Competes(s, url, some);
    assert CandidateOf(some) in pool;
    EarliestExists(pool);
    var c :| c in pool && forall d :: d in pool ==> d == c || Earlier(c, d);
    var i :| i in s.items && Competes(s, url, i) && CandidateOf(i) == c;
    forall j | Competes(s, url, j) ensures j == i || Earlier(CandidateOf(i), CandidateOf(j)) {
      assert CandidateOf(j) in pool;
      if j.name == i.name { SameNameSameItem(s.items, i, j); }
    }
    assert First(s, url, i);
    PassesExactlyWhenFirst(s, url, i);
    forall a, b | Competes(s, url, a) && Competes(s, url, b) && Passes(s, {}, a) && Passes(s, {}, b) ensures a == b {
      PassesExactlyWhenFirst(s, url, a);
      PassesExactlyWhenFirst(s, url, b);
      EarlierOrder();
    }
  }

  /** Two resources that both pass use clients with different base URLs. */
  lemma OwnersTalkToDifferentHarbors(s: Snapshot, a: Item, b: Item)
    requires Distinct(s.items) && a in s.items && b in s.items && a != b && !a.deleting && !b.deleting
    requires Passes(s, {}, a) && Passes(s, {}, b)
    ensures ClientURL(s, a) != ClientURL(s, b)
  {
    var url := ClientURL(s, a).value;
    if ClientURL(s, b) == Some(url) {
      assert Competes(s, url, a) && Competes(s, url, b);
      ExactlyOnePasses(s, url);
    }
  }

  /** Resources that arrive strictly later never displace the owner, whatever they refer to. */
  lemma LaterArrivalsDoNotDisplace(s: Snapshot, more: seq<Item>, owner: Item)
    requires Distinct(s.items + more) && owner in s.items && !owner.deleting && Passes(s, {}, owner)
    requires forall i :: 0 <= i < |more| ==> more[i].createdAt > owner.createdAt
    ensures Passes(s.(items := s.items + more), {}, owner)
  {
    var t := s.(items := s.items + more);
    forall i | Seen(t, {}, owner, i) ensures Earlier(CandidateOf(owner), CandidateOf(i)) {
      if i in s.items { assert Seen(s, {}, owner, i); }
    }
  }

  /** With failed reads, a competitor passes if and only if every earlier competitor is one of the unread. */
  lemma PassesExactlyWhenEarlierOnesAreUnread(s: Snapshot, unread: set<Name>, url: string, i: Item)
    requires Distinct(s.items) && Competes(s, url, i)
    ensures Passes(s, unread, i) <==>
      forall j :: Competes(s, url, j) && Earlier(CandidateOf(j), CandidateOf(i)) ==> j.name in unread
  {
    EarlierOrder();
    forall j | Competes(s, url, j) && j != i ensures Rival(s, i, j) {
      if j.name == i.name { SameNameSameItem(s.items, i, j); }
    }
    forall j | Rival(s, i, j) ensures Competes(s, url, j)
        && (Earlier(CandidateOf(j), CandidateOf(i)) || Earlier(CandidateOf(i), CandidateOf(j))) {
      assert Alike(Earlier, CandidateOf(i), CandidateOf(j)) <==> CandidateOf(i) == CandidateOf(j);
    }
  }

  /** One failed read is enough for two resources of one Harbor to pass. */
  lemma FailedReadMakesTwoOwners() returns (s: Snapshot, a: Item, b: Item)
    ensures Distinct(s.items) && a in s.items && b in s.items && a != b && !a.deleting && !b.deleting
    ensures ClientURL(s, a).Some? && ClientURL(s, a) == ClientURL(s, b)
    ensures Passes(s, {}, a) && Passes(s, {a.name}, b)
  {
    a := Item(Name("a", "gc"), 1, false, Some(Ref("harbor", Cluster)));
    b := Item(Name("b", "gc"), 2, false, Some(Ref("harbor", Cluster)));
    s := Snapshot("", map[ClusterKey("harbor") := Connection(7, "https://harbor")], [a, b]);
    assert Competes(s, TrimSlashes("https://harbor"), a) && Competes(s, TrimSlashes("https://harbor"), b);
  }
}
