/** Members and the UserGroupClaims they reference: two watches, one search, and the order of deletion. */
module Members {
  import opened Values

  datatype Key = Key(namespace: string, name: string)

  /** groupClaimRef; an empty namespace means the member's own. */
  datatype ClaimRef = ClaimRef(namespace: string, name: string)
  datatype Member = Member(key: Key, group: Option<ClaimRef>, deleting: bool)

  /** The claim a member references. */
  function ClaimOf(m: Member): Option<Key> {
    match m.group
    case None => None
    case Some(ref) => Some(Key(if ref.namespace == "" then m.key.namespace else ref.namespace, ref.name))
  }

  predicate References(m: Member, claim: Key) { ClaimOf(m) == Some(claim) }

  // ---------- three pieces of code, one relation ----------

  /** hasActiveMembers. */
  method HasActiveMembers(members: seq<Member>, claim: Key) returns (referenced: bool)
    ensures referenced <==> exists i :: 0 <= i < |members| && References(members[i], claim)
  {
    for i := 0 to |members|
      invariant forall j :: 0 <= j < i ==> !References(members[j], claim)
    {
      var m := members[i];
      if m.group.None? { continue; }
      var namespace := if m.group.value.namespace == "" then m.key.namespace else m.group.value.namespace;
      if namespace == claim.namespace && m.group.value.name == claim.name { return true; }
    }
    return false;
  }

  /** The Member controller's watch on claims: the members to reconcile when a claim changes, in list order. */
  method MembersOfClaim(members: seq<Member>, claim: Key) returns (requests: seq<Key>)
    ensures requests == Referencing(members, claim)
    ensures forall k :: k in requests <==>
        exists i :: 0 <= i < |members| && members[i].key == k && References(members[i], claim)
  {
    requests := [];
    for i := 0 to |members|
      invariant requests == Referencing(members[..i], claim)
      invariant forall k :: k in requests <==>
          exists j :: 0 <= j < i && members[j].key == k && References(members[j], claim)
    {
      var m := members[i];
      assert members[..i + 1][..i] == members[..i];
      if m.group.None? { continue; }
      var namespace := if m.group.value.namespace == "" then m.key.namespace else m.group.value.namespace;
      if namespace == claim.namespace && m.group.value.name == claim.name { requests := requests + [m.key]; }
    }
    assert members[..|members|] == members;
  }

  function Referencing(members: seq<Member>, claim: Key): seq<Key> {
    if members == [] then []
    else
      var m := members[|members| - 1];
      Referencing(members[..|members| - 1], claim) + (if References(m, claim) then [m.key] else [])
  }

  /** The claim controller's watch on members: the claims to reconcile when a member changes. */
  method ClaimsOfMember(m: Member) returns (requests: seq<Key>)
    ensures |requests| <= 1 && forall k :: k in requests <==> References(m, k)
  {
    if m.group.None? { return []; }
    var namespace := if m.group.value.namespace == "" then m.key.namespace else m.group.value.namespace;
    return [Key(namespace, m.group.value.name)];
  }

  /** Both watches and the search agree on every member of every listing. */
  method OneRelation(members: seq<Member>, i: nat, claim: Key) returns (toMember: bool, toClaim: bool, blocks: bool)
    requires i < |members| && forall j, k :: 0 <= j < k < |members| ==> members[j].key != members[k].key
    ensures toMember == toClaim == blocks == References(members[i], claim)
  {
    var a := MembersOfClaim(members, claim);
    var b := ClaimsOfMember(members[i]);
    toMember, toClaim := members[i].key in a, claim in b;
    blocks := HasActiveMembers([members[i]], claim);
    assert [members[i]][0] == members[i];
  }

  // ---------- deletion order ----------

  datatype Claim = Claim(version: nat, deleting: bool, finalizer: bool)

  datatype Phase = Idle | Loaded(mem: Claim) | Listing(mem: Claim) | Removing(mem: Claim) | Holding(mem: Claim)

  /** `version` grows with every write to a claim. */
  datatype World = World(members: map<Key, Member>, claims: map<Key, Claim>, phases: map<Key, Phase>, version: nat)

  datatype Event =
    | PutMember(member: Member)
    | DropMember(key: Key)
    | AddClaim(key: Key)
    | DeleteClaim(key: Key)
    | TouchClaim(key: Key)
    | Crash(key: Key)
    | Reconcile(key: Key, ok: bool, write: Write)

  predicate Referenced(members: map<Key, Member>, claim: Key) {
    exists k :: k in members && References(members[k], claim)
  }

  function PhaseOf(w: World, k: Key): Phase { if k in w.phases then w.phases[k] else Idle }

  function Enter(w: World, k: Key, p: Phase): World { w.(phases := w.phases[k := p]) }

  /** A version-checked write of a claim that stays. */
  function Store(w: World, k: Key, c: Claim): World {
    w.(claims := w.claims[k := c.(version := w.version + 1)], version := w.version + 1)
  }

  predicate Lands(w: World, k: Key, mem: Claim, write: Write) {
    k in w.claims && w.claims[k].version == mem.version && !write.Rejected?
  }

  /** One API call of the claim's reconcile, up to ensureFinalizer; what follows concerns Harbor alone. */
  function ReconcileStep(w: World, k: Key, ok: bool, write: Write): World {
    match PhaseOf(w, k)
    case Idle => if k in w.claims then Enter(w, k, Loaded(w.claims[k])) else w
    case Loaded(mem) => Enter(w, k, if mem.deleting then Listing(mem) else Holding(mem))
    case Listing(mem) =>
      if !ok || Referenced(w.members, k) || !mem.finalizer then Enter(w, k, Idle) else Enter(w, k, Removing(mem))
    case Removing(mem) =>
      if Lands(w, k, mem, write) then
        Enter(if mem.deleting then w.(claims := w.claims - {k}) else Store(w, k, mem.(finalizer := false)), k, Idle)
      else Enter(w, k, Idle)
    case Holding(mem) =>
      Enter(if !mem.finalizer && Lands(w, k, mem, write) then Store(w, k, mem.(finalizer := true)) else w, k, Idle)
  }

  function Next(w: World, e: Event): World {
    match e
    case PutMember(m) => w.(members := w.members[m.key := m])
    case DropMember(k) => w.(members := w.members - {k})
    case AddClaim(k) => if k in w.claims then w else Store(w, k, Claim(0, false, false))
    case DeleteClaim(k) =>
      if k !in w.claims then w
      else if !w.claims[k].finalizer then w.(claims := w.claims - {k})
      else Store(w, k, w.claims[k].(deleting := true))
    case TouchClaim(k) => if k !in w.claims then w else Store(w, k, w.claims[k])
    case Crash(k) => Enter(w, k, Idle)
    case Reconcile(k, ok, write) => ReconcileStep(w, k, ok, write)
  }

  function Exec(w: World, run: seq<Event>): World {
    if run == [] then w else Next(Exec(w, run[..|run| - 1]), run[|run| - 1])
  }

  predicate Init(w: World) { w.phases == map[] }

  predicate Holds(w: World, k: Key) { k in w.claims && w.claims[k].finalizer }

  // ---------- writes ----------

  /** A reconcile changes its own claim only, by a write that is not rejected, and only as it was when it was read. */
  lemma WritesAreChecked(w: World, k: Key, ok: bool, write: Write)
    requires ReconcileStep(w, k, ok, write).claims != w.claims
    ensures !write.Rejected? && k in w.claims && !PhaseOf(w, k).Idle?
    ensures w.claims[k].version == PhaseOf(w, k).mem.version
    ensures ReconcileStep(w, k, ok, write).claims - {k} == w.claims - {k}
  {
  }

  /** Where nothing hinders them: a missing finalizer is added, a deleted claim goes with its own. */
  lemma WritesTakeEffect(w: World, k: Key, ok: bool, write: Write)
    requires k in w.claims && !write.Rejected? && (PhaseOf(w, k).Holding? || PhaseOf(w, k).Removing?)
    requires PhaseOf(w, k).mem == w.claims[k]
    ensures var v := ReconcileStep(w, k, ok, write);
            && PhaseOf(v, k).Idle?
            && (PhaseOf(w, k).Holding? ==> Holds(v, k) && v.claims[k].deleting == w.claims[k].deleting)
            && (PhaseOf(w, k).Holding? && Holds(w, k) ==> v.claims == w.claims && v.version == w.version)
            && (PhaseOf(w, k).Removing? && w.claims[k].deleting ==> k !in v.claims)
            && (PhaseOf(w, k).Removing? && !w.claims[k].deleting ==> k in v.claims && !Holds(v, k))
            && (k in v.claims && v.claims != w.claims ==> v.claims[k].version == v.version > w.version)
  {
  }

  /** A new claim is not held and not being deleted; every change by others outdates the copies read before it. */
  lemma ChangesAreSeen(w: World, e: Event, k: Key)
    requires (e.AddClaim? || e.DeleteClaim? || e.TouchClaim?) && e.key == k && (e.AddClaim? <==> k !in w.claims)
    ensures var v := Next(w, e);
            if e.DeleteClaim? && !Holds(w, k) then k !in v.claims
            else
              && k in v.claims && v.claims[k].version == v.version > w.version
              && v.claims[k].deleting == (e.DeleteClaim? || (k in w.claims && w.claims[k].deleting))
              && v.claims[k].finalizer == Holds(w, k)
  {
  }

  /** A crash ends the claim's reconcile and changes nothing else. */
  lemma CrashEnds(w: World, k: Key)
    ensures var v := Next(w, Crash(k)); PhaseOf(v, k).Idle? && v.(phases := w.phases) == w
  {
  }

  /** The claim, being deleted, is about to list members, and none references it. */
  predicate SeesNone(w: World, k: Key) {
    PhaseOf(w, k).Listing? && PhaseOf(w, k).mem.deleting && !Referenced(w.members, k)
  }

  predicate ListsWhenDeleting(w: World, k: Key) { PhaseOf(w, k).Listing? ==> PhaseOf(w, k).mem.deleting }

  lemma StepOfPhase(w: World, e: Event, k: Key)
    requires ListsWhenDeleting(w, k)
    ensures ListsWhenDeleting(Next(w, e), k)
    ensures PhaseOf(Next(w, e), k).Removing? ==> PhaseOf(w, k).Removing? || SeesNone(w, k)
  {
    if !(e.Reconcile? && e.key == k) {
      assert PhaseOf(Next(w, e), k) == PhaseOf(w, k) || PhaseOf(Next(w, e), k).Idle?;
    }
  }

  lemma StepOfFinalizer(w: World, e: Event, k: Key)
    requires Holds(w, k) && !Holds(Next(w, e), k)
    ensures PhaseOf(w, k).Removing? && e.Reconcile? && e.key == k
  {
  }

  /** At step j the claim listed no reference, and has been about to remove its finalizer ever since. */
  ghost predicate ListedFreeAt(w: World, run: seq<Event>, k: Key, j: nat) {
    && j < |run|
    && SeesNone(Exec(w, run[..j]), k)
    && forall i :: j < i <= |run| ==> PhaseOf(Exec(w, run[..i]), k).Removing?
  }

  lemma {:induction false} RemovalFollowsAnEmptyListing(w: World, run: seq<Event>, k: Key)
    requires Init(w)
    ensures ListsWhenDeleting(Exec(w, run), k)
    ensures PhaseOf(Exec(w, run), k).Removing? ==> exists j: nat :: ListedFreeAt(w, run, k, j)
  {
    if run != [] {
      var n := |run| - 1;
      var before := run[..n];
      RemovalFollowsAnEmptyListing(w, before, k);
      StepOfPhase(Exec(w, before), run[n], k);
      assert run[..|run|] == run;
      if PhaseOf(Exec(w, run), k).Removing? {
        var j: nat := n;
        if PhaseOf(Exec(w, before), k).Removing? {
          j :| ListedFreeAt(w, before, k, j);
        }
        forall i | j < i <= |run| ensures PhaseOf(Exec(w, run[..i]), k).Removing? {
          if i < |run| { assert before[..i] == run[..i]; }
        }
        if j < n { assert before[..j] == run[..j]; }
        assert ListedFreeAt(w, run, k, j);
      }
    }
  }

  /**
   A claim loses its finalizer only right after a listing, in the same reconcile, in which no member referenced it.
   */
  lemma FinalizerGoesOnlyWhenFree(w: World, run: seq<Event>, e: Event, k: Key)
    requires Init(w) && Holds(Exec(w, run), k) && !Holds(Next(Exec(w, run), e), k)
    ensures exists j: nat :: ListedFreeAt(w, run, k, j)
  {
    RemovalFollowsAnEmptyListing(w, run, k);
    StepOfFinalizer(Exec(w, run), e, k);
  }

  /** The event replaces or removes the member of this key. */
  predicate Overwrites(e: Event, key: Key) { (e.PutMember? && e.member.key == key) || (e.DropMember? && e.key == key) }

  /** Event i gives the member of this key a reference to the claim, and nothing later overwrites that member. */
  ghost predicate Adds(run: seq<Event>, i: nat, claim: Key, key: Key) {
    && i < |run| && run[i].PutMember? && run[i].member.key == key && References(run[i].member, claim)
    && forall n :: i < n < |run| ==> !Overwrites(run[n], key)
  }

  predicate RefersAt(members: map<Key, Member>, key: Key, claim: Key) {
    key in members && References(members[key], claim)
  }

  /**
   Member by member: after a moment without references, a reference is exactly one that was added since and not
   overwritten.
   */
  lemma {:induction false} RefersExactlyWhenAdded(w: World, run: seq<Event>, k: Key, j: nat, key: Key)
    requires j <= |run| && !Referenced(Exec(w, run[..j]).members, k)
    ensures RefersAt(Exec(w, run).members, key, k) <==> exists i: nat :: j <= i && Adds(run, i, k, key)
    decreases |run|
  {
    if j == |run| {
      assert run[..j] == run;
    } else {
      var n := |run| - 1;
      var before, e := run[..n], run[n];
      assert before[..j] == run[..j];
      RefersExactlyWhenAdded(w, before, k, j, key);
      if Overwrites(e, key) {
        if e.PutMember? && References(e.member, k) { assert Adds(run, n, k, key); }
        forall i: nat | j <= i && Adds(run, i, k, key) ensures i == n {}
      } else {
        assert RefersAt(Exec(w, run).members, key, k) == RefersAt(Exec(w, before).members, key, k);
        forall i: nat ensures Adds(run, i, k, key) <==> Adds(before, i, k, key) { AddsStays(run, i, k, key); }
      }
    }
  }

  lemma AddsStays(run: seq<Event>, i: nat, k: Key, key: Key)
    requires run != [] && !Overwrites(run[|run| - 1], key)
    ensures Adds(run, i, k, key) <==> Adds(run[..|run| - 1], i, k, key)
  {
    var before := run[..|run| - 1];
    forall n | 0 <= n < |before| ensures run[n] == before[n] {}
  }

  /** Some reference to the claim was added from event j on and is still there. */
  ghost predicate AddedSince(run: seq<Event>, k: Key, j: nat) {
    exists i: nat, key :: j <= i && Adds(run, i, k, key)
  }

  /** The claim is referenced at the end exactly when some member's reference was added since and not overwritten. */
  lemma ReferencedExactlyWhenAdded(w: World, run: seq<Event>, k: Key, j: nat)
    requires j <= |run| && !Referenced(Exec(w, run[..j]).members, k)
    ensures Referenced(Exec(w, run).members, k) <==> AddedSince(run, k, j)
  {
    var members := Exec(w, run).members;
    if Referenced(members, k) {
      var key :| key in members && References(members[key], k);
      RefersExactlyWhenAdded(w, run, k, j, key);
      assert RefersAt(members, key, k);
    }
    if AddedSince(run, k, j) {
      var i: nat, key :| j <= i && Adds(run, i, k, key);
      RefersExactlyWhenAdded(w, run, k, j, key);
      assert RefersAt(members, key, k);
    }
  }

  /**
   When the finalizer goes, no member is left dangling if and only if, between the claim's listing and the removal, no
   reference to it was added that is still there.
   */
  lemma RemovalIsCleanExactlyWhenNothingWasAdded(w: World, run: seq<Event>, e: Event, k: Key)
    requires Init(w) && Holds(Exec(w, run), k) && !Holds(Next(Exec(w, run), e), k)
    ensures exists j: nat :: ListedFreeAt(w, run, k, j)
              && (!Referenced(Next(Exec(w, run), e).members, k) <==> !AddedSince(run, k, j))
  {
    RemovalFollowsAnEmptyListing(w, run, k);
    StepOfFinalizer(Exec(w, run), e, k);
    var j: nat :| ListedFreeAt(w, run, k, j);
    ReferencedExactlyWhenAdded(w, run, k, j);
    RemovalKeepsMembers(Exec(w, run), e, k);
  }

  lemma RemovalKeepsMembers(w: World, e: Event, k: Key)
    requires e.Reconcile?
    ensures Next(w, e).members == w.members
  {
  }

  /** The listing and the removal are two calls: a member created between them is left with a dangling reference. */
  lemma ReferenceCanComeLater()
    ensures exists w: World, run: seq<Event>, e: Event, k: Key ::
      && Init(w) && Holds(Exec(w, run), k)
      && !Holds(Next(Exec(w, run), e), k) && Referenced(Next(Exec(w, run), e).members, k)
  {
    var k := Key("team", "devs");
    var m := Member(Key("team", "alice"), Some(ClaimRef("", "devs")), false);
    var c := Claim(1, true, true);
    var w0 := World(map[], map[k := c], map[], 1);
    var go := Reconcile(k, true, Applied);
    var w1 := w0.(phases := map[k := Loaded(c)]);
    var w2 := w0.(phases := map[k := Listing(c)]);
    var w3 := w0.(phases := map[k := Removing(c)]);
    var w4 := w3.(members := map[m.key := m]);
    var w5 := w4.(phases := map[k := Idle], claims := map[]);
    assert Next(w0, go) == w1 && Next(w1, go) == w2 && Next(w2, go) == w3;
    assert Next(w3, PutMember(m)) == w4 && Next(w4, go) == w5;
    var run := [go, go, go, PutMember(m)];
    assert run[..3] == [go, go, go] && [go, go, go][..2] == [go, go] && [go, go][..1] == [go];
    assert Exec(w0, [go]) == w1;
    assert Exec(w0, [go, go]) == w2;
    assert Exec(w0, [go, go, go]) == w3;
    assert Exec(w0, run) == w4;
    assert References(w5.members[m.key], k);
    assert Holds(w4, k);
  }
}
