/**
 Deletion of a UserGroupClaim: its finalizer goes only after the member check of the same reconcile found no reference.
 */
module ClaimMembers {
  import opened Values
  import opened Conditions
  import opened GroupClaims
  import Members

  // ---------- the checks of a run ----------

  /** Event j is the member check of a reconcile of claim i. */
  ghost predicate ChecksAt(fold: Fold, w: World, run: seq<Event>, i: Key, j: nat) {
    && j < |run| && run[j].Step? && run[j].claim == i
    && var s := Exec(fold, w, run[..j]).claims; i in s && s[i].phase.Checking?
  }

  /** That check listed the members, and none of them references the claim. */
  ghost predicate ClearAt(fold: Fold, w: World, run: seq<Event>, i: Key, j: nat) {
    && ChecksAt(fold, w, run, i, j) && run[j].answer.members.Some?
    && forall m :: m in run[j].answer.members.value ==> !Members.References(m, i)
  }

  /** That check listed a member that references the claim. */
  ghost predicate ReferencedAt(fold: Fold, w: World, run: seq<Event>, i: Key, j: nat) {
    && ChecksAt(fold, w, run, i, j) && run[j].answer.members.Some?
    && exists m :: m in run[j].answer.members.value && Members.References(m, i)
  }

  predicate Holds(w: World, i: Key) { i in w.claims && w.claims[i].finalizer }

  predicate IsReleasing(w: World, i: Key) { i in w.claims && w.claims[i].phase.Releasing? }

  /** Event j is a clear check, and the claim has been about to remove its finalizer ever since. */
  ghost predicate ClearSince(fold: Fold, w: World, run: seq<Event>, i: Key, j: nat) {
    ClearAt(fold, w, run, i, j) && forall n: nat :: j < n <= |run| ==> IsReleasing(Exec(fold, w, run[..n]), i)
  }

  lemma ClearAtStays(fold: Fold, w: World, run: seq<Event>, more: seq<Event>, i: Key, j: nat)
    requires run <= more && ClearAt(fold, w, run, i, j)
    ensures ClearAt(fold, w, more, i, j)
  {
    assert run[..j] == more[..j];
  }

  /** A check carried out now stays a check of every longer run. */
  lemma CheckStays(fold: Fold, w: World, run: seq<Event>, more: seq<Event>, i: Key, a: Answer)
    requires run + [Step(i, a)] <= more && a.members.Some?
    requires var s := Exec(fold, w, run).claims; i in s && s[i].phase.Checking?
    ensures if Mentions(a.members.value, i) then ReferencedAt(fold, w, more, i, |run|)
            else ClearAt(fold, w, more, i, |run|)
  {
    assert more[..|run|] == run && more[|run|] == Step(i, a);
  }

  lemma IntoReleasing(fold: Fold, w: World, e: Event, i: Key)
    requires IsReleasing(Next(fold, w, e), i) && !IsReleasing(w, i)
    ensures i in w.claims && w.claims[i].phase.Checking? && e.Step? && e.claim == i && e.answer.members.Some?
    ensures forall m :: m in e.answer.members.value ==> !Members.References(m, i)
  {
  }

  lemma OutOfHold(fold: Fold, w: World, e: Event, i: Key)
    requires Holds(w, i) && !Holds(Next(fold, w, e), i)
    ensures IsReleasing(w, i) && e.Step? && e.claim == i && !e.answer.write.Rejected?
  {
  }

  lemma {:induction false} ReleasingFollowsAClearCheck(fold: Fold, w: World, run: seq<Event>, i: Key)
    requires Init(fold, w) && IsReleasing(Exec(fold, w, run), i)
    ensures exists j: nat :: ClearSince(fold, w, run, i, j)
  {
    var n := |run| - 1;
    var before := run[..n];
    assert run[..|run|] == run;
    var j: nat := n;
    if IsReleasing(Exec(fold, w, before), i) {
      ReleasingFollowsAClearCheck(fold, w, before, i);
      j :| ClearSince(fold, w, before, i, j);
      ClearAtStays(fold, w, before, run, i, j);
    } else {
      IntoReleasing(fold, Exec(fold, w, before), run[n], i);
      assert ClearAt(fold, w, run, i, n);
    }
    forall k: nat | j < k <= |run| ensures IsReleasing(Exec(fold, w, run[..k]), i) {
      if k < |run| { assert before[..k] == run[..k]; }
    }
    assert ClearSince(fold, w, run, i, j);
  }

  /**
   In every run: a claim loses its finalizer, or disappears with it, only by the removal of a reconcile whose own member
   check listed no reference to it.
   */
  lemma HoldGoesOnlyAfterAClearCheck(fold: Fold, w: World, run: seq<Event>, e: Event, i: Key)
    requires Init(fold, w) && Holds(Exec(fold, w, run), i) && !Holds(Next(fold, Exec(fold, w, run), e), i)
    ensures e.Step? && e.claim == i && exists j: nat :: ClearSince(fold, w, run, i, j)
  {
    OutOfHold(fold, Exec(fold, w, run), e, i);
    ReleasingFollowsAClearCheck(fold, w, run, i);
  }

  /** A check that lists a reference leaves the claim stored and held as it was and ends in that error. */
  lemma ReferencedFails(fold: Fold, w: World, run: seq<Event>, i: Key, j: nat)
    requires Init(fold, w) && ReferencedAt(fold, w, run, i, j)
    ensures var c := Exec(fold, w, run[..j]).claims[i];
            var s := Exec(fold, w, run[..j + 1]).claims;
            i in s && s[i] == c.(phase := Failing(c.phase.mem, StillReferenced)) && (c.deleting ==> c.finalizer)
  {
    DeletingIsHeld(fold, w, run[..j], i);
    assert run[..j + 1][..j] == run[..j];
    var m :| m in run[j].answer.members.value && Members.References(m, i);
    assert Mentions(run[j].answer.members.value, i);
  }

  /** After such a check the finalizer goes only after another, later check that is clear. */
  lemma ReferencedIsKept(fold: Fold, w: World, run: seq<Event>, e: Event, i: Key, j: nat)
    requires Init(fold, w) && ReferencedAt(fold, w, run, i, j)
    requires Holds(Exec(fold, w, run), i) && !Holds(Next(fold, Exec(fold, w, run), e), i)
    ensures exists k: nat :: j < k && ClearSince(fold, w, run, i, k)
  {
    HoldGoesOnlyAfterAClearCheck(fold, w, run, e, i);
    var k: nat :| ClearSince(fold, w, run, i, k);
    ReferencedFails(fold, w, run, i, j);
    assert !IsReleasing(Exec(fold, w, run[..j + 1]), i);
  }

  /** A clear check of a claim being deleted is followed by the removal, and with the removal the claim is gone. */
  lemma ClearRemoves(fold: Fold, w: World, run: seq<Event>, i: Key, j: nat, a: Answer)
    requires Init(fold, w) && ClearAt(fold, w, run, i, j)
    requires var c := Exec(fold, w, run[..j]).claims[i]; c.phase.mem.finalizer && c.deleting && !a.write.Rejected?
    ensures var v := Exec(fold, w, run[..j + 1]); IsReleasing(v, i) && i !in Next(fold, v, Step(i, a)).claims
  {
    DeletingIsHeld(fold, w, run[..j], i);
    assert run[..j + 1][..j] == run[..j];
  }

  // ---------- how a failing reconcile ends ----------

  /** The conditions and the id in memory are the stored ones, in every phase. */
  predicate SameMarks(c: Claim) {
    c.phase.Idle? || (c.phase.mem.status.base.marks == c.stored.base.marks && c.phase.mem.status.id == c.stored.id)
  }

  lemma StepKeepsMarks(fold: Fold, h: Harbor, i: Key, c: Claim, a: Answer)
    requires SameMarks(c)
    ensures SameMarks(ClaimStep(fold, h, i, c, a).1)
  {
  }

  lemma {:induction false} MarksAgree(fold: Fold, w: World, run: seq<Event>, i: Key)
    requires Init(fold, w) && i in Exec(fold, w, run).claims
    ensures SameMarks(Exec(fold, w, run).claims[i])
  {
    var v, e := Exec(fold, w, run[..|run| - 1]), run[|run| - 1];
    if i in v.claims {
      MarksAgree(fold, w, run[..|run| - 1], i);
      if e.Step? && e.claim == i { StepKeepsMarks(fold, v.harbor, i, v.claims[i], e.answer); }
    }
  }

  /** A failing reconcile ends with a claim that is not Ready, unless that write is lost, and is otherwise as before. */
  lemma FailingEndsInError(fold: Fold, w: World, run: seq<Event>, i: Key, a: Answer)
    requires Init(fold, w) && !a.write.Rejected?
    requires var s := Exec(fold, w, run).claims; i in s && s[i].phase.Failing?
    ensures var v := Exec(fold, w, run);
            var s := Next(fold, v, Step(i, a)).claims;
            && i in s && s[i].phase.Idle? && !IsReady(s[i].stored.base)
            && s[i].finalizer == v.claims[i].finalizer && s[i].stored.id == v.claims[i].stored.id
  {
    DeletingIsHeld(fold, w, run, i);
    MarksAgree(fold, w, run, i);
  }

  // ---------- with the members themselves ----------

  /** A listing shows the stored members, in any order. */
  predicate ShowsMembers(listing: seq<Members.Member>, members: map<Key, Members.Member>) {
    (forall m :: m in listing ==> m in members.Values) && (forall k :: k in members ==> members[k] in listing)
  }

  /**
   `changes` is what happens to members meanwhile, event by event beside the run (either may hold events without
   effect); every check that does not fail lists the members of its moment.
   */
  ghost predicate Beside(fold: Fold, w: World, run: seq<Event>, m: Members.World, changes: seq<Members.Event>) {
    && |changes| == |run|
    && forall i, j: nat :: ChecksAt(fold, w, run, i, j) && run[j].answer.members.Some? ==>
         ShowsMembers(run[j].answer.members.value, Members.Exec(m, changes[..j]).members)
  }

  lemma CheckIsTrue(fold: Fold, w: World, run: seq<Event>, m: Members.World, changes: seq<Members.Event>, i: Key,
                    j: nat)
    requires Beside(fold, w, run, m, changes) && ChecksAt(fold, w, run, i, j) && run[j].answer.members.Some?
    ensures ClearAt(fold, w, run, i, j) <==> !Members.Referenced(Members.Exec(m, changes[..j]).members, i)
    ensures ReferencedAt(fold, w, run, i, j) <==> Members.Referenced(Members.Exec(m, changes[..j]).members, i)
  {
    var stored, listing := Members.Exec(m, changes[..j]).members, run[j].answer.members.value;
    assert ShowsMembers(listing, stored);
    forall x | x in listing ensures exists k :: k in stored && stored[k] == x {}
  }

  /**
   When a claim's finalizer goes, no member referenced it at the member check of that reconcile, and none does now if
   and only if no reference was added since that is still there.
   */
  lemma RemovalIsCleanExactlyWhenNothingWasAdded(fold: Fold, w: World, run: seq<Event>, e: Event, i: Key,
                                                 m: Members.World, changes: seq<Members.Event>)
    requires Init(fold, w) && Beside(fold, w, run, m, changes)
    requires Holds(Exec(fold, w, run), i) && !Holds(Next(fold, Exec(fold, w, run), e), i)
    ensures exists j: nat ::
      && ClearSince(fold, w, run, i, j)
      && !Members.Referenced(Members.Exec(m, changes[..j]).members, i)
      && (!Members.Referenced(Members.Exec(m, changes).members, i) <==> !Members.AddedSince(changes, i, j))
  {
    HoldGoesOnlyAfterAClearCheck(fold, w, run, e, i);
    var j: nat :| ClearSince(fold, w, run, i, j);
    CheckIsTrue(fold, w, run, m, changes, i, j);
    Members.ReferencedExactlyWhenAdded(m, changes, i, j);
  }
}
