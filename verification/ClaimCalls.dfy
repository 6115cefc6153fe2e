/** The order of a claim's calls: what must have been stored before the next one is sent, in every run. */
module ClaimCalls {
  import opened Values
  import opened Conditions
  import opened GroupClaims

  // ---------- writes ----------

  /** A rejected write leaves the claim in the store as it was. */
  lemma RejectedStoresNothing(fold: Fold, h: Harbor, i: Key, c: Claim, a: Answer)
    requires a.write.Rejected?
    ensures ClaimStep(fold, h, i, c, a).1.(phase := c.phase) == c
  {
  }

  /** A write whose answer is lost leaves the same claim in the store as an acknowledged one. */
  lemma LostAnswerStoresTheSame(fold: Fold, h: Harbor, i: Key, c: Claim, a: Answer)
    ensures var applied := ClaimStep(fold, h, i, c, a.(write := Applied)).1;
            var lost := ClaimStep(fold, h, i, c, a.(write := Unacknowledged)).1;
            lost.(phase := Idle) == applied.(phase := Idle)
  {
  }

  /** The operator does not go on after a write whose answer was lost. */
  lemma LostAnswerEnds(fold: Fold, h: Harbor, i: Key, c: Claim, a: Answer)
    requires a.write.Unacknowledged? && ClaimStep(fold, h, i, c, a).1.(phase := c.phase) != c
    ensures var p := ClaimStep(fold, h, i, c, a).1.phase; p.Idle? || p.Failing?
  {
  }

  // ---------- before Harbor is asked ----------

  /** The reconcile has come to the point where it talks to Harbor. */
  predicate AtHarbor(p: Phase) { p.Listing? || p.Creating? || p.Relisting? || p.Recording? }

  /** The reconcile is past markReconcilingIfNeeded and has not failed. */
  predicate Underway(p: Phase) { !p.Idle? && !p.Marking? && !p.Failing? }

  predicate Deletion(p: Phase) { p.Checking? || p.Releasing? }

  /** What is stored, and what was read, at each point of a reconcile. */
  predicate Prepared(c: Claim) {
    && (!c.phase.Idle? && c.phase.mem.finalizer ==> c.finalizer)
    && (!c.phase.Idle? && !c.phase.Failing? ==> c.phase.mem.status == c.stored)
    && (Underway(c.phase) ==> (c.phase.mem.deleting <==> Deletion(c.phase)))
    && (Underway(c.phase) ==> c.stored.base.observedGeneration == c.phase.mem.generation)
    && (c.phase.Binding? || AtHarbor(c.phase) ==> c.phase.mem.finalizer)
    && (AtHarbor(c.phase) ==> c.stored.base.binding.Some?)
  }

  lemma StepPrepares(fold: Fold, h: Harbor, i: Key, c: Claim, a: Answer)
    requires Prepared(c)
    ensures Prepared(ClaimStep(fold, h, i, c, a).1)
  {
    match c.phase
    case Marking(mem) => MarkPrepares(c, a);
    case Binding(mem) => BindPrepares(c, a);
    case _ =>
  }

  lemma MarkPrepares(c: Claim, a: Answer)
    requires Prepared(c) && c.phase.Marking?
    ensures Prepared(MarkStep(c, c.phase.mem, a))
  {
  }

  lemma BindPrepares(c: Claim, a: Answer)
    requires Prepared(c) && c.phase.Binding?
    ensures Prepared(BindStep(c, c.phase.mem, a))
  {
  }

  lemma {:induction false} AlwaysPrepared(fold: Fold, w: World, run: seq<Event>, i: Key)
    requires Init(fold, w) && i in Exec(fold, w, run).claims
    ensures Prepared(Exec(fold, w, run).claims[i])
  {
    var v, e := Exec(fold, w, run[..|run| - 1]), run[|run| - 1];
    if i in v.claims {
      AlwaysPrepared(fold, w, run[..|run| - 1], i);
      if e.Step? && e.claim == i { StepPrepares(fold, v.harbor, i, v.claims[i], e.answer); }
    }
  }

  /**
   In every run: when a claim's reconcile talks to Harbor, the stored claim has its finalizer and its binding and is
   marked for the generation that was read, and that was not one of a claim being deleted.
   */
  lemma HarborComesLast(fold: Fold, w: World, run: seq<Event>, i: Key)
    requires Init(fold, w) && i in Exec(fold, w, run).claims && AtHarbor(Exec(fold, w, run).claims[i].phase)
    ensures var c := Exec(fold, w, run).claims[i];
            && c.finalizer && c.stored.base.binding.Some? && !c.phase.mem.deleting
            && c.stored.base.observedGeneration == c.phase.mem.generation
  {
    AlwaysPrepared(fold, w, run, i);
  }

  // ---------- deletion ----------

  /** A deletion is seen by every later reconcile: the claim is being deleted from then on, under a new generation. */
  lemma DeletionIsSeen(fold: Fold, w: World, e: Event, i: Key)
    requires i in w.claims && i in Next(fold, w, e).claims
    ensures w.claims[i].deleting || e == Delete(i) <==> Next(fold, w, e).claims[i].deleting
    ensures e == Delete(i) ==> Next(fold, w, e).claims[i].generation > w.claims[i].generation
    ensures e.Step? && e.claim == i && w.claims[i].phase.Idle? ==>
      Next(fold, w, e).claims[i].phase.mem.deleting == w.claims[i].deleting
  {
  }

  // ---------- the conflict ----------

  /** A create answered by a conflict changes nothing and leads to the second listing. */
  lemma ConflictRelists(fold: Fold, h: Harbor, i: Key, c: Claim, a: Answer)
    requires c.phase.Creating? && NameTaken(fold, h.groups, c.want) && a.fate.Acknowledged?
    ensures ClaimStep(fold, h, i, c, a) == (h, c.(phase := Relisting(c.phase.mem)))
  {
  }

  /** What a truthful second listing leads to. */
  lemma RelistingFinds(fold: Fold, h: Harbor, i: Key, c: Claim, b: Answer)
    requires c.phase.Relisting? && NameTaken(fold, h.groups, c.want) && HarborOk(fold, h)
    requires b.listing.Some? && Shows(b.listing.value, h.groups)
    ensures var p := ClaimStep(fold, h, i, c, b).1.phase;
            if exists g :: g in h.groups && Compatible(fold, g, c.want) then
              p.Recording? && Names(fold, h.groups, c.want, p.id)
            else p == Failing(c.phase.mem, Incompatible)
  {
    FindIsRight(fold, b.listing.value, c.want);
  }

  /** A conflict is answered by a second listing, which ends the search: no reconcile creates twice. */
  lemma ConflictIsListedAgain(fold: Fold, w: World, run: seq<Event>, i: Key, a: Answer, b: Answer)
    requires Init(fold, w) && Lasting(run) && a.fate.Acknowledged?
    requires var v := Exec(fold, w, run);
             i in v.claims && v.claims[i].phase.Creating? && NameTaken(fold, v.harbor.groups, v.claims[i].want)
    requires b.listing.Some? && Shows(b.listing.value, Exec(fold, w, run).harbor.groups)
    ensures var v := Exec(fold, w, run);
            var c := v.claims[i];
            var d := ClaimStep(fold, v.harbor, i, c, a).1;
            var p := ClaimStep(fold, v.harbor, i, d, b).1.phase;
            && ClaimStep(fold, v.harbor, i, c, a).0 == v.harbor && d.(phase := c.phase) == c
            && if exists g :: g in v.harbor.groups && Compatible(fold, g, c.want) then
                 p.Recording? && Names(fold, v.harbor.groups, c.want, p.id)
               else p == Failing(c.phase.mem, Incompatible)
  {
    var v := Exec(fold, w, run);
    var c := v.claims[i];
    assert HarborOk(fold, v.harbor) by { RunKeepsInv(fold, w, run); }
    ConflictRelists(fold, v.harbor, i, c, a);
    RelistingFinds(fold, v.harbor, i, c.(phase := Relisting(c.phase.mem)), b);
  }

  /** Whatever becomes of Harbor's groups, the second listing does not lead to another create. */
  lemma SecondListingEnds(fold: Fold, h: Harbor, i: Key, c: Claim, a: Answer)
    requires c.phase.Relisting? && a.listing.Some? && Shows(a.listing.value, h.groups)
    ensures var r := ClaimStep(fold, h, i, c, a);
            && r.0 == h && (r.1.phase.Recording? || r.1.phase.Failing?)
            && (!NameTaken(fold, h.groups, c.want) <==> r.1.phase == Failing(c.phase.mem, NoCompatible))
  {
    FindIsRight(fold, a.listing.value, c.want);
  }
}
