/** Undisturbed reconciles of a UserGroupClaim: when every call succeeds, its group exists once and is on record. */
module ClaimConverges {
  import opened Values
  import opened Conditions
  import opened GroupClaims

  /** Every call succeeds and is answered truthfully; the member check, if it comes to it, has this outcome. */
  predicate Good(fold: Fold, h: Harbor, i: Key, c: Claim, a: Answer, referenced: bool) {
    && a.write.Applied? && a.fate.Acknowledged? && a.binding.Some?
    && (c.phase.Checking? ==> a.members.Some? && Mentions(a.members.value, i) == referenced)
    && (c.phase.Listing? || c.phase.Relisting? ==> a.listing.Some? && Shows(a.listing.value, h.groups))
    && (c.phase.Creating? ==> a.newId != 0 && !IdTaken(h.groups, a.newId))
  }

  /** The calls left at most. */
  function Rank(p: Phase): nat {
    match p
    case Idle => 0
    case Recording(_, _) => 1
    case Failing(_, _) => 1
    case Releasing(_) => 1
    case Checking(_) => 2
    case Creating(_) => 2
    case Relisting(_) => 2
    case Listing(_) => 3
    case Binding(_) => 4
    case Holding(_) => 5
    case Marking(_) => 6
  }

  /** What the reconcile would read now. */
  function Copy(c: Claim): Memory { Memory(c.generation, c.deleting, c.finalizer, c.stored) }

  /** Harbor has a group of the claim's name that is not the claimed one. */
  ghost predicate Occupied(fold: Fold, groups: set<Group>, want: Want) {
    exists g :: g in groups && SameName(fold, g, want) && !Compatible(fold, g, want)
  }

  /** Harbor is as at the start, but for the claimed group if there was none of its name. */
  ghost predicate Added(fold: Fold, start: Harbor, h: Harbor, want: Want) {
    if NameTaken(fold, start.groups, want) then h == start
    else exists id: nat :: id != 0 && Created(start, h, Group(id, want.name, want.kind, want.dn))
  }

  ghost predicate Created(start: Harbor, h: Harbor, g: Group) {
    g !in start.groups && h.groups == start.groups + {g} && h.created == start.created + [g]
  }

  ghost predicate OnTrack(fold: Fold, start: Harbor, first: Claim, h: Harbor, c: Claim, referenced: bool) {
    && HarborOk(fold, h) && ClaimOk(fold, h.groups, c)
    && c.want == first.want && c.deleting == first.deleting && c.generation == first.generation
    && match c.phase
       case Idle => false
       case Marking(mem) => mem == Copy(c) && h == start && (c.deleting ==> c.finalizer)
       case Checking(mem) => mem == Copy(c) && h == start && c.deleting && c.finalizer
       case Releasing(mem) => mem == Copy(c) && h == start && c.deleting && c.finalizer && !referenced
       case Failing(mem, _) => mem == Copy(c) && h == start && c.finalizer
           && if c.deleting then referenced else Occupied(fold, h.groups, c.want)
       case Recording(mem, id) => mem == Copy(c) && !c.deleting && c.finalizer && Added(fold, start, h, c.want)
       case Relisting(_) => false
       case Creating(mem) => mem == Copy(c) && h == start && !c.deleting && c.finalizer
           && !NameTaken(fold, h.groups, c.want)
       case _ => c.phase.mem == Copy(c) && h == start && !c.deleting && (!c.phase.Holding? ==> c.finalizer)
  }

  /**
   A deleted claim is gone unless a member references it; a live one is Ready, with the one group of its name on record,
   unless that name belongs to another identity. Whatever is not Ready changed nothing in Harbor.
   */
  ghost predicate EndsWell(fold: Fold, start: Harbor, first: Claim, h: Harbor, c: Claim, referenced: bool) {
    if first.deleting then h == start && c.finalizer == referenced && (referenced ==> !IsReady(c.stored.base))
    else if Occupied(fold, start.groups, first.want) then h == start && c.finalizer && !IsReady(c.stored.base)
    else
      && Added(fold, start, h, first.want) && c.finalizer && IsReady(c.stored.base)
      && c.stored.base.observedGeneration == first.generation && Names(fold, h.groups, first.want, c.stored.id)
  }

  ghost predicate Progress(fold: Fold, start: Harbor, first: Claim, p: Phase, h: Harbor, c: Claim, referenced: bool) {
    && Rank(c.phase) < Rank(p)
    && if c.phase.Idle? then EndsWell(fold, start, first, h, c, referenced)
       else OnTrack(fold, start, first, h, c, referenced)
  }

  lemma EarlySteps(fold: Fold, start: Harbor, first: Claim, h: Harbor, i: Key, c: Claim, a: Answer, referenced: bool)
    requires OnTrack(fold, start, first, h, c, referenced) && Good(fold, h, i, c, a, referenced)
    requires c.phase.Marking? || c.phase.Holding? || c.phase.Binding? || c.phase.Checking? || c.phase.Releasing?
    ensures var r := ClaimStep(fold, h, i, c, a); Progress(fold, start, first, c.phase, r.0, r.1, referenced)
  {
    ClaimStepOk(fold, h, i, c, a);
  }

  lemma ListingStep(fold: Fold, start: Harbor, first: Claim, h: Harbor, i: Key, c: Claim, a: Answer, referenced: bool)
    requires OnTrack(fold, start, first, h, c, referenced) && Good(fold, h, i, c, a, referenced) && c.phase.Listing?
    ensures var r := ClaimStep(fold, h, i, c, a); Progress(fold, start, first, c.phase, r.0, r.1, referenced)
  {
    ClaimStepOk(fold, h, i, c, a);
    FindIsRight(fold, a.listing.value, c.want);
  }

  lemma CreatingStep(fold: Fold, start: Harbor, first: Claim, h: Harbor, i: Key, c: Claim, a: Answer, referenced: bool)
    requires OnTrack(fold, start, first, h, c, referenced) && Good(fold, h, i, c, a, referenced) && c.phase.Creating?
    ensures var r := ClaimStep(fold, h, i, c, a); Progress(fold, start, first, c.phase, r.0, r.1, referenced)
  {
    ClaimStepOk(fold, h, i, c, a);
    var g := Group(a.newId, c.want.name, c.want.kind, c.want.dn);
    assert Created(start, ClaimStep(fold, h, i, c, a).0, g);
  }

  lemma LastSteps(fold: Fold, start: Harbor, first: Claim, h: Harbor, i: Key, c: Claim, a: Answer, referenced: bool)
    requires OnTrack(fold, start, first, h, c, referenced) && Good(fold, h, i, c, a, referenced)
    requires c.phase.Recording? || c.phase.Failing?
    ensures var r := ClaimStep(fold, h, i, c, a); Progress(fold, start, first, c.phase, r.0, r.1, referenced)
  {
    if c.phase.Recording? { ConcludingRecords(fold, h.groups, c, a); NotOccupied(fold, start, h, c.want, c.phase.id); }
  }

  /** Where the group exists in the end, the name was not another's at the start. */
  lemma NotOccupied(fold: Fold, start: Harbor, h: Harbor, want: Want, id: nat)
    requires HarborOk(fold, h) && Added(fold, start, h, want) && Names(fold, h.groups, want, id)
    ensures !Occupied(fold, start.groups, want)
  {
  }

  lemma TrackStep(fold: Fold, start: Harbor, first: Claim, h: Harbor, i: Key, c: Claim, a: Answer, referenced: bool)
    requires OnTrack(fold, start, first, h, c, referenced) && Good(fold, h, i, c, a, referenced)
    ensures var r := ClaimStep(fold, h, i, c, a); Progress(fold, start, first, c.phase, r.0, r.1, referenced)
  {
    match c.phase
    case Listing(_) => ListingStep(fold, start, first, h, i, c, a, referenced);
    case Creating(_) => CreatingStep(fold, start, first, h, i, c, a, referenced);
    case Recording(_, _) => LastSteps(fold, start, first, h, i, c, a, referenced);
    case Failing(_, _) => LastSteps(fold, start, first, h, i, c, a, referenced);
    case _ => EarlySteps(fold, start, first, h, i, c, a, referenced);
  }

  // ---------- whole reconciles ----------

  /** One claim's calls alone, all of them good. */
  ghost predicate GoodRun(fold: Fold, w: World, run: seq<Event>, i: Key, referenced: bool) {
    forall n :: 0 <= n < |run| ==>
      && run[n].Step? && run[n].claim == i
      && var v := Exec(fold, w, run[..n]);
         i in v.claims ==> Good(fold, v.harbor, i, v.claims[i], run[n].answer, referenced)
  }

  /** The reconcile is over and the other claims are as they were; a deleted claim no member references is gone. */
  ghost predicate Ended(fold: Fold, w: World, i: Key, v: World, referenced: bool)
    requires i in w.claims
  {
    && v.claims - {i} == w.claims - {i}
    && if i in v.claims then
         && v.claims[i].phase.Idle? && !(w.claims[i].deleting && !referenced)
         && EndsWell(fold, w.harbor, w.claims[i], v.harbor, v.claims[i], referenced)
       else w.claims[i].deleting && !referenced && v.harbor == w.harbor
  }

  ghost predicate EndedBy(fold: Fold, w: World, run: seq<Event>, i: Key, n: nat, referenced: bool)
    requires i in w.claims && n <= |run|
  {
    exists m: nat :: 0 < m <= n && Ended(fold, w, i, Exec(fold, w, run[..m]), referenced)
  }

  ghost predicate Running(fold: Fold, w: World, i: Key, v: World, referenced: bool, left: int)
    requires i in w.claims
  {
    && i in v.claims && v.claims - {i} == w.claims - {i} && 0 < Rank(v.claims[i].phase) <= left
    && OnTrack(fold, w.harbor, w.claims[i], v.harbor, v.claims[i], referenced)
  }

  lemma WorldStep(fold: Fold, w: World, i: Key, v: World, a: Answer, referenced: bool, left: int)
    requires i in w.claims && Running(fold, w, i, v, referenced, left)
    requires Good(fold, v.harbor, i, v.claims[i], a, referenced)
    ensures var u := Next(fold, v, Step(i, a));
            Ended(fold, w, i, u, referenced) || Running(fold, w, i, u, referenced, left - 1)
  {
    var c := v.claims[i];
    TrackStep(fold, w.harbor, w.claims[i], v.harbor, i, c, a, referenced);
    var u, r := Next(fold, v, Step(i, a)), ClaimStep(fold, v.harbor, i, c, a);
    assert u.claims - {i} == v.claims - {i};
  }

  lemma WorldBegins(fold: Fold, w: World, i: Key, a: Answer, referenced: bool)
    requires HarborOk(fold, w.harbor) && i in w.claims && ClaimOk(fold, w.harbor.groups, w.claims[i])
    requires w.claims[i].phase.Idle? && (w.claims[i].deleting ==> w.claims[i].finalizer)
    ensures Running(fold, w, i, Next(fold, w, Step(i, a)), referenced, 6)
  {
    var u := Next(fold, w, Step(i, a));
    assert u.claims[i] == w.claims[i].(phase := Marking(Copy(w.claims[i])));
    assert u.claims - {i} == w.claims - {i};
  }

  lemma StepOfRun(fold: Fold, w: World, run: seq<Event>, n: nat)
    requires 0 < n <= |run|
    ensures Exec(fold, w, run[..n]) == Next(fold, Exec(fold, w, run[..n - 1]), run[n - 1])
  {
    assert run[..n][..n - 1] == run[..n - 1];
  }

  lemma {:induction false} OnTheWay(fold: Fold, w: World, run: seq<Event>, i: Key, n: nat, referenced: bool)
    requires HarborOk(fold, w.harbor) && i in w.claims && ClaimOk(fold, w.harbor.groups, w.claims[i])
    requires w.claims[i].phase.Idle? && (w.claims[i].deleting ==> w.claims[i].finalizer)
    requires GoodRun(fold, w, run, i, referenced) && 0 < n <= |run|
    ensures EndedBy(fold, w, run, i, n, referenced) || Running(fold, w, i, Exec(fold, w, run[..n]), referenced, 7 - n)
  {
    var v := Exec(fold, w, run[..n - 1]);
    StepOfRun(fold, w, run, n);
    if n == 1 {
      WorldBegins(fold, w, i, run[0].answer, referenced);
    } else {
      OnTheWay(fold, w, run, i, n - 1, referenced);
      if !EndedBy(fold, w, run, i, n - 1, referenced) {
        WorldStep(fold, w, i, v, run[n - 1].answer, referenced, 8 - n);
      }
    }
  }

  /**
   From every reachable state of any number of claims, while no outsider deletes groups: a reconcile of one claim whose
   calls succeed, with nobody in between, is over after seven of them, and ends well.
   */
  lemma ReconcileConverges(fold: Fold, w: World, past: seq<Event>, run: seq<Event>, i: Key, referenced: bool)
    requires Init(fold, w) && Lasting(past) && i in Exec(fold, w, past).claims
    requires var v := Exec(fold, w, past);
             v.claims[i].phase.Idle? && GoodRun(fold, v, run, i, referenced) && |run| == 7
    ensures EndedBy(fold, Exec(fold, w, past), run, i, 7, referenced)
  {
    var v := Exec(fold, w, past);
    assert HarborOk(fold, v.harbor) && ClaimOk(fold, v.harbor.groups, v.claims[i]) by { RunKeepsInv(fold, w, past); }
    DeletingIsHeld(fold, w, past, i);
    OnTheWay(fold, v, run, i, 7, referenced);
  }
}
