/** What becomes of a claim whose group is deleted and created again outside: runs with deletions. */
module GroupReplaced {
  import opened Values
  import opened Conditions
  import opened GroupClaims
  import Connections
  import Members

  // ---------- when a found id is stored, over every run ----------

  /** The in-memory status is the stored one until the reconcile fails, whatever happens to Harbor's groups. */
  ghost predicate Faithful(w: World) {
    forall i :: i in w.claims && !w.claims[i].phase.Idle? && !w.claims[i].phase.Failing? ==>
      w.claims[i].phase.mem.status == w.claims[i].stored
  }

  lemma StepKeepsFaithful(fold: Fold, w: World, e: Event)
    requires Faithful(w)
    ensures Faithful(Next(fold, w, e))
  {
    if e.Step? && e.claim in w.claims { ClaimStaysFaithful(fold, w.harbor, e.claim, w.claims[e.claim], e.answer); }
  }

  lemma ClaimStaysFaithful(fold: Fold, h: Harbor, i: Key, c: Claim, a: Answer)
    requires !c.phase.Idle? && !c.phase.Failing? ==> c.phase.mem.status == c.stored
    ensures var d := ClaimStep(fold, h, i, c, a).1;
            !d.phase.Idle? && !d.phase.Failing? ==> d.phase.mem.status == d.stored
  {
  }

  lemma {:induction false} RunKeepsFaithful(fold: Fold, w: World, run: seq<Event>)
    requires Init(fold, w)
    ensures Faithful(Exec(fold, w, run))
  {
    if run != [] {
      RunKeepsFaithful(fold, w, run[..|run| - 1]);
      StepKeepsFaithful(fold, Exec(fold, w, run[..|run| - 1]), run[|run| - 1]);
    }
  }

  /**
   In every run, groups coming and going: the id just found is stored if and only if it is stored already or the claim
   does not look ready.
   */
  lemma FoundIdIsStoredExactlyWhenBaseChanges(fold: Fold, w: World, run: seq<Event>, i: Key, a: Answer)
    requires Init(fold, w) && !a.write.Rejected?
    requires var s := Exec(fold, w, run).claims; i in s && s[i].phase.Recording?
    ensures var v := Exec(fold, w, run);
            var c := v.claims[i];
            ClaimStep(fold, v.harbor, i, c, a).1.stored.id == c.phase.id <==>
              || c.stored.id == c.phase.id
              || MarkReady(c.stored.base, c.phase.mem.generation, Reconciled, TEXT) != c.stored.base
  {
    RunKeepsFaithful(fold, w, run);
  }

  // ---------- a stale id stays ----------

  /** An undisturbed answer in which Harbor lists these groups. */
  function Go(i: Key, listing: seq<Group>): Event {
    Step(i, Answer(Applied, Some(listing), Acknowledged, 1, Some([]), Some(BOUND), ""))
  }

  const BOUND := Connections.Binding(Connections.Cluster, "harbor", "", 7)

  /**
   Between two reconciles, held, bound and ready, with another id on record than the group Harbor holds under the name.
   */
  ghost predicate Stale(fold: Fold, w: World, i: Key, listing: seq<Group>) {
    && i in w.claims && Shows(listing, w.harbor.groups)
    && var c := w.claims[i];
       && c.phase.Idle? && !c.deleting && c.finalizer && c.stored.base.binding.Some?
       && c.stored.base == MarkReady(c.stored.base, c.generation, Reconciled, TEXT)
       && FindGroup(fold, listing, c.want).Found? && FindGroup(fold, listing, c.want).id !in {0, c.stored.id}
  }

  function Steps(fold: Fold, w: World, e: Event, n: nat): World {
    if n == 0 then w else Next(fold, Steps(fold, w, e, n - 1), e)
  }

  /** The world with claim i in another phase. */
  function At(w: World, i: Key, p: Phase): World
    requires i in w.claims
  {
    w.(claims := w.claims[i := w.claims[i].(phase := p)])
  }

  /** A whole undisturbed reconcile of a stale claim, six steps from load to the skipped write, changes nothing. */
  lemma StaleStaysStale(fold: Fold, w: World, i: Key, listing: seq<Group>)
    requires Stale(fold, w, i, listing)
    ensures Steps(fold, w, Go(i, listing), 6) == w
  {
    var e, c := Go(i, listing), w.claims[i];
    var m := Memory(c.generation, c.deleting, c.finalizer, c.stored);
    assert Steps(fold, w, e, 1) == At(w, i, Marking(m));
    assert Steps(fold, w, e, 2) == At(w, i, Holding(m));
    assert Steps(fold, w, e, 3) == At(w, i, Phase.Binding(m));
    assert Steps(fold, w, e, 4) == At(w, i, Listing(m));
    assert Steps(fold, w, e, 5) == At(w, i, Recording(m, FindGroup(fold, listing, c.want).id));
    assert Steps(fold, w, e, 6) == At(w, i, Idle) == w;
  }

  // ---------- reaching it ----------

  ghost predicate Reaches(fold: Fold, s: World, t: World) { exists run :: Exec(fold, s, run) == t }

  lemma Extend(fold: Fold, s: World, t: World, e: Event)
    requires Reaches(fold, s, t)
    ensures Reaches(fold, s, Next(fold, t, e))
  {
    var run :| Exec(fold, s, run) == t;
    assert (run + [e])[..|run|] == run;
    assert Exec(fold, s, run + [e]) == Next(fold, t, e);
  }

  const DEVS := Members.Key("team", "devs")
  const WANT := Want("g", 3, "")
  const FRESH := Base(0, NO_MARKS, None)
  const MARKED := MarkReconciling(FRESH, 1, Unspecified, "")
  const TIED := MARKED.(binding := Some(BOUND))
  const READY := MarkReady(TIED, 1, Reconciled, TEXT)

  function One(groups: set<Group>, created: seq<Group>, c: Claim): World {
    World(Harbor(groups, created), map[DEVS := c])
  }

  const EMPTY := World(Harbor({}, []), map[])

  /** One step of that claim. */
  lemma Walk(fold: Fold, h: Harbor, c: Claim, a: Answer, k: Harbor, d: Claim)
    requires Reaches(fold, EMPTY, World(h, map[DEVS := c])) && ClaimStep(fold, h, DEVS, c, a) == (k, d)
    requires !d.deleting
    ensures Reaches(fold, EMPTY, World(k, map[DEVS := d]))
  {
    var t := World(h, map[DEVS := c]);
    Extend(fold, EMPTY, t, Step(DEVS, a));
    assert Next(fold, t, Step(DEVS, a)) == World(k, map[DEVS := d]);
  }

  lemma FirstSteps(fold: Fold)
    ensures var m := Memory(1, false, true, Status(TIED, 0));
            Reaches(fold, EMPTY, One({}, [], Claim(WANT, 1, false, true, Status(TIED, 0), Listing(m))))
  {
    var a, h := Go(DEVS, []).answer, Harbor({}, []);
    var c0 := Claim(WANT, 1, false, false, Status(FRESH, 0), Idle);
    assert Reaches(fold, EMPTY, World(h, map[DEVS := c0])) by {
      assert Exec(fold, EMPTY, []) == EMPTY;
      Extend(fold, EMPTY, EMPTY, Add(DEVS, WANT));
      assert Next(fold, EMPTY, Add(DEVS, WANT)) == World(h, map[DEVS := c0]);
    }
    var c1 := c0.(phase := Marking(Memory(1, false, false, Status(FRESH, 0))));
    Walk(fold, h, c0, a, h, c1);
    var c2 := c0.(stored := Status(MARKED, 0), phase := Holding(Memory(1, false, false, Status(MARKED, 0))));
    Walk(fold, h, c1, a, h, c2);
    var c3 := c2.(finalizer := true, phase := Phase.Binding(Memory(1, false, true, Status(MARKED, 0))));
    Walk(fold, h, c2, a, h, c3);
    var m := Memory(1, false, true, Status(TIED, 0));
    Walk(fold, h, c3, a, h, Claim(WANT, 1, false, true, Status(TIED, 0), Listing(m)));
  }

  /** The claim creates its group and records it. */
  lemma FirstRecord(fold: Fold)
    ensures Reaches(fold, EMPTY, One({Group(1, "g", 3, "")}, [Group(1, "g", 3, "")],
                                     Claim(WANT, 1, false, true, Status(READY, 1), Idle)))
  {
    FirstSteps(fold);
    var a, g := Go(DEVS, []).answer, Group(1, "g", 3, "");
    var h, k := Harbor({}, []), Harbor({g}, [g]);
    var m := Memory(1, false, true, Status(TIED, 0));
    var c := Claim(WANT, 1, false, true, Status(TIED, 0), Listing(m));
    Walk(fold, h, c, a, h, c.(phase := Creating(m)));
    assert {} + {g} == {g} && [] + [g] == [g];
    Walk(fold, h, c.(phase := Creating(m)), a, k, c.(phase := Recording(m, 1)));
    Walk(fold, k, c.(phase := Recording(m, 1)), a, k, c.(stored := Status(READY, 1), phase := Idle));
  }

  /**
   A stale claim is reached from nothing without a failed call: the group is created, deleted outside and created
   again.
   */
  lemma StaleIsReachable(fold: Fold) returns (w: World, t: World, listing: seq<Group>)
    ensures Init(fold, w) && Reaches(fold, w, t) && Stale(fold, t, DEVS, listing)
    ensures t.claims[DEVS].stored.id == 1 && !IdTaken(t.harbor.groups, 1)
    ensures Names(fold, t.harbor.groups, t.claims[DEVS].want, 2)
  {
    var g, h := Group(1, "g", 3, ""), Group(2, "g", 3, "");
    var c := Claim(WANT, 1, false, true, Status(READY, 1), Idle);
    FirstRecord(fold);
    Extend(fold, EMPTY, One({g}, [g], c), OutsiderDeletes(1));
    assert Next(fold, One({g}, [g], c), OutsiderDeletes(1)) == One({}, [g], c);
    Extend(fold, EMPTY, One({}, [g], c), OutsiderCreates(h));
    assert {} + {h} == {h};
    assert Next(fold, One({}, [g], c), OutsiderCreates(h)) == One({h}, [g], c);
    w, t, listing := EMPTY, One({h}, [g], c), [h];
    assert Compatible(fold, h, WANT);
    assert FindGroup(fold, [h], WANT) == Found(2);
  }
}
