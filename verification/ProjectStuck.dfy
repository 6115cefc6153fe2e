/** The state in which a 404 no longer clears the recorded id, and a run that reaches it. */
module ProjectStuck {
  import opened Values
  import opened Connections
  import opened Conditions
  import opened ProjectMachine

  const GONE := "Project not found in Harbor"

  /** An undisturbed answer to any operator step. */
  function Fine(found: Option<nat>): Answer {
    Answer(Applied, Delivered, Connected, found, 0, true, false, "")
  }

  const GO := Operator(Fine(None))

  /** Idle, bound and held, with an id on record that Harbor no longer knows and the marks of an earlier 404. */
  ghost predicate Stuck(c: Config, s: Sys) {
    && s.frame.Idle? && s.world.obj.Some?
    && var o := s.world.obj.value;
       && !o.deleting && o.finalizer && o.status.id != 0
       && o.status.base == MarkReconciling(o.status.base, o.generation, NotFound, GONE)
       && match Resolve(s.world.options.forced, s.world.conns, c.namespace, o.spec.ref)
          case Found(b, url) => o.status.base.binding == Some(b) && (TrimSlashes(url), o.status.id) !in s.world.projects
          case _ => false
  }

  /** `n` undisturbed operator steps. */
  function Go(c: Config, s: Sys, n: nat): Sys {
    if n == 0 then s else Step(c, Go(c, s, n - 1), GO)
  }

  lemma StuckDials(c: Config, s: Sys, home: string)
    requires Stuck(c, s)
    requires home == TrimSlashes(Resolve(s.world.options.forced, s.world.conns, c.namespace,
        s.world.obj.value.spec.ref).url)
    ensures Go(c, s, 3) == Sys(s.world, Dialing(s.world.obj.value, home))
  {
    var o := s.world.obj.value;
    assert Go(c, s, 1) == Sys(s.world, Marking(o));
    assert Go(c, s, 2) == Sys(s.world, Resolving(o));
  }

  lemma DialedForgets(c: Config, w: World, o: Object, home: string, n: nat, s: Sys)
    requires Go(c, s, n) == Sys(w, Dialing(o, home))
    requires !o.deleting && o.finalizer && o.status.id != 0 && (home, o.status.id) !in w.projects
    requires o.status.base == MarkReconciling(o.status.base, o.generation, NotFound, GONE)
    ensures Go(c, s, n + 4) == Sys(w.(log := w.log + [GetRequest(home, o.status.id)]), Idle)
  {
    assert Go(c, s, n + 1) == Sys(w, Adopting(o, home));
    assert Go(c, s, n + 2) == Sys(w, Deciding(o, home));
    assert Go(c, s, n + 3)
        == Sys(w.(log := w.log + [GetRequest(home, o.status.id)]), Forgetting(o.(status := o.status.(id := 0))));
  }

  /**
   A whole undisturbed reconcile from a stuck state, seven steps from load to the requeue, only
   reads: the stored object, id included, is the same after it.
   */
  lemma StuckStaysStuck(c: Config, s: Sys)
    requires Stuck(c, s)
    ensures exists url ::
              Go(c, s, 7) == Sys(s.world.(log := s.world.log + [GetRequest(url, s.world.obj.value.status.id)]), Idle)
    ensures Stuck(c, Go(c, s, 7))
  {
    var o := s.world.obj.value;
    var home := TrimSlashes(Resolve(s.world.options.forced, s.world.conns, c.namespace, o.spec.ref).url);
    StuckDials(c, s, home);
    DialedForgets(c, s.world, o, home, 3, s);
  }

  // ---------- reaching it ----------

  ghost predicate Reaches(c: Config, s: Sys, t: Sys) {
    exists run :: Exec(c, s, run) == t
  }

  lemma Extend(c: Config, s: Sys, t: Sys, e: Event)
    requires Reaches(c, s, t)
    ensures Reaches(c, s, Step(c, t, e))
  {
    var run :| Exec(c, s, run) == t;
    assert (run + [e])[..|run|] == run;
    assert Exec(c, s, run + [e]) == Step(c, t, e);
  }

  const SPEC := Spec(Some(Ref("harbor", Cluster)), Delete, Some(CreateOrAdopt), 0)
  const BOUND := Some(Connections.Binding(Cluster, "harbor", "", 7))
  const URL := "https://h"

  function Store(o: Object, projects: map<(string, nat), string>, used: set<(string, nat)>, log: seq<Request>): World {
    World(Some(o), map[ClusterKey("harbor") := Connection(7, URL)], map[7 := URL], projects, used, Options("", None),
        log)
  }

  const FRESH := Base(0, NO_MARKS, None)
  const MARKED := MarkReconciling(FRESH, 1, Unspecified, "")
  const LOST := MarkReconciling(MARKED.(binding := BOUND), 1, NotFound, GONE)

  const FIRST := Object(0, 1, false, false, SPEC, Status(FRESH, 0))

  lemma FirstBinding(c: Config, s: Sys, P: map<(string, nat), string>, U: set<(string, nat)>)
    requires s == Sys(Store(FIRST, P, U, []), Idle)
    ensures var o := FIRST.(rv := 1, status := Status(MARKED, 0));
            Reaches(c, s, Sys(Store(o, P, U, []),
                Frame.Binding(o.(status := Status(MARKED.(binding := BOUND), 0)), URL)))
  {
    assert Exec(c, s, []) == s;
    Extend(c, s, s, GO);
    var s1 := Sys(Store(FIRST, P, U, []), Marking(FIRST));
    assert Step(c, s, GO) == s1;
    Extend(c, s, s1, GO);
    var o := FIRST.(rv := 1, status := Status(MARKED, 0));
    var s2 := Sys(Store(o, P, U, []), Resolving(o));
    assert Step(c, s1, GO) == s2;
    Extend(c, s, s2, GO);
    assert TrimSlashes(URL) == URL;
  }

  lemma FirstAdopting(c: Config, s: Sys, P: map<(string, nat), string>, U: set<(string, nat)>)
    requires s == Sys(Store(FIRST, P, U, []), Idle)
    ensures var o := FIRST.(rv := 3, finalizer := true, status := Status(MARKED.(binding := BOUND), 0));
            Reaches(c, s, Sys(Store(o, P, U, []), Adopting(o, URL)))
  {
    FirstBinding(c, s, P, U);
    var o1 := FIRST.(rv := 1, status := Status(MARKED, 0));
    var m := o1.(status := Status(MARKED.(binding := BOUND), 0));
    var s3 := Sys(Store(o1, P, U, []), Frame.Binding(m, URL));
    Extend(c, s, s3, GO);
    var o2 := m.(rv := 2);
    var s4 := Sys(Store(o2, P, U, []), Dialing(o2, URL));
    assert Step(c, s3, GO) == s4;
    Extend(c, s, s4, GO);
    var s5 := Sys(Store(o2, P, U, []), Holding(o2, URL));
    assert Step(c, s4, GO) == s5;
    Extend(c, s, s5, GO);
  }

  /** Adopts project `n`, which an outsider deletes before it is read back. */
  lemma AdoptsThenLoses(c: Config, s: Sys, o: Object, n: nat, U: set<(string, nat)>, log: seq<Request>)
    requires o.finalizer && !o.deleting && o.spec == SPEC && o.status.id == 0 && n > 0
    requires Reaches(c, s, Sys(Store(o, map[(URL, n) := c.name], U, log), Adopting(o, URL)))
    ensures var o' := o.(rv := o.rv + 1, status := o.status.(id := n));
            Reaches(c, s, Sys(Store(o', map[], U, log + [FindRequest(URL)] + [GetRequest(URL, n)]),
                              Forgetting(o'.(status := o.status))))
  {
    var log1 := log + [FindRequest(URL)];
    var o' := o.(rv := o.rv + 1, status := o.status.(id := n));
    Adopts(c, s, o, n, U, log);
    var s2 := Sys(Store(o', map[(URL, n) := c.name], U, log1), Deciding(o', URL));
    Extend(c, s, s2, OutsiderDeletes(URL, n));
    assert map[(URL, n) := c.name] - {(URL, n)} == map[];
    var s3 := Sys(Store(o', map[], U, log1), Deciding(o', URL));
    assert Step(c, s2, OutsiderDeletes(URL, n)) == s3;
    Extend(c, s, s3, GO);
    assert Step(c, s3, GO) == GetStep(s3.world, o', URL, Fine(None));
  }

  /** Finds project `n` and records it. */
  lemma Adopts(c: Config, s: Sys, o: Object, n: nat, U: set<(string, nat)>, log: seq<Request>)
    requires o.finalizer && !o.deleting && o.spec == SPEC && o.status.id == 0 && n > 0
    requires Reaches(c, s, Sys(Store(o, map[(URL, n) := c.name], U, log), Adopting(o, URL)))
    ensures var o' := o.(rv := o.rv + 1, status := o.status.(id := n));
            Reaches(c, s, Sys(Store(o', map[(URL, n) := c.name], U, log + [FindRequest(URL)]), Deciding(o', URL)))
  {
    var P := map[(URL, n) := c.name];
    var s0 := Sys(Store(o, P, U, log), Adopting(o, URL));
    var a := Fine(Some(n));
    Extend(c, s, s0, Operator(a));
    var m := o.(status := o.status.(id := n));
    var log1 := log + [FindRequest(URL)];
    var s1 := Sys(Store(o, P, U, log1), RecordingAdoption(m, URL));
    assert Step(c, s0, Operator(a)) == AdoptStep(c, s0.world, o, URL, a) == s1;
    Extend(c, s, s1, GO);
    assert Step(c, s1, GO) == RecordAdoptionStep(s1.world, m, URL, Fine(None));
  }

  /** The next reconcile of a bound, held object whose generation is already observed reaches its search again. */
  lemma ReloadsToAdopting(c: Config, s: Sys, o: Object, P: map<(string, nat), string>, U: set<(string, nat)>,
                          log: seq<Request>)
    requires o.finalizer && !o.deleting && o.spec == SPEC
    requires o.status.base.binding == BOUND && o.status.base.observedGeneration == o.generation
    requires Reaches(c, s, Sys(Store(o, P, U, log), Idle))
    ensures Reaches(c, s, Sys(Store(o, P, U, log), Adopting(o, URL)))
  {
    var w := Store(o, P, U, log);
    Extend(c, s, Sys(w, Idle), GO);
    assert Step(c, Sys(w, Idle), GO) == Sys(w, Marking(o));
    Extend(c, s, Sys(w, Marking(o)), GO);
    assert Step(c, Sys(w, Marking(o)), GO) == Sys(w, Resolving(o));
    Extend(c, s, Sys(w, Resolving(o)), GO);
    assert TrimSlashes(URL) == URL;
    assert Step(c, Sys(w, Resolving(o)), GO) == Sys(w, Dialing(o, URL));
    Extend(c, s, Sys(w, Dialing(o, URL)), GO);
    assert Step(c, Sys(w, Dialing(o, URL)), GO) == Sys(w, Adopting(o, URL));
  }

  /** The first 404 is stored: the id is cleared and the marks say NotFound. */
  lemma FirstLoss(c: Config, s: Sys, P: map<(string, nat), string>, U: set<(string, nat)>)
    requires s == Sys(Store(FIRST, P, U, []), Idle) && P == map[(URL, 5) := c.name]
    ensures var o := FIRST.(rv := 5, finalizer := true, status := Status(LOST, 0));
            Reaches(c, s, Sys(Store(o, map[], U, [FindRequest(URL), GetRequest(URL, 5)]), Idle))
  {
    FirstAdopting(c, s, P, U);
    var o := FIRST.(rv := 3, finalizer := true, status := Status(MARKED.(binding := BOUND), 0));
    AdoptsThenLoses(c, s, o, 5, U, []);
    var o' := o.(rv := 4, status := o.status.(id := 5));
    assert [] + [FindRequest(URL)] + [GetRequest(URL, 5)] == [FindRequest(URL), GetRequest(URL, 5)];
    var t := Sys(Store(o', map[], U, [FindRequest(URL), GetRequest(URL, 5)]), Forgetting(o'.(status := o.status)));
    Extend(c, s, t, GO);
    assert Step(c, t, GO) == ForgetStep(t.world, o'.(status := o.status), Fine(None));
  }

  /**
   The stuck state is reachable under CreateOrAdopt without a single failed call: the project is
   deleted, an outsider recreates it, it is adopted, and is deleted again before it is read.
   */
  lemma StuckIsReachable(c: Config) returns (s: Sys, t: Sys)
    ensures Init(s) && Reaches(c, s, t) && Stuck(c, t) && t.world.obj.value.status.id == 6
  {
    var P, U := map[(URL, 5) := c.name], {(URL, 5)};
    s := Sys(Store(FIRST, P, U, []), Idle);
    assert TrimSlashes(URL) == URL;
    var log := [FindRequest(URL), GetRequest(URL, 5)];
    var o := FIRST.(rv := 5, finalizer := true, status := Status(LOST, 0));
    var P2, U2 := map[(URL, 6) := c.name], U + {(URL, 6)};
    assert Reaches(c, s, Sys(Store(o, P2, U2, log), Idle)) by {
      FirstLoss(c, s, P, U);
      var s1 := Sys(Store(o, map[], U, log), Idle);
      Extend(c, s, s1, OutsiderCreates(URL, 6, c.name));
      assert Step(c, s1, OutsiderCreates(URL, 6, c.name)) == Sys(Store(o, P2, U2, log), Idle);
    }
    t := SecondLoss(c, s, o, U2, log);
  }

  /** The second 404 finds the marks already saying NotFound, so its write is skipped. */
  lemma SecondLoss(c: Config, s: Sys, o: Object, U: set<(string, nat)>, log: seq<Request>) returns (t: Sys)
    requires o == FIRST.(rv := 5, finalizer := true, status := Status(LOST, 0))
    requires Reaches(c, s, Sys(Store(o, map[(URL, 6) := c.name], U, log), Idle))
    ensures Reaches(c, s, t) && Stuck(c, t) && t.world.obj.value.status.id == 6
  {
    var P := map[(URL, 6) := c.name];
    var o' := o.(rv := 6, status := o.status.(id := 6));
    var log' := log + [FindRequest(URL)] + [GetRequest(URL, 6)];
    var u := Sys(Store(o', map[], U, log'), Forgetting(o'.(status := o.status)));
    assert Reaches(c, s, u) by {
      ReloadsToAdopting(c, s, o, P, U, log);
      AdoptsThenLoses(c, s, o, 6, U, log);
    }
    Extend(c, s, u, GO);
    t := Sys(Store(o', map[], U, log'), Idle);
    assert Step(c, u, GO) == ForgetStep(u.world, o'.(status := o.status), Fine(None)) == t;
    assert TrimSlashes(URL) == URL;
  }
}
