/** What becomes of the Harbor projects that were created for an object when the object goes. */
module ProjectLeftovers {
  import opened Values
  import opened Conditions
  import opened ProjectMachine
  import opened ProjectInvariants
  import opened ProjectTheorems
  import opened ProjectStuck

  type Project = (string, nat)

  /** The event takes the project out of Harbor: an outsider's deletion, or a delete request that Harbor processes. */
  predicate Erases(s: Sys, e: Event, p: Project) {
    || (e.OutsiderDeletes? && (e.url, e.id) == p)
    || (e.Operator? && s.frame.Finalizing? && s.frame.mem.spec.deletion.Delete? && s.frame.mem.status.id != 0
        && (s.frame.url, s.frame.mem.status.id) == p && e.answer.http != Failed(false))
  }

  /** Event k of the run creates the project for the object; its answer may be lost. */
  predicate MadeAt(c: Config, s: Sys, run: seq<Event>, k: nat, p: Project) {
    && k < |run| && run[k].Operator?
    && p !in Exec(c, s, run[..k]).world.projects && p in Exec(c, s, run[..k + 1]).world.projects
  }

  ghost predicate ErasedAt(c: Config, s: Sys, run: seq<Event>, n: nat, p: Project) {
    n < |run| && Erases(Exec(c, s, run[..n]), run[n], p)
  }

  // ---------- exactly when it stays ----------

  lemma StepProjects(c: Config, s: Sys, e: Event, p: Project)
    requires p in s.world.used
    ensures p in Step(c, s, e).world.used
    ensures p in Step(c, s, e).world.projects <==> p in s.world.projects && !Erases(s, e, p)
  {
    if e.Operator? { OperatorProjects(c, s, e.answer, p); }
  }

  lemma OperatorProjects(c: Config, s: Sys, a: Answer, p: Project)
    requires p in s.world.used
    ensures p in OperatorStep(c, s, a).world.used
    ensures p in OperatorStep(c, s, a).world.projects <==> p in s.world.projects && !Erases(s, Operator(a), p)
  {
    var w := s.world;
    if s.frame.Deciding? { DecideProjects(c, w, s.frame.mem, s.frame.url, a, p); }
    else if s.frame.Finalizing? { assert OperatorStep(c, s, a) == FinalizeStep(w, s.frame.mem, s.frame.url, a); }
    else { OtherProjects(c, s, a); }
  }

  lemma DecideProjects(c: Config, w: World, mem: Object, url: string, a: Answer, p: Project)
    requires p in w.used
    ensures var v := DecideStep(c, w, mem, url, a).world; p in v.used && (p in v.projects <==> p in w.projects)
  {
  }

  lemma OtherProjects(c: Config, s: Sys, a: Answer)
    requires !s.frame.Deciding? && !s.frame.Finalizing?
    ensures var v := OperatorStep(c, s, a).world; v.projects == s.world.projects && v.used == s.world.used
  {
    if BeforeAdoption(s.frame) { EarlyProjects(c, s, a); } else { LateProjects(c, s, a); }
  }

  lemma EarlyProjects(c: Config, s: Sys, a: Answer)
    requires BeforeAdoption(s.frame) && !s.frame.Finalizing?
    ensures var v := OperatorStep(c, s, a).world; v.projects == s.world.projects && v.used == s.world.used
  {
    match s.frame
    case Marking(mem) => assert OperatorStep(c, s, a) == MarkStep(s.world, mem, a);
    case Resolving(mem) => assert OperatorStep(c, s, a) == ResolveStep(c, s.world, mem, a);
    case _ =>
  }

  lemma LateProjects(c: Config, s: Sys, a: Answer)
    requires !BeforeAdoption(s.frame) && !s.frame.Deciding?
    ensures var v := OperatorStep(c, s, a).world; v.projects == s.world.projects && v.used == s.world.used
  {
    match s.frame
    case Publishing(mem, reason, message) => assert OperatorStep(c, s, a)
        == PublishStep(s.world, mem, reason, message, a);
    case Forgetting(mem) => assert OperatorStep(c, s, a) == ForgetStep(s.world, mem, a);
    case Failing(mem) => assert OperatorStep(c, s, a) == FailStep(s.world, mem, a);
    case _ =>
  }

  lemma MadeIsUsed(c: Config, s: Sys, run: seq<Event>, p: Project)
    requires Init(s) && p in Exec(c, s, run).world.projects
    ensures p in Exec(c, s, run).world.used
  {
    RunKeepsInv(c, s, run);
  }

  /** Nothing has erased the project after event k. */
  ghost predicate NotErasedSince(c: Config, s: Sys, run: seq<Event>, k: nat, p: Project) {
    forall n: nat :: k < n < |run| ==> !ErasedAt(c, s, run, n, p)
  }

  /** One more event. */
  lemma ErasedGrows(c: Config, s: Sys, run: seq<Event>, m: nat, k: nat, p: Project)
    requires |run| == m + 1 && k < m
    ensures NotErasedSince(c, s, run, k, p) <==>
      NotErasedSince(c, s, run[..m], k, p) && !Erases(Exec(c, s, run[..m]), run[m], p)
  {
    var before := run[..m];
    forall n: nat | n < m ensures ErasedAt(c, s, run, n, p) == ErasedAt(c, s, before, n, p) {
      assert before[..n] == run[..n];
    }
    assert ErasedAt(c, s, run, m, p) == Erases(Exec(c, s, before), run[m], p);
  }

  /** A project created for the object is in Harbor if and only if nothing has erased it since. */
  lemma {:induction false} StaysExactlyWhenNotErased(c: Config, s: Sys, run: seq<Event>, k: nat, p: Project)
    requires Init(s) && MadeAt(c, s, run, k, p)
    ensures p in Exec(c, s, run).world.used
    ensures p in Exec(c, s, run).world.projects <==> NotErasedSince(c, s, run, k, p)
    decreases |run|
  {
    assert run[..|run|] == run;
    if k + 1 == |run| {
      MadeIsUsed(c, s, run, p);
    } else {
      var m := |run| - 1;
      var before := run[..m];
      assert MadeAt(c, s, before, k, p) by { assert before[..k] == run[..k] && before[..k + 1] == run[..k + 1]; }
      StaysExactlyWhenNotErased(c, s, before, k, p);
      ErasedGrows(c, s, run, m, k, p);
      var here, after := Exec(c, s, before), Exec(c, s, run);
      assert p in after.world.used
          && (p in after.world.projects <==> p in here.world.projects && !Erases(here, run[m], p)) by {
        StepProjects(c, here, run[m], p);
      }
    }
  }

  /** The operator's own delete request goes only for the id that is stored at that moment, under the bound URL. */
  lemma ErasesOnlyRecorded(c: Config, s: Sys, run: seq<Event>, a: Answer, p: Project)
    requires Init(s) && Erases(Exec(c, s, run), Operator(a), p)
    ensures var w := Exec(c, s, run).world;
            w.obj.Some? && w.obj.value.status.id == p.1 && HomeIs(w, w.obj.value.status, p.0)
  {
    RunKeepsInv(c, s, run);
  }

  /** The step in which the object disappears is not a deletion in Harbor. */
  lemma GoingErasesNothing(c: Config, s: Sys, run: seq<Event>, e: Event, p: Project)
    requires Init(s) && Exec(c, s, run).world.obj.Some? && Step(c, Exec(c, s, run), e).world.obj.None?
    ensures !Erases(Exec(c, s, run), e, p)
  {
  }

  // ---------- the id on record when the object goes ----------

  /** The frames a reconcile of a deleted object goes through. */
  predicate OnTheWayOut(f: Frame) { (BeforeAdoption(f) && !f.Holding?) || f.Failing? }

  /** A reconcile that saw the deletion stays on the way out, and carries the id on record. */
  ghost predicate CarriesId(w: World, f: Frame) {
    !f.Idle? && f.mem.deleting ==>
      OnTheWayOut(f) && (w.obj.Some? ==> w.obj.value.deleting && w.obj.value.status.id == f.mem.status.id)
  }

  /** A deleted object keeps its deletion mark and its recorded id for as long as it is stored. */
  predicate SameIdOnceDeleted(w: World, v: World) {
    w.obj.Some? && w.obj.value.deleting && v.obj.Some? ==>
      v.obj.value.deleting && v.obj.value.status.id == w.obj.value.status.id
  }

  lemma WriteStatusCarries(w: World, mem: Object, m: Object, fate: Write)
    requires Shadows(w, mem) && m.rv == mem.rv && m.status.id == mem.status.id
    requires mem.deleting ==> CarriesId(w, Failing(mem))
    ensures var v := WriteStatus(w, m, fate);
            && SameIdOnceDeleted(w, v)
            && (mem.deleting ==> CarriesId(v, Failing(mem)))
  {
  }

  lemma EarlyCarries(c: Config, w: World, f: Frame, a: Answer)
    requires FrameOk(w, f) && CarriesId(w, f) && BeforeAdoption(f)
    ensures var t := OperatorStep(c, Sys(w, f), a); SameIdOnceDeleted(w, t.world) && CarriesId(t.world, t.frame)
  {
    match f
    case Marking(mem) => MarkCarries(w, mem, a);
    case Binding(mem, url) => WriteStatusCarries(w, mem, mem, a.write);
    case Resolving(mem) => assert OperatorStep(c, Sys(w, f), a) == ResolveStep(c, w, mem, a);
    case Releasing(mem) => assert OperatorStep(c, Sys(w, f), a) == ReleaseStep(w, mem, a);
    case _ =>
  }

  lemma MarkCarries(w: World, mem: Object, a: Answer)
    requires FrameOk(w, Marking(mem)) && CarriesId(w, Marking(mem))
    ensures var t := MarkStep(w, mem, a); SameIdOnceDeleted(w, t.world) && CarriesId(t.world, t.frame)
  {
    var base := MarkReconciling(mem.status.base, mem.generation, Unspecified, "");
    WriteStatusCarries(w, mem, mem.(status := mem.status.(base := base)), a.write);
  }

  lemma LateCarries(c: Config, w: World, f: Frame, a: Answer)
    requires FrameOk(w, f) && CarriesId(w, f) && !f.Idle? && !BeforeAdoption(f)
    ensures var t := OperatorStep(c, Sys(w, f), a); SameIdOnceDeleted(w, t.world) && CarriesId(t.world, t.frame)
  {
    if f.Failing? {
      var base := MarkError(f.mem.status.base, f.mem.generation, a.message);
      WriteStatusCarries(w, f.mem, f.mem.(status := f.mem.status.(base := base)), a.write);
    }
  }

  lemma EnvironmentCarries(c: Config, s: Sys, e: Event)
    requires CarriesId(s.world, s.frame) && !e.Operator?
    ensures var t := Step(c, s, e); SameIdOnceDeleted(s.world, t.world) && CarriesId(t.world, t.frame)
  {
  }

  lemma StepCarries(c: Config, s: Sys, e: Event)
    requires Inv(s) && CarriesId(s.world, s.frame)
    ensures var t := Step(c, s, e); SameIdOnceDeleted(s.world, t.world) && CarriesId(t.world, t.frame)
    ensures s.world.obj.None? ==> Step(c, s, e).world.obj.None?
  {
    if !e.Operator? { EnvironmentCarries(c, s, e); }
    else if BeforeAdoption(s.frame) { EarlyCarries(c, s.world, s.frame, e.answer); }
    else if !s.frame.Idle? { LateCarries(c, s.world, s.frame, e.answer); }
    if s.world.obj.None? { StepKeepsInv(c, s, e); }
  }

  lemma {:induction false} RunCarries(c: Config, s: Sys, run: seq<Event>)
    requires Init(s)
    ensures CarriesId(Exec(c, s, run).world, Exec(c, s, run).frame)
  {
    if run != [] {
      RunCarries(c, s, run[..|run| - 1]);
      RunKeepsInv(c, s, run[..|run| - 1]);
      StepCarries(c, Exec(c, s, run[..|run| - 1]), run[|run| - 1]);
    }
  }

  /** From its deletion on, the recorded id of an object does not change. */
  lemma {:induction false} IdStays(c: Config, s: Sys, run: seq<Event>, n: nat)
    requires Init(s) && n <= |run| && Exec(c, s, run).world.obj.Some?
    ensures Exec(c, s, run[..n]).world.obj.Some? && SameIdOnceDeleted(Exec(c, s, run[..n]).world, Exec(c, s, run).world)
    decreases |run|
  {
    if n == |run| {
      assert run[..n] == run;
    } else {
      var before := run[..|run| - 1];
      assert before[..n] == run[..n];
      RunKeepsInv(c, s, before);
      RunCarries(c, s, before);
      StepCarries(c, Exec(c, s, before), run[|run| - 1]);
      IdStays(c, s, before, n);
    }
  }

  /** The project was created under the URL of every request. */
  lemma MadeAtHome(c: Config, s: Sys, run: seq<Event>, k: nat, p: Project)
    requires Init(s) && MadeAt(c, s, run, k, p)
    ensures var w := Exec(c, s, run[..k + 1]).world; w.log != [] && w.log[0].url == p.0
  {
    var here, next := run[..k], run[..k + 1];
    assert next[..|next| - 1] == here;
    LastStep(c, s, next);
    var w, v := Exec(c, s, here).world, Exec(c, s, next).world;
    var r :| v.log == w.log + [r] && SendEffect(c, Exec(c, s, here), Exec(c, s, next), r);
    assert v.log[|w.log|] == r && r.url == p.0;
    RunKeepsInv(c, s, next);
  }

  lemma {:induction false} FirstRequestStays(c: Config, s: Sys, run: seq<Event>, n: nat)
    requires Init(s) && n <= |run| && Exec(c, s, run[..n]).world.log != []
    ensures Exec(c, s, run).world.log != [] && Exec(c, s, run).world.log[0] == Exec(c, s, run[..n]).world.log[0]
    decreases |run|
  {
    if n == |run| {
      assert run[..n] == run;
    } else {
      var before := run[..|run| - 1];
      assert before[..n] == run[..n];
      FirstRequestStays(c, s, before, n);
      LastStep(c, s, run);
    }
  }

  /** An erasing delete request of the operator leaves its id on record until the object goes. */
  lemma ErasedStaysRecorded(c: Config, s: Sys, run: seq<Event>, n: nat, p: Project)
    requires Init(s) && ErasedAt(c, s, run, n, p) && run[n].Operator? && Exec(c, s, run).world.obj.Some?
    ensures Exec(c, s, run).world.obj.value.status.id == p.1
  {
    var here := run[..n];
    ErasesOnlyRecorded(c, s, here, run[n].answer, p);
    assert Exec(c, s, here).frame.mem.deleting by { RunKeepsInv(c, s, here); }
    RunCarries(c, s, here);
    IdStays(c, s, run, n);
  }

  /**
   When an object disappears under Delete, a project created for it, and not deleted by an outsider, is left behind if
   and only if its id is not the one on record.
   */
  lemma LeftBehindExactlyWhenUnrecorded(c: Config, s: Sys, run: seq<Event>, e: Event, k: nat, p: Project)
    requires Init(s) && MadeAt(c, s, run, k, p)
    requires forall n :: 0 <= n < |run| ==> run[n] != OutsiderDeletes(p.0, p.1)
    requires Exec(c, s, run).world.obj.Some? && Step(c, Exec(c, s, run), e).world.obj.None?
    requires Exec(c, s, run).world.obj.value.spec.deletion.Delete?
    ensures p in Step(c, Exec(c, s, run), e).world.projects <==> Exec(c, s, run).world.obj.value.status.id != p.1
  {
    var w := Exec(c, s, run).world;
    StaysExactlyWhenNotErased(c, s, run, k, p);
    GoingErasesNothing(c, s, run, e, p);
    StepProjects(c, Exec(c, s, run), e, p);
    if w.obj.value.status.id == p.1 {
      RecordedIsGone(c, s, run, e, k, p);
    } else {
      forall n | k < n < |run| ensures !ErasedAt(c, s, run, n, p) {
        if ErasedAt(c, s, run, n, p) { ErasedStaysRecorded(c, s, run, n, p); }
      }
    }
  }

  lemma RecordedIsGone(c: Config, s: Sys, run: seq<Event>, e: Event, k: nat, p: Project)
    requires Init(s) && MadeAt(c, s, run, k, p)
    requires Exec(c, s, run).world.obj.Some? && Step(c, Exec(c, s, run), e).world.obj.None?
    requires var o := Exec(c, s, run).world.obj.value; o.spec.deletion.Delete? && o.status.id == p.1
    ensures p !in Exec(c, s, run).world.projects
  {
    var w := Exec(c, s, run).world;
    MadeAtHome(c, s, run, k, p);
    FirstRequestStays(c, s, run, k + 1);
    OneBaseURL(c, s, run);
    MadeIsPositive(c, s, run[..k + 1], p);
    DisappearsOnlyAfterDelete(c, s, run, e);
  }

  lemma MadeIsPositive(c: Config, s: Sys, run: seq<Event>, p: Project)
    requires Init(s) && p in Exec(c, s, run).world.projects
    ensures p.1 > 0
  {
    RunKeepsInv(c, s, run);
  }

  // ---------- it happens ----------

  /** The create is processed, but its answer is lost. */
  const LOST_CREATE := Operator(Answer(Applied, Failed(true), Connected, None, 5, true, false, ""))

  const HELD := FIRST.(rv := 3, finalizer := true, status := Status(MARKED.(binding := BOUND), 0))
  const FAILED := MarkError(MARKED.(binding := BOUND), 1, "")
  const LOG := [FindRequest(URL), CreateRequest(URL, None)]

  lemma SearchesInVain(c: Config, s: Sys)
    requires s == Sys(Store(FIRST, map[], {}, []), Idle)
    ensures Reaches(c, s, Sys(Store(HELD, map[], {}, [FindRequest(URL)]), Deciding(HELD, URL)))
  {
    FirstAdopting(c, s, map[], {});
    var s1 := Sys(Store(HELD, map[], {}, []), Adopting(HELD, URL));
    Extend(c, s, s1, GO);
    assert [] + [FindRequest(URL)] == [FindRequest(URL)];
    assert Step(c, s1, GO) == AdoptStep(c, s1.world, HELD, URL, Fine(None));
  }

  lemma CreatesUnseen(c: Config, s: Sys)
    requires s == Sys(Store(FIRST, map[], {}, []), Idle)
    ensures Reaches(c, s,
        Sys(Store(HELD.(rv := 4, status := Status(FAILED, 0)), map[(URL, 5) := c.name], {(URL, 5)}, LOG), Idle))
  {
    SearchesInVain(c, s);
    var s2 := Sys(Store(HELD, map[], {}, [FindRequest(URL)]), Deciding(HELD, URL));
    var s3 := Sys(Store(HELD, map[(URL, 5) := c.name], {(URL, 5)}, LOG), Failing(HELD));
    assert Reaches(c, s, s3) by {
      Extend(c, s, s2, LOST_CREATE);
      assert [FindRequest(URL)] + [CreateRequest(URL, None)] == LOG && {} + {(URL, 5)} == {(URL, 5)};
      assert Step(c, s2, LOST_CREATE) == CreateStep(c, s2.world, HELD, URL, LOST_CREATE.answer) == s3;
    }
    Fails(c, s, map[(URL, 5) := c.name], {(URL, 5)}, LOG);
  }

  /** The failure is written to the status. */
  lemma Fails(c: Config, s: Sys, P: map<Project, string>, U: set<Project>, log: seq<Request>)
    requires Reaches(c, s, Sys(Store(HELD, P, U, log), Failing(HELD)))
    ensures Reaches(c, s, Sys(Store(HELD.(rv := 4, status := Status(FAILED, 0)), P, U, log), Idle))
  {
    var t := Sys(Store(HELD, P, U, log), Failing(HELD));
    Extend(c, s, t, GO);
    assert Step(c, t, GO) == FailStep(t.world, HELD, Fine(None));
  }

  /** A deleted object without a recorded id is released without a request. */
  lemma ReleasesUnrecorded(c: Config, s: Sys, o: Object, P: map<Project, string>, U: set<Project>, log: seq<Request>)
    requires Reaches(c, s, Sys(Store(o, P, U, log), Idle))
    requires o.finalizer && o.deleting && o.spec == SPEC && o.status.id == 0 && o.status.base.binding == BOUND
    requires o.status.base.observedGeneration != o.generation
    ensures Reaches(c, s, Sys(Store(o, P, U, log).(obj := None), Idle))
  {
    var w := Store(o, P, U, log);
    Extend(c, s, Sys(w, Idle), GO);
    assert Step(c, Sys(w, Idle), GO) == Sys(w, Marking(o));
    Extend(c, s, Sys(w, Marking(o)), GO);
    var m := o.(rv := o.rv + 1,
        status := o.status.(base := MarkReconciling(o.status.base, o.generation, Unspecified, "")));
    var v := Store(m, P, U, log);
    assert Step(c, Sys(w, Marking(o)), GO) == MarkStep(w, o, Fine(None)) == Sys(v, Resolving(m));
    LeavesUnrecorded(c, s, m, P, U, log);
  }

  lemma LeavesUnrecorded(c: Config, s: Sys, o: Object, P: map<Project, string>, U: set<Project>, log: seq<Request>)
    requires Reaches(c, s, Sys(Store(o, P, U, log), Resolving(o)))
    requires o.finalizer && o.deleting && o.spec == SPEC && o.status.id == 0 && o.status.base.binding == BOUND
    ensures Reaches(c, s, Sys(Store(o, P, U, log).(obj := None), Idle))
  {
    var w := Store(o, P, U, log);
    assert TrimSlashes(URL) == URL;
    Extend(c, s, Sys(w, Resolving(o)), GO);
    assert Step(c, Sys(w, Resolving(o)), GO) == Sys(w, Dialing(o, URL));
    Extend(c, s, Sys(w, Dialing(o, URL)), GO);
    assert Step(c, Sys(w, Dialing(o, URL)), GO) == Sys(w, Finalizing(o, URL));
    Extend(c, s, Sys(w, Finalizing(o, URL)), GO);
    assert Step(c, Sys(w, Finalizing(o, URL)), GO) == Sys(w, Releasing(o));
    Extend(c, s, Sys(w, Releasing(o)), GO);
  }

  /** Under Delete, one lost answer to a create is enough: the object goes and its project stays. */
  lemma LeftBehindIsReachable(c: Config) returns (s: Sys, t: Sys)
    ensures Init(s) && s.world.obj.Some? && s.world.obj.value.spec.deletion.Delete? && s.world.projects == map[]
    ensures Reaches(c, s, t) && t.world.obj.None? && (URL, 5) in t.world.projects
  {
    s := Sys(Store(FIRST, map[], {}, []), Idle);
    assert TrimSlashes(URL) == URL;
    var P, U := map[(URL, 5) := c.name], {(URL, 5)};
    var o := HELD.(rv := 4, status := Status(FAILED, 0));
    var gone := o.(rv := 5, generation := 2, deleting := true);
    assert Reaches(c, s, Sys(Store(gone, P, U, LOG), Idle)) by {
      CreatesUnseen(c, s);
      Extend(c, s, Sys(Store(o, P, U, LOG), Idle), DeleteObject);
      assert Step(c, Sys(Store(o, P, U, LOG), Idle), DeleteObject) == Sys(Store(gone, P, U, LOG), Idle);
    }
    ReleasesUnrecorded(c, s, gone, P, U, LOG);
    t := Sys(Store(gone, P, U, LOG).(obj := None), Idle);
  }
}
