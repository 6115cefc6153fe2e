/** When an update is sent, and what a refused reference keeps from being sent. */
module ProjectRequests {
  import opened Values
  import opened Connections
  import opened Conditions
  import opened ProjectMachine
  import opened ProjectInvariants

  // ---------- the drift comparison ----------

  /** What a step taken while comparing sends, and where it leads. */
  lemma ComparingSends(c: Config, s: Sys, a: Answer)
    requires s.frame.Comparing?
    ensures var t, mem, url := Step(c, s, Operator(a)), s.frame.mem, s.frame.url;
            var updated := a.http.Delivered? && (url, mem.status.id) in s.world.projects;
            && (a.differs ==> t.world.log == s.world.log + [UpdateRequest(url, mem.status.id, updated)])
            && (!a.differs ==> t.world.log == s.world.log)
            && (if a.differs && !updated then t.frame == Failing(mem)
                else t.frame == Publishing(mem, Reconciled, "Project reconciled"))
  {
  }

  /** What a comparing reconcile works on is the stored record, at the bound URL. */
  lemma ComparesTheRecord(c: Config, s: Sys, run: seq<Event>)
    requires Init(s) && Exec(c, s, run).frame.Comparing?
    ensures var t := Exec(c, s, run);
            && HomeIs(t.world, t.frame.mem.status, t.frame.url) && t.frame.mem.status.id != 0
            && (t.world.obj.Some? ==> t.world.obj.value.status == t.frame.mem.status)
  {
    RunKeepsInv(c, s, run);
  }

  /**
   Over any run, a step taken while comparing sends an update of the recorded id to the bound URL if and only if the
   project differs, and goes on to Ready if and only if nothing differed or the update was done.
   */
  lemma UpdatesExactlyWhenDifferent(c: Config, s: Sys, run: seq<Event>, a: Answer)
    requires Init(s) && Exec(c, s, run).frame.Comparing?
    ensures var t, u := Exec(c, s, run), Step(c, Exec(c, s, run), Operator(a));
            var mem, url := t.frame.mem, t.frame.url;
            var updated := a.http.Delivered? && (url, mem.status.id) in t.world.projects;
            && HomeIs(t.world, mem.status, url) && mem.status.id != 0
            && (t.world.obj.Some? ==> t.world.obj.value.status == mem.status)
            && (a.differs ==> u.world.log == t.world.log + [UpdateRequest(url, mem.status.id, updated)])
            && (!a.differs ==> u.world.log == t.world.log)
            && (if a.differs && !updated then u.frame == Failing(mem)
                else u.frame == Publishing(mem, Reconciled, "Project reconciled"))
  {
    ComparesTheRecord(c, s, run);
    ComparingSends(c, Exec(c, s, run), a);
  }

  /** Event k compared the project the reconcile is about to call Ready, and updated it if it differed. */
  ghost predicate ComparedAt(c: Config, s: Sys, run: seq<Event>, k: nat, mem: Object) {
    && k < |run| && run[k].Operator?
    && var t, u := Exec(c, s, run[..k]), Exec(c, s, run[..k + 1]);
       && t.frame.Comparing? && t.frame.mem == mem
       && (run[k].answer.differs ==> u.world.log == t.world.log + [UpdateRequest(t.frame.url, mem.status.id, true)])
       && forall n :: k < n <= |run| ==> Exec(c, s, run[..n]).frame == Publishing(mem, Reconciled, "Project reconciled")
  }

  /** What precedes a Publishing frame with reason Reconciled. */
  lemma PublishingComesFrom(c: Config, s: Sys, e: Event)
    requires Step(c, s, e).frame.Publishing? && Step(c, s, e).frame.reason.Reconciled?
    ensures || s.frame == Step(c, s, e).frame
            || (e.Operator? && s.frame.Comparing? && s.frame.mem == Step(c, s, e).frame.mem)
  {
  }

  /** A reconcile about to end Ready as Reconciled has compared the project and, where it differed, updated it. */
  lemma {:induction false} ReconciledMeansUpdated(c: Config, s: Sys, run: seq<Event>)
    requires Init(s) && Exec(c, s, run).frame.Publishing? && Exec(c, s, run).frame.reason.Reconciled?
    ensures exists k: nat :: ComparedAt(c, s, run, k, Exec(c, s, run).frame.mem)
    decreases |run|
  {
    assert run != [];
    var before := run[..|run| - 1];
    var mem := Exec(c, s, run).frame.mem;
    PublishingComesFrom(c, Exec(c, s, before), run[|run| - 1]);
    if Exec(c, s, before).frame == Exec(c, s, run).frame {
      ReconciledMeansUpdated(c, s, before);
      var k: nat :| ComparedAt(c, s, before, k, mem);
      assert Exec(c, s, run).frame == Publishing(mem, Reconciled, "Project reconciled") by {
        assert before[..|before|] == before;
        assert Exec(c, s, before[..|before|]).frame == Publishing(mem, Reconciled, "Project reconciled");
      }
      StillCompared(c, s, run, k, mem);
    } else {
      ComparedNow(c, s, run);
    }
  }

  lemma ComparedNow(c: Config, s: Sys, run: seq<Event>)
    requires Init(s) && run != [] && run[|run| - 1].Operator?
    requires var t := Exec(c, s, run[..|run| - 1]); t.frame.Comparing? && Exec(c, s, run).frame.Publishing?
    requires Exec(c, s, run).frame.mem == Exec(c, s, run[..|run| - 1]).frame.mem
    ensures ComparedAt(c, s, run, |run| - 1, Exec(c, s, run).frame.mem)
  {
    var m := |run| - 1;
    UpdatesExactlyWhenDifferent(c, s, run[..m], run[m].answer);
    assert run[..m + 1] == run;
    forall n | m < n <= |run| ensures run[..n] == run {}
  }

  lemma StillCompared(c: Config, s: Sys, run: seq<Event>, k: nat, mem: Object)
    requires run != [] && ComparedAt(c, s, run[..|run| - 1], k, mem)
    requires Exec(c, s, run).frame == Publishing(mem, Reconciled, "Project reconciled")
    ensures ComparedAt(c, s, run, k, mem)
  {
    var before := run[..|run| - 1];
    assert before[..k] == run[..k] && before[..k + 1] == run[..k + 1] && before[k] == run[k];
    forall n | k < n <= |run| ensures Exec(c, s, run[..n]).frame == Publishing(mem, Reconciled, "Project reconciled") {
      if n < |run| { assert before[..n] == run[..n]; } else { assert run[..n] == run; }
    }
  }

  // ---------- a reference the operator refuses ----------

  /** The operator runs with a forced connection and the object refers to another one. */
  predicate RefusedSpec(forced: string, spec: Spec) { forced != "" && !AcceptedWhenForced(forced, spec.ref) }

  predicate Refused(w: World) { w.obj.Some? ==> RefusedSpec(w.options.forced, w.obj.value.spec) }

  /** The frames a refused reconcile can be in. */
  predicate Unconnected(w: World, f: Frame) {
    && (f.Idle? || f.Marking? || f.Resolving? || f.NoConnection? || f.Failing?)
    && (!f.Idle? ==> RefusedSpec(w.options.forced, f.mem.spec))
    && (f.NoConnection? ==> !f.notFound)
  }

  lemma RefusedStep(c: Config, s: Sys, e: Event)
    requires Refused(s.world) && Unconnected(s.world, s.frame) && Refused(Step(c, s, e).world)
    ensures var t := Step(c, s, e); t.world.log == s.world.log && Unconnected(t.world, t.frame)
  {
    if e.Operator? && s.frame.Resolving? {
      var mem := s.frame.mem;
      ForcedResolution(s.world.options.forced, s.world.conns, c.namespace, mem.spec.ref);
      assert Step(c, s, e) == ResolveStep(c, s.world, mem, e.answer);
    }
  }

  /** While the operator is forced to one connection, an object that refers to another one causes no request. */
  lemma {:induction false} RefusedNeverRequests(c: Config, s: Sys, run: seq<Event>)
    requires Init(s) && forall k :: 0 <= k <= |run| ==> Refused(Exec(c, s, run[..k]).world)
    ensures Exec(c, s, run).world.log == [] && Unconnected(Exec(c, s, run).world, Exec(c, s, run).frame)
  {
    if run != [] {
      var before := run[..|run| - 1];
      forall k | 0 <= k <= |before| ensures before[..k] == run[..k] {}
      RefusedNeverRequests(c, s, before);
      assert run[..|run|] == run;
      RefusedStep(c, Exec(c, s, before), run[|run| - 1]);
    }
  }
}
