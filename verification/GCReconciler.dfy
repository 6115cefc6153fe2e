/** Reconcile for GCSchedule as the code runs it; every execution is a run of the step machine. */
module GCReconciler {
  import opened Values
  import opened Conditions
  import opened Schedules
  import opened GCSchedule
  import opened GCOwnership
  import Singletons

  /** Around one call: what others do to the object, then the answer. */
  datatype Slot = Slot(events: seq<Event>, answer: Answer)

  datatype Outcome = Killed | Vanished | Errored | Released | Quiet | Sent

  const NOTHING_READ :=
    Singletons.Check(Singletons.Snapshot("", map[], []), {}, Singletons.Item(Singletons.Name("", ""), 0, false, None))

  lemma ExecMore(c: Config, w: World, run: seq<Event>, e: Event)
    ensures Exec(c, w, run + [e]) == Next(c, Exec(c, w, run), e)
  {
    assert (run + [e])[..|run|] == run;
  }

  class Reconciler {
    const c: Config
    ghost const start: World
    var obj: Object                 // stored in the API server, unless gone
    var gone: bool
    var accepted: Option<Spec>      // Harbor's last accepted request
    var script: seq<Slot>
    ghost var phase: Phase
    ghost var recorded: bool
    ghost var run: seq<Event>

    constructor (c: Config, w: World, script: seq<Slot>)
      requires Init(w)
      ensures Valid() && phase.Idle?
    {
      this.c, obj, gone, accepted, this.script := c, w.obj, w.gone, w.accepted, script;
      start, phase, recorded, run := w, w.phase, w.recorded, [];
    }

    ghost function Now(): World
      reads this
    {
      World(obj, gone, phase, accepted, recorded)
    }

    /** The current state is what the machine reaches by the run so far. */
    ghost predicate Valid()
      reads this
    {
      Init(start) && Exec(c, start, run) == Now()
    }

    /** The reconcile ran to one of its ends, or the operator died. */
    ghost predicate Ended(outcome: Outcome)
      reads this
    {
      Valid() && if outcome.Killed? then script == [] else phase.Idle?
    }

    /** Records one step whose effect on the object and on Harbor has been carried out. */
    ghost method Commit(a: Answer, before: World)
      requires Init(start) && Exec(c, start, run) == before && before.phase == phase
      requires var w := OperatorStep(c, before, a); obj == w.obj && gone == w.gone && accepted == w.accepted
      modifies this`phase, this`recorded, this`run
      ensures Valid() && Now() == OperatorStep(c, before, a) && run == old(run) + [Step(a)]
    {
      ExecMore(c, start, run, Step(a));
      var w := OperatorStep(c, before, a);
      phase, recorded, run := w.phase, w.recorded, run + [Step(a)];
    }

    /** Others edit or delete the object; then the operator dies or its next call gets an answer. */
    method Await() returns (alive: bool, a: Answer)
      requires Valid()
      modifies this`obj, this`gone, this`script, this`run
      ensures Valid() && (!alive ==> script == []) && old(run) <= run
    {
      a := Answer(Rejected, Refused, Broken, NOTHING_READ, "");
      if script == [] { return false, a; }
      var slot := script[0];
      script := script[1..];
      for i := 0 to |slot.events|
        invariant Valid() && old(run) <= run
      {
        var e := slot.events[i];
        if e.Step? || e.Crash? { continue; }
        ExecMore(c, start, run, e);
        if e.Edit? {
          if !gone { obj := obj.(spec := e.spec, generation := obj.generation + 1, rv := obj.rv + 1); }
        } else if !gone {
          if obj.finalizer { obj := obj.(deleting := true, generation := obj.generation + 1, rv := obj.rv + 1); }
          else { gone := true; }
        }
        run := run + [e];
      }
      return true, slot.answer;
    }

    method UpdateStatus(mem: Object, status: Status, write: Write) returns (ok: bool)
      modifies this`obj
      ensures var landed := !gone && old(obj).rv == mem.rv && !write.Rejected?;
              && obj == (if landed then old(obj).(status := status, rv := old(obj).rv + 1) else old(obj))
              && ok == (landed && write.Applied?)
    {
      ok := !gone && obj.rv == mem.rv && write.Applied?;
      if !gone && obj.rv == mem.rv && !write.Rejected? { obj := obj.(status := status, rv := obj.rv + 1); }
    }

    method MarkReconcilingIfNeeded(cr: Object) returns (alive: bool, ok: bool, m: Object)
      requires Valid() && phase == Marking(cr)
      modifies this
      ensures Valid() && accepted == old(accepted) && (!alive ==> script == []) && old(run) <= run
      ensures alive ==> phase == if ok then Connecting(m) else Idle
    {
      m, ok := cr, true;
      var a;
      alive, a := Await();
      if !alive { return; }
      ghost var before := Now();
      if cr.status.base.observedGeneration != cr.generation {
        var status := cr.status.(base := MarkReconciling(cr.status.base, cr.generation, Unspecified, ""));
        ok := UpdateStatus(cr, status, a.write);
        m := cr.(status := status, rv := cr.rv + 1);
      }
      assert OperatorStep(c, before, a) == MarkStep(before, cr, a.write);
      Commit(a, before);
    }

    /** getHarborClientForObject and finalizeWithoutHarborConnection. */
    method Connect(cr: Object) returns (alive: bool, next: Phase)
      requires Valid() && phase == Connecting(cr)
      modifies this
      ensures Valid() && accepted == old(accepted) && (!alive ==> script == []) && old(run) <= run
      ensures alive ==> phase == next && (next.Releasing? || next.Holding? || next.Failing?)
    {
      next := Idle;
      var a;
      alive, a := Await();
      if !alive { return; }
      ghost var before := Now();
      match a.link {
        case Missing => next := if cr.deleting then Releasing(cr) else Failing(cr);
        case Broken => next := Failing(cr);
        case Connected(binding) =>
          if cr.status.base.binding.Some? {
            next := AfterLink(cr);
          } else {
            var m := cr.(status := cr.status.(base := cr.status.base.(binding := Some(binding))));
            var ok := UpdateStatus(cr, m.status, a.write);
            next := if ok then AfterLink(m.(rv := cr.rv + 1)) else Failing(m);
          }
      }
      assert OperatorStep(c, before, a) == ConnectStep(before, cr, a.link, a.write);
      Commit(a, before);
    }

    /** removeFinalizer. */
    method Release(cr: Object) returns (outcome: Outcome)
      requires Valid() && phase == Releasing(cr)
      modifies this
      ensures Ended(outcome) && accepted == old(accepted) && !outcome.Quiet? && !outcome.Sent?
    {
      var alive, a := Await();
      if !alive { return Killed; }
      ghost var before := Now();
      var ok := !cr.finalizer || (!gone && obj.rv == cr.rv && a.write.Applied?);
      if cr.finalizer && !gone && obj.rv == cr.rv && !a.write.Rejected? {
        gone := obj.deleting;
        obj := obj.(finalizer := false, rv := obj.rv + 1);
      }
      Commit(a, before);
      return if ok then Released else Errored;
    }

    method EnsureFinalizer(cr: Object) returns (alive: bool, ok: bool, m: Object)
      requires Valid() && phase == Holding(cr)
      modifies this
      ensures Valid() && accepted == old(accepted) && (!alive ==> script == []) && old(run) <= run
      ensures alive ==> phase == if ok then Owning(m) else Idle
    {
      m, ok := cr, true;
      var a;
      alive, a := Await();
      if !alive { return; }
      ghost var before := Now();
      if !cr.finalizer {
        ok := !gone && obj.rv == cr.rv && a.write.Applied?;
        if !gone && obj.rv == cr.rv && !a.write.Rejected? { obj := obj.(finalizer := true, rv := obj.rv + 1); }
        m := cr.(finalizer := true, rv := cr.rv + 1);
      }
      Commit(a, before);
    }

    method SetErrorStatus(cr: Object) returns (outcome: Outcome)
      requires Valid() && phase == Failing(cr)
      modifies this
      ensures Ended(outcome) && old(run) <= run && accepted == old(accepted) && !outcome.Quiet? && !outcome.Sent?
    {
      var alive, a := Await();
      if !alive { return Killed; }
      ghost var before := Now();
      var base := MarkError(cr.status.base, cr.generation, a.message);
      if base != cr.status.base { var _ := UpdateStatus(cr, cr.status.(base := base), a.write); }
      Commit(a, before);
      return Errored;
    }

    /** The body from scheduleParameters to the hash. */
    method Hash(spec: Spec) returns (hash: Option<string>)
      ensures hash.Some? <==> Sendable(c.lib, spec)
      ensures hash.Some? ==> hash.value == HashOf(c, spec)
    {
      var r := ScheduleParameters(c.lib, spec.params);
      if r.None? { return None; }
      if CronMissing(spec) { return None; }
      NoParamsText(c.lib);
      return Some(c.hash(("type=" + spec.kind) + "\n" + (("cron=" + spec.cron) + "\n" + ("params=" + r.value.1))));
    }

    /** Reconcile: a run of the machine from Idle to Idle, or to the operator's death; only an owner changes Harbor. */
    method Reconcile() returns (outcome: Outcome)
      requires Valid() && phase.Idle?
      modifies this
      ensures Ended(outcome)
      ensures outcome.Quiet? ==> accepted == old(accepted)
      ensures accepted != old(accepted) || outcome.Quiet? || outcome.Sent? ==> Passed(old(run))
    {
      var alive, a := Await();
      if !alive { return Killed; }
      ghost var before := Now();
      var cr, found := obj, !gone;
      Commit(a, before);
      if !found { return Vanished; }
      var ok;
      alive, ok, cr := MarkReconcilingIfNeeded(cr);
      if !alive { return Killed; }
      if !ok { return Errored; }
      var p;
      alive, p := Connect(cr);
      if !alive { return Killed; }
      if p.Failing? { outcome := SetErrorStatus(p.mem); return; }
      if p.Releasing? { outcome := Release(p.mem); return; }
      alive, ok, cr := EnsureFinalizer(p.mem);
      if !alive { return Killed; }
      if !ok { return Errored; }
      var verdict;
      outcome, verdict := OwnAndApply(cr);
    }

    /** An ownership check since the run was `before` passed. */
    ghost predicate Passed(before: seq<Event>)
      reads this
    {
      exists k: nat :: |before| <= k && AsksAt(c, start, run, k) && Singletons.Owns(run[k].answer.check)
    }

    /** ensureGCScheduleSingletonOwner, then the schedule; only an owner changes Harbor or ends well. */
    method OwnAndApply(cr: Object) returns (outcome: Outcome, verdict: Singletons.Verdict)
      requires Valid() && phase == Owning(cr)
      modifies this
      ensures Ended(outcome) && old(run) <= run
      ensures outcome.Quiet? ==> accepted == old(accepted)
      ensures accepted != old(accepted) || outcome.Quiet? || outcome.Sent? ==> verdict.Owner?
      ensures verdict.Owner? ==> Passed(old(run))
    {
      verdict := Singletons.Unresolved;
      var alive, a := Await();
      if !alive { return Killed, verdict; }
      ghost var before, was := Now(), run;
      verdict := Singletons.EnsureOwner(a.check.snapshot, a.check.current, a.check.unread);
      Commit(a, before);
      if verdict.Owner? { outcome := Apply(cr); } else { outcome := SetErrorStatus(cr); }
      AskStays(c, start, was, run, a);
    }

    method Apply(cr: Object) returns (outcome: Outcome)
      requires Valid() && phase == Sending(cr)
      modifies this
      ensures Ended(outcome) && old(run) <= run
      ensures outcome.Quiet? ==> accepted == old(accepted)
    {
      var alive, a := Await();
      if !alive { return Killed; }
      ghost var before := Now();
      var hash := Hash(cr.spec);
      if hash.None? {
        Commit(a, before);
        outcome := SetErrorStatus(cr);
        return;
      }
      var m, sent, created := cr, false, false;
      if cr.status.hash == "" || cr.status.hash != hash.value {
        if !a.http.Refused? { accepted := Some(cr.spec); }
        if !a.http.Acknowledged? {
          Commit(a, before);
          outcome := SetErrorStatus(cr);
          return;
        }
        m, sent, created := cr.(status := cr.status.(hash := hash.value)), true, cr.status.hash == "";
      }
      Commit(a, before);
      outcome := Record(m, sent, created);
    }

    /** setReadyStatus after a create; the markReady tail otherwise. */
    method Record(cr: Object, sent: bool, created: bool) returns (outcome: Outcome)
      requires Valid() && phase == Recording(cr, sent, created)
      modifies this
      ensures Ended(outcome) && old(run) <= run
      ensures outcome.Quiet? ==> !sent && accepted == old(accepted)
    {
      var alive, a := Await();
      if !alive { return Killed; }
      ghost var before := Now();
      var base := if created then MarkReady(cr.status.base, cr.generation, Created, "GC schedule created")
                  else MarkReady(cr.status.base, cr.generation, Reconciled, "GC schedule reconciled");
      var ok := true;
      if base != cr.status.base || (sent && !created) { ok := UpdateStatus(cr, cr.status.(base := base), a.write); }
      Commit(a, before);
      return if !ok then Errored else if sent then Sent else Quiet;
    }
  }

  /** Missing and empty parameters hash alike. */
  lemma NoParamsText(lib: Library)
    ensures ParamsText(lib, map[]) == ""
  {
    var none: Raw := map[];
    assert Used(none) == {};
    var keys := KeysOf(none);
    ListedKeys(keys, Used(none));
    assert |multiset(keys)| == |keys| == 0;
  }
}
