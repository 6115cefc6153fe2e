/**
 Reconcile for Project as the code runs it: an in-memory object changed step by step, with calls to
 the Kubernetes API and Harbor in between. Every execution is a run of the step machine.
 */
module ProjectReconciler {
  import opened Values
  import opened Connections
  import opened Conditions
  import opened ProjectMachine
  import opened ProjectTheorems

  /** How one call of Reconcile ends; Killed is a crash of the operator between two calls. */
  datatype Outcome = Killed | Vanished | Finalized | Errored | Requeued | Settled(id: nat)

  datatype Connecting = Client(url: string) | NoClient(notFound: bool) | Dead

  /** What happens around one call: first the environment's events, then the answer to the call. */
  datatype Slot = Slot(events: seq<Event>, answer: Answer)

  class Reconciler {
    const c: Config
    ghost const start: Sys
    var world: World
    var script: seq<Slot>
    ghost var frame: Frame
    ghost var run: seq<Event>
    ghost var steps: nat  // operator steps taken so far

    constructor (c: Config, w: World, script: seq<Slot>)
      requires Init(Sys(w, Idle))
      ensures Valid() && frame.Idle? && run == [] && world == w
    {
      this.c, world, this.script := c, w, script;
      start, frame, run, steps := Sys(w, Idle), Idle, [], 0;
    }

    /** The current state is the state the machine reaches by the run recorded so far. */
    ghost predicate Valid()
      reads this
    {
      Init(start) && Exec(c, start, run) == Sys(world, frame)
    }

    /** A reconcile stops half-way only when the operator dies; otherwise it ran to one of its ends. */
    ghost predicate Ended(outcome: Outcome)
      reads this
    {
      if outcome.Killed? then script == [] else frame.Idle?
    }

    /** Records one operator step whose effect on the world has just been carried out. */
    ghost method Commit(a: Answer, before: World)
      requires Init(start) && Exec(c, start, run) == Sys(before, frame)
      requires world == OperatorStep(c, Sys(before, frame), a).world
      modifies this`frame, this`run, this`steps
      ensures steps == old(steps) + 1
      ensures Valid() && frame == OperatorStep(c, Sys(before, old(frame)), a).frame
    {
      assert (run + [Operator(a)])[..|run|] == run;
      frame := OperatorStep(c, Sys(before, frame), a).frame;
      run, steps := run + [Operator(a)], steps + 1;
    }

    /** The environment acts; then either the operator dies or its next call will be answered by `a`. */
    method Await() returns (alive: bool, a: Answer)
      requires Valid()
      modifies this`world, this`script, this`run
      ensures Valid() && frame == old(frame)
      ensures !alive ==> script == []
    {
      a := Answer(Rejected, Failed(false), DialFailed, None, 0, false, false, "");
      if script == [] { return false, a; }
      var slot := script[0];
      script := script[1..];
      for i := 0 to |slot.events|
        invariant Valid() && frame == old(frame)
      {
        var e := slot.events[i];
        if !e.Operator? && !e.Restart? {
          assert (run + [e])[..|run|] == run;
          world := Step(c, Sys(world, Idle), e).world;
          run := run + [e];
        }
      }
      return true, slot.answer;
    }

    /** Status().Update. */
    method UpdateStatus(mem: Object, fate: Write) returns (ok: bool)
      modifies this`world
      ensures world == WriteStatus(old(world), mem, fate) && ok == WriteOk(old(world), mem, fate)
    {
      ok := world.obj.Some? && world.obj.value.rv == mem.rv && fate.Applied?;
      if world.obj.Some? && world.obj.value.rv == mem.rv && !fate.Rejected? {
        world := world.(obj := Some(world.obj.value.(status := mem.status, rv := mem.rv + 1)));
      }
    }

    /** Update of the metadata. */
    method UpdateFinalizer(mem: Object, present: bool, fate: Write) returns (ok: bool)
      modifies this`world
      ensures world == WriteFinalizer(old(world), mem, present, fate) && ok == WriteOk(old(world), mem, fate)
    {
      ok := world.obj.Some? && world.obj.value.rv == mem.rv && fate.Applied?;
      if world.obj.Some? && world.obj.value.rv == mem.rv && !fate.Rejected? {
        if world.obj.value.deleting && !present {
          world := world.(obj := None);
        } else {
          world := world.(obj := Some(world.obj.value.(finalizer := present, rv := mem.rv + 1)));
        }
      }
    }

    method Send(r: Request)
      modifies this`world
      ensures world == old(world).(log := old(world).log + [r])
    {
      world := world.(log := world.log + [r]);
    }

    method Load() returns (alive: bool, found: bool, cr: Object)
      requires Valid() && frame.Idle?
      modifies this
      ensures Valid()
      ensures !alive ==> script == []
      ensures steps >= old(steps)
      ensures alive ==> steps > old(steps)
      ensures alive ==> frame == if found then Marking(cr) else Idle
    {
      var a;
      alive, a := Await();
      cr := Object(0, 0, false, false, Spec(None, Delete, None, 0), Status(Base(0, NO_MARKS, None), 0));
      found := false;
      if !alive { return; }
      if world.obj.Some? { found, cr := true, world.obj.value; }
      Commit(a, world);
    }

    method MarkReconcilingIfNeeded(cr0: Object) returns (alive: bool, ok: bool, cr: Object)
      requires Valid() && frame == Marking(cr0)
      modifies this
      ensures Valid()
      ensures !alive ==> script == []
      ensures steps >= old(steps)
      ensures alive ==> frame == if ok then Resolving(cr) else Idle
    {
      var a;
      cr, ok := cr0, true;
      alive, a := Await();
      if !alive { return; }
      ghost var before := world;
      if cr.status.base.observedGeneration != cr.generation {
        cr := cr.(status := cr.status.(base := MarkReconciling(cr.status.base, cr.generation, Unspecified, "")));
        ok := UpdateStatus(cr, a.write);
        if ok { cr := cr.(rv := cr.rv + 1); }
      }
      assert OperatorStep(c, Sys(before, frame), a) == MarkStep(before, cr0, a);
      Commit(a, before);
    }

    /** resolveHarborConnection inside getHarborClientForObject: compares or sets the in-memory binding. */
    method ResolveConnection(cr0: Object) returns (alive: bool, r: Connecting, bind: bool, cr: Object)
      requires Valid() && frame == Resolving(cr0)
      modifies this
      ensures Valid()
      ensures !alive ==> script == []
      ensures steps >= old(steps)
      ensures alive && r.NoClient? ==> frame == NoConnection(cr, r.notFound)
      ensures alive && r.Client? && bind ==> frame == Frame.Binding(cr, r.url)
      ensures alive && r.Client? && !bind ==> frame == Dialing(cr, r.url)
      ensures alive ==> !r.Dead?
    {
      var a;
      r, bind, cr := Dead, false, cr0;
      alive, a := Await();
      if !alive { return; }
      if a.http.Failed? {
        r := NoClient(false);
      } else {
        match Resolve(world.options.forced, world.conns, c.namespace, cr.spec.ref) {
          case Invalid => r := NoClient(false);
          case Missing => r := NoClient(true);
          case Found(current, url) =>
            if cr.status.base.binding.Some? {
              r := if cr.status.base.binding.value == current then Client(TrimSlashes(url)) else NoClient(false);
            } else {
              cr := cr.(status := cr.status.(base := cr.status.base.(binding := Some(current))));
              bind, r := true, Client(TrimSlashes(url));
            }
        }
      }
      Commit(a, world);
    }

    method PersistBinding(cr0: Object, url: string) returns (alive: bool, r: Connecting, cr: Object)
      requires Valid() && frame == Frame.Binding(cr0, url)
      modifies this
      ensures Valid()
      ensures !alive ==> script == []
      ensures steps >= old(steps)
      ensures alive && r.NoClient? ==> frame == NoConnection(cr, r.notFound)
      ensures alive && r.Client? ==> frame == Dialing(cr, r.url)
      ensures alive ==> !r.Dead?
    {
      var a;
      r, cr := Dead, cr0;
      alive, a := Await();
      if !alive { return; }
      ghost var before := world;
      var gone := world.obj.None?;
      var ok := UpdateStatus(cr, a.write);
      if ok { cr, r := cr.(rv := cr.rv + 1), Client(url); } else { r := NoClient(gone); }
      Commit(a, before);
    }

    method BuildClient(cr: Object, url: string) returns (alive: bool, r: Connecting)
      requires Valid() && frame == Dialing(cr, url)
      modifies this
      ensures Valid()
      ensures !alive ==> script == []
      ensures steps >= old(steps)
      ensures alive && r.NoClient? ==> frame == NoConnection(cr, r.notFound)
      ensures alive && r.Client? ==>
                r.url == url &&
                frame == if cr.deleting then Finalizing(cr, url) else if cr.finalizer then Adopting(cr, url)
                    else Holding(cr, url)
      ensures alive ==> !r.Dead?
    {
      var a;
      r := Dead;
      alive, a := Await();
      if !alive { return; }
      match a.dial {
        case Connected => r := Client(url);
        case SecretMissing => r := NoClient(true);
        case DialFailed => r := NoClient(false);
      }
      Commit(a, world);
    }

    /** getHarborClientForObject. */
    method GetHarborClient(cr0: Object) returns (alive: bool, r: Connecting, cr: Object)
      requires Valid() && frame == Resolving(cr0)
      modifies this
      ensures Valid()
      ensures !alive ==> script == []
      ensures steps >= old(steps)
      ensures alive && r.NoClient? ==> frame == NoConnection(cr, r.notFound)
      ensures alive && r.Client? ==>
                frame == if cr.deleting then Finalizing(cr, r.url) else if cr.finalizer then Adopting(cr, r.url)
                    else Holding(cr, r.url)
      ensures alive ==> !r.Dead?
    {
      var bind;
      alive, r, bind, cr := ResolveConnection(cr0);
      if !alive { return; }
      if bind {
        if r.Client? {
          alive, r, cr := PersistBinding(cr, r.url);
          if !alive { return; }
        }
      }
      if r.Client? { alive, r := BuildClient(cr, r.url); }
    }

    /** removeFinalizer. */
    method RemoveFinalizer(cr: Object) returns (outcome: Outcome)
      requires Valid() && frame == Releasing(cr)
      modifies this
      ensures Valid() && (outcome.Killed? || outcome.Finalized? || outcome.Errored?)
      ensures Ended(outcome) && steps >= old(steps)
    {
      var alive, a := Await();
      if !alive { return Killed; }
      ghost var before := world;
      var ok := true;
      if cr.finalizer { ok := UpdateFinalizer(cr, false, a.write); }
      Commit(a, before);
      return if ok then Finalized else Errored;
    }

    /** finalizeWithoutHarborConnection, else setErrorStatus. */
    method WithoutConnection(cr: Object, notFound: bool) returns (outcome: Outcome)
      requires Valid() && frame == NoConnection(cr, notFound)
      modifies this
      ensures Valid() && (outcome.Killed? || outcome.Finalized? || outcome.Errored?)
      ensures Ended(outcome) && steps >= old(steps)
    {
      var alive, a := Await();
      if !alive { return Killed; }
      Commit(a, world);
      if cr.deleting && notFound && cr.spec.deletion.Orphan? {
        outcome := RemoveFinalizer(cr);
      } else {
        outcome := SetErrorStatus(cr);
      }
    }

    /** finalizeIfDeleting with deleteProject. */
    method Finalize(cr: Object, url: string) returns (outcome: Outcome)
      requires Valid() && frame == Finalizing(cr, url)
      modifies this
      ensures Valid() && (outcome.Killed? || outcome.Finalized? || outcome.Errored?)
      ensures Ended(outcome) && steps >= old(steps)
    {
      var alive, a := Await();
      if !alive { return Killed; }
      ghost var before := world;
      var failed := false;
      if !cr.spec.deletion.Orphan? {
        if cr.status.id != 0 {
          if a.http != Failed(false) { world := world.(projects := world.projects - {(url, cr.status.id)}); }
          Send(DeleteRequest(url, cr.status.id, a.http.Delivered?));
          failed := a.http.Failed?;
        }
      }
      Commit(a, before);
      if failed { return Errored; }
      outcome := RemoveFinalizer(cr);
    }

    /** ensureFinalizer; a successful update refreshes the whole in-memory object. */
    method EnsureFinalizer(cr0: Object, url: string) returns (alive: bool, ok: bool, cr: Object)
      requires Valid() && frame == (if cr0.finalizer then Adopting(cr0, url) else Holding(cr0, url))
      modifies this
      ensures Valid()
      ensures !alive ==> script == []
      ensures steps >= old(steps)
      ensures alive ==> frame == if ok then Adopting(cr, url) else Idle
    {
      alive, ok, cr := true, true, cr0;
      if cr.finalizer { return; }
      var a;
      alive, a := Await();
      if !alive { return; }
      ghost var before := world;
      ok := UpdateFinalizer(cr, true, a.write);
      if ok { cr := world.obj.value; }
      Commit(a, before);
    }

    /** Adoption when no id is recorded and the policy allows it; `failed` asks for setErrorStatus. */
    method AdoptIfAllowed(cr0: Object, url: string) returns (alive: bool, failed: bool, cr: Object)
      requires Valid() && frame == Adopting(cr0, url)
      modifies this
      ensures Valid()
      ensures !alive ==> script == []
      ensures steps >= old(steps)
      ensures alive ==> frame == if failed then Failing(cr) else Deciding(cr, url)
    {
      var a;
      failed, cr := false, cr0;
      alive, a := Await();
      if !alive { return; }
      ghost var before := world;
      if cr.status.id == 0 && AllowsAdoption(Effective(world.options, cr.spec.creation)) {
        var answered := FindAnswerOk(c, world, url, a);
        Send(FindRequest(url));
        if !answered {
          failed := true;
        } else if a.found.Some? {
          cr := cr.(status := cr.status.(id := a.found.value));
        }
        Commit(a, before);
        if failed || a.found.None? { return; }
        alive, failed, cr := RecordAdoption(cr, url);
        return;
      }
      Commit(a, before);
    }

    /** The status write of adoptExisting. */
    method RecordAdoption(cr0: Object, url: string) returns (alive: bool, failed: bool, cr: Object)
      requires Valid() && frame == RecordingAdoption(cr0, url)
      modifies this
      ensures Valid()
      ensures !alive ==> script == []
      ensures steps >= old(steps)
      ensures alive ==> frame == if failed then Failing(cr) else Deciding(cr, url)
    {
      var a;
      failed, cr := false, cr0;
      alive, a := Await();
      if !alive { return; }
      ghost var before := world;
      var ok := UpdateStatus(cr, a.write);
      if ok { cr := cr.(rv := cr.rv + 1); } else { failed := true; }
      Commit(a, before);
    }

    /** buildCreateReq, then CreateProject or GetProjectByID and UpdateProject. */
    method CreateOrUpdate(cr0: Object, url: string) returns (outcome: Outcome)
      requires Valid() && frame == Deciding(cr0, url)
      modifies this
      ensures Valid()
      ensures Ended(outcome) && steps >= old(steps)
      ensures outcome.Settled? ==> RecordedReady(world, outcome.id)
    {
      var cr := cr0;
      var alive, a := Await();
      if !alive { return Killed; }
      ghost var before := world;
      if !a.payloadOk {
        Commit(a, before);
        outcome := SetErrorStatus(cr);
      } else if cr.status.id == 0 {
        if !AllowsCreation(Effective(world.options, cr.spec.creation)) {
          Commit(a, before);
          outcome := SetErrorStatus(cr);
          return;
        }
        var unusedId := a.newId > 0 && (url, a.newId) !in world.used;
        if unusedId && a.http != Failed(false) {
          world := world.(projects := world.projects[(url, a.newId) := c.name], used := world.used + {(url, a.newId)});
        }
        if unusedId && a.http.Delivered? {
          Send(CreateRequest(url, Some(a.newId)));
          Commit(a, before);
          cr := cr.(status := cr.status.(id := a.newId));
          outcome := SetReadyStatus(cr, Created, "Project created");
        } else {
          Send(CreateRequest(url, None));
          Commit(a, before);
          outcome := SetErrorStatus(cr);
        }
      } else {
        outcome := ReadAndUpdate(cr, url, a);
      }
    }

    method ReadAndUpdate(cr: Object, url: string, a: Answer) returns (outcome: Outcome)
      requires Valid() && frame == Deciding(cr, url) && a.payloadOk && cr.status.id != 0
      modifies this
      ensures Valid()
      ensures Ended(outcome) && steps >= old(steps)
      ensures outcome.Settled? ==> RecordedReady(world, outcome.id)
    {
      ghost var before := world;
      var present := (url, cr.status.id) in world.projects;
      Send(GetRequest(url, cr.status.id));
      Commit(a, before);
      if a.http.Failed? {
        outcome := SetErrorStatus(cr);
        return;
      }
      if !present {
        outcome := RequeueOnNotFound(cr.(status := cr.status.(id := 0)));
        return;
      }
      outcome := UpdateIfNeeded(cr, url);
    }

    /** projectNeedsUpdate and UpdateProject, then the ready status. */
    method UpdateIfNeeded(cr: Object, url: string) returns (outcome: Outcome)
      requires Valid() && frame == Comparing(cr, url)
      modifies this
      ensures Valid()
      ensures Ended(outcome) && steps >= old(steps)
      ensures outcome.Settled? ==> RecordedReady(world, outcome.id)
    {
      var alive, b := Await();
      if !alive { return Killed; }
      ghost var before := world;
      if b.differs {
        var updated := b.http.Delivered? && (url, cr.status.id) in world.projects;
        Send(UpdateRequest(url, cr.status.id, updated));
        Commit(b, before);
        if !updated {
          outcome := SetErrorStatus(cr);
          return;
        }
      } else {
        Commit(b, before);
      }
      outcome := SetReadyStatus(cr, Reconciled, "Project reconciled");
    }

    /** The store holds this id under a Ready condition. */
    ghost predicate RecordedReady(w: World, id: nat) {
      id != 0 && w.obj.Some? && w.obj.value.status.id == id && IsReady(w.obj.value.status.base)
    }

    /** Writes the marked status only when the marks changed the base. */
    method WriteIfChanged(cr: Object, base: Base, fate: Write) returns (ok: bool)
      modifies this`world
      ensures world == MarkedWrite(old(world), cr, base, fate) && ok == WriteSettles(old(world), cr, base, fate)
    {
      ok := true;
      if base != cr.status.base { ok := UpdateStatus(cr.(status := cr.status.(base := base)), fate); }
    }

    method SetReadyStatus(cr: Object, reason: Reason, message: string) returns (outcome: Outcome)
      requires Valid() && frame == Publishing(cr, reason, message)
      modifies this
      ensures Valid()
      ensures Ended(outcome) && steps >= old(steps)
      ensures outcome.Settled? ==> outcome.id == cr.status.id && RecordedReady(world, outcome.id)
    {
      var alive, a := Await();
      if !alive { return Killed; }
      ghost var before, prefix := world, run;
      var ok := WriteIfChanged(cr, MarkReady(cr.status.base, cr.generation, reason, message), a.write);
      Commit(a, before);
      if !ok { return Errored; }
      ReadyReconcileRecordsId(c, start, prefix, a);
      return Settled(cr.status.id);
    }

    method SetErrorStatus(cr: Object) returns (outcome: Outcome)
      requires Valid() && frame == Failing(cr)
      modifies this
      ensures Valid() && (outcome.Killed? || outcome.Errored?)
      ensures Ended(outcome) && steps >= old(steps)
    {
      var alive, a := Await();
      if !alive { return Killed; }
      ghost var before := world;
      var ok := WriteIfChanged(cr, MarkError(cr.status.base, cr.generation, a.message), a.write);
      Commit(a, before);
      return Errored;
    }

    /** requeueOnRemoteNotFound after its reset. */
    method RequeueOnNotFound(cr: Object) returns (outcome: Outcome)
      requires Valid() && frame == Forgetting(cr)
      modifies this
      ensures Valid() && (outcome.Killed? || outcome.Errored? || outcome.Requeued?)
      ensures Ended(outcome) && steps >= old(steps)
    {
      var alive, a := Await();
      if !alive { return Killed; }
      ghost var before := world;
      var ok := WriteIfChanged(cr,
          MarkReconciling(cr.status.base, cr.generation, NotFound, "Project not found in Harbor"), a.write);
      Commit(a, before);
      return if ok then Requeued else Errored;
    }

    /** Reconcile: a run of the machine, and when it settles the id is stored under Ready. */
    method Reconcile() returns (outcome: Outcome)
      requires Valid() && frame.Idle?
      modifies this
      ensures Valid()
      ensures Ended(outcome)
      ensures !outcome.Killed? ==> steps > old(steps)
      ensures outcome.Settled? ==> RecordedReady(world, outcome.id)
    {
      var alive, ok, cr := Load();
      if !alive { return Killed; }
      if !ok { return Vanished; }
      alive, ok, cr := MarkReconcilingIfNeeded(cr);
      if !alive { return Killed; }
      if !ok { return Errored; }
      var r;
      alive, r, cr := GetHarborClient(cr);
      if !alive { return Killed; }
      if r.NoClient? {
        outcome := WithoutConnection(cr, r.notFound);
        return;
      }
      var url := r.url;
      if cr.deleting {
        outcome := Finalize(cr, url);
        return;
      }
      alive, ok, cr := EnsureFinalizer(cr, url);
      if !alive { return Killed; }
      if !ok { return Errored; }
      var failed;
      alive, failed, cr := AdoptIfAllowed(cr, url);
      if !alive { return Killed; }
      if failed {
        outcome := SetErrorStatus(cr);
        return;
      }
      outcome := CreateOrUpdate(cr, url);
    }
  }
}
