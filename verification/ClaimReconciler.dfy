/**
 Reconcile for a UserGroupClaim as the code runs it, among other claims; every execution is a run of the step machine.
 */
module ClaimReconciler {
  import opened Values
  import opened Conditions
  import opened GroupClaims
  import opened ClaimMembers
  import Members

  /** Around one call: events of other claims, outsiders and editors, then the answer. */
  datatype Slot = Slot(events: seq<Event>, answer: Answer)

  datatype Outcome = Killed | Errored | Released | Recorded(id: nat)

  lemma ExecMore(fold: Fold, w: World, run: seq<Event>, e: Event)
    ensures Exec(fold, w, run + [e]) == Next(fold, Exec(fold, w, run), e)
  {
    assert (run + [e])[..|run|] == run;
  }

  /** Steps and crashes of claim i itself. */
  predicate Reserved(e: Event, i: Key) {
    (e.Step? || e.Crash? || e.Add?) && e.claim == i
  }

  /** What others do leaves the claim alone, and the claim's presence does not change what they do. */
  lemma OthersAct(fold: Fold, h: Harbor, others: map<Key, Claim>, i: Key, c: Claim, e: Event)
    requires !Reserved(e, i) && !((e.Edit? || e.Delete?) && e.claim == i) && i !in others
    ensures var v := Next(fold, World(h, others), e);
            i !in v.claims && Next(fold, World(h, others[i := c]), e) == World(v.harbor, v.claims[i := c])
  {
    var v := Next(fold, World(h, others), e);
    var w := Next(fold, World(h, others[i := c]), e);
    assert w.claims == v.claims[i := c];
  }

  class Reconciler {
    const fold: Fold
    const i: Key
    const want: Want
    ghost const start: World
    var harbor: Harbor
    var others: map<Key, Claim>
    var generation: nat             // of the stored claim, like the next three
    var deleting: bool
    var finalizer: bool
    var stored: Status
    var gone: bool                  // the claim is no longer stored
    var script: seq<Slot>
    ghost var phase: Phase
    ghost var run: seq<Event>

    /** Takes over claim i of a reachable state, between two of its reconciles. */
    constructor (fold: Fold, start: World, run: seq<Event>, w: World, i: Key, script: seq<Slot>)
      requires Init(fold, start) && Exec(fold, start, run) == w && i in w.claims && w.claims[i].phase.Idle?
      ensures Live() && phase.Idle? && this.i == i
    {
      this.fold, this.i, this.want, this.start := fold, i, w.claims[i].want, start;
      harbor, others, generation, stored := w.harbor, w.claims - {i}, w.claims[i].generation, w.claims[i].stored;
      deleting, finalizer, gone := w.claims[i].deleting, w.claims[i].finalizer, false;
      this.script, this.phase, this.run := script, Idle, run;
      DeletingIsHeld(fold, start, run, i);
      new;
      assert others[i := Own()] == w.claims;
    }

    ghost function Own(): Claim
      reads this
    {
      Claim(want, generation, deleting, finalizer, stored, phase)
    }

    ghost function Now(): World
      reads this
    {
      World(harbor, if gone then others else others[i := Own()])
    }

    /** The current state is what the machine reaches by the run so far. */
    ghost predicate Valid()
      reads this
    {
      && Init(fold, start) && i !in others && Exec(fold, start, run) == Now()
      && (!gone && deleting ==> finalizer)
    }

    ghost predicate Live()
      reads this
    {
      Valid() && !gone
    }

    /** The id is stored, the claim is Ready, and Harbor's group of that id is the one claimed. */
    ghost predicate KeptId(id: nat)
      reads this
    {
      stored.id == id && IsReady(stored.base) && Names(fold, harbor.groups, want, id)
    }

    /** Records one step of this claim whose effect on Harbor and on the store has been carried out. */
    ghost method Commit(a: Answer, before: Claim, h: Harbor)
      requires Init(fold, start) && i !in others && Exec(fold, start, run) == World(h, others[i := before])
      requires var r := ClaimStep(fold, h, i, before, a);
               harbor == r.0 && Own().(phase := r.1.phase) == r.1 && gone == (r.1.deleting && !r.1.finalizer)
      modifies this`phase, this`run
      ensures Valid() && phase == ClaimStep(fold, h, i, before, a).1.phase
      ensures run == old(run) + [Step(i, a)]
    {
      ExecMore(fold, start, run, Step(i, a));
      var r := ClaimStep(fold, h, i, before, a);
      assert others[i := before][i := r.1] == others[i := r.1] && others[i := before] - {i} == others;
      phase, run := r.1.phase, run + [Step(i, a)];
    }

    /** The others act; then the operator dies or its next call gets an answer. */
    method Await() returns (alive: bool, a: Answer)
      requires Live()
      modifies this`harbor, this`others, this`generation, this`deleting, this`script, this`run
      ensures Live() && |script| <= |old(script)| && (alive ==> |script| < |old(script)|)
      ensures old(run) <= run && (!alive ==> script == [])
    {
      a := Answer(Rejected, None, Refused, 0, None, None, "");
      if script == [] { return false, a; }
      var slot := script[0];
      script := script[1..];
      for n := 0 to |slot.events|
        invariant Live() && |script| == |old(script)| - 1 && old(run) <= run
      {
        Observe(slot.events[n]);
      }
      return true, slot.answer;
    }

    /** One event of the others, an edit or a deletion of this claim included; it is not deleted before it is held. */
    method Observe(e: Event)
      requires Live()
      modifies this`harbor, this`others, this`generation, this`deleting, this`run
      ensures Live() && old(run) <= run
    {
      if Reserved(e, i) || (e.Delete? && e.claim == i && !finalizer) { return; }
      ExecMore(fold, start, run, e);
      ghost var before := Own();
      if (e.Edit? || e.Delete?) && e.claim == i {
        generation := generation + 1;
        if e.Delete? { deleting := true; }
        assert others[i := before][i := Own()] == others[i := Own()];
      } else {
        OthersAct(fold, harbor, others, i, Own(), e);
        var v := Next(fold, World(harbor, others), e);
        harbor, others := v.harbor, v.claims;
      }
      run := run + [e];
    }

    /** Status().Update; the store changes unless the write is rejected, and only an applied one is acknowledged. */
    method UpdateStatus(status: Status, write: Write) returns (ok: bool)
      modifies this`stored
      ensures stored == if write.Rejected? then old(stored) else status
      ensures ok == write.Applied?
    {
      if !write.Rejected? { stored := status; }
      return write.Applied?;
    }

    method MarkReconcilingIfNeeded(m: Memory) returns (alive: bool, ok: bool, mem: Memory)
      requires Live() && phase == Marking(m)
      modifies this
      ensures Live() && (!alive ==> script == []) && old(run) <= run
      ensures alive ==> phase == if ok then AfterMark(mem) else Idle
    {
      mem, ok := m, true;
      var a;
      alive, a := Await();
      if !alive { return; }
      ghost var before, h := Own(), harbor;
      if mem.status.base.observedGeneration != mem.generation {
        mem := mem.(status := mem.status.(base := MarkReconciling(mem.status.base, mem.generation, Unspecified, "")));
        ok := UpdateStatus(mem.status, a.write);
      }
      Commit(a, before, h);
    }

    /** ensureFinalizer. */
    method EnsureFinalizer(m: Memory) returns (alive: bool, ok: bool, mem: Memory)
      requires Live() && phase == Holding(m)
      modifies this
      ensures Live() && (!alive ==> script == [])
      ensures alive ==> phase == if ok then Binding(mem) else Idle
    {
      mem, ok := m, true;
      var a;
      alive, a := Await();
      if !alive { return; }
      ghost var before, h := Own(), harbor;
      if !mem.finalizer {
        if !a.write.Rejected? { finalizer := true; }
        mem, ok := mem.(finalizer := true), a.write.Applied?;
      }
      Commit(a, before, h);
    }

    /** A member check since the run was `before` listed a reference to the claim, or listed none. */
    ghost predicate Checked(before: seq<Event>, referenced: bool)
      reads this
    {
      if referenced then exists j: nat :: |before| <= j && ReferencedAt(fold, start, run, i, j)
      else exists j: nat :: |before| <= j && ClearAt(fold, start, run, i, j)
    }

    /**
     The deletion branch: hasActiveMembers, then removeFinalizer. The claim is released, or gone, only if no listed
     member references it; if one does, the branch ends in the error and the claim keeps its finalizer.
     */
    method Release(m: Memory) returns (outcome: Outcome, referenced: Option<bool>)
      requires Live() && phase == Checking(m)
      modifies this
      ensures Valid() && (if outcome.Killed? then script == [] else phase.Idle?) && old(run) <= run
      ensures outcome.Errored? || outcome.Killed? || outcome.Released?
      ensures outcome.Released? || gone ==> referenced == Some(false)
      ensures referenced.Some? ==> Checked(old(run), referenced.value)
      ensures referenced == Some(true) ==> !outcome.Released? && !gone && finalizer == old(finalizer)
    {
      var alive, a := Await();
      if !alive { return Killed, None; }
      ghost var before, h := Own(), harbor;
      ghost var was := run;
      referenced := None;
      if a.members.Some? {
        var found := Members.HasActiveMembers(a.members.value, i);
        referenced := Some(found);
      }
      Commit(a, before, h);
      if referenced != Some(false) {
        outcome := Conclude(if referenced.None? then Failing(m, ListFailed) else Failing(m, StillReferenced));
      } else if !m.finalizer {
        outcome := Released;
      } else {
        outcome := RemoveFinalizer(m);
      }
      if a.members.Some? { CheckStays(fold, start, was, run, i, a); }
    }

    /** removeFinalizer; a claim that is being deleted is gone with it. */
    method RemoveFinalizer(m: Memory) returns (outcome: Outcome)
      requires Live() && phase == Releasing(m)
      modifies this
      ensures Valid() && (if outcome.Killed? then script == [] else phase.Idle?) && old(run) <= run
      ensures outcome.Errored? || outcome.Killed? || outcome.Released?
    {
      var alive, a := Await();
      if !alive { return Killed; }
      ghost var before, h := Own(), harbor;
      if !a.write.Rejected? { finalizer := false; gone := deleting; }
      Commit(a, before, h);
      return if a.write.Applied? then Released else Errored;
    }

    /** getHarborClientForObject, as far as the claim's status is concerned. */
    method Bind(m: Memory) returns (alive: bool, next: Phase)
      requires Live() && phase == Binding(m)
      modifies this
      ensures Live() && (!alive ==> script == [])
      ensures alive ==> phase == next && (next.Listing? || next.Failing?)
    {
      next := Idle;
      var a;
      alive, a := Await();
      if !alive { return; }
      ghost var before, h := Own(), harbor;
      if m.status.base.binding.Some? {
        next := Listing(m);
      } else if a.binding.None? {
        next := Failing(m, ListFailed);
      } else {
        var mem := m.(status := m.status.(base := m.status.base.(binding := a.binding)));
        var ok := UpdateStatus(mem.status, a.write);
        next := if ok then Listing(mem) else Failing(mem, ListFailed);
      }
      Commit(a, before, h);
    }

    /** ListUserGroups and findUserGroup; answers that are no listing of Harbor's groups are passed over. */
    method Search(m: Memory, again: bool) returns (alive: bool, next: Phase)
      requires Live() && phase == if again then Relisting(m) else Listing(m)
      modifies this
      ensures Live() && (!alive ==> script == [])
      ensures alive ==> phase == next && (next.Failing? || next.Recording? || (!again && next == Creating(m)))
    {
      next := Idle;
      while true
        invariant Live() && phase == if again then Relisting(m) else Listing(m)
        decreases |script|
      {
        var a;
        alive, a := Await();
        if !alive { return; }
        ghost var before, h := Own(), harbor;
        if a.listing.None? {
          next := Failing(m, ListFailed);
          Commit(a, before, h);
          return;
        }
        if Shows(a.listing.value, harbor.groups) {
          var r := FindUserGroup(fold, a.listing.value, want);
          next := match r
            case Found(id) => if id == 0 then Failing(m, NoId) else Recording(m, id)
            case Clash => Failing(m, Incompatible)
            case Absent => if again then Failing(m, NoCompatible) else Creating(m);
          Commit(a, before, h);
          return;
        }
        Commit(a, before, h);
      }
    }

    /** CreateUserGroup; ids Harbor could not hand out are passed over. */
    method CreateGroup(m: Memory) returns (alive: bool, next: Phase)
      requires Live() && phase == Creating(m)
      modifies this
      ensures Live() && (!alive ==> script == [])
      ensures alive ==> phase == next && (next.Failing? || next.Recording? || next == Relisting(m))
    {
      next := Idle;
      while true
        invariant Live() && phase == Creating(m)
        decreases |script|
      {
        var a;
        alive, a := Await();
        if !alive { return; }
        ghost var before, h := Own(), harbor;
        if a.fate.Refused? {
          next := Failing(m, CreateFailed);
        } else if NameTaken(fold, harbor.groups, want) {
          next := if a.fate.Lost? then Failing(m, CreateFailed) else Relisting(m);
        } else if a.newId == 0 || IdTaken(harbor.groups, a.newId) {
          Commit(a, before, h);
          continue;
        } else {
          var g := Group(a.newId, want.name, want.kind, want.dn);
          harbor := Harbor(harbor.groups + {g}, harbor.created + [g]);
          next := if a.fate.Lost? then Failing(m, CreateFailed) else Recording(m, a.newId);
        }
        Commit(a, before, h);
        return;
      }
    }

    /** setReadyStatus or setErrorStatus: the write is sent only when the conditions change. */
    method Conclude(p: Phase) returns (outcome: Outcome)
      requires Live() && phase == p && (p.Recording? || p.Failing?)
      modifies this
      ensures Live() && (if outcome.Killed? then script == [] else phase.Idle?)
      ensures old(run) <= run && finalizer == old(finalizer)
      ensures outcome.Killed? || outcome.Errored? || (p.Recording? && outcome == Recorded(p.id))
      ensures outcome.Recorded? && Lasting(run) ==> KeptId(outcome.id)
    {
      var alive, a := Await();
      if !alive { return Killed; }
      ghost var before, h, was := Own(), harbor, run;
      var base := if p.Recording? then MarkReady(p.mem.status.base, p.mem.generation, Reconciled, TEXT)
                  else MarkError(p.mem.status.base, p.mem.generation, a.message);
      var ok := true;
      var id := if p.Recording? then p.id else p.mem.status.id;
      if base != p.mem.status.base { ok := UpdateStatus(Status(base, id), a.write); }
      Commit(a, before, h);
      if p.Recording? && ok && Lasting(run) {
        assert ClaimOk(fold, h.groups, before) && Consistent(fold, h.groups) by {
          assert run[..|was|] == was && Lasting(was);
          RunKeepsInv(fold, start, was);
          assert World(h, others[i := before]).claims[i] == before;
        }
        ConcludingRecords(fold, h.groups, before, a);
      }
      return if p.Recording? && ok then Recorded(p.id) else Errored;
    }

    /**
     Reconcile; while no outsider deletes groups, one that succeeds has the group's id stored and is Ready. The claim
     is released or gone only after a clear member check of this reconcile.
     */
    method Reconcile() returns (outcome: Outcome)
      requires Live() && phase.Idle?
      modifies this
      ensures Valid() && (if outcome.Killed? then script == [] else phase.Idle?)
      ensures outcome.Released? || gone ==> Checked(old(run), false)
      ensures outcome.Recorded? && Lasting(run) ==> KeptId(outcome.id)
    {
      var alive, a := Await();
      if !alive { return Killed; }
      ghost var before, h := Own(), harbor;
      var mem := Memory(generation, deleting, finalizer, stored);
      Commit(a, before, h);
      var ok;
      alive, ok, mem := MarkReconcilingIfNeeded(mem);
      if !alive { return Killed; }
      if !ok { return Errored; }
      if mem.deleting {
        var referenced;
        outcome, referenced := Release(mem);
        return;
      }
      alive, ok, mem := EnsureFinalizer(mem);
      if !alive { return Killed; }
      if !ok { return Errored; }
      outcome := RegisterGroup(mem);
    }

    /** The part of Reconcile that talks to Harbor. */
    method RegisterGroup(mem: Memory) returns (outcome: Outcome)
      requires Live() && phase == Binding(mem)
      modifies this
      ensures Live() && !outcome.Released? && (if outcome.Killed? then script == [] else phase.Idle?)
      ensures outcome.Recorded? && Lasting(run) ==> KeptId(outcome.id)
    {
      var alive, p := Bind(mem);
      if !alive { return Killed; }
      if p.Listing? {
        alive, p := Search(p.mem, false);
        if !alive { return Killed; }
        if p.Creating? {
          alive, p := CreateGroup(p.mem);
          if !alive { return Killed; }
          if p.Relisting? {
            alive, p := Search(p.mem, true);
            if !alive { return Killed; }
          }
        }
      }
      outcome := Conclude(p);
    }
  }
}
