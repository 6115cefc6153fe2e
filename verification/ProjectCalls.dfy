/** Single calls of the Project machine: which writes and requests take effect, and what the operator makes of them. */
module ProjectCalls {
  import opened Values
  import opened Connections
  import opened Conditions
  import opened ProjectMachine
  import opened ProjectInvariants

  /** The object's own policy decides; without one the operator's default does, and without that it is Create. */
  lemma PolicyOf(options: Options, policy: Option<CreationPolicy>)
    ensures policy.Some? ==> Effective(options, policy) == policy.value
    ensures policy.None? && options.defaultPolicy.Some? ==> Effective(options, policy) == options.defaultPolicy.value
    ensures policy.None? && options.defaultPolicy.None? ==> Effective(options, policy).Create?
  {
  }

  /** What one landed write may do: take the object away, or change its status or finalizer under the next version. */
  predicate Written(rv: nat, o: Object, after: Option<Object>) {
    && o.rv == rv
    && (after.Some? ==>
          after.value == o.(status := after.value.status, finalizer := after.value.finalizer, rv := rv + 1))
    && (after.None? ==> o.deleting)
  }

  /** Either nothing was stored, or a write that was not rejected found the version it was made for. */
  predicate Checked(w: World, rv: nat, fate: Write, after: Option<Object>) {
    after == w.obj || (!fate.Rejected? && w.obj.Some? && Written(rv, w.obj.value, after))
  }

  lemma StatusChecked(w: World, mem: Object, fate: Write)
    ensures Checked(w, mem.rv, fate, WriteStatus(w, mem, fate).obj)
  {
  }

  lemma FinalizerChecked(w: World, mem: Object, present: bool, fate: Write)
    ensures Checked(w, mem.rv, fate, WriteFinalizer(w, mem, present, fate).obj)
  {
  }

  lemma MarkedChecked(w: World, mem: Object, base: Base, fate: Write)
    ensures Checked(w, mem.rv, fate, MarkedWrite(w, mem, base, fate).obj)
  {
    StatusChecked(w, mem.(status := mem.status.(base := base)), fate);
  }

  /** The frames whose next call writes the object. */
  predicate Writes(f: Frame) {
    f.Marking? || f.Binding? || f.Releasing? || f.Holding? || f.RecordingAdoption? || Concludes(f)
  }

  /** The frames whose next call writes the final status. */
  predicate Concludes(f: Frame) { f.Publishing? || f.Forgetting? || f.Failing? }

  lemma OthersWriteNothing(c: Config, s: Sys, a: Answer)
    requires !Writes(s.frame)
    ensures OperatorStep(c, s, a).world.obj == s.world.obj
  {
  }

  lemma EarlyChecked(c: Config, s: Sys, a: Answer)
    requires Writes(s.frame) && !Concludes(s.frame)
    ensures Checked(s.world, s.frame.mem.rv, a.write, OperatorStep(c, s, a).world.obj)
  {
    var w, mem := s.world, s.frame.mem;
    var base := MarkReconciling(mem.status.base, mem.generation, Unspecified, "");
    StatusChecked(w, if s.frame.Marking? then mem.(status := mem.status.(base := base)) else mem, a.write);
    FinalizerChecked(w, mem, s.frame.Holding?, a.write);
  }

  lemma LateChecked(c: Config, s: Sys, a: Answer)
    requires Concludes(s.frame)
    ensures Checked(s.world, s.frame.mem.rv, a.write, OperatorStep(c, s, a).world.obj)
  {
    var w := s.world;
    match s.frame
    case Publishing(mem, reason, message) =>
      MarkedChecked(w, mem, MarkReady(mem.status.base, mem.generation, reason, message), a.write);
    case Forgetting(mem) =>
      var base := MarkReconciling(mem.status.base, mem.generation, NotFound, "Project not found in Harbor");
      MarkedChecked(w, mem, base, a.write);
    case Failing(mem) => MarkedChecked(w, mem, MarkError(mem.status.base, mem.generation, a.message), a.write);
  }

  /** A step changes the stored object only if it is still the version that was read, and not by a rejected write. */
  lemma WritesAreChecked(c: Config, s: Sys, a: Answer)
    requires OperatorStep(c, s, a).world.obj != s.world.obj
    ensures !a.write.Rejected? && !s.frame.Idle? && s.world.obj.Some?
    ensures Written(s.frame.mem.rv, s.world.obj.value, OperatorStep(c, s, a).world.obj)
  {
    if !Writes(s.frame) { OthersWriteNothing(c, s, a); }
    else if Concludes(s.frame) { LateChecked(c, s, a); }
    else { EarlyChecked(c, s, a); }
  }

  /** A write whose answer is lost leaves the same object in the store as an acknowledged one. */
  lemma LostAnswerStoresTheSame(c: Config, s: Sys, a: Answer)
    ensures OperatorStep(c, s, a.(write := Applied)).world == OperatorStep(c, s, a.(write := Unacknowledged)).world
  {
    if Writes(s.frame) { LostWriteStores(c, s, a); } else { OthersIgnoreWrites(c, s, a); }
  }

  lemma LostWriteStores(c: Config, s: Sys, a: Answer)
    requires Writes(s.frame)
    ensures OperatorStep(c, s, a.(write := Applied)).world == OperatorStep(c, s, a.(write := Unacknowledged)).world
  {
  }

  lemma OthersIgnoreWrites(c: Config, s: Sys, a: Answer)
    requires !Writes(s.frame)
    ensures OperatorStep(c, s, a.(write := Applied)).world == OperatorStep(c, s, a.(write := Unacknowledged)).world
  {
  }

  /** The operator does not go on after a write whose answer was lost. */
  lemma LostAnswerEnds(c: Config, s: Sys, a: Answer)
    requires a.write.Unacknowledged? && OperatorStep(c, s, a).world.obj != s.world.obj
    ensures var f := OperatorStep(c, s, a).frame; f.Idle? || f.Failing? || f.NoConnection?
  {
  }

  /** Edits and deletions are visible to the next reconcile and outdate every copy read before them. */
  lemma ChangesAreSeen(c: Config, s: Sys, e: Event)
    requires s.world.obj.Some? && !s.world.obj.value.deleting && (e.EditSpec? || e.DeleteObject?)
    ensures var o, after := s.world.obj.value, Step(c, s, e).world.obj;
            if e.DeleteObject? && !o.finalizer then after.None?
            else
              && after.Some? && after.value.rv > o.rv && after.value.generation > o.generation
              && after.value.status == o.status && after.value.finalizer == o.finalizer
              && after.value.deleting == e.DeleteObject?
              && after.value.spec == (if e.EditSpec? then e.spec else o.spec)
    ensures Step(c, s, e).frame == s.frame && Step(c, s, e).world.(obj := s.world.obj) == s.world
  {
  }

  /** Connections come with a new uid and go; Harbor's projects come with a new id and go; nothing else changes. */
  lemma OthersActFreely(c: Config, s: Sys, key: Key, connection: Connection, url: string, id: nat, name: string)
    ensures var t := Step(c, s, PutConnection(key, connection));
            && t.frame == s.frame && t.world.obj == s.world.obj && SameHarbor(s.world, t.world)
            && (key !in s.world.conns && connection.uid !in s.world.issued ==>
                  t.world.conns == s.world.conns[key := connection])
    ensures Step(c, s, DropConnection(key)) == s.(world := s.world.(conns := s.world.conns - {key}))
    ensures var t := Step(c, s, OutsiderCreates(url, id, name));
            && t.frame == s.frame && t.world.obj == s.world.obj && t.world.conns == s.world.conns
            && (id != 0 && (url, id) !in s.world.used ==> t.world.projects == s.world.projects[(url, id) := name])
    ensures (url, id) !in Step(c, s, OutsiderDeletes(url, id)).world.projects
  {
  }

  /** The reconcile learns that what it needs for a client does not exist: the connection, or its credentials. */
  predicate LearnsOfAbsence(c: Config, s: Sys, a: Answer) {
    || (s.frame.Resolving? && a.http.Delivered?
        && Resolve(s.world.options.forced, s.world.conns, c.namespace, s.frame.mem.spec.ref).Missing?)
    || (s.frame.Dialing? && a.dial.SecretMissing?)
  }

  /**
   Without a client the finalizer goes if and only if the object is being deleted as an orphan and what is missing does
   not exist; a connection that is refused, unreachable or not the bound one, or a failed read, ends in the error.
   */
  lemma OrphansGoExactlyWhenNothingIsThere(c: Config, s: Sys, a: Answer, b: Answer)
    requires (s.frame.Resolving? || s.frame.Dialing?) && OperatorStep(c, s, a).frame.NoConnection?
    ensures var mem := s.frame.mem;
            var t := OperatorStep(c, OperatorStep(c, s, a), b);
            && t.world == s.world
            && t.frame == if mem.deleting && mem.spec.deletion.Orphan? && LearnsOfAbsence(c, s, a) then Releasing(mem)
                          else Failing(mem)
  {
  }

  // ---------- requests to Harbor ----------

  predicate SameHarbor(w: World, v: World) { v.projects == w.projects && v.used == w.used }

  lemma DecidingUnprocessed(c: Config, w: World, mem: Object, url: string, a: Answer)
    requires a.http == Failed(false)
    ensures SameHarbor(w, DecideStep(c, w, mem, url, a).world)
  {
  }

  lemma WritesKeepHarbor(w: World, mem: Object, base: Base, present: bool, fate: Write)
    ensures SameHarbor(w, WriteStatus(w, mem, fate)) && SameHarbor(w, WriteFinalizer(w, mem, present, fate))
    ensures SameHarbor(w, MarkedWrite(w, mem, base, fate))
  {
  }

  /** A request that was not processed changes nothing in Harbor. */
  lemma UnprocessedChangesNothing(c: Config, s: Sys, a: Answer)
    requires a.http == Failed(false)
    ensures SameHarbor(s.world, OperatorStep(c, s, a).world)
  {
    var w := s.world;
    match s.frame
    case Idle =>
    case Marking(mem) =>
      var base := MarkReconciling(mem.status.base, mem.generation, Unspecified, "");
      WritesKeepHarbor(w, mem.(status := mem.status.(base := base)), base, true, a.write);
    case Deciding(mem, url) => DecidingUnprocessed(c, w, mem, url, a);
    case Publishing(mem, reason, message) =>
      WritesKeepHarbor(w, mem, MarkReady(mem.status.base, mem.generation, reason, message), true, a.write);
    case Forgetting(mem) =>
      var base := MarkReconciling(mem.status.base, mem.generation, NotFound, "Project not found in Harbor");
      WritesKeepHarbor(w, mem, base, true, a.write);
    case Failing(mem) =>
      WritesKeepHarbor(w, mem, MarkError(mem.status.base, mem.generation, a.message), true, a.write);
    case _ => WritesKeepHarbor(w, s.frame.mem, s.frame.mem.status.base, s.frame.Holding?, a.write);
  }

  /** A request whose answer was lost changes Harbor as a delivered one does. */
  lemma LostRequestsTakeEffect(c: Config, s: Sys, a: Answer)
    ensures SameHarbor(OperatorStep(c, s, a.(http := Delivered)).world,
                       OperatorStep(c, s, a.(http := Failed(true))).world)
  {
  }

  predicate Matches(c: Config, w: World, url: string, id: nat) {
    (url, id) in w.projects && c.fold(w.projects[(url, id)]) == c.fold(c.name)
  }

  /**
   An unrecorded object that may adopt searches once: it goes on with a project of its own name at its own URL, or with
   none if there is none there, and fails on any other answer.
   */
  lemma SearchFindsOnlyMatches(c: Config, s: Sys, a: Answer)
    requires s.frame.Adopting? && s.frame.mem.status.id == 0
    requires AllowsAdoption(Effective(s.world.options, s.frame.mem.spec.creation))
    ensures var t, mem, url := OperatorStep(c, s, a), s.frame.mem, s.frame.url;
            && t.world == s.world.(log := s.world.log + [FindRequest(url)])
            && (t.frame.RecordingAdoption? <==>
                  a.http.Delivered? && a.found.Some? && Matches(c, s.world, url, a.found.value))
            && (t.frame.RecordingAdoption? ==> t.frame.mem == mem.(status := mem.status.(id := a.found.value)))
            && (t.frame == Deciding(mem, url) <==>
                  && a.http.Delivered? && a.found.None?
                  && forall k :: k in s.world.projects && k.0 == url ==> !Matches(c, s.world, url, k.1))
            && (t.frame.RecordingAdoption? || t.frame.Deciding? || t.frame == Failing(mem))
  {
  }
}
