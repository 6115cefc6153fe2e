/** What holds over whole runs of the Project machine, from a fresh object and for every environment. */
module ProjectTheorems {
  import opened Values
  import opened Conditions
  import opened ProjectMachine
  import opened ProjectInvariants

  // ---------- recorded ids and skipped status writes ----------

  /** A stored status without an id is never Ready. */
  lemma UnrecordedIsNeverReady(c: Config, s: Sys, run: seq<Event>)
    requires Init(s)
    ensures var o := Exec(c, s, run).world.obj;
            o.Some? && o.value.status.id == 0 ==> !IsReady(o.value.status.base)
  {
    RunKeepsInv(c, s, run);
  }

  /** A status write that is skipped as unchanged, or acknowledged. */
  predicate WriteSettles(w: World, mem: Object, base: Base, fate: Write) {
    base == mem.status.base || WriteOk(w, mem, fate)
  }

  /** A reconcile that ends Ready leaves the id it worked with in the store, even when its last write is skipped. */
  lemma ReadyReconcileRecordsId(c: Config, s: Sys, run: seq<Event>, a: Answer)
    requires Init(s)
    requires var t := Exec(c, s, run);
             && t.frame.Publishing?
             && var m := t.frame.mem;
                WriteSettles(t.world, m, MarkReady(m.status.base, m.generation, t.frame.reason, t.frame.message),
                    a.write)
    ensures var t := Exec(c, s, run);
            var o := Step(c, t, Operator(a)).world.obj;
            && t.frame.mem.status.id != 0
            && o.Some? && o.value.status.id == t.frame.mem.status.id && IsReady(o.value.status.base)
  {
    RunKeepsInv(c, s, run);
  }

  /**
   Exactly when a remote 404 clears the stored id, for any policy and provided the write is not
   lost: when the stored marks are not already those of this 404.
   */
  lemma NotFoundClearsIdExactlyWhenUnmarked(c: Config, s: Sys, run: seq<Event>, a: Answer)
    requires Init(s)
    requires var t := Exec(c, s, run); t.frame.Forgetting? && WriteOk(t.world, t.frame.mem, a.write)
    ensures var t := Exec(c, s, run);
            var before := t.world.obj.value;
            var after := Step(c, t, Operator(a)).world.obj;
            && before.status.id != 0 && after.Some?
            && (after.value.status.id == 0 <==>
                  before.status.base != MarkReconciling(before.status.base, before.generation, NotFound,
                      "Project not found in Harbor"))
            && (after.value.status.id != 0 ==> after.value == before)
  {
    RunKeepsInv(c, s, run);
  }

  // ---------- fixed creation policies ----------

  predicate PolicyIs(w: World, spec: Spec, p: CreationPolicy) {
    Effective(w.options, spec.creation) == p
  }

  /** In every state of the run the stored object's effective creation policy is `p`. */
  ghost predicate RunHasPolicy(c: Config, s: Sys, run: seq<Event>, p: CreationPolicy) {
    forall k :: 0 <= k <= |run| ==>
      var w := Exec(c, s, run[..k]).world;
      w.obj.Some? ==> PolicyIs(w, w.obj.value.spec, p)
  }

  ghost predicate FrameHasPolicy(s: Sys, p: CreationPolicy) {
    !s.frame.Idle? ==> PolicyIs(s.world, s.frame.mem.spec, p)
  }

  lemma PolicyPrefix(c: Config, s: Sys, run: seq<Event>, p: CreationPolicy)
    requires run != [] && RunHasPolicy(c, s, run, p)
    ensures RunHasPolicy(c, s, run[..|run| - 1], p)
    ensures var w := Exec(c, s, run[..|run| - 1]).world; w.obj.Some? ==> PolicyIs(w, w.obj.value.spec, p)
    ensures var w := Exec(c, s, run).world; w.obj.Some? ==> PolicyIs(w, w.obj.value.spec, p)
  {
    var init := run[..|run| - 1];
    forall k | 0 <= k <= |init| ensures init[..k] == run[..k] { }
    assert run[..|run|] == run;
  }

  lemma StepKeepsFramePolicy(c: Config, s: Sys, e: Event, t: Sys, p: CreationPolicy)
    requires StepEffect(c, s, e, t)
    requires FrameHasPolicy(s, p) && (s.world.obj.Some? ==> PolicyIs(s.world, s.world.obj.value.spec, p))
    ensures FrameHasPolicy(t, p)
  {
  }

  lemma {:induction false} FrameKeepsPolicy(c: Config, s: Sys, run: seq<Event>, p: CreationPolicy)
    requires Init(s) && RunHasPolicy(c, s, run, p)
    ensures FrameHasPolicy(Exec(c, s, run), p)
  {
    if run != [] {
      var init, e := run[..|run| - 1], run[|run| - 1];
      PolicyPrefix(c, s, run, p);
      FrameKeepsPolicy(c, s, init, p);
      LastStep(c, s, run);
      StepKeepsFramePolicy(c, Exec(c, s, init), e, Exec(c, s, run), p);
    }
  }

  lemma StepUnderAdopt(c: Config, s: Sys, e: Event, t: Sys)
    requires StepEffect(c, s, e, t) && FrameHasPolicy(s, Adopt)
    requires forall r :: r in s.world.log ==> !r.CreateRequest?
    ensures forall r :: r in t.world.log ==> !r.CreateRequest?
  {
  }

  /** Under Adopt no create is ever sent. */
  lemma {:induction false} AdoptNeverCreates(c: Config, s: Sys, run: seq<Event>)
    requires Init(s) && RunHasPolicy(c, s, run, Adopt)
    ensures forall r :: r in Exec(c, s, run).world.log ==> !r.CreateRequest?
  {
    if run != [] {
      var init, e := run[..|run| - 1], run[|run| - 1];
      PolicyPrefix(c, s, run, Adopt);
      AdoptNeverCreates(c, s, init);
      FrameKeepsPolicy(c, s, init, Adopt);
      LastStep(c, s, run);
      StepUnderAdopt(c, Exec(c, s, init), e, Exec(c, s, run));
    }
  }

  // ---------- Create: only own ids ----------

  /** The id was returned by a create sent for this object. */
  ghost predicate Own(log: seq<Request>, id: nat) {
    exists i :: 0 <= i < |log| && log[i].CreateRequest? && log[i].returned == Some(id)
  }

  ghost predicate Touches(r: Request, id: nat) {
    (r.GetRequest? || r.UpdateRequest? || r.DeleteRequest?) && r.id == id
  }

  ghost predicate LogOwn(log: seq<Request>) {
    forall r, id :: r in log && Touches(r, id) ==> Own(log, id)
  }

  ghost predicate OwnInv(s: Sys) {
    var w := s.world;
    && LogOwn(w.log)
    && (w.obj.Some? ==>
          && (w.obj.value.status.id != 0 ==> Own(w.log, w.obj.value.status.id))
          && (MarkedNotFound(w.obj.value.status.base) ==> w.obj.value.status.id == 0))
    && !s.frame.RecordingAdoption?
    && (!s.frame.Idle? ==>
          var m := s.frame.mem;
          && (m.status.id != 0 ==> Own(w.log, m.status.id))
          && (!s.frame.Publishing? && MarkedNotFound(m.status.base) ==> m.status.id == 0))
  }

  lemma OwnGrows(log: seq<Request>, r: Request)
    ensures forall id :: Own(log, id) ==> Own(log + [r], id)
    ensures LogOwn(log) && (forall id :: Touches(r, id) ==> Own(log, id)) ==> LogOwn(log + [r])
    ensures r.CreateRequest? && r.returned.Some? ==> Own(log + [r], r.returned.value)
  {
    forall id: nat | Own(log, id) ensures Own(log + [r], id) {
      var i :| 0 <= i < |log| && log[i].CreateRequest? && log[i].returned == Some(id);
      assert (log + [r])[i] == log[i];
    }
    assert (log + [r])[|log|] == r;
  }

  lemma StepKeepsOwn(c: Config, s: Sys, e: Event, t: Sys)
    requires StepEffect(c, s, e, t) && Inv(s) && OwnInv(s) && FrameHasPolicy(s, Create)
    ensures OwnInv(t)
  {
    if t.world.log != s.world.log {
      var r :| t.world.log == s.world.log + [r] && SendEffect(c, s, t, r);
      OwnGrows(s.world.log, r);
    }
  }

  lemma {:induction false} RunKeepsOwn(c: Config, s: Sys, run: seq<Event>)
    requires Init(s) && RunHasPolicy(c, s, run, Create)
    ensures OwnInv(Exec(c, s, run))
  {
    if run != [] {
      var init, e := run[..|run| - 1], run[|run| - 1];
      PolicyPrefix(c, s, run, Create);
      RunKeepsOwn(c, s, init);
      FrameKeepsPolicy(c, s, init, Create);
      LastStep(c, s, run);
      StepKeepsOwn(c, Exec(c, s, init), e, Exec(c, s, run));
    }
  }

  /** Under Create every id that is recorded, read, updated or deleted came from this object's own creates. */
  lemma CreateTouchesOnlyOwnIds(c: Config, s: Sys, run: seq<Event>)
    requires Init(s) && RunHasPolicy(c, s, run, Create)
    ensures var w := Exec(c, s, run).world;
            && (forall r, id :: r in w.log && Touches(r, id) ==> Own(w.log, id))
            && (w.obj.Some? && w.obj.value.status.id != 0 ==> Own(w.log, w.obj.value.status.id))
  {
    RunKeepsOwn(c, s, run);
  }

  /** Under Create a remote 404 always clears the stored id: its write is never skipped. */
  lemma NotFoundClearsIdUnderCreate(c: Config, s: Sys, run: seq<Event>, a: Answer)
    requires Init(s) && RunHasPolicy(c, s, run, Create)
    requires var t := Exec(c, s, run); t.frame.Forgetting? && WriteOk(t.world, t.frame.mem, a.write)
    ensures var o := Step(c, Exec(c, s, run), Operator(a)).world.obj;
            o.Some? && o.value.status.id == 0 && MarkedNotFound(o.value.status.base)
  {
    var t := Exec(c, s, run);
    assert t.frame.mem.status.id == 0 && !MarkedNotFound(t.frame.mem.status.base) by {
      RunKeepsInv(c, s, run);
      RunKeepsOwn(c, s, run);
    }
  }

  // ---------- CreateOrAdopt: no duplicates ----------

  /** At most one project of each Harbor matches the object's name. */
  ghost predicate AtMostOneMatch(c: Config, w: World) {
    forall k, k' :: Match(c, w, k) && Match(c, w, k') && k.0 == k'.0 ==> k == k'
  }

  ghost predicate NoRival(c: Config, run: seq<Event>) {
    forall i :: 0 <= i < |run| && run[i].OutsiderCreates? ==> !SameName(c, run[i].name)
  }

  /** Before it creates, the reconcile has just seen that nothing matches. */
  ghost predicate UniqueInv(c: Config, s: Sys) {
    && AtMostOneMatch(c, s.world)
    && (s.frame.Deciding? && s.frame.mem.status.id == 0 ==> NoMatch(c, s.world, s.frame.url))
  }

  lemma StepKeepsUnique(c: Config, s: Sys, e: Event, t: Sys)
    requires StepEffect(c, s, e, t) && UniqueInv(c, s) && FrameHasPolicy(s, CreateOrAdopt) && Inv(s)
    requires e.OutsiderCreates? ==> !SameName(c, e.name)
    ensures UniqueInv(c, t)
  {
    if e.Operator? {
      assert AtMostOneMatch(c, t.world) by { OperatorKeepsUnique(c, s, t); }
    }
  }

  lemma OperatorKeepsUnique(c: Config, s: Sys, t: Sys)
    requires OperatorEffect(c, s, t) && UniqueInv(c, s)
    ensures AtMostOneMatch(c, t.world)
  {
    if t.world.projects != s.world.projects {
      var r :| t.world.log == s.world.log + [r] && SendEffect(c, s, t, r);
      if r.CreateRequest? {
        var id: nat :| (r.url, id) !in s.world.used && t.world.projects == s.world.projects[(r.url, id) := c.name];
        forall k | Match(c, t.world, k) ensures k == (r.url, id) || Match(c, s.world, k) { }
      } else {
        forall k | Match(c, t.world, k) ensures Match(c, s.world, k) { }
      }
    }
  }

  /** With no outsider creating a match, CreateOrAdopt never leaves two matching projects, whatever is lost. */
  lemma {:induction false} CreateOrAdoptNeverDuplicates(c: Config, s: Sys, run: seq<Event>)
    requires Init(s) && AtMostOneMatch(c, s.world)
    requires RunHasPolicy(c, s, run, CreateOrAdopt) && NoRival(c, run)
    ensures UniqueInv(c, Exec(c, s, run))
    ensures AtMostOneMatch(c, Exec(c, s, run).world)
  {
    if run != [] {
      var init := run[..|run| - 1];
      PolicyPrefix(c, s, run, CreateOrAdopt);
      CreateOrAdoptNeverDuplicates(c, s, init);
      FrameKeepsPolicy(c, s, init, CreateOrAdopt);
      LastStep(c, s, run);
      StepKeepsUnique(c, Exec(c, s, init), run[|run| - 1], Exec(c, s, run));
    }
  }

  // ---------- the connection binding ----------

  /** One moment of the object's life and a later one. */
  ghost predicate SameLife(w: World, v: World) {
    && (w.obj.None? ==> v.obj.None?)
    && (w.obj.Some? && v.obj.Some? && w.obj.value.status.base.binding.Some? ==>
          v.obj.value.status.base.binding == w.obj.value.status.base.binding)
    && w.log <= v.log
    && (forall u :: u in w.issued ==> u in v.issued && v.issued[u] == w.issued[u])
  }

  lemma StepKeepsLife(c: Config, s: Sys, e: Event, t: Sys)
    requires StepEffect(c, s, e, t)
    ensures SameLife(s.world, t.world)
  {
  }

  /** Once stored, a binding stays for the rest of the object's life, through edits, restarts and lost writes. */
  lemma {:induction false} BindingNeverChanges(c: Config, s: Sys, run: seq<Event>, k: nat)
    requires Init(s) && k <= |run|
    ensures SameLife(Exec(c, s, run[..k]).world, Exec(c, s, run).world)
  {
    if k == |run| {
      assert run[..k] == run;
    } else {
      var init := run[..|run| - 1];
      assert init[..k] == run[..k];
      BindingNeverChanges(c, s, init, k);
      LastStep(c, s, run);
      StepKeepsLife(c, Exec(c, s, init), run[|run| - 1], Exec(c, s, run));
    }
  }

  /**
   Every request ever sent for one object goes to one base URL: that of the connection uid in its
   stored binding, however often connections are deleted, recreated or swapped.
   */
  lemma OneBaseURL(c: Config, s: Sys, run: seq<Event>)
    requires Init(s)
    ensures var w := Exec(c, s, run).world;
            && (forall i, j :: 0 <= i < |w.log| && 0 <= j < |w.log| ==> w.log[i].url == w.log[j].url)
            && (w.obj.Some? && w.log != [] ==> HomeIs(w, w.obj.value.status, w.log[0].url))
  {
    RunKeepsInv(c, s, run);
    var w := Exec(c, s, run).world;
    forall i | 0 <= i < |w.log| ensures w.log[i].url == w.log[0].url { }
  }

  // ---------- finalizer and deletion ----------

  lemma DeletedBeforeRelease(s: Sys, url: string)
    requires Inv(s) && s.frame.Releasing? && s.world.obj.Some?
    requires var o := s.world.obj.value;
             s.frame.mem.rv == o.rv && o.spec.deletion.Delete? && o.status.id != 0 && HomeIs(s.world, o.status, url)
    ensures var o := s.world.obj.value;
            DeleteDone(s.world.log, url, o.status.id) && (url, o.status.id) !in s.world.projects
  {
  }

  /**
   An object that disappears under Delete had its recorded id deleted, or reported gone, through the
   bound connection, and Harbor no longer holds that project.
   */
  lemma DisappearsOnlyAfterDelete(c: Config, s: Sys, run: seq<Event>, e: Event)
    requires Init(s)
    requires var w, v := Exec(c, s, run).world, Step(c, Exec(c, s, run), e).world;
             w.obj.Some? && v.obj.None? && w.obj.value.spec.deletion.Delete? && w.obj.value.status.id != 0
    ensures var w := Exec(c, s, run).world;
            var st := w.obj.value.status;
            exists url :: HomeIs(w, st, url) && DeleteDone(w.log, url, st.id) && (url, st.id) !in w.projects
  {
    RunKeepsInv(c, s, run);
    var t := Exec(c, s, run);
    var st := t.world.obj.value.status;
    var url := t.world.issued[st.base.binding.value.uid];
    StepKeepsInv(c, t, e);
    DeletedBeforeRelease(t, url);
  }

  ghost predicate AlwaysOrphan(c: Config, s: Sys, run: seq<Event>) {
    forall k :: 0 <= k <= |run| ==>
      var o := Exec(c, s, run[..k]).world.obj;
      o.Some? ==> o.value.spec.deletion.Orphan?
  }

  lemma OrphanPrefix(c: Config, s: Sys, run: seq<Event>)
    requires run != [] && AlwaysOrphan(c, s, run)
    ensures AlwaysOrphan(c, s, run[..|run| - 1])
    ensures var o := Exec(c, s, run[..|run| - 1]).world.obj; o.Some? ==> o.value.spec.deletion.Orphan?
  {
    var init := run[..|run| - 1];
    forall k | 0 <= k <= |init| ensures init[..k] == run[..k] { }
    assert run[..|init|] == init;
  }

  ghost predicate OrphanInv(s: Sys) {
    && (forall r :: r in s.world.log ==> !r.DeleteRequest?)
    && (!s.frame.Idle? ==> s.frame.mem.spec.deletion.Orphan?)
  }

  lemma StepKeepsOrphan(c: Config, s: Sys, e: Event, t: Sys)
    requires StepEffect(c, s, e, t) && OrphanInv(s)
    requires s.world.obj.Some? ==> s.world.obj.value.spec.deletion.Orphan?
    ensures OrphanInv(t)
  {
  }

  /** Under Orphan no delete is ever sent. */
  lemma {:induction false} OrphanNeverDeletes(c: Config, s: Sys, run: seq<Event>)
    requires Init(s) && AlwaysOrphan(c, s, run)
    ensures OrphanInv(Exec(c, s, run))
    ensures forall r :: r in Exec(c, s, run).world.log ==> !r.DeleteRequest?
  {
    if run != [] {
      var init, e := run[..|run| - 1], run[|run| - 1];
      OrphanPrefix(c, s, run);
      OrphanNeverDeletes(c, s, init);
      LastStep(c, s, run);
      StepKeepsOrphan(c, Exec(c, s, init), e, Exec(c, s, run));
    }
  }

  /** Every request, in particular every create, is sent while the finalizer is stored. */
  lemma NoRequestBeforeFinalizer(c: Config, s: Sys, run: seq<Event>, e: Event)
    requires Init(s)
    requires Step(c, Exec(c, s, run), e).world.log != Exec(c, s, run).world.log
    ensures var w := Exec(c, s, run).world; w.obj.Some? && w.obj.value.finalizer
  {
    RunKeepsInv(c, s, run);
    StepKeepsInv(c, Exec(c, s, run), e);
  }
}
