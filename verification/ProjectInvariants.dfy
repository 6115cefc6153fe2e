/** What every step of the Project machine keeps. */
module ProjectInvariants {
  import opened Values
  import opened Connections
  import opened Conditions
  import opened ProjectMachine

  /** The one base URL a recorded binding stands for. */
  ghost predicate HomeIs(w: World, st: Status, url: string) {
    && st.base.binding.Some?
    && st.base.binding.value.uid in w.issued
    && url == w.issued[st.base.binding.value.uid]
  }

  ghost predicate DeleteDone(log: seq<Request>, url: string, id: nat) {
    DeleteRequest(url, id, true) in log
  }

  ghost predicate WorldOk(w: World) {
    && (forall k :: k in w.conns ==>
        w.conns[k].uid in w.issued && w.issued[w.conns[k].uid] == TrimSlashes(w.conns[k].baseURL))
    && (forall k :: k in w.projects ==> k in w.used && k.1 > 0)
    && (forall i :: 0 <= i < |w.log| ==> w.log[i].url == w.log[0].url)
    && (forall url, id: nat :: DeleteDone(w.log, url, id) ==> (url, id) !in w.projects && (url, id) in w.used)
  }

  /** Facts about a recorded status, stored or in memory. */
  ghost predicate StatusOk(w: World, st: Status) {
    && (st.base.binding.None? ==> st.id == 0 && w.log == [])
    && (st.base.binding.Some? ==> st.base.binding.value.uid in w.issued)
    && (st.base.binding.Some? && w.log != [] ==> HomeIs(w, st, w.log[0].url))
    && (st.id != 0 ==> (w.issued[st.base.binding.value.uid], st.id) in w.used)
  }

  ghost predicate ObjectOk(w: World, o: Object) {
    && StatusOk(w, o.status)
    && (o.status.id == 0 ==> !IsReady(o.status.base))
    && (o.status.id != 0 ==> o.finalizer)
    && (o.deleting ==> o.finalizer)
    && (!o.finalizer ==> w.log == [])
  }

  ghost predicate StoreOk(w: World) {
    WorldOk(w) && (w.obj.Some? ==> ObjectOk(w, w.obj.value))
  }

  /** The in-memory copy agrees with the store up to version-visible edits; its status may be ahead. */
  ghost predicate Shadows(w: World, mem: Object) {
    && (mem.finalizer ==> w.obj.Some?)
    && (w.obj.Some? ==>
          var o := w.obj.value;
          && o.finalizer == mem.finalizer
          && mem.rv <= o.rv
          && (mem.rv == o.rv ==> o.(status := mem.status) == mem)
          && (o.status.base.binding.Some? ==> mem.status.base.binding == o.status.base.binding))
    && StatusOk(w, mem.status)
    && (mem.deleting ==> mem.finalizer)
    && (mem.status.id != 0 ==> mem.finalizer)
    && (!mem.finalizer ==> w.log == [])
  }

  ghost predicate Stored(w: World, st: Status) {
    w.obj.Some? ==> w.obj.value.status == st
  }

  ghost predicate Current(w: World, mem: Object) {
    Shadows(w, mem) && Stored(w, mem.status) && (mem.status.id == 0 ==> !IsReady(mem.status.base))
  }

  /** At each frame: how the in-memory copy relates to the store, and what was already achieved. */
  ghost predicate FrameOk(w: World, f: Frame) {
    match f
    case Idle => true
    case Marking(mem) => Current(w, mem)
    case Resolving(mem) => Current(w, mem)
    case Binding(mem, url) =>
      && Shadows(w, mem) && HomeIs(w, mem.status, url) && mem.status.id == 0 && w.log == []
      && Stored(w, mem.status.(base := mem.status.base.(binding := None)))
      && !IsReady(mem.status.base)
    case Dialing(mem, url) => Current(w, mem) && HomeIs(w, mem.status, url)
    case NoConnection(mem, _) => Shadows(w, mem)
    case Finalizing(mem, url) => Current(w, mem) && HomeIs(w, mem.status, url) && mem.deleting
    case Releasing(mem) =>
      && Shadows(w, mem) && mem.deleting
      && (mem.spec.deletion.Delete? ==>
            && Stored(w, mem.status)
            && (mem.status.id != 0 ==>
                  DeleteDone(w.log, w.issued[mem.status.base.binding.value.uid], mem.status.id)))
    case Holding(mem, url) => Current(w, mem) && HomeIs(w, mem.status, url) && !mem.finalizer && !mem.deleting
    case Adopting(mem, url) => Current(w, mem) && HomeIs(w, mem.status, url) && mem.finalizer
    case RecordingAdoption(mem, url) =>
      && Shadows(w, mem) && HomeIs(w, mem.status, url) && mem.finalizer && mem.status.id != 0
      && Stored(w, mem.status.(id := 0))
    case Deciding(mem, url) => Current(w, mem) && HomeIs(w, mem.status, url) && mem.finalizer
    case Comparing(mem, url) => Current(w, mem) && HomeIs(w, mem.status, url) && mem.finalizer && mem.status.id != 0
    case Publishing(mem, reason, _) =>
      && (reason.Created? || reason.Reconciled?) && Shadows(w, mem) && mem.finalizer && mem.status.id != 0
      && (Stored(w, mem.status) || Stored(w, mem.status.(id := 0)))
    case Forgetting(mem) =>
      && Shadows(w, mem) && mem.finalizer && mem.status.id == 0
      && (w.obj.Some? ==> w.obj.value.status.base == mem.status.base && w.obj.value.status.id != 0)
    case Failing(mem) => Shadows(w, mem)
  }

  ghost predicate Inv(s: Sys) {
    StoreOk(s.world) && FrameOk(s.world, s.frame)
  }

  lemma InitInv(s: Sys)
    requires Init(s)
    ensures Inv(s)
  {
  }

  // ---------- the environment ----------

  /** The store moves on without the running reconcile: edits keep status and finalizer and raise the version. */
  ghost predicate Advances(before: Option<Object>, after: Option<Object>) {
    || after == before
    || (after.None? && before.Some? && !before.value.finalizer)
    || (&& before.Some? && after.Some?
        && after.value.status == before.value.status
        && after.value.finalizer == before.value.finalizer
        && after.value.rv > before.value.rv)
  }

  /** Knowledge about uids and ids only grows; the requests sent stay as they are. */
  ghost predicate Grows(w: World, v: World) {
    && v.log == w.log && v.used >= w.used
    && (forall u :: u in w.issued ==> u in v.issued && v.issued[u] == w.issued[u])
  }

  lemma ShadowsPersists(w: World, v: World, mem: Object)
    requires Grows(w, v) && Advances(w.obj, v.obj)
    ensures Shadows(w, mem) ==> Shadows(v, mem)
    ensures Current(w, mem) ==> Current(v, mem)
    ensures forall url :: HomeIs(w, mem.status, url) ==> HomeIs(v, mem.status, url)
  {
  }

  lemma FramePersists(w: World, v: World, f: Frame)
    requires Grows(w, v) && Advances(w.obj, v.obj) && FrameOk(w, f)
    ensures FrameOk(v, f)
  {
    if !f.Idle? { ShadowsPersists(w, v, f.mem); }
  }

  /** What the environment may do to the world in one event. */
  ghost predicate Moves(c: Config, w: World, e: Event, v: World) {
    && StoreOk(v) && Grows(w, v) && Advances(w.obj, v.obj) && (!e.Restart? ==> v.options == w.options)
    && (forall k :: Match(c, v, k) && !Match(c, w, k) ==> e.OutsiderCreates? && SameName(c, e.name))
  }

  lemma ObjectMoves(c: Config, w: World, e: Event)
    requires StoreOk(w) && (e.EditSpec? || e.DeleteObject?)
    ensures Moves(c, w, e, Step(c, Sys(w, Idle), e).world)
  {
    var v := Step(c, Sys(w, Idle), e).world;
    assert v == w.(obj := v.obj);
  }

  lemma PutMoves(c: Config, w: World, key: Key, connection: Connection)
    requires StoreOk(w)
    ensures Moves(c, w, PutConnection(key, connection), PutConnectionStep(w, key, connection))
  {
    var v := PutConnectionStep(w, key, connection);
    assert v == w.(conns := v.conns, issued := v.issued);
    assert Grows(w, v) && WorldOk(v);
  }

  lemma DropMoves(c: Config, w: World, key: Key)
    requires StoreOk(w)
    ensures Moves(c, w, DropConnection(key), w.(conns := w.conns - {key}))
  {
    assert WorldOk(w.(conns := w.conns - {key}));
  }

  lemma CreationMoves(c: Config, w: World, url: string, id: nat, name: string)
    requires StoreOk(w)
    ensures Moves(c, w, OutsiderCreates(url, id, name), OutsiderCreatesStep(w, url, id, name))
  {
    var v := OutsiderCreatesStep(w, url, id, name);
    assert v == w.(projects := v.projects, used := v.used);
    assert WorldOk(v);
  }

  lemma DeletionMoves(c: Config, w: World, url: string, id: nat)
    requires StoreOk(w)
    ensures Moves(c, w, OutsiderDeletes(url, id), w.(projects := w.projects - {(url, id)}))
  {
    assert WorldOk(w.(projects := w.projects - {(url, id)}));
  }

  lemma EnvironmentKeepsInv(c: Config, s: Sys, e: Event)
    requires Inv(s) && !e.Operator?
    ensures Inv(Step(c, s, e))
    ensures EnvironmentEffect(c, s, e, Step(c, s, e))
  {
    var t := Step(c, s, e);
    assert t.world == Step(c, Sys(s.world, Idle), e).world;
    assert Moves(c, s.world, e, t.world) by {
      if e.EditSpec? || e.DeleteObject? { ObjectMoves(c, s.world, e); }
      else if e.PutConnection? { PutMoves(c, s.world, e.key, e.connection); }
      else if e.DropConnection? { DropMoves(c, s.world, e.key); }
      else if e.OutsiderCreates? { CreationMoves(c, s.world, e.url, e.id, e.name); }
      else if e.OutsiderDeletes? { DeletionMoves(c, s.world, e.url, e.id); }
    }
    if !e.Restart? { FramePersists(s.world, t.world, s.frame); }
  }

  // ---------- what one operator step can do ----------

  ghost predicate Match(c: Config, w: World, k: (string, nat)) {
    k in w.projects && SameName(c, w.projects[k])
  }

  ghost predicate NoMatch(c: Config, w: World, url: string) {
    forall k :: Match(c, w, k) ==> k.0 != url
  }

  predicate MarkedNotFound(b: Base) {
    b.marks.ready.Some? && b.marks.ready.value.reason.NotFound?
  }

  /** A request, the frame that sends it, and its effect on Harbor. */
  ghost predicate SendEffect(c: Config, s: Sys, t: Sys, r: Request) {
    var w, v, f := s.world, t.world, s.frame;
    match r
    case FindRequest(url) => f.Adopting? && url == f.url && v.projects == w.projects && v.used == w.used
    case CreateRequest(url, returned) =>
      && f.Deciding? && url == f.url && f.mem.status.id == 0
      && AllowsCreation(Effective(w.options, f.mem.spec.creation))
      && (|| (v.projects == w.projects && v.used == w.used)
          || (exists id: nat :: (url, id) !in w.used && v.used == w.used + {(url, id)}
                                && v.projects == w.projects[(url, id) := c.name]))
      && (if returned.Some? then t.frame.Publishing? && t.frame.mem.status.id == returned.value else t.frame.Failing?)
    case GetRequest(url, id) =>
      f.Deciding? && id == f.mem.status.id != 0 && v.projects == w.projects && v.used == w.used
    case UpdateRequest(url, id, _) =>
      f.Comparing? && id == f.mem.status.id && v.projects == w.projects && v.used == w.used
    case DeleteRequest(url, id, done) =>
      && f.Finalizing? && id == f.mem.status.id != 0 && f.mem.spec.deletion.Delete?
      && (forall k :: k in v.projects ==> k in w.projects && v.projects[k] == w.projects[k]) && v.used == w.used
  }

  /** The stored object after a step: disappearance, the binding, and where a written status comes from. */
  ghost predicate ObjectEffect(w: World, f: Frame, v: World) {
    && (w.obj.None? ==> v.obj.None?)
    && (w.obj.Some? && v.obj.None? ==> f.Releasing? && f.mem.rv == w.obj.value.rv)
    && (w.obj.Some? && v.obj.Some? ==>
          var before, after := w.obj.value.status, v.obj.value.status;
          && v.obj.value.spec == w.obj.value.spec
          && (before.base.binding.Some? ==> after.base.binding == before.base.binding)
          && (after != before ==>
                && !f.Idle? && after.id == f.mem.status.id
                && (MarkedNotFound(after.base) ==>
                      f.Forgetting? || f.RecordingAdoption? || (f.Binding? && after.base == f.mem.status.base))))
  }

  /** The in-memory copy after a step. */
  ghost predicate MemoryEffect(c: Config, s: Sys, t: Sys) {
    var w, f, g := s.world, s.frame, t.frame;
    if g.Idle? then true
    else if f.Idle? then w.obj.Some? && g == Marking(w.obj.value)
    else
      && g.mem.spec == f.mem.spec && !f.Publishing?
      && (MarkedNotFound(g.mem.status.base) ==> MarkedNotFound(f.mem.status.base))
      && (g.mem.status.id != f.mem.status.id ==> g.Publishing? || g.Forgetting? || g.RecordingAdoption?)
      && (g.Publishing? ==>
            || (f.Comparing? && g.mem == f.mem)
            || (&& f.Deciding? && |t.world.log| == |w.log| + 1
                && t.world.log[|w.log|].CreateRequest? && t.world.log[|w.log|].returned == Some(g.mem.status.id)))
      && (g.Comparing? || g.Forgetting? ==> f.Deciding?)
      && (g.Forgetting? ==> g.mem.status.id == 0 && g.mem.status.base == f.mem.status.base)
      && (g.RecordingAdoption? ==> f.Adopting? && AllowsAdoption(Effective(w.options, f.mem.spec.creation)))
      && (g.Deciding? ==>
            || f.RecordingAdoption?
            || (f.Adopting? && g == Deciding(f.mem, f.url) &&
                  (f.mem.status.id == 0 && AllowsAdoption(Effective(w.options, f.mem.spec.creation)) ==>
                      NoMatch(c, t.world, g.url))))
  }

  ghost predicate OperatorEffect(c: Config, s: Sys, t: Sys) {
    var w, v := s.world, t.world;
    && v == w.(obj := v.obj, log := v.log, projects := v.projects, used := v.used)
    && (if v.log == w.log then v.projects == w.projects && v.used == w.used
        else exists r :: v.log == w.log + [r] && SendEffect(c, s, t, r))
    && ObjectEffect(w, s.frame, v)
    && MemoryEffect(c, s, t)
  }

  // ---------- the operator ----------

  /** A version-checked status write of a faithful copy; when acknowledged the copy is current again. */
  lemma WriteKeeps(w: World, mem: Object, fate: Write)
    requires StoreOk(w) && Shadows(w, mem) && (mem.status.id == 0 ==> !IsReady(mem.status.base))
    ensures var v := WriteStatus(w, mem, fate);
            && StoreOk(v) && Shadows(v, mem)
            && (WriteOk(w, mem, fate) ==> v.obj == Some(mem.(rv := mem.rv + 1)) && Current(v, mem.(rv := mem.rv + 1)))
            && (forall url :: HomeIs(w, mem.status, url) ==> HomeIs(v, mem.status, url))
  {
  }

  /** A request to the bound base URL that deletes nothing. */
  lemma SendKeeps(w: World, mem: Object, r: Request)
    requires StoreOk(w) && Shadows(w, mem) && HomeIs(w, mem.status, r.url) && mem.finalizer
    requires w.obj.Some? ==> w.obj.value.status.base == mem.status.base
    requires !r.DeleteRequest?
    ensures var v := w.(log := w.log + [r]);
            && StoreOk(v) && Shadows(v, mem) && HomeIs(v, mem.status, r.url)
            && (Current(w, mem) ==> Current(v, mem))
  {
    var v := w.(log := w.log + [r]);
    forall url, id: nat | DeleteDone(v.log, url, id) ensures DeleteDone(w.log, url, id) { }
  }

  lemma MarkKeeps(c: Config, w: World, mem: Object, a: Answer)
    requires StoreOk(w) && FrameOk(w, Marking(mem))
    ensures var t := MarkStep(w, mem, a); Inv(t) && OperatorEffect(c, Sys(w, Marking(mem)), t)
  {
    if mem.status.base.observedGeneration != mem.generation {
      var m := mem.(status := mem.status.(base := MarkReconciling(mem.status.base, mem.generation, Unspecified, "")));
      WriteKeeps(w, m, a.write);
    }
  }

  lemma ResolveKeeps(c: Config, w: World, mem: Object, a: Answer)
    requires StoreOk(w) && FrameOk(w, Resolving(mem))
    ensures var t := ResolveStep(c, w, mem, a); Inv(t) && OperatorEffect(c, Sys(w, Resolving(mem)), t)
  {
    ResolvesToIssued(w, c.namespace, mem.spec.ref);
    var t := ResolveStep(c, w, mem, a);
    assert t.world == w;
    if t.frame.Binding? {
      assert Shadows(w, t.frame.mem) by { assert w.log == [] && mem.status.id == 0; }
    }
  }

  /** What resolution returns is a uid that was issued, with its base URL. */
  lemma ResolvesToIssued(w: World, namespace: string, ref: Option<Ref>)
    requires WorldOk(w)
    ensures var r := Resolve(w.options.forced, w.conns, namespace, ref);
            r.Found? ==> r.binding.uid in w.issued && w.issued[r.binding.uid] == TrimSlashes(r.url)
  {
  }

  lemma BindKeeps(c: Config, w: World, mem: Object, url: string, a: Answer)
    requires StoreOk(w) && FrameOk(w, Frame.Binding(mem, url))
    ensures var t := BindStep(w, mem, url, a); Inv(t) && OperatorEffect(c, Sys(w, Frame.Binding(mem, url)), t)
  {
    WriteKeeps(w, mem, a.write);
  }

  lemma DialKeeps(c: Config, w: World, mem: Object, url: string, a: Answer)
    requires StoreOk(w) && FrameOk(w, Dialing(mem, url))
    ensures var t := DialStep(w, mem, url, a); Inv(t) && OperatorEffect(c, Sys(w, Dialing(mem, url)), t)
  {
    DialFrame(w, mem, url, a);
    DialEffect(c, w, mem, url, a);
  }

  lemma DialFrame(w: World, mem: Object, url: string, a: Answer)
    requires FrameOk(w, Dialing(mem, url))
    ensures var t := DialStep(w, mem, url, a); t.world == w && FrameOk(w, t.frame)
  {
  }

  lemma DialEffect(c: Config, w: World, mem: Object, url: string, a: Answer)
    ensures OperatorEffect(c, Sys(w, Dialing(mem, url)), DialStep(w, mem, url, a))
  {
  }

  lemma NoConnectionKeeps(c: Config, w: World, mem: Object, notFound: bool)
    requires StoreOk(w) && FrameOk(w, NoConnection(mem, notFound))
    ensures var t := NoConnectionStep(w, mem, notFound);
            Inv(t) && OperatorEffect(c, Sys(w, NoConnection(mem, notFound)), t)
  {
  }

  lemma FinalizeKeeps(c: Config, w: World, mem: Object, url: string, a: Answer)
    requires StoreOk(w) && FrameOk(w, Finalizing(mem, url))
    ensures var t := FinalizeStep(w, mem, url, a); Inv(t) && OperatorEffect(c, Sys(w, Finalizing(mem, url)), t)
  {
    FinalizeStore(w, mem, url, a);
    FinalizeFrame(w, mem, url, a);
    FinalizeEffect(c, w, mem, url, a);
  }

  lemma FinalizeStore(w: World, mem: Object, url: string, a: Answer)
    requires StoreOk(w) && FrameOk(w, Finalizing(mem, url))
    ensures StoreOk(FinalizeStep(w, mem, url, a).world)
  {
    var v := FinalizeStep(w, mem, url, a).world;
    forall u, id: nat | DeleteDone(v.log, u, id) && (u, id) != (url, mem.status.id) ensures DeleteDone(w.log, u, id) { }
  }

  lemma FinalizeFrame(w: World, mem: Object, url: string, a: Answer)
    requires StoreOk(w) && FrameOk(w, Finalizing(mem, url))
    ensures var t := FinalizeStep(w, mem, url, a); FrameOk(t.world, t.frame)
  {
  }

  lemma FinalizeEffect(c: Config, w: World, mem: Object, url: string, a: Answer)
    ensures OperatorEffect(c, Sys(w, Finalizing(mem, url)), FinalizeStep(w, mem, url, a))
  {
    var t := FinalizeStep(w, mem, url, a);
    if t.world.log != w.log {
      assert SendEffect(c, Sys(w, Finalizing(mem, url)), t, DeleteRequest(url, mem.status.id, a.http.Delivered?));
    }
  }

  lemma ReleaseKeeps(c: Config, w: World, mem: Object, a: Answer)
    requires StoreOk(w) && FrameOk(w, Releasing(mem))
    ensures var t := ReleaseStep(w, mem, a); Inv(t) && OperatorEffect(c, Sys(w, Releasing(mem)), t)
  {
  }

  lemma HoldKeeps(c: Config, w: World, mem: Object, url: string, a: Answer)
    requires StoreOk(w) && FrameOk(w, Holding(mem, url))
    ensures var t := HoldStep(w, mem, url, a); Inv(t) && OperatorEffect(c, Sys(w, Holding(mem, url)), t)
  {
  }

  lemma AdoptKeeps(c: Config, w: World, mem: Object, url: string, a: Answer)
    requires StoreOk(w) && FrameOk(w, Adopting(mem, url))
    ensures var t := AdoptStep(c, w, mem, url, a); Inv(t) && OperatorEffect(c, Sys(w, Adopting(mem, url)), t)
  {
    AdoptInv(c, w, mem, url, a);
    AdoptEffect(c, w, mem, url, a);
  }

  lemma AdoptInv(c: Config, w: World, mem: Object, url: string, a: Answer)
    requires StoreOk(w) && FrameOk(w, Adopting(mem, url))
    ensures Inv(AdoptStep(c, w, mem, url, a))
  {
    SendKeeps(w, mem, FindRequest(url));
  }

  lemma AdoptEffect(c: Config, w: World, mem: Object, url: string, a: Answer)
    ensures OperatorEffect(c, Sys(w, Adopting(mem, url)), AdoptStep(c, w, mem, url, a))
  {
    var t := AdoptStep(c, w, mem, url, a);
    if t.world.log != w.log { assert SendEffect(c, Sys(w, Adopting(mem, url)), t, FindRequest(url)); }
  }

  lemma RecordAdoptionKeeps(c: Config, w: World, mem: Object, url: string, a: Answer)
    requires StoreOk(w) && FrameOk(w, RecordingAdoption(mem, url))
    ensures var t := RecordAdoptionStep(w, mem, url, a);
            Inv(t) && OperatorEffect(c, Sys(w, RecordingAdoption(mem, url)), t)
  {
    WriteKeeps(w, mem, a.write);
  }

  lemma CreateKeeps(c: Config, w: World, mem: Object, url: string, a: Answer)
    requires StoreOk(w) && FrameOk(w, Deciding(mem, url)) && mem.status.id == 0
    requires AllowsCreation(Effective(w.options, mem.spec.creation))
    ensures var t := CreateStep(c, w, mem, url, a); Inv(t) && OperatorEffect(c, Sys(w, Deciding(mem, url)), t)
  {
    CreateInv(c, w, mem, url, a);
    CreateEffect(c, w, mem, url, a);
  }

  lemma CreateInv(c: Config, w: World, mem: Object, url: string, a: Answer)
    requires StoreOk(w) && FrameOk(w, Deciding(mem, url)) && mem.status.id == 0
    ensures Inv(CreateStep(c, w, mem, url, a))
  {
    var t := CreateStep(c, w, mem, url, a);
    var r := t.world.log[|w.log|];
    SendKeeps(w, mem, r);
    CreatedWorld(c, w.(log := w.log + [r]), t.world, mem, url, a.newId);
    if t.frame.Publishing? { RecordedShadows(t.world, mem, url, a.newId); }
  }

  /** The project of a processed create, or none of an unprocessed one, is all that is new. */
  lemma CreatedWorld(c: Config, w: World, v: World, mem: Object, url: string, id: nat)
    requires StoreOk(w) && Current(w, mem) && HomeIs(w, mem.status, url)
    requires || v == w
             || (id > 0 && (url, id) !in w.used
                 && v == w.(projects := w.projects[(url, id) := c.name], used := w.used + {(url, id)}))
    ensures StoreOk(v) && Current(v, mem) && HomeIs(v, mem.status, url)
  {
    CreationMoves(c, w, url, id, c.name);
    ShadowsPersists(w, v, mem);
  }

  /** Noting an id that Harbor handed out keeps the copy a shadow of the store. */
  lemma RecordedShadows(w: World, mem: Object, url: string, id: nat)
    requires Shadows(w, mem) && HomeIs(w, mem.status, url) && mem.finalizer && (url, id) in w.used
    ensures Shadows(w, mem.(status := mem.status.(id := id)))
  {
  }

  lemma CreateEffect(c: Config, w: World, mem: Object, url: string, a: Answer)
    requires mem.status.id == 0 && AllowsCreation(Effective(w.options, mem.spec.creation))
    ensures OperatorEffect(c, Sys(w, Deciding(mem, url)), CreateStep(c, w, mem, url, a))
  {
    var t := CreateStep(c, w, mem, url, a);
    assert SendEffect(c, Sys(w, Deciding(mem, url)), t, t.world.log[|w.log|]);
  }

  lemma DecideKeeps(c: Config, w: World, mem: Object, url: string, a: Answer)
    requires StoreOk(w) && FrameOk(w, Deciding(mem, url))
    ensures var t := DecideStep(c, w, mem, url, a); Inv(t) && OperatorEffect(c, Sys(w, Deciding(mem, url)), t)
  {
    if a.payloadOk && mem.status.id == 0 && AllowsCreation(Effective(w.options, mem.spec.creation)) {
      CreateKeeps(c, w, mem, url, a);
    } else if a.payloadOk && mem.status.id != 0 {
      GetKeeps(c, w, mem, url, a);
    }
  }

  lemma GetKeeps(c: Config, w: World, mem: Object, url: string, a: Answer)
    requires StoreOk(w) && FrameOk(w, Deciding(mem, url)) && mem.status.id != 0
    ensures var t := GetStep(w, mem, url, a); Inv(t) && OperatorEffect(c, Sys(w, Deciding(mem, url)), t)
  {
    GetKeepsInv(w, mem, url, a);
    GetEffect(c, w, mem, url, a);
  }

  lemma GetKeepsInv(w: World, mem: Object, url: string, a: Answer)
    requires StoreOk(w) && FrameOk(w, Deciding(mem, url)) && mem.status.id != 0
    ensures Inv(GetStep(w, mem, url, a))
  {
    var r := GetRequest(url, mem.status.id);
    SendKeeps(w, mem, r);
    ForgottenShadows(w.(log := w.log + [r]), mem);
  }

  /** Clearing the id in memory keeps the copy a shadow of the store. */
  lemma ForgottenShadows(w: World, mem: Object)
    requires Shadows(w, mem)
    ensures Shadows(w, mem.(status := mem.status.(id := 0)))
  {
  }

  lemma GetEffect(c: Config, w: World, mem: Object, url: string, a: Answer)
    requires mem.status.id != 0
    ensures OperatorEffect(c, Sys(w, Deciding(mem, url)), GetStep(w, mem, url, a))
  {
    var t := GetStep(w, mem, url, a);
    assert t.world.log == w.log + [GetRequest(url, mem.status.id)];
    assert SendEffect(c, Sys(w, Deciding(mem, url)), t, GetRequest(url, mem.status.id));
  }

  lemma CompareKeeps(c: Config, w: World, mem: Object, url: string, a: Answer)
    requires StoreOk(w) && FrameOk(w, Comparing(mem, url))
    ensures var t := CompareStep(w, mem, url, a); Inv(t) && OperatorEffect(c, Sys(w, Comparing(mem, url)), t)
  {
    SendKeeps(w, mem, UpdateRequest(url, mem.status.id, a.http.Delivered? && (url, mem.status.id) in w.projects));
  }

  /** The three marking writes that end a reconcile. */
  lemma MarkedWriteKeeps(w: World, mem: Object, base: Base, fate: Write)
    requires StoreOk(w) && Shadows(w, mem) && base.binding == mem.status.base.binding
    requires mem.status.id == 0 ==> !IsReady(base)
    ensures StoreOk(MarkedWrite(w, mem, base, fate))
  {
    WriteKeeps(w, mem.(status := mem.status.(base := base)), fate);
  }

  lemma PublishKeeps(c: Config, w: World, mem: Object, reason: Reason, message: string, a: Answer)
    requires StoreOk(w) && FrameOk(w, Publishing(mem, reason, message))
    ensures var t := PublishStep(w, mem, reason, message, a);
            Inv(t) && OperatorEffect(c, Sys(w, Publishing(mem, reason, message)), t)
  {
    MarkedWriteKeeps(w, mem, MarkReady(mem.status.base, mem.generation, reason, message), a.write);
  }

  lemma ForgetKeeps(c: Config, w: World, mem: Object, a: Answer)
    requires StoreOk(w) && FrameOk(w, Forgetting(mem))
    ensures var t := ForgetStep(w, mem, a); Inv(t) && OperatorEffect(c, Sys(w, Forgetting(mem)), t)
  {
    MarkedWriteKeeps(w, mem, MarkReconciling(mem.status.base, mem.generation, NotFound, "Project not found in Harbor"),
        a.write);
  }

  lemma FailKeeps(c: Config, w: World, mem: Object, a: Answer)
    requires StoreOk(w) && FrameOk(w, Failing(mem))
    ensures var t := FailStep(w, mem, a); Inv(t) && OperatorEffect(c, Sys(w, Failing(mem)), t)
  {
    MarkedWriteKeeps(w, mem, MarkError(mem.status.base, mem.generation, a.message), a.write);
  }

  predicate BeforeAdoption(f: Frame) {
    f.Marking? || f.Resolving? || f.Binding? || f.Dialing? || f.NoConnection? || f.Finalizing? || f.Releasing?
        || f.Holding?
  }

  lemma EarlyStepsKeepInv(c: Config, s: Sys, a: Answer)
    requires Inv(s) && BeforeAdoption(s.frame)
    ensures var t := OperatorStep(c, s, a); Inv(t) && OperatorEffect(c, s, t)
  {
    var w := s.world;
    match s.frame
    case Marking(mem) => MarkKeeps(c, w, mem, a);
    case Resolving(mem) => ResolveKeeps(c, w, mem, a);
    case Binding(mem, url) => BindKeeps(c, w, mem, url, a);
    case Dialing(mem, url) => DialKeeps(c, w, mem, url, a);
    case NoConnection(mem, notFound) => NoConnectionKeeps(c, w, mem, notFound);
    case Finalizing(mem, url) => FinalizeKeeps(c, w, mem, url, a);
    case Releasing(mem) => ReleaseKeeps(c, w, mem, a);
    case Holding(mem, url) => HoldKeeps(c, w, mem, url, a);
  }

  lemma LateStepsKeepInv(c: Config, s: Sys, a: Answer)
    requires Inv(s) && !s.frame.Idle? && !BeforeAdoption(s.frame)
    ensures var t := OperatorStep(c, s, a); Inv(t) && OperatorEffect(c, s, t)
  {
    var w := s.world;
    match s.frame
    case Adopting(mem, url) => AdoptKeeps(c, w, mem, url, a);
    case RecordingAdoption(mem, url) => RecordAdoptionKeeps(c, w, mem, url, a);
    case Deciding(mem, url) => DecideKeeps(c, w, mem, url, a);
    case Comparing(mem, url) => CompareKeeps(c, w, mem, url, a);
    case Publishing(mem, reason, message) => PublishKeeps(c, w, mem, reason, message, a);
    case Forgetting(mem) => ForgetKeeps(c, w, mem, a);
    case Failing(mem) => FailKeeps(c, w, mem, a);
  }

  /** What the environment cannot touch, and how the rest may move. */
  ghost predicate EnvironmentEffect(c: Config, s: Sys, e: Event, t: Sys) {
    var w, v := s.world, t.world;
    && v.log == w.log && Grows(w, v)
    && (t.frame.Idle? || (t.frame == s.frame && v.options == w.options))
    && Advances(w.obj, v.obj)
    && (forall k :: Match(c, v, k) && !Match(c, w, k) ==> e.OutsiderCreates? && SameName(c, e.name))
  }

  ghost predicate StepEffect(c: Config, s: Sys, e: Event, t: Sys) {
    if e.Operator? then OperatorEffect(c, s, t) else EnvironmentEffect(c, s, e, t)
  }

  lemma StepKeepsInv(c: Config, s: Sys, e: Event)
    requires Inv(s)
    ensures Inv(Step(c, s, e)) && StepEffect(c, s, e, Step(c, s, e))
  {
    if !e.Operator? { EnvironmentKeepsInv(c, s, e); }
    else if BeforeAdoption(s.frame) { EarlyStepsKeepInv(c, s, e.answer); }
    else if !s.frame.Idle? { LateStepsKeepInv(c, s, e.answer); }
  }

  /** The invariant holds after every run. */
  lemma {:induction false} RunKeepsInv(c: Config, s: Sys, run: seq<Event>)
    requires Init(s)
    ensures Inv(Exec(c, s, run))
  {
    if run == [] {
      InitInv(s);
    } else {
      RunKeepsInv(c, s, run[..|run| - 1]);
      StepKeepsInv(c, Exec(c, s, run[..|run| - 1]), run[|run| - 1]);
    }
  }

  lemma LastStep(c: Config, s: Sys, run: seq<Event>)
    requires Init(s) && run != []
    ensures var init, e := run[..|run| - 1], run[|run| - 1];
            Inv(Exec(c, s, init)) && StepEffect(c, Exec(c, s, init), e, Exec(c, s, run))
  {
    RunKeepsInv(c, s, run[..|run| - 1]);
    StepKeepsInv(c, Exec(c, s, run[..|run| - 1]), run[|run| - 1]);
  }
}
