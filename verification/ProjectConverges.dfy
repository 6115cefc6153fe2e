/**
 Undisturbed reconciles: when every call succeeds and nobody interferes, a live object ends Ready with a project of its
 own in Harbor, and a deleted one ends gone, its project with it.
 */
module ProjectConverges {
  import opened Values
  import opened Connections
  import opened Conditions
  import opened ProjectMachine
  import opened ProjectInvariants

  /** Every call succeeds: writes land, Harbor answers truthfully, and a created project gets an unused id. */
  predicate Good(c: Config, s: Sys, e: Event) {
    && e.Operator? && e.answer.write.Applied? && e.answer.http.Delivered? && e.answer.dial.Connected?
    && e.answer.payloadOk
    && (s.frame.Adopting? ==> FindAnswerOk(c, s.world, s.frame.url, e.answer))
    && (s.frame.Deciding? ==> e.answer.newId > 0 && (s.frame.url, e.answer.newId) !in s.world.used)
  }

  ghost predicate GoodRun(c: Config, s: Sys, run: seq<Event>) {
    forall n :: 0 <= n < |run| ==> Good(c, Exec(c, s, run[..n]), run[n])
  }

  /** The client's URL, when the object's reference resolves to the connection it is bound to, or to its first one. */
  function Home(c: Config, w: World, o: Object): Option<string> {
    match Resolve(w.options.forced, w.conns, c.namespace, o.spec.ref)
    case Found(b, url) =>
      if o.status.base.binding.None? || o.status.base.binding == Some(b) then Some(TrimSlashes(url)) else None
    case _ => None
  }

  /** The calls left at most. */
  function Rank(f: Frame): nat {
    match f
    case Idle => 0
    case Publishing(_, _, _) => 1
    case Forgetting(_) => 1
    case Failing(_) => 1
    case Releasing(_) => 1
    case Comparing(_, _) => 2
    case Finalizing(_, _) => 2
    case NoConnection(_, _) => 2
    case Deciding(_, _) => 3
    case RecordingAdoption(_, _) => 4
    case Adopting(_, _) => 5
    case Holding(_, _) => 6
    case Dialing(_, _) => 7
    case Binding(_, _) => 8
    case Resolving(_) => 9
    case Marking(_) => 10
  }

  // ---------- a live object ----------

  /** Harbor holds a project the object may adopt. */
  ghost predicate Adoptable(c: Config, w: World, url: string) {
    exists k :: k in w.projects && k.0 == url && SameName(c, w.projects[k])
  }

  /** The recorded project exists, or there is none yet and the policy leads to one. */
  ghost predicate Obtainable(c: Config, w: World, o: Object, url: string) {
    var p := Effective(w.options, o.spec.creation);
    if o.status.id != 0 then (url, o.status.id) in w.projects
    else AllowsCreation(p) || (AllowsAdoption(p) && Adoptable(c, w, url))
  }

  /** Live, reachable through its connection, and with a project to be had. */
  ghost predicate Live(c: Config, w: World, url: string) {
    && w.obj.Some?
    && var o := w.obj.value;
       && !o.deleting && Home(c, w, o) == Some(url) && Obtainable(c, w, o, url)
       && (o.status.id == 0 ==> !IsReady(o.status.base)) && forall k :: k in w.projects ==> k.1 > 0
  }

  predicate Bound(o: Object) { o.status.base.binding.Some? }

  /** How far the reconcile of a live object has come: nothing it achieved is missing from the store. */
  ghost predicate LiveAt(c: Config, w: World, f: Frame, url: string) {
    && Live(c, w, url) && !f.Idle?
    && var o := w.obj.value;
       match f
       case Marking(mem) => mem == o
       case Resolving(mem) => mem == o
       case Binding(mem, u) => u == url && Bound(mem) && Home(c, w, mem) == Some(url) && !Bound(o)
           && mem == o.(status := mem.status) && mem.status == o.status.(base := mem.status.base)
           && mem.status.base == o.status.base.(binding := mem.status.base.binding)
       case Dialing(mem, u) => u == url && mem == o && Bound(o)
       case Holding(mem, u) => u == url && mem == o && Bound(o) && !o.finalizer
       case Adopting(mem, u) => u == url && mem == o && Bound(o) && o.finalizer
       case RecordingAdoption(mem, u) => u == url && Bound(o) && o.finalizer && (url, mem.status.id) in w.projects
           && mem.status.id != 0 && mem == o.(status := o.status.(id := mem.status.id))
       case Deciding(mem, u) => u == url && mem == o && Bound(o) && o.finalizer
           && (o.status.id == 0 ==> AllowsCreation(Effective(w.options, o.spec.creation)))
       case Comparing(mem, u) => u == url && mem == o && Bound(o) && o.finalizer && o.status.id != 0
       case Publishing(mem, reason, _) => Bound(o) && o.finalizer && (url, mem.status.id) in w.projects
           && mem.status.id != 0 && mem == o.(status := o.status.(id := mem.status.id))
           && (o.status.id == 0 || o.status.id == mem.status.id) && !reason.Unspecified?
       case _ => false
  }

  /** The object is Ready for its current spec, held and bound, and its recorded project exists. */
  predicate Settled(c: Config, w: World, url: string) {
    && w.obj.Some?
    && var o := w.obj.value;
       && IsReady(o.status.base) && o.status.base.observedGeneration == o.generation && o.finalizer && Bound(o)
       && o.status.id != 0 && (url, o.status.id) in w.projects
  }

  /** One good step of a live reconcile: one call nearer to its end, and at the end settled. */
  ghost predicate Nearer(c: Config, f: Frame, t: Sys, url: string) {
    && Rank(t.frame) < Rank(f)
    && if t.frame.Idle? then Settled(c, t.world, url) else LiveAt(c, t.world, t.frame, url)
  }

  lemma MarkNearer(c: Config, s: Sys, e: Event, url: string)
    requires LiveAt(c, s.world, s.frame, url) && Good(c, s, e) && s.frame.Marking?
    ensures Nearer(c, s.frame, Step(c, s, e), url)
  {
  }

  lemma ConnectNearer(c: Config, s: Sys, e: Event, url: string)
    requires LiveAt(c, s.world, s.frame, url) && Good(c, s, e)
    requires s.frame.Resolving? || s.frame.Binding? || s.frame.Dialing?
    ensures Nearer(c, s.frame, Step(c, s, e), url)
  {
  }

  lemma HoldNearer(c: Config, s: Sys, e: Event, url: string)
    requires LiveAt(c, s.world, s.frame, url) && Good(c, s, e) && s.frame.Holding?
    ensures Nearer(c, s.frame, Step(c, s, e), url)
  {
  }

  lemma AdoptNearer(c: Config, s: Sys, e: Event, url: string)
    requires LiveAt(c, s.world, s.frame, url) && Good(c, s, e) && (s.frame.Adopting? || s.frame.RecordingAdoption?)
    ensures Nearer(c, s.frame, Step(c, s, e), url)
  {
  }

  lemma DecideNearer(c: Config, s: Sys, e: Event, url: string)
    requires LiveAt(c, s.world, s.frame, url) && Good(c, s, e) && s.frame.Deciding?
    ensures Nearer(c, s.frame, Step(c, s, e), url)
  {
  }

  lemma EndNearer(c: Config, s: Sys, e: Event, url: string)
    requires LiveAt(c, s.world, s.frame, url) && Good(c, s, e) && (s.frame.Comparing? || s.frame.Publishing?)
    ensures Nearer(c, s.frame, Step(c, s, e), url)
  {
  }

  lemma LiveStep(c: Config, s: Sys, e: Event, url: string)
    requires LiveAt(c, s.world, s.frame, url) && Good(c, s, e)
    ensures Nearer(c, s.frame, Step(c, s, e), url)
  {
    match s.frame
    case Marking(_) => MarkNearer(c, s, e, url);
    case Holding(_, _) => HoldNearer(c, s, e, url);
    case Adopting(_, _) => AdoptNearer(c, s, e, url);
    case RecordingAdoption(_, _) => AdoptNearer(c, s, e, url);
    case Deciding(_, _) => DecideNearer(c, s, e, url);
    case Comparing(_, _) => EndNearer(c, s, e, url);
    case Publishing(_, _, _) => EndNearer(c, s, e, url);
    case _ => ConnectNearer(c, s, e, url);
  }

  // ---------- a deleted object ----------

  /** The requests sent and Harbor's projects are those of the start. */
  predicate Untouched(start: World, w: World) { w.projects == start.projects && w.log == start.log }

  /** Under the policy Delete the recorded project went, by one request; otherwise nothing did. */
  predicate Erased(start: World, w: World, url: string)
    requires start.obj.Some?
  {
    var o := start.obj.value;
    if o.spec.deletion.Delete? && o.status.id != 0 then
      w.projects == start.projects - {(url, o.status.id)}
          && w.log == start.log + [DeleteRequest(url, o.status.id, true)]
    else Untouched(start, w)
  }

  /** Being deleted and held, with the spec and the recorded id of the start. */
  predicate Doomed(start: World, w: World) {
    && start.obj.Some? && w.obj.Some?
    && var o := w.obj.value;
       o.deleting && o.finalizer && o.spec == start.obj.value.spec && o.status.id == start.obj.value.status.id
  }

  predicate DoomedAt(c: Config, start: World, w: World, f: Frame, url: string) {
    && Doomed(start, w) && Home(c, w, w.obj.value) == Some(url)
    && var o := w.obj.value;
       match f
       case Marking(mem) => mem == o && Untouched(start, w)
       case Resolving(mem) => mem == o && Untouched(start, w)
       case Binding(mem, u) => u == url && Untouched(start, w) && Home(c, w, mem) == Some(url)
           && mem == o.(status := mem.status) && mem.status.id == o.status.id
       case Dialing(mem, u) => u == url && mem == o && Untouched(start, w)
       case Finalizing(mem, u) => u == url && mem == o && Untouched(start, w)
       case Releasing(mem) => mem == o && Erased(start, w, url)
       case _ => false
  }

  lemma DoomedStep(c: Config, start: World, s: Sys, e: Event, url: string)
    requires DoomedAt(c, start, s.world, s.frame, url) && Good(c, s, e)
    ensures var t := Step(c, s, e);
            && Rank(t.frame) < Rank(s.frame)
            && if t.frame.Idle? then t.world.obj.None? && Erased(start, t.world, url)
               else DoomedAt(c, start, t.world, t.frame, url)
  {
  }

  // ---------- an object that gets no client ----------

  predicate Missed(c: Config, w: World, o: Object) {
    Resolve(w.options.forced, w.conns, c.namespace, o.spec.ref).Missing?
  }

  /** Orphaned with its connection: gone without a request. Everything else stays, and is not Ready. */
  predicate CutOff(c: Config, start: World, w: World)
    requires start.obj.Some?
  {
    var o := start.obj.value;
    && Untouched(start, w)
    && if o.deleting && o.spec.deletion.Orphan? && Missed(c, start, o) then w.obj.None?
       else w.obj.Some? && !IsReady(w.obj.value.status.base) && w.obj.value.finalizer == o.finalizer
                && w.obj.value.status.id == o.status.id
  }

  predicate CutAt(c: Config, start: World, w: World, f: Frame) {
    && start.obj.Some? && w.obj.Some? && w.conns == start.conns && w.options == start.options && Untouched(start, w)
    && var o, first := w.obj.value, start.obj.value;
       && Home(c, w, o).None? && (o.deleting ==> o.finalizer)
       && o.spec == first.spec && o.deleting == first.deleting && o.finalizer == first.finalizer
       && o.status.id == first.status.id
       && match f
          case Marking(mem) => mem == o
          case Resolving(mem) => mem == o
          case NoConnection(mem, notFound) => mem == o && notFound == Missed(c, start, o)
          case Releasing(mem) => mem == o && o.deleting && o.spec.deletion.Orphan? && Missed(c, start, o)
          case Failing(mem) => mem == o && !(o.deleting && o.spec.deletion.Orphan? && Missed(c, start, o))
          case _ => false
  }

  lemma CutStep(c: Config, start: World, s: Sys, e: Event)
    requires CutAt(c, start, s.world, s.frame) && Good(c, s, e)
    ensures var t := Step(c, s, e);
            && Rank(t.frame) < Rank(s.frame)
            && if t.frame.Idle? then CutOff(c, start, t.world) else CutAt(c, start, t.world, t.frame)
  {
  }

  // ---------- a live object without a project to be had ----------

  /** Nothing recorded that exists, and nothing the policy would lead to. */
  ghost predicate Lacking(c: Config, w: World, url: string) {
    && w.obj.Some?
    && var o := w.obj.value;
       !o.deleting && Home(c, w, o) == Some(url) && !Obtainable(c, w, o, url)
  }

  ghost predicate LackingAt(c: Config, start: World, w: World, f: Frame, url: string) {
    && Lacking(c, w, url) && w.projects == start.projects
    && var o := w.obj.value;
       match f
       case Marking(mem) => mem == o
       case Resolving(mem) => mem == o
       case Binding(mem, u) => u == url && Home(c, w, mem) == Some(url)
           && mem == o.(status := mem.status) && mem.status.id == o.status.id
       case Dialing(mem, u) => u == url && mem == o
       case Holding(mem, u) => u == url && mem == o
       case Adopting(mem, u) => u == url && mem == o
       case Deciding(mem, u) => u == url && mem == o
       case Forgetting(mem) => mem == o.(status := o.status.(id := 0))
       case Failing(mem) => mem == o
       case _ => false
  }

  /** Nothing was created, and the object is not Ready. */
  predicate Unmet(start: World, w: World) {
    w.projects == start.projects && w.obj.Some? && !IsReady(w.obj.value.status.base)
  }

  ghost predicate LackingNext(c: Config, start: World, f: Frame, t: Sys, url: string) {
    && Rank(t.frame) < Rank(f)
    && if t.frame.Idle? then Unmet(start, t.world) else LackingAt(c, start, t.world, t.frame, url)
  }

  lemma LackingMarks(c: Config, start: World, s: Sys, e: Event, url: string)
    requires LackingAt(c, start, s.world, s.frame, url) && Good(c, s, e) && s.frame.Marking?
    ensures LackingNext(c, start, s.frame, Step(c, s, e), url)
  {
  }

  lemma LackingConnects(c: Config, start: World, s: Sys, e: Event, url: string)
    requires LackingAt(c, start, s.world, s.frame, url) && Good(c, s, e)
    requires s.frame.Resolving? || s.frame.Binding? || s.frame.Dialing? || s.frame.Holding?
    ensures LackingNext(c, start, s.frame, Step(c, s, e), url)
  {
  }

  lemma LackingEnds(c: Config, start: World, s: Sys, e: Event, url: string)
    requires LackingAt(c, start, s.world, s.frame, url) && Good(c, s, e)
    requires s.frame.Adopting? || s.frame.Deciding? || s.frame.Forgetting? || s.frame.Failing?
    ensures LackingNext(c, start, s.frame, Step(c, s, e), url)
  {
  }

  lemma LackingStep(c: Config, start: World, s: Sys, e: Event, url: string)
    requires LackingAt(c, start, s.world, s.frame, url) && Good(c, s, e)
    ensures LackingNext(c, start, s.frame, Step(c, s, e), url)
  {
    match s.frame
    case Marking(_) => LackingMarks(c, start, s, e, url);
    case Resolving(_) => LackingConnects(c, start, s, e, url);
    case Binding(_, _) => LackingConnects(c, start, s, e, url);
    case Dialing(_, _) => LackingConnects(c, start, s, e, url);
    case Holding(_, _) => LackingConnects(c, start, s, e, url);
    case _ => LackingEnds(c, start, s, e, url);
  }

  // ---------- whole reconciles ----------

  /** How an undisturbed reconcile of this object ends. */
  ghost predicate EndsWell(c: Config, start: World, w: World)
    requires start.obj.Some?
  {
    var o := start.obj.value;
    match Home(c, start, o)
    case None => CutOff(c, start, w)
    case Some(url) =>
      if o.deleting then w.obj.None? && Erased(start, w, url)
      else if Obtainable(c, start, o, url) then Settled(c, w, url)
      else Unmet(start, w)
  }

  ghost predicate OnTrack(c: Config, start: World, s: Sys)
    requires start.obj.Some?
  {
    var o := start.obj.value;
    match Home(c, start, o)
    case None => CutAt(c, start, s.world, s.frame)
    case Some(url) =>
      if o.deleting then DoomedAt(c, start, s.world, s.frame, url)
      else if Obtainable(c, start, o, url) then LiveAt(c, s.world, s.frame, url)
      else LackingAt(c, start, s.world, s.frame, url)
  }

  /** One step brings the end nearer, or is the end. */
  ghost predicate Progress(c: Config, start: World, f: Frame, t: Sys)
    requires start.obj.Some?
  {
    && Rank(t.frame) < Rank(f)
    && if t.frame.Idle? then EndsWell(c, start, t.world) else OnTrack(c, start, t)
  }

  lemma TrackStep(c: Config, start: World, s: Sys, e: Event)
    requires start.obj.Some? && OnTrack(c, start, s) && Good(c, s, e)
    ensures Progress(c, start, s.frame, Step(c, s, e))
  {
    var o := start.obj.value;
    match Home(c, start, o)
    case None => CutStep(c, start, s, e);
    case Some(url) =>
      if o.deleting { DoomedStep(c, start, s, e, url); }
      else if Obtainable(c, start, o, url) { LiveStep(c, s, e, url); }
      else { LackingStep(c, start, s, e, url); }
  }

  lemma TrackBegins(c: Config, s: Sys, e: Event)
    requires Inv(s) && s.frame.Idle? && s.world.obj.Some? && e.Operator?
    ensures OnTrack(c, s.world, Step(c, s, e)) && Rank(Step(c, s, e).frame) == 10
  {
    assert Step(c, s, e) == Sys(s.world, Marking(s.world.obj.value));
  }

  /** The reconcile has ended well within n steps. */
  ghost predicate EndedBy(c: Config, s: Sys, run: seq<Event>, n: nat)
    requires s.world.obj.Some? && n <= |run|
  {
    exists m: nat :: 0 < m <= n && Exec(c, s, run[..m]).frame.Idle? && EndsWell(c, s.world, Exec(c, s, run[..m]).world)
  }

  lemma StepOfRun(c: Config, s: Sys, run: seq<Event>, n: nat)
    requires 0 < n <= |run|
    ensures Exec(c, s, run[..n]) == Step(c, Exec(c, s, run[..n - 1]), run[n - 1])
  {
    assert run[..n][..n - 1] == run[..n - 1];
  }

  lemma ProgressCounts(c: Config, s: Sys, run: seq<Event>, n: nat, f: Frame)
    requires s.world.obj.Some? && 0 < n <= |run| && Progress(c, s.world, f, Exec(c, s, run[..n]))
    ensures var t := Exec(c, s, run[..n]);
            EndedBy(c, s, run, n) || (OnTrack(c, s.world, t) && 0 < Rank(t.frame) < Rank(f))
  {
  }

  lemma {:induction false} OnTheWay(c: Config, s: Sys, run: seq<Event>, n: nat)
    requires Inv(s) && s.frame.Idle? && s.world.obj.Some? && GoodRun(c, s, run) && 0 < n <= |run|
    ensures var t := Exec(c, s, run[..n]);
            EndedBy(c, s, run, n) || (OnTrack(c, s.world, t) && 0 < Rank(t.frame) <= 11 - n)
  {
    var t, f := Exec(c, s, run[..n - 1]), Exec(c, s, run[..n - 1]).frame;
    assert Good(c, t, run[n - 1]);
    StepOfRun(c, s, run, n);
    if n == 1 {
      TrackBegins(c, s, run[0]);
    } else {
      OnTheWay(c, s, run, n - 1);
      if !EndedBy(c, s, run, n - 1) {
        assert Progress(c, s.world, f, Exec(c, s, run[..n])) by { TrackStep(c, s.world, t, run[n - 1]); }
        ProgressCounts(c, s, run, n, f);
      }
    }
  }

  /**
   From every reachable state between two reconciles: if the next eleven calls succeed and nobody interferes, the
   reconcile is over by then. A live object with a project to be had is Ready with that project recorded, one without is
   not Ready and nothing was created, a deleted one is gone and its project with it, and an object whose connection
   gives no client causes no request and is kept, unless it is orphaned together with a missing connection.
   */
  lemma ReconcileConverges(c: Config, s: Sys, past: seq<Event>, run: seq<Event>)
    requires Init(s)
    requires var t := Exec(c, s, past); t.frame.Idle? && t.world.obj.Some? && GoodRun(c, t, run) && |run| == 11
    ensures EndedBy(c, Exec(c, s, past), run, 11)
  {
    var t := Exec(c, s, past);
    assert Inv(t) by { RunKeepsInv(c, s, past); }
    OnTheWay(c, t, run, 11);
  }
}
