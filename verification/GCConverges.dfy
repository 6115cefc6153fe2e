/** Undisturbed reconciles of a GCSchedule: when every call succeeds, Harbor has accepted what was asked for. */
module GCConverges {
  import opened Values
  import opened Conditions
  import opened Schedules
  import opened GCSchedule
  import Connections
  import Singletons

  /** What the reconcile meets: its connection, and the outcome of its ownership check. */
  datatype Setting = Setting(link: Link, owns: bool)

  /** Every write lands and Harbor accepts every request. */
  ghost predicate Good(w: World, e: Event, s: Setting) {
    && e.Step? && e.answer.write.Applied? && e.answer.http.Acknowledged?
    && (w.phase.Connecting? ==> e.answer.link == s.link)
    && (w.phase.Owning? ==> Singletons.Owns(e.answer.check) == s.owns)
  }

  ghost predicate GoodRun(c: Config, w: World, run: seq<Event>, s: Setting) {
    forall n :: 0 <= n < |run| ==> Good(Exec(c, w, run[..n]), run[n], s)
  }

  /** The calls left at most. */
  function Rank(p: Phase): nat {
    match p
    case Idle => 0
    case Recording(_, _, _) => 1
    case Failing(_) => 1
    case Releasing(_) => 1
    case Sending(_) => 2
    case Owning(_) => 3
    case Holding(_) => 4
    case Connecting(_) => 5
    case Marking(_) => 6
  }

  /** The object keeps its spec and generation, and whether it is being deleted. */
  predicate SameRequest(start: World, w: World) {
    && w.obj.spec == start.obj.spec && w.obj.generation == start.obj.generation && w.obj.deleting == start.obj.deleting
    && !w.gone
  }

  /** Harbor holds what it held, and the stored hash is the one of the start. */
  predicate Untouched(start: World, w: World) {
    w.accepted == start.accepted && w.obj.status.hash == start.obj.status.hash
  }

  /** The schedule is to be sent, or found to be there: a live owner with a client and a spec that can be sent. */
  ghost predicate Applies(c: Config, start: World, s: Setting) {
    !start.obj.deleting && s.link.Connected? && s.owns && Sendable(c.lib, start.obj.spec)
  }

  predicate Goes(start: World, s: Setting) { start.obj.deleting && !s.link.Broken? }

  /** Where the reconcile stands: what it holds in memory is what is stored, and nothing was sent before its time. */
  ghost predicate OnTrack(c: Config, start: World, w: World, s: Setting) {
    && SameRequest(start, w) && StatusOk(w.obj.status) && (w.obj.deleting ==> w.obj.finalizer)
    && match w.phase
       case Idle => false
       case Marking(mem) => mem == w.obj && Untouched(start, w) && w.obj.finalizer == start.obj.finalizer
       case Connecting(mem) => mem == w.obj && Untouched(start, w) && w.obj.finalizer == start.obj.finalizer
       case Releasing(mem) => mem == w.obj && Untouched(start, w) && Goes(start, s)
       case Failing(mem) =>
         && mem == w.obj && Untouched(start, w) && !Goes(start, s) && !Applies(c, start, s)
         && w.obj.finalizer == (start.obj.finalizer || s.link.Connected?)
       case Recording(mem, sent, created) =>
         && Applies(c, start, s) && w.obj.finalizer
         && mem == w.obj.(status := w.obj.status.(hash := mem.status.hash)) && mem.status.hash == HashOf(c, mem.spec)
         && (created <==> w.obj.status.hash == "") && w.obj.status.hash == start.obj.status.hash
         && (!sent ==> mem == w.obj && Untouched(start, w))
         && (sent ==> w.accepted == Some(start.obj.spec) && start.obj.status.hash != mem.status.hash)
       case _ =>
         && w.phase.mem == w.obj && Untouched(start, w) && !w.obj.deleting && s.link.Connected?
         && (w.phase.Owning? || w.phase.Sending? ==> w.obj.finalizer) && (w.phase.Sending? ==> s.owns)
  }

  /**
   A deleted resource is gone and Harbor's schedule left as it was, unless its connection cannot be read. A live one
   that owns its Harbor and can be sent is Ready with its own hash on record, and was sent unless that hash was on
   record before. Any other one is kept, is not Ready, and nothing was sent for it.
   */
  ghost predicate EndsWell(c: Config, start: World, w: World, s: Setting) {
    if Goes(start, s) then w.gone && w.accepted == start.accepted
    else
      && !w.gone && (IsReady(w.obj.status.base) <==> Applies(c, start, s))
      && w.obj.finalizer == (start.obj.finalizer || s.link.Connected?)
      && w.obj.status.base.observedGeneration == start.obj.generation
      && if Applies(c, start, s) then
           && w.obj.status.hash == HashOf(c, start.obj.spec)
           && w.obj.status.base.marks.ready.value.reason
                == (if start.obj.status.hash == "" then Created else Reconciled)
           && w.accepted
                == (if start.obj.status.hash == w.obj.status.hash then start.accepted else Some(start.obj.spec))
         else Untouched(start, w)
  }

  ghost predicate Progress(c: Config, start: World, p: Phase, v: World, s: Setting) {
    Rank(v.phase) < Rank(p) && if v.phase.Idle? then EndsWell(c, start, v, s) else OnTrack(c, start, v, s)
  }

  lemma MarkStepOn(c: Config, start: World, w: World, e: Event, s: Setting)
    requires OnTrack(c, start, w, s) && Good(w, e, s) && w.phase.Marking?
    ensures Progress(c, start, w.phase, Next(c, w, e), s)
  {
  }

  lemma ConnectStepOn(c: Config, start: World, w: World, e: Event, s: Setting)
    requires OnTrack(c, start, w, s) && Good(w, e, s)
    requires w.phase.Connecting? || w.phase.Holding? || w.phase.Releasing?
    ensures Progress(c, start, w.phase, Next(c, w, e), s)
  {
  }

  lemma SendStepOn(c: Config, start: World, w: World, e: Event, s: Setting)
    requires OnTrack(c, start, w, s) && Good(w, e, s) && (w.phase.Owning? || w.phase.Sending?)
    requires forall x :: c.hash(x) != ""
    ensures Progress(c, start, w.phase, Next(c, w, e), s)
  {
  }

  lemma EndStepOn(c: Config, start: World, w: World, e: Event, s: Setting)
    requires OnTrack(c, start, w, s) && Good(w, e, s) && (w.phase.Recording? || w.phase.Failing?)
    ensures Progress(c, start, w.phase, Next(c, w, e), s)
  {
  }

  lemma TrackStep(c: Config, start: World, w: World, e: Event, s: Setting)
    requires OnTrack(c, start, w, s) && Good(w, e, s) && forall x :: c.hash(x) != ""
    ensures Progress(c, start, w.phase, Next(c, w, e), s)
  {
    match w.phase
    case Marking(_) => MarkStepOn(c, start, w, e, s);
    case Owning(_) => SendStepOn(c, start, w, e, s);
    case Sending(_) => SendStepOn(c, start, w, e, s);
    case Recording(_, _, _) => EndStepOn(c, start, w, e, s);
    case Failing(_) => EndStepOn(c, start, w, e, s);
    case _ => ConnectStepOn(c, start, w, e, s);
  }

  // ---------- whole reconciles ----------

  /** A stored resource that is being deleted has its finalizer, and only its own deletion takes that away. */
  predicate Held(w: World) {
    && (w.obj.deleting && !w.gone ==> w.obj.finalizer)
    && (!w.phase.Idle? && w.phase.mem.deleting ==> w.obj.deleting) && (w.phase.Releasing? ==> w.phase.mem.deleting)
  }

  lemma StepHolds(c: Config, w: World, e: Event)
    requires Held(w)
    ensures Held(Next(c, w, e))
  {
    if e.Step? {
      match w.phase
      case Marking(mem) => MarkHolds(w, mem, e.answer.write);
      case Connecting(mem) => ConnectHolds(w, mem, e.answer);
      case _ =>
    }
  }

  lemma MarkHolds(w: World, mem: Object, write: Write)
    requires Held(w) && (mem.deleting ==> w.obj.deleting)
    ensures Held(MarkStep(w, mem, write))
  {
  }

  lemma ConnectHolds(w: World, mem: Object, a: Answer)
    requires Held(w) && (mem.deleting ==> w.obj.deleting)
    ensures Held(ConnectStep(w, mem, a.link, a.write))
  {
  }

  lemma {:induction false} DeletingIsHeld(c: Config, w: World, run: seq<Event>)
    requires Init(w)
    ensures Held(Exec(c, w, run))
  {
    if run != [] {
      DeletingIsHeld(c, w, run[..|run| - 1]);
      StepHolds(c, Exec(c, w, run[..|run| - 1]), run[|run| - 1]);
    }
  }

  /** The reconcile has ended well within n steps. */
  ghost predicate EndedBy(c: Config, w: World, run: seq<Event>, n: nat, s: Setting)
    requires n <= |run|
  {
    exists m: nat :: 0 < m <= n && Exec(c, w, run[..m]).phase.Idle? && EndsWell(c, w, Exec(c, w, run[..m]), s)
  }

  lemma TrackBegins(c: Config, w: World, e: Event, s: Setting)
    requires Held(w) && StatusOk(w.obj.status) && w.phase.Idle? && !w.gone && e.Step?
    ensures OnTrack(c, w, Next(c, w, e), s) && Rank(Next(c, w, e).phase) == 6
  {
  }

  lemma StepOfRun(c: Config, w: World, run: seq<Event>, n: nat)
    requires 0 < n <= |run|
    ensures Exec(c, w, run[..n]) == Next(c, Exec(c, w, run[..n - 1]), run[n - 1])
  {
    assert run[..n][..n - 1] == run[..n - 1];
  }

  lemma ProgressCounts(c: Config, w: World, run: seq<Event>, n: nat, p: Phase, s: Setting)
    requires 0 < n <= |run| && Progress(c, w, p, Exec(c, w, run[..n]), s)
    ensures var v := Exec(c, w, run[..n]);
            EndedBy(c, w, run, n, s) || (OnTrack(c, w, v, s) && 0 < Rank(v.phase) < Rank(p))
  {
  }

  lemma {:induction false} OnTheWay(c: Config, w: World, run: seq<Event>, n: nat, s: Setting)
    requires Held(w) && StatusOk(w.obj.status) && w.phase.Idle? && !w.gone && (forall x :: c.hash(x) != "")
    requires GoodRun(c, w, run, s) && 0 < n <= |run|
    ensures var v := Exec(c, w, run[..n]);
            EndedBy(c, w, run, n, s) || (OnTrack(c, w, v, s) && 0 < Rank(v.phase) <= 7 - n)
  {
    var u := Exec(c, w, run[..n - 1]);
    assert Good(u, run[n - 1], s);
    StepOfRun(c, w, run, n);
    if n == 1 {
      TrackBegins(c, w, run[0], s);
    } else {
      OnTheWay(c, w, run, n - 1, s);
      if !EndedBy(c, w, run, n - 1, s) {
        assert Progress(c, w, u.phase, Exec(c, w, run[..n]), s) by { TrackStep(c, w, u, run[n - 1], s); }
        ProgressCounts(c, w, run, n, u.phase, s);
      }
    }
  }

  /** From every reachable state between two reconciles, an undisturbed one is over after seven calls, and ends well. */
  lemma ReconcileConverges(c: Config, w: World, past: seq<Event>, run: seq<Event>, s: Setting)
    requires Init(w) && Collisionless(c)
    requires var v := Exec(c, w, past); v.phase.Idle? && !v.gone && GoodRun(c, v, run, s) && |run| == 7
    ensures EndedBy(c, Exec(c, w, past), run, 7, s)
  {
    var v := Exec(c, w, past);
    assert Held(v) by { DeletingIsHeld(c, w, past); }
    assert StatusOk(v.obj.status) by { RunKeepsInv(c, w, past); }
    OnTheWay(c, v, run, 7, s);
  }
}
