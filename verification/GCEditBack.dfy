/** A run without a failed call after which the operator takes the wrong schedule for applied. */
module GCEditBack {
  import opened Values
  import opened Conditions
  import opened Schedules
  import opened GCSchedule
  import Connections
  import Singletons

  const BOUND := Connections.Binding(Connections.Cluster, "harbor", "", 7)
  const GC :=
    Singletons.Item(Singletons.Name("team", "gc"), 1, false, Some(Connections.Ref("harbor", Connections.Cluster)))

  /** The only resource of its kind. */
  const ALONE := Singletons.Check(
    Singletons.Snapshot("", map[Connections.ClusterKey("harbor") := Connections.Connection(7, "https://harbor")], [GC]),
    {}, GC)
  const SMOOTH := Step(Answer(Applied, Acknowledged, Connected(BOUND), ALONE, ""))

  /** No call fails by itself and nothing crashes. */
  predicate AllSmooth(run: seq<Event>) { forall k :: 0 <= k < |run| ==> run[k] == SMOOTH || run[k].Edit? }

  ghost predicate Reaches(c: Config, s: World, t: World) { exists run :: AllSmooth(run) && Exec(c, s, run) == t }

  lemma ExecMore(c: Config, w: World, run: seq<Event>, e: Event)
    ensures Exec(c, w, run + [e]) == Next(c, Exec(c, w, run), e)
  {
    assert (run + [e])[..|run|] == run;
  }

  lemma Extend(c: Config, s: World, t: World, e: Event)
    requires Reaches(c, s, t) && (e == SMOOTH || e.Edit?)
    ensures Reaches(c, s, Next(c, t, e))
  {
    var run :| AllSmooth(run) && Exec(c, s, run) == t;
    assert AllSmooth(run + [e]);
    assert Exec(c, s, run + [e]) == Next(c, t, e) by { ExecMore(c, s, run, e); }
  }

  ghost function Steps(c: Config, w: World, n: nat): World { if n == 0 then w else Next(c, Steps(c, w, n - 1), SMOOTH) }

  lemma {:induction false} ExtendSteps(c: Config, s: World, t: World, n: nat)
    requires Reaches(c, s, t)
    ensures Reaches(c, s, Steps(c, t, n))
  {
    if n > 0 {
      ExtendSteps(c, s, t, n - 1);
      Extend(c, s, Steps(c, t, n - 1), SMOOTH);
    }
  }

  /** The object after markReconcilingIfNeeded has written. */
  function Marked(o: Object): Object {
    o.(rv := o.rv + 1, status := o.status.(base := MarkReconciling(o.status.base, o.generation, Unspecified, "")))
  }

  /** Stored, held and bound, between two reconciles, with an unobserved generation. */
  predicate Waiting(w: World) {
    && w.phase.Idle? && !w.gone && !w.obj.deleting && w.obj.finalizer
    && w.obj.status.base.binding.Some? && w.obj.status.base.observedGeneration != w.obj.generation
  }

  /** Load, mark, connect, hold, own: five calls up to the look at the hash. */
  lemma FiveSteps(c: Config, w: World)
    requires Waiting(w)
    ensures Steps(c, w, 5) == w.(obj := Marked(w.obj), phase := Sending(Marked(w.obj)))
  {
    var m := Marked(w.obj);
    var v := w.(obj := m);
    assert Steps(c, w, 1) == w.(phase := Marking(w.obj));
    assert Steps(c, w, 2) == MarkStep(w.(phase := Marking(w.obj)), w.obj, Applied) == v.(phase := Connecting(m));
    assert Steps(c, w, 3) == ConnectStep(v.(phase := Connecting(m)), m, Connected(BOUND), Applied)
        == v.(phase := Holding(m));
    assert Steps(c, w, 4) == v.(phase := Owning(m));
  }

  /** ... and send. */
  lemma SixSteps(c: Config, w: World)
    requires Waiting(w) && Sendable(c.lib, w.obj.spec) && w.obj.status.hash != ""
    requires w.obj.status.hash != HashOf(c, w.obj.spec)
    ensures var m := Marked(w.obj);
            Steps(c, w, 6) == World(m, false,
                Recording(m.(status := m.status.(hash := HashOf(c, m.spec))), true, false), Some(m.spec), false)
  {
    FiveSteps(c, w);
    var m := Marked(w.obj);
    assert Steps(c, w, 6) == SendStep(c, Steps(c, w, 5), m, Acknowledged);
  }

  const FRESH := Base(0, NO_MARKS, None)
  const MARKED := MarkReconciling(FRESH, 1, Unspecified, "")
  const TIED := MARKED.(binding := Some(BOUND))
  const READY := MarkReady(TIED, 1, Created, "GC schedule created")

  function Start(a: Spec): World { World(Object(0, 1, false, false, a, Status(FRESH, "")), false, Idle, None, true) }

  /** The first reconcile up to the look at the hash. */
  lemma FirstLook(c: Config, a: Spec)
    ensures var o := Object(3, 1, false, true, a, Status(TIED, ""));
            Steps(c, Start(a), 5) == World(o, false, Sending(o), None, true)
  {
    var w := Start(a);
    var o1 := w.obj.(rv := 1, status := Status(MARKED, ""));
    var o2 := o1.(rv := 2, status := Status(TIED, ""));
    assert Steps(c, w, 1) == w.(phase := Marking(w.obj));
    assert Steps(c, w, 2) == MarkStep(w.(phase := Marking(w.obj)), w.obj, Applied)
        == w.(obj := o1, phase := Connecting(o1));
    assert Steps(c, w, 3) == ConnectStep(w.(obj := o1, phase := Connecting(o1)), o1, Connected(BOUND), Applied)
                          == w.(obj := o2, phase := Holding(o2));
    var o3 := o2.(rv := 3, finalizer := true);
    assert Steps(c, w, 4) == w.(obj := o3, phase := Owning(o3));
  }

  /** The schedule of the first spec is created and recorded. */
  lemma FirstRound(c: Config, a: Spec)
    requires Collisionless(c) && Sendable(c.lib, a)
    ensures Reaches(c, Start(a),
        World(Object(4, 1, false, true, a, Status(READY, HashOf(c, a))), false, Idle, Some(a), true))
  {
    var o := Object(3, 1, false, true, a, Status(TIED, ""));
    var m := o.(status := Status(TIED, HashOf(c, a)));
    var w6 := World(o, false, Recording(m, true, true), Some(a), false);
    assert Reaches(c, Start(a), w6) by { FirstSend(c, a); }
    Extend(c, Start(a), w6, SMOOTH);
    assert Next(c, w6, SMOOTH) == RecordStep(w6, m, true, true, Applied);
  }

  lemma FirstSend(c: Config, a: Spec)
    requires Collisionless(c) && Sendable(c.lib, a)
    ensures var o := Object(3, 1, false, true, a, Status(TIED, ""));
            var m := o.(status := Status(TIED, HashOf(c, a)));
            Reaches(c, Start(a), World(o, false, Recording(m, true, true), Some(a), false))
  {
    var o := Object(3, 1, false, true, a, Status(TIED, ""));
    var w5 := World(o, false, Sending(o), None, true);
    assert Reaches(c, Start(a), w5) by {
      assert AllSmooth([]) && Exec(c, Start(a), []) == Start(a);
      FirstLook(c, a);
      ExtendSteps(c, Start(a), Start(a), 5);
    }
    Extend(c, Start(a), w5, SMOOTH);
    assert Next(c, w5, SMOOTH) == SendStep(c, w5, o, Acknowledged);
  }

  /** Nothing is sent for spec a while Harbor's last accepted request is b's. */
  ghost predicate Missed(c: Config, v: World, a: Spec, b: Spec) {
    v.phase.Sending? && v.phase.mem.spec == a && SendsNothing(c, v.phase.mem) && v.accepted == Some(b)
  }

  /** The spec is edited to b and the update accepted; its status write is still to come. */
  lemma SecondRound(c: Config, s: World, u: World, b: Spec) returns (v: World)
    requires Reaches(c, s, u) && u.phase.Idle? && !u.gone && !u.obj.deleting && u.obj.finalizer
    requires u.obj.status.base.binding.Some?
    requires u.obj.status.base.observedGeneration == u.obj.generation
    requires Sendable(c.lib, b) && u.obj.status.hash != "" && u.obj.status.hash != HashOf(c, b)
    ensures Reaches(c, s, v) && v.phase.Recording? && v.phase.mem.rv == v.obj.rv && v.accepted == Some(b) && !v.gone
    ensures !v.obj.deleting && v.obj.finalizer && v.obj.status.base.binding.Some?
    ensures v.obj.status.hash == u.obj.status.hash && v.obj.status.base.observedGeneration == v.obj.generation
  {
    Extend(c, s, u, Edit(b));
    ExtendSteps(c, s, EditStep(u, b), 6);
    SixSteps(c, EditStep(u, b));
    v := Steps(c, EditStep(u, b), 6);
  }

  /** The edit back makes the status write conflict, and the next reconcile sees the old hash. */
  lemma ThirdRound(c: Config, s: World, u: World, a: Spec, b: Spec) returns (v: World)
    requires Reaches(c, s, u) && u.phase.Recording? && u.phase.mem.rv == u.obj.rv && u.accepted == Some(b) && !u.gone
    requires !u.obj.deleting && u.obj.finalizer && u.obj.status.base.binding.Some?
    requires u.obj.status.base.observedGeneration == u.obj.generation
    requires Sendable(c.lib, a) && u.obj.status.hash != "" && u.obj.status.hash == HashOf(c, a)
    ensures Reaches(c, s, v) && Missed(c, v, a, b)
  {
    var x := EditStep(u, a);
    var y := x.(phase := Idle);
    Extend(c, s, u, Edit(a));
    Extend(c, s, x, SMOOTH);
    assert Next(c, x, SMOOTH) == RecordStep(x, x.phase.mem, x.phase.sent, x.phase.created, Applied) == y;
    ExtendSteps(c, s, y, 5);
    FiveSteps(c, y);
    v := Steps(c, y, 5);
  }

  /**
   An edit back to the old schedule between an update and its status write makes that write conflict; the next reconcile
   finds the old hash and sends nothing, while Harbor keeps the other schedule.
   */
  lemma EditBackHidesAnUpdate(c: Config, a: Spec, b: Spec) returns (w: World, v: World)
    requires Collisionless(c) && Sendable(c.lib, a) && Sendable(c.lib, b) && HashOf(c, a) != HashOf(c, b)
    ensures Init(w) && Reaches(c, w, v) && Missed(c, v, a, b)
  {
    w := Start(a);
    FirstRound(c, a);
    var u := World(Object(4, 1, false, true, a, Status(READY, HashOf(c, a))), false, Idle, Some(a), true);
    v := SecondRound(c, w, u, b);
    v := ThirdRound(c, w, v, a, b);
  }
}
