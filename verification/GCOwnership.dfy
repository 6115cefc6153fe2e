/** Which GCSchedule may change Harbor's schedule: the ownership check of the same reconcile decides. */
module GCOwnership {
  import opened Values
  import opened Conditions
  import opened GCSchedule
  import Connections
  import Singletons

  // ---------- the ownership checks of a run ----------

  /** Event k is the ownership check of a reconcile. */
  ghost predicate AsksAt(c: Config, w: World, run: seq<Event>, k: nat) {
    k < |run| && run[k].Step? && Exec(c, w, run[..k]).phase.Owning?
  }

  /** The states a run goes through. */
  ghost function Trace(c: Config, w: World, run: seq<Event>): (t: seq<World>)
    ensures |t| == |run| + 1 && t[|run|] == Exec(c, w, run)
  {
    if run == [] then [w] else Trace(c, w, run[..|run| - 1]) + [Exec(c, w, run)]
  }

  lemma {:induction false} TraceAt(c: Config, w: World, run: seq<Event>, n: nat)
    requires n <= |run|
    ensures Trace(c, w, run)[n] == Exec(c, w, run[..n])
    decreases |run|
  {
    if n < |run| {
      assert run[..|run| - 1][..n] == run[..n];
      TraceAt(c, w, run[..|run| - 1], n);
    } else {
      assert run[..n] == run;
    }
  }

  /** Event k is a passed ownership check, and its reconcile has been about to send the schedule it read ever since. */
  ghost predicate OwnedSince(run: seq<Event>, t: seq<World>, k: nat)
    requires |t| == |run| + 1
  {
    && k < |run| && run[k].Step? && t[k].phase.Owning? && Singletons.Owns(run[k].answer.check)
    && forall n :: k < n <= |run| ==> t[n].phase == Sending(t[k].phase.mem)
  }

  ghost predicate OwnerSince(c: Config, w: World, run: seq<Event>, k: nat) { OwnedSince(run, Trace(c, w, run), k) }

  lemma OwnersAsk(c: Config, w: World, run: seq<Event>, k: nat)
    requires OwnerSince(c, w, run, k)
    ensures AsksAt(c, w, run, k) && Singletons.Owns(run[k].answer.check)
  {
    TraceAt(c, w, run, k);
  }

  /** A check carried out now stays a check of every longer run. */
  lemma AskStays(c: Config, w: World, run: seq<Event>, more: seq<Event>, a: Answer)
    requires run + [Step(a)] <= more && Exec(c, w, run).phase.Owning?
    ensures AsksAt(c, w, more, |run|) && more[|run|] == Step(a)
  {
    assert more[..|run|] == run;
  }

  lemma IntoSending(c: Config, w: World, e: Event)
    requires Next(c, w, e).phase.Sending? && !w.phase.Sending?
    ensures w.phase.Owning? && e.Step? && Singletons.Owns(e.answer.check) && Next(c, w, e).phase.mem == w.phase.mem
  {
  }

  lemma StaysSending(c: Config, w: World, e: Event)
    requires Next(c, w, e).phase.Sending? && w.phase.Sending?
    ensures Next(c, w, e).phase == w.phase
  {
  }

  lemma OwnedGrows(run: seq<Event>, t: seq<World>, e: Event, v: World, k: nat)
    requires |t| == |run| + 1 && OwnedSince(run, t, k) && v.phase == t[|run|].phase
    ensures OwnedSince(run + [e], t + [v], k)
  {
  }

  lemma {:induction false} SendingFollowsOwnership(c: Config, w: World, run: seq<Event>)
    requires Init(w) && Exec(c, w, run).phase.Sending?
    ensures exists k: nat :: OwnerSince(c, w, run, k)
  {
    var n := |run| - 1;
    var before, e := run[..n], run[n];
    var u, v := Exec(c, w, before), Exec(c, w, run);
    assert run == before + [e] && Trace(c, w, run) == Trace(c, w, before) + [v];
    if u.phase.Sending? {
      SendingFollowsOwnership(c, w, before);
      var k: nat :| OwnerSince(c, w, before, k);
      StaysSending(c, u, e);
      OwnedGrows(before, Trace(c, w, before), e, v, k);
      assert OwnerSince(c, w, run, k);
    } else {
      IntoSending(c, u, e);
      assert OwnerSince(c, w, run, n);
    }
  }

  lemma OnlySendingSends(c: Config, w: World, e: Event)
    requires Next(c, w, e).accepted != w.accepted
    ensures Accepts(c, w, e)
  {
  }

  lemma AcceptedSpec(c: Config, w: World, e: Event)
    requires Accepts(c, w, e)
    ensures Next(c, w, e).accepted == Some(w.phase.mem.spec)
  {
  }

  /**
   In every run: Harbor's accepted request changes only in a reconcile whose own ownership check passed, and then to
   the spec that reconcile read.
   */
  lemma OnlyOwnersChangeHarbor(c: Config, w: World, run: seq<Event>, e: Event)
    requires Init(w) && Next(c, Exec(c, w, run), e).accepted != Exec(c, w, run).accepted
    ensures exists k: nat :: OwnerSince(c, w, run, k)
              && Next(c, Exec(c, w, run), e).accepted == Some(Trace(c, w, run)[k].phase.mem.spec)
  {
    var v := Exec(c, w, run);
    OnlySendingSends(c, v, e);
    AcceptedSpec(c, v, e);
    SendingFollowsOwnership(c, w, run);
  }

  // ---------- a check that does not pass ----------

  /** Since event k, no step of the operator but the check itself. */
  predicate NoStepSince(run: seq<Event>, k: nat) { forall n :: k < n < |run| ==> !run[n].Step? }

  lemma DeniedFails(c: Config, w: World, e: Event)
    requires w.phase.Owning? && e.Step? && !Singletons.Owns(e.answer.check)
    ensures Next(c, w, e).accepted == w.accepted && Next(c, w, e).phase == Failing(w.phase.mem)
  {
  }

  lemma OthersSendNothing(c: Config, w: World, e: Event)
    requires !e.Step?
    ensures Next(c, w, e).accepted == w.accepted && (Next(c, w, e).phase == w.phase || Next(c, w, e).phase.Idle?)
  {
  }

  /** Until the operator's next step nothing is sent: the reconcile fails, or is cut off. */
  lemma {:induction false} DeniedSendsNothing(c: Config, w: World, run: seq<Event>, k: nat)
    requires AsksAt(c, w, run, k) && !Singletons.Owns(run[k].answer.check) && NoStepSince(run, k)
    ensures var before, v := Exec(c, w, run[..k]), Exec(c, w, run);
            v.accepted == before.accepted && (v.phase == Failing(before.phase.mem) || v.phase.Idle?)
    decreases |run|
  {
    var n := |run| - 1;
    var u := Exec(c, w, run[..n]);
    assert Exec(c, w, run) == Next(c, u, run[n]);
    if k < n {
      assert run[..n][..k] == run[..k];
      DeniedSendsNothing(c, w, run[..n], k);
      OthersSendNothing(c, u, run[n]);
    } else {
      DeniedFails(c, u, run[n]);
    }
  }

  /** The conditions in memory are the stored ones, in every phase. */
  predicate SameMarks(w: World) { w.phase.Idle? || w.phase.mem.status.base.marks == w.obj.status.base.marks }

  lemma MarkKeepsMarks(w: World, mem: Object, write: Write)
    requires mem.status.base.marks == w.obj.status.base.marks
    ensures SameMarks(MarkStep(w, mem, write))
  {
  }

  lemma {:induction false} MarksAgree(c: Config, w: World, run: seq<Event>)
    requires Init(w)
    ensures SameMarks(Exec(c, w, run))
  {
    if run != [] {
      MarksAgree(c, w, run[..|run| - 1]);
      var v, e := Exec(c, w, run[..|run| - 1]), run[|run| - 1];
      if v.phase.Marking? && e.Step? { MarkKeepsMarks(v, v.phase.mem, e.answer.write); }
    }
  }

  /** The reconcile then ends in the error status: Harbor is as before, and the stored resource is not Ready. */
  lemma DeniedEndsInError(c: Config, w: World, run: seq<Event>, k: nat, a: Answer)
    requires Init(w) && AsksAt(c, w, run, k) && !Singletons.Owns(run[k].answer.check) && NoStepSince(run, k)
    requires Exec(c, w, run).phase.Failing?
    ensures var u := Exec(c, w, run);
            var v := Next(c, u, Step(a));
            && v.accepted == Exec(c, w, run[..k]).accepted && v.phase.Idle?
            && (Lands(u, u.phase.mem, a.write) ==> !IsReady(v.obj.status.base))
  {
    DeniedSendsNothing(c, w, run, k);
    MarksAgree(c, w, run);
  }

  // ---------- the resources of one Harbor ----------

  /** The check read every peer of a listing in which the resource competes for this client URL. */
  ghost predicate Fair(check: Singletons.Check, url: string) {
    && check.unread == {} && Singletons.Distinct(check.snapshot.items)
    && Singletons.Competes(check.snapshot, url, check.current)
  }

  /** Of the resources that share a client URL, only the first has a request accepted. */
  lemma OnlyTheFirstChangesHarbor(c: Config, w: World, run: seq<Event>, e: Event, url: string)
    requires Init(w) && Next(c, Exec(c, w, run), e).accepted != Exec(c, w, run).accepted
    requires forall k: nat :: AsksAt(c, w, run, k) ==> Fair(run[k].answer.check, url)
    ensures exists k: nat :: OwnerSince(c, w, run, k)
              && Singletons.First(run[k].answer.check.snapshot, url, run[k].answer.check.current)
  {
    OnlyOwnersChangeHarbor(c, w, run, e);
    var k: nat :| OwnerSince(c, w, run, k);
    OwnersAsk(c, w, run, k);
    var check := run[k].answer.check;
    Singletons.PassesExactlyWhenFirst(check.snapshot, url, check.current);
  }

  /** The check read a live competitor that was created before the resource. */
  ghost predicate Preceded(check: Singletons.Check) {
    exists url, i :: Precedes(check, url, i)
  }

  ghost predicate Precedes(check: Singletons.Check, url: string, i: Singletons.Item) {
    && Singletons.Competes(check.snapshot, url, i) && Singletons.ClientURL(check.snapshot, check.current) == Some(url)
    && i.name != check.current.name && i.name !in check.unread && i.createdAt < check.current.createdAt
  }

  /** A resource that finds an earlier one at every check never changes Harbor, in any run. */
  lemma {:induction false} PrecededNeverChangesHarbor(c: Config, w: World, run: seq<Event>)
    requires Init(w) && forall k: nat :: AsksAt(c, w, run, k) ==> Preceded(run[k].answer.check)
    ensures Exec(c, w, run).accepted == None
  {
    if run != [] {
      var before := run[..|run| - 1];
      forall k: nat | AsksAt(c, w, before, k) ensures Preceded(before[k].answer.check) {
        assert before[..k] == run[..k] && AsksAt(c, w, run, k);
      }
      PrecededNeverChangesHarbor(c, w, before);
      if Exec(c, w, run).accepted != None {
        OnlyOwnersChangeHarbor(c, w, before, run[|run| - 1]);
        var k: nat :| OwnerSince(c, w, before, k);
        OwnersAsk(c, w, before, k);
        var url, i :| Precedes(before[k].answer.check, url, i);
        var check := before[k].answer.check;
        assert Singletons.Seen(check.snapshot, check.unread, check.current, i);
      }
    }
  }
}
