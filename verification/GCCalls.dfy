/** The order of a GCSchedule's calls: what must have been stored before a schedule is sent, in every run. */
module GCCalls {
  import opened Values
  import opened Conditions
  import opened GCSchedule

  /** Nothing was stored, or a write that was not rejected found the version that was read; it keeps the spec. */
  predicate Checked(w: World, v: World, write: Write) {
    || (v.obj == w.obj && v.gone == w.gone)
    || (!w.gone && !w.phase.Idle? && w.obj.rv == w.phase.mem.rv && !write.Rejected?
        && v.obj.rv == w.obj.rv + 1 && v.obj.spec == w.obj.spec)
  }

  lemma StatusStepsChecked(c: Config, w: World, a: Answer)
    requires w.phase.Marking? || w.phase.Connecting? || w.phase.Recording? || w.phase.Failing?
    ensures Checked(w, OperatorStep(c, w, a), a.write)
  {
  }

  lemma OtherStepsChecked(c: Config, w: World, a: Answer)
    requires !(w.phase.Marking? || w.phase.Connecting? || w.phase.Recording? || w.phase.Failing?)
    ensures Checked(w, OperatorStep(c, w, a), a.write)
  {
  }

  /** A step changes the stored object only if it is still the one that was read, and not by a rejected write. */
  lemma WritesAreChecked(c: Config, w: World, a: Answer)
    requires Next(c, w, Step(a)).obj != w.obj || Next(c, w, Step(a)).gone != w.gone
    ensures !w.gone && !w.phase.Idle? && w.obj.rv == w.phase.mem.rv && !a.write.Rejected?
    ensures var v := Next(c, w, Step(a)); v.obj.rv == w.obj.rv + 1 && v.obj.spec == w.obj.spec
  {
    var p := w.phase;
    if p.Marking? || p.Connecting? || p.Recording? || p.Failing? { StatusStepsChecked(c, w, a); }
    else { OtherStepsChecked(c, w, a); }
  }

  /** A write whose answer is lost leaves the same object in the store as an acknowledged one. */
  lemma LostAnswerStoresTheSame(c: Config, w: World, a: Answer)
    ensures var applied, lost := Next(c, w, Step(a.(write := Applied))), Next(c, w, Step(a.(write := Unacknowledged)));
            lost.obj == applied.obj && lost.gone == applied.gone
  {
  }

  /** The operator does not go on after a write whose answer was lost. */
  lemma LostAnswerEnds(c: Config, w: World, a: Answer)
    requires a.write.Unacknowledged? && Next(c, w, Step(a)).obj != w.obj
    ensures Next(c, w, Step(a)).phase.Idle? || Next(c, w, Step(a)).phase.Failing?
  {
  }

  /** One request per reconcile: once Harbor has processed one, the reconcile records it or fails. */
  lemma OneRequestPerReconcile(c: Config, w: World, e: Event)
    requires Accepts(c, w, e)
    ensures if e.answer.http.Lost? then Next(c, w, e).phase == Failing(w.phase.mem)
            else Next(c, w, e).phase.Recording? && Next(c, w, e).phase.sent
  {
  }

  /** A reconcile that sent nothing writes only if a condition changes. */
  lemma QuietWritesOnlyNews(c: Config, w: World, a: Answer)
    requires Inv(c, w) && w.phase.Recording? && !w.phase.sent && Next(c, w, Step(a)).obj != w.obj
    ensures Next(c, w, Step(a)).obj.status.base != w.obj.status.base
  {
  }

  /** Edits and deletions are visible to the next reconcile and outdate every copy read before them. */
  lemma ChangesAreSeen(c: Config, w: World, e: Event)
    requires !w.gone && (e.Edit? || e.Delete?)
    ensures var v := Next(c, w, e);
            if e.Delete? && !w.obj.finalizer then v.gone
            else
              && !v.gone && v.obj.rv > w.obj.rv && v.obj.generation > w.obj.generation && v.obj.status == w.obj.status
              && v.obj.finalizer == w.obj.finalizer && v.obj.spec == (if e.Edit? then e.spec else w.obj.spec)
              && v.obj.deleting == (e.Delete? || w.obj.deleting)
  {
  }

  /** The reconcile is past markReconcilingIfNeeded and has not failed. */
  predicate Underway(p: Phase) { !p.Idle? && !p.Marking? && !p.Failing? }

  /** The reconcile has come to the point where it checks its ownership and talks to Harbor. */
  predicate AtHarbor(p: Phase) { p.Owning? || p.Sending? || p.Recording? }

  /** What is stored, and what was read, at each point of a reconcile. */
  predicate Prepared(w: World) {
    && (w.phase.Marking? ==> w.phase.mem.status == w.obj.status)
    && (Underway(w.phase) ==> w.phase.mem.status.base == w.obj.status.base
                              && w.obj.status.base.observedGeneration == w.phase.mem.generation)
    && (w.phase.Holding? || AtHarbor(w.phase) ==> w.obj.status.base.binding.Some? && !w.phase.mem.deleting)
    && (AtHarbor(w.phase) ==> w.phase.mem.finalizer)
    && (!w.phase.Idle? && w.phase.mem.finalizer ==> !w.gone && w.obj.finalizer)
  }

  lemma StepPrepares(c: Config, w: World, e: Event)
    requires Prepared(w)
    ensures Prepared(Next(c, w, e))
  {
    if e.Step? {
      match w.phase
      case Marking(mem) => MarkPrepares(w, e.answer);
      case Connecting(mem) => ConnectPrepares(w, e.answer);
      case _ =>
    }
  }

  lemma MarkPrepares(w: World, a: Answer)
    requires Prepared(w) && w.phase.Marking?
    ensures Prepared(MarkStep(w, w.phase.mem, a.write))
  {
  }

  lemma ConnectPrepares(w: World, a: Answer)
    requires Prepared(w) && w.phase.Connecting?
    ensures Prepared(ConnectStep(w, w.phase.mem, a.link, a.write))
  {
  }

  lemma {:induction false} AlwaysPrepared(c: Config, w: World, run: seq<Event>)
    requires Init(w)
    ensures Prepared(Exec(c, w, run))
  {
    if run != [] {
      AlwaysPrepared(c, w, run[..|run| - 1]);
      StepPrepares(c, Exec(c, w, run[..|run| - 1]), run[|run| - 1]);
    }
  }

  /**
   In every run: when Harbor accepts a request, the stored object has its finalizer and its binding and is marked for
   the generation that is sent, and that was not one of an object being deleted.
   */
  lemma HarborComesLast(c: Config, w: World, run: seq<Event>, e: Event)
    requires Init(w) && Accepts(c, Exec(c, w, run), e)
    ensures var v := Exec(c, w, run);
            && !v.gone && v.obj.finalizer && v.obj.status.base.binding.Some? && !v.phase.mem.deleting
            && v.obj.status.base.observedGeneration == v.phase.mem.generation
  {
    AlwaysPrepared(c, w, run);
  }
}
