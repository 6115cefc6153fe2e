/** Status conditions and the flag that decides whether a status write is sent. */
module Conditions {
  import opened Values
  import opened Connections

  datatype Kind = Ready | Reconciling | Stalled | Foreign(name: string)

  /** Condition reasons; `Unspecified` is the empty string a caller passes to get the default. */
  datatype Reason = Unspecified | InProgress | ReconcileError | NotFound | Created | Reconciled | NotStalled

  datatype Condition = Condition(kind: Kind, holds: bool, reason: Reason, message: string, generation: int, since: int)

  /** A condition without its transition time. */
  datatype Mark = Mark(holds: bool, reason: Reason, message: string, generation: int)
  datatype Marks = Marks(ready: Option<Mark>, reconciling: Option<Mark>, stalled: Option<Mark>)

  /** HarborStatusBase as the rest of the operator observes it. */
  datatype Base = Base(observedGeneration: int, marks: Marks, binding: Option<Binding>)

  const NO_MARKS := Marks(None, None, None)

  predicate IsReady(b: Base) {
    b.marks.ready.Some? && b.marks.ready.value.holds
  }

  /** markReconciling. */
  function MarkReconciling(b: Base, generation: int, reason: Reason, message: string): Base {
    var why := if reason.Unspecified? then InProgress else reason;
    var text := if message == "" then "Reconciling resource" else message;
    b.(observedGeneration := generation,
       marks := Marks(Some(Mark(false, why, text, generation)),
                      Some(Mark(true, why, text, generation)),
                      Some(Mark(false, NotStalled, "Resource is not stalled", generation))))
  }

  /** markReady. */
  function MarkReady(b: Base, generation: int, reason: Reason, message: string): Base {
    var why := if reason.Unspecified? then Reconciled else reason;
    var text := if message == "" then "Resource is ready" else message;
    b.(observedGeneration := generation,
       marks := Marks(Some(Mark(true, why, text, generation)),
                      Some(Mark(false, Reconciled, "Reconciliation complete", generation)),
                      Some(Mark(false, NotStalled, "Resource is not stalled", generation))))
  }

  /** markError; the argument is the error's text. */
  function MarkError(b: Base, generation: int, error: string): Base {
    MarkReconciling(b, generation, ReconcileError,
                    "Reconcile error: " + (if error == "" then "Reconcile error" else error))
  }

  /** One of the three conditions that the operator sets. */
  predicate Says(m: Option<Mark>, holds: bool, reason: Reason, generation: int) {
    m.Some? && m.value.holds == holds && m.value.reason == reason && m.value.generation == generation
  }

  /**
   What an observer is told, all of it for the given generation, the binding untouched: ready and settled, or not ready
   and still at it, for the given reason or the default one; the Ready condition carries the caller's message if there
   is one.
   */
  lemma MarksMean(b: Base, generation: int, reason: Reason, message: string)
    ensures var r := MarkReady(b, generation, reason, message);
            && IsReady(r) && r.observedGeneration == generation && r.binding == b.binding
            && Says(r.marks.ready, true, if reason.Unspecified? then Reconciled else reason, generation)
            && Says(r.marks.reconciling, false, Reconciled, generation)
            && Says(r.marks.stalled, false, NotStalled, generation)
            && (message != "" ==> r.marks.ready.value.message == message)
            && (message == "" ==> r.marks.ready.value.message == "Resource is ready")
    ensures var r := MarkReconciling(b, generation, reason, message);
            var why := if reason.Unspecified? then InProgress else reason;
            && !IsReady(r) && r.observedGeneration == generation && r.binding == b.binding
            && Says(r.marks.ready, false, why, generation) && Says(r.marks.reconciling, true, why, generation)
            && Says(r.marks.stalled, false, NotStalled, generation)
            && (message != "" ==> r.marks.ready.value.message == r.marks.reconciling.value.message == message)
            && (message == "" ==> r.marks.ready.value.message == "Reconciling resource")
  {
  }

  /** An error is told with its own text, or with the default one, and is never mistaken for readiness. */
  lemma ErrorsAreTold(b: Base, generation: int, error: string)
    ensures var r := MarkError(b, generation, error);
            && !IsReady(r) && r.observedGeneration == generation && r.binding == b.binding
            && Says(r.marks.ready, false, ReconcileError, generation)
            && Says(r.marks.reconciling, true, ReconcileError, generation)
            && r.marks.ready.value.message
                 == if error != "" then "Reconcile error: " + error else "Reconcile error: Reconcile error"
  {
  }

  /** meta.FindStatusCondition. */
  function Find(conditions: seq<Condition>, kind: Kind): Option<Condition> {
    if conditions == [] then None
    else if conditions[0].kind == kind then Some(conditions[0])
    else Find(conditions[1..], kind)
  }

  /** meta.SetStatusCondition: replaces the first condition of that kind, or appends. */
  function SetIn(conditions: seq<Condition>, c: Condition): seq<Condition> {
    if conditions == [] then [c]
    else if conditions[0].kind == c.kind then
      [c.(since := if conditions[0].holds == c.holds then conditions[0].since else c.since)] + conditions[1..]
    else [conditions[0]] + SetIn(conditions[1..], c)
  }

  function MarkOf(c: Option<Condition>): Option<Mark> {
    match c
    case None => None
    case Some(x) => Some(Mark(x.holds, x.reason, x.message, x.generation))
  }

  function View(conditions: seq<Condition>): Marks {
    Marks(MarkOf(Find(conditions, Ready)), MarkOf(Find(conditions, Reconciling)), MarkOf(Find(conditions, Stalled)))
  }

  /** Setting one condition changes what is observed of that kind and of no other. */
  lemma {:induction false} SetInIsLocal(conditions: seq<Condition>, c: Condition, kind: Kind)
    ensures MarkOf(Find(SetIn(conditions, c), kind))
         == if kind == c.kind then MarkOf(Some(c)) else MarkOf(Find(conditions, kind))
  {
    if conditions != [] {
      if conditions[0].kind == c.kind {
        var c' := c.(since := if conditions[0].holds == c.holds then conditions[0].since else c.since);
        assert SetIn(conditions, c)[1..] == conditions[1..];
      } else {
        SetInIsLocal(conditions[1..], c, kind);
        assert SetIn(conditions, c)[1..] == SetIn(conditions[1..], c);
      }
    }
  }

  /** The transition time moves exactly when the status of that kind does, or when there was none. */
  lemma {:induction false} TransitionTimeMovesWithStatus(conditions: seq<Condition>, c: Condition)
    ensures var was, now := Find(conditions, c.kind), Find(SetIn(conditions, c), c.kind);
            && now.Some? && now.value == c.(since := now.value.since)
            && (was.Some? && was.value.holds == c.holds ==> now.value.since == was.value.since)
            && (was.None? || was.value.holds != c.holds ==> now.value.since == c.since)
  {
    if conditions != [] && conditions[0].kind != c.kind {
      TransitionTimeMovesWithStatus(conditions[1..], c);
      assert SetIn(conditions, c)[1..] == SetIn(conditions[1..], c);
    }
  }

  /** The in-memory HarborStatusBase that the mark functions update in place. */
  class StatusBase {
    var observedGeneration: int
    var conditions: seq<Condition>
    var resolved: Option<Binding>

    constructor (b: Option<Binding>)
      ensures Abs() == Base(0, NO_MARKS, b)
    {
      observedGeneration, conditions, resolved := 0, [], b;
    }

    function Abs(): Base
      reads this
    {
      Base(observedGeneration, View(conditions), resolved)
    }

    /** Reports a change exactly when the observed condition differs; otherwise even the transition time stays. */
    method SetCondition(c: Condition) returns (changed: bool)
      modifies this`conditions
      ensures changed <==> MarkOf(Find(old(conditions), c.kind)) != MarkOf(Some(c))
      ensures conditions == if changed then SetIn(old(conditions), c) else old(conditions)
      ensures forall k :: MarkOf(Find(conditions, k))
                == if k == c.kind then MarkOf(Some(c)) else MarkOf(Find(old(conditions), k))
    {
      var existing := Find(conditions, c.kind);
      if existing.Some? && existing.value.holds == c.holds && existing.value.reason == c.reason
         && existing.value.message == c.message && existing.value.generation == c.generation {
        return false;
      }
      forall k
        ensures MarkOf(Find(SetIn(conditions, c), k))
             == if k == c.kind then MarkOf(Some(c)) else MarkOf(Find(conditions, k))
      {
        SetInIsLocal(conditions, c, k);
      }
      conditions := SetIn(conditions, c);
      return true;
    }

    /** The flag is false exactly when the whole observed base is already as marked. */
    method MarkReconcilingInPlace(generation: int, reason: Reason, message: string, now: int) returns (changed: bool)
      modifies this`observedGeneration, this`conditions
      ensures Abs() == MarkReconciling(old(Abs()), generation, reason, message)
      ensures changed <==> Abs() != old(Abs())
      ensures !changed ==> conditions == old(conditions)
    {
      changed := false;
      if observedGeneration != generation {
        observedGeneration := generation;
        changed := true;
      }
      var why := if reason.Unspecified? then InProgress else reason;
      var text := if message == "" then "Reconciling resource" else message;
      var c := SetCondition(Condition(Ready, false, why, text, generation, now));
      changed := c || changed;
      c := SetCondition(Condition(Reconciling, true, why, text, generation, now));
      changed := c || changed;
      c := SetCondition(Condition(Stalled, false, NotStalled, "Resource is not stalled", generation, now));
      changed := c || changed;
    }

    method MarkReadyInPlace(generation: int, reason: Reason, message: string, now: int) returns (changed: bool)
      modifies this`observedGeneration, this`conditions
      ensures Abs() == MarkReady(old(Abs()), generation, reason, message)
      ensures changed <==> Abs() != old(Abs())
      ensures !changed ==> conditions == old(conditions)
    {
      changed := false;
      if observedGeneration != generation {
        observedGeneration := generation;
        changed := true;
      }
      var why := if reason.Unspecified? then Reconciled else reason;
      var text := if message == "" then "Resource is ready" else message;
      var c := SetCondition(Condition(Ready, true, why, text, generation, now));
      changed := c || changed;
      c := SetCondition(Condition(Reconciling, false, Reconciled, "Reconciliation complete", generation, now));
      changed := c || changed;
      c := SetCondition(Condition(Stalled, false, NotStalled, "Resource is not stalled", generation, now));
      changed := c || changed;
    }

    method MarkErrorInPlace(generation: int, error: string, now: int) returns (changed: bool)
      modifies this`observedGeneration, this`conditions
      ensures Abs() == MarkError(old(Abs()), generation, error)
      ensures changed <==> Abs() != old(Abs())
    {
      var text := if error == "" then "Reconcile error" else error;
      changed := MarkReconcilingInPlace(generation, ReconcileError, "Reconcile error: " + text, now);
    }
  }
}
