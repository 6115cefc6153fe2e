/** The GC schedule reconciler: a stored hash decides between create, update and sending nothing. */
module GCSchedule {
  import opened Values
  import opened Conditions
  import opened Schedules
  import Connections
  import Singletons

  /** The libraries and the hash. */
  datatype Config = Config(lib: Library, hash: string -> string)

  /** A collision-free hash that is never the empty text. */
  ghost predicate Collisionless(c: Config) {
    (forall x, y :: c.hash(x) == c.hash(y) ==> x == y) && (forall x :: c.hash(x) != "")
  }

  datatype Status = Status(base: Base, hash: string)
  datatype Object = Object(rv: nat, generation: nat, deleting: bool, finalizer: bool, spec: Spec, status: Status)

  datatype Phase =
    | Idle
    | Marking(mem: Object)
    | Connecting(mem: Object)
    | Releasing(mem: Object)
    | Holding(mem: Object)
    | Owning(mem: Object)
    | Sending(mem: Object)
    | Recording(mem: Object, sent: bool, created: bool)
    | Failing(mem: Object)

  /**
   `gone` tells that the object was dropped from the API server. `accepted` is the spec of the last request Harbor
   accepted; `recorded` says whether its hash reached the stored status.
   */
  datatype World = World(obj: Object, gone: bool, phase: Phase, accepted: Option<Spec>, recorded: bool)

  /** Fate of a Harbor request; Lost was processed although the caller sees an error. */
  datatype Http = Acknowledged | Lost | Refused

  /** What getHarborClientForObject finds. */
  datatype Link = Connected(binding: Connections.Binding) | Missing | Broken

  /** `check` is what the ownership check read. */
  datatype Answer = Answer(write: Write, http: Http, link: Link, check: Singletons.Check, message: string)

  datatype Event = Step(answer: Answer) | Edit(spec: Spec) | Delete | Crash

  // ---------- the code ----------

  predicate Lands(w: World, mem: Object, write: Write) { !w.gone && w.obj.rv == mem.rv && !write.Rejected? }

  predicate Acked(w: World, mem: Object, write: Write) { Lands(w, mem, write) && write.Applied? }

  /** Status().Update with the given status. */
  function Store(w: World, mem: Object, status: Status, write: Write): World {
    if Lands(w, mem, write) then w.(obj := w.obj.(status := status, rv := w.obj.rv + 1)) else w
  }

  /** markReconcilingIfNeeded. */
  function MarkStep(w: World, mem: Object, write: Write): World {
    if mem.status.base.observedGeneration == mem.generation then w.(phase := Connecting(mem))
    else
      var status := mem.status.(base := MarkReconciling(mem.status.base, mem.generation, Unspecified, ""));
      var next := if Acked(w, mem, write) then Connecting(mem.(status := status, rv := mem.rv + 1)) else Idle;
      Store(w, mem, status, write).(phase := next)
  }

  function AfterLink(mem: Object): Phase { if mem.deleting then Releasing(mem) else Holding(mem) }

  /** getHarborClientForObject, with finalizeWithoutHarborConnection when the connection is missing. */
  function ConnectStep(w: World, mem: Object, link: Link, write: Write): World {
    match link
    case Missing => w.(phase := if mem.deleting then Releasing(mem) else Failing(mem))
    case Broken => w.(phase := Failing(mem))
    case Connected(binding) =>
      if mem.status.base.binding.Some? then w.(phase := AfterLink(mem))
      else
        var status := mem.status.(base := mem.status.base.(binding := Some(binding)));
        var m := mem.(status := status);
        var next := if Acked(w, mem, write) then AfterLink(m.(rv := mem.rv + 1)) else Failing(m);
        Store(w, mem, status, write).(phase := next)
  }

  /** removeFinalizer; the schedule in Harbor is left as it is. */
  function ReleaseStep(w: World, mem: Object, write: Write): World {
    if mem.finalizer && Lands(w, mem, write) then
      w.(obj := w.obj.(finalizer := false, rv := w.obj.rv + 1), gone := w.obj.deleting, phase := Idle)
    else w.(phase := Idle)
  }

  /** ensureFinalizer. */
  function HoldStep(w: World, mem: Object, write: Write): World {
    if mem.finalizer then w.(phase := Owning(mem))
    else if !Lands(w, mem, write) then w.(phase := Idle)
    else
      var next := if write.Applied? then Owning(mem.(finalizer := true, rv := mem.rv + 1)) else Idle;
      w.(obj := w.obj.(finalizer := true, rv := w.obj.rv + 1), phase := next)
  }

  ghost function HashOf(c: Config, s: Spec): string { c.hash(HashedText(c.lib, s)) }

  /** The reconcile finds the stored hash up to date and sends nothing. */
  ghost predicate SendsNothing(c: Config, mem: Object) {
    Sendable(c.lib, mem.spec) && mem.status.hash != "" && mem.status.hash == HashOf(c, mem.spec)
  }

  ghost function SendStep(c: Config, w: World, mem: Object, http: Http): World {
    if !Sendable(c.lib, mem.spec) then w.(phase := Failing(mem))
    else if SendsNothing(c, mem) then w.(phase := Recording(mem, false, false))
    else
      match http
      case Refused => w.(phase := Failing(mem))
      case Lost => w.(accepted := Some(mem.spec), recorded := false, phase := Failing(mem))
      case Acknowledged =>
        var m := mem.(status := mem.status.(hash := HashOf(c, mem.spec)));
        w.(accepted := Some(mem.spec), recorded := false, phase := Recording(m, true, mem.status.hash == ""))
  }

  /** After a create the write depends on the conditions alone; after an update the new hash forces it. */
  function RecordStep(w: World, mem: Object, sent: bool, created: bool, write: Write): World {
    var base := if created then MarkReady(mem.status.base, mem.generation, Created, "GC schedule created")
                else MarkReady(mem.status.base, mem.generation, Reconciled, "GC schedule reconciled");
    if base == mem.status.base && (created || !sent) then w.(phase := Idle)
    else
      var recorded := w.recorded || (sent && Lands(w, mem, write));
      Store(w, mem, mem.status.(base := base), write).(phase := Idle, recorded := recorded)
  }

  /** setErrorStatus. */
  function FailStep(w: World, mem: Object, message: string, write: Write): World {
    var base := MarkError(mem.status.base, mem.generation, message);
    if base == mem.status.base then w.(phase := Idle)
    else Store(w, mem, mem.status.(base := base), write).(phase := Idle)
  }

  ghost function OperatorStep(c: Config, w: World, a: Answer): World {
    match w.phase
    case Idle => if w.gone then w else w.(phase := Marking(w.obj))
    case Marking(mem) => MarkStep(w, mem, a.write)
    case Connecting(mem) => ConnectStep(w, mem, a.link, a.write)
    case Releasing(mem) => ReleaseStep(w, mem, a.write)
    case Holding(mem) => HoldStep(w, mem, a.write)
    case Owning(mem) => w.(phase := if Singletons.Owns(a.check) then Sending(mem) else Failing(mem))
    case Sending(mem) => SendStep(c, w, mem, a.http)
    case Recording(mem, sent, created) => RecordStep(w, mem, sent, created, a.write)
    case Failing(mem) => FailStep(w, mem, a.message, a.write)
  }

  function EditStep(w: World, spec: Spec): World {
    if w.gone then w else w.(obj := w.obj.(spec := spec, generation := w.obj.generation + 1, rv := w.obj.rv + 1))
  }

  function DeleteStep(w: World): World {
    if w.gone then w
    else if !w.obj.finalizer then w.(gone := true)
    else w.(obj := w.obj.(deleting := true, generation := w.obj.generation + 1, rv := w.obj.rv + 1))
  }

  ghost function Next(c: Config, w: World, e: Event): World {
    match e
    case Step(a) => OperatorStep(c, w, a)
    case Edit(spec) => EditStep(w, spec)
    case Delete => DeleteStep(w)
    case Crash => w.(phase := Idle)
  }

  ghost function Exec(c: Config, w: World, run: seq<Event>): World {
    if run == [] then w else Next(c, Exec(c, w, run[..|run| - 1]), run[|run| - 1])
  }

  predicate Init(w: World) {
    && w.obj.status == Status(Base(0, NO_MARKS, None), "") && !w.obj.finalizer && !w.obj.deleting
    && !w.gone && w.phase.Idle? && w.accepted.None? && w.recorded
  }

  // ---------- the invariant ----------

  predicate StatusOk(s: Status) { s.hash == "" ==> !IsReady(s.base) }

  ghost predicate PhaseOk(c: Config, w: World) {
    match w.phase
    case Idle => true
    case Failing(mem) => mem.status.hash == w.obj.status.hash
    case Recording(mem, sent, created) =>
      && mem.status.base == w.obj.status.base
      && Sendable(c.lib, mem.spec) && mem.status.hash == HashOf(c, mem.spec)
      && (if sent then w.accepted == Some(mem.spec) && !w.recorded && (created <==> w.obj.status.hash == "")
          else !created && mem.status == w.obj.status)
    case _ => w.phase.mem.status == w.obj.status
  }

  /** The stored hash is that of the last accepted request exactly when it was recorded. */
  ghost predicate HashOk(c: Config, w: World) {
    && (w.accepted.Some? ==> Sendable(c.lib, w.accepted.value))
    && (w.accepted.None? ==> w.recorded && w.obj.status.hash == "")
    && (w.accepted.Some? ==> (w.recorded <==> w.obj.status.hash == HashOf(c, w.accepted.value)))
  }

  ghost predicate Inv(c: Config, w: World) { StatusOk(w.obj.status) && PhaseOk(c, w) && HashOk(c, w) }

  /** Steps that neither send nor record: the hash stays, in store and memory. */
  ghost predicate Quiet(w: World, v: World) {
    && v.accepted == w.accepted && v.recorded == w.recorded && v.obj.status.hash == w.obj.status.hash
    && (IsReady(v.obj.status.base) ==> v.obj.status.base.marks == w.obj.status.base.marks)
  }

  /** The phase after such a step: the in-memory status is the stored one, or the reconcile is failing. */
  predicate Settled(v: World) {
    v.phase.Idle? || (!v.phase.Recording? && v.phase.mem.status.hash == v.obj.status.hash
                      && (!v.phase.Failing? ==> v.phase.mem.status == v.obj.status))
  }

  lemma MarkQuiet(w: World, mem: Object, write: Write)
    requires mem.status == w.obj.status
    ensures var v := MarkStep(w, mem, write); Quiet(w, v) && Settled(v)
  {
  }

  lemma ConnectQuiet(w: World, mem: Object, link: Link, write: Write)
    requires mem.status == w.obj.status
    ensures var v := ConnectStep(w, mem, link, write); Quiet(w, v) && Settled(v)
  {
  }

  lemma FailQuiet(w: World, mem: Object, message: string, write: Write)
    requires mem.status.hash == w.obj.status.hash
    ensures var v := FailStep(w, mem, message, write); Quiet(w, v) && Settled(v)
  {
  }

  lemma QuietStep(c: Config, w: World, a: Answer)
    requires PhaseOk(c, w) && !w.phase.Sending? && !w.phase.Recording?
    ensures var v := OperatorStep(c, w, a); Quiet(w, v) && Settled(v)
  {
    match w.phase
    case Marking(mem) => MarkQuiet(w, mem, a.write);
    case Connecting(mem) => ConnectQuiet(w, mem, a.link, a.write);
    case Failing(mem) => FailQuiet(w, mem, a.message, a.write);
    case _ =>
  }

  lemma QuietKeepsInv(c: Config, w: World, v: World)
    requires Inv(c, w) && Quiet(w, v) && Settled(v)
    ensures Inv(c, v)
  {
  }

  lemma SendOk(c: Config, w: World, http: Http)
    requires Inv(c, w) && Collisionless(c) && w.phase.Sending?
    ensures Inv(c, SendStep(c, w, w.phase.mem, http))
  {
    SendHash(c, w, http);
    SendPhase(c, w, http);
  }

  lemma SendHash(c: Config, w: World, http: Http)
    requires HashOk(c, w) && PhaseOk(c, w) && (forall x :: c.hash(x) != "") && w.phase.Sending?
    ensures HashOk(c, SendStep(c, w, w.phase.mem, http))
  {
  }

  lemma SendPhase(c: Config, w: World, http: Http)
    requires PhaseOk(c, w) && w.phase.Sending?
    ensures var v := SendStep(c, w, w.phase.mem, http); v.obj == w.obj && PhaseOk(c, v)
  {
  }

  lemma RecordOk(c: Config, w: World, write: Write)
    requires Inv(c, w) && Collisionless(c) && w.phase.Recording?
    ensures var p := w.phase; Inv(c, RecordStep(w, p.mem, p.sent, p.created, write))
  {
  }

  lemma StepKeepsInv(c: Config, w: World, e: Event)
    requires Inv(c, w) && Collisionless(c)
    ensures Inv(c, Next(c, w, e))
  {
    if e.Step? {
      if w.phase.Recording? { RecordOk(c, w, e.answer.write); }
      else if w.phase.Sending? { SendOk(c, w, e.answer.http); }
      else {
        QuietStep(c, w, e.answer);
        QuietKeepsInv(c, w, Next(c, w, e));
      }
    }
  }

  lemma {:induction false} RunKeepsInv(c: Config, w: World, run: seq<Event>)
    requires Init(w) && Collisionless(c)
    ensures Inv(c, Exec(c, w, run))
  {
    if run != [] {
      RunKeepsInv(c, w, run[..|run| - 1]);
      StepKeepsInv(c, Exec(c, w, run[..|run| - 1]), run[|run| - 1]);
    }
  }

  // ---------- which requests are recorded ----------

  /** Harbor accepts a request in this event. */
  ghost predicate Accepts(c: Config, w: World, e: Event) {
    && w.phase.Sending? && e.Step? && !e.answer.http.Refused?
    && Sendable(c.lib, w.phase.mem.spec) && !SendsNothing(c, w.phase.mem)
  }

  /** The status write after an accepted request lands in this event. */
  predicate Stores(w: World, e: Event) {
    w.phase.Recording? && w.phase.sent && e.Step? && Lands(w, w.phase.mem, e.answer.write)
  }

  ghost predicate AcceptsAt(c: Config, w: World, run: seq<Event>, k: nat) {
    k < |run| && Accepts(c, Exec(c, w, run[..k]), run[k])
  }

  ghost predicate StoresAt(c: Config, w: World, run: seq<Event>, k: nat) {
    k < |run| && Stores(Exec(c, w, run[..k]), run[k])
  }

  /** Every accepted request, so in particular the last, is followed by a status write that lands. */
  ghost predicate AllStored(c: Config, w: World, run: seq<Event>) {
    forall k: nat :: AcceptsAt(c, w, run, k) ==> exists m: nat :: k < m && StoresAt(c, w, run, m)
  }

  lemma RecordedMoves(c: Config, w: World, e: Event)
    requires Inv(c, w)
    ensures Next(c, w, e).recorded == (if Accepts(c, w, e) then false else if Stores(w, e) then true else w.recorded)
  {
    if e.Step? {
      if w.phase.Recording? { RecordMoves(c, w, e.answer.write); }
      else if !w.phase.Sending? { QuietStep(c, w, e.answer); }
    }
  }

  lemma RecordMoves(c: Config, w: World, write: Write)
    requires Inv(c, w) && w.phase.Recording?
    ensures var p := w.phase;
            RecordStep(w, p.mem, p.sent, p.created, write).recorded
                == (w.recorded || (p.sent && Lands(w, p.mem, write)))
  {
  }

  /**
   The flag is a fact about the run: it holds exactly when every accepted request was followed by its status write.
   */
  lemma {:induction false} RecordedExactlyWhenAllStored(c: Config, w: World, run: seq<Event>)
    requires Init(w) && Collisionless(c)
    ensures Exec(c, w, run).recorded <==> AllStored(c, w, run)
  {
    if run != [] {
      var n := |run| - 1;
      var before := run[..n];
      var v := Exec(c, w, before);
      RecordedExactlyWhenAllStored(c, w, before);
      RunKeepsInv(c, w, before);
      RecordedMoves(c, v, run[n]);
      PastStays(c, w, run, n);
      StoredGrows(c, w, run, before);
    }
  }

  lemma PastStays(c: Config, w: World, run: seq<Event>, n: nat)
    requires |run| == n + 1
    ensures SamePast(c, w, run, run[..n])
    ensures AcceptsAt(c, w, run, n) == Accepts(c, Exec(c, w, run[..n]), run[n])
    ensures StoresAt(c, w, run, n) == Stores(Exec(c, w, run[..n]), run[n])
  {
    var before := run[..n];
    forall k: nat | k < n
      ensures AcceptsAt(c, w, run, k) == AcceptsAt(c, w, before, k)
      ensures StoresAt(c, w, run, k) == StoresAt(c, w, before, k)
    {
      assert before[..k] == run[..k];
    }
  }

  /** One more event does not change what happened before. */
  ghost predicate SamePast(c: Config, w: World, run: seq<Event>, before: seq<Event>) {
    forall k: nat :: k < |before| ==>
      AcceptsAt(c, w, run, k) == AcceptsAt(c, w, before, k) && StoresAt(c, w, run, k) == StoresAt(c, w, before, k)
  }

  /** How one more event changes "all stored". */
  lemma StoredGrows(c: Config, w: World, run: seq<Event>, before: seq<Event>)
    requires |run| == |before| + 1 && SamePast(c, w, run, before)
    ensures AllStored(c, w, run) <==>
      !AcceptsAt(c, w, run, |before|) && (StoresAt(c, w, run, |before|) || AllStored(c, w, before))
  {
    var n := |before|;
    if AllStored(c, w, run) && AcceptsAt(c, w, run, n) { var m := StoreAfter(c, w, run, n); }
    if AllStored(c, w, run) && !StoresAt(c, w, run, n) { StoredBefore(c, w, run, before); }
    if !AcceptsAt(c, w, run, n) && AllStored(c, w, before) { StoredAfter(c, w, run, before); }
  }

  lemma StoredBefore(c: Config, w: World, run: seq<Event>, before: seq<Event>)
    requires |run| == |before| + 1 && SamePast(c, w, run, before)
    requires AllStored(c, w, run) && !StoresAt(c, w, run, |before|)
    ensures AllStored(c, w, before)
  {
    forall k: nat | AcceptsAt(c, w, before, k) ensures exists m: nat :: k < m && StoresAt(c, w, before, m) {
      var m := StoreAfter(c, w, run, k);
      assert m != |before|;
    }
  }

  lemma StoredAfter(c: Config, w: World, run: seq<Event>, before: seq<Event>)
    requires |run| == |before| + 1 && SamePast(c, w, run, before)
    requires AllStored(c, w, before) && !AcceptsAt(c, w, run, |before|)
    ensures AllStored(c, w, run)
  {
    forall k: nat | AcceptsAt(c, w, run, k) ensures exists m: nat :: k < m && StoresAt(c, w, run, m) {
      var m := StoreAfter(c, w, before, k);
    }
  }

  lemma StoreAfter(c: Config, w: World, run: seq<Event>, k: nat) returns (m: nat)
    requires AllStored(c, w, run) && AcceptsAt(c, w, run, k)
    ensures k < m < |run| && StoresAt(c, w, run, m)
  {
    m :| k < m && StoresAt(c, w, run, m);
  }

  // ---------- what a quiet reconcile means ----------

  /**
   A reconcile that sends nothing: Harbor's last accepted request has the spec's text if and only if every accepted
   request was followed by its status write.
   */
  lemma QuietExactlyWhenAllStored(c: Config, w: World, run: seq<Event>)
    requires Init(w) && Collisionless(c)
    requires var v := Exec(c, w, run); v.phase.Sending? && SendsNothing(c, v.phase.mem)
    ensures var v := Exec(c, w, run);
            && v.accepted.Some? && Sendable(c.lib, v.accepted.value)
            && (HashedText(c.lib, v.accepted.value) == HashedText(c.lib, v.phase.mem.spec) <==> AllStored(c, w, run))
  {
    var v := Exec(c, w, run);
    RunKeepsInv(c, w, run);
    RecordedExactlyWhenAllStored(c, w, run);
    assert v.accepted.Some?;
    assert v.recorded <==> HashOf(c, v.phase.mem.spec) == HashOf(c, v.accepted.value);
  }

  /**
   If every accepted request was followed by its status write, a quiet reconcile leaves Harbor with the spec's
   schedule.
   */
  lemma NothingToSendMeansApplied(c: Config, w: World, run: seq<Event>)
    requires Init(w) && Collisionless(c) && Sound(c.lib) && AllStored(c, w, run)
    requires var v := Exec(c, w, run); v.phase.Sending? && SendsNothing(c, v.phase.mem)
    requires var v := Exec(c, w, run);
             Plain(v.phase.mem.spec) && (v.accepted.Some? ==> Plain(v.accepted.value))
    ensures var v := Exec(c, w, run);
            && v.accepted.Some? && Sendable(c.lib, v.accepted.value)
            && Wire(c.lib, v.accepted.value) == Wire(c.lib, v.phase.mem.spec)
  {
    QuietExactlyWhenAllStored(c, w, run);
    var v := Exec(c, w, run);
    HashedTextTellsApart(c.lib, v.accepted.value, v.phase.mem.spec);
  }

  /**
   The hash of an accepted request fails to reach the stored status: its answer or its status write is lost, or the
   operator dies between.
   */
  predicate Loses(w: World, e: Event) {
    || (w.phase.Sending? && e.Step? && e.answer.http.Lost?)
    || (w.phase.Recording? && w.phase.sent && e.Crash?)
    || (w.phase.Recording? && w.phase.sent && e.Step? && !Lands(w, w.phase.mem, e.answer.write))
  }

  /** Nothing is lost from event k on. */
  ghost predicate NoLossSince(c: Config, w: World, run: seq<Event>, k: nat) {
    forall n :: k <= n < |run| ==> !Loses(Exec(c, w, run[..n]), run[n])
  }

  lemma StepRecords(c: Config, w: World, e: Event)
    requires Inv(c, w) && !Loses(w, e) && (w.recorded || (w.phase.Recording? && w.phase.sent) || Accepts(c, w, e))
    ensures var v := Next(c, w, e); v.recorded || (v.phase.Recording? && v.phase.sent)
  {
    RecordedMoves(c, w, e);
  }

  /** Without a loss since some accepted request, or since the start, the last one is recorded or about to be. */
  lemma {:induction false} NoLossMeansRecorded(c: Config, w: World, run: seq<Event>, k: nat)
    requires Init(w) && Collisionless(c) && k <= |run| && NoLossSince(c, w, run, k)
    requires k == 0 || AcceptsAt(c, w, run, k)
    ensures var v := Exec(c, w, run); v.recorded || (v.phase.Recording? && v.phase.sent)
    decreases |run|
  {
    if run != [] {
      var before, e := run[..|run| - 1], run[|run| - 1];
      if k < |before| || k == 0 {
        forall n | k <= n < |before| ensures !Loses(Exec(c, w, before[..n]), before[n]) {
          assert before[..n] == run[..n];
        }
        if k > 0 { assert before[..k] == run[..k]; }
        NoLossMeansRecorded(c, w, before, k);
      }
      RunKeepsInv(c, w, before);
      StepRecords(c, Exec(c, w, before), e);
    }
  }

  /**
   Runs in which nothing was lost since some accepted request, or since the start: a reconcile that then sends nothing
   leaves Harbor with the spec's type, cron and parameters.
   */
  lemma QuietWithoutLossMeansApplied(c: Config, w: World, run: seq<Event>, k: nat)
    requires Init(w) && Collisionless(c) && Sound(c.lib) && k <= |run| && NoLossSince(c, w, run, k)
    requires k == 0 || AcceptsAt(c, w, run, k)
    requires var v := Exec(c, w, run); v.phase.Sending? && SendsNothing(c, v.phase.mem)
    requires var v := Exec(c, w, run);
             Plain(v.phase.mem.spec) && (v.accepted.Some? ==> Plain(v.accepted.value))
    ensures var v := Exec(c, w, run);
            && v.accepted.Some? && Sendable(c.lib, v.accepted.value)
            && Wire(c.lib, v.accepted.value) == Wire(c.lib, v.phase.mem.spec)
  {
    NoLossMeansRecorded(c, w, run, k);
    RecordedExactlyWhenAllStored(c, w, run);
    NothingToSendMeansApplied(c, w, run);
  }
}
