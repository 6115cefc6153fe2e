/**
 The Project reconcile protocol as a step machine. One step of the operator is one call to the
 Kubernetes API or to Harbor together with the local code up to the next call; between any two
 of them the environment may act, and the operator may crash.
 */
module ProjectMachine {
  import opened Values
  import opened Connections
  import opened Conditions

  datatype CreationPolicy = Create | Adopt | CreateOrAdopt
  datatype DeletionPolicy = Delete | Orphan

  /** What never changes: the object's key and the name folding behind strings.EqualFold. */
  datatype Config = Config(namespace: string, name: string, fold: string -> string)

  /** Operator flags; a restart may change them. */
  datatype Options = Options(forced: string, defaultPolicy: Option<CreationPolicy>)

  datatype Spec = Spec(ref: Option<Ref>, deletion: DeletionPolicy, creation: Option<CreationPolicy>, payload: nat)
  datatype Status = Status(base: Base, id: nat)
  datatype Object = Object(rv: nat, generation: nat, deleting: bool, finalizer: bool, spec: Spec, status: Status)

  /** Requests sent to Harbor for this object, with the part of the answer that matters later. */
  datatype Request =
    | FindRequest(url: string)
    | CreateRequest(url: string, returned: Option<nat>)
    | GetRequest(url: string, id: nat)
    | UpdateRequest(url: string, id: nat, done: bool)
    | DeleteRequest(url: string, id: nat, done: bool)

  /** Where the running reconcile stands: the call it makes next, and its in-memory copy of the object. */
  datatype Frame =
    | Idle
    | Marking(mem: Object)
    | Resolving(mem: Object)
    | Binding(mem: Object, url: string)
    | Dialing(mem: Object, url: string)
    | NoConnection(mem: Object, notFound: bool)
    | Finalizing(mem: Object, url: string)
    | Releasing(mem: Object)
    | Holding(mem: Object, url: string)
    | Adopting(mem: Object, url: string)
    | RecordingAdoption(mem: Object, url: string)
    | Deciding(mem: Object, url: string)
    | Comparing(mem: Object, url: string)
    | Publishing(mem: Object, reason: Reason, message: string)
    | Forgetting(mem: Object)
    | Failing(mem: Object)

  /**
   Everything outside the running reconcile. `issued` remembers, for every connection uid ever created, the base URL its
   clients use, `used` every Harbor project id ever handed out, `log` every request sent for this object.
   */
  datatype World = World(
    obj: Option<Object>,
    conns: map<Key, Connection>,
    issued: map<nat, string>,
    projects: map<(string, nat), string>,
    used: set<(string, nat)>,
    options: Options,
    log: seq<Request>)

  /** The world and the running reconcile. */
  datatype Sys = Sys(world: World, frame: Frame)

  /** Fate of a Harbor request; a failed one may still have been processed. */
  datatype Http = Delivered | Failed(processed: bool)
  datatype Dial = Connected | SecretMissing | DialFailed

  /** Everything the environment decides about one operator step. */
  datatype Answer = Answer(write: Write, http: Http, dial: Dial, found: Option<nat>, newId: nat,
                           payloadOk: bool, differs: bool, message: string)

  datatype Event =
    | Operator(answer: Answer)
    | Restart(options: Options)
    | EditSpec(spec: Spec)
    | DeleteObject
    | PutConnection(key: Key, connection: Connection)
    | DropConnection(key: Key)
    | OutsiderCreates(url: string, id: nat, name: string)
    | OutsiderDeletes(url: string, id: nat)

  // ---------- policies ----------

  function Effective(options: Options, policy: Option<CreationPolicy>): CreationPolicy {
    match policy
    case Some(p) => p
    case None => if options.defaultPolicy.Some? then options.defaultPolicy.value else Create
  }

  predicate AllowsCreation(p: CreationPolicy) { p.Create? || p.CreateOrAdopt? }

  predicate AllowsAdoption(p: CreationPolicy) { p.Adopt? || p.CreateOrAdopt? }

  predicate SameName(c: Config, name: string) { c.fold(name) == c.fold(c.name) }

  // ---------- the Kubernetes API ----------

  predicate Writable(w: World, mem: Object) {
    w.obj.Some? && w.obj.value.rv == mem.rv
  }

  predicate WriteOk(w: World, mem: Object, fate: Write) {
    Writable(w, mem) && fate.Applied?
  }

  /** Status().Update: replaces the stored status when the versions agree. */
  function WriteStatus(w: World, mem: Object, fate: Write): World {
    if Writable(w, mem) && !fate.Rejected? then
      w.(obj := Some(w.obj.value.(status := mem.status, rv := mem.rv + 1)))
    else w
  }

  /** Update of the finalizer; a deleting object without its finalizer disappears. */
  function WriteFinalizer(w: World, mem: Object, present: bool, fate: Write): World {
    if Writable(w, mem) && !fate.Rejected? then
      if w.obj.value.deleting && !present then w.(obj := None)
      else w.(obj := Some(w.obj.value.(finalizer := present, rv := mem.rv + 1)))
    else w
  }

  // ---------- operator steps ----------

  /** loadResource. */
  function LoadStep(w: World): Sys {
    if w.obj.Some? then Sys(w, Marking(w.obj.value)) else Sys(w, Idle)
  }

  /** markReconcilingIfNeeded. */
  function MarkStep(w: World, mem: Object, a: Answer): Sys {
    if mem.status.base.observedGeneration == mem.generation then Sys(w, Resolving(mem))
    else
      var m := mem.(status := mem.status.(base := MarkReconciling(mem.status.base, mem.generation, Unspecified, "")));
      var w' := WriteStatus(w, m, a.write);
      if WriteOk(w, m, a.write) then Sys(w', Resolving(m.(rv := m.rv + 1))) else Sys(w', Idle)
  }

  /** resolveHarborConnection and the comparison with the recorded binding. */
  function ResolveStep(c: Config, w: World, mem: Object, a: Answer): Sys {
    if a.http.Failed? then Sys(w, NoConnection(mem, false))
    else
      match Resolve(w.options.forced, w.conns, c.namespace, mem.spec.ref)
      case Invalid => Sys(w, NoConnection(mem, false))
      case Missing => Sys(w, NoConnection(mem, true))
      case Found(b, url) =>
        match mem.status.base.binding
        case Some(previous) =>
          if previous == b then Sys(w, Dialing(mem, TrimSlashes(url))) else Sys(w, NoConnection(mem, false))
        case None =>
          Sys(w, Frame.Binding(mem.(status := mem.status.(base := mem.status.base.(binding := Some(b)))),
              TrimSlashes(url)))
  }

  /** The binding is stored before a client exists. */
  function BindStep(w: World, mem: Object, url: string, a: Answer): Sys {
    var w' := WriteStatus(w, mem, a.write);
    if WriteOk(w, mem, a.write) then Sys(w', Dialing(mem.(rv := mem.rv + 1), url))
    else Sys(w', NoConnection(mem, w.obj.None?))
  }

  /** buildHarborClient, then the branch on the deletion mark and on the finalizer. */
  function DialStep(w: World, mem: Object, url: string, a: Answer): Sys {
    match a.dial
    case SecretMissing => Sys(w, NoConnection(mem, true))
    case DialFailed => Sys(w, NoConnection(mem, false))
    case Connected =>
      if mem.deleting then Sys(w, Finalizing(mem, url))
      else if mem.finalizer then Sys(w, Adopting(mem, url))
      else Sys(w, Holding(mem, url))
  }

  /** finalizeWithoutHarborConnection with requiresRemoteCleanup set. */
  function NoConnectionStep(w: World, mem: Object, notFound: bool): Sys {
    if mem.deleting && notFound && mem.spec.deletion.Orphan? then Sys(w, Releasing(mem)) else Sys(w, Failing(mem))
  }

  /** deleteProject inside finalizeIfDeleting. */
  function FinalizeStep(w: World, mem: Object, url: string, a: Answer): Sys {
    if mem.spec.deletion.Orphan? || mem.status.id == 0 then Sys(w, Releasing(mem))
    else
      var id := mem.status.id;
      var w' := w.(log := w.log + [DeleteRequest(url, id, a.http.Delivered?)],
                   projects := if a.http == Failed(false) then w.projects else w.projects - {(url, id)});
      if a.http.Delivered? then Sys(w', Releasing(mem)) else Sys(w', Idle)
  }

  /** removeFinalizer. */
  function ReleaseStep(w: World, mem: Object, a: Answer): Sys {
    if !mem.finalizer then Sys(w, Idle) else Sys(WriteFinalizer(w, mem, false, a.write), Idle)
  }

  /** ensureFinalizer when the finalizer is absent; the answer refreshes the in-memory object. */
  function HoldStep(w: World, mem: Object, url: string, a: Answer): Sys {
    var w' := WriteFinalizer(w, mem, true, a.write);
    if WriteOk(w, mem, a.write) then Sys(w', Adopting(w'.obj.value, url)) else Sys(w', Idle)
  }

  /** The list answer names a matching project, or none when there is none; anything else is a failed request. */
  predicate FindAnswerOk(c: Config, w: World, url: string, a: Answer) {
    a.http.Delivered? &&
    match a.found
    case Some(id) => (url, id) in w.projects && SameName(c, w.projects[(url, id)])
    case None => forall k :: k in w.projects && k.0 == url ==> !SameName(c, w.projects[k])
  }

  /** adoptExisting up to the status write. */
  function AdoptStep(c: Config, w: World, mem: Object, url: string, a: Answer): Sys {
    if mem.status.id != 0 || !AllowsAdoption(Effective(w.options, mem.spec.creation)) then Sys(w, Deciding(mem, url))
    else
      var w' := w.(log := w.log + [FindRequest(url)]);
      if !FindAnswerOk(c, w, url, a) then Sys(w', Failing(mem))
      else
        match a.found
        case None => Sys(w', Deciding(mem, url))
        case Some(id) => Sys(w', RecordingAdoption(mem.(status := mem.status.(id := id)), url))
  }

  function RecordAdoptionStep(w: World, mem: Object, url: string, a: Answer): Sys {
    var w' := WriteStatus(w, mem, a.write);
    if WriteOk(w, mem, a.write) then Sys(w', Deciding(mem.(rv := mem.rv + 1), url)) else Sys(w', Failing(mem))
  }

  /** CreateProject; Harbor hands out positive ids it has not used before. */
  function CreateStep(c: Config, w: World, mem: Object, url: string, a: Answer): Sys {
    var unusedId := a.newId > 0 && (url, a.newId) !in w.used;
    var made := unusedId && a.http != Failed(false);
    var ok := unusedId && a.http.Delivered?;
    var w' := w.(log := w.log + [CreateRequest(url, if ok then Some(a.newId) else None)],
                 projects := if made then w.projects[(url, a.newId) := c.name] else w.projects,
                 used := if made then w.used + {(url, a.newId)} else w.used);
    if ok then Sys(w', Publishing(mem.(status := mem.status.(id := a.newId)), Created, "Project created"))
    else Sys(w', Failing(mem))
  }

  /** GetProjectByID; a 404 clears the in-memory id. */
  function GetStep(w: World, mem: Object, url: string, a: Answer): Sys {
    var w' := w.(log := w.log + [GetRequest(url, mem.status.id)]);
    if a.http.Failed? then Sys(w', Failing(mem))
    else if (url, mem.status.id) !in w.projects then Sys(w', Forgetting(mem.(status := mem.status.(id := 0))))
    else Sys(w', Comparing(mem, url))
  }

  /** Payload, then create or read. */
  function DecideStep(c: Config, w: World, mem: Object, url: string, a: Answer): Sys {
    if !a.payloadOk then Sys(w, Failing(mem))
    else if mem.status.id != 0 then GetStep(w, mem, url, a)
    else if !AllowsCreation(Effective(w.options, mem.spec.creation)) then Sys(w, Failing(mem))
    else CreateStep(c, w, mem, url, a)
  }

  /** UpdateProject when the comparison asks for it. */
  function CompareStep(w: World, mem: Object, url: string, a: Answer): Sys {
    var done := Publishing(mem, Reconciled, "Project reconciled");
    if !a.differs then Sys(w, done)
    else
      var updated := a.http.Delivered? && (url, mem.status.id) in w.projects;
      var w' := w.(log := w.log + [UpdateRequest(url, mem.status.id, updated)]);
      if updated then Sys(w', done) else Sys(w', Failing(mem))
  }

  /** A marked status is written only when the marks changed something. */
  function MarkedWrite(w: World, mem: Object, base: Base, fate: Write): World {
    if base == mem.status.base then w else WriteStatus(w, mem.(status := mem.status.(base := base)), fate)
  }

  /** setReadyStatus. */
  function PublishStep(w: World, mem: Object, reason: Reason, message: string, a: Answer): Sys {
    Sys(MarkedWrite(w, mem, MarkReady(mem.status.base, mem.generation, reason, message), a.write), Idle)
  }

  /** requeueOnRemoteNotFound after its reset. */
  function ForgetStep(w: World, mem: Object, a: Answer): Sys {
    Sys(MarkedWrite(w, mem, MarkReconciling(mem.status.base, mem.generation, NotFound, "Project not found in Harbor"),
        a.write), Idle)
  }

  /** setErrorStatus. */
  function FailStep(w: World, mem: Object, a: Answer): Sys {
    Sys(MarkedWrite(w, mem, MarkError(mem.status.base, mem.generation, a.message), a.write), Idle)
  }

  function OperatorStep(c: Config, s: Sys, a: Answer): Sys {
    match s.frame
    case Idle => LoadStep(s.world)
    case Marking(mem) => MarkStep(s.world, mem, a)
    case Resolving(mem) => ResolveStep(c, s.world, mem, a)
    case Binding(mem, url) => BindStep(s.world, mem, url, a)
    case Dialing(mem, url) => DialStep(s.world, mem, url, a)
    case NoConnection(mem, notFound) => NoConnectionStep(s.world, mem, notFound)
    case Finalizing(mem, url) => FinalizeStep(s.world, mem, url, a)
    case Releasing(mem) => ReleaseStep(s.world, mem, a)
    case Holding(mem, url) => HoldStep(s.world, mem, url, a)
    case Adopting(mem, url) => AdoptStep(c, s.world, mem, url, a)
    case RecordingAdoption(mem, url) => RecordAdoptionStep(s.world, mem, url, a)
    case Deciding(mem, url) => DecideStep(c, s.world, mem, url, a)
    case Comparing(mem, url) => CompareStep(s.world, mem, url, a)
    case Publishing(mem, reason, message) => PublishStep(s.world, mem, reason, message, a)
    case Forgetting(mem) => ForgetStep(s.world, mem, a)
    case Failing(mem) => FailStep(s.world, mem, a)
  }

  // ---------- environment steps; an event the API would refuse changes nothing ----------

  function EditStep(w: World, spec: Spec): World {
    if w.obj.None? then w
    else
      var o := w.obj.value;
      w.(obj := Some(o.(spec := spec, generation := o.generation + 1, rv := o.rv + 1)))
  }

  function DeleteObjectStep(w: World): World {
    if w.obj.None? || w.obj.value.deleting then w
    else if !w.obj.value.finalizer then w.(obj := None)
    else
      var o := w.obj.value;
      w.(obj := Some(o.(deleting := true, generation := o.generation + 1, rv := o.rv + 1)))
  }

  /** Creation takes a new uid; an update keeps uid and base URL. */
  function PutConnectionStep(w: World, key: Key, connection: Connection): World {
    if key in w.conns || connection.uid in w.issued then w
    else w.(conns := w.conns[key := connection], issued := w.issued[connection.uid := TrimSlashes(connection.baseURL)])
  }

  function OutsiderCreatesStep(w: World, url: string, id: nat, name: string): World {
    if id == 0 || (url, id) in w.used then w
    else w.(projects := w.projects[(url, id) := name], used := w.used + {(url, id)})
  }

  function Step(c: Config, s: Sys, e: Event): Sys {
    match e
    case Operator(a) => OperatorStep(c, s, a)
    case Restart(options) => Sys(s.world.(options := options), Idle)
    case EditSpec(spec) => s.(world := EditStep(s.world, spec))
    case DeleteObject => s.(world := DeleteObjectStep(s.world))
    case PutConnection(key, connection) => s.(world := PutConnectionStep(s.world, key, connection))
    case DropConnection(key) => s.(world := s.world.(conns := s.world.conns - {key}))
    case OutsiderCreates(url, id, name) => s.(world := OutsiderCreatesStep(s.world, url, id, name))
    case OutsiderDeletes(url, id) => s.(world := s.world.(projects := s.world.projects - {(url, id)}))
  }

  /** The state after a run. */
  function Exec(c: Config, s: Sys, run: seq<Event>): Sys {
    if run == [] then s else Step(c, Exec(c, s, run[..|run| - 1]), run[|run| - 1])
  }

  /** A freshly created object; Harbor and the connections may hold anything consistent. */
  ghost predicate Init(s: Sys) {
    var w := s.world;
    && w.obj.Some?
    && w.obj.value.status == Status(Base(0, NO_MARKS, None), 0)
    && !w.obj.value.finalizer && !w.obj.value.deleting
    && w.log == [] && s.frame == Idle
    && (forall k :: k in w.projects ==> k in w.used && k.1 > 0)
    && (forall k :: k in w.conns ==>
        w.conns[k].uid in w.issued && w.issued[w.conns[k].uid] == TrimSlashes(w.conns[k].baseURL))
  }
}
