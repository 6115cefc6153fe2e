/**
 Robots and their Secrets: any number of robots issue, rotate and store tokens, one API call at a time and in any
 interleaving; outsiders create, change and delete Secrets that no robot owns, and delete owned ones.
 */
module RobotTokens {
  import opened Values
  import opened OwnedSecrets

  datatype Name = Name(namespace: string, name: string)
  datatype SecretRef = SecretRef(namespace: string, name: string, key: string)

  const USERNAME := "username"

  /** resolveRobotSecretRef; None is a rejected reference. */
  function ResolveRef(robot: Name, spec: Option<SecretRef>): (r: Option<SecretRef>)
    ensures r.Some? ==> r.value.key != "" && r.value.key != USERNAME && r.value.name != ""
  {
    match spec
    case None => Some(SecretRef(robot.namespace, robot.name + "-secret", "secret"))
    case Some(ref) =>
      if ref.name == "" then None
      else
        var key := if ref.key == "" then "secret" else ref.key;
        if key == USERNAME then None
        else Some(SecretRef(if ref.namespace == "" then robot.namespace else ref.namespace, ref.name, key))
  }

  function OwnerOf(robot: Name): Owner { Owner("Robot", robot.namespace, robot.name) }

  function Place(ref: SecretRef): Name { Name(ref.namespace, ref.name) }

  /** The entries an upsert writes: the user name, and the token unless it only synchronises the name. */
  function Entries(ref: SecretRef, token: Option<string>, username: string): Texts {
    if token.Some? then map[ref.key := token.value, USERNAME := username] else map[USERNAME := username]
  }

  // ---------- the machine ----------

  datatype Stored = Stored(secret: Secret, version: nat)

  datatype Phase =
    | Idle
    | Creating(ref: SecretRef)
    | Syncing(ref: SecretRef, username: string)
    | Deciding(ref: SecretRef, username: string)
    | Rotating(ref: SecretRef, username: string)
    | Fetching(ref: SecretRef, username: string, token: Option<string>)
    | Writing(ref: SecretRef, username: string, token: Option<string>, base: Option<Stored>, next: Secret)

  /** `settled`: the last token issued was stored without an error, where the spec still says. */
  datatype Robot = Robot(spec: Option<SecretRef>, phase: Phase, settled: bool)

  /** `issued` holds every token Harbor issued for a robot's reconciles, also those whose answer was lost. */
  datatype World = World(secrets: map<Name, Stored>, version: nat, robots: map<Name, Robot>,
                         issued: map<Name, seq<string>>)

  datatype Answer = Answer(ok: bool, known: bool, rotate: bool, token: string, username: string, write: Write)

  datatype Event =
    | Step(robot: Name, answer: Answer)
    | Crash(robot: Name)
    | Edit(robot: Name, spec: Option<SecretRef>)
    | Add(robot: Name, spec: Option<SecretRef>)
    | Remove(robot: Name)
    | OutsiderPuts(place: Name, secret: Secret)
    | OutsiderDeletes(place: Name)

  function Issued(w: World, r: Name): seq<string> { if r in w.issued then w.issued[r] else [] }

  function SecretAt(w: World, k: Name): Option<Secret> { if k in w.secrets then Some(w.secrets[k].secret) else None }

  function Enter(w: World, r: Name, p: Phase): World
    requires r in w.robots
  {
    w.(robots := w.robots[r := w.robots[r].(phase := p)])
  }

  /** Harbor issues a token; until it is stored the robot is unsettled. */
  function Issue(w: World, r: Name, token: string, p: Phase): World
    requires r in w.robots
  {
    w.(issued := w.issued[r := Issued(w, r) + [token]],
        robots := w.robots[r := w.robots[r].(phase := p, settled := false)])
  }

  /** The upsert succeeded, with or without a write. */
  function Finish(w: World, r: Name, ref: SecretRef, username: string, token: Option<string>): World
    requires r in w.robots
  {
    if token.None? then Enter(w, r, Deciding(ref, username))
    else
      var settled := ResolveRef(r, w.robots[r].spec) == Some(ref);
      w.(robots := w.robots[r := w.robots[r].(phase := Idle, settled := settled)])
  }

  /** createRobot's and rotateRobotSecret's answers; an empty token from a create leads to a rotation. */
  function TokenStep(w: World, r: Name, ref: SecretRef, username: string, a: Answer, creating: bool): World
    requires r in w.robots
  {
    if a.token == "" then Enter(w, r, if creating && a.ok then Rotating(ref, username) else Idle)
    else if !a.ok || username == "" then Issue(w, r, a.token, Idle)
    else Issue(w, r, a.token, Fetching(ref, username, Some(a.token)))
  }

  function SyncStep(w: World, r: Name, ref: SecretRef, username: string, a: Answer): World
    requires r in w.robots
  {
    if !a.ok then Enter(w, r, Idle)
    else if Place(ref) !in w.secrets then Enter(w, r, Deciding(ref, username))
    else if !OwnedBy(w.secrets[Place(ref)].secret, OwnerOf(r)) then Enter(w, r, Idle)
    else Enter(w, r, Fetching(ref, username, None))
  }

  function FetchStep(w: World, r: Name, ref: SecretRef, username: string, token: Option<string>, a: Answer): World
    requires r in w.robots
  {
    if !a.ok then Enter(w, r, Idle)
    else
      var u := UpsertOf(SecretAt(w, Place(ref)), OwnerOf(r), Entries(ref, token, username));
      SendUpsert(w, r, ref, username, token, u)
  }

  /** What follows the read, by the request the upsert calls for. */
  function SendUpsert(w: World, r: Name, ref: SecretRef, username: string, token: Option<string>, u: Upsert): World
    requires r in w.robots
  {
    var base := if Place(ref) in w.secrets then Some(w.secrets[Place(ref)]) else None;
    match u
    case Unchanged => Finish(w, r, ref, username, token)
    case Create(s) => Enter(w, r, Writing(ref, username, token, base, s))
    case Update(s) => Enter(w, r, Writing(ref, username, token, base, s))
    case _ => Enter(w, r, Idle)
  }

  /** A create fails when the Secret exists, an update when it has changed since it was read. */
  predicate Lands(w: World, k: Name, base: Option<Stored>, write: Write) {
    && !write.Rejected?
    && (if base.None? then k !in w.secrets else k in w.secrets && w.secrets[k].version == base.value.version)
  }

  function WriteStep(w: World, r: Name, p: Phase, a: Answer): World
    requires r in w.robots && p.Writing?
  {
    if !Lands(w, Place(p.ref), p.base, a.write) then Enter(w, r, Idle)
    else
      var w' := w.(secrets := w.secrets[Place(p.ref) := Stored(p.next, w.version + 1)], version := w.version + 1);
      if a.write.Applied? then Finish(w', r, p.ref, p.username, p.token) else Enter(w', r, Idle)
  }

  function RobotStep(w: World, r: Name, a: Answer): World
    requires r in w.robots
  {
    match w.robots[r].phase
    case Idle =>
      (match ResolveRef(r, w.robots[r].spec)
       case None => w
       case Some(ref) =>
         if !a.known then Enter(w, r, Creating(ref))
         else if a.username == "" then w else Enter(w, r, Syncing(ref, a.username)))
    case Creating(ref) => TokenStep(w, r, ref, a.username, a, true)
    case Syncing(ref, username) => SyncStep(w, r, ref, username, a)
    case Deciding(ref, username) => Enter(w, r, if a.rotate then Rotating(ref, username) else Idle)
    case Rotating(ref, username) => TokenStep(w, r, ref, username, a, false)
    case Fetching(ref, username, token) => FetchStep(w, r, ref, username, token, a)
    case Writing(_, _, _, _, _) => WriteStep(w, r, w.robots[r].phase, a)
  }

  /** Marked as some robot's. */
  predicate RobotOwned(s: Secret) {
    Lookup(s.labels, MANAGED_BY) == OPERATOR && Lookup(s.annotations, OWNER_KIND) == "Robot"
  }

  function Next(w: World, e: Event): World {
    match e
    case Step(r, a) => if r in w.robots then RobotStep(w, r, a) else w
    case Crash(r) => if r in w.robots then Enter(w, r, Idle) else w
    case Edit(r, spec) =>
      if r !in w.robots then w
      else
        var same := ResolveRef(r, spec) == ResolveRef(r, w.robots[r].spec);
        w.(robots := w.robots[r := w.robots[r].(spec := spec, settled := w.robots[r].settled && same)])
    case Add(r, spec) => if r in w.robots then w else w.(robots := w.robots[r := Robot(spec, Idle, false)])
    case Remove(r) => w.(robots := w.robots - {r})
    case OutsiderPuts(k, s) =>
      if RobotOwned(s) || (k in w.secrets && RobotOwned(w.secrets[k].secret)) then w
      else w.(secrets := w.secrets[k := Stored(s, w.version + 1)], version := w.version + 1)
    case OutsiderDeletes(k) => w.(secrets := w.secrets - {k})
  }

  function Exec(w: World, run: seq<Event>): World {
    if run == [] then w else Next(Exec(w, run[..|run| - 1]), run[|run| - 1])
  }

  /** No robot yet, and no Secret marked as a robot's. */
  ghost predicate Init(w: World) {
    && w.robots == map[] && w.issued == map[]
    && forall k :: k in w.secrets ==> !RobotOwned(w.secrets[k].secret) && w.secrets[k].version <= w.version
  }

  // ---------- the invariant ----------

  type Secrets = map<Name, Stored>

  predicate EndsWith(issued: seq<string>, token: string) { issued != [] && issued[|issued| - 1] == token }

  /** Every entry but the user name is a token issued for the owner. */
  ghost predicate HoldsIssued(s: Secret, issued: seq<string>) {
    forall j :: j in All(s.data) && j != USERNAME ==> All(s.data)[j] in issued
  }

  ghost predicate SecretOk(w: World, s: Secret) {
    forall r :: OwnedBy(s, OwnerOf(r)) ==> HoldsIssued(s, Issued(w, r))
  }

  ghost predicate BaseOk(secrets: Secrets, version: nat, k: Name, base: Option<Stored>) {
    base.Some? ==> base.value.version <= version
                   && (k in secrets && secrets[k].version == base.value.version ==> secrets[k] == base.value)
  }

  function SecretOf(base: Option<Stored>): Option<Secret> { if base.Some? then Some(base.value.secret) else None }

  ghost predicate PhaseOk(secrets: Secrets, version: nat, issued: seq<string>, r: Name, p: Phase) {
    && (!p.Idle? ==> p.ref.key != "" && p.ref.key != USERNAME)
    && ((p.Fetching? || p.Writing?) && p.token.Some? ==> EndsWith(issued, p.token.value))
    && (p.Writing? ==>
          && BaseOk(secrets, version, Place(p.ref), p.base)
          && var u := UpsertOf(SecretOf(p.base), OwnerOf(r), Entries(p.ref, p.token, p.username));
             (u.Create? || u.Update?) && u.secret == p.next)
  }

  /** If the robot's Secret has its token entry, the entry is the last token issued. */
  ghost predicate Current(secrets: Secrets, issued: seq<string>, r: Name, ref: SecretRef) {
    var k := Place(ref);
    k in secrets && OwnedBy(secrets[k].secret, OwnerOf(r)) && ref.key in All(secrets[k].secret.data) ==>
      EndsWith(issued, All(secrets[k].secret.data)[ref.key])
  }

  ghost predicate RobotOk(secrets: Secrets, version: nat, issued: seq<string>, r: Name, robot: Robot) {
    && PhaseOk(secrets, version, issued, r, robot.phase)
    && ((robot.phase.Fetching? || robot.phase.Writing?) && robot.phase.token.Some? ==> !robot.settled)
    && (robot.settled ==>
        ResolveRef(r, robot.spec).Some? && Current(secrets, issued, r, ResolveRef(r, robot.spec).value))
  }

  ghost predicate Inv(w: World) {
    && (forall k :: k in w.secrets ==> w.secrets[k].version <= w.version && SecretOk(w, w.secrets[k].secret))
    && (forall r :: r in w.robots ==> RobotOk(w.secrets, w.version, Issued(w, r), r, w.robots[r]))
  }

  // ---------- what a write does ----------

  /** A write keeps the token entries right, and puts the token, if there is one, under the robot's key. */
  lemma UpsertIsRight(base: Option<Secret>, r: Name, ref: SecretRef, token: Option<string>, username: string,
                      issued: seq<string>)
    requires ref.key != USERNAME
    requires token.Some? ==> EndsWith(issued, token.value)
    requires base.Some? && OwnedBy(base.value, OwnerOf(r)) ==> HoldsIssued(base.value, issued)
    requires var u := UpsertOf(base, OwnerOf(r), Entries(ref, token, username)); u.Create? || u.Update?
    ensures var s := UpsertOf(base, OwnerOf(r), Entries(ref, token, username)).secret;
            && OwnedBy(s, OwnerOf(r)) && HoldsIssued(s, issued)
            && (token.Some? ==> ref.key in All(s.data) && All(s.data)[ref.key] == token.value)
            && (token.None? ==> forall j :: j in All(s.data) && j != USERNAME ==>
                  base.Some? && j in All(base.value.data) && All(s.data)[j] == All(base.value.data)[j])
  {
    UpsertKeepsTheRest(base, OwnerOf(r), Entries(ref, token, username));
    var s := UpsertOf(base, OwnerOf(r), Entries(ref, token, username)).secret;
    var values := Entries(ref, token, username);
    assert base.Some? ==> s.data.value == All(base.value.data) + values;
  }

  /** Where the upsert has nothing to write, the Secret already holds the values. */
  lemma UnchangedHoldsToken(base: Option<Secret>, r: Name, ref: SecretRef, token: string, username: string)
    requires UpsertOf(base, OwnerOf(r), Entries(ref, Some(token), username)) == Unchanged && ref.key != USERNAME
    ensures base.Some? && OwnedBy(base.value, OwnerOf(r)) && ref.key in All(base.value.data)
    ensures All(base.value.data)[ref.key] == token
  {
    var values := Entries(ref, Some(token), username);
    var data := base.value.data.value;
    assert (data + values)[ref.key] == token;
  }

  /** The world after robot r's write lands at k; the other robots are not affected. */
  lemma OthersUnaffected(w: World, r: Name, k: Name, s: Secret, other: Name)
    requires Inv(w) && OwnedBy(s, OwnerOf(r)) && other != r && other in w.robots
    ensures RobotOk(w.secrets[k := Stored(s, w.version + 1)], w.version + 1, Issued(w, other), other, w.robots[other])
  {
    if OwnedBy(s, OwnerOf(other)) { OneOwner(s, OwnerOf(r), OwnerOf(other)); }
  }

  // ---------- every step keeps the invariant ----------

  lemma EnterOk(w: World, r: Name, p: Phase)
    requires Inv(w) && r in w.robots && PhaseOk(w.secrets, w.version, Issued(w, r), r, p)
    requires (p.Fetching? || p.Writing?) && p.token.Some? ==> !w.robots[r].settled
    ensures Inv(Enter(w, r, p))
  {
    var w' := Enter(w, r, p);
    forall q ensures Issued(w', q) == Issued(w, q) {}
    forall k | k in w.secrets ensures SecretOk(w', w.secrets[k].secret) { assert SecretOk(w, w.secrets[k].secret); }
  }

  lemma IssueOk(w: World, r: Name, token: string, p: Phase)
    requires Inv(w) && r in w.robots
    requires p.Idle? || (p.Fetching? && p.token == Some(token) && p.ref.key != "" && p.ref.key != USERNAME)
    ensures Inv(Issue(w, r, token, p))
  {
    var w' := Issue(w, r, token, p);
    forall q ensures Issued(w', q) == if q == r then Issued(w, r) + [token] else Issued(w, q) {}
    forall k | k in w.secrets ensures SecretOk(w', w.secrets[k].secret) { assert SecretOk(w, w.secrets[k].secret); }
  }

  lemma FinishOk(w: World, r: Name, ref: SecretRef, username: string, token: Option<string>)
    requires Inv(w) && r in w.robots && ref.key != "" && ref.key != USERNAME
    requires token.Some? ==> Current(w.secrets, Issued(w, r), r, ref)
    ensures Inv(Finish(w, r, ref, username, token))
  {
    var w' := Finish(w, r, ref, username, token);
    forall q ensures Issued(w', q) == Issued(w, q) {}
    forall k | k in w.secrets ensures SecretOk(w', w.secrets[k].secret) { assert SecretOk(w, w.secrets[k].secret); }
  }

  function Landed(w: World, p: Phase): World
    requires p.Writing?
  {
    w.(secrets := w.secrets[Place(p.ref) := Stored(p.next, w.version + 1)], version := w.version + 1)
  }

  function StoredAt(secrets: Secrets, k: Name): Option<Secret> {
    if k in secrets then Some(secrets[k].secret) else None
  }

  /** The writing robot itself: a token write finds it unsettled, a user name write leaves its token alone. */
  lemma LandedRobotOk(secrets: Secrets, version: nat, issued: seq<string>, r: Name, robot: Robot)
    requires RobotOk(secrets, version, issued, r, robot) && robot.phase.Writing?
    requires var p := robot.phase; SecretOf(p.base) == StoredAt(secrets, Place(p.ref))
    requires var s := StoredAt(secrets, Place(robot.phase.ref));
             s.Some? && OwnedBy(s.value, OwnerOf(r)) ==> HoldsIssued(s.value, issued)
    ensures var p := robot.phase;
            var after := secrets[Place(p.ref) := Stored(p.next, version + 1)];
            && OwnedBy(p.next, OwnerOf(r)) && HoldsIssued(p.next, issued)
            && RobotOk(after, version + 1, issued, r, robot)
            && (p.token.Some? ==> Current(after, issued, r, p.ref) && Lookup(p.next.data, p.ref.key) == p.token.value)
  {
    var p := robot.phase;
    UpsertIsRight(SecretOf(p.base), r, p.ref, p.token, p.username, issued);
  }

  /** What the invariant says of robot r and of one Secret. */
  lemma FactsOf(w: World, r: Name, k: Name)
    requires Inv(w) && r in w.robots
    ensures RobotOk(w.secrets, w.version, Issued(w, r), r, w.robots[r])
    ensures var s := StoredAt(w.secrets, k);
            s.Some? && OwnedBy(s.value, OwnerOf(r)) ==> HoldsIssued(s.value, Issued(w, r))
  {
    if k in w.secrets { assert SecretOk(w, w.secrets[k].secret); }
  }

  lemma WriterStaysOk(w: World, r: Name)
    requires Inv(w) && r in w.robots && w.robots[r].phase.Writing?
    requires var p := w.robots[r].phase; SecretOf(p.base) == SecretAt(w, Place(p.ref))
    ensures var p := w.robots[r].phase;
            && OwnedBy(p.next, OwnerOf(r)) && HoldsIssued(p.next, Issued(w, r))
            && RobotOk(Landed(w, p).secrets, w.version + 1, Issued(w, r), r, w.robots[r])
            && (p.token.Some? ==>
                  Current(Landed(w, p).secrets, Issued(w, r), r, p.ref)
                      && Lookup(p.next.data, p.ref.key) == p.token.value)
  {
    FactsOf(w, r, Place(w.robots[r].phase.ref));
    LandedRobotOk(w.secrets, w.version, Issued(w, r), r, w.robots[r]);
  }

  /** A write that lands was computed from what is stored. */
  lemma BaseIsCurrent(w: World, r: Name, write: Write)
    requires Inv(w) && r in w.robots && w.robots[r].phase.Writing?
    requires var p := w.robots[r].phase; Lands(w, Place(p.ref), p.base, write)
    ensures var p := w.robots[r].phase; SecretOf(p.base) == SecretAt(w, Place(p.ref))
  {
    assert RobotOk(w.secrets, w.version, Issued(w, r), r, w.robots[r]);
  }

  lemma LandedInv(w: World, r: Name, k: Name, s: Secret)
    requires Inv(w) && r in w.robots && OwnedBy(s, OwnerOf(r)) && HoldsIssued(s, Issued(w, r))
    requires RobotOk(w.secrets[k := Stored(s, w.version + 1)], w.version + 1, Issued(w, r), r, w.robots[r])
    ensures Inv(w.(secrets := w.secrets[k := Stored(s, w.version + 1)], version := w.version + 1))
  {
    var w' := w.(secrets := w.secrets[k := Stored(s, w.version + 1)], version := w.version + 1);
    forall q ensures Issued(w', q) == Issued(w, q) {}
    NextSecretOk(w, w', r, s);
    forall j | j in w.secrets ensures SecretOk(w', w.secrets[j].secret) { assert SecretOk(w, w.secrets[j].secret); }
    forall q | q in w.robots ensures RobotOk(w'.secrets, w'.version, Issued(w', q), q, w.robots[q]) {
      if q != r { OthersUnaffected(w, r, k, s, q); }
    }
  }

  lemma NextSecretOk(w: World, w': World, r: Name, s: Secret)
    requires OwnedBy(s, OwnerOf(r)) && HoldsIssued(s, Issued(w, r)) && Issued(w', r) == Issued(w, r)
    ensures SecretOk(w', s)
  {
    forall q | OwnedBy(s, OwnerOf(q)) ensures HoldsIssued(s, Issued(w', q)) { OneOwner(s, OwnerOf(r), OwnerOf(q)); }
  }

  lemma FetchOk(w: World, r: Name, a: Answer)
    requires Inv(w) && r in w.robots && w.robots[r].phase.Fetching?
    ensures Inv(RobotStep(w, r, a))
  {
    var p := w.robots[r].phase;
    assert RobotOk(w.secrets, w.version, Issued(w, r), r, w.robots[r]);
    var u := UpsertOf(SecretAt(w, Place(p.ref)), OwnerOf(r), Entries(p.ref, p.token, p.username));
    if !a.ok || u.BadKey? || u.NotOwned? { EnterOk(w, r, Idle); }
    else if u.Unchanged? { FetchedUnchanged(w, r, p); }
    else { FetchedChange(w, r, p, u.secret); }
  }

  lemma FetchedUnchanged(w: World, r: Name, p: Phase)
    requires Inv(w) && r in w.robots && w.robots[r].phase == p && p.Fetching?
    requires UpsertOf(SecretAt(w, Place(p.ref)), OwnerOf(r), Entries(p.ref, p.token, p.username)) == Unchanged
    ensures Inv(Finish(w, r, p.ref, p.username, p.token))
  {
    assert RobotOk(w.secrets, w.version, Issued(w, r), r, w.robots[r]);
    if p.token.Some? { UnchangedHoldsToken(SecretAt(w, Place(p.ref)), r, p.ref, p.token.value, p.username); }
    FinishOk(w, r, p.ref, p.username, p.token);
  }

  lemma FetchedChange(w: World, r: Name, p: Phase, s: Secret)
    requires Inv(w) && r in w.robots && w.robots[r].phase == p && p.Fetching?
    requires var u := UpsertOf(SecretAt(w, Place(p.ref)), OwnerOf(r), Entries(p.ref, p.token, p.username));
             (u.Create? || u.Update?) && u.secret == s
    ensures var base := if Place(p.ref) in w.secrets then Some(w.secrets[Place(p.ref)]) else None;
            Inv(Enter(w, r, Writing(p.ref, p.username, p.token, base, s)))
  {
    assert RobotOk(w.secrets, w.version, Issued(w, r), r, w.robots[r]);
    var base := if Place(p.ref) in w.secrets then Some(w.secrets[Place(p.ref)]) else None;
    EnterOk(w, r, Writing(p.ref, p.username, p.token, base, s));
  }

  lemma LandOk(w: World, r: Name, write: Write)
    requires Inv(w) && r in w.robots && w.robots[r].phase.Writing?
    requires var p := w.robots[r].phase; Lands(w, Place(p.ref), p.base, write)
    ensures Inv(Landed(w, w.robots[r].phase))
  {
    var p := w.robots[r].phase;
    assert OwnedBy(p.next, OwnerOf(r)) && HoldsIssued(p.next, Issued(w, r))
           && RobotOk(Landed(w, p).secrets, w.version + 1, Issued(w, r), r, w.robots[r]) by {
      BaseIsCurrent(w, r, write);
      WriterStaysOk(w, r);
    }
    LandedInv(w, r, Place(p.ref), p.next);
  }

  lemma WriteOk(w: World, r: Name, a: Answer)
    requires Inv(w) && r in w.robots && w.robots[r].phase.Writing?
    ensures Inv(RobotStep(w, r, a))
  {
    var p := w.robots[r].phase;
    var w' := Landed(w, p);
    assert p.ref.key != "" && p.ref.key != USERNAME by {
      assert RobotOk(w.secrets, w.version, Issued(w, r), r, w.robots[r]);
    }
    if Lands(w, Place(p.ref), p.base, a.write) {
      LandOk(w, r, a.write);
      if a.write.Applied? {
        assert p.token.Some? ==> Current(w'.secrets, Issued(w', r), r, p.ref) by {
          BaseIsCurrent(w, r, a.write);
          WriterStaysOk(w, r);
        }
        FinishOk(w', r, p.ref, p.username, p.token);
      } else {
        EnterOk(w', r, Idle);
      }
    } else {
      EnterOk(w, r, Idle);
    }
  }

  lemma RobotStepOk(w: World, r: Name, a: Answer)
    requires Inv(w) && r in w.robots
    ensures Inv(RobotStep(w, r, a))
  {
    var p := w.robots[r].phase;
    if p.Fetching? { FetchOk(w, r, a); }
    else if p.Writing? { WriteOk(w, r, a); }
    else if p.Creating? || p.Rotating? { TokenOk(w, r, a); }
    else { PlainOk(w, r, a); }
  }

  lemma PlainOk(w: World, r: Name, a: Answer)
    requires Inv(w) && r in w.robots
    requires var p := w.robots[r].phase; p.Idle? || p.Syncing? || p.Deciding?
    ensures Inv(RobotStep(w, r, a))
  {
    var p := w.robots[r].phase;
    assert RobotOk(w.secrets, w.version, Issued(w, r), r, w.robots[r]);
    if p.Idle? { LoadOk(w, r, a); }
    else if p.Syncing? { SyncOk(w, r, p.ref, p.username, a); }
    else { EnterOk(w, r, if a.rotate then Rotating(p.ref, p.username) else Idle); }
  }

  lemma SyncOk(w: World, r: Name, ref: SecretRef, username: string, a: Answer)
    requires Inv(w) && r in w.robots && ref.key != "" && ref.key != USERNAME
    ensures Inv(SyncStep(w, r, ref, username, a))
  {
    EnterOk(w, r, Idle);
    EnterOk(w, r, Deciding(ref, username));
    EnterOk(w, r, Fetching(ref, username, None));
  }

  lemma LoadOk(w: World, r: Name, a: Answer)
    requires Inv(w) && r in w.robots && w.robots[r].phase.Idle?
    ensures Inv(RobotStep(w, r, a))
  {
    var ref := ResolveRef(r, w.robots[r].spec);
    if ref.Some? {
      EnterOk(w, r, Creating(ref.value));
      EnterOk(w, r, Syncing(ref.value, a.username));
    }
  }

  lemma TokenOk(w: World, r: Name, a: Answer)
    requires Inv(w) && r in w.robots
    requires var p := w.robots[r].phase; p.Creating? || p.Rotating?
    ensures Inv(RobotStep(w, r, a))
  {
    var p := w.robots[r].phase;
    var username := if p.Creating? then a.username else p.username;
    assert RobotOk(w.secrets, w.version, Issued(w, r), r, w.robots[r]);
    if a.token == "" {
      EnterOk(w, r, if p.Creating? && a.ok then Rotating(p.ref, username) else Idle);
    } else {
      IssueOk(w, r, a.token, if !a.ok || username == "" then Idle else Fetching(p.ref, username, Some(a.token)));
    }
  }

  lemma OutsiderOk(w: World, e: Event)
    requires Inv(w) && (e.OutsiderPuts? || e.OutsiderDeletes?)
    ensures Inv(Next(w, e))
  {
    var w' := Next(w, e);
    forall q ensures Issued(w', q) == Issued(w, q) {}
    forall k | k in w'.secrets ensures SecretOk(w', w'.secrets[k].secret) {
      if k in w.secrets && w'.secrets[k] == w.secrets[k] { assert SecretOk(w, w.secrets[k].secret); }
    }
    forall q | q in w.robots ensures RobotOk(w'.secrets, w'.version, Issued(w', q), q, w.robots[q]) {
      assert RobotOk(w.secrets, w.version, Issued(w, q), q, w.robots[q]);
    }
  }

  lemma StepKeepsInv(w: World, e: Event)
    requires Inv(w)
    ensures Inv(Next(w, e))
  {
    match e
    case Step(r, a) => if r in w.robots { RobotStepOk(w, r, a); }
    case OutsiderPuts(_, _) => OutsiderOk(w, e);
    case OutsiderDeletes(_) => OutsiderOk(w, e);
    case _ =>
      var w' := Next(w, e);
      forall q ensures Issued(w', q) == Issued(w, q) {}
      forall k | k in w.secrets ensures SecretOk(w', w.secrets[k].secret) { assert SecretOk(w, w.secrets[k].secret); }
  }

  lemma {:induction false} RunKeepsInv(w: World, run: seq<Event>)
    requires Init(w)
    ensures Inv(Exec(w, run))
  {
    if run == [] {
      forall k | k in w.secrets ensures SecretOk(w, w.secrets[k].secret) {}
    } else {
      RunKeepsInv(w, run[..|run| - 1]);
      StepKeepsInv(Exec(w, run[..|run| - 1]), run[|run| - 1]);
    }
  }

  // ---------- the results ----------

  /**
   In every reachable state, every entry but the user name of a robot's Secret is a token Harbor issued for that robot.
   */
  lemma TokensWereIssued(w: World, run: seq<Event>, k: Name, r: Name, j: string)
    requires Init(w)
    requires var s := Exec(w, run).secrets;
             k in s && OwnedBy(s[k].secret, OwnerOf(r)) && j in All(s[k].secret.data) && j != USERNAME
    ensures All(Exec(w, run).secrets[k].secret.data)[j] in Issued(Exec(w, run), r)
  {
    RunKeepsInv(w, run);
    assert SecretOk(Exec(w, run), Exec(w, run).secrets[k].secret);
  }

  /** A reconcile step changes Secrets only by a write that lands. */
  lemma StepSecrets(v: World, r: Name, a: Answer)
    requires r in v.robots
    ensures var p := v.robots[r].phase;
            RobotStep(v, r, a).secrets
            == if p.Writing? && Lands(v, Place(p.ref), p.base, a.write) then Landed(v, p).secrets else v.secrets
  {
    match v.robots[r].phase
    case Fetching(ref, username, token) => FetchReads(v, r, ref, username, token, a);
    case _ =>
  }

  lemma FetchReads(v: World, r: Name, ref: SecretRef, username: string, token: Option<string>, a: Answer)
    requires r in v.robots
    ensures FetchStep(v, r, ref, username, token, a).secrets == v.secrets
  {
    SendReads(v, r, ref, username, token,
              UpsertOf(SecretAt(v, Place(ref)), OwnerOf(r), Entries(ref, token, username)));
  }

  lemma SendReads(v: World, r: Name, ref: SecretRef, username: string, token: Option<string>, u: Upsert)
    requires r in v.robots
    ensures SendUpsert(v, r, ref, username, token, u).secrets == v.secrets
  {
  }

  /** The entry that differs after a reconcile step is the robot's own, and so is the Secret it was before. */
  lemma OnlyTheOwnerWrites(w: World, run: seq<Event>, r: Name, a: Answer, k: Name)
    requires Init(w)
    requires var v := Exec(w, run); SecretAt(Next(v, Step(r, a)), k) != SecretAt(v, k)
    ensures var v := Exec(w, run);
            var now := SecretAt(Next(v, Step(r, a)), k);
            && now.Some? && OwnedBy(now.value, OwnerOf(r))
            && (k in v.secrets ==> OwnedBy(v.secrets[k].secret, OwnerOf(r)))
            && r in v.robots && v.robots[r].phase.Writing? && k == Place(v.robots[r].phase.ref)
            && forall j :: j != USERNAME && (j != v.robots[r].phase.ref.key || v.robots[r].phase.token.None?) ==>
                 Lookup(now.value.data, j) == if k in v.secrets then Lookup(v.secrets[k].secret.data, j) else ""
  {
    RunKeepsInv(w, run);
    WriteIsOwn(Exec(w, run), r, a, k);
  }

  lemma WriteIsOwn(v: World, r: Name, a: Answer, k: Name)
    requires Inv(v) && SecretAt(Next(v, Step(r, a)), k) != SecretAt(v, k)
    ensures var now := SecretAt(Next(v, Step(r, a)), k);
            && now.Some? && OwnedBy(now.value, OwnerOf(r))
            && (k in v.secrets ==> OwnedBy(v.secrets[k].secret, OwnerOf(r)))
            && r in v.robots && v.robots[r].phase.Writing? && k == Place(v.robots[r].phase.ref)
            && forall j :: j != USERNAME && (j != v.robots[r].phase.ref.key || v.robots[r].phase.token.None?) ==>
                 Lookup(now.value.data, j) == if k in v.secrets then Lookup(v.secrets[k].secret.data, j) else ""
  {
    StepSecrets(v, r, a);
    var p := v.robots[r].phase;
    assert RobotOk(v.secrets, v.version, Issued(v, r), r, v.robots[r]);
    BaseIsCurrent(v, r, a.write);
    WriterStaysOk(v, r);
    UpsertKeepsTheRest(SecretOf(p.base), OwnerOf(r), Entries(p.ref, p.token, p.username));
  }

  /** After a rotation whose every call succeeded, the robot's key holds the token issued last. */
  lemma RotationStoresLatest(w: World, run: seq<Event>, r: Name, a: Answer)
    requires Init(w) && a.write.Applied?
    requires var v := Exec(w, run); r in v.robots && v.robots[r].phase.Writing? && v.robots[r].phase.token.Some?
    requires var v := Exec(w, run); var p := v.robots[r].phase; Lands(v, Place(p.ref), p.base, a.write)
    ensures var v := Exec(w, run);
            var p := v.robots[r].phase;
            var s := SecretAt(Next(v, Step(r, a)), Place(p.ref));
            s.Some? && EndsWith(Issued(Next(v, Step(r, a)), r), Lookup(s.value.data, p.ref.key))
  {
    RunKeepsInv(w, run);
    LandingStoresLatest(Exec(w, run), r, a);
  }

  lemma LandingStoresLatest(v: World, r: Name, a: Answer)
    requires Inv(v) && a.write.Applied? && r in v.robots && v.robots[r].phase.Writing? && v.robots[r].phase.token.Some?
    requires var p := v.robots[r].phase; Lands(v, Place(p.ref), p.base, a.write)
    ensures var p := v.robots[r].phase;
            var s := SecretAt(Next(v, Step(r, a)), Place(p.ref));
            s.Some? && EndsWith(Issued(Next(v, Step(r, a)), r), Lookup(s.value.data, p.ref.key))
  {
    var p := v.robots[r].phase;
    BaseIsCurrent(v, r, a.write);
    WriterStaysOk(v, r);
    var t := WriteStep(v, r, p, a);
    assert Next(v, Step(r, a)) == t && t.issued == v.issued;
    assert t.secrets[Place(p.ref)].secret == p.next;
    assert EndsWith(Issued(v, r), p.token.value) by {
      assert RobotOk(v.secrets, v.version, Issued(v, r), r, v.robots[r]);
    }
  }

  // ---------- settled, as a fact about the run ----------

  predicate SettledIn(w: World, r: Name) { r in w.robots && w.robots[r].settled }

  /**
   The robot's upsert of a token succeeds in this event, by a write or because nothing differs, where the spec points.
   */
  predicate Settles(w: World, r: Name, e: Event) {
    && e.Step? && e.robot == r && r in w.robots
    && var p := w.robots[r].phase;
       && (p.Fetching? || p.Writing?) && p.token.Some? && ResolveRef(r, w.robots[r].spec) == Some(p.ref)
       && (if p.Writing? then Lands(w, Place(p.ref), p.base, e.answer.write) && e.answer.write.Applied?
           else e.answer.ok
                && UpsertOf(SecretAt(w, Place(p.ref)), OwnerOf(r), Entries(p.ref, p.token, p.username)) == Unchanged)
  }

  /** A token is issued for the robot, its resolved reference is edited, or it is removed. */
  predicate Unsettles(w: World, r: Name, e: Event) {
    || (e.Step? && e.robot == r && r in w.robots && e.answer.token != ""
        && (w.robots[r].phase.Creating? || w.robots[r].phase.Rotating?))
    || (e.Edit? && e.robot == r && r in w.robots && ResolveRef(r, e.spec) != ResolveRef(r, w.robots[r].spec))
    || (e.Remove? && e.robot == r)
  }

  /** Robot r is the same in both worlds. */
  predicate SameRobot(w: World, v: World, r: Name) {
    (r in v.robots <==> r in w.robots) && (r in w.robots ==> v.robots[r] == w.robots[r])
  }

  lemma OtherUpsertKeepsRobot(w: World, r: Name, other: Name, p: Phase, u: Upsert)
    requires other in w.robots && other != r && p.Fetching?
    ensures SameRobot(w, SendUpsert(w, other, p.ref, p.username, p.token, u), r)
  {
  }

  /** Another robot's step does not touch this robot. */
  lemma OtherStepKeepsRobot(w: World, r: Name, other: Name, a: Answer)
    requires other in w.robots && other != r
    ensures SameRobot(w, RobotStep(w, other, a), r)
  {
    var p := w.robots[other].phase;
    if p.Fetching? {
      var u := UpsertOf(SecretAt(w, Place(p.ref)), OwnerOf(other), Entries(p.ref, p.token, p.username));
      OtherUpsertKeepsRobot(w, r, other, p, u);
    } else if p.Writing? {
      assert RobotStep(w, other, a) == WriteStep(w, other, p, a);
    } else if p.Creating? || p.Rotating? {
      var username := if p.Creating? then a.username else p.username;
      assert RobotStep(w, other, a) == TokenStep(w, other, p.ref, username, a, p.Creating?);
    } else {
      var v := RobotStep(w, other, a);
      assert v == w || v == Enter(w, other, v.robots[other].phase);
    }
  }

  /** The robot's own read: it settles when nothing is left to write. */
  lemma UpsertSettles(w: World, r: Name, p: Phase, u: Upsert)
    requires r in w.robots && w.robots[r].phase == p && p.Fetching? && (p.token.Some? ==> !w.robots[r].settled)
    ensures SettledIn(SendUpsert(w, r, p.ref, p.username, p.token, u), r) <==>
      || (u.Unchanged? && p.token.Some? && ResolveRef(r, w.robots[r].spec) == Some(p.ref))
      || SettledIn(w, r)
  {
  }

  /** The robot's own write. */
  lemma WriteSettles(w: World, r: Name, p: Phase, a: Answer)
    requires r in w.robots && w.robots[r].phase == p && p.Writing? && (p.token.Some? ==> !w.robots[r].settled)
    ensures SettledIn(WriteStep(w, r, p, a), r) <==>
      || (&& Lands(w, Place(p.ref), p.base, a.write) && a.write.Applied?
          && p.token.Some? && ResolveRef(r, w.robots[r].spec) == Some(p.ref))
      || SettledIn(w, r)
  {
  }

  lemma TokenUnsettles(w: World, r: Name, ref: SecretRef, username: string, a: Answer, creating: bool)
    requires r in w.robots
    ensures SettledIn(TokenStep(w, r, ref, username, a, creating), r) <==> SettledIn(w, r) && a.token == ""
  {
  }

  /** The robot's own step. */
  lemma OwnStepSettles(w: World, r: Name, a: Answer)
    requires r in w.robots
    requires var p := w.robots[r].phase; (p.Fetching? || p.Writing?) && p.token.Some? ==> !w.robots[r].settled
    ensures SettledIn(RobotStep(w, r, a), r) <==>
      Settles(w, r, Step(r, a)) || (SettledIn(w, r) && !Unsettles(w, r, Step(r, a)))
  {
    var p := w.robots[r].phase;
    if p.Fetching? {
      UpsertSettles(w, r, p, UpsertOf(SecretAt(w, Place(p.ref)), OwnerOf(r), Entries(p.ref, p.token, p.username)));
    } else if p.Writing? {
      WriteSettles(w, r, p, a);
    } else if p.Creating? || p.Rotating? {
      TokenUnsettles(w, r, p.ref, if p.Creating? then a.username else p.username, a, p.Creating?);
    }
  }

  lemma StepSettles(w: World, r: Name, e: Event)
    requires Inv(w)
    ensures SettledIn(Next(w, e), r) <==> Settles(w, r, e) || (SettledIn(w, r) && !Unsettles(w, r, e))
  {
    if e.Step? && e.robot in w.robots {
      if e.robot == r {
        assert RobotOk(w.secrets, w.version, Issued(w, r), r, w.robots[r]);
        OwnStepSettles(w, r, e.answer);
      } else {
        OtherStepKeepsRobot(w, r, e.robot, e.answer);
      }
    }
  }

  ghost predicate SettlesAt(w: World, run: seq<Event>, r: Name, j: nat) {
    j < |run| && Settles(Exec(w, run[..j]), r, run[j])
  }

  ghost predicate UnsettlesAt(w: World, run: seq<Event>, r: Name, j: nat) {
    j < |run| && Unsettles(Exec(w, run[..j]), r, run[j])
  }

  /** Event j settled the robot and nothing has unsettled it since. */
  ghost predicate SettledSince(w: World, run: seq<Event>, r: Name, j: nat) {
    SettlesAt(w, run, r, j) && forall n: nat :: j < n ==> !UnsettlesAt(w, run, r, n)
  }

  /** What happened before one more event. */
  ghost predicate SamePast(w: World, run: seq<Event>, before: seq<Event>, r: Name) {
    && |run| == |before| + 1
    && (forall j: nat :: j < |before| ==> SettlesAt(w, run, r, j) == SettlesAt(w, before, r, j))
    && (forall j: nat :: j < |before| ==> UnsettlesAt(w, run, r, j) == UnsettlesAt(w, before, r, j))
  }

  lemma PastStays(w: World, run: seq<Event>, r: Name)
    requires run != []
    ensures SamePast(w, run, run[..|run| - 1], r)
  {
    var before := run[..|run| - 1];
    forall j: nat | j < |before| ensures before[..j] == run[..j] && before[j] == run[j] {}
  }

  lemma LastEvent(w: World, run: seq<Event>, r: Name)
    requires Init(w) && run != []
    ensures var m := |run| - 1;
            SettledIn(Exec(w, run), r) <==>
              SettlesAt(w, run, r, m) || (SettledIn(Exec(w, run[..m]), r) && !UnsettlesAt(w, run, r, m))
  {
    var m := |run| - 1;
    RunKeepsInv(w, run[..m]);
    StepSettles(Exec(w, run[..m]), r, run[m]);
  }

  ghost predicate EverSettled(w: World, run: seq<Event>, r: Name) { exists j: nat :: SettledSince(w, run, r, j) }

  lemma SettledGrows(w: World, run: seq<Event>, before: seq<Event>, r: Name)
    requires SamePast(w, run, before, r)
    ensures EverSettled(w, run, r) <==>
      SettlesAt(w, run, r, |before|) || (EverSettled(w, before, r) && !UnsettlesAt(w, run, r, |before|))
  {
    var m := |before|;
    if SettlesAt(w, run, r, m) { assert SettledSince(w, run, r, m); }
    if j: nat :| SettledSince(w, run, r, j) && j != m { StillSettled(w, run, before, r, j); }
    if j: nat :| SettledSince(w, before, r, j) { StillSettled(w, run, before, r, j); }
  }

  lemma StillSettled(w: World, run: seq<Event>, before: seq<Event>, r: Name, j: nat)
    requires SamePast(w, run, before, r) && j < |before|
    ensures SettledSince(w, run, r, j) <==> SettledSince(w, before, r, j) && !UnsettlesAt(w, run, r, |before|)
  {
  }

  /** The flag is a fact about the run: some upsert settled the robot, and nothing has unsettled it since. */
  lemma {:induction false} SettledExactlyWhenStoredLast(w: World, run: seq<Event>, r: Name)
    requires Init(w)
    ensures SettledIn(Exec(w, run), r) <==> EverSettled(w, run, r)
  {
    if run != [] {
      var before := run[..|run| - 1];
      SettledExactlyWhenStoredLast(w, before, r);
      LastEvent(w, run, r);
      PastStays(w, run, r);
      SettledGrows(w, run, before, r);
    }
  }

  /**
   Once a token upsert has succeeded where the spec points, then until the next token is issued, the reference is edited
   or the robot removed, the token in the robot's Secret is the latest one issued.
   */
  lemma SettledStaysLatest(w: World, run: seq<Event>, r: Name, j: nat)
    requires Init(w) && SettledSince(w, run, r, j)
    ensures var v := Exec(w, run);
            && r in v.robots
            && var ref := ResolveRef(r, v.robots[r].spec);
               ref.Some? && Current(v.secrets, Issued(v, r), r, ref.value)
  {
    SettledExactlyWhenStoredLast(w, run, r);
    RunKeepsInv(w, run);
  }

  /**
   A user name write that lands keeps the robot's token if and only if the Secret it was computed from had one, and that
   is the Secret stored until then.
   */
  lemma SyncKeepsTokenExactlyWhenItWasRead(w: World, run: seq<Event>, r: Name, a: Answer)
    requires Init(w)
    requires var v := Exec(w, run); r in v.robots && v.robots[r].phase.Writing? && v.robots[r].phase.token.None?
    requires var v := Exec(w, run); var p := v.robots[r].phase; Lands(v, Place(p.ref), p.base, a.write)
    ensures var v := Exec(w, run);
            var p := v.robots[r].phase;
            var now := SecretAt(Next(v, Step(r, a)), Place(p.ref));
            && now.Some? && SecretOf(p.base) == SecretAt(v, Place(p.ref))
            && (p.ref.key in All(now.value.data) <==> p.base.Some? && p.ref.key in All(p.base.value.secret.data))
            && (p.ref.key in All(now.value.data) ==>
                  All(now.value.data)[p.ref.key] == All(p.base.value.secret.data)[p.ref.key])
  {
    RunKeepsInv(w, run);
    var v := Exec(w, run);
    var p := v.robots[r].phase;
    BaseIsCurrent(v, r, a.write);
    assert RobotOk(v.secrets, v.version, Issued(v, r), r, v.robots[r]);
    NameWriteKeepsKey(SecretOf(p.base), r, p.ref, p.username);
    StepSecrets(v, r, a);
  }

  /** Writing the user name alone neither adds nor removes another entry. */
  lemma NameWriteKeepsKey(base: Option<Secret>, r: Name, ref: SecretRef, username: string)
    requires ref.key != USERNAME
    requires var u := UpsertOf(base, OwnerOf(r), Entries(ref, None, username)); u.Create? || u.Update?
    ensures var s := UpsertOf(base, OwnerOf(r), Entries(ref, None, username)).secret;
            && (ref.key in All(s.data) <==> base.Some? && ref.key in All(base.value.data))
            && (ref.key in All(s.data) ==> All(s.data)[ref.key] == All(base.value.data)[ref.key])
  {
    var s := UpsertOf(base, OwnerOf(r), Entries(ref, None, username)).secret;
    assert base.Some? ==> s.data.value == All(base.value.data) + Entries(ref, None, username);
  }

  ghost predicate Tokenless(t: World, r: Name, ref: SecretRef) {
    var k := Place(ref);
    k in t.secrets && OwnedBy(t.secrets[k].secret, OwnerOf(r)) && ref.key !in All(t.secrets[k].secret.data)
  }

  /**
   A Secret deleted between the two reads of a user name sync comes back without its token, and no error is reported.
   */
  lemma DeletionBetweenReadsLosesToken(v: World, r: Name, p: Phase, a: Answer, b: Answer, u: World, x: World, t: World)
    requires p.Fetching? && p.token.None? && p.ref.key != USERNAME && a.ok && b.write.Applied?
    requires r in v.robots && v.robots[r].phase == p
    requires u == Next(v, OutsiderDeletes(Place(p.ref))) && x == Next(u, Step(r, a)) && t == Next(x, Step(r, b))
    ensures Tokenless(t, r, p.ref) && t.robots == v.robots[r := v.robots[r].(phase := Deciding(p.ref, p.username))]
  {
    var values := Entries(p.ref, None, p.username);
    var s := Marked(Secret(None, None, Some(values)), OwnerOf(r));
    NameAloneIsCreated(p.ref, OwnerOf(r), p.username);
    assert SecretAt(u, Place(p.ref)) == None && u.robots == v.robots;
    assert x == Enter(u, r, Writing(p.ref, p.username, None, None, s));
  }

  lemma NameAloneIsCreated(ref: SecretRef, o: Owner, username: string)
    requires ref.key != USERNAME
    ensures var values := Entries(ref, None, username);
            var s := Marked(Secret(None, None, Some(values)), o);
            UpsertOf(None, o, values) == Create(s) && OwnedBy(s, o) && ref.key !in All(s.data)
  {
    var values := Entries(ref, None, username);
    assert USERNAME != "" && "" !in values;
    UpsertKeepsTheRest(None, o, values);
  }
}
