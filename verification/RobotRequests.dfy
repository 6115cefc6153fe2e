/** Where the user name in a robot's Secret comes from, and what every issued token answers. */
module RobotRequests {
  import opened Values
  import opened OwnedSecrets
  import opened RobotTokens

  /**
   A reference is refused exactly when it has no name or takes the user name's key; otherwise it keeps its name, and its
   namespace and key default to the robot's own and to "secret".
   */
  lemma ReferenceResolves(robot: Name, ref: SecretRef)
    ensures var r := ResolveRef(robot, Some(ref));
            && (r.None? <==> ref.name == "" || ref.key == USERNAME)
            && (r.Some? ==> r.value.name == ref.name)
            && (r.Some? && ref.namespace == "" ==> r.value.namespace == robot.namespace)
            && (r.Some? && ref.namespace != "" ==> r.value.namespace == ref.namespace)
            && (r.Some? && ref.key == "" ==> r.value.key == "secret")
            && (r.Some? && ref.key != "" ==> r.value.key == ref.key)
  {
  }

  // ---------- the user name ----------

  /** The user name a reconcile carries. */
  function NameOf(p: Phase): Option<string> { if p.Idle? || p.Creating? then None else Some(p.username) }

  function NameIn(w: World, r: Name): Option<string> { if r in w.robots then NameOf(w.robots[r].phase) else None }

  /** In this event Harbor reports the user name, for a robot it finds or has just created. */
  predicate Reports(w: World, e: Event, r: Name, u: string) {
    && e.Step? && e.robot == r && r in w.robots && e.answer.username == u
    && (w.robots[r].phase.Creating? || (w.robots[r].phase.Idle? && e.answer.known))
  }

  ghost predicate Reported(w: World, run: seq<Event>, r: Name, u: string) {
    exists j: nat :: j < |run| && Reports(Exec(w, run[..j]), run[j], r, u)
  }

  lemma ReportedStays(w: World, run: seq<Event>, r: Name, u: string)
    requires run != [] && Reported(w, run[..|run| - 1], r, u)
    ensures Reported(w, run, r, u)
  {
    var before := run[..|run| - 1];
    var j: nat :| j < |before| && Reports(Exec(w, before[..j]), before[j], r, u);
    assert before[..j] == run[..j];
  }

  lemma OwnName(w: World, r: Name, a: Answer)
    requires r in w.robots
    ensures var v := RobotStep(w, r, a);
            NameIn(v, r).None? || NameIn(v, r) == NameIn(w, r) || Reports(w, Step(r, a), r, NameIn(v, r).value)
  {
    var p := w.robots[r].phase;
    if p.Fetching? {
      UpsertName(w, r, p, UpsertOf(SecretAt(w, Place(p.ref)), OwnerOf(r), Entries(p.ref, p.token, p.username)));
    } else if p.Writing? { assert RobotStep(w, r, a) == WriteStep(w, r, p, a); }
  }

  lemma UpsertName(w: World, r: Name, p: Phase, u: Upsert)
    requires r in w.robots && w.robots[r].phase == p && p.Fetching?
    ensures NameIn(SendUpsert(w, r, p.ref, p.username, p.token, u), r) in {None, Some(p.username)}
  {
  }

  /** Whatever the read calls for is written next. */
  lemma UpsertIsSent(w: World, r: Name, p: Phase, u: Upsert)
    requires r in w.robots && p.Fetching? && (u.Create? || u.Update?)
    ensures var v := SendUpsert(w, r, p.ref, p.username, p.token, u);
            && v.robots[r].phase.Writing? && v.robots[r].phase.next == u.secret && v.robots[r].phase.ref == p.ref
            && SecretOf(v.robots[r].phase.base) == SecretAt(w, Place(p.ref)) && v.secrets == w.secrets
  {
  }

  lemma NameComesFrom(w: World, e: Event, r: Name)
    ensures var n := NameIn(Next(w, e), r); n.None? || n == NameIn(w, r) || Reports(w, e, r, n.value)
  {
    if e.Step? && e.robot in w.robots {
      if e.robot == r { OwnName(w, r, e.answer); } else { OtherStepKeepsRobot(w, r, e.robot, e.answer); }
    }
  }

  lemma {:induction false} NameWasReported(w: World, run: seq<Event>, r: Name)
    requires Init(w)
    ensures var n := NameIn(Exec(w, run), r); n.Some? ==> Reported(w, run, r, n.value)
  {
    if run != [] {
      var before := run[..|run| - 1];
      var v, n := Exec(w, before), NameIn(Exec(w, run), r);
      NameWasReported(w, before, r);
      NameComesFrom(v, run[|run| - 1], r);
      if n.Some? && n == NameIn(v, r) { ReportedStays(w, run, r, n.value); }
    }
  }

  /** A reconcile that may write carries a user name. */
  predicate Named(w: World, r: Name) {
    r in w.robots ==> var p := w.robots[r].phase; p.Idle? || p.Creating? || p.Rotating? || p.username != ""
  }

  lemma OwnStepNames(w: World, r: Name, a: Answer)
    requires r in w.robots && Named(w, r)
    ensures Named(RobotStep(w, r, a), r)
  {
    var p := w.robots[r].phase;
    if p.Fetching? {
      UpsertName(w, r, p, UpsertOf(SecretAt(w, Place(p.ref)), OwnerOf(r), Entries(p.ref, p.token, p.username)));
    }
  }

  lemma {:induction false} AlwaysNamed(w: World, run: seq<Event>, r: Name)
    requires Init(w)
    ensures Named(Exec(w, run), r)
  {
    if run != [] {
      var v, e := Exec(w, run[..|run| - 1]), run[|run| - 1];
      AlwaysNamed(w, run[..|run| - 1], r);
      if e.Step? && e.robot in v.robots {
        if e.robot == r { OwnStepNames(v, r, e.answer); } else { OtherStepKeepsRobot(v, r, e.robot, e.answer); }
      }
    }
  }

  /** A write of robot r stores the user name the reconcile carries. */
  lemma UpsertStoresName(base: Option<Secret>, r: Name, ref: SecretRef, token: Option<string>, username: string)
    requires ref.key != USERNAME
    requires var u := UpsertOf(base, OwnerOf(r), Entries(ref, token, username)); u.Create? || u.Update?
    ensures var s := UpsertOf(base, OwnerOf(r), Entries(ref, token, username)).secret;
            USERNAME in All(s.data) && All(s.data)[USERNAME] == username && OwnedBy(s, OwnerOf(r))
  {
    UpsertKeepsTheRest(base, OwnerOf(r), Entries(ref, token, username));
  }

  /** The Secret's user name entry is one that Harbor reported for robot r. */
  ghost predicate NameKnown(w: World, run: seq<Event>, r: Name, s: Secret) {
    USERNAME in All(s.data) && All(s.data)[USERNAME] != "" && Reported(w, run, r, All(s.data)[USERNAME])
  }

  /** What one event does to the Secrets of robot r: none is new but by a write that carries a reported name. */
  lemma OwnedSecretComesFrom(v: World, e: Event, k: Name, r: Name)
    requires Inv(v) && Named(v, r) && k in Next(v, e).secrets && OwnedBy(Next(v, e).secrets[k].secret, OwnerOf(r))
    ensures var s := Next(v, e).secrets[k].secret;
            || SecretAt(v, k) == Some(s)
            || (USERNAME in All(s.data) && All(s.data)[USERNAME] != "" && NameIn(v, r) == Some(All(s.data)[USERNAME]))
  {
    var s := Next(v, e).secrets[k].secret;
    if SecretAt(v, k) != Some(s) && e.Step? {
      WriteIsOwn(v, e.robot, e.answer, k);
      OneOwner(s, OwnerOf(e.robot), OwnerOf(r));
      WrittenName(v, r, e.answer, k);
    }
  }

  lemma WrittenName(v: World, r: Name, a: Answer, k: Name)
    requires Inv(v) && r in v.robots && SecretAt(Next(v, Step(r, a)), k) != SecretAt(v, k)
    ensures var s := SecretAt(Next(v, Step(r, a)), k);
            && s.Some? && USERNAME in All(s.value.data) && v.robots[r].phase.Writing?
            && NameIn(v, r) == Some(All(s.value.data)[USERNAME])
  {
    StepSecrets(v, r, a);
    var p := v.robots[r].phase;
    assert RobotOk(v.secrets, v.version, Issued(v, r), r, v.robots[r]);
    UpsertStoresName(SecretOf(p.base), r, p.ref, p.token, p.username);
  }

  /**
   In every reachable state, the user name entry of a robot's Secret is a name, never empty, that Harbor reported for
   that robot.
   */
  lemma {:induction false} UserNamesWereReported(w: World, run: seq<Event>, k: Name, r: Name)
    requires Init(w) && k in Exec(w, run).secrets && OwnedBy(Exec(w, run).secrets[k].secret, OwnerOf(r))
    ensures NameKnown(w, run, r, Exec(w, run).secrets[k].secret)
  {
    if run == [] {
      assert RobotOwned(w.secrets[k].secret);
      assert false;
    } else {
      var before := run[..|run| - 1];
      var v, s := Exec(w, before), Exec(w, run).secrets[k].secret;
      RunKeepsInv(w, before);
      AlwaysNamed(w, before, r);
      OwnedSecretComesFrom(v, run[|run| - 1], k, r);
      if SecretAt(v, k) == Some(s) { UserNamesWereReported(w, before, k, r); } else { NameWasReported(w, before, r); }
      ReportedStays(w, run, r, All(s.data)[USERNAME]);
    }
  }

  // ---------- the tokens ----------

  /** The reconcile waits for the token of a rotation, or of a created robot. */
  predicate Waits(w: World, r: Name, rotating: bool) {
    r in w.robots && if rotating then w.robots[r].phase.Rotating? else w.robots[r].phase.Creating?
  }

  /**
   In this event a reconcile turns to Harbor for a token: a rotation is due or a created robot came without one, or
   Harbor knows no such robot yet.
   */
  predicate Asks(w: World, e: Event, r: Name, rotating: bool) {
    && e.Step? && e.robot == r && r in w.robots
    && match w.robots[r].phase
       case Deciding(_, _) => rotating && e.answer.rotate
       case Creating(_) => rotating && e.answer.ok && e.answer.token == ""
       case Idle => !rotating && !e.answer.known
       case _ => false
  }

  /** Event j asks for a token, and its reconcile has waited for Harbor's answer ever since. */
  ghost predicate AskedSince(w: World, run: seq<Event>, r: Name, rotating: bool, j: nat) {
    && j < |run| && Asks(Exec(w, run[..j]), run[j], r, rotating)
    && forall n: nat :: j < n <= |run| ==> Waits(Exec(w, run[..n]), r, rotating)
  }

  lemma OwnAsk(w: World, r: Name, a: Answer, rotating: bool)
    requires r in w.robots && Waits(RobotStep(w, r, a), r, rotating)
    ensures Asks(w, Step(r, a), r, rotating)
  {
    var p := w.robots[r].phase;
    if p.Fetching? {
      var u := UpsertOf(SecretAt(w, Place(p.ref)), OwnerOf(r), Entries(p.ref, p.token, p.username));
      UpsertAsk(w, r, p, u, rotating);
    }
  }

  lemma UpsertAsk(w: World, r: Name, p: Phase, u: Upsert, rotating: bool)
    requires r in w.robots && w.robots[r].phase == p && p.Fetching?
    ensures !Waits(SendUpsert(w, r, p.ref, p.username, p.token, u), r, rotating)
  {
  }

  lemma WaitComesFrom(w: World, e: Event, r: Name, rotating: bool)
    requires Waits(Next(w, e), r, rotating)
    ensures Waits(w, r, rotating) || Asks(w, e, r, rotating)
  {
    if e.Step? && e.robot in w.robots {
      if e.robot == r { OwnAsk(w, r, e.answer, rotating); } else { OtherStepKeepsRobot(w, r, e.robot, e.answer); }
    }
  }

  lemma AskGrows(w: World, run: seq<Event>, n: nat, r: Name, rotating: bool, j: nat)
    requires |run| == n + 1 && AskedSince(w, run[..n], r, rotating, j) && Waits(Exec(w, run), r, rotating)
    ensures AskedSince(w, run, r, rotating, j)
  {
    var before := run[..n];
    assert before[..j] == run[..j] && run[..|run|] == run;
    forall m: nat | j < m <= |run| ensures Waits(Exec(w, run[..m]), r, rotating) {
      if m <= n { assert before[..m] == run[..m]; }
    }
  }

  lemma {:induction false} WaitingWasAsked(w: World, run: seq<Event>, r: Name, rotating: bool)
    requires Init(w) && Waits(Exec(w, run), r, rotating)
    ensures exists j: nat :: AskedSince(w, run, r, rotating, j)
  {
    var n := |run| - 1;
    var before := run[..n];
    WaitComesFrom(Exec(w, before), run[n], r, rotating);
    if Waits(Exec(w, before), r, rotating) {
      WaitingWasAsked(w, before, r, rotating);
      var j: nat :| AskedSince(w, before, r, rotating, j);
      AskGrows(w, run, n, r, rotating, j);
    } else {
      assert run[..|run|] == run;
      assert AskedSince(w, run, r, rotating, n);
    }
  }

  /** An event issues a token for r only as the answer to r's own request. */
  lemma IssueAnswers(w: World, e: Event, r: Name)
    requires Issued(Next(w, e), r) != Issued(w, r)
    ensures e.Step? && e.robot == r && e.answer.token != "" && Issued(Next(w, e), r) == Issued(w, r) + [e.answer.token]
    ensures Waits(w, r, true) || Waits(w, r, false)
  {
    if e.Step? && e.robot in w.robots {
      var p := w.robots[e.robot].phase;
      if p.Fetching? {
        UpsertIssuesNothing(w, e.robot, p,
          UpsertOf(SecretAt(w, Place(p.ref)), OwnerOf(e.robot), Entries(p.ref, p.token, p.username)));
      }
    }
  }

  lemma UpsertIssuesNothing(w: World, r: Name, p: Phase, u: Upsert)
    requires r in w.robots && w.robots[r].phase == p && p.Fetching?
    ensures SendUpsert(w, r, p.ref, p.username, p.token, u).issued == w.issued
  {
  }

  /**
   In every run: a token is issued for a robot only in its own reconcile, when that reconcile found no such robot in
   Harbor, found a rotation due, or was given a created robot without a token.
   */
  lemma TokensWereAskedFor(w: World, run: seq<Event>, e: Event, r: Name)
    requires Init(w) && Issued(Next(Exec(w, run), e), r) != Issued(Exec(w, run), r)
    ensures e.Step? && e.robot == r && exists rotating: bool, j: nat :: AskedSince(w, run, r, rotating, j)
  {
    var v := Exec(w, run);
    IssueAnswers(v, e, r);
    if Waits(v, r, true) { WaitingWasAsked(w, run, r, true); } else { WaitingWasAsked(w, run, r, false); }
  }
}
