/** Undisturbed reconciles of a Robot: when every call succeeds, its Secret holds what Harbor reported and issued. */
module RobotConverges {
  import opened Values
  import opened OwnedSecrets
  import opened RobotTokens
  import opened RobotRequests

  /** What the reconcile meets: whether Harbor knows the robot, whether a rotation is due, the name and the token. */
  datatype Setting = Setting(known: bool, rotate: bool, username: string, token: string)

  /** Every call succeeds. */
  predicate Good(s: Setting, r: Name, e: Event) {
    && e.Step? && e.robot == r && e.answer.ok && e.answer.write.Applied?
    && e.answer.known == s.known && e.answer.rotate == s.rotate
    && e.answer.username == s.username != "" && e.answer.token == s.token != ""
  }

  /** The calls left at most. */
  function Rank(p: Phase): nat {
    match p
    case Idle => 0
    case Writing(_, _, token, _, _) => if token.Some? then 1 else 5
    case Fetching(_, _, token) => if token.Some? then 2 else 6
    case Rotating(_, _) => 3
    case Creating(_) => 3
    case Deciding(_, _) => 4
    case Syncing(_, _) => 7
  }

  function DataOf(s: Option<Secret>): Texts { if s.Some? then All(s.value.data) else map[] }

  /** Somebody else's Secret is where this robot's should be. */
  predicate Blocked(w: World, r: Name, ref: SecretRef) {
    var s := SecretAt(w, Place(ref)); s.Some? && !OwnedBy(s.value, OwnerOf(r))
  }

  /** Only the robot's own Secret differs; it is the robot's and holds the given entries besides those it had. */
  predicate Merges(start: World, w: World, r: Name, ref: SecretRef, values: Texts) {
    && w.secrets - {Place(ref)} == start.secrets - {Place(ref)}
    && var now := SecretAt(w, Place(ref));
       && now.Some? && OwnedBy(now.value, OwnerOf(r))
       && DataOf(now) == DataOf(SecretAt(start, Place(ref))) + values
  }

  /** The user name is in the Secret, if there is one. */
  predicate Synced(start: World, w: World, r: Name, ref: SecretRef, username: string) {
    if SecretAt(start, Place(ref)).None? then w.secrets == start.secrets
    else Merges(start, w, r, ref, map[USERNAME := username])
  }

  predicate SameBut(start: World, w: World, r: Name) {
    && r in start.robots && r in w.robots && w.robots[r].spec == start.robots[r].spec
    && w.robots - {r} == start.robots - {r}
  }

  ghost predicate OnTrack(start: World, w: World, r: Name, ref: SecretRef, s: Setting) {
    && SameBut(start, w, r) && ResolveRef(r, start.robots[r].spec) == Some(ref)
    && var p := w.robots[r].phase;
       && !p.Idle? && p.ref == ref && (NameOf(p).Some? ==> p.username == s.username)
       && if (p.Fetching? || p.Writing?) && p.token.Some? then
            && p.token == Some(s.token) && Issued(w, r) == Issued(start, r) + [s.token] && (s.known ==> s.rotate)
            && (if s.known then !Blocked(start, r, ref) && Synced(start, w, r, ref, s.username)
                else w.secrets == start.secrets)
            && (p.Writing? ==> SecretOf(p.base) == SecretAt(w, Place(ref)) && Lands(w, Place(ref), p.base, Applied))
          else
            && Issued(w, r) == Issued(start, r) && (p.Creating? <==> !s.known)
            && (p.Deciding? || p.Rotating? ==> !Blocked(start, r, ref) && Synced(start, w, r, ref, s.username))
            && (p.Rotating? ==> s.rotate)
            && (!p.Deciding? && !p.Rotating? ==> w.secrets == start.secrets)
            && (p.Fetching? || p.Writing? ==> SecretAt(w, Place(ref)).Some? && !Blocked(start, r, ref))
            && (p.Writing? ==> SecretOf(p.base) == SecretAt(w, Place(ref)) && Lands(w, Place(ref), p.base, Applied))
  }

  /**
   A Secret of another owner stops everything, but not before the token of a new robot is issued. Otherwise a token that
   is due is issued once and stored with the user name, and where none is due the name alone is brought up to date.
   */
  predicate EndsWell(start: World, w: World, r: Name, ref: SecretRef, s: Setting) {
    && SameBut(start, w, r)
    && Issued(w, r) == Issued(start, r)
         + (if !s.known || (s.rotate && !Blocked(start, r, ref)) then [s.token] else [])
    && if Blocked(start, r, ref) then w.secrets == start.secrets
       else if !s.known || s.rotate then Merges(start, w, r, ref, map[ref.key := s.token, USERNAME := s.username])
       else Synced(start, w, r, ref, s.username)
  }

  ghost predicate Progress(start: World, w: World, v: World, r: Name, ref: SecretRef, s: Setting)
    requires r in w.robots
  {
    && r in v.robots && Rank(v.robots[r].phase) < Rank(w.robots[r].phase)
    && if v.robots[r].phase.Idle? then EndsWell(start, v, r, ref, s) else OnTrack(start, v, r, ref, s)
  }

  /** Entering another phase changes nothing else. */
  lemma EnterKeeps(start: World, w: World, r: Name, p: Phase)
    requires SameBut(start, w, r)
    ensures var v := Enter(w, r, p);
            SameBut(start, v, r) && Issued(v, r) == Issued(w, r) && v.secrets == w.secrets && v.robots[r].phase == p
  {
    assert Enter(w, r, p).robots - {r} == w.robots - {r};
  }

  lemma IssueKeeps(start: World, w: World, r: Name, token: string, p: Phase)
    requires SameBut(start, w, r)
    ensures var v := Issue(w, r, token, p);
            && SameBut(start, v, r) && Issued(v, r) == Issued(w, r) + [token]
            && v.secrets == w.secrets && v.robots[r].phase == p
  {
    assert Issue(w, r, token, p).robots - {r} == w.robots - {r};
  }

  lemma SyncStepOn(start: World, w: World, r: Name, ref: SecretRef, s: Setting, e: Event)
    requires OnTrack(start, w, r, ref, s) && Good(s, r, e) && w.robots[r].phase.Syncing?
    ensures Progress(start, w, Next(w, e), r, ref, s)
  {
    EnterKeeps(start, w, r, Idle);
    EnterKeeps(start, w, r, Deciding(ref, s.username));
    EnterKeeps(start, w, r, Fetching(ref, s.username, None));
  }

  lemma DecideStepOn(start: World, w: World, r: Name, ref: SecretRef, s: Setting, e: Event)
    requires OnTrack(start, w, r, ref, s) && Good(s, r, e) && w.robots[r].phase.Deciding?
    ensures Progress(start, w, Next(w, e), r, ref, s)
  {
    var p := if s.rotate then Rotating(ref, s.username) else Idle;
    assert Next(w, e) == Enter(w, r, p);
    EnterKeeps(start, w, r, p);
  }

  lemma TokenStepOn(start: World, w: World, r: Name, ref: SecretRef, s: Setting, e: Event)
    requires OnTrack(start, w, r, ref, s) && Good(s, r, e)
    requires w.robots[r].phase.Creating? || w.robots[r].phase.Rotating?
    ensures Progress(start, w, Next(w, e), r, ref, s)
  {
    var p := Fetching(ref, s.username, Some(s.token));
    assert Next(w, e) == Issue(w, r, s.token, p);
    IssueKeeps(start, w, r, s.token, p);
  }

  // ---------- the upserts ----------

  /** What an upsert leaves in the robot's own or missing Secret, sent or found to be there. */
  lemma UpsertMerges(existing: Option<Secret>, r: Name, values: Texts)
    requires "" !in values && (existing.Some? ==> OwnedBy(existing.value, OwnerOf(r)))
    ensures var u := UpsertOf(existing, OwnerOf(r), values);
            if u.Unchanged? then existing.Some? && DataOf(existing) == DataOf(existing) + values
            else (u.Create? || u.Update?) && OwnedBy(u.secret, OwnerOf(r))
                 && All(u.secret.data) == DataOf(existing) + values
  {
    var u := UpsertOf(existing, OwnerOf(r), values);
    if u.Create? || u.Update? { UpsertKeepsTheRest(existing, OwnerOf(r), values); }
    assert map[] + values == values;
  }

  /** The entries of an upsert that carries a token replace those of one that carries the name alone. */
  lemma MergeAfter(start: World, w: World, v: World, r: Name, ref: SecretRef, username: string, token: string)
    requires w.secrets == start.secrets || Synced(start, w, r, ref, username)
    requires Merges(w, v, r, ref, map[ref.key := token, USERNAME := username])
    ensures Merges(start, v, r, ref, map[ref.key := token, USERNAME := username])
  {
    var data, both := DataOf(SecretAt(start, Place(ref))), map[ref.key := token, USERNAME := username];
    assert data + map[USERNAME := username] + both == data + both;
  }

  lemma FinishKeeps(start: World, w: World, r: Name, ref: SecretRef, username: string, token: Option<string>)
    requires SameBut(start, w, r)
    ensures var v := Finish(w, r, ref, username, token);
            && SameBut(start, v, r) && Issued(v, r) == Issued(w, r) && v.secrets == w.secrets
            && v.robots[r].phase == if token.None? then Deciding(ref, username) else Idle
  {
    assert Finish(w, r, ref, username, token).robots - {r} == w.robots - {r};
  }

  /** With nothing to write the Secret is as after a write. */
  lemma NothingToWrite(w: World, r: Name, ref: SecretRef, values: Texts)
    requires UpsertOf(SecretAt(w, Place(ref)), OwnerOf(r), values).Unchanged?
    ensures Merges(w, w, r, ref, values)
  {
    UpsertMerges(SecretAt(w, Place(ref)), r, values);
  }

  /** The read before a write that carries the name alone. */
  lemma FetchNameOn(start: World, w: World, r: Name, ref: SecretRef, s: Setting, e: Event)
    requires OnTrack(start, w, r, ref, s) && Good(s, r, e)
    requires w.robots[r].phase == Fetching(ref, s.username, None)
    ensures Progress(start, w, Next(w, e), r, ref, s)
  {
    var values := map[USERNAME := s.username];
    assert Entries(ref, None, s.username) == values;
    var u := UpsertOf(SecretAt(w, Place(ref)), OwnerOf(r), values);
    UpsertMerges(SecretAt(w, Place(ref)), r, values);
    if u.Unchanged? {
      FinishKeeps(start, w, r, ref, s.username, None);
      NothingToWrite(w, r, ref, values);
    } else {
      EnterKeeps(start, w, r, Writing(ref, s.username, None, Some(w.secrets[Place(ref)]), u.secret));
    }
    assert Next(w, e) == SendUpsert(w, r, ref, s.username, None, u);
  }

  predicate WaitsToStore(w: World, r: Name, ref: SecretRef, s: Setting) {
    r in w.robots && w.robots[r].phase == Fetching(ref, s.username, Some(s.token))
  }

  function Both(ref: SecretRef, s: Setting): Texts { map[ref.key := s.token, USERNAME := s.username] }

  /** The read before a write that carries a token: somebody else's Secret is there. */
  lemma FetchBlocked(start: World, w: World, r: Name, ref: SecretRef, s: Setting)
    requires OnTrack(start, w, r, ref, s) && WaitsToStore(w, r, ref, s) && Blocked(w, r, ref)
    ensures Progress(start, w, Enter(w, r, Idle), r, ref, s)
  {
    EnterKeeps(start, w, r, Idle);
  }

  /** Nothing is left to write. */
  lemma FetchFound(start: World, w: World, r: Name, ref: SecretRef, s: Setting)
    requires OnTrack(start, w, r, ref, s) && WaitsToStore(w, r, ref, s)
    requires UpsertOf(SecretAt(w, Place(ref)), OwnerOf(r), Both(ref, s)).Unchanged?
    ensures Progress(start, w, Finish(w, r, ref, s.username, Some(s.token)), r, ref, s)
  {
    FinishKeeps(start, w, r, ref, s.username, Some(s.token));
    assert Merges(w, w, r, ref, Both(ref, s)) by { NothingToWrite(w, r, ref, Both(ref, s)); }
    MergeAfter(start, w, w, r, ref, s.username, s.token);
  }

  /** The write is prepared. */
  lemma FetchPrepares(start: World, w: World, r: Name, ref: SecretRef, s: Setting, next: Secret)
    requires OnTrack(start, w, r, ref, s) && WaitsToStore(w, r, ref, s) && !Blocked(w, r, ref)
    ensures var base := if Place(ref) in w.secrets then Some(w.secrets[Place(ref)]) else None;
            Progress(start, w, Enter(w, r, Writing(ref, s.username, Some(s.token), base, next)), r, ref, s)
  {
    var base := if Place(ref) in w.secrets then Some(w.secrets[Place(ref)]) else None;
    EnterKeeps(start, w, r, Writing(ref, s.username, Some(s.token), base, next));
  }

  lemma FetchIs(w: World, r: Name, ref: SecretRef, s: Setting, e: Event)
    requires WaitsToStore(w, r, ref, s) && Good(s, r, e)
    ensures Next(w, e) == SendUpsert(w, r, ref, s.username, Some(s.token),
                                     UpsertOf(SecretAt(w, Place(ref)), OwnerOf(r), Both(ref, s)))
  {
    assert Entries(ref, Some(s.token), s.username) == Both(ref, s);
    assert Next(w, e) == FetchStep(w, r, ref, s.username, Some(s.token), e.answer);
  }

  lemma UpsertKinds(existing: Option<Secret>, r: Name, values: Texts)
    requires "" !in values
    ensures var u := UpsertOf(existing, OwnerOf(r), values);
            if existing.Some? && !OwnedBy(existing.value, OwnerOf(r)) then u.NotOwned?
            else u.Unchanged? || u.Create? || u.Update?
  {
  }

  lemma FetchTokenOn(start: World, w: World, r: Name, ref: SecretRef, s: Setting, e: Event)
    requires OnTrack(start, w, r, ref, s) && Good(s, r, e) && WaitsToStore(w, r, ref, s)
    ensures Progress(start, w, Next(w, e), r, ref, s)
  {
    var u := UpsertOf(SecretAt(w, Place(ref)), OwnerOf(r), Both(ref, s));
    var v := Next(w, e);
    assert v == SendUpsert(w, r, ref, s.username, Some(s.token), u) by { FetchIs(w, r, ref, s, e); }
    UpsertKinds(SecretAt(w, Place(ref)), r, Both(ref, s));
    assert Progress(start, w, v, r, ref, s) by {
      if Blocked(w, r, ref) { FetchBlocked(start, w, r, ref, s); }
      else if u.Unchanged? { FetchFound(start, w, r, ref, s); }
      else { FetchPrepares(start, w, r, ref, s, u.secret); }
    }
  }

  /** What a write about to land stores. */
  lemma NextMerges(w: World, r: Name, p: Phase, values: Texts)
    requires Inv(w) && r in w.robots && w.robots[r].phase == p && p.Writing? && Lands(w, Place(p.ref), p.base, Applied)
    requires "" !in values && values == Entries(p.ref, p.token, p.username)
    ensures OwnedBy(p.next, OwnerOf(r)) && All(p.next.data) == DataOf(SecretAt(w, Place(p.ref))) + values
  {
    BaseIsCurrent(w, r, Applied);
    assert RobotOk(w.secrets, w.version, Issued(w, r), r, w.robots[r]);
    UpsertMerges(SecretAt(w, Place(p.ref)), r, values);
  }

  lemma LandedMerges(w: World, r: Name, p: Phase, values: Texts)
    requires p.Writing? && OwnedBy(p.next, OwnerOf(r)) && All(p.next.data) == DataOf(SecretAt(w, Place(p.ref))) + values
    ensures Merges(w, Landed(w, p), r, p.ref, values)
  {
    assert Landed(w, p).secrets - {Place(p.ref)} == w.secrets - {Place(p.ref)};
  }

  /** A write lands. */
  lemma WriteMerges(start: World, w: World, r: Name, ref: SecretRef, p: Phase, a: Answer, values: Texts)
    requires Inv(w) && SameBut(start, w, r) && w.robots[r].phase == p && p.Writing? && p.ref == ref && a.write.Applied?
    requires Lands(w, Place(ref), p.base, Applied) && "" !in values && values == Entries(ref, p.token, p.username)
    ensures var v := WriteStep(w, r, p, a);
            && SameBut(start, v, r) && Issued(v, r) == Issued(w, r) && Merges(w, v, r, ref, values)
            && v.robots[r].phase == if p.token.None? then Deciding(ref, p.username) else Idle
  {
    assert OwnedBy(p.next, OwnerOf(r)) && All(p.next.data) == DataOf(SecretAt(w, Place(p.ref))) + values by {
      NextMerges(w, r, p, values);
    }
    LandedMerges(w, r, p, values);
    FinishKeeps(start, Landed(w, p), r, ref, p.username, p.token);
  }

  lemma WriteNameOn(start: World, w: World, r: Name, ref: SecretRef, s: Setting, e: Event)
    requires Inv(w) && OnTrack(start, w, r, ref, s) && Good(s, r, e)
    requires w.robots[r].phase.Writing? && w.robots[r].phase.token.None?
    ensures Progress(start, w, Next(w, e), r, ref, s)
  {
    var p := w.robots[r].phase;
    WriteMerges(start, w, r, ref, p, e.answer, map[USERNAME := s.username]);
    assert Next(w, e) == WriteStep(w, r, p, e.answer);
  }

  lemma WriteTokenOn(start: World, w: World, r: Name, ref: SecretRef, s: Setting, e: Event)
    requires Inv(w) && OnTrack(start, w, r, ref, s) && Good(s, r, e)
    requires w.robots[r].phase.Writing? && w.robots[r].phase.token.Some?
    ensures Progress(start, w, Next(w, e), r, ref, s)
  {
    var p := w.robots[r].phase;
    var values := map[ref.key := s.token, USERNAME := s.username];
    WriteMerges(start, w, r, ref, p, e.answer, values);
    MergeAfter(start, w, WriteStep(w, r, p, e.answer), r, ref, s.username, s.token);
    assert Next(w, e) == WriteStep(w, r, p, e.answer);
  }

  lemma TrackStep(start: World, w: World, r: Name, ref: SecretRef, s: Setting, e: Event)
    requires Inv(w) && OnTrack(start, w, r, ref, s) && Good(s, r, e)
    ensures Progress(start, w, Next(w, e), r, ref, s)
  {
    var p := w.robots[r].phase;
    if p.Syncing? { SyncStepOn(start, w, r, ref, s, e); }
    else if p.Deciding? { DecideStepOn(start, w, r, ref, s, e); }
    else if p.Creating? || p.Rotating? { TokenStepOn(start, w, r, ref, s, e); }
    else if p.Fetching? && p.token.None? { FetchNameOn(start, w, r, ref, s, e); }
    else if p.Fetching? { FetchTokenOn(start, w, r, ref, s, e); }
    else if p.token.None? { WriteNameOn(start, w, r, ref, s, e); }
    else { WriteTokenOn(start, w, r, ref, s, e); }
  }

  // ---------- whole reconciles ----------

  /** The reconcile has ended well within n steps. */
  ghost predicate EndedBy(w: World, run: seq<Event>, r: Name, ref: SecretRef, s: Setting, n: nat)
    requires n <= |run|
  {
    exists m: nat :: 0 < m <= n && EndsAt(w, Exec(w, run[..m]), r, ref, s)
  }

  predicate EndsAt(w: World, v: World, r: Name, ref: SecretRef, s: Setting) {
    r in v.robots && v.robots[r].phase.Idle? && EndsWell(w, v, r, ref, s)
  }

  ghost predicate Running(w: World, v: World, r: Name, ref: SecretRef, s: Setting, left: int) {
    Inv(v) && OnTrack(w, v, r, ref, s) && 0 < Rank(v.robots[r].phase) <= left
  }

  lemma Begins(w: World, r: Name, ref: SecretRef, s: Setting, e: Event)
    requires Inv(w) && r in w.robots && w.robots[r].phase.Idle? && Good(s, r, e)
    requires ResolveRef(r, w.robots[r].spec) == Some(ref)
    ensures Running(w, Next(w, e), r, ref, s, 7)
  {
    var p := if s.known then Syncing(ref, s.username) else Creating(ref);
    StepKeepsInv(w, e);
    EnterKeeps(w, w, r, p);
    assert Next(w, e) == Enter(w, r, p);
  }

  lemma Continues(w: World, v: World, r: Name, ref: SecretRef, s: Setting, e: Event, left: int)
    requires Running(w, v, r, ref, s, left) && Good(s, r, e)
    ensures EndsAt(w, Next(v, e), r, ref, s) || Running(w, Next(v, e), r, ref, s, left - 1)
  {
    assert Inv(Next(v, e)) by { StepKeepsInv(v, e); }
    assert Progress(w, v, Next(v, e), r, ref, s) by { TrackStep(w, v, r, ref, s, e); }
  }

  lemma StepOfRun(w: World, run: seq<Event>, n: nat)
    requires 0 < n <= |run|
    ensures Exec(w, run[..n]) == Next(Exec(w, run[..n - 1]), run[n - 1])
  {
    assert run[..n][..n - 1] == run[..n - 1];
  }

  lemma {:induction false} OnTheWay(w: World, run: seq<Event>, r: Name, ref: SecretRef, s: Setting, n: nat)
    requires Inv(w) && r in w.robots && w.robots[r].phase.Idle? && ResolveRef(r, w.robots[r].spec) == Some(ref)
    requires (forall k :: 0 <= k < |run| ==> Good(s, r, run[k])) && 0 < n <= |run|
    ensures EndedBy(w, run, r, ref, s, n) || Running(w, Exec(w, run[..n]), r, ref, s, 8 - n)
  {
    StepOfRun(w, run, n);
    if n == 1 {
      Begins(w, r, ref, s, run[0]);
    } else {
      OnTheWay(w, run, r, ref, s, n - 1);
      if !EndedBy(w, run, r, ref, s, n - 1) {
        var v := Exec(w, run[..n - 1]);
        Continues(w, v, r, ref, s, run[n - 1], 9 - n);
        if EndsAt(w, Exec(w, run[..n]), r, ref, s) { assert EndedBy(w, run, r, ref, s, n); }
      }
    }
  }

  /**
   From every reachable state of any number of robots, a reconcile of one whose calls succeed, with nobody in between,
   is over after eight of them, and ends well.
   */
  lemma ReconcileConverges(w: World, past: seq<Event>, run: seq<Event>, r: Name, ref: SecretRef, s: Setting)
    requires Init(w) && |run| == 8 && forall k :: 0 <= k < |run| ==> Good(s, r, run[k])
    requires var v := Exec(w, past);
             r in v.robots && v.robots[r].phase.Idle? && ResolveRef(r, v.robots[r].spec) == Some(ref)
    ensures EndedBy(Exec(w, past), run, r, ref, s, 8)
  {
    assert Inv(Exec(w, past)) by { RunKeepsInv(w, past); }
    OnTheWay(Exec(w, past), run, r, ref, s, 8);
  }
}
