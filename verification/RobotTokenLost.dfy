/** A run in which a robot's stored token is lost without a failed call. */
module RobotTokenLost {
  import opened Values
  import opened OwnedSecrets
  import opened RobotTokens

  const ROBOT := Name("team", "ci")
  const REF := SecretRef("team", "ci-secret", "secret")
  const USER := "robot$ci"
  const TOKEN := "t1"

  /** A call that succeeds; `known` tells whether the robot's id is on record. */
  function Smooth(known: bool): Event { Step(ROBOT, Answer(true, known, false, TOKEN, USER, Applied)) }

  ghost predicate Reaches(s: World, t: World) { exists run :: Exec(s, run) == t }

  lemma Extend(s: World, t: World, e: Event)
    requires Reaches(s, t)
    ensures Reaches(s, Next(t, e))
  {
    var run :| Exec(s, run) == t;
    assert (run + [e])[..|run|] == run;
    assert Exec(s, run + [e]) == Next(t, e);
  }

  const EMPTY := World(map[], 0, map[], map[])

  function One(secrets: map<Name, Stored>, version: nat, robot: Robot, issued: seq<string>): World {
    World(secrets, version, map[ROBOT := robot], if issued == [] then map[] else map[ROBOT := issued])
  }

  lemma DefaultRef()
    ensures ResolveRef(ROBOT, None) == Some(REF)
  {
    assert "ci" + "-secret" == "ci-secret";
  }

  function FirstSecret(): Secret { Marked(Secret(None, None, Some(Entries(REF, Some(TOKEN), USER))), OwnerOf(ROBOT)) }

  /** The robot is created in Harbor and its token is about to be stored. */
  lemma Issues()
    ensures Reaches(EMPTY, One(map[], 0, Robot(None, Fetching(REF, USER, Some(TOKEN)), false), [TOKEN]))
  {
    DefaultRef();
    assert Exec(EMPTY, []) == EMPTY;
    Extend(EMPTY, EMPTY, Add(ROBOT, None));
    var w1 := One(map[], 0, Robot(None, Idle, false), []);
    assert Next(EMPTY, Add(ROBOT, None)) == w1;
    Extend(EMPTY, w1, Smooth(false));
    var w2 := One(map[], 0, Robot(None, Creating(REF), false), []);
    assert Next(w1, Smooth(false)) == w2;
    Extend(EMPTY, w2, Smooth(false));
    assert Issued(w2, ROBOT) + [TOKEN] == [TOKEN] && TOKEN != "" && USER != "";
    assert Next(w2, Smooth(false)) == One(map[], 0, Robot(None, Fetching(REF, USER, Some(TOKEN)), false), [TOKEN]);
  }

  lemma FirstUpsert()
    ensures UpsertOf(None, OwnerOf(ROBOT), Entries(REF, Some(TOKEN), USER)) == Create(FirstSecret())
    ensures OwnedBy(FirstSecret(), OwnerOf(ROBOT)) && All(FirstSecret().data) == Entries(REF, Some(TOKEN), USER)
  {
    assert "" !in Entries(REF, Some(TOKEN), USER);
    MarkedTwice(Secret(None, None, Some(Entries(REF, Some(TOKEN), USER))), OwnerOf(ROBOT));
  }

  function WithWrite(): World {
    One(map[], 0, Robot(None, Writing(REF, USER, Some(TOKEN), None, FirstSecret()), false), [TOKEN])
  }

  function WithSecret(): World {
    One(map[Place(REF) := Stored(FirstSecret(), 1)], 1, Robot(None, Idle, true), [TOKEN])
  }

  /** The Secret is about to be created. */
  lemma Fetches()
    ensures Reaches(EMPTY, WithWrite())
  {
    var w3 := One(map[], 0, Robot(None, Fetching(REF, USER, Some(TOKEN)), false), [TOKEN]);
    Issues();
    FirstUpsert();
    Extend(EMPTY, w3, Smooth(true));
    assert Next(w3, Smooth(true)) == FetchStep(w3, ROBOT, REF, USER, Some(TOKEN), Smooth(true).answer) == WithWrite();
  }

  /** Whatever Secret is about to be created is stored, and the robot settled. */
  lemma Stores(secret: Secret, w: World)
    requires w == One(map[], 0, Robot(None, Writing(REF, USER, Some(TOKEN), None, secret), false), [TOKEN])
    ensures Next(w, Smooth(true)) == One(map[Place(REF) := Stored(secret, 1)], 1, Robot(None, Idle, true), [TOKEN])
  {
    DefaultRef();
    assert RobotStep(w, ROBOT, Smooth(true).answer) == WriteStep(w, ROBOT, w.robots[ROBOT].phase, Smooth(true).answer);
  }

  /** The token is stored and the robot settled. */
  lemma Settles()
    ensures Reaches(EMPTY, WithSecret())
  {
    Fetches();
    Extend(EMPTY, WithWrite(), Smooth(true));
    Stores(FirstSecret(), WithWrite());
  }

  /** The next reconcile has found its Secret and reads it again. */
  lemma Syncs(u: World)
    requires u == WithSecret()
    ensures var v := u.(robots := map[ROBOT := Robot(None, Fetching(REF, USER, None), true)]);
            Next(Next(u, Smooth(true)), Smooth(true)) == v
  {
    DefaultRef();
    FirstUpsert();
    assert Next(u, Smooth(true)) == u.(robots := map[ROBOT := Robot(None, Syncing(REF, USER), true)]);
  }

  /**
   From nothing: the robot's Secret holds the latest token; it is deleted outside between the two reads of the next
   reconcile, which succeeds, and afterwards the robot has its Secret without a token.
   */
  lemma TokenIsLost() returns (w: World, u: World, t: World)
    ensures Init(w) && Reaches(w, u) && Reaches(u, t)
    ensures ROBOT in u.robots && u.robots[ROBOT].phase.Idle? && u.robots[ROBOT].settled && Place(REF) in u.secrets
    ensures var s := u.secrets[Place(REF)].secret;
            OwnedBy(s, OwnerOf(ROBOT)) && REF.key in All(s.data) && EndsWith(Issued(u, ROBOT), All(s.data)[REF.key])
    ensures Tokenless(t, ROBOT, REF) && t.robots.Keys == {ROBOT} && t.robots[ROBOT] == u.robots[ROBOT]
  {
    w, u := EMPTY, WithSecret();
    Settles();
    FirstUpsert();
    assert Reaches(u, u) by { assert Exec(u, []) == u; }
    Extend(u, u, Smooth(true));
    Extend(u, Next(u, Smooth(true)), Smooth(true));
    Syncs(u);
    var v := u.(robots := map[ROBOT := Robot(None, Fetching(REF, USER, None), true)]);
    t := Loses(u, v);
  }

  /** The Secret goes between the two reads. */
  lemma Loses(u: World, v: World) returns (t: World)
    requires Reaches(u, v) && v.robots == map[ROBOT := Robot(None, Fetching(REF, USER, None), true)]
    ensures Reaches(u, t) && Tokenless(t, ROBOT, REF) && t.robots == map[ROBOT := Robot(None, Idle, true)]
  {
    var z := ReadsAgain(u, v);
    Extend(u, z, Smooth(true));
    t := Next(z, Smooth(true));
    assert t == Enter(z, ROBOT, Idle);
  }

  lemma ReadsAgain(u: World, v: World) returns (z: World)
    requires Reaches(u, v) && v.robots == map[ROBOT := Robot(None, Fetching(REF, USER, None), true)]
    ensures Reaches(u, z) && Tokenless(z, ROBOT, REF)
    ensures z.robots == map[ROBOT := Robot(None, Deciding(REF, USER), true)]
  {
    var x := Next(v, OutsiderDeletes(Place(REF)));
    var y := Next(x, Smooth(true));
    z := Next(y, Smooth(true));
    assert Reaches(u, z) by {
      Extend(u, v, OutsiderDeletes(Place(REF)));
      Extend(u, x, Smooth(true));
      Extend(u, y, Smooth(true));
    }
    var a := Smooth(true).answer;
    assert Smooth(true) == Step(ROBOT, a);
    DeletionBetweenReadsLosesToken(v, ROBOT, v.robots[ROBOT].phase, a, a, x, y, z);
  }
}
