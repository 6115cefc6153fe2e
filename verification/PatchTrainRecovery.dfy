/** The next run after a cut one: it finishes the release and schedules exactly the missing publishes. */
module PatchTrainRecovery {
  import opened PatchTrain
  import opened PatchTrainSafety

  /** A branch name without superfluous zeros; only then is the next version in the branch's own line. */
  predicate Canonical(line: Line) { line.major.zeros == 0 && line.minor.zeros == 0 }

  predicate NonDry(o: Oracle, r: Repo) { !o.dryRun && o.newSha !in r.commits }

  /** All checks are green, and only tags that exist have been published. */
  ghost predicate Healthy(o: Oracle, r: Repo) {
    && NonDry(o, r)
    && r.commits.Keys + {o.newSha} <= o.green
    && (forall v :: v in o.publishedOperators ==> OperatorTag(v) in r.tags)
    && (forall v :: v in o.publishedCharts ==> ChartTag(v) in r.tags)
  }

  /** Exactly the publishes of this release that are not out yet. */
  ghost predicate SchedulesMissing(p: Plan, o: Oracle, next: Version, chart: Version) {
    && p.operators == (if next in o.publishedOperators then [] else [next])
    && p.charts == (if chart in o.publishedCharts then [] else [(chart, next)])
    && !p.raised
  }

  // ---------- the stages a release passes through ----------

  /** The head differs from the last release in its dependencies, and neither in code nor in unreleased chart files. */
  ghost predicate DependenciesOnly(r: Repo, head: Sha, released: Sha)
    requires WellFormed(r) && head in r.commits && released in r.commits
  {
    var c, before := r.commits[head], r.commits[released];
    && head != released
    && c.code == before.code && c.deps != before.deps && c.chart == ChartBase(r, head, before).chart
  }

  /** Dependency changes are waiting to be released: the create path runs and will pick these versions. */
  ghost predicate Due(r: Repo, branch: Branch, current: Version, currentChart: Version) {
    && WellFormed(r) && branch.Release? && branch in r.heads
    && IsLatest(current, OperatorVersions(r, r.heads[branch], branch.line))
    && OperatorTag(current) in r.tags
    && CurrentChart(r, r.heads[branch], current) == Stable(currentChart)
    && DependenciesOnly(r, r.heads[branch], r.tags[OperatorTag(current)].target)
    && OperatorTag(IncrementPatch(current)) !in r.tags
    && ChartTag(IncrementPatch(currentChart)) !in r.tags
  }

  /** Chart.yaml at the head carries the next versions. */
  ghost predicate Prepared(r: Repo, branch: Branch, current: Version, currentChart: Version) {
    && Due(r, branch, current, currentChart)
    && var c := r.commits[r.heads[branch]];
       c.appVersion == Stable(IncrementPatch(current)) && c.version == Stable(IncrementPatch(currentChart))
  }

  /** Chart.yaml may be rewritten: it holds the current versions, or did not change since the last chart release. */
  ghost predicate Writable(r: Repo, branch: Branch, current: Version, currentChart: Version) {
    && Due(r, branch, current, currentChart) && !Prepared(r, branch, current, currentChart)
    && var head := r.heads[branch];
       var c := r.commits[head];
       || (c.appVersion == Stable(current) && c.version == Stable(currentChart))
       || !ChartYamlDiffers(ChartBase(r, head, r.commits[r.tags[OperatorTag(current)].target]), c)
  }

  /** The operator tag is out, on the head that names it. */
  ghost predicate OperatorTagged(r: Repo, branch: Branch, next: Version, chart: Version) {
    && WellFormed(r) && branch.Release? && branch in r.heads
    && var head := r.heads[branch];
       && IsLatest(next, OperatorVersions(r, head, branch.line))
       && OperatorTag(next) in r.tags && r.tags[OperatorTag(next)] == Tag(head, true)
       && r.commits[head].appVersion == Stable(next) && r.commits[head].version == Stable(chart)
  }

  /** Both tags are out, on the head. */
  ghost predicate Released(r: Repo, branch: Branch, next: Version, chart: Version) {
    && OperatorTagged(r, branch, next, chart)
    && ChartTag(chart) in r.tags && r.tags[ChartTag(chart)].target == r.heads[branch]
    && IsLatest(chart, ChartVersionsAt(r, r.heads[branch]))
  }

  // ---------- what a run does at each stage ----------

  lemma PreparedPlan(r: Repo, branch: Branch, current: Version, currentChart: Version, o: Oracle)
    requires Prepared(r, branch, current, currentChart) && !o.dryRun
    ensures BranchPlan(r, branch, o)
        == TagPlan(r, r.heads[branch], IncrementPatch(current), IncrementPatch(currentChart), o)
  {
    LatestIs(current, OperatorVersions(r, r.heads[branch], branch.line));
  }

  lemma WritablePlan(r: Repo, branch: Branch, current: Version, currentChart: Version, o: Oracle)
    requires Writable(r, branch, current, currentChart) && !o.dryRun
    ensures var next, chart := IncrementPatch(current), IncrementPatch(currentChart);
            var push := PushCommit(branch, o.newSha, PreparedCommit(r, r.heads[branch], o.newSha, chart, next));
            BranchPlan(r, branch, o) == Then(push, TagPlan(r, o.newSha, next, chart, o))
  {
    LatestIs(current, OperatorVersions(r, r.heads[branch], branch.line));
  }

  /** With only the operator tag out, the chart is completed exactly when no other chart tag sits on the head. */
  lemma OperatorTaggedPlan(r: Repo, branch: Branch, next: Version, chart: Version, o: Oracle)
    requires OperatorTagged(r, branch, next, chart) && ChartTag(chart) !in r.tags && Healthy(o, r)
    ensures var p := BranchPlan(r, branch, o);
            if ChartVersionsAt(r, r.heads[branch]) == {} then
              p.effects == [PushTag(ChartTag(chart), Tag(r.heads[branch], true))] && SchedulesMissing(p, o, next, chart)
            else p == NOTHING
  {
    var head := r.heads[branch];
    LatestIs(next, OperatorVersions(r, head, branch.line));
    LatestExists(ChartVersionsAt(r, head));
    var at := Latest(ChartVersionsAt(r, head));
    if at.Some? { assert at.value in ChartVersionsAt(r, head); assert at.value != chart; }
  }

  /** With both tags out a run pushes nothing and schedules exactly what is not published. */
  lemma ReleasedPlan(r: Repo, branch: Branch, next: Version, chart: Version, o: Oracle)
    requires Released(r, branch, next, chart) && Healthy(o, r)
    ensures var p := BranchPlan(r, branch, o); p.effects == [] && SchedulesMissing(p, o, next, chart)
  {
    LatestIs(next, OperatorVersions(r, r.heads[branch], branch.line));
    LatestIs(chart, ChartVersionsAt(r, r.heads[branch]));
  }

  // ---------- from stage to stage ----------

  lemma CommitKeepsVersions(r: Repo, branch: Branch, sha: Sha, chart: Version, next: Version)
    requires WellFormed(r) && branch.Release? && branch in r.heads && sha !in r.commits
    ensures var head := r.heads[branch];
            var q := Apply1(r, PushCommit(branch, sha, PreparedCommit(r, head, sha, chart, next)));
            && WellFormed(q)
            && OperatorVersions(q, sha, branch.line) == OperatorVersions(r, head, branch.line)
            && ChartVersions(q, sha) == ChartVersions(r, head)
            && ChartVersionsAt(q, sha) == {}
  {
  }

  /** Pushing the prepared commit leads to the prepared stage. */
  lemma CommitPrepares(r: Repo, branch: Branch, current: Version, currentChart: Version, sha: Sha)
    requires Writable(r, branch, current, currentChart) && sha !in r.commits
    ensures var next, chart := IncrementPatch(current), IncrementPatch(currentChart);
            var q := Apply1(r, PushCommit(branch, sha, PreparedCommit(r, r.heads[branch], sha, chart, next)));
            && Prepared(q, branch, current, currentChart) && q.heads[branch] == sha
            && q.tags == r.tags && ChartVersionsAt(q, sha) == {}
  {
    CommitKeepsVersions(r, branch, sha, IncrementPatch(currentChart), IncrementPatch(current));
    var released := r.tags[OperatorTag(current)].target;
    assert released != sha;
    assert Latest(ChartVersions(r, r.heads[branch])).Some? ==>
      ChartTag(Latest(ChartVersions(r, r.heads[branch])).value) in r.tags;
  }

  /** Pushing the operator tag onto a prepared head. */
  lemma OperatorTagTags(r: Repo, branch: Branch, current: Version, currentChart: Version)
    requires Prepared(r, branch, current, currentChart) && Canonical(branch.line)
    ensures var next, chart := IncrementPatch(current), IncrementPatch(currentChart);
            var q := Apply1(r, PushTag(OperatorTag(next), Tag(r.heads[branch], true)));
            && OperatorTagged(q, branch, next, chart) && ChartTag(chart) !in q.tags
            && ChartVersionsAt(q, q.heads[branch]) == ChartVersionsAt(r, r.heads[branch])
            && ChartVersions(q, q.heads[branch]) == ChartVersions(r, r.heads[branch])
  {
    var next := IncrementPatch(current);
    var head := r.heads[branch];
    var q := Apply1(r, PushTag(OperatorTag(next), Tag(head, true)));
    var before := OperatorVersions(r, head, branch.line);
    NextIsOnePatchAboveMaximum(current, before);
    assert InLine(current, branch.line) && InLine(next, branch.line);
    assert OperatorVersions(q, head, branch.line) == before + {next} by {
      assert OperatorTag(next) in q.tags;
      forall v | v in before ensures v in OperatorVersions(q, head, branch.line) { assert OperatorTag(v) in q.tags; }
    }
    assert ChartVersionsAt(q, head) == ChartVersionsAt(r, head) by {
      forall v | v in ChartVersionsAt(r, head) ensures v in ChartVersionsAt(q, head) { assert ChartTag(v) in q.tags; }
    }
    assert ChartVersions(q, head) == ChartVersions(r, head) by {
      forall v | v in ChartVersions(r, head) ensures v in ChartVersions(q, head) { assert ChartTag(v) in q.tags; }
    }
  }

  /** Every chart tag on the head of a prepared branch is older than the next chart version. */
  lemma OlderCharts(r: Repo, branch: Branch, current: Version, currentChart: Version)
    requires Due(r, branch, current, currentChart)
    ensures forall v :: v in ChartVersionsAt(r, r.heads[branch]) ==> KeyLess(v, IncrementPatch(currentChart))
  {
    var head := r.heads[branch];
    var merged := ChartVersions(r, head);
    LatestExists(merged);
    forall v | v in ChartVersionsAt(r, head) ensures KeyLess(v, IncrementPatch(currentChart)) {
      assert ChartTag(v) in r.tags;
      assert v in merged;
      NextIsOnePatchAboveMaximum(currentChart, merged);
    }
  }

  lemma ChartTagReleases(r: Repo, branch: Branch, next: Version, chart: Version)
    requires OperatorTagged(r, branch, next, chart) && ChartTag(chart) !in r.tags
    requires forall v :: v in ChartVersionsAt(r, r.heads[branch]) ==> KeyLess(v, chart)
    ensures Released(Apply1(r, PushTag(ChartTag(chart), Tag(r.heads[branch], true))), branch, next, chart)
  {
    var head := r.heads[branch];
    var q := Apply1(r, PushTag(ChartTag(chart), Tag(head, true)));
    assert OperatorVersions(q, head, branch.line) == OperatorVersions(r, head, branch.line) by {
      forall v | v in OperatorVersions(r, head, branch.line) ensures v in OperatorVersions(q, head, branch.line) {
        assert OperatorTag(v) in q.tags;
      }
    }
    assert ChartTag(chart) in q.tags;
    assert chart in ChartVersionsAt(q, head);
  }

  // ---------- whole runs ----------

  /** The goal: both tags on the head of the branch. */
  ghost predicate TagsOnHead(r: Repo, branch: Branch, next: Version, chart: Version) {
    && branch in r.heads && OperatorTag(next) in r.tags && ChartTag(chart) in r.tags
    && r.tags[OperatorTag(next)].target == r.heads[branch] && r.tags[ChartTag(chart)].target == r.heads[branch]
  }

  /** The run reaches the goal and schedules exactly the publishes still missing. */
  ghost predicate Finishes(r: Repo, branch: Branch, o: Oracle, next: Version, chart: Version)
    requires WellFormed(r)
  {
    var p := BranchPlan(r, branch, o);
    TagsOnHead(Apply(r, p.effects), branch, next, chart) && SchedulesMissing(p, o, next, chart)
  }

  /** A healthy run from the prepared stage finishes, on any branch. */
  lemma PreparedRunFinishes(r: Repo, branch: Branch, current: Version, currentChart: Version, o: Oracle)
    requires Prepared(r, branch, current, currentChart) && !o.dryRun && r.heads[branch] in o.green
    ensures var next, chart := IncrementPatch(current), IncrementPatch(currentChart);
            && Finishes(r, branch, o, next, chart)
            && (Canonical(branch.line) ==> Released(Apply(r, BranchPlan(r, branch, o).effects), branch, next, chart))
  {
    var next, chart := IncrementPatch(current), IncrementPatch(currentChart);
    PreparedPlan(r, branch, current, currentChart, o);
    var effects := BranchPlan(r, branch, o).effects;
    assert effects == [effects[0], effects[1]];
    TwoEffects(r, effects[0], effects[1]);
    if Canonical(branch.line) {
      OperatorTagTags(r, branch, current, currentChart);
      OlderCharts(r, branch, current, currentChart);
      ChartTagReleases(Apply1(r, effects[0]), branch, next, chart);
    }
  }

  /** A healthy run from the writable stage finishes, on any branch. */
  lemma WritableRunFinishes(r: Repo, branch: Branch, current: Version, currentChart: Version, o: Oracle)
    requires Writable(r, branch, current, currentChart) && Healthy(o, r)
    ensures var next, chart := IncrementPatch(current), IncrementPatch(currentChart);
            && Finishes(r, branch, o, next, chart)
            && (Canonical(branch.line) ==> Released(Apply(r, BranchPlan(r, branch, o).effects), branch, next, chart))
  {
    var next, chart := IncrementPatch(current), IncrementPatch(currentChart);
    WritablePlan(r, branch, current, currentChart, o);
    CommitPrepares(r, branch, current, currentChart, o.newSha);
    var p := BranchPlan(r, branch, o);
    var q := Apply1(r, p.effects[0]);
    assert p.effects[1..] == TagPlan(r, o.newSha, next, chart, o).effects;
    assert TagPlan(r, o.newSha, next, chart, o) == TagPlan(q, o.newSha, next, chart, o);
    PreparedPlan(q, branch, current, currentChart, o);
    PreparedRunFinishes(q, branch, current, currentChart, o);
  }

  /** The cut left the operator tag without its chart tag. */
  ghost predicate BetweenTags(r: Repo, next: Version, chart: Version) {
    OperatorTag(next) in r.tags && ChartTag(chart) !in r.tags
  }

  lemma TaggedRun(r: Repo, branch: Branch, next: Version, chart: Version, o: Oracle)
    requires OperatorTagged(r, branch, next, chart) && ChartTag(chart) !in r.tags && Healthy(o, r)
    ensures Finishes(r, branch, o, next, chart) <==> ChartVersionsAt(r, r.heads[branch]) == {}
    ensures if ChartVersionsAt(r, r.heads[branch]) != {} then BranchPlan(r, branch, o) == NOTHING
            else Released(Apply(r, BranchPlan(r, branch, o).effects), branch, next, chart)
  {
    OperatorTaggedPlan(r, branch, next, chart, o);
    var head := r.heads[branch];
    if ChartVersionsAt(r, head) == {} {
      OneEffect(r, PushTag(ChartTag(chart), Tag(head, true)));
      ChartTagReleases(r, branch, next, chart);
    }
  }

  /** Cutting a tag plan on a prepared head of a canonical line: nothing, the operator tag, or both tags. */
  lemma CutOfTagPlan(r: Repo, branch: Branch, current: Version, currentChart: Version, o: Oracle, k: nat)
    requires Prepared(r, branch, current, currentChart) && Canonical(branch.line)
    requires var next, chart := IncrementPatch(current), IncrementPatch(currentChart);
             k <= |TagPlan(r, r.heads[branch], next, chart, o).effects|
    ensures var next, chart := IncrementPatch(current), IncrementPatch(currentChart);
            var q := Apply(r, TagPlan(r, r.heads[branch], next, chart, o).effects[..k]);
            && q.heads == r.heads && q.commits == r.commits
            && (k == 0 ==> q == r)
            && (k == 1 ==>
                  && OperatorTagged(q, branch, next, chart) && ChartTag(chart) !in q.tags
                  && ChartVersionsAt(q, q.heads[branch]) == ChartVersionsAt(r, r.heads[branch]))
            && (k == 2 ==> Released(q, branch, next, chart))
            && k <= 2
  {
    var next, chart := IncrementPatch(current), IncrementPatch(currentChart);
    var effects := TagPlan(r, r.heads[branch], next, chart, o).effects;
    if k == 0 {
      assert effects[..0] == [];
    } else {
      OperatorTagTags(r, branch, current, currentChart);
      if k == 1 {
        assert effects[..1] == [effects[0]];
        OneEffect(r, effects[0]);
      } else {
        assert effects[..2] == [effects[0], effects[1]];
        TwoEffects(r, effects[0], effects[1]);
        OlderCharts(r, branch, current, currentChart);
        ChartTagReleases(Apply1(r, effects[0]), branch, next, chart);
      }
    }
  }

  /** After its commit, a cut run is a cut of the tag plan on that commit. */
  lemma CutAfterCommit(r: Repo, branch: Branch, current: Version, currentChart: Version, o: Oracle, k: nat)
    returns (q: Repo)
    requires Writable(r, branch, current, currentChart) && NonDry(o, r)
    requires 1 <= k <= |BranchPlan(r, branch, o).effects|
    ensures Prepared(q, branch, current, currentChart) && q.heads[branch] == o.newSha
    ensures ChartVersionsAt(q, o.newSha) == {}
    ensures var rest := TagPlan(q, o.newSha, IncrementPatch(current), IncrementPatch(currentChart), o).effects;
            k - 1 <= |rest| && Apply(r, BranchPlan(r, branch, o).effects[..k]) == Apply(q, rest[..k - 1])
  {
    var next, chart := IncrementPatch(current), IncrementPatch(currentChart);
    var effects := BranchPlan(r, branch, o).effects;
    WritablePlan(r, branch, current, currentChart, o);
    CommitPrepares(r, branch, current, currentChart, o.newSha);
    q := Apply1(r, effects[0]);
    var rest := TagPlan(r, o.newSha, next, chart, o).effects;
    assert TagPlan(q, o.newSha, next, chart, o).effects == rest;
    assert effects == [effects[0]] + rest;
    assert effects[..k][1..] == rest[..k - 1];
  }

  /** Once both are published, further runs push nothing and schedule nothing. */
  lemma PublishedReleaseIsQuiet(r: Repo, branch: Branch, next: Version, chart: Version, o: Oracle)
    requires Released(r, branch, next, chart) && next in o.publishedOperators && chart in o.publishedCharts
    ensures BranchPlan(r, branch, o) == NOTHING
  {
    LatestIs(next, OperatorVersions(r, r.heads[branch], branch.line));
    LatestIs(chart, ChartVersionsAt(r, r.heads[branch]));
  }

  /**
   The situation that blocks recovery can occur: a chart tag already on the head whose Chart.yaml names the next one.
   */
  lemma BlockedRecoveryExists() returns (r: Repo, branch: Branch, current: Version, currentChart: Version, o: Oracle)
    ensures Prepared(r, branch, current, currentChart) && NonDry(o, r)
    ensures 1 <= |BranchPlan(r, branch, o).effects|
    ensures var q := Apply(r, BranchPlan(r, branch, o).effects[..1]);
            BetweenTags(q, IncrementPatch(current), IncrementPatch(currentChart)) && branch in q.heads
            && ChartVersionsAt(q, q.heads[branch]) != {}
  {
    var n := (i: nat) => Num(i, 0);
    current := Version(n(0), n(7), n(0));
    currentChart := Version(n(0), n(5), n(0));
    branch := Release(true, Line(n(0), n(7)));
    var next, chart := IncrementPatch(current), IncrementPatch(currentChart);
    var c1 := Commit(1, 1, 1, 1, Stable(currentChart), Stable(current), {1});
    var c2 := Commit(2, 1, 1, 1, Stable(chart), Stable(next), {1, 2});
    r := Repo(map[1 := c1, 2 := c2], map[branch := 2],
              map[OperatorTag(current) := Tag(1, false), ChartTag(currentChart) := Tag(2, false)]);
    o := Oracle({2}, {}, {}, 3, false);
    assert OperatorVersions(r, 2, branch.line) == {current};
    assert IsLatest(current, OperatorVersions(r, 2, branch.line));
    assert ChartTag(currentChart) in r.tags;
    assert ChartVersions(r, 2) == {currentChart};
    LatestIs(currentChart, ChartVersions(r, 2));
    PreparedPlan(r, branch, current, currentChart, o);
    var effects := BranchPlan(r, branch, o).effects;
    assert effects[..1] == [effects[0]];
    OneEffect(r, effects[0]);
    var q := Apply1(r, effects[0]);
    assert ChartTag(currentChart) in q.tags;
    assert currentChart in ChartVersionsAt(q, 2);
  }
}
