/**
 Branches named with superfluous zeros, such as release-01.7. The next version is printed without the zeros, so its tag
 lies outside the branch's own line and later runs go on counting from the same operator version.
 */
module PatchTrainPadded {
  import opened PatchTrain
  import opened PatchTrainSafety
  import opened PatchTrainRecovery

  // ---------- the stages ----------

  /** As far as the line shows, the dependency changes on the head are still to be released. */
  ghost predicate StillDue(r: Repo, branch: Branch, current: Version) {
    && WellFormed(r) && branch.Release? && !Canonical(branch.line) && branch in r.heads
    && IsLatest(current, OperatorVersions(r, r.heads[branch], branch.line))
    && OperatorTag(current) in r.tags
    && DependenciesOnly(r, r.heads[branch], r.tags[OperatorTag(current)].target)
  }

  predicate HeadCarries(r: Repo, branch: Branch, next: Version, chart: Version) {
    && branch in r.heads && r.heads[branch] in r.commits
    && r.commits[r.heads[branch]].appVersion == Stable(next) && r.commits[r.heads[branch]].version == Stable(chart)
  }

  predicate OnHead(r: Repo, branch: Branch, name: TagName) {
    branch in r.heads && name in r.tags && r.tags[name].target == r.heads[branch]
  }

  /** The operator tag is out, the chart tag is not. */
  ghost predicate PaddedHalf(r: Repo, branch: Branch, current: Version, currentChart: Version) {
    var next, chart := IncrementPatch(current), IncrementPatch(currentChart);
    && StillDue(r, branch, current) && HeadCarries(r, branch, next, chart)
    && CurrentChart(r, r.heads[branch], current) == Stable(currentChart)
    && OnHead(r, branch, OperatorTag(next)) && ChartTag(chart) !in r.tags
  }

  /** Both tags are out. */
  ghost predicate PaddedDone(r: Repo, branch: Branch, current: Version, chart: Version) {
    var next := IncrementPatch(current);
    && StillDue(r, branch, current) && HeadCarries(r, branch, next, chart) && TagsOnHead(r, branch, next, chart)
    && IsLatest(chart, ChartVersions(r, r.heads[branch]))
  }

  /** A further chart commit sits on top of the release. */
  ghost predicate PaddedOver(r: Repo, branch: Branch, current: Version, chart: Version) {
    var next := IncrementPatch(current);
    && StillDue(r, branch, current) && HeadCarries(r, branch, next, IncrementPatch(chart))
    && OperatorTag(next) in r.tags && r.tags[OperatorTag(next)].target != r.heads[branch]
    && ChartTag(chart) in r.tags && IsLatest(chart, ChartVersions(r, r.heads[branch]))
  }

  // ---------- what a run does ----------

  lemma NextIsOutside(r: Repo, branch: Branch, current: Version)
    requires StillDue(r, branch, current)
    ensures !InLine(IncrementPatch(current), branch.line)
  {
    assert InLine(current, branch.line);
  }

  lemma HalfPlan(r: Repo, branch: Branch, current: Version, currentChart: Version, o: Oracle)
    requires PaddedHalf(r, branch, current, currentChart) && !o.dryRun
    ensures var next, chart := IncrementPatch(current), IncrementPatch(currentChart);
            BranchPlan(r, branch, o) == TagPlan(r, r.heads[branch], next, chart, o)
  {
    LatestIs(current, OperatorVersions(r, r.heads[branch], branch.line));
  }

  /** A healthy run completes the release, whatever other chart tags sit on the head. */
  lemma HalfRunFinishes(r: Repo, branch: Branch, current: Version, currentChart: Version, o: Oracle)
    requires PaddedHalf(r, branch, current, currentChart) && Healthy(o, r)
    ensures Finishes(r, branch, o, IncrementPatch(current), IncrementPatch(currentChart))
  {
    HalfPlan(r, branch, current, currentChart, o);
    OneEffect(r, PushTag(ChartTag(IncrementPatch(currentChart)), Tag(r.heads[branch], true)));
  }

  /** The next run counts the chart on from the release it does not see, pushes another commit and stops at the tag. */
  lemma DonePlan(r: Repo, branch: Branch, current: Version, chart: Version, o: Oracle)
    requires PaddedDone(r, branch, current, chart) && NonDry(o, r)
    ensures var next := IncrementPatch(current);
            var commit := PreparedCommit(r, r.heads[branch], o.newSha, IncrementPatch(chart), next);
            BranchPlan(r, branch, o) == Plan([PushCommit(branch, o.newSha, commit)], [], [], false)
  {
    var head := r.heads[branch];
    LatestIs(current, OperatorVersions(r, head, branch.line));
    LatestIs(chart, ChartVersions(r, head));
  }

  /** And from then on nothing happens any more. */
  lemma OverPlan(r: Repo, branch: Branch, current: Version, chart: Version, o: Oracle)
    requires PaddedOver(r, branch, current, chart) && !o.dryRun
    ensures BranchPlan(r, branch, o) == NOTHING
  {
    var head := r.heads[branch];
    LatestIs(current, OperatorVersions(r, head, branch.line));
    LatestIs(chart, ChartVersions(r, head));
  }

  // ---------- from stage to stage ----------

  /** A tag outside the line leaves the line's listing and the charts as they are. */
  lemma OutsideTag(r: Repo, branch: Branch, current: Version, tag: Tag)
    requires StillDue(r, branch, current) && OperatorTag(IncrementPatch(current)) !in r.tags && tag.target in r.commits
    ensures var head := r.heads[branch];
            var q := Apply1(r, PushTag(OperatorTag(IncrementPatch(current)), tag));
            && WellFormed(q)
            && OperatorVersions(q, head, branch.line) == OperatorVersions(r, head, branch.line)
            && ChartVersions(q, head) == ChartVersions(r, head)
  {
    NextIsOutside(r, branch, current);
    var head := r.heads[branch];
    var q := Apply1(r, PushTag(OperatorTag(IncrementPatch(current)), tag));
    forall v | v in OperatorVersions(r, head, branch.line) ensures v in OperatorVersions(q, head, branch.line) {
      assert OperatorTag(v) in q.tags;
    }
    forall v | v in ChartVersions(r, head) ensures v in ChartVersions(q, head) { assert ChartTag(v) in q.tags; }
  }

  lemma OperatorTagHalves(r: Repo, branch: Branch, current: Version, currentChart: Version)
    requires Prepared(r, branch, current, currentChart) && !Canonical(branch.line)
    ensures var q := Apply1(r, PushTag(OperatorTag(IncrementPatch(current)), Tag(r.heads[branch], true)));
            PaddedHalf(q, branch, current, currentChart)
  {
    OutsideTag(r, branch, current, Tag(r.heads[branch], true));
    var head := r.heads[branch];
    assert Latest(ChartVersions(r, head)).Some? ==> ChartTag(Latest(ChartVersions(r, head)).value) in r.tags;
  }

  lemma ChartTagCompletes(r: Repo, branch: Branch, current: Version, currentChart: Version)
    requires PaddedHalf(r, branch, current, currentChart)
    ensures var chart := IncrementPatch(currentChart);
            PaddedDone(Apply1(r, PushTag(ChartTag(chart), Tag(r.heads[branch], true))), branch, current, chart)
  {
    var chart, head := IncrementPatch(currentChart), r.heads[branch];
    var q := Apply1(r, PushTag(ChartTag(chart), Tag(head, true)));
    assert OperatorVersions(q, head, branch.line) == OperatorVersions(r, head, branch.line) by {
      forall v | v in OperatorVersions(r, head, branch.line) ensures v in OperatorVersions(q, head, branch.line) {
        assert OperatorTag(v) in q.tags;
      }
    }
    NewestChart(r, branch, current, currentChart, q);
    LatestIs(chart, ChartVersions(q, head));
  }

  /** The new chart tag is the latest of those merged into the head. */
  lemma NewestChart(r: Repo, branch: Branch, current: Version, currentChart: Version, q: Repo)
    requires PaddedHalf(r, branch, current, currentChart)
    requires q == Apply1(r, PushTag(ChartTag(IncrementPatch(currentChart)), Tag(r.heads[branch], true)))
    ensures IsLatest(IncrementPatch(currentChart), ChartVersions(q, r.heads[branch]))
  {
    var chart, head := IncrementPatch(currentChart), r.heads[branch];
    var merged := ChartVersions(r, head);
    LatestExists(merged);
    assert ChartTag(chart) in q.tags;
    forall v | v in ChartVersions(q, head) ensures v == chart || Before(v, chart) {
      if v != chart {
        assert ChartTag(v) in r.tags;
        assert v in merged;
        NextIsOnePatchAboveMaximum(currentChart, merged);
      }
    }
  }

  lemma CommitOverruns(r: Repo, branch: Branch, current: Version, chart: Version, sha: Sha)
    requires PaddedDone(r, branch, current, chart) && sha !in r.commits
    ensures var next := IncrementPatch(current);
            var commit := PreparedCommit(r, r.heads[branch], sha, IncrementPatch(chart), next);
            PaddedOver(Apply1(r, PushCommit(branch, sha, commit)), branch, current, chart)
  {
    CommitKeepsVersions(r, branch, sha, IncrementPatch(chart), IncrementPatch(current));
    LatestIs(chart, ChartVersions(r, r.heads[branch]));
  }

  // ---------- cuts ----------

  /** The stages of a padded line after the operator tag is out. */
  ghost predicate PaddedStage(r: Repo, branch: Branch, current: Version, currentChart: Version) {
    || PaddedHalf(r, branch, current, currentChart)
    || PaddedDone(r, branch, current, IncrementPatch(currentChart))
    || PaddedOver(r, branch, current, IncrementPatch(currentChart))
  }

  lemma PreparedCutPads(r: Repo, branch: Branch, current: Version, currentChart: Version, o: Oracle, k: nat)
    requires Prepared(r, branch, current, currentChart) && !Canonical(branch.line)
    requires 1 <= k <= |TagPlan(r, r.heads[branch], IncrementPatch(current), IncrementPatch(currentChart), o).effects|
    ensures var plan := TagPlan(r, r.heads[branch], IncrementPatch(current), IncrementPatch(currentChart), o);
            PaddedStage(Apply(r, plan.effects[..k]), branch, current, currentChart)
  {
    var effects := TagPlan(r, r.heads[branch], IncrementPatch(current), IncrementPatch(currentChart), o).effects;
    OperatorTagHalves(r, branch, current, currentChart);
    if k == 1 {
      assert effects[..1] == [effects[0]];
      OneEffect(r, effects[0]);
    } else {
      assert effects[..2] == [effects[0], effects[1]];
      TwoEffects(r, effects[0], effects[1]);
      ChartTagCompletes(Apply1(r, effects[0]), branch, current, currentChart);
    }
  }

  lemma PaddedCut(r: Repo, branch: Branch, current: Version, currentChart: Version, o: Oracle, k: nat)
    requires PaddedStage(r, branch, current, currentChart) && NonDry(o, r) && k <= |BranchPlan(r, branch, o).effects|
    ensures PaddedStage(Apply(r, BranchPlan(r, branch, o).effects[..k]), branch, current, currentChart)
  {
    var effects := BranchPlan(r, branch, o).effects;
    var chart := IncrementPatch(currentChart);
    if k == 0 {
      assert effects[..0] == [];
    } else if PaddedHalf(r, branch, current, currentChart) {
      HalfPlan(r, branch, current, currentChart, o);
      assert effects[..k] == [PushTag(ChartTag(chart), Tag(r.heads[branch], true))];
      OneEffect(r, effects[0]);
      ChartTagCompletes(r, branch, current, currentChart);
    } else if PaddedDone(r, branch, current, chart) {
      DonePlan(r, branch, current, chart, o);
      assert effects[..k] == [effects[0]];
      OneEffect(r, effects[0]);
      CommitOverruns(r, branch, current, chart, o.newSha);
    } else {
      OverPlan(r, branch, current, chart, o);
    }
  }

  /** A healthy run finishes if and only if the chart tag is not yet out; otherwise it schedules nothing. */
  lemma PaddedRun(r: Repo, branch: Branch, current: Version, currentChart: Version, o: Oracle)
    requires PaddedStage(r, branch, current, currentChart) && Healthy(o, r)
    ensures var next, chart := IncrementPatch(current), IncrementPatch(currentChart);
            var p := BranchPlan(r, branch, o);
            && (Finishes(r, branch, o, next, chart) <==> ChartTag(chart) !in r.tags)
            && (ChartTag(chart) in r.tags ==> p.operators == [] && p.charts == [])
  {
    var chart := IncrementPatch(currentChart);
    if PaddedHalf(r, branch, current, currentChart) {
      HalfRunFinishes(r, branch, current, currentChart, o);
    } else if PaddedDone(r, branch, current, chart) {
      DonePlan(r, branch, current, chart, o);
      OneEffect(r, BranchPlan(r, branch, o).effects[0]);
    } else {
      OverPlan(r, branch, current, chart, o);
    }
  }

  // ---------- quiet after the release ----------

  /** With both tags out on the head and both published, a run does nothing if and only if the line is canonical. */
  lemma QuietExactlyWhenCanonical(r: Repo, branch: Branch, current: Version, chart: Version, o: Oracle)
    requires NonDry(o, r) && IncrementPatch(current) in o.publishedOperators && chart in o.publishedCharts
    requires Released(r, branch, IncrementPatch(current), chart) || PaddedDone(r, branch, current, chart)
    ensures BranchPlan(r, branch, o) == NOTHING <==> Canonical(branch.line)
  {
    if PaddedDone(r, branch, current, chart) {
      DonePlan(r, branch, current, chart, o);
    } else {
      PublishedReleaseIsQuiet(r, branch, IncrementPatch(current), chart, o);
      assert InLine(IncrementPatch(current), branch.line);
    }
  }

  /**
   After a whole healthy run, which finishes, the next run pushes a commit and schedules nothing, published or not.
   */
  lemma PaddedReleaseIsNotQuiet(r: Repo, branch: Branch, current: Version, currentChart: Version, o1: Oracle,
                                o2: Oracle)
    requires Prepared(r, branch, current, currentChart) && !Canonical(branch.line) && Healthy(o1, r)
    requires NonDry(o2, Apply(r, BranchPlan(r, branch, o1).effects))
    ensures Finishes(r, branch, o1, IncrementPatch(current), IncrementPatch(currentChart))
    ensures var q := Apply(r, BranchPlan(r, branch, o1).effects);
            && WellFormed(q)
            && var p := BranchPlan(q, branch, o2);
               |p.effects| == 1 && p.effects[0].PushCommit? && p.operators == [] && p.charts == []
  {
    PreparedRunFinishes(r, branch, current, currentChart, o1);
    PreparedPlan(r, branch, current, currentChart, o1);
    var effects := BranchPlan(r, branch, o1).effects;
    assert effects == [effects[0], effects[1]];
    TwoEffects(r, effects[0], effects[1]);
    OperatorTagHalves(r, branch, current, currentChart);
    ChartTagCompletes(Apply1(r, effects[0]), branch, current, currentChart);
    DonePlan(Apply(r, effects), branch, current, IncrementPatch(currentChart), o2);
  }

  /** Such a repository: release-01.7, with a dependency change on top of v01.7.0. */
  lemma PaddedLineExists() returns (r: Repo, branch: Branch, current: Version, currentChart: Version, o: Oracle)
    ensures Prepared(r, branch, current, currentChart) && !Canonical(branch.line) && Healthy(o, r)
  {
    current, currentChart := Version(Num(1, 1), Num(7, 0), Num(0, 0)), Version(Num(0, 0), Num(5, 0), Num(0, 0));
    branch := Release(true, Line(Num(1, 1), Num(7, 0)));
    var next, chart := IncrementPatch(current), IncrementPatch(currentChart);
    var c1 := Commit(1, 1, 1, 1, Stable(currentChart), Stable(current), {1});
    var c2 := Commit(2, 1, 1, 1, Stable(chart), Stable(next), {1, 2});
    r := Repo(map[1 := c1, 2 := c2], map[branch := 2],
              map[OperatorTag(current) := Tag(1, false), ChartTag(currentChart) := Tag(1, false)]);
    o := Oracle({1, 2, 3}, {}, {}, 3, false);
    assert OperatorVersions(r, 2, branch.line) == {current} by { assert OperatorTag(current) in r.tags; }
    assert ChartVersions(r, 2) == {currentChart} by { assert ChartTag(currentChart) in r.tags; }
    LatestIs(currentChart, ChartVersions(r, 2));
  }
}
