/** What a run schedules for publishing: only what is tagged, green and not yet published. */
module PatchTrainSchedules {
  import opened Values
  import opened PatchTrain
  import opened PatchTrainSafety

  /** The version's tag is on a green commit of the remote, and its release is missing. */
  predicate OperatorDue(q: Repo, o: Oracle, v: Version) {
    && v !in o.publishedOperators
    && OperatorTag(v) in q.tags && q.tags[OperatorTag(v)].target in o.green
  }

  /**
   The chart's tag is on a green commit that names the chart and the operator, and that carries the operator's tag too;
   the chart is not published, or was published before its tag existed.
   */
  predicate ChartDue(r: Repo, q: Repo, o: Oracle, chart: Version, operator: Version) {
    && (chart !in o.publishedCharts || ChartTag(chart) !in r.tags)
    && ChartTag(chart) in q.tags && OperatorTag(operator) in q.tags
    && var target := q.tags[ChartTag(chart)].target;
       && target in o.green && q.tags[OperatorTag(operator)].target == target && target in q.commits
       && q.commits[target].version == Stable(chart) && q.commits[target].appVersion == Stable(operator)
  }

  ghost predicate Sound(r: Repo, q: Repo, o: Oracle, p: Plan) {
    && (forall i :: 0 <= i < |p.operators| ==> OperatorDue(q, o, p.operators[i]))
    && (forall i :: 0 <= i < |p.charts| ==> ChartDue(r, q, o, p.charts[i].0, p.charts[i].1))
  }

  lemma TagsSound(r: Repo, q: Repo, target: Sha, operator: Version, chart: Version, o: Oracle)
    requires q.tags == r.tags && target in q.commits
    requires q.commits[target].version == Stable(chart) && q.commits[target].appVersion == Stable(operator)
    ensures var p := TagPlan(r, target, operator, chart, o); Sound(r, Apply(q, p.effects), o, p)
  {
    var p := TagPlan(r, target, operator, chart, o);
    if |p.effects| == 1 {
      assert p.effects == [p.effects[0]];
      OneEffect(q, p.effects[0]);
    } else if |p.effects| == 2 {
      assert p.effects == [p.effects[0], p.effects[1]];
      TwoEffects(q, p.effects[0], p.effects[1]);
    }
  }

  lemma CreateSound(r: Repo, branch: Branch, head: Sha, operator: Version, changed: bool, o: Oracle)
    requires WellFormed(r) && head in r.commits && OperatorTag(operator) in r.tags && !o.dryRun
    ensures var p := CreatePlan(r, branch, head, operator, changed, o); Sound(r, Apply(r, p.effects), o, p)
  {
    var p := CreatePlan(r, branch, head, operator, changed, o);
    var current := CurrentChart(r, head, operator);
    if current.Stable? {
      var next, nextChart := IncrementPatch(operator), IncrementPatch(current.version);
      if p.effects != [] && p.effects[0].PushCommit? {
        var rest := TagPlan(r, o.newSha, next, nextChart, o);
        assert p.effects[1..] == rest.effects;
        TagsSound(r, Apply1(r, p.effects[0]), o.newSha, next, nextChart, o);
      } else if p == TagPlan(r, head, next, nextChart, o)
                && r.commits[head].version == Stable(nextChart) && r.commits[head].appVersion == Stable(next) {
        TagsSound(r, r, head, next, nextChart, o);
      }
    }
  }

  lemma CompleteSound(r: Repo, head: Sha, operator: Version, onHead: Option<Version>, o: Oracle)
    requires WellFormed(r) && head in r.commits && OperatorTag(operator) in r.tags && !o.dryRun
    requires r.tags[OperatorTag(operator)].target == head
    ensures var p := CompletePlan(r, head, operator, onHead, o); Sound(r, Apply(r, p.effects), o, p)
  {
    var p := CompletePlan(r, head, operator, onHead, o);
    if p.effects != [] {
      assert p.effects == [p.effects[0]];
      OneEffect(r, p.effects[0]);
    }
  }

  /**
   Every run that is not a dry run schedules only releases that are missing, and only from tags that are on the remote
   when the run ends, on green commits, the two tags of one release on one commit.
   */
  lemma SchedulesAreSound(r: Repo, branch: Branch, o: Oracle)
    requires WellFormed(r) && !o.dryRun
    ensures var p := BranchPlan(r, branch, o); Sound(r, Apply(r, p.effects), o, p)
  {
    if branch.Release? && branch in r.heads {
      var head := r.heads[branch];
      var latest := Latest(OperatorVersions(r, head, branch.line));
      if latest.Some? {
        var operator := latest.value;
        var released := r.tags[OperatorTag(operator)].target;
        if head == released {
          CompleteSound(r, head, operator, Latest(ChartVersionsAt(r, head)), o);
        } else if BranchPlan(r, branch, o) != NOTHING {
          var base := ChartBase(r, head, r.commits[released]);
          CreateSound(r, branch, head, operator, ChartYamlDiffers(base, r.commits[head]), o);
        }
      }
    }
  }

  /** The head of the branch is the last release of its line. */
  ghost predicate AtRelease(r: Repo, branch: Branch, operator: Version) {
    && WellFormed(r) && branch.Release? && branch in r.heads
    && IsLatest(operator, OperatorVersions(r, r.heads[branch], branch.line))
    && OperatorTag(operator) in r.tags && r.tags[OperatorTag(operator)].target == r.heads[branch]
  }

  /** A release somebody made by hand is left alone, whatever is missing. */
  lemma ManualReleasesAreLeftAlone(r: Repo, branch: Branch, operator: Version, o: Oracle)
    requires AtRelease(r, branch, operator) && !r.tags[OperatorTag(operator)].automated
    ensures BranchPlan(r, branch, o) == NOTHING
  {
    LatestIs(operator, OperatorVersions(r, r.heads[branch], branch.line));
  }

  /**
   An automated release whose Chart.yaml names another operator gets no chart; the operator's publish is scheduled if
   and only if it is missing and the checks are green.
   */
  lemma OperatorAloneExactlyWhenMissingAndGreen(r: Repo, branch: Branch, operator: Version, o: Oracle)
    requires AtRelease(r, branch, operator) && r.tags[OperatorTag(operator)].automated
    requires r.commits[r.heads[branch]].appVersion != Stable(operator)
    ensures var p := BranchPlan(r, branch, o);
            && p.effects == [] && p.charts == [] && !p.raised && (p.operators == [operator] || p.operators == [])
            && (p.operators == [operator] <==>
                  operator !in o.publishedOperators && (o.dryRun || r.heads[branch] in o.green))
  {
    LatestIs(operator, OperatorVersions(r, r.heads[branch], branch.line));
  }

  /**
   A run on a branch with a release fails with an exception if and only if there is a dependency bump to release, no
   stable chart tag is merged, and the release's own Chart.yaml names no stable version either; it has then pushed and
   scheduled nothing.
   */
  lemma RaisesExactlyWithoutAChartVersion(r: Repo, branch: Branch, operator: Version, o: Oracle)
    requires WellFormed(r) && branch.Release? && branch in r.heads && OperatorTag(operator) in r.tags
    requires IsLatest(operator, OperatorVersions(r, r.heads[branch], branch.line))
    ensures var head, p := r.heads[branch], BranchPlan(r, branch, o);
            var released := r.commits[r.tags[OperatorTag(operator)].target];
            && (p.raised ==> p == NOTHING.(raised := true))
            && (p.raised <==>
                  && head != r.tags[OperatorTag(operator)].target
                  && DependencyBump(released, ChartBase(r, head, released), r.commits[head])
                  && ChartVersions(r, head) == {} && released.version.Other?)
  {
    LatestIs(operator, OperatorVersions(r, r.heads[branch], branch.line));
    LatestExists(ChartVersions(r, r.heads[branch]));
  }

  /**
   A Chart.yaml that somebody edited is not overwritten: if it differs from the last chart release, nothing is pushed or
   scheduled unless it names the latest operator with the latest chart, or already the next of both.
   */
  lemma EditedChartIsLeftAlone(r: Repo, branch: Branch, operator: Version, chart: Version, o: Oracle)
    requires WellFormed(r) && branch.Release? && branch in r.heads && OperatorTag(operator) in r.tags
    requires IsLatest(operator, OperatorVersions(r, r.heads[branch], branch.line))
    requires IsLatest(chart, ChartVersions(r, r.heads[branch])) && ChartTag(chart) in r.tags
    requires r.heads[branch] != r.tags[OperatorTag(operator)].target
    requires var c, base := r.commits[r.heads[branch]], r.commits[r.tags[ChartTag(chart)].target];
             && (c.version != base.version || c.appVersion != base.appVersion || c.yaml != base.yaml)
             && !(c.appVersion == Stable(operator) && c.version == Stable(chart))
             && !(c.appVersion == Stable(IncrementPatch(operator)) && c.version == Stable(IncrementPatch(chart)))
    ensures BranchPlan(r, branch, o) == NOTHING
  {
    LatestIs(operator, OperatorVersions(r, r.heads[branch], branch.line));
    LatestIs(chart, ChartVersions(r, r.heads[branch]));
  }

  // ---------- and everything that was tagged ----------

  /** The run pushed the operator's tag, and the chart its commit names is tagged there too. */
  predicate Pushed(r: Repo, q: Repo, operator: Version, chart: Version) {
    && OperatorTag(operator) in q.tags && OperatorTag(operator) !in r.tags && ChartTag(chart) in q.tags
    && var target := q.tags[OperatorTag(operator)].target;
       q.tags[ChartTag(chart)].target == target && target in q.commits && q.commits[target].version == Stable(chart)
  }

  predicate SchedulesBoth(p: Plan, o: Oracle, operator: Version, chart: Version) {
    && (operator in p.operators <==> operator !in o.publishedOperators)
    && ((chart, operator) in p.charts <==> chart !in o.publishedCharts)
  }

  lemma TagsSchedule(r: Repo, q: Repo, target: Sha, next: Version, nextChart: Version, o: Oracle, operator: Version,
                     chart: Version)
    requires q.tags == r.tags && target in q.commits && q.commits[target].version == Stable(nextChart)
    requires var p := TagPlan(r, target, next, nextChart, o); Pushed(r, Apply(q, p.effects), operator, chart)
    ensures SchedulesBoth(TagPlan(r, target, next, nextChart, o), o, operator, chart)
  {
    var p := TagPlan(r, target, next, nextChart, o);
    if |p.effects| == 1 {
      assert p.effects == [p.effects[0]];
      OneEffect(q, p.effects[0]);
    } else if |p.effects| == 2 {
      assert p.effects == [p.effects[0], p.effects[1]];
      TwoEffects(q, p.effects[0], p.effects[1]);
    }
  }

  lemma CreateSchedules(r: Repo, branch: Branch, head: Sha, latest: Version, changed: bool, o: Oracle,
                        operator: Version, chart: Version)
    requires WellFormed(r) && head in r.commits && OperatorTag(latest) in r.tags && !o.dryRun
    requires var p := CreatePlan(r, branch, head, latest, changed, o); Pushed(r, Apply(r, p.effects), operator, chart)
    ensures SchedulesBoth(CreatePlan(r, branch, head, latest, changed, o), o, operator, chart)
  {
    var p := CreatePlan(r, branch, head, latest, changed, o);
    var current := CurrentChart(r, head, latest);
    var next, nextChart := IncrementPatch(latest), IncrementPatch(current.version);
    if p.effects[0].PushCommit? {
      assert p.effects[1..] == TagPlan(r, o.newSha, next, nextChart, o).effects;
      TagsSchedule(r, Apply1(r, p.effects[0]), o.newSha, next, nextChart, o, operator, chart);
    } else {
      TagsSchedule(r, r, head, next, nextChart, o, operator, chart);
    }
  }

  /** A release whose operator tag a run pushes, and whose chart is tagged with it, is scheduled where it is missing. */
  lemma PushedReleasesAreScheduled(r: Repo, branch: Branch, o: Oracle, operator: Version, chart: Version)
    requires WellFormed(r) && !o.dryRun
    requires Pushed(r, Apply(r, BranchPlan(r, branch, o).effects), operator, chart)
    ensures SchedulesBoth(BranchPlan(r, branch, o), o, operator, chart)
  {
    var head := r.heads[branch];
    var latest := Latest(OperatorVersions(r, head, branch.line)).value;
    var released := r.tags[OperatorTag(latest)].target;
    var effects := BranchPlan(r, branch, o).effects;
    if head == released {
      assert effects == [effects[0]];
      OneEffect(r, effects[0]);
      assert false;
    }
    var base := ChartBase(r, head, r.commits[released]);
    CreateSchedules(r, branch, head, latest, ChartYamlDiffers(base, r.commits[head]), o, operator, chart);
  }
}
