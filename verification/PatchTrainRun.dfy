/** The patch train as the script runs it: one push after another, killed after any of them. */
module PatchTrainRun {
  import opened Values
  import opened PatchTrain
  import opened PatchTrainSafety

  /** How create_or_push_tag ends. */
  datatype Pushed = Done | Raised | Killed

  class Train {
    var repo: Repo                          // the remote
    var local: map<TagName, Tag>            // tags of the clone
    var operators: seq<Version>             // operator_releases
    var charts: seq<(Version, Version)>     // chart_releases
    var pushes: nat                         // pushes left before the job is killed

    /** A fresh clone. */
    constructor (repo: Repo, pushes: nat)
      ensures this.repo == repo && local == repo.tags && operators == [] && charts == [] && this.pushes == pushes
    {
      this.repo, local, operators, charts, this.pushes := repo, repo.tags, [], [], pushes;
    }

    /** The remote holds a prefix of the plan's effects; a run that was not killed did everything the plan says. */
    ghost predicate Followed(r: Repo, before: seq<Version>, beforeCharts: seq<(Version, Version)>, p: Plan,
                             finished: bool)
      reads this
    {
      && (exists k :: 0 <= k <= |p.effects| && repo == Apply(r, p.effects[..k]))
      && (finished ==>
            repo == Apply(r, p.effects) && operators == before + p.operators && charts == beforeCharts + p.charts)
      && (!finished ==> pushes == 0)
    }

    /** latest_stable_tag and stable_tag_points_at: the last of the tags sorted by version. */
    method LatestOf(versions: set<Version>) returns (best: Option<Version>)
      ensures best == Latest(versions)
    {
      best := None;
      var rest := versions;
      while rest != {}
        invariant rest <= versions
        invariant best.None? <==> rest == versions
        invariant best.Some? ==> IsLatest(best.value, versions - rest)
        decreases |rest|
      {
        var v :| v in rest;
        if best.None? {
          best := Some(v);
          assert IsLatest(v, versions - (rest - {v}));
        } else {
          BeforeIsTotal(best.value, v);
          if Before(best.value, v) {
            forall u | u in versions - (rest - {v}) ensures u == v || Before(u, v) {
              if u != v && u != best.value { BeforeIsTransitive(u, best.value, v); }
            }
            best := Some(v);
          }
        }
        rest := rest - {v};
      }
      if best.Some? {
        assert versions - {} == versions;
        LatestIs(best.value, versions);
      } else {
        LatestExists(versions);
      }
    }

    method PushCommitTo(branch: Branch, sha: Sha, commit: Commit) returns (alive: bool)
      modifies this`repo, this`pushes
      ensures alive <==> old(pushes) > 0
      ensures repo == if alive then Apply1(old(repo), PushCommit(branch, sha, commit)) else old(repo)
      ensures !alive ==> pushes == 0
    {
      if pushes == 0 { return false; }
      pushes := pushes - 1;
      repo := repo.(commits := repo.commits[sha := commit], heads := repo.heads[branch := sha]);
      return true;
    }

    /** create_or_push_tag, for any state of the clone's tags; a tag that exists remotely is never touched. */
    method CreateOrPushTag(name: TagName, target: Sha, automated: bool) returns (r: Pushed)
      modifies this`repo, this`local, this`pushes
      ensures r.Raised? <==> name in old(repo).tags && old(repo).tags[name].target != target
      ensures r.Killed? <==> name !in old(repo).tags && old(pushes) == 0
      ensures r.Done? ==> name in repo.tags && repo.tags[name].target == target
      ensures repo == if r.Done? && name !in old(repo).tags
                      then Apply1(old(repo), PushTag(name, repo.tags[name])) else old(repo)
      ensures r.Done? && name !in old(repo).tags && name !in old(local) ==> repo.tags[name] == Tag(target, automated)
      ensures forall n :: n != name ==> (n in local <==> n in old(local))
      ensures r.Killed? ==> pushes == 0
    {
      if name in repo.tags {
        return if repo.tags[name].target == target then Done else Raised;
      }
      if name in local && local[name].target != target { local := local - {name}; }
      if name !in local { local := local[name := Tag(target, automated)]; }
      if pushes == 0 { return Killed; }
      pushes := pushes - 1;
      repo := repo.(tags := repo.tags[name := local[name]]);
      return Done;
    }

    /** complete_missing_chart_release. */
    method CompleteMissingChartRelease(head: Sha, operator: Version, onHead: Option<Version>, o: Oracle)
      returns (finished: bool)
      requires head in repo.commits && OperatorTag(operator) in repo.tags && local == repo.tags
      modifies this
      ensures Followed(old(repo), old(operators), old(charts), CompletePlan(old(repo), head, operator, onHead, o),
          finished)
    {
      ghost var r := repo;
      ghost var p := CompletePlan(r, head, operator, onHead, o);
      assert Apply(r, []) == r && p.effects[..0] == [] && p.effects[..|p.effects|] == p.effects;
      var c := repo.commits[head];
      if !repo.tags[OperatorTag(operator)].automated { return true; }
      if c.appVersion != Stable(operator) {
        if operator in o.publishedOperators { return true; }
        if !Green(o, head) { return true; }
        operators := operators + [operator];
        return true;
      }
      if c.version.Other? { return true; }
      var chart := c.version.version;
      var existing := ChartTag(chart) in repo.tags;
      if existing && repo.tags[ChartTag(chart)].target != head { return true; }
      if onHead.Some? && onHead.value != chart { return true; }
      var operatorNeeds := operator !in o.publishedOperators;
      var chartNeeds := !(existing && chart in o.publishedCharts);
      if !operatorNeeds && !chartNeeds { return true; }
      if !Green(o, head) { return true; }
      if operatorNeeds { operators := operators + [operator]; }
      if chartNeeds && !o.dryRun && !existing {
        var pushed := CreateOrPushTag(ChartTag(chart), head, true);
        if pushed.Killed? { return false; }
        OneEffect(r, p.effects[0]);
        assert p.effects == [p.effects[0]];
      }
      if chartNeeds { charts := charts + [(chart, operator)]; }
      return true;
    }

    /** The two tags on the target and the publishes, as in the second half of create_dependency_patch_release. */
    method TagAndSchedule(target: Sha, operator: Version, chart: Version, o: Oracle, ghost r: Repo)
      returns (finished: bool)
      requires local == repo.tags && r.tags == repo.tags
      modifies this
      ensures Followed(old(repo), old(operators), old(charts), TagPlan(r, target, operator, chart, o), finished)
    {
      ghost var q := repo;
      ghost var p := TagPlan(r, target, operator, chart, o);
      assert Apply(q, []) == q && p.effects[..0] == [] && p.effects[..|p.effects|] == p.effects;
      if target !in o.green { return true; }
      var operatorTag, chartTag := OperatorTag(operator), ChartTag(chart);
      ghost var done: seq<Effect> := [];
      if operatorTag in repo.tags {
        if repo.tags[operatorTag].target != target { return true; }
      } else {
        var pushed := CreateOrPushTag(operatorTag, target, true);
        if pushed.Killed? { return false; }
        done := [PushTag(operatorTag, Tag(target, true))];
        OneEffect(q, done[0]);
      }
      assert done <= p.effects && p.effects[..|done|] == done && repo == Apply(q, done);
      if chartTag in repo.tags {
        if repo.tags[chartTag].target != target { return true; }
      } else {
        ghost var e := PushTag(chartTag, Tag(target, true));
        var pushed := CreateOrPushTag(chartTag, target, true);
        if pushed.Killed? { return false; }
        if done == [] {
          OneEffect(q, e);
          assert done + [e] == [e];
        } else {
          OneEffect(q, done[0]);
          TwoEffects(q, done[0], e);
          assert done + [e] == [done[0], e];
        }
        done := done + [e];
      }
      assert p.effects == done;
      assert repo == Apply(q, p.effects);
      if operator !in o.publishedOperators { operators := operators + [operator]; }
      if chart !in o.publishedCharts { charts := charts + [(chart, operator)]; }
      return true;
    }

    /** create_dependency_patch_release; `raised` is the ValueError of increment_patch on an unstable version. */
    method CreateDependencyPatchRelease(branch: Branch, head: Sha, operator: Version, chartYamlChanged: bool, o: Oracle)
      returns (finished: bool, raised: bool)
      requires WellFormed(repo) && head in repo.commits && OperatorTag(operator) in repo.tags && local == repo.tags
      modifies this
      ensures var p := CreatePlan(old(repo), branch, head, operator, chartYamlChanged, o);
              Followed(old(repo), old(operators), old(charts), p, finished) && (finished ==> raised == p.raised)
    {
      ghost var r := repo;
      ghost var p := CreatePlan(r, branch, head, operator, chartYamlChanged, o);
      assert Apply(r, []) == r && p.effects[..0] == [] && p.effects[..|p.effects|] == p.effects;
      raised := false;
      var chartTag := LatestOf(ChartVersions(repo, head));
      var current := if chartTag.Some? then Stable(chartTag.value)
          else repo.commits[repo.tags[OperatorTag(operator)].target].version;
      if current.Other? { return true, true; }
      var next, nextChart := IncrementPatch(operator), IncrementPatch(current.version);
      var c := repo.commits[head];
      var prepared := c.appVersion == Stable(next) && c.version == Stable(nextChart);
      if !prepared && !(c.appVersion == Stable(operator) && c.version == current) && chartYamlChanged {
        return true, false;
      }
      if o.dryRun {
        operators, charts := operators + [next], charts + [(nextChart, next)];
        return true, false;
      }
      if prepared {
        finished := TagAndSchedule(head, next, nextChart, o, r);
      } else {
        finished := CommitAndTag(branch, head, next, nextChart, o);
      }
    }

    /** The push of the prepared Chart.yaml, and the tags on it. */
    method CommitAndTag(branch: Branch, head: Sha, next: Version, nextChart: Version, o: Oracle)
      returns (finished: bool)
      requires head in repo.commits && local == repo.tags
      modifies this
      ensures var r := old(repo);
              var push := PushCommit(branch, o.newSha, PreparedCommit(r, head, o.newSha, nextChart, next));
              Followed(r, old(operators), old(charts), Then(push, TagPlan(r, o.newSha, next, nextChart, o)), finished)
    {
      ghost var r := repo;
      ghost var e := PushCommit(branch, o.newSha, PreparedCommit(r, head, o.newSha, nextChart, next));
      ghost var rest := TagPlan(r, o.newSha, next, nextChart, o).effects;
      assert Apply(r, []) == r && ([e] + rest)[..0] == [];
      var alive := PushCommitTo(branch, o.newSha, PreparedCommit(repo, head, o.newSha, nextChart, next));
      if !alive { return false; }
      ghost var q := repo;
      finished := TagAndSchedule(o.newSha, next, nextChart, o, r);
      ghost var k :| 0 <= k <= |rest| && repo == Apply(q, rest[..k]);
      EffectsAfterFirst(r, e, rest, k);
      EffectsAfterFirst(r, e, rest, |rest|);
      assert rest[..|rest|] == rest && ([e] + rest)[..|rest| + 1] == [e] + rest;
    }

    /** process_branch. */
    method ProcessBranch(branch: Branch, o: Oracle) returns (finished: bool, raised: bool)
      requires WellFormed(repo) && local == repo.tags
      modifies this
      ensures var p := BranchPlan(old(repo), branch, o);
              Followed(old(repo), old(operators), old(charts), p, finished) && (finished ==> raised == p.raised)
    {
      ghost var p := BranchPlan(repo, branch, o);
      assert Apply(repo, []) == repo && p.effects[..0] == [];
      finished, raised := true, false;
      if branch.Malformed? || branch !in repo.heads { return; }
      var head := repo.heads[branch];
      var latest := LatestOf(OperatorVersions(repo, head, branch.line));
      if latest.None? { return; }
      var operator := latest.value;
      var released := repo.tags[OperatorTag(operator)].target;
      var onHead := LatestOf(ChartVersionsAt(repo, head));
      if head == released {
        finished := CompleteMissingChartRelease(head, operator, onHead, o);
        return;
      }
      var c, before := repo.commits[head], repo.commits[released];
      var chartTag := LatestOf(ChartVersions(repo, head));
      var base := if chartTag.Some? then repo.commits[repo.tags[ChartTag(chartTag.value)].target] else before;
      var operatorChanged := c.deps != before.deps || c.code != before.code;
      var chartChanged := c.chart != base.chart || ChartYamlDiffers(base, c);
      if !operatorChanged && !chartChanged { return; }
      if c.code != before.code { return; }
      if c.chart != base.chart { return; }
      if c.deps == before.deps { return; }
      finished, raised := CreateDependencyPatchRelease(branch, head, operator, ChartYamlDiffers(base, c), o);
    }
  }
}
