/** What every run of the patch train keeps, complete or cut after any of its pushes. */
module PatchTrainSafety {
  import opened Values
  import opened PatchTrain

  // ---------- the latest version ----------

  lemma BeforeIsAsymmetric(a: Version, b: Version)
    requires Before(a, b)
    ensures !Before(b, a) && a != b
  {
  }

  lemma LatestIsUnique(u: Version, v: Version, versions: set<Version>)
    requires IsLatest(u, versions) && IsLatest(v, versions)
    ensures u == v
  {
    assert u in versions && v in versions;
    if u != v { BeforeIsAsymmetric(u, v); }
  }

  lemma LatestIs(v: Version, versions: set<Version>)
    requires IsLatest(v, versions)
    ensures Latest(versions) == Some(v)
  {
    LatestIsUnique(Latest(versions).value, v, versions);
  }

  lemma BeforeIsTransitive(a: Version, b: Version, c: Version)
    requires Before(a, b) && Before(b, c)
    ensures Before(a, c)
  {
  }

  lemma BeforeIsTotal(a: Version, b: Version)
    ensures a == b || Before(a, b) || Before(b, a)
  {
  }

  /** There is a latest version exactly when there is any. */
  lemma {:induction false} LatestExists(versions: set<Version>)
    ensures Latest(versions).None? <==> versions == {}
    decreases |versions|
  {
    if versions != {} {
      var x :| x in versions;
      var rest := versions - {x};
      LatestExists(rest);
      if rest == {} {
        assert IsLatest(x, versions);
      } else {
        var m := Latest(rest).value;
        assert IsLatest(m, rest);
        BeforeIsTotal(x, m);
        if Before(x, m) {
          assert IsLatest(m, versions);
        } else {
          forall u | u in versions ensures u == x || Before(u, x) {
            if u != x && u != m { BeforeIsTransitive(u, m, x); }
          }
          assert IsLatest(x, versions);
        }
      }
    }
  }

  /** The latest version is the numeric maximum, and the next one is exactly one patch above it. */
  lemma NextIsOnePatchAboveMaximum(v: Version, versions: set<Version>)
    requires IsLatest(v, versions)
    ensures forall u :: u in versions ==> KeyLess(u, v) || SameKey(u, v)
    ensures var n := IncrementPatch(v);
            && n.major.value == v.major.value && n.minor.value == v.minor.value && n.patch.value == v.patch.value + 1
            && n !in versions && forall u :: u in versions ==> KeyLess(u, n)
  {
  }

  // ---------- one run ----------

  /** The chart tag sits on a commit that names it and an operator tag on that same commit. */
  ghost predicate Paired(r: Repo, chart: Version) {
    && ChartTag(chart) in r.tags
    && var target := r.tags[ChartTag(chart)].target;
       && target in r.commits
       && r.commits[target].version == Stable(chart)
       && r.commits[target].appVersion.Stable?
       && var operator := OperatorTag(r.commits[target].appVersion.version);
          operator in r.tags && r.tags[operator].target == target
  }

  /** Nothing already on the remote moves or disappears, except that heads advance. */
  ghost predicate Keeps(r: Repo, q: Repo) {
    && (forall t :: t in r.tags ==> t in q.tags && q.tags[t] == r.tags[t])
    && (forall s :: s in r.commits ==> s in q.commits && q.commits[s] == r.commits[s])
    && r.heads.Keys <= q.heads.Keys
  }

  /** What may be released without anyone's say: new dependencies, the released code, no unreleased chart files. */
  predicate DependencyBump(released: Commit, chartBase: Commit, c: Commit) {
    c.deps != released.deps && c.code == released.code && c.chart == chartBase.chart
  }

  /** One patch above the latest version v of the line, on a commit that only bumps dependencies of v's release. */
  ghost predicate NextRelease(r: Repo, q: Repo, branch: Branch, v: Version, next: Version, target: Sha)
    requires branch.Release? && branch in r.heads && r.heads[branch] in r.commits
  {
    && IsLatest(v, OperatorVersions(r, r.heads[branch], branch.line)) && next == IncrementPatch(v)
    && WellFormed(r) && OperatorTag(v) in r.tags && target in q.commits
    && var released := r.commits[r.tags[OperatorTag(v)].target];
       DependencyBump(released, ChartBase(r, r.heads[branch], released), q.commits[target])
  }

  /**
   Every new tag is automated and sits on a green commit; chart tags are paired; operator tags are the next version.
   */
  ghost predicate NewTagsOk(r: Repo, q: Repo, branch: Branch, o: Oracle) {
    forall t :: t in q.tags && t !in r.tags ==>
      && !o.dryRun && q.tags[t].automated && q.tags[t].target in o.green
      && (t.ChartTag? ==> Paired(q, t.version))
      && (t.OperatorTag? ==>
            && branch.Release? && branch in r.heads && r.heads[branch] in r.commits
            && exists v :: NextRelease(r, q, branch, v, t.version, q.tags[t].target))
      && !t.OtherTag?
  }

  ghost predicate CutOk(r: Repo, q: Repo, branch: Branch, o: Oracle) {
    WellFormed(q) && Keeps(r, q) && NewTagsOk(r, q, branch, o)
  }

  lemma OneEffect(r: Repo, e: Effect)
    ensures Apply(r, [e]) == Apply1(r, e)
  {
    assert [e][1..] == [];
  }

  lemma TwoEffects(r: Repo, e: Effect, f: Effect)
    ensures Apply(r, [e, f]) == Apply1(Apply1(r, e), f)
  {
    assert [e, f][1..] == [f];
    OneEffect(Apply1(r, e), f);
  }

  lemma EffectsAfterFirst(r: Repo, e: Effect, rest: seq<Effect>, k: nat)
    requires k <= |rest|
    ensures Apply(r, ([e] + rest)[..k + 1]) == Apply(Apply1(r, e), rest[..k])
  {
    assert ([e] + rest)[..k + 1][1..] == rest[..k];
  }

  lemma PushTagKeeps(r: Repo, q: Repo, branch: Branch, o: Oracle, name: TagName, tag: Tag)
    requires CutOk(r, q, branch, o) && !o.dryRun && !name.OtherTag?
    requires name !in q.tags && tag.automated && tag.target in o.green && tag.target in q.commits
    requires name.OperatorTag? ==>
      && branch.Release? && branch in r.heads && r.heads[branch] in r.commits
      && exists v :: NextRelease(r, q, branch, v, name.version, tag.target)
    requires name.ChartTag? ==> Paired(Apply1(q, PushTag(name, tag)), name.version)
    ensures CutOk(r, Apply1(q, PushTag(name, tag)), branch, o)
  {
    var q' := Apply1(q, PushTag(name, tag));
    forall v | Paired(q, v) ensures Paired(q', v) { }
    if branch.Release? && branch in r.heads && r.heads[branch] in r.commits {
      forall v, next, target | NextRelease(r, q, branch, v, next, target)
        ensures NextRelease(r, q', branch, v, next, target)
      {}
    }
  }

  lemma OperatorTagCut(r: Repo, q: Repo, branch: Branch, target: Sha, operator: Version, o: Oracle)
    requires CutOk(r, q, branch, o) && !o.dryRun && target in q.commits && target in o.green
    requires branch.Release? && branch in r.heads && r.heads[branch] in r.commits && OperatorTag(operator) !in q.tags
    requires exists v :: NextRelease(r, q, branch, v, operator, target)
    ensures CutOk(r, Apply1(q, PushTag(OperatorTag(operator), Tag(target, true))), branch, o)
  {
    PushTagKeeps(r, q, branch, o, OperatorTag(operator), Tag(target, true));
  }

  lemma ChartTagCut(r: Repo, q: Repo, branch: Branch, target: Sha, operator: Version, chart: Version, o: Oracle)
    requires CutOk(r, q, branch, o) && !o.dryRun && target in q.commits && target in o.green
    requires q.commits[target].version == Stable(chart) && q.commits[target].appVersion == Stable(operator)
    requires ChartTag(chart) !in q.tags && OperatorTag(operator) in q.tags
    requires q.tags[OperatorTag(operator)].target == target
    ensures CutOk(r, Apply1(q, PushTag(ChartTag(chart), Tag(target, true))), branch, o)
  {
    PushTagKeeps(r, q, branch, o, ChartTag(chart), Tag(target, true));
  }

  /** The effects of a tag plan, and what any prefix of them leaves. */
  lemma TagPlanCut(r: Repo, q: Repo, branch: Branch, target: Sha, operator: Version, chart: Version, o: Oracle, k: nat)
    requires CutOk(r, q, branch, o) && q.tags == r.tags && !o.dryRun
    requires target in q.commits && q.commits[target].version == Stable(chart)
    requires q.commits[target].appVersion == Stable(operator)
    requires branch.Release? && branch in r.heads && r.heads[branch] in r.commits
    requires exists v :: NextRelease(r, q, branch, v, operator, target)
    requires k <= |TagPlan(r, target, operator, chart, o).effects|
    ensures CutOk(r, Apply(q, TagPlan(r, target, operator, chart, o).effects[..k]), branch, o)
  {
    var effects := TagPlan(r, target, operator, chart, o).effects;
    var e, f := PushTag(OperatorTag(operator), Tag(target, true)), PushTag(ChartTag(chart), Tag(target, true));
    if k == 0 {
      assert effects[..0] == [];
    } else if effects[0] == f {
      assert Apply(q, effects[..k]) == Apply1(q, f) by { assert effects[..k] == [f]; OneEffect(q, f); }
      ChartTagCut(r, q, branch, target, operator, chart, o);
    } else if k == 1 {
      assert Apply(q, effects[..k]) == Apply1(q, e) by { assert effects[..k] == [e]; OneEffect(q, e); }
      OperatorTagCut(r, q, branch, target, operator, o);
    } else {
      var q1 := Apply1(q, e);
      assert Apply(q, effects[..k]) == Apply1(q1, f) by { assert effects[..k] == [e, f]; TwoEffects(q, e, f); }
      assert CutOk(r, q1, branch, o) by { OperatorTagCut(r, q, branch, target, operator, o); }
      ChartTagCut(r, q1, branch, target, operator, chart, o);
    }
  }

  lemma CommitCut(r: Repo, branch: Branch, head: Sha, next: Version, chart: Version, o: Oracle)
    requires WellFormed(r) && o.newSha !in r.commits && branch in r.heads && head == r.heads[branch]
    ensures CutOk(r, Apply1(r, PushCommit(branch, o.newSha, PreparedCommit(r, head, o.newSha, chart, next))), branch, o)
  {
  }

  /** The commit first, then a prefix of the tags on it. */
  lemma CommitThenTagsCut(r: Repo, branch: Branch, operator: Version, chart: Version, o: Oracle, k: nat)
    requires WellFormed(r) && o.newSha !in r.commits && branch.Release? && branch in r.heads
    requires IsLatest(operator, OperatorVersions(r, r.heads[branch], branch.line)) && OperatorTag(operator) in r.tags
    requires var released := r.commits[r.tags[OperatorTag(operator)].target];
             DependencyBump(released, ChartBase(r, r.heads[branch], released), r.commits[r.heads[branch]])
    requires !o.dryRun && k <= |TagPlan(r, o.newSha, IncrementPatch(operator), chart, o).effects|
    ensures var next := IncrementPatch(operator);
            var e := PushCommit(branch, o.newSha, PreparedCommit(r, r.heads[branch], o.newSha, chart, next));
            CutOk(r, Apply(r, ([e] + TagPlan(r, o.newSha, next, chart, o).effects)[..k + 1]), branch, o)
  {
    var head, next := r.heads[branch], IncrementPatch(operator);
    var e := PushCommit(branch, o.newSha, PreparedCommit(r, head, o.newSha, chart, next));
    var q, rest := Apply1(r, e), TagPlan(r, o.newSha, next, chart, o).effects;
    assert CutOk(r, q, branch, o) by { CommitCut(r, branch, head, next, chart, o); }
    assert NextRelease(r, q, branch, operator, next, o.newSha);
    TagPlanCut(r, q, branch, o.newSha, next, chart, o, k);
    EffectsAfterFirst(r, e, rest, k);
  }

  lemma CreateCut(r: Repo, branch: Branch, head: Sha, operator: Version, chartYamlChanged: bool, o: Oracle, k: nat)
    requires WellFormed(r) && o.newSha !in r.commits
    requires branch.Release? && branch in r.heads && head == r.heads[branch]
    requires IsLatest(operator, OperatorVersions(r, head, branch.line))
    requires OperatorTag(operator) in r.tags
    requires var released := r.commits[r.tags[OperatorTag(operator)].target];
             DependencyBump(released, ChartBase(r, head, released), r.commits[head])
    requires k <= |CreatePlan(r, branch, head, operator, chartYamlChanged, o).effects|
    ensures CutOk(r, Apply(r, CreatePlan(r, branch, head, operator, chartYamlChanged, o).effects[..k]), branch, o)
  {
    var effects := CreatePlan(r, branch, head, operator, chartYamlChanged, o).effects;
    var current := CurrentChart(r, head, operator);
    if k == 0 {
      assert effects[..0] == [];
    } else {
      var next, nextChart := IncrementPatch(operator), IncrementPatch(current.version);
      if effects[0].PushCommit? {
        assert effects == [effects[0]] + TagPlan(r, o.newSha, next, nextChart, o).effects;
        CommitThenTagsCut(r, branch, operator, nextChart, o, k - 1);
      } else {
        assert NextRelease(r, r, branch, operator, next, head);
        TagPlanCut(r, r, branch, head, next, nextChart, o, k);
      }
    }
  }

  lemma CompleteCut(r: Repo, branch: Branch, head: Sha, operator: Version, onHead: Option<Version>, o: Oracle, k: nat)
    requires WellFormed(r) && head in r.commits && OperatorTag(operator) in r.tags
    requires r.tags[OperatorTag(operator)].target == head
    requires k <= |CompletePlan(r, head, operator, onHead, o).effects|
    ensures CutOk(r, Apply(r, CompletePlan(r, head, operator, onHead, o).effects[..k]), branch, o)
  {
    var effects := CompletePlan(r, head, operator, onHead, o).effects;
    if k == 0 {
      assert effects[..0] == [];
    } else {
      assert effects[..1] == [effects[0]];
      OneEffect(r, effects[0]);
    }
  }

  /**
   Every run, complete or cut after any prefix of its pushes: no tag moves or disappears; each new
   operator tag is one patch above the numeric maximum of its line; every new tag is on a green
   commit; each new chart tag shares its commit with the operator tag that commit's appVersion names;
   each new operator tag sits on a commit with the code of the version it follows, other dependencies
   and no unreleased chart files.
   */
  lemma CutRunIsSafe(r: Repo, branch: Branch, o: Oracle, k: nat)
    requires WellFormed(r) && o.newSha !in r.commits
    requires k <= |BranchPlan(r, branch, o).effects|
    ensures CutOk(r, Apply(r, BranchPlan(r, branch, o).effects[..k]), branch, o)
  {
    var effects := BranchPlan(r, branch, o).effects;
    if k == 0 {
      assert effects[..0] == [];
    } else {
      var head := r.heads[branch];
      var operator := Latest(OperatorVersions(r, head, branch.line)).value;
      var released := r.tags[OperatorTag(operator)].target;
      if head == released {
        CompleteCut(r, branch, head, operator, Latest(ChartVersionsAt(r, head)), o, k);
      } else {
        var base := ChartBase(r, head, r.commits[released]);
        CreateCut(r, branch, head, operator, ChartYamlDiffers(base, r.commits[head]), o, k);
      }
    }
  }

  /**
   Past the last release, a run pushes, schedules or raises only if the head bumps dependencies and changes neither the
   code nor, against the last chart release, the chart files.
   */
  lemma ActsOnlyOnDependencyBumps(r: Repo, branch: Branch, o: Oracle, operator: Version)
    requires WellFormed(r) && branch.Release? && branch in r.heads
    requires IsLatest(operator, OperatorVersions(r, r.heads[branch], branch.line)) && OperatorTag(operator) in r.tags
    requires r.heads[branch] != r.tags[OperatorTag(operator)].target && BranchPlan(r, branch, o) != NOTHING
    ensures var released := r.commits[r.tags[OperatorTag(operator)].target];
            DependencyBump(released, ChartBase(r, r.heads[branch], released), r.commits[r.heads[branch]])
  {
    LatestIs(operator, OperatorVersions(r, r.heads[branch], branch.line));
  }

  /** A dry run pushes nothing. */
  lemma DryRunPushesNothing(r: Repo, branch: Branch, o: Oracle)
    requires WellFormed(r) && o.dryRun
    ensures BranchPlan(r, branch, o).effects == []
  {
  }

  // ---------- all histories ----------

  /** A run of the script, cut after `cut` pushes, or something a maintainer does. */
  datatype Round =
    | TrainRun(branch: Branch, oracle: Oracle, cut: nat)
    | ManualCommit(branch: Branch, sha: Sha, commit: Commit)
    | ManualTag(name: TagName, target: Sha)

  ghost predicate Possible(r: Repo, x: Round)
    requires WellFormed(r)
  {
    match x
    case TrainRun(b, o, cut) => o.newSha !in r.commits && cut <= |BranchPlan(r, b, o).effects|
    case ManualCommit(b, sha, c) => sha !in r.commits && sha in c.ancestors && c.ancestors <= r.commits.Keys + {sha}
    case ManualTag(name, target) => name !in r.tags && target in r.commits
  }

  ghost function After(r: Repo, x: Round): (q: Repo)
    requires WellFormed(r) && Possible(r, x)
    ensures WellFormed(q)
  {
    match x
    case TrainRun(b, o, cut) => CutRunIsSafe(r, b, o, cut); Apply(r, BranchPlan(r, b, o).effects[..cut])
    case ManualCommit(b, sha, c) => Apply1(r, PushCommit(b, sha, c))
    case ManualTag(name, target) => Apply1(r, PushTag(name, Tag(target, false)))
  }

  ghost predicate History(states: seq<Repo>, rounds: seq<Round>) {
    && |states| == |rounds| + 1
    && (forall i :: 0 <= i < |states| ==> WellFormed(states[i]))
    && (forall i :: 0 <= i < |rounds| ==> Leads(states[i], rounds[i], states[i + 1]))
  }

  ghost predicate Leads(r: Repo, x: Round, q: Repo)
    requires WellFormed(r)
  {
    Possible(r, x) && q == After(r, x)
  }

  ghost predicate AutomatedChartsPaired(r: Repo) {
    forall t :: t in r.tags && t.ChartTag? && r.tags[t].automated ==> Paired(r, t.version)
  }

  lemma RoundKeeps(r: Repo, x: Round)
    requires WellFormed(r) && Possible(r, x)
    ensures Keeps(r, After(r, x))
    ensures AutomatedChartsPaired(r) ==> AutomatedChartsPaired(After(r, x))
  {
    var q := After(r, x);
    if x.TrainRun? { CutRunIsSafe(r, x.branch, x.oracle, x.cut); }
    forall v | Paired(r, v) ensures Paired(q, v) { }
  }

  lemma LeadsSafely(p: Repo, r: Repo, x: Round, q: Repo)
    requires WellFormed(r) && Leads(r, x, q) && Keeps(p, r) && AutomatedChartsPaired(r)
    ensures Keeps(p, q) && AutomatedChartsPaired(q)
  {
    RoundKeeps(r, x);
  }

  /**
   Over any history of runs, crashes and manual pushes: no tag ever moves or disappears, and every
   automated chart tag keeps sharing its commit with the operator tag its appVersion names.
   */
  lemma {:induction false} HistoryIsSafe(states: seq<Repo>, rounds: seq<Round>, i: nat, j: nat)
    requires History(states, rounds) && i <= j < |states| && AutomatedChartsPaired(states[i])
    ensures Keeps(states[i], states[j]) && AutomatedChartsPaired(states[j])
    decreases j
  {
    if i < j {
      HistoryIsSafe(states, rounds, i, j - 1);
      assert Leads(states[j - 1], rounds[j - 1], states[j - 1 + 1]);
      LeadsSafely(states[i], states[j - 1], rounds[j - 1], states[j]);
    }
  }
}
