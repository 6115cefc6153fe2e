/** The dependency patch train: what one run of process_branch does to the remote and schedules. */
module PatchTrain {
  import opened Values

  // ---------- versions ----------

  /** A run of digits as matched by STABLE_VERSION_RE: its number and its superfluous leading zeros. */
  datatype Num = Num(value: nat, zeros: nat)
  datatype Version = Version(major: Num, minor: Num, patch: Num)

  /** semver_key(a) < semver_key(b). */
  predicate KeyLess(a: Version, b: Version) {
    || a.major.value < b.major.value
    || (a.major.value == b.major.value && a.minor.value < b.minor.value)
    || (a.major.value == b.major.value && a.minor.value == b.minor.value && a.patch.value < b.patch.value)
  }

  predicate SameKey(a: Version, b: Version) {
    a.major.value == b.major.value && a.minor.value == b.minor.value && a.patch.value == b.patch.value
  }

  /** Refname order of two numerals of equal value: "00" follows "0", but "1" follows "01". */
  predicate NumBefore(a: Num, b: Num) {
    if a.value == 0 then a.zeros < b.zeros else a.zeros > b.zeros
  }

  /** Order of a listing sorted by key: git lists tags by refname and the sort is stable. */
  predicate Before(a: Version, b: Version) {
    || KeyLess(a, b)
    || (SameKey(a, b) &&
          if a.major != b.major then NumBefore(a.major, b.major)
          else if a.minor != b.minor then NumBefore(a.minor, b.minor)
          else NumBefore(a.patch, b.patch))
  }

  /** increment_patch: prints the numbers, so leading zeros are gone. */
  function IncrementPatch(v: Version): Version {
    Version(Num(v.major.value, 0), Num(v.minor.value, 0), Num(v.patch.value + 1, 0))
  }

  predicate IsLatest(v: Version, versions: set<Version>) {
    v in versions && forall u :: u in versions ==> u == v || Before(u, v)
  }

  /** The last tag of the sorted listing, if any. */
  ghost function Latest(versions: set<Version>): Option<Version> {
    if exists v :: IsLatest(v, versions) then
      var v :| IsLatest(v, versions); Some(v)
    else None
  }

  // ---------- the repository ----------

  type Sha = nat

  /** A version field of Chart.yaml. */
  datatype Text = Stable(version: Version) | Other(text: string)

  /**
   Contents by the groups the script distinguishes; `yaml` is the rest of Chart.yaml, `chart` the rest of the chart.
   */
  datatype Commit = Commit(deps: nat, code: nat, chart: nat, yaml: nat, version: Text, appVersion: Text,
                           ancestors: set<Sha>)

  datatype TagName = OperatorTag(version: Version) | ChartTag(version: Version) | OtherTag(name: string)

  /** Target commit, and whether the message marks an automated patch release. */
  datatype Tag = Tag(target: Sha, automated: bool)

  datatype Line = Line(major: Num, minor: Num)
  datatype Branch = Malformed(name: string) | Release(prefixed: bool, line: Line)

  datatype Repo = Repo(commits: map<Sha, Commit>, heads: map<Branch, Sha>, tags: map<TagName, Tag>)

  /** Heads and tags point at known commits; ancestry is reflexive and closed. */
  ghost predicate WellFormed(r: Repo) {
    && (forall b :: b in r.heads ==> r.heads[b] in r.commits)
    && (forall t :: t in r.tags ==> r.tags[t].target in r.commits)
    && (forall s :: s in r.commits ==> s in r.commits[s].ancestors && r.commits[s].ancestors <= r.commits.Keys)
  }

  predicate InLine(v: Version, line: Line) { v.major == line.major && v.minor == line.minor }

  /** stable_tags_merged(head, "v", line). */
  function OperatorVersions(r: Repo, head: Sha, line: Line): set<Version>
    requires head in r.commits
  {
    set t | t in r.tags && t.OperatorTag? && InLine(t.version, line)
        && r.tags[t].target in r.commits[head].ancestors :: t.version
  }

  /** stable_tags_merged(head, "chart-v"). */
  function ChartVersions(r: Repo, head: Sha): set<Version>
    requires head in r.commits
  {
    set t | t in r.tags && t.ChartTag? && r.tags[t].target in r.commits[head].ancestors :: t.version
  }

  /** Stable chart tags that point at a commit. */
  function ChartVersionsAt(r: Repo, sha: Sha): set<Version> {
    set t | t in r.tags && t.ChartTag? && r.tags[t].target == sha :: t.version
  }

  // ---------- effects ----------

  datatype Effect = PushCommit(branch: Branch, sha: Sha, commit: Commit) | PushTag(name: TagName, tag: Tag)

  function Apply1(r: Repo, e: Effect): Repo {
    match e
    case PushCommit(b, sha, commit) => r.(commits := r.commits[sha := commit], heads := r.heads[b := sha])
    case PushTag(name, tag) => r.(tags := r.tags[name := tag])
  }

  function Apply(r: Repo, effects: seq<Effect>): Repo
    decreases |effects|
  {
    if effects == [] then r else Apply(Apply1(r, effects[0]), effects[1..])
  }

  /** What a run cannot know by itself: check results, published releases, the id its commit will get. */
  datatype Oracle = Oracle(green: set<Sha>, publishedOperators: set<Version>, publishedCharts: set<Version>,
                           newSha: Sha, dryRun: bool)

  /** One run on one branch: remote effects in order, then what is scheduled, or an exception. */
  datatype Plan = Plan(effects: seq<Effect>, operators: seq<Version>, charts: seq<(Version, Version)>, raised: bool)

  const NOTHING := Plan([], [], [], false)

  predicate Green(o: Oracle, sha: Sha) { o.dryRun || sha in o.green }

  // ---------- complete_missing_chart_release ----------

  ghost function CompletePlan(r: Repo, head: Sha, operator: Version, chartOnHead: Option<Version>, o: Oracle): Plan
    requires head in r.commits && OperatorTag(operator) in r.tags
  {
    var c := r.commits[head];
    var operatorMissing := operator !in o.publishedOperators;
    if !r.tags[OperatorTag(operator)].automated then NOTHING
    else if c.appVersion != Stable(operator) then
      if operatorMissing && Green(o, head) then Plan([], [operator], [], false) else NOTHING
    else if c.version.Other? then NOTHING
    else
      var chart := c.version.version;
      var existing := ChartTag(chart) in r.tags;
      var chartMissing := !(existing && chart in o.publishedCharts);
      if existing && r.tags[ChartTag(chart)].target != head then NOTHING
      else if chartOnHead.Some? && chartOnHead.value != chart then NOTHING
      else if !operatorMissing && !chartMissing then NOTHING
      else if !Green(o, head) then NOTHING
      else
        Plan(if chartMissing && !o.dryRun && !existing then [PushTag(ChartTag(chart), Tag(head, true))] else [],
             if operatorMissing then [operator] else [],
             if chartMissing then [(chart, operator)] else [],
             false)
  }

  // ---------- create_dependency_patch_release ----------

  /** The chart version the next one is counted from. */
  ghost function CurrentChart(r: Repo, head: Sha, operator: Version): Text
    requires head in r.commits && OperatorTag(operator) in r.tags && r.tags[OperatorTag(operator)].target in r.commits
  {
    match Latest(ChartVersions(r, head))
    case Some(v) => Stable(v)
    case None => r.commits[r.tags[OperatorTag(operator)].target].version
  }

  function PreparedCommit(r: Repo, head: Sha, sha: Sha, chart: Version, operator: Version): Commit
    requires head in r.commits
  {
    r.commits[head].(version := Stable(chart), appVersion := Stable(operator),
        ancestors := r.commits[head].ancestors + {sha})
  }

  /** Both tags on the target, unless a name is taken elsewhere; then the missing publishes. */
  function TagPlan(r: Repo, target: Sha, operator: Version, chart: Version, o: Oracle): Plan {
    var operatorTag, chartTag := OperatorTag(operator), ChartTag(chart);
    if target !in o.green then NOTHING
    else if operatorTag in r.tags && r.tags[operatorTag].target != target then NOTHING
    else
      var first := if operatorTag in r.tags then [] else [PushTag(operatorTag, Tag(target, true))];
      if chartTag in r.tags && r.tags[chartTag].target != target then Plan(first, [], [], false)
      else
        Plan(first + (if chartTag in r.tags then [] else [PushTag(chartTag, Tag(target, true))]),
             if operator in o.publishedOperators then [] else [operator],
             if chart in o.publishedCharts then [] else [(chart, operator)],
             false)
  }

  function Then(e: Effect, p: Plan): Plan { p.(effects := [e] + p.effects) }

  ghost function CreatePlan(r: Repo, branch: Branch, head: Sha, operator: Version, chartYamlChanged: bool,
                            o: Oracle): Plan
    requires head in r.commits && OperatorTag(operator) in r.tags && r.tags[OperatorTag(operator)].target in r.commits
  {
    var current := CurrentChart(r, head, operator);
    if current.Other? then NOTHING.(raised := true)
    else
      var next, nextChart := IncrementPatch(operator), IncrementPatch(current.version);
      var c := r.commits[head];
      if c.appVersion == Stable(next) && c.version == Stable(nextChart) then
        if o.dryRun then Plan([], [next], [(nextChart, next)], false) else TagPlan(r, head, next, nextChart, o)
      else if (c.appVersion == Stable(operator) && c.version == current) || !chartYamlChanged then
        if o.dryRun then Plan([], [next], [(nextChart, next)], false)
        else
          Then(PushCommit(branch, o.newSha, PreparedCommit(r, head, o.newSha, nextChart, next)),
               TagPlan(r, o.newSha, next, nextChart, o))
      else NOTHING
  }

  // ---------- process_branch ----------

  predicate ChartYamlDiffers(a: Commit, b: Commit) {
    a.version != b.version || a.appVersion != b.appVersion || a.yaml != b.yaml
  }

  ghost function BranchPlan(r: Repo, branch: Branch, o: Oracle): Plan
    requires WellFormed(r)
  {
    if branch.Malformed? || branch !in r.heads then NOTHING
    else
      var head := r.heads[branch];
      match Latest(OperatorVersions(r, head, branch.line))
      case None => NOTHING
      case Some(operator) =>
        var released := r.tags[OperatorTag(operator)].target;
        if head == released then CompletePlan(r, head, operator, Latest(ChartVersionsAt(r, head)), o)
        else
          var c, before := r.commits[head], r.commits[released];
          var chartBase := ChartBase(r, head, before);
          if c.code != before.code then NOTHING
          else if c.chart != chartBase.chart then NOTHING
          else if c.deps == before.deps then NOTHING
          else CreatePlan(r, branch, head, operator, ChartYamlDiffers(chartBase, c), o)
  }

  /** The commit whose chart the head's chart is compared with. */
  ghost function ChartBase(r: Repo, head: Sha, released: Commit): Commit
    requires WellFormed(r) && head in r.commits
  {
    match Latest(ChartVersions(r, head))
    case Some(v) => r.commits[r.tags[ChartTag(v)].target]
    case None => released
  }
}
