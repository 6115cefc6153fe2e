/** Recovery after any number of cut runs. */
module PatchTrainManyCuts {
  import opened PatchTrain
  import opened PatchTrainSafety
  import opened PatchTrainRecovery
  import opened PatchTrainPadded

  /** Only the operator tag is out. */
  ghost predicate HalfTagged(r: Repo, branch: Branch, next: Version, chart: Version) {
    OperatorTagged(r, branch, next, chart) && ChartTag(chart) !in r.tags
  }

  /** Where a release of these versions can stand between two runs, on any branch. */
  ghost predicate Stage(r: Repo, branch: Branch, current: Version, currentChart: Version) {
    var next, chart := IncrementPatch(current), IncrementPatch(currentChart);
    || Writable(r, branch, current, currentChart)
    || Prepared(r, branch, current, currentChart)
    || HalfTagged(r, branch, next, chart)
    || Released(r, branch, next, chart)
    || PaddedStage(r, branch, current, currentChart)
  }

  /** No older chart tag sits on the commit the release goes to; a padded line never minds one. */
  ghost predicate OwnCommit(r: Repo, branch: Branch, current: Version, currentChart: Version) {
    || Writable(r, branch, current, currentChart)
    || Released(r, branch, IncrementPatch(current), IncrementPatch(currentChart))
    || PaddedStage(r, branch, current, currentChart)
    || ((|| Prepared(r, branch, current, currentChart)
         || HalfTagged(r, branch, IncrementPatch(current), IncrementPatch(currentChart)))
        && ChartVersionsAt(r, r.heads[branch]) == {})
  }

  /**
   The next run cannot finish the release: on a canonical line, when the operator tag is out, the chart tag is not and
   another chart tag sits on the commit; on a padded line, once the chart tag is out.
   */
  ghost predicate Blocked(r: Repo, branch: Branch, next: Version, chart: Version)
    requires branch.Release? && branch in r.heads
  {
    if Canonical(branch.line) then BetweenTags(r, next, chart) && ChartVersionsAt(r, r.heads[branch]) != {}
    else ChartTag(chart) in r.tags
  }

  /** The next run finishes the release if and only if it is not blocked; when blocked it schedules nothing. */
  ghost predicate RecoversUnlessBlocked(r: Repo, branch: Branch, o: Oracle, next: Version, chart: Version) {
    && WellFormed(r) && branch.Release? && branch in r.heads
    && var p := BranchPlan(r, branch, o);
       && (Finishes(r, branch, o, next, chart) <==> !Blocked(r, branch, next, chart))
       && (Finishes(r, branch, o, next, chart) && Canonical(branch.line) ==>
             Released(Apply(r, p.effects), branch, next, chart))
       && (Blocked(r, branch, next, chart) ==> p.operators == [] && p.charts == [])
       && (Blocked(r, branch, next, chart) && Canonical(branch.line) ==> p == NOTHING)
  }

  // ---------- the stages are closed under cuts ----------

  lemma HalfTaggedPlan(r: Repo, branch: Branch, next: Version, chart: Version, o: Oracle)
    requires HalfTagged(r, branch, next, chart) && !o.dryRun
    ensures var effects := BranchPlan(r, branch, o).effects;
            || effects == []
            || (effects == [PushTag(ChartTag(chart), Tag(r.heads[branch], true))]
                && ChartVersionsAt(r, r.heads[branch]) == {})
  {
    var head := r.heads[branch];
    LatestIs(next, OperatorVersions(r, head, branch.line));
    LatestExists(ChartVersionsAt(r, head));
    var at := Latest(ChartVersionsAt(r, head));
    if at.Some? { assert at.value in ChartVersionsAt(r, head); assert at.value != chart; }
  }

  lemma ReleasedPushesNothing(r: Repo, branch: Branch, next: Version, chart: Version, o: Oracle)
    requires Released(r, branch, next, chart) && !o.dryRun
    ensures BranchPlan(r, branch, o).effects == []
  {
    LatestIs(next, OperatorVersions(r, r.heads[branch], branch.line));
    LatestIs(chart, ChartVersionsAt(r, r.heads[branch]));
  }

  lemma PreparedCut(r: Repo, branch: Branch, current: Version, currentChart: Version, o: Oracle, k: nat)
    requires Prepared(r, branch, current, currentChart)
    requires k <= |TagPlan(r, r.heads[branch], IncrementPatch(current), IncrementPatch(currentChart), o).effects|
    ensures var plan := TagPlan(r, r.heads[branch], IncrementPatch(current), IncrementPatch(currentChart), o);
            var q := Apply(r, plan.effects[..k]);
            && Stage(q, branch, current, currentChart)
            && (ChartVersionsAt(r, r.heads[branch]) == {} ==> OwnCommit(q, branch, current, currentChart))
  {
    if Canonical(branch.line) {
      CutOfTagPlan(r, branch, current, currentChart, o, k);
    } else if k == 0 {
      assert TagPlan(r, r.heads[branch], IncrementPatch(current), IncrementPatch(currentChart), o).effects[..0] == [];
    } else {
      PreparedCutPads(r, branch, current, currentChart, o, k);
    }
  }

  lemma TaggedCut(r: Repo, branch: Branch, next: Version, chart: Version, o: Oracle, k: nat)
    requires HalfTagged(r, branch, next, chart) && !o.dryRun && k <= |BranchPlan(r, branch, o).effects|
    ensures var q := Apply(r, BranchPlan(r, branch, o).effects[..k]); q == r || Released(q, branch, next, chart)
  {
    HalfTaggedPlan(r, branch, next, chart, o);
    var effects := BranchPlan(r, branch, o).effects;
    if k == 0 {
      assert effects[..0] == [];
    } else {
      assert effects[..1] == [effects[0]];
      OneEffect(r, effects[0]);
      ChartTagReleases(r, branch, next, chart);
    }
  }

  lemma WritableCut(r: Repo, branch: Branch, current: Version, currentChart: Version, o: Oracle, k: nat)
    requires Writable(r, branch, current, currentChart) && NonDry(o, r) && k <= |BranchPlan(r, branch, o).effects|
    ensures OwnCommit(Apply(r, BranchPlan(r, branch, o).effects[..k]), branch, current, currentChart)
  {
    if k == 0 {
      assert BranchPlan(r, branch, o).effects[..0] == [];
    } else {
      var q := CutAfterCommit(r, branch, current, currentChart, o, k);
      PreparedCut(q, branch, current, currentChart, o, k - 1);
    }
  }

  lemma CutKeepsStage(r: Repo, branch: Branch, current: Version, currentChart: Version, o: Oracle, k: nat)
    requires Stage(r, branch, current, currentChart) && NonDry(o, r) && k <= |BranchPlan(r, branch, o).effects|
    ensures var q := Apply(r, BranchPlan(r, branch, o).effects[..k]);
            && Stage(q, branch, current, currentChart)
            && (OwnCommit(r, branch, current, currentChart) ==> OwnCommit(q, branch, current, currentChart))
  {
    var next, chart := IncrementPatch(current), IncrementPatch(currentChart);
    if Writable(r, branch, current, currentChart) {
      WritableCut(r, branch, current, currentChart, o, k);
    } else if Prepared(r, branch, current, currentChart) {
      PreparedPlan(r, branch, current, currentChart, o);
      PreparedCut(r, branch, current, currentChart, o, k);
    } else if PaddedStage(r, branch, current, currentChart) {
      PaddedCut(r, branch, current, currentChart, o, k);
    } else if HalfTagged(r, branch, next, chart) {
      TaggedCut(r, branch, next, chart, o, k);
    } else {
      ReleasedPushesNothing(r, branch, next, chart, o);
      assert BranchPlan(r, branch, o).effects[..k] == [];
    }
  }

  // ---------- any number of cut runs ----------

  /** One run that was killed after some of its pushes. */
  datatype Cut = Cut(oracle: Oracle, pushes: nat)

  ghost predicate CutHistory(states: seq<Repo>, cuts: seq<Cut>, branch: Branch) {
    && |states| == |cuts| + 1
    && (forall i :: 0 <= i < |states| ==> WellFormed(states[i]))
    && (forall i :: 0 <= i < |cuts| ==> CutStep(states[i], cuts[i], branch, states[i + 1]))
  }

  ghost predicate CutStep(r: Repo, cut: Cut, branch: Branch, q: Repo)
    requires WellFormed(r)
  {
    && NonDry(cut.oracle, r) && cut.pushes <= |BranchPlan(r, branch, cut.oracle).effects|
    && q == Apply(r, BranchPlan(r, branch, cut.oracle).effects[..cut.pushes])
  }

  lemma {:induction false} CutsKeepStage(states: seq<Repo>, cuts: seq<Cut>, branch: Branch, current: Version,
                                         currentChart: Version, n: nat)
    requires CutHistory(states, cuts, branch) && n <= |cuts| && Stage(states[0], branch, current, currentChart)
    ensures Stage(states[n], branch, current, currentChart)
  {
    if n > 0 {
      CutsKeepStage(states, cuts, branch, current, currentChart, n - 1);
      assert CutStep(states[n - 1], cuts[n - 1], branch, states[n]);
      CutStepKeeps(states[n - 1], cuts[n - 1], branch, states[n], current, currentChart);
    }
  }

  lemma {:induction false} CutsKeepOwnCommit(states: seq<Repo>, cuts: seq<Cut>, branch: Branch, current: Version,
                                             currentChart: Version, n: nat)
    requires CutHistory(states, cuts, branch) && n <= |cuts| && OwnCommit(states[0], branch, current, currentChart)
    ensures OwnCommit(states[n], branch, current, currentChart)
  {
    if n > 0 {
      CutsKeepOwnCommit(states, cuts, branch, current, currentChart, n - 1);
      assert CutStep(states[n - 1], cuts[n - 1], branch, states[n]);
      CutStepKeeps(states[n - 1], cuts[n - 1], branch, states[n], current, currentChart);
    }
  }

  lemma CutStepKeeps(r: Repo, cut: Cut, branch: Branch, q: Repo, current: Version, currentChart: Version)
    requires WellFormed(r) && CutStep(r, cut, branch, q) && Stage(r, branch, current, currentChart)
    ensures Stage(q, branch, current, currentChart)
    ensures OwnCommit(r, branch, current, currentChart) ==> OwnCommit(q, branch, current, currentChart)
  {
    CutKeepsStage(r, branch, current, currentChart, cut.oracle, cut.pushes);
  }

  /** A healthy run at any stage. */
  lemma StageRecovers(r: Repo, branch: Branch, current: Version, currentChart: Version, o: Oracle)
    requires Stage(r, branch, current, currentChart) && Healthy(o, r)
    ensures RecoversUnlessBlocked(r, branch, o, IncrementPatch(current), IncrementPatch(currentChart))
  {
    var next, chart := IncrementPatch(current), IncrementPatch(currentChart);
    if Writable(r, branch, current, currentChart) {
      WritableRunFinishes(r, branch, current, currentChart, o);
    } else if Prepared(r, branch, current, currentChart) {
      PreparedRunFinishes(r, branch, current, currentChart, o);
    } else if PaddedStage(r, branch, current, currentChart) {
      PaddedRun(r, branch, current, currentChart, o);
    } else {
      TaggedIsCanonical(r, branch, current, chart);
      if HalfTagged(r, branch, next, chart) {
        TaggedRun(r, branch, next, chart, o);
      } else {
        ReleasedPlan(r, branch, next, chart, o);
      }
    }
  }

  /** Only on a canonical line can the new tag be the latest of the line. */
  lemma TaggedIsCanonical(r: Repo, branch: Branch, current: Version, chart: Version)
    requires OperatorTagged(r, branch, IncrementPatch(current), chart)
    ensures Canonical(branch.line)
  {
    assert InLine(IncrementPatch(current), branch.line);
  }

  /**
   However many runs were cut, and wherever, the next healthy run leaves both tags on the head of the branch and
   schedules exactly the publishes still missing, if and only if it is not blocked.
   */
  lemma ManyCutsRecover(states: seq<Repo>, cuts: seq<Cut>, branch: Branch, current: Version, currentChart: Version,
                        o: Oracle)
    requires CutHistory(states, cuts, branch) && Stage(states[0], branch, current, currentChart)
    requires Healthy(o, states[|cuts|])
    ensures RecoversUnlessBlocked(states[|cuts|], branch, o, IncrementPatch(current), IncrementPatch(currentChart))
  {
    CutsKeepStage(states, cuts, branch, current, currentChart, |cuts|);
    StageRecovers(states[|cuts|], branch, current, currentChart, o);
  }

  /**
   When the train pushed the chart commit itself: always on a canonical line, before the chart tag on a padded one.
   */
  lemma OwnCommitFinishes(states: seq<Repo>, cuts: seq<Cut>, branch: Branch, current: Version, currentChart: Version,
                          o: Oracle)
    requires CutHistory(states, cuts, branch) && Writable(states[0], branch, current, currentChart)
    requires Healthy(o, states[|cuts|])
    ensures var next, chart := IncrementPatch(current), IncrementPatch(currentChart);
            Finishes(states[|cuts|], branch, o, next, chart) <==>
              Canonical(branch.line) || ChartTag(chart) !in states[|cuts|].tags
  {
    var q := states[|cuts|];
    CutsKeepOwnCommit(states, cuts, branch, current, currentChart, |cuts|);
    StageRecovers(q, branch, current, currentChart, o);
  }
}
