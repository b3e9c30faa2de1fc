/**
 * Status roll-up: whether a stage or a build is failing, and which of its
 * steps or stages failed. A stage looks at its steps through their
 * ignore-error flag; a build looks only at the raw status of its stages.
 */
module Rollup {
  import opened Drone

  /** The statuses that count as failed: error, failing and killed. */
  predicate IsFailed(s: Status)
  {
    s == Error || s == Failing || s == Killed
  }

  /** A step that fails its stage: errored or killed, or failing without ignore-error. */
  predicate StepFails(step: Step)
  {
    step.status == Error || step.status == Killed || (step.status == Failing && !step.errIgnore)
  }

  predicate StageFailed(stage: Stage)
  {
    IsFailed(stage.status)
  }

  function StepName(step: Step): string
  {
    step.name
  }

  function StageName(stage: Stage): string
  {
    stage.name
  }

  /** Reference definition of a failing stage. */
  ghost predicate StageFailing(stage: Stage)
  {
    IsFailed(stage.status) || exists i :: 0 <= i < |stage.steps| && StepFails(stage.steps[i])
  }

  /** Reference definition of a failing build; step flags play no part. */
  ghost predicate BuildFailing(build: Build)
  {
    IsFailed(build.status) || exists i :: 0 <= i < |build.stages| && StageFailed(build.stages[i])
  }

  /** The names of the elements that `keep` selects, in input order. */
  function NamesWhere<T>(xs: seq<T>, keep: T -> bool, name: T -> string): seq<string>
  {
    if xs == [] then []
    else
      var last := xs[|xs| - 1];
      NamesWhere(xs[..|xs| - 1], keep, name) + (if keep(last) then [name(last)] else [])
  }

  /** The positions of the elements that `keep` selects, in increasing order. */
  ghost function IndicesWhere<T>(xs: seq<T>, keep: T -> bool): (idx: seq<nat>)
    ensures forall k :: 0 <= k < |idx| ==> idx[k] < |xs| && keep(xs[idx[k]])
    ensures forall k, l :: 0 <= k < l < |idx| ==> idx[k] < idx[l]
    ensures forall i :: 0 <= i < |xs| && keep(xs[i]) ==> i in idx
  {
    if xs == [] then []
    else
      var front := xs[..|xs| - 1];
      var idx := IndicesWhere(front, keep) + (if keep(xs[|xs| - 1]) then [|xs| - 1] else []);
      assert forall i :: 0 <= i < |front| ==> front[i] == xs[i];
      idx
  }

  /** NamesWhere is exactly the names at IndicesWhere: an order-preserving selection. */
  lemma {:induction false} NamesWhereSelects<T>(xs: seq<T>, keep: T -> bool, name: T -> string)
    ensures |NamesWhere(xs, keep, name)| == |IndicesWhere(xs, keep)|
    ensures forall k :: 0 <= k < |IndicesWhere(xs, keep)| ==>
      NamesWhere(xs, keep, name)[k] == name(xs[IndicesWhere(xs, keep)[k]])
  {
    if xs != [] {
      var front := xs[..|xs| - 1];
      NamesWhereSelects(front, keep, name);
      assert forall i :: 0 <= i < |front| ==> front[i] == xs[i];
    }
  }

  /** Nothing is selected exactly when no element satisfies `keep`. */
  lemma NamesWhereEmpty<T>(xs: seq<T>, keep: T -> bool, name: T -> string)
    ensures NamesWhere(xs, keep, name) == [] <==> forall i :: 0 <= i < |xs| ==> !keep(xs[i])
  {
    NamesWhereSelects(xs, keep, name);
    var idx := IndicesWhere(xs, keep);
    if idx != [] {
      assert keep(xs[idx[0]]);
    }
  }

  /** Reference definition of `failedSteps`. */
  function FailedStepNames(steps: seq<Step>): seq<string>
  {
    NamesWhere(steps, StepFails, StepName)
  }

  /** Reference definition of `failedStages`. */
  function FailedStageNames(stages: seq<Stage>): seq<string>
  {
    NamesWhere(stages, StageFailed, StageName)
  }

  lemma NamesWhereAppend<T>(xs: seq<T>, x: T, keep: T -> bool, name: T -> string)
    ensures NamesWhere(xs + [x], keep, name)
      == NamesWhere(xs, keep, name) + (if keep(x) then [name(x)] else [])
  {
    assert (xs + [x])[..|xs|] == xs;
  }

  lemma NamesWhereSnoc<T>(xs: seq<T>, i: nat, keep: T -> bool, name: T -> string)
    requires i < |xs|
    ensures NamesWhere(xs[..i + 1], keep, name)
      == NamesWhere(xs[..i], keep, name) + (if keep(xs[i]) then [name(xs[i])] else [])
  {
    assert xs[..i + 1] == xs[..i] + [xs[i]];
    NamesWhereAppend(xs[..i], xs[i], keep, name);
  }

  /** `isBuildFailing`: own status first, then the raw status of each stage. */
  method IsBuildFailing(build: Build) returns (failing: bool)
    ensures failing <==> BuildFailing(build)
  {
    if build.status == Error || build.status == Failing || build.status == Killed {
      return true;
    }
    for i := 0 to |build.stages|
      invariant forall j :: 0 <= j < i ==> !StageFailed(build.stages[j])
    {
      var stage := build.stages[i];
      if stage.status == Error || stage.status == Failing || stage.status == Killed {
        return true;
      }
    }
    return false;
  }

  /** `isStageFailing`: own status first, then each step, skipping ignored failures. */
  method IsStageFailing(stage: Stage) returns (failing: bool)
    ensures failing <==> StageFailing(stage)
  {
    if stage.status == Error || stage.status == Failing || stage.status == Killed {
      return true;
    }
    for i := 0 to |stage.steps|
      invariant forall j :: 0 <= j < i ==> !StepFails(stage.steps[j])
    {
      var step := stage.steps[i];
      if step.errIgnore && step.status == Failing {
        continue;
      }
      if step.status == Error || step.status == Failing || step.status == Killed {
        return true;
      }
    }
    return false;
  }

  /** `failedSteps`: appends the name of each failed step, skipping ignored failures. */
  method FailedSteps(stage: Stage) returns (names: seq<string>)
    ensures names == FailedStepNames(stage.steps)
  {
    names := [];
    for i := 0 to |stage.steps|
      invariant names == FailedStepNames(stage.steps[..i])
    {
      NamesWhereSnoc(stage.steps, i, StepFails, StepName);
      var step := stage.steps[i];
      if step.errIgnore && step.status == Failing {
        continue;
      }
      if step.status == Error || step.status == Failing || step.status == Killed {
        names := names + [step.name];
      }
    }
    assert stage.steps[..|stage.steps|] == stage.steps;
  }

  /** `failedStages`: appends the name of each stage whose own status failed. */
  method FailedStages(build: Build) returns (names: seq<string>)
    ensures names == FailedStageNames(build.stages)
  {
    names := [];
    for i := 0 to |build.stages|
      invariant names == FailedStageNames(build.stages[..i])
    {
      NamesWhereSnoc(build.stages, i, StageFailed, StageName);
      var stage := build.stages[i];
      if stage.status == Error || stage.status == Failing || stage.status == Killed {
        names := names + [stage.name];
      }
    }
    assert build.stages[..|build.stages|] == build.stages;
  }

  /** A name is listed iff some step with that name fails its stage. */
  lemma FailedStepNamesMembers(steps: seq<Step>, name: string)
    ensures name in FailedStepNames(steps) <==>
      exists i :: 0 <= i < |steps| && steps[i].name == name && StepFails(steps[i])
  {
    NamesWhereSelects(steps, StepFails, StepName);
    var idx := IndicesWhere(steps, StepFails);
    var names := FailedStepNames(steps);
    if name in names {
      var k :| 0 <= k < |names| && names[k] == name;
      assert steps[idx[k]].name == name;
    }
    if i :| 0 <= i < |steps| && steps[i].name == name && StepFails(steps[i]) {
      var k :| 0 <= k < |idx| && idx[k] == i;
      assert names[k] == name;
    }
  }

  /** The ignore-error flag never hides an errored or killed step. */
  lemma IgnoredErrorsStillListed(steps: seq<Step>, i: nat)
    requires i < |steps| && (steps[i].status == Error || steps[i].status == Killed)
    ensures steps[i].name in FailedStepNames(steps)
  {
    FailedStepNamesMembers(steps, steps[i].name);
  }

  /** An ignored failing step is listed only if another failing step shares its name. */
  lemma IgnoredFailureNotListed(steps: seq<Step>, i: nat)
    requires i < |steps| && steps[i].status == Failing && steps[i].errIgnore
    requires forall j :: 0 <= j < |steps| && j != i ==> steps[j].name != steps[i].name
    ensures steps[i].name !in FailedStepNames(steps)
  {
    FailedStepNamesMembers(steps, steps[i].name);
  }

  /** A stage is failing iff its own status failed or some step is listed as failed. */
  lemma StageFailingIffFailedSteps(stage: Stage)
    ensures StageFailing(stage) <==> IsFailed(stage.status) || FailedStepNames(stage.steps) != []
  {
    NamesWhereEmpty(stage.steps, StepFails, StepName);
  }

  /** A name is listed iff some stage with that name has a failed status. */
  lemma FailedStageNamesMembers(stages: seq<Stage>, name: string)
    ensures name in FailedStageNames(stages) <==>
      exists i :: 0 <= i < |stages| && stages[i].name == name && IsFailed(stages[i].status)
  {
    NamesWhereSelects(stages, StageFailed, StageName);
    var idx := IndicesWhere(stages, StageFailed);
    var names := FailedStageNames(stages);
    if name in names {
      var k :| 0 <= k < |names| && names[k] == name;
      assert stages[idx[k]].name == name;
    }
    if i :| 0 <= i < |stages| && stages[i].name == name && IsFailed(stages[i].status) {
      assert StageFailed(stages[i]);
      var k :| 0 <= k < |idx| && idx[k] == i;
      assert names[k] == name;
    }
  }

  /** A build is failing iff its own status failed or some stage is listed as failed. */
  lemma BuildFailingIffFailedStages(build: Build)
    ensures BuildFailing(build) <==> IsFailed(build.status) || FailedStageNames(build.stages) != []
  {
    NamesWhereEmpty(build.stages, StageFailed, StageName);
  }

  lemma {:induction false} NamesWhereCongruent<T>(xs: seq<T>, ys: seq<T>, keep: T -> bool, name: T -> string)
    requires |xs| == |ys|
    requires forall i :: 0 <= i < |xs| ==> keep(xs[i]) == keep(ys[i]) && name(xs[i]) == name(ys[i])
    ensures NamesWhere(xs, keep, name) == NamesWhere(ys, keep, name)
  {
    if xs != [] {
      var n := |xs| - 1;
      assert forall i :: 0 <= i < n ==> xs[..n][i] == xs[i] && ys[..n][i] == ys[i];
      NamesWhereCongruent(xs[..n], ys[..n], keep, name);
    }
  }

  /**
   * The build roll-up reads only the build's status and its stages' names and
   * statuses: two builds that agree on those agree on both results, whatever
   * their steps and ignore-error flags.
   */
  lemma BuildRollupIgnoresSteps(b1: Build, b2: Build)
    requires b1.status == b2.status && |b1.stages| == |b2.stages|
    requires forall i :: 0 <= i < |b1.stages| ==>
      b1.stages[i].status == b2.stages[i].status && b1.stages[i].name == b2.stages[i].name
    ensures BuildFailing(b1) <==> BuildFailing(b2)
    ensures FailedStageNames(b1.stages) == FailedStageNames(b2.stages)
  {
    NamesWhereCongruent(b1.stages, b2.stages, StageFailed, StageName);
    BuildFailingIffFailedStages(b1);
    BuildFailingIffFailedStages(b2);
  }

  /**
   * A stage whose own status is running, pending or passing, and whose steps
   * each pass or fail with ignored errors, is not failing and lists no step.
   */
  lemma PassingStageNotFailing(stage: Stage)
    requires stage.status == Running || stage.status == Pending || stage.status == Passing
    requires forall i :: 0 <= i < |stage.steps| ==>
      stage.steps[i].status == Passing || (stage.steps[i].status == Failing && stage.steps[i].errIgnore)
    ensures !StageFailing(stage)
    ensures FailedStepNames(stage.steps) == []
  {
    NamesWhereEmpty(stage.steps, StepFails, StepName);
    StageFailingIffFailedSteps(stage);
  }

  /** The step list of Test_failedSteps (environ_test.go): the ignored failure is left out. */
  lemma FailedStepsExample()
    ensures FailedStepNames([
      Step("clone", 0, Passing, false), Step("test", 0, Failing, false),
      Step("integration", 0, Failing, false), Step("experimental", 0, Failing, true)])
      == ["test", "integration"]
  {
    var a, b := Step("clone", 0, Passing, false), Step("test", 0, Failing, false);
    var c, d := Step("integration", 0, Failing, false), Step("experimental", 0, Failing, true);
    FirstStepsExample(a, b);
    assert [a, b] + [c] == [a, b, c] && [a, b, c] + [d] == [a, b, c, d];
    assert StepFails(c) && !StepFails(d) && StepName(c) == "integration";
    NamesWhereAppend([a, b], c, StepFails, StepName);
    NamesWhereAppend([a, b, c], d, StepFails, StepName);
  }

  lemma FirstStepsExample(a: Step, b: Step)
    requires a == Step("clone", 0, Passing, false) && b == Step("test", 0, Failing, false)
    ensures FailedStepNames([a, b]) == ["test"]
  {
    assert [] + [a] == [a] && [a] + [b] == [a, b];
    assert !StepFails(a) && StepFails(b) && StepName(b) == "test";
    NamesWhereAppend([], a, StepFails, StepName);
    NamesWhereAppend([a], b, StepFails, StepName);
  }

  /** A stage that carries only a name and a status, as the roll-up tests build them. */
  function BareStage(name: string, status: Status): Stage
  {
    Stage("", "", name, 0, "", "", "", "", 0, status, 0, 0, [], [])
  }

  /** The stage list of Test_failedStages: one stage per status, three of them failed. */
  lemma FailedStagesExample()
    ensures FailedStageNames([
      BareStage("step_blocked", Blocked), BareStage("step_error", Error),
      BareStage("step_failing", Failing), BareStage("step_killed", Killed),
      BareStage("step_passing", Passing)])
      == ["step_error", "step_failing", "step_killed"]
  {
    var a, b, c := BareStage("step_blocked", Blocked), BareStage("step_error", Error), BareStage("step_failing", Failing);
    var d, e := BareStage("step_killed", Killed), BareStage("step_passing", Passing);
    FirstStagesExample(a, b, c);
    assert [a, b, c] + [d] == [a, b, c, d] && [a, b, c, d] + [e] == [a, b, c, d, e];
    assert StageFailed(d) && !StageFailed(e) && StageName(d) == "step_killed";
    NamesWhereAppend([a, b, c], d, StageFailed, StageName);
    NamesWhereAppend([a, b, c, d], e, StageFailed, StageName);
  }

  lemma FirstStagesExample(a: Stage, b: Stage, c: Stage)
    requires a == BareStage("step_blocked", Blocked) && b == BareStage("step_error", Error)
    requires c == BareStage("step_failing", Failing)
    ensures FailedStageNames([a, b, c]) == ["step_error", "step_failing"]
  {
    assert [] + [a] == [a] && [a] + [b] == [a, b] && [a, b] + [c] == [a, b, c];
    assert !StageFailed(a) && StageFailed(b) && StageFailed(c);
    assert StageName(b) == "step_error" && StageName(c) == "step_failing";
    NamesWhereAppend([], a, StageFailed, StageName);
    NamesWhereAppend([a], b, StageFailed, StageName);
    NamesWhereAppend([a, b], c, StageFailed, StageName);
  }
}
