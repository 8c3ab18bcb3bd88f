/** Validating a step graph and compiling plans and revisions (planning/compiler.py). */
module PlanCompiler {
  import opened Outcomes
  import opened Sequences
  import opened Listing
  import opened StepGraph
  import opened PlanModels

  /** The reason `_validate_specs` refuses a list of specs, if it does. */
  ghost function SpecsProblem(specs: seq<StepSpec>): Option<PlanError> {
    if !UniqueIds(specs) then Some(DuplicateStepIds)
    else if !DependenciesKnown(specs) then Some(MissingDependency)
    else if !Acyclic(DepsOf(specs)) then Some(DependencyCycle)
    else None
  }

  lemma {:induction false} DistinctCount(s: seq<string>)
    ensures |set x | x in s| <= |s|
    ensures |set x | x in s| == |s| <==> NoRepeats(s)
  {
    if s != [] {
      var front, last := s[..|s| - 1], s[|s| - 1];
      DistinctCount(front);
      var fewer, all := set x | x in front, set x | x in s;
      assert all == fewer + {last} by {
        assert s == front + [last];
      }
      if last in front {
        assert all == fewer;
        var k :| 0 <= k < |front| && front[k] == last;
        assert s[k] == s[|s| - 1];
      }
      if NoRepeats(s) {
        assert NoRepeats(front);
      }
    }
  }

  /** `_validate_specs`: duplicate ids, then missing dependencies, then cycles. */
  method ValidateSpecs(specs: seq<StepSpec>) returns (problem: Option<PlanError>)
    ensures problem == SpecsProblem(specs)
  {
    var ids := Ids(specs);
    DistinctCount(ids);
    assert NoRepeats(ids) <==> UniqueIds(specs);
    if |set x | x in ids| != |ids| {
      return Some(DuplicateStepIds);
    }
    for i := 0 to |specs|
      invariant forall k, d :: 0 <= k < i && d in specs[k].dependsOn ==> d in ids
    {
      var missing := Filter(specs[i].dependsOn, d => d !in ids);
      if missing != [] {
        assert missing[0] in specs[i].dependsOn && missing[0] !in ids;
        return Some(MissingDependency);
      }
      forall d | d in specs[i].dependsOn
        ensures d in ids
      {
        assert d !in ids ==> d in missing;
      }
    }
    KnownIsClosed(specs);
    var cycle, _ := FindCycle(ids, DepsOf(specs));
    problem := if cycle.Some? then Some(DependencyCycle) else None;
  }

  function FreshStep(spec: StepSpec, ordinal: nat): Step {
    Step(spec, ordinal, Pending, 0, None, [], None, None, None)
  }

  function FreshSteps(specs: seq<StepSpec>): (r: seq<Step>)
    ensures |r| == |specs|
    ensures forall i :: 0 <= i < |specs| ==> r[i] == FreshStep(specs[i], i)
  {
    seq(|specs|, i requires 0 <= i < |specs| => FreshStep(specs[i], i))
  }

  ghost function CompileOutcome(proposal: PlanProposal): Result<GoalPlan, PlanError> {
    match SpecsProblem(proposal.steps)
    case Some(problem) => Err(problem)
    case None => Ok(GoalPlan(proposal.planId, proposal.goalId, 1, Active, FreshSteps(proposal.steps),
                             proposal.createdAt))
  }

  method Compile(proposal: PlanProposal) returns (r: Result<GoalPlan, PlanError>)
    ensures r == CompileOutcome(proposal)
  {
    var problem := ValidateSpecs(proposal.steps);
    if problem.Some? {
      return Err(problem.value);
    }
    r := Ok(GoalPlan(proposal.planId, proposal.goalId, 1, Active, FreshSteps(proposal.steps), proposal.createdAt));
  }

  function FindSpec(specs: seq<StepSpec>, id: string): (r: Option<StepSpec>)
    ensures r.None? <==> forall s :: s in specs ==> s.stepId != id
    ensures r.Some? ==> r.value in specs && r.value.stepId == id
  {
    Find(specs, (s: StepSpec) => s.stepId == id)
  }

  /** The first completed step a revision would remove or change. */
  function FrozenProblem(steps: seq<Step>, specs: seq<StepSpec>): Option<PlanError> {
    if steps == [] then None
    else
      var first, found := steps[0], FindSpec(specs, steps[0].Id());
      if first.state.Completed? && found.None? then Some(CompletedStepRemoved)
      else if first.state.Completed? && found.value != first.spec then Some(CompletedStepChanged)
      else FrozenProblem(steps[1..], specs)
  }

  predicate KeepsMeaning(current: seq<Step>, spec: StepSpec) {
    var previous := FindStep(current, spec.stepId);
    previous.Some? ==> spec == previous.value.spec
  }

  /** A step of the revised plan: new specs start fresh, known ones carry their history over. */
  function CarriedStep(current: seq<Step>, spec: StepSpec, ordinal: nat): Step {
    match FindStep(current, spec.stepId)
    case None => FreshStep(spec, ordinal)
    case Some(previous) => previous.(ordinal := ordinal)
  }

  function CarriedSteps(current: seq<Step>, specs: seq<StepSpec>): (r: seq<Step>)
    ensures |r| == |specs|
    ensures forall i :: 0 <= i < |specs| ==> r[i] == CarriedStep(current, specs[i], i)
  {
    seq(|specs|, i requires 0 <= i < |specs| => CarriedStep(current, specs[i], i))
  }

  predicate Stuck(s: Step) {
    s.state.Failed? || s.state.Blocked?
  }

  function RevisedState(steps: seq<Step>): PlanState {
    if AllCompleted(steps) then PlanCompleted
    else if exists s :: s in steps && Stuck(s) then PlanBlocked
    else Active
  }

  ghost function RevisionOutcome(current: GoalPlan, proposal: RevisionProposal): Result<GoalPlan, PlanError> {
    if proposal.planId != current.planId then Err(PlanIdMismatch)
    else if proposal.goalId != current.goalId then Err(GoalIdMismatch)
    else if proposal.baseRevision != current.revision then Err(StaleRevision)
    else if current.Terminal() then Err(TerminalPlan)
    else if exists s :: s in current.steps && s.state.Running? then Err(RunningStep)
    else if SpecsProblem(proposal.steps).Some? then Err(SpecsProblem(proposal.steps).value)
    else if FrozenProblem(current.steps, proposal.steps).Some?
      then Err(FrozenProblem(current.steps, proposal.steps).value)
    else if exists s :: s in proposal.steps && !KeepsMeaning(current.steps, s) then Err(StepMeaningChanged)
    else
      var steps := CarriedSteps(current.steps, proposal.steps);
      Ok(GoalPlan(current.planId, current.goalId, current.revision + 1, RevisedState(steps), steps, current.createdAt))
  }

  method CompileRevision(current: GoalPlan, proposal: RevisionProposal) returns (r: Result<GoalPlan, PlanError>)
    ensures r == RevisionOutcome(current, proposal)
  {
    hide SpecsProblem, FrozenProblem, CarriedSteps, KeepsMeaning;
    if proposal.planId != current.planId {
      return Err(PlanIdMismatch);
    }
    if proposal.goalId != current.goalId {
      return Err(GoalIdMismatch);
    }
    if proposal.baseRevision != current.revision {
      return Err(StaleRevision);
    }
    if current.Terminal() {
      return Err(TerminalPlan);
    }
    if exists s :: s in current.steps && s.state.Running? {
      return Err(RunningStep);
    }
    var specs := proposal.steps;
    var problem := ValidateSpecs(specs);
    if problem.Some? {
      return Err(problem.value);
    }
    problem := CheckFrozen(current.steps, specs);
    if problem.Some? {
      return Err(problem.value);
    }
    var compiled := CarryOver(current.steps, specs);
    if compiled.Err? {
      return Err(compiled.error);
    }
    var steps := compiled.value;
    var state :=
      if AllCompleted(steps) then PlanCompleted
      else if exists s :: s in steps && Stuck(s) then PlanBlocked
      else Active;
    r := Ok(GoalPlan(current.planId, current.goalId, current.revision + 1, state, steps, current.createdAt));
  }

  /** A replan may neither drop nor alter a completed step. */
  method CheckFrozen(current: seq<Step>, specs: seq<StepSpec>) returns (problem: Option<PlanError>)
    ensures problem == FrozenProblem(current, specs)
  {
    for i := 0 to |current|
      invariant FrozenProblem(current, specs) == FrozenProblem(current[i..], specs)
    {
      var previous := current[i];
      assert current[i..][1..] == current[i + 1..];
      if previous.state.Completed? {
        var proposed := FindSpec(specs, previous.Id());
        if proposed.None? {
          return Some(CompletedStepRemoved);
        }
        if proposed.value != previous.spec {
          return Some(CompletedStepChanged);
        }
      }
    }
    problem := None;
  }

  /** The loop that compiles a revision, step by step. */
  method CarryOver(current: seq<Step>, specs: seq<StepSpec>) returns (r: Result<seq<Step>, PlanError>)
    ensures r.Err? <==> exists s :: s in specs && !KeepsMeaning(current, s)
    ensures r.Err? ==> r.error == StepMeaningChanged
    ensures r.Ok? ==> r.value == CarriedSteps(current, specs)
  {
    var compiled: seq<Step> := [];
    for i := 0 to |specs|
      invariant |compiled| == i
      invariant forall k :: 0 <= k < i ==> compiled[k] == CarriedStep(current, specs[k], k)
      invariant forall k :: 0 <= k < i ==> KeepsMeaning(current, specs[k])
    {
      var previous := FindStep(current, specs[i].stepId);
      if previous.None? {
        compiled := compiled + [FreshStep(specs[i], i)];
      } else {
        if specs[i] != previous.value.spec {
          assert !KeepsMeaning(current, specs[i]);
          return Err(StepMeaningChanged);
        }
        compiled := compiled + [previous.value.(ordinal := i)];
      }
    }
    r := Ok(compiled);
  }
}
