/** Plan steps, plans and proposals (planning/models.py). */
module PlanModels {
  import opened Outcomes
  import opened Sequences
  import opened Text
  import opened Listing
  import opened StepGraph

  datatype StepSpec = StepSpec(
    stepId: string, title: string, description: string,
    dependsOn: seq<string>, requiredCapabilities: seq<string>, verification: string,
    maxAttempts: nat, priority: int)
  {
    /** What constructing a spec demands. */
    predicate Valid() {
      && !Blank(stepId) && !Blank(title)
      && maxAttempts > 0
      && stepId !in dependsOn
      && NoRepeats(dependsOn)
    }
  }

  datatype StepState = Pending | Running | Completed | Failed | Blocked

  datatype Step = Step(
    spec: StepSpec, ordinal: nat, state: StepState, attemptCount: nat,
    resultRef: Option<string>, evidenceRefs: seq<string>,
    blocker: Option<string>, lastError: Option<string>, runId: Option<string>)
  {
    function Id(): string { spec.stepId }
  }

  datatype PlanState = Active | PlanBlocked | PlanCompleted | Cancelled | Superseded

  datatype GoalPlan = GoalPlan(
    planId: string, goalId: string, revision: nat, state: PlanState, steps: seq<Step>, createdAt: real)
  {
    predicate Terminal() {
      state.PlanCompleted? || state.Cancelled? || state.Superseded?
    }

    /** What constructing a plan demands. */
    predicate Valid() {
      && revision > 0
      && steps != []
      && UniqueIds(SpecsOf(steps))
    }
  }

  datatype PlanProposal = PlanProposal(planId: string, goalId: string, steps: seq<StepSpec>, createdAt: real)
  {
    predicate Valid() {
      steps != [] && forall s :: s in steps ==> s.Valid()
    }
  }

  datatype RevisionProposal = RevisionProposal(planId: string, goalId: string, baseRevision: nat, steps: seq<StepSpec>)
  {
    predicate Valid() {
      baseRevision > 0 && steps != [] && forall s :: s in steps ==> s.Valid()
    }
  }

  datatype PlanError =
    | PlanExists
    | PlanNotFound
    | StepNotFound
    | WrongPlanState
    | WrongStepState
    | DependenciesNotCompleted
    | AttemptsExhausted
    | BlankArgument
    | DuplicateStepIds
    | MissingDependency
    | DependencyCycle
    | PlanIdMismatch
    | GoalIdMismatch
    | StaleRevision
    | TerminalPlan
    | RunningStep
    | CompletedStepRemoved
    | CompletedStepChanged
    | StepMeaningChanged
    | StoreRejected

  function SpecsOf(steps: seq<Step>): (r: seq<StepSpec>)
    ensures |r| == |steps|
    ensures forall i :: 0 <= i < |steps| ==> r[i] == steps[i].spec
  {
    Map(steps, (s: Step) => s.spec)
  }

  function Ids(specs: seq<StepSpec>): (r: seq<string>)
    ensures |r| == |specs|
    ensures forall i :: 0 <= i < |specs| ==> r[i] == specs[i].stepId
  {
    Map(specs, (s: StepSpec) => s.stepId)
  }

  predicate UniqueIds(specs: seq<StepSpec>) {
    forall i, j :: 0 <= i < j < |specs| ==> specs[i].stepId != specs[j].stepId
  }

  /** `{step.step_id: step.depends_on for step in specs}`: a later duplicate key wins. */
  function DepsOf(specs: seq<StepSpec>): (g: Graph)
    ensures forall n :: n in g <==> exists i :: 0 <= i < |specs| && specs[i].stepId == n
  {
    if specs == [] then map[]
    else
      var last := specs[|specs| - 1];
      var front := DepsOf(specs[..|specs| - 1]);
      assert forall i :: 0 <= i < |specs| - 1 ==> specs[..|specs| - 1][i] == specs[i];
      front[last.stepId := last.dependsOn]
  }

  lemma {:induction false} DepsOfUnique(specs: seq<StepSpec>)
    requires UniqueIds(specs)
    ensures forall i ::
              0 <= i < |specs| ==>
              specs[i].stepId in DepsOf(specs) && DepsOf(specs)[specs[i].stepId] == specs[i].dependsOn
  {
    if specs != [] {
      var front := specs[..|specs| - 1];
      DepsOfUnique(front);
      forall i | 0 <= i < |specs|
        ensures specs[i].stepId in DepsOf(specs) && DepsOf(specs)[specs[i].stepId] == specs[i].dependsOn
      {
        if i < |front| {
          assert front[i] == specs[i];
        }
      }
    }
  }

  predicate DependenciesKnown(specs: seq<StepSpec>) {
    forall i, d :: 0 <= i < |specs| && d in specs[i].dependsOn ==> d in Ids(specs)
  }

  lemma KnownIsClosed(specs: seq<StepSpec>)
    requires UniqueIds(specs) && DependenciesKnown(specs)
    ensures Closed(DepsOf(specs))
    ensures forall n :: n in DepsOf(specs) <==> n in Ids(specs)
  {
    DepsOfUnique(specs);
    var g, ids := DepsOf(specs), Ids(specs);
    forall n
      ensures n in g <==> n in ids
    {
      if n in g {
        var i :| 0 <= i < |specs| && specs[i].stepId == n;
        assert ids[i] == n;
      }
      if n in ids {
        var i :| 0 <= i < |ids| && ids[i] == n;
        assert specs[i].stepId == n;
      }
    }
    forall n, d | n in g && d in g[n]
      ensures d in g
    {
      var i :| 0 <= i < |specs| && specs[i].stepId == n;
      assert d in specs[i].dependsOn;
    }
  }

  /** The step a service call names: the first with that id. */
  function FindStep(steps: seq<Step>, id: string): (r: Option<Step>)
    ensures r.None? <==> forall s :: s in steps ==> s.Id() != id
    ensures r.Some? ==> r.value in steps && r.value.Id() == id
  {
    Find(steps, (s: Step) => s.Id() == id)
  }

  function CompletedIds(steps: seq<Step>): (r: set<string>) {
    set s | s in steps && s.state.Completed? :: s.Id()
  }

  predicate DependenciesDone(steps: seq<Step>, s: Step) {
    forall d :: d in s.spec.dependsOn ==> d in CompletedIds(steps)
  }

  predicate AllCompleted(steps: seq<Step>) {
    forall s :: s in steps ==> s.state.Completed?
  }

  /** `tuple(updated if item.step_id == updated.step_id else item for item in steps)`. */
  function Replaced(steps: seq<Step>, updated: Step): (r: seq<Step>)
    ensures |r| == |steps|
    ensures forall i :: 0 <= i < |steps| ==> r[i] == if steps[i].Id() == updated.Id() then updated else steps[i]
  {
    Map(steps, (s: Step) => if s.Id() == updated.Id() then updated else s)
  }
}
