/** Obeying the scheduler until it has nothing left to start or retry. */
module PlanDriving {
  import opened Outcomes
  import opened Sequences
  import opened Text
  import opened PlanModels
  import opened PlanCompiler
  import opened PlanTransitions
  import opened PlanInvariants
  import opened PlanHistory
  import opened PlanScheduling

  /** Attempts that the plan may still spend. */
  function Budget(steps: seq<Step>): int {
    if steps == [] then 0
    else steps[0].spec.maxAttempts - steps[0].attemptCount + Budget(steps[1..])
  }

  function TotalAttempts(specs: seq<StepSpec>): nat {
    if specs == [] then 0 else specs[0].maxAttempts + TotalAttempts(specs[1..])
  }

  lemma {:induction false} BudgetNonNegative(steps: seq<Step>)
    requires forall s :: s in steps ==> s.attemptCount <= s.spec.maxAttempts
    ensures Budget(steps) >= 0
    ensures (exists s :: s in steps && s.attemptCount < s.spec.maxAttempts) ==> Budget(steps) > 0
  {
    if steps != [] {
      assert steps == [steps[0]] + steps[1..];
      BudgetNonNegative(steps[1..]);
    }
  }

  lemma {:induction false} BudgetAbsent(steps: seq<Step>, updated: Step)
    requires forall s :: s in steps ==> s.Id() != updated.Id()
    ensures Budget(Replaced(steps, updated)) == Budget(steps)
  {
    if steps != [] {
      BudgetAbsent(steps[1..], updated);
      assert Replaced(steps, updated)[1..] == Replaced(steps[1..], updated);
    }
  }

  lemma {:induction false} BudgetReplaced(steps: seq<Step>, s: Step, updated: Step)
    requires UniqueIds(SpecsOf(steps)) && s in steps && updated.spec == s.spec
    ensures Budget(Replaced(steps, updated)) == Budget(steps) + s.attemptCount - updated.attemptCount
  {
    var rest := steps[1..];
    assert Replaced(steps, updated)[1..] == Replaced(rest, updated);
    TailUnique(steps);
    if steps[0].Id() == s.Id() {
      UniqueStep(steps, steps[0], s);
      BudgetAbsent(rest, updated);
    } else {
      assert steps == [steps[0]] + rest;
      BudgetReplaced(rest, s, updated);
    }
  }

  lemma TailUnique(steps: seq<Step>)
    requires steps != [] && UniqueIds(SpecsOf(steps))
    ensures UniqueIds(SpecsOf(steps[1..]))
    ensures forall t :: t in steps[1..] ==> t.Id() != steps[0].Id()
  {
    var rest := steps[1..];
    assert SpecsOf(rest) == SpecsOf(steps)[1..];
    forall t | t in rest
      ensures t.Id() != steps[0].Id()
    {
      var i :| 0 <= i < |rest| && rest[i] == t;
      assert SpecsOf(steps)[0].stepId != SpecsOf(steps)[i + 1].stepId;
    }
  }

  lemma {:induction false} FreshBudget(specs: seq<StepSpec>, steps: seq<Step>)
    requires |steps| == |specs| &&
               forall i :: 0 <= i < |specs| ==> steps[i].spec == specs[i] && steps[i].attemptCount == 0
    ensures Budget(steps) == TotalAttempts(specs)
  {
    if specs != [] {
      FreshBudget(specs[1..], steps[1..]);
    }
  }

  /** Between rounds: nothing is running or blocked, and at most one failure has spent attempts. */
  predicate Resting(plan: GoalPlan) {
    && !plan.state.Cancelled?
    && (forall s :: s in plan.steps ==> !s.state.Running? && !s.state.Blocked?)
    && (forall s :: s in plan.steps && s.state.Pending? ==> s.attemptCount == 0)
    && (forall s, t :: s in plan.steps && t in plan.steps && s.state.Failed? && t.state.Failed? ==> s.Id() == t.Id())
    && (plan.state.Active? ==> forall s :: s in plan.steps ==> !s.state.Failed?)
  }

  ghost predicate Idle(plan: GoalPlan) {
    WellKept(plan) && Resting(plan)
  }

  /** How a launched step turns out; texts are the arguments the service accepts. */
  datatype Report = Report(runId: Option<string>, success: bool, text: string, evidence: seq<string>) {
    predicate Valid() {
      !BlankRun(runId) && !Blank(text)
    }

    function Op(stepId: string): PlanOp {
      if success then Complete(stepId, text, evidence) else Fail(stepId, text, evidence)
    }
  }

  /** The plan once the launch that `d` decides is made. */
  ghost function During(plan: GoalPlan, d: Decision, report: Report): GoalPlan
    requires Launches(d)
  {
    After(plan, LaunchOp(d, report.runId))
  }

  ghost function Round(plan: GoalPlan, d: Decision, report: Report): GoalPlan
    requires Launches(d)
  {
    After(During(plan, d, report), report.Op(d.stepId))
  }

  ghost predicate BothAccepted(plan: GoalPlan, d: Decision, report: Report)
    requires Launches(d)
  {
    Apply(plan, LaunchOp(d, report.runId)).Ok? && Apply(During(plan, d, report), report.Op(d.stepId)).Ok?
  }

  /** The final plan and the number of service calls made. */
  ghost function Drive(plan: GoalPlan, reports: seq<Report>): (GoalPlan, nat)
    decreases |reports|
  {
    if reports == [] || !Launches(Decide(plan)) then (plan, 0)
    else
      var (last, calls) := Drive(Round(plan, Decide(plan), reports[0]), reports[1..]);
      (last, calls + 2)
  }

  /** A decided launch is never refused. */
  lemma LaunchAccepted(plan: GoalPlan, d: Decision, runId: Option<string>) returns (s: Step)
    requires UniqueIds(SpecsOf(plan.steps)) && Resting(plan) && d == Decide(plan) && Launches(d) && !BlankRun(runId)
    requires forall t :: t in plan.steps ==> t.spec.maxAttempts > 0
    ensures Apply(plan, LaunchOp(d, runId)) == Ok(NextRevision(plan, Replaced(plan.steps, Launched(s, runId)), Active))
    ensures s in plan.steps && s.Id() == d.stepId && s.attemptCount < s.spec.maxAttempts
    ensures if d.StartStep? then s.state.Pending? && plan.state.Active? else s.state.Failed?
  {
    hide StepSound, NoLaterThan;
    if d.StartStep? {
      s := DecidedStartAcceptedIff(plan, runId);
    } else {
      s := DecidedRetryAccepted(plan, runId);
    }
  }

  lemma ReplacedTwice(steps: seq<Step>, a: Step, b: Step)
    requires a.Id() == b.Id()
    ensures Replaced(Replaced(steps, a), b) == Replaced(steps, b)
  {
  }

  lemma ReportAccepted(plan: GoalPlan, running: Step, report: Report)
    requires UniqueIds(SpecsOf(plan.steps)) && running in plan.steps && running.state.Running? && report.Valid()
    ensures var op := report.Op(running.Id());
            Apply(plan, op).Ok? && After(plan, op).steps == Replaced(plan.steps, Updated(running, op))
                                && After(plan, op).state == StateAfter(After(plan, op).steps, op)
  {
    FoundStep(plan.steps, running);
  }

  /** What one round does to the step it launches. */
  lemma RoundShape(plan: GoalPlan, d: Decision, report: Report) returns (s: Step, ended: Step)
    requires Idle(plan) && d == Decide(plan) && Launches(d) && report.Valid()
    ensures BothAccepted(plan, d, report) && WellKept(Round(plan, d, report))
    ensures s in plan.steps && ended.spec == s.spec && ended.attemptCount == s.attemptCount + 1
    ensures s.state.Failed? || (s.state.Pending? && plan.state.Active?)
    ensures ended.state == if report.success then Completed else Failed
    ensures var next := Round(plan, d, report);
            && next.steps == Replaced(plan.steps, ended)
            && next.state == if !report.success then PlanBlocked
                             else if AllCompleted(next.steps) then PlanCompleted
                             else Active
  {
    hide WellKept, Apply, Round, BothAccepted, Replaced, AllCompleted, StepSound;
    SpecsHaveBudget(plan);
    WellKeptUnique(plan);
    s := LaunchAccepted(plan, d, report.runId);
    ended := RoundEnd(plan, d, report, s);
  }

  lemma WellKeptUnique(plan: GoalPlan)
    requires WellKept(plan)
    ensures UniqueIds(SpecsOf(plan.steps))
  {
  }

  /** What a round leaves of the step it launched. */
  lemma RoundEnd(plan: GoalPlan, d: Decision, report: Report, s: Step) returns (ended: Step)
    requires WellKept(plan) && Launches(d) && report.Valid() && s in plan.steps && s.Id() == d.stepId
    requires Apply(plan, LaunchOp(d, report.runId)) ==
               Ok(NextRevision(plan, Replaced(plan.steps, Launched(s, report.runId)), Active))
    ensures BothAccepted(plan, d, report) && WellKept(Round(plan, d, report))
    ensures ended.spec == s.spec && ended.attemptCount == s.attemptCount + 1
    ensures ended.state == if report.success then Completed else Failed
    ensures var next := Round(plan, d, report);
            && next.steps == Replaced(plan.steps, ended)
            && next.state == if !report.success then PlanBlocked
                             else if AllCompleted(next.steps) then PlanCompleted
                             else Active
  {
    hide WellKept, Apply, Replaced, AllCompleted, Blank;
    RoundKeepsWellKept(plan, report, s, LaunchOp(d, report.runId));
    ended := Updated(Launched(s, report.runId), report.Op(s.Id()));
  }

  lemma SpecsHaveBudget(plan: GoalPlan)
    requires WellKept(plan)
    ensures forall t :: t in plan.steps ==> t.attemptCount <= t.spec.maxAttempts && t.spec.maxAttempts > 0
  {
    forall t | t in plan.steps
      ensures t.attemptCount <= t.spec.maxAttempts && t.spec.maxAttempts > 0
    {
      assert StepSound(plan.steps, t);
    }
  }

  /** One round: both calls are accepted and exactly one attempt is spent. */
  lemma RoundSpendsOne(plan: GoalPlan, d: Decision, report: Report)
    requires Idle(plan) && d == Decide(plan) && Launches(d) && report.Valid()
    ensures BothAccepted(plan, d, report)
    ensures Idle(Round(plan, d, report))
    ensures Budget(Round(plan, d, report).steps) == Budget(plan.steps) - 1
  {
    hide Decide, Apply, StepSound, Blank;
    var s, ended := RoundShape(plan, d, report);
    BudgetReplaced(plan.steps, s, ended);
    RoundRests(plan, s, ended, Round(plan, d, report));
  }

  lemma RoundKeepsWellKept(plan: GoalPlan, report: Report, s: Step, launch: PlanOp)
    requires WellKept(plan) && report.Valid() && s in plan.steps && WellFormed(launch)
    requires After(plan, launch).steps == Replaced(plan.steps, Launched(s, report.runId))
    ensures var during, op := After(plan, launch), report.Op(s.Id());
            var ended := Updated(Launched(s, report.runId), op);
            && Apply(during, op).Ok?
            && WellKept(After(during, op))
            && After(during, op).steps == Replaced(plan.steps, ended)
            && After(during, op).state == StateAfter(After(during, op).steps, op)
  {
    hide Blank;
    var running := Launched(s, report.runId);
    var during, op := After(plan, launch), report.Op(s.Id());
    AfterKeepsWellKept(plan, launch);
    ReplacedMembers(plan.steps, running);
    ReportAccepted(during, running, report);
    AfterKeepsWellKept(during, op);
    ReplacedTwice(plan.steps, running, Updated(running, op));
  }

  lemma RoundRests(plan: GoalPlan, s: Step, ended: Step, next: GoalPlan)
    requires Resting(plan) && s in plan.steps && ended.Id() == s.Id()
    requires next.steps == Replaced(plan.steps, ended)
    requires s.state.Failed? || (s.state.Pending? && plan.state.Active?)
    requires ended.state.Completed? || ended.state.Failed?
    requires next.state == if ended.state.Failed? then PlanBlocked
                           else if AllCompleted(next.steps) then PlanCompleted
                           else Active
    ensures Resting(next)
  {
    ReplacedMembers(plan.steps, ended);
  }

  /** The scheduler's answer to an idle plan is final unless it launches a step. */
  lemma IdleAnswer(plan: GoalPlan)
    requires Resting(plan) && !Decide(plan).DependenciesNotReady? && !plan.state.Superseded?
    ensures Launches(Decide(plan)) || Decide(plan).Finished? || Decide(plan).ReplanRequired?
  {
    RunningMeaning(plan);
  }

  /** A launch needs an attempt to be left. */
  lemma BudgetLeft(plan: GoalPlan)
    requires Idle(plan)
    ensures Budget(plan.steps) >= 0
    ensures Launches(Decide(plan)) ==> Budget(plan.steps) > 0
  {
    SpecsHaveBudget(plan);
    BudgetNonNegative(plan.steps);
    if Launches(Decide(plan)) {
      var s := LaunchAccepted(plan, Decide(plan), None);
    }
  }

  /** Every launch the drive decides and every report on it is accepted. */
  ghost predicate AllAccepted(plan: GoalPlan, reports: seq<Report>)
    decreases |reports|
  {
    var d := Decide(plan);
    reports != [] && Launches(d) ==>
      BothAccepted(plan, d, reports[0]) && AllAccepted(Round(plan, d, reports[0]), reports[1..])
  }

  lemma {:induction false} DriveEnds(plan: GoalPlan, reports: seq<Report>)
    requires Idle(plan) && (forall r :: r in reports ==> r.Valid()) && |reports| >= Budget(plan.steps)
    ensures var (last, calls) := Drive(plan, reports);
            && (Decide(last).Finished? || Decide(last).ReplanRequired?)
            && calls <= 2 * Budget(plan.steps)
            && AllAccepted(plan, reports)
    decreases |reports|
  {
    NeverDependenciesNotReady(plan);
    IdleAnswer(plan);
    BudgetLeft(plan);
    if Launches(Decide(plan)) {
      RoundSpendsOne(plan, Decide(plan), reports[0]);
      DriveEnds(Round(plan, Decide(plan), reports[0]), reports[1..]);
    }
  }

  /**
   * Driving an accepted plan, whatever is reported, ends in `completed` or `replan_required`
   * within twice the total attempt budget, and no call of the drive is refused.
   */
  lemma DrivingTerminates(proposal: PlanProposal, reports: seq<Report>)
    requires proposal.Valid() && CompileOutcome(proposal).Ok?
    requires (forall r :: r in reports ==> r.Valid()) && |reports| >= TotalAttempts(proposal.steps)
    ensures var (last, calls) := Drive(CompileOutcome(proposal).value, reports);
            && (Decide(last).Finished? || Decide(last).ReplanRequired?)
            && calls <= 2 * TotalAttempts(proposal.steps)
            && AllAccepted(CompileOutcome(proposal).value, reports)
  {
    hide WellKept;
    var plan := CompileOutcome(proposal).value;
    AcceptedIsWellKept(proposal);
    FreshBudget(proposal.steps, plan.steps);
    DriveEnds(plan, reports);
  }
}
