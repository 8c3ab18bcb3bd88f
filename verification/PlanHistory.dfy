/** Facts that span a whole run of service calls on one plan. */
module PlanHistory {
  import opened Outcomes
  import opened Sequences
  import opened Text
  import opened StepGraph
  import opened PlanModels
  import opened PlanCompiler
  import opened PlanTransitions
  import opened PlanInvariants

  /** `s` is still there with its spec, result, evidence and everything else but its position. */
  ghost predicate Retained(s: Step, steps: seq<Step>) {
    exists t :: t in steps && t == s.(ordinal := t.ordinal)
  }

  lemma ReplacementRetains(steps: seq<Step>, r: Step, updated: Step, s: Step)
    requires UniqueIds(SpecsOf(steps)) && r in steps && s in steps
    requires !r.state.Completed? && s.state.Completed? && updated.Id() == r.Id()
    ensures s in Replaced(steps, updated)
  {
    if r.Id() == s.Id() {
      UniqueStep(steps, r, s);
    }
    ReplacedMembers(steps, updated);
  }

  lemma StepOpRetainsCompleted(plan: GoalPlan, op: PlanOp, s: Step)
    requires UniqueIds(SpecsOf(plan.steps)) && StepOp(op) && StepOutcome(plan, op).Ok?
    requires s in plan.steps && s.state.Completed?
    ensures s in StepOutcome(plan, op).value.steps
  {
    var r := StepOpTarget(plan, op);
    ReplacementRetains(plan.steps, r, Updated(r, op), s);
  }

  lemma RevisionRetainsCompleted(plan: GoalPlan, proposal: RevisionProposal, s: Step)
    requires UniqueIds(SpecsOf(plan.steps)) && RevisionOutcome(plan, proposal).Ok?
    requires s in plan.steps && s.state.Completed?
    ensures Retained(s, RevisionOutcome(plan, proposal).value.steps)
  {
    hide Blank;
    RevisionKeepsCompleted(plan.steps, proposal.steps, s);
  }

  lemma AfterRetainsCompleted(plan: GoalPlan, op: PlanOp, s: Step)
    requires UniqueIds(SpecsOf(plan.steps)) && s in plan.steps && s.state.Completed?
    ensures Retained(s, After(plan, op).steps)
  {
    if Apply(plan, op).Ok? {
      match op
      case Cancel(_) =>
      case Revise(proposal) => RevisionRetainsCompleted(plan, proposal, s);
      case _ => StepOpRetainsCompleted(plan, op, s);
    }
  }

  /** A completed step survives every later operation, replans included. */
  lemma {:induction false} RunRetainsCompleted(plan: GoalPlan, ops: seq<PlanOp>, s: Step)
    requires WellKept(plan) && AllWellFormed(ops) && s in plan.steps && s.state.Completed?
    ensures Retained(s, Run(plan, ops).steps)
    decreases |ops|
  {
    if ops != [] {
      AfterKeepsWellKept(plan, ops[0]);
      AfterRetainsCompleted(plan, ops[0], s);
      var t :| t in After(plan, ops[0]).steps && t == s.(ordinal := t.ordinal);
      RunRetainsCompleted(After(plan, ops[0]), ops[1..], t);
    }
  }

  // ----- completion order -----

  /** The id an operation completes, if it does. */
  ghost function Completion(plan: GoalPlan, op: PlanOp): seq<string> {
    if op.Complete? && Apply(plan, op).Ok? then [op.stepId] else []
  }

  /** The ids completed by a run, in the order of their completion. */
  ghost function CompletionOrder(plan: GoalPlan, ops: seq<PlanOp>): seq<string>
    decreases |ops|
  {
    if ops == [] then [] else Completion(plan, ops[0]) + CompletionOrder(After(plan, ops[0]), ops[1..])
  }

  /** `order` lists exactly the completed steps, dependencies first. */
  ghost predicate Linearized(plan: GoalPlan, order: seq<string>) {
    && DependenciesFirst(GraphOf(plan.steps), order)
    && (forall n :: n in order <==> n in CompletedIds(plan.steps))
  }

  lemma GraphAt(steps: seq<Step>, s: Step)
    requires StepsSound(steps) && s in steps
    ensures s.Id() in GraphOf(steps) && GraphOf(steps)[s.Id()] == s.spec.dependsOn
  {
    var i :| 0 <= i < |steps| && steps[i] == s;
    DepsOfUnique(SpecsOf(steps));
    assert SpecsOf(steps)[i] == s.spec;
  }

  lemma CompletedAfterStepOp(plan: GoalPlan, op: PlanOp)
    requires WellKept(plan) && StepOp(op) && StepOutcome(plan, op).Ok?
    ensures CompletedIds(StepOutcome(plan, op).value.steps) ==
              CompletedIds(plan.steps) + (if op.Complete? then {op.stepId} else {})
    ensures op.Complete? ==> op.stepId !in CompletedIds(plan.steps)
    ensures GraphOf(StepOutcome(plan, op).value.steps) == GraphOf(plan.steps)
  {
    hide StepSound, DependenciesDone, StateAfter, FindStep;
    var s := StepOpShape(plan, op);
    ReplacementKeepsSound(plan.steps, s, Updated(s, op));
    ReplacementCompletes(plan.steps, s, Updated(s, op));
  }

  /** A completion extends the order: its dependencies are already in it. */
  lemma CompletionLinearizes(plan: GoalPlan, op: PlanOp, order: seq<string>)
    requires WellKept(plan) && op.Complete? && StepOutcome(plan, op).Ok?
    requires Linearized(plan, order)
    ensures Linearized(StepOutcome(plan, op).value, order + [op.stepId])
  {
    CompletedAfterStepOp(plan, op);
    var s := StepOpShape(plan, op);
    GraphAt(plan.steps, s);
    AppendStep(GraphOf(plan.steps), order, op.stepId);
  }

  /** A revision completes nothing: what it carries over as completed was completed. */
  lemma RevisionCompletesNothing(current: seq<Step>, specs: seq<StepSpec>)
    requires UniqueIds(SpecsOf(current)) && FrozenProblem(current, specs).None?
    ensures CompletedIds(CarriedSteps(current, specs)) == CompletedIds(current)
  {
    RevisionKeepsDone(current, specs);
    var next := CarriedSteps(current, specs);
    forall n | n in CompletedIds(next)
      ensures n in CompletedIds(current)
    {
      var i :| 0 <= i < |next| && next[i].state.Completed? && next[i].Id() == n;
      assert FindStep(current, specs[i].stepId).Some?;
    }
  }

  lemma RevisionKeepsDependencies(current: seq<Step>, specs: seq<StepSpec>, n: string)
    requires StepsSound(current) && StepsSound(CarriedSteps(current, specs))
    requires FrozenProblem(current, specs).None? && n in CompletedIds(current)
    ensures n in GraphOf(current) && n in GraphOf(CarriedSteps(current, specs))
    ensures GraphOf(CarriedSteps(current, specs))[n] == GraphOf(current)[n]
  {
    var s :| s in current && s.state.Completed? && s.Id() == n;
    RevisionKeepsCompleted(current, specs, s);
    var t :| t in CarriedSteps(current, specs) && t == s.(ordinal := t.ordinal);
    GraphAt(current, s);
    GraphAt(CarriedSteps(current, specs), t);
  }

  /** A revision keeps the order: completed steps keep their dependencies. */
  lemma RevisionLinearizes(plan: GoalPlan, proposal: RevisionProposal, order: seq<string>)
    requires WellKept(plan) && proposal.Valid() && RevisionOutcome(plan, proposal).Ok?
    requires Linearized(plan, order)
    ensures Linearized(RevisionOutcome(plan, proposal).value, order)
  {
    RevisionKeepsWellKept(plan, proposal);
    RevisionCompletesNothing(plan.steps, proposal.steps);
    CarriedLinearizes(plan.steps, proposal.steps, order);
  }

  lemma CarriedLinearizes(current: seq<Step>, specs: seq<StepSpec>, order: seq<string>)
    requires StepsSound(current) && StepsSound(CarriedSteps(current, specs)) && FrozenProblem(current, specs).None?
    requires DependenciesFirst(GraphOf(current), order)
    requires forall n :: n in order ==> n in CompletedIds(current)
    ensures DependenciesFirst(GraphOf(CarriedSteps(current, specs)), order)
  {
    forall i | 0 <= i < |order|
      ensures order[i] in GraphOf(CarriedSteps(current, specs)) && order[i] in GraphOf(current)
      ensures GraphOf(CarriedSteps(current, specs))[order[i]] == GraphOf(current)[order[i]]
    {
      RevisionKeepsDependencies(current, specs, order[i]);
    }
  }

  lemma AfterLinearizes(plan: GoalPlan, op: PlanOp, order: seq<string>)
    requires WellKept(plan) && WellFormed(op) && Linearized(plan, order)
    ensures Linearized(After(plan, op), order + Completion(plan, op))
  {
    hide WellKept, StepOutcome, RevisionOutcome, CompletedIds, GraphOf, DependenciesFirst;
    assert order + [] == order;
    if Apply(plan, op).Ok? {
      match op
      case Cancel(_) =>
      case Revise(proposal) => RevisionLinearizes(plan, proposal, order);
      case Complete(_, _, _) => CompletionLinearizes(plan, op, order);
      case _ => CompletedAfterStepOp(plan, op);
    }
  }

  lemma {:induction false} RunLinearizes(plan: GoalPlan, ops: seq<PlanOp>, order: seq<string>)
    requires WellKept(plan) && AllWellFormed(ops) && Linearized(plan, order)
    ensures Linearized(Run(plan, ops), order + CompletionOrder(plan, ops))
    decreases |ops|
  {
    if ops == [] {
      assert order + [] == order;
    } else {
      AfterKeepsWellKept(plan, ops[0]);
      AfterLinearizes(plan, ops[0], order);
      RunLinearizes(After(plan, ops[0]), ops[1..], order + Completion(plan, ops[0]));
      Associate(order, Completion(plan, ops[0]), CompletionOrder(After(plan, ops[0]), ops[1..]));
    }
  }

  lemma Associate<T>(a: seq<T>, b: seq<T>, c: seq<T>)
    ensures a + (b + c) == (a + b) + c
  {
  }

  /**
   * From acceptance on, through any mix of calls and replans: the order in which steps are
   * completed lists exactly the completed steps, once each, after all their dependencies.
   */
  lemma CompletionOrderIsTopological(proposal: PlanProposal, ops: seq<PlanOp>)
    requires proposal.Valid() && CompileOutcome(proposal).Ok? && AllWellFormed(ops)
    ensures var plan := CompileOutcome(proposal).value;
            Linearized(Run(plan, ops), CompletionOrder(plan, ops))
  {
    var plan := CompileOutcome(proposal).value;
    AcceptedIsWellKept(proposal);
    assert Linearized(plan, []);
    RunLinearizes(plan, ops, []);
    assert [] + CompletionOrder(plan, ops) == CompletionOrder(plan, ops);
  }

  // ----- cancelling -----

  /** No call will ever move this step again. */
  predicate Settled(s: Step) {
    s.state.Completed? || (s.state.Failed? && !Retryable(s))
  }

  lemma UnsettledStepAccepts(plan: GoalPlan, s: Step) returns (op: PlanOp)
    requires UniqueIds(SpecsOf(plan.steps)) && plan.state.Cancelled? && s in plan.steps && !Settled(s)
    ensures StepOp(op) && StepOutcome(plan, op).Ok?
  {
    op := if s.state.Blocked? then Unblock(s.Id())
          else if s.state.Failed? then Retry(s.Id(), None)
          else Block(s.Id(), "x");
    UniqueStep(plan.steps, s, FindStep(plan.steps, s.Id()).value);
    assert !Blank("x");
  }

  lemma AcceptedAfterCancel(plan: GoalPlan, op: PlanOp)
    requires plan.state.Cancelled? && Apply(plan, op).Ok?
    ensures !Apply(plan, op).value.state.Cancelled?
    ensures exists s :: s in plan.steps && !Settled(s)
  {
    var s := FindStep(plan.steps, op.stepId).value;
    assert StepRefusal(plan.steps, s, op).None?;
    assert !Settled(s);
  }

  /**
   * Cancelling is not absorbing. A cancelled plan refuses every later call exactly when
   * each step is completed or has failed with its budget spent; otherwise some call is
   * accepted, and every accepted call takes the plan out of `cancelled`.
   */
  lemma CancelAbsorbsIff(plan: GoalPlan)
    requires WellKept(plan) && plan.state.Cancelled?
    ensures (forall op :: WellFormed(op) ==> Apply(plan, op).Err?) <==> (forall s :: s in plan.steps ==> Settled(s))
    ensures forall op :: WellFormed(op) && Apply(plan, op).Ok? ==> !Apply(plan, op).value.state.Cancelled?
  {
    if s :| s in plan.steps && !Settled(s) {
      var op := UnsettledStepAccepts(plan, s);
      assert WellFormed(op) && Apply(plan, op).Ok?;
    }
    forall op | WellFormed(op) && Apply(plan, op).Ok?
      ensures !Apply(plan, op).value.state.Cancelled?
      ensures exists s :: s in plan.steps && !Settled(s)
    {
      AcceptedAfterCancel(plan, op);
    }
  }

  lemma OneStepOutcome(plan: GoalPlan, s: Step, op: PlanOp)
    requires plan.steps == [s] && StepOp(op) && op.stepId == s.Id() && !op.Start? && StepRefusal([s], s, op).None?
    ensures Apply(plan, op).Ok? && After(plan, op).steps == [Updated(s, op)]
    ensures After(plan, op).state == StateAfter([Updated(s, op)], op)
  {
    assert FindStep([s], s.Id()) == Some(s);
    assert Replaced([s], Updated(s, op)) == [Updated(s, op)];
  }

  /** A proposal of one step with one attempt. */
  function SingleStep(): PlanProposal {
    PlanProposal("p", "g", [StepSpec("a", "a", "", [], [], "", 1, 0)], 0.0)
  }

  function SingleAs(revision: nat, state: StepState, attempts: nat): GoalPlan {
    var step := Step(SingleStep().steps[0], 0, state, attempts, None, [], None, None, None);
    GoalPlan("p", "g", revision, Active, [step], 0.0)
  }

  lemma SingleStepAccepted()
    ensures SingleStep().Valid() && CompileOutcome(SingleStep()) == Ok(SingleAs(1, Pending, 0))
  {
    var plan := SingleAs(1, Pending, 0);
    OneStepWellKept(plan, plan.steps[0]);
    assert SpecsOf(plan.steps) == SingleStep().steps;
    assert FreshSteps(SingleStep().steps) == plan.steps;
  }

  lemma SingleStepStarted(ops: seq<PlanOp>)
    ensures Run(SingleAs(1, Pending, 0), [Start("a", None)] + ops) == Run(SingleAs(2, Running, 1), ops)
  {
    var plan := SingleAs(1, Pending, 0);
    var s, start := plan.steps[0], Start("a", None);
    assert FindStep([s], "a") == Some(s);
    assert DependenciesDone(plan.steps, s);
    assert Replaced([s], Updated(s, start)) == [Updated(s, start)];
    assert After(plan, start) == SingleAs(2, Running, 1);
    assert ([start] + ops)[0] == start && ([start] + ops)[1..] == ops;
  }

  lemma StartedThenCancelled()
    ensures var plan := SingleAs(2, Running, 1);
            && Run(plan, [Cancel("stop")]).state.Cancelled?
            && Run(plan, [Cancel("stop"), Complete("a", "r", [])]).state.PlanCompleted?
  {
    hide StepOutcome;
    var plan, cancel, complete := SingleAs(2, Running, 1), Cancel("stop"), Complete("a", "r", []);
    assert !Blank("stop") && !Blank("r");
    var cancelled := After(plan, cancel);
    OneStepOutcome(cancelled, plan.steps[0], complete);
    assert [cancel][1..] == [] && [cancel, complete][1..] == [complete] && [complete][1..] == [];
    assert Run(plan, [cancel]) == Run(cancelled, []);
    assert Run(plan, [cancel, complete]) == Run(cancelled, [complete]) == Run(After(cancelled, complete), []);
  }

  /** A plan whose only step runs is cancelled; completing the step then finishes the plan. */
  lemma CancelledPlanCanComplete()
    ensures SingleStep().Valid() && CompileOutcome(SingleStep()).Ok?
    ensures var accepted := CompileOutcome(SingleStep()).value;
            && Run(accepted, [Start("a", None), Cancel("stop")]).state.Cancelled?
            && Run(accepted, [Start("a", None), Cancel("stop"), Complete("a", "r", [])]).state.PlanCompleted?
  {
    hide Run, CompileOutcome;
    SingleStepAccepted();
    StartedThenCancelled();
    var start, cancel, complete := Start("a", None), Cancel("stop"), Complete("a", "r", []);
    SingleStepStarted([cancel]);
    SingleStepStarted([cancel, complete]);
    assert [start] + [cancel] == [start, cancel] && [start] + [cancel, complete] == [start, cancel, complete];
  }

  lemma OneStepWellKept(plan: GoalPlan, s: Step)
    requires plan.steps == [s] && s.ordinal == 0 && s.spec.dependsOn == [] && s.spec.Valid()
    requires s.attemptCount <= s.spec.maxAttempts && !s.state.Completed? && plan.revision > 0 && plan.state.Active?
    ensures WellKept(plan)
  {
    var specs := SpecsOf(plan.steps);
    assert specs == [s.spec];
    DepsOfUnique(specs);
    assert DepsOf(specs[..0]) == map[];
    assert TopologicalOrder(DepsOf(specs), [s.Id()]);
    TopologicalOrderIsAcyclic(DepsOf(specs), [s.Id()]);
  }
}

/** What the scheduler's answers mean, and what happens when they are obeyed. */
module PlanScheduling {
  import opened Outcomes
  import opened Sequences
  import opened Sorting
  import opened Text
  import opened PlanModels
  import opened PlanCompiler
  import opened PlanTransitions
  import opened PlanInvariants
  import opened PlanHistory

  lemma KeyOrder(a: Step, b: Step, c: Step)
    ensures NoLaterThan(a, b) || NoLaterThan(b, a)
    ensures NoLaterThan(a, b) && NoLaterThan(b, c) ==> NoLaterThan(a, c)
  {
    AtMostTotal(a.Id(), b.Id());
    if AtMost(a.Id(), b.Id()) && AtMost(b.Id(), c.Id()) {
      AtMostTransitive(a.Id(), b.Id(), c.Id());
    }
  }

  lemma KeyTotal(steps: seq<Step>)
    ensures TotalOn(steps, NoLaterThan)
  {
    forall a, b, c
      ensures NoLaterThan(a, b) || NoLaterThan(b, a)
      ensures NoLaterThan(a, b) && NoLaterThan(b, c) ==> NoLaterThan(a, c)
    {
      KeyOrder(a, b, c);
    }
  }

  /** `ready_steps` holds exactly the pending steps whose dependencies are completed, best first. */
  lemma ReadyStepsSpec(plan: GoalPlan)
    ensures Sorted(ReadySteps(plan), NoLaterThan)
    ensures forall s :: s in ReadySteps(plan) <==> plan.state.Active? && s in plan.steps && IsReady(plan.steps, s)
  {
    if plan.state.Active? {
      var ready := Filter(plan.steps, s => IsReady(plan.steps, s));
      KeyTotal(ready);
      SortSorted(ready, NoLaterThan);
      forall s
        ensures s in ReadySteps(plan) <==> s in plan.steps && IsReady(plan.steps, s)
      {
        SameElement(ReadySteps(plan), ready, s);
      }
    }
  }

  lemma {:induction false} FirstIsBest(steps: seq<Step>)
    requires steps != []
    ensures forall s :: s in steps ==> NoLaterThan(First(steps), s)
  {
    forall s | s in steps
      ensures NoLaterThan(First(steps), s)
    {
      KeyOrder(s, s, s);
      if |steps| > 1 {
        FirstIsBest(steps[1..]);
        KeyOrder(steps[0], First(steps[1..]), s);
        assert s != steps[0] ==> s in steps[1..];
      }
    }
  }

  ghost predicate BestReady(plan: GoalPlan, s: Step) {
    s in plan.steps && IsReady(plan.steps, s) &&
    forall t :: t in plan.steps && IsReady(plan.steps, t) ==> NoLaterThan(s, t)
  }

  ghost predicate BestRetry(plan: GoalPlan, s: Step) {
    s in plan.steps && Retryable(s) && forall t :: t in plan.steps && Retryable(t) ==> NoLaterThan(s, t)
  }

  predicate NoneRunning(plan: GoalPlan) {
    forall s :: s in plan.steps ==> !s.state.Running?
  }

  /** A replan is asked for only when the failed steps have spent their attempts. */
  lemma ReplanMeaning(plan: GoalPlan)
    requires forall s :: s in plan.steps ==> s.attemptCount <= s.spec.maxAttempts
    requires Decide(plan).ReplanRequired?
    ensures exists s :: s in plan.steps && s.state.Failed?
    ensures forall s :: s in plan.steps && s.state.Failed? ==> s.attemptCount == s.spec.maxAttempts
  {
    forall s | s in plan.steps && s.state.Failed?
      ensures s.attemptCount == s.spec.maxAttempts
    {
      assert s !in Filter(plan.steps, (t: Step) => Retryable(t));
    }
  }

  /** A running step makes the scheduler wait for it, and nothing else does. */
  lemma RunningMeaning(plan: GoalPlan)
    ensures Decide(plan).WaitRunning? <==> !plan.Terminal() && !NoneRunning(plan)
    ensures Decide(plan).WaitRunning? ==>
              exists s :: s in plan.steps && s.state.Running? && s.Id() == Decide(plan).stepId
                          && forall t :: t in plan.steps && t.state.Running? ==> s.ordinal <= t.ordinal
  {
    var running := Filter(plan.steps, (s: Step) => s.state.Running?);
    if running != [] {
      assert LowestOrdinal(running) in running;
    }
  }

  /** A start is decided exactly when the plan is active, idle and has a ready step; it names the best. */
  lemma StartMeaning(plan: GoalPlan)
    ensures Decide(plan).StartStep? <==>
              plan.state.Active? && NoneRunning(plan) && exists s :: s in plan.steps && IsReady(plan.steps, s)
    ensures Decide(plan).StartStep? ==> exists s: Step :: s.Id() == Decide(plan).stepId && BestReady(plan, s)
  {
    ReadyStepsSpec(plan);
    RunningMeaning(plan);
    var ready := ReadySteps(plan);
    if ready != [] {
      assert ready[0] in ready;
      forall t | t in plan.steps && IsReady(plan.steps, t)
        ensures NoLaterThan(ready[0], t)
      {
        var i :| 0 <= i < |ready| && ready[i] == t;
        KeyOrder(t, t, t);
      }
      assert BestReady(plan, ready[0]);
    }
  }

  /** A retry is decided exactly when nothing is running or ready and a failed step has attempts left. */
  lemma RetryMeaning(plan: GoalPlan)
    ensures Decide(plan).RetryStep? <==>
              !plan.Terminal() && NoneRunning(plan) && ReadySteps(plan) == [] &&
              exists s :: s in plan.steps && Retryable(s)
    ensures Decide(plan).RetryStep? ==> exists s: Step :: s.Id() == Decide(plan).stepId && BestRetry(plan, s)
  {
    RunningMeaning(plan);
    var retryable := Filter(plan.steps, (s: Step) => Retryable(s));
    if retryable != [] {
      FirstIsBest(retryable);
      assert BestRetry(plan, First(retryable));
    }
  }

  lemma FoundStep(steps: seq<Step>, s: Step)
    requires UniqueIds(SpecsOf(steps)) && s in steps
    ensures FindStep(steps, s.Id()) == Some(s)
  {
    UniqueStep(steps, s, FindStep(steps, s.Id()).value);
  }

  lemma LaunchValue(plan: GoalPlan, s: Step, op: PlanOp, runId: Option<string>)
    requires op == Start(s.Id(), runId) || op == Retry(s.Id(), runId)
    requires FindStep(plan.steps, s.Id()) == Some(s) && (op.Start? ==> plan.state.Active?)
    requires StepRefusal(plan.steps, s, op).None?
    ensures Apply(plan, op) == Ok(NextRevision(plan, Replaced(plan.steps, Launched(s, runId)), Active))
  {
  }

  /** A decided start is accepted exactly when the step has attempts left. */
  lemma DecidedStartAcceptedIff(plan: GoalPlan, runId: Option<string>) returns (s: Step)
    requires UniqueIds(SpecsOf(plan.steps)) && !BlankRun(runId) && Decide(plan).StartStep?
    ensures FindStep(plan.steps, Decide(plan).stepId) == Some(s) && s.state.Pending?
    ensures plan.state.Active? && NoneRunning(plan)
    ensures Apply(plan, Start(Decide(plan).stepId, runId)).Ok? <==> s.attemptCount < s.spec.maxAttempts
    ensures s.attemptCount < s.spec.maxAttempts ==>
              Apply(plan, Start(Decide(plan).stepId, runId)) ==
                Ok(NextRevision(plan, Replaced(plan.steps, Launched(s, runId)), Active))
  {
    hide ReadySteps, Decide;
    StartMeaning(plan);
    s :| s.Id() == Decide(plan).stepId && BestReady(plan, s);
    FoundStep(plan.steps, s);
    if s.attemptCount < s.spec.maxAttempts {
      LaunchValue(plan, s, Start(s.Id(), runId), runId);
    }
  }

  /** A decided retry is always accepted. */
  lemma DecidedRetryAccepted(plan: GoalPlan, runId: Option<string>) returns (s: Step)
    requires UniqueIds(SpecsOf(plan.steps)) && !BlankRun(runId) && Decide(plan).RetryStep?
    ensures FindStep(plan.steps, Decide(plan).stepId) == Some(s) && Retryable(s) && NoneRunning(plan)
    ensures Apply(plan, Retry(Decide(plan).stepId, runId)) ==
              Ok(NextRevision(plan, Replaced(plan.steps, Launched(s, runId)), Active))
  {
    hide ReadySteps, Decide;
    RetryMeaning(plan);
    s :| s.Id() == Decide(plan).stepId && BestRetry(plan, s);
    FoundStep(plan.steps, s);
    LaunchValue(plan, s, Retry(s.Id(), runId), runId);
  }

  lemma StartedThenUnblocked()
    ensures var later := Run(SingleAs(2, Running, 1), [Block("a", "x"), Unblock("a")]);
            Decide(later) == StartStep("a") && Apply(later, Start("a", None)).Err?
  {
    hide ReadySteps, WellKept;
    assert !Blank("x");
    var plan, block, unblock := SingleAs(2, Running, 1), Block("a", "x"), Unblock("a");
    var s := plan.steps[0];
    OneStepOutcome(plan, s, block);
    var blocked := After(plan, block);
    OneStepOutcome(blocked, Updated(s, block), unblock);
    var later := After(blocked, unblock);
    var u := later.steps[0];
    assert [block, unblock][1..] == [unblock] && [unblock][1..] == [];
    assert Run(plan, [block, unblock]) == Run(blocked, [unblock]) == Run(later, []) == later;
    assert IsReady(later.steps, u);
    StartMeaning(later);
    var t: Step :| t.Id() == Decide(later).stepId && BestReady(later, t);
    assert UniqueIds(SpecsOf(later.steps));
    var found := DecidedStartAcceptedIff(later, None);
  }

  /** Blocking a running step and unblocking it spends its only attempt: the scheduler offers it, start refuses. */
  lemma UnblockedStepCanBeRefused()
    ensures SingleStep().Valid() && CompileOutcome(SingleStep()).Ok?
    ensures var later := Run(CompileOutcome(SingleStep()).value, [Start("a", None), Block("a", "x"), Unblock("a")]);
            Decide(later) == StartStep("a") && Apply(later, Start("a", None)).Err?
  {
    hide Run, Decide, Apply, CompileOutcome;
    SingleStepAccepted();
    StartedThenUnblocked();
    var start, block, unblock := Start("a", None), Block("a", "x"), Unblock("a");
    SingleStepStarted([block, unblock]);
    assert [start] + [block, unblock] == [start, block, unblock];
  }
}
