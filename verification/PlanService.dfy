/** The append-only plan store (planning/in_memory.py). */
module PlanStore {
  import opened Outcomes
  import opened PlanModels

  type Histories = map<string, seq<GoalPlan>>

  ghost predicate SoundHistory(planId: string, h: seq<GoalPlan>) {
    && h != []
    && (forall i :: 0 <= i < |h| ==>
          && h[i].planId == planId && h[i].goalId == h[0].goalId && h[i].createdAt == h[0].createdAt
          && h[i].revision == i + 1)
  }

  ghost predicate Sound(plans: Histories) {
    forall id :: id in plans ==> SoundHistory(id, plans[id])
  }

  function LatestIn(plans: Histories, planId: string): (r: Option<GoalPlan>) {
    if planId !in plans || plans[planId] == [] then None else Some(plans[planId][|plans[planId]| - 1])
  }

  function HistoryIn(plans: Histories, planId: string): seq<GoalPlan> {
    if planId in plans then plans[planId] else []
  }

  class PlanPort {
    var plans: Histories

    ghost predicate Valid()
      reads this
    {
      Sound(plans)
    }

    constructor ()
      ensures Valid() && plans == map[]
    {
      plans := map[];
    }

    function Latest(planId: string): (r: Option<GoalPlan>)
      reads this
    {
      LatestIn(plans, planId)
    }

    /** Accepts revision 1 of a new plan or the next revision of the same goal; refusals change nothing. */
    method Append(plan: GoalPlan) returns (r: Result<(), PlanError>)
      requires Valid()
      modifies this
      ensures Valid()
      ensures r.Ok? <==>
                match old(Latest(plan.planId))
                case None => plan.revision == 1
                case Some(previous) =>
                  && plan.goalId == previous.goalId && plan.createdAt == previous.createdAt
                  && plan.revision == previous.revision + 1
      ensures r.Ok? ==> plans == old(plans)[plan.planId := HistoryIn(old(plans), plan.planId) + [plan]]
      ensures r.Err? ==> r.error == StoreRejected && plans == old(plans)
    {
      var history := if plan.planId in plans then plans[plan.planId] else [];
      if history == [] {
        if plan.revision != 1 {
          return Err(StoreRejected);
        }
      } else {
        var previous := history[|history| - 1];
        if plan.goalId != previous.goalId {
          return Err(StoreRejected);
        }
        if plan.createdAt != previous.createdAt {
          return Err(StoreRejected);
        }
        if plan.revision != previous.revision + 1 {
          return Err(StoreRejected);
        }
      }
      plans := plans[plan.planId := history + [plan]];
      return Ok(());
    }
  }
}

/** What every operation on a plan computes, stated on the latest revision. */
module PlanTransitions {
  import opened Outcomes
  import opened Sequences
  import opened Text
  import opened Sorting
  import opened PlanModels
  import opened PlanCompiler

  datatype PlanOp =
    | Start(stepId: string, runId: Option<string>)
    | Complete(stepId: string, resultRef: string, evidence: seq<string>)
    | Fail(stepId: string, error: string, evidence: seq<string>)
    | Retry(stepId: string, runId: Option<string>)
    | Block(stepId: string, blocker: string)
    | Unblock(stepId: string)
    | Cancel(reason: string)
    | Revise(proposal: RevisionProposal)

  function NextRevision(plan: GoalPlan, steps: seq<Step>, state: PlanState): GoalPlan {
    plan.(revision := plan.revision + 1, steps := steps, state := state)
  }

  predicate BlankRun(runId: Option<string>) {
    runId.Some? && Blank(runId.value)
  }

  function StrippedRun(runId: Option<string>): Option<string> {
    if runId.Some? then Some(Strip(runId.value)) else None
  }

  predicate StepOp(op: PlanOp) {
    !op.Cancel? && !op.Revise?
  }

  /** What the operation puts in place of the step it names. */
  function Updated(s: Step, op: PlanOp): Step
    requires StepOp(op)
  {
    match op
    case Start(_, run) => Launched(s, run)
    case Retry(_, run) => Launched(s, run)
    case Complete(_, result, evidence) =>
      s.(state := Completed, resultRef := Some(Strip(result)), evidenceRefs := evidence, blocker := None,
         lastError := None)
    case Fail(_, error, evidence) => s.(state := Failed, evidenceRefs := evidence, lastError := Some(Strip(error)))
    case Block(_, blocker) => s.(state := Blocked, blocker := Some(Strip(blocker)))
    case Unblock(_) => s.(state := Pending, blocker := None)
  }

  function Launched(s: Step, runId: Option<string>): Step {
    s.(state := Running, attemptCount := s.attemptCount + 1, blocker := None, lastError := None,
       runId := StrippedRun(runId))
  }

  function StateAfter(steps: seq<Step>, op: PlanOp): PlanState
    requires StepOp(op)
  {
    match op
    case Complete(_, _, _) => if AllCompleted(steps) then PlanCompleted else Active
    case Fail(_, _, _) => PlanBlocked
    case Block(_, _) => PlanBlocked
    case _ => Active
  }

  function StepRefusal(steps: seq<Step>, s: Step, op: PlanOp): Option<PlanError>
    requires StepOp(op)
  {
    match op
    case Start(_, run) =>
      if !s.state.Pending? then Some(WrongStepState)
      else if !DependenciesDone(steps, s) then Some(DependenciesNotCompleted)
      else if s.attemptCount >= s.spec.maxAttempts then Some(AttemptsExhausted)
      else if BlankRun(run) then Some(BlankArgument)
      else None
    case Retry(_, run) =>
      if !s.state.Failed? then Some(WrongStepState)
      else if s.attemptCount >= s.spec.maxAttempts then Some(AttemptsExhausted)
      else if BlankRun(run) then Some(BlankArgument)
      else None
    case Complete(_, result, _) =>
      if !s.state.Running? then Some(WrongStepState) else if Blank(result) then Some(BlankArgument) else None
    case Fail(_, error, _) =>
      if !s.state.Running? then Some(WrongStepState) else if Blank(error) then Some(BlankArgument) else None
    case Block(_, blocker) =>
      if !s.state.Pending? && !s.state.Running? then Some(WrongStepState)
      else if Blank(blocker) then Some(BlankArgument) else None
    case Unblock(_) =>
      if !s.state.Blocked? then Some(WrongStepState) else None
  }

  function StepOutcome(plan: GoalPlan, op: PlanOp): Result<GoalPlan, PlanError>
    requires StepOp(op)
  {
    var found := FindStep(plan.steps, op.stepId);
    if op.Start? && !plan.state.Active? && !plan.state.PlanBlocked? then Err(WrongPlanState)
    else if found.None? then Err(StepNotFound)
    else
      match StepRefusal(plan.steps, found.value, op)
      case Some(error) => Err(error)
      case None =>
        var steps := Replaced(plan.steps, Updated(found.value, op));
        Ok(NextRevision(plan, steps, StateAfter(steps, op)))
  }

  function CancelOutcome(plan: GoalPlan, reason: string): Result<GoalPlan, PlanError> {
    if plan.Terminal() then Err(TerminalPlan)
    else if Blank(reason) then Err(BlankArgument)
    else Ok(NextRevision(plan, plan.steps, Cancelled))
  }

  ghost function Apply(plan: GoalPlan, op: PlanOp): Result<GoalPlan, PlanError> {
    match op
    case Cancel(reason) => CancelOutcome(plan, reason)
    case Revise(proposal) => RevisionOutcome(plan, proposal)
    case _ => StepOutcome(plan, op)
  }

  /** A refused call leaves the plan as it was. */
  ghost function After(plan: GoalPlan, op: PlanOp): GoalPlan {
    var next := Apply(plan, op);
    if next.Ok? then next.value else plan
  }

  /** A run of service calls. */
  ghost function Run(plan: GoalPlan, ops: seq<PlanOp>): GoalPlan
    decreases |ops|
  {
    if ops == [] then plan else Run(After(plan, ops[0]), ops[1..])
  }

  // ----- the scheduler -----

  /** The sort key `(-priority, ordinal, step_id)`. */
  predicate NoLaterThan(a: Step, b: Step) {
    || a.spec.priority > b.spec.priority
    || (a.spec.priority == b.spec.priority &&
        (a.ordinal < b.ordinal || (a.ordinal == b.ordinal && AtMost(a.Id(), b.Id()))))
  }

  predicate IsReady(steps: seq<Step>, s: Step) {
    s.state.Pending? && DependenciesDone(steps, s)
  }

  predicate Retryable(s: Step) {
    s.state.Failed? && s.attemptCount < s.spec.maxAttempts
  }

  function ReadySteps(plan: GoalPlan): seq<Step> {
    if !plan.state.Active? then []
    else Sort(Filter(plan.steps, s => IsReady(plan.steps, s)), NoLaterThan)
  }

  /** `min(...)` keeps the first of equal keys. */
  function First(steps: seq<Step>): (r: Step)
    requires steps != []
    ensures r in steps
  {
    if |steps| == 1 then steps[0]
    else
      var rest := First(steps[1..]);
      if NoLaterThan(steps[0], rest) then steps[0] else rest
  }

  function LowestOrdinal(steps: seq<Step>): (r: Step)
    requires steps != []
    ensures r in steps && forall s :: s in steps ==> r.ordinal <= s.ordinal
  {
    if |steps| == 1 then steps[0]
    else
      var rest := LowestOrdinal(steps[1..]);
      if steps[0].ordinal <= rest.ordinal then steps[0] else rest
  }

  /** A decision together with its reason; the two always go in these pairs. */
  datatype Decision =
    | Finished
    | StopPlan(state: PlanState)
    | WaitRunning(stepId: string)
    | StartStep(stepId: string)
    | RetryStep(stepId: string)
    | WaitBlocked
    | ReplanRequired
    | DependenciesNotReady

  function Decide(plan: GoalPlan): Decision {
    if plan.state.PlanCompleted? then Finished
    else if plan.state.Cancelled? || plan.state.Superseded? then StopPlan(plan.state)
    else
      var running := Filter(plan.steps, (s: Step) => s.state.Running?);
      var ready := ReadySteps(plan);
      var retryable := Filter(plan.steps, (s: Step) => Retryable(s));
      if running != [] then WaitRunning(LowestOrdinal(running).Id())
      else if ready != [] then StartStep(ready[0].Id())
      else if retryable != [] then RetryStep(First(retryable).Id())
      else if exists s :: s in plan.steps && s.state.Blocked? then WaitBlocked
      else if exists s :: s in plan.steps && s.state.Failed? then ReplanRequired
      else DependenciesNotReady
  }

  predicate Launches(d: Decision) {
    d.StartStep? || d.RetryStep?
  }

  /** The call that a start or retry decision asks for. */
  function LaunchOp(d: Decision, runId: Option<string>): (r: PlanOp)
    requires Launches(d)
    ensures StepOp(r) && r.stepId == d.stepId
  {
    if d.StartStep? then Start(d.stepId, runId) else Retry(d.stepId, runId)
  }
}

/** The plan service (planning/service.py): each call appends at most one revision. */
module PlanService {
  import opened Outcomes
  import opened Text
  import opened PlanModels
  import opened PlanCompiler
  import opened PlanStore
  import opened PlanTransitions

  class Service {
    const port: PlanPort

    constructor (port: PlanPort)
      ensures this.port == port
    {
      this.port := port;
    }

    /** The store after a call on `planId` whose outcome on the latest revision is `outcome`. */
    ghost function StoreAfter(plans: Histories, planId: string, outcome: Result<GoalPlan, PlanError>): Histories {
      if outcome.Ok? then plans[planId := HistoryIn(plans, planId) + [outcome.value]] else plans
    }

    ghost function OutcomeOf(plans: Histories, planId: string, op: PlanOp): Result<GoalPlan, PlanError> {
      match LatestIn(plans, planId)
      case None => Err(PlanNotFound)
      case Some(plan) => Apply(plan, op)
    }

    method AcceptProposal(proposal: PlanProposal, actor: string, reason: string)
      returns (r: Result<GoalPlan, PlanError>)
      requires port.Valid()
      modifies port
      ensures port.Valid()
      ensures r == if LatestIn(old(port.plans), proposal.planId).Some? then Err(PlanExists)
                   else if Blank(actor) || Blank(reason) then Err(BlankArgument)
                   else CompileOutcome(proposal)
      ensures port.plans == StoreAfter(old(port.plans), proposal.planId, r)
    {
      if port.Latest(proposal.planId).Some? {
        return Err(PlanExists);
      }
      if Blank(actor) || Blank(reason) {
        return Err(BlankArgument);
      }
      r := Compile(proposal);
      if r.Ok? {
        var stored := port.Append(r.value);
        assert stored.Ok?;
      }
    }

    method AcceptRevision(proposal: RevisionProposal, actor: string, reason: string)
      returns (r: Result<GoalPlan, PlanError>)
      requires port.Valid()
      modifies port
      ensures port.Valid()
      ensures var latest := LatestIn(old(port.plans), proposal.planId);
              r == if latest.None? then Err(PlanNotFound)
                   else if proposal.baseRevision != latest.value.revision then Err(StaleRevision)
                   else if Blank(actor) || Blank(reason) then Err(BlankArgument)
                   else Apply(latest.value, Revise(proposal))
      ensures port.plans == StoreAfter(old(port.plans), proposal.planId, r)
    {
      var current := port.Latest(proposal.planId);
      if current.None? {
        return Err(PlanNotFound);
      }
      if proposal.baseRevision != current.value.revision {
        return Err(StaleRevision);
      }
      if Blank(actor) || Blank(reason) {
        return Err(BlankArgument);
      }
      r := CompileRevision(current.value, proposal);
      if r.Ok? {
        var stored := port.Append(r.value);
        assert stored.Ok?;
      }
    }

    method StartStep(planId: string, stepId: string, runId: Option<string>) returns (r: Result<GoalPlan, PlanError>)
      requires port.Valid()
      modifies port
      ensures port.Valid()
      ensures r == OutcomeOf(old(port.plans), planId, Start(stepId, runId))
      ensures port.plans == StoreAfter(old(port.plans), planId, r)
    {
      hide FindStep, Replaced;
      var latest := port.Latest(planId);
      if latest.None? {
        return Err(PlanNotFound);
      }
      var plan := latest.value;
      if plan.state !in {Active, PlanBlocked} {
        return Err(WrongPlanState);
      }
      var found := FindStep(plan.steps, stepId);
      if found.None? {
        return Err(StepNotFound);
      }
      var step := found.value;
      if !step.state.Pending? {
        return Err(WrongStepState);
      }
      if !DependenciesDone(plan.steps, step) {
        return Err(DependenciesNotCompleted);
      }
      if step.attemptCount >= step.spec.maxAttempts {
        return Err(AttemptsExhausted);
      }
      if BlankRun(runId) {
        return Err(BlankArgument);
      }
      var updated := step.(state := Running, attemptCount := step.attemptCount + 1, blocker := None, lastError := None,
                           runId := StrippedRun(runId));
      r := ReplaceStep(plan, updated, Active);
    }

    method CompleteStep(planId: string, stepId: string, resultRef: string, evidence: seq<string>)
      returns (r: Result<GoalPlan, PlanError>)
      requires port.Valid()
      modifies port
      ensures port.Valid()
      ensures r == OutcomeOf(old(port.plans), planId, Complete(stepId, resultRef, evidence))
      ensures port.plans == StoreAfter(old(port.plans), planId, r)
    {
      var latest := port.Latest(planId);
      if latest.None? {
        return Err(PlanNotFound);
      }
      var plan := latest.value;
      var found := FindStep(plan.steps, stepId);
      if found.None? {
        return Err(StepNotFound);
      }
      if !found.value.state.Running? {
        return Err(WrongStepState);
      }
      if Blank(resultRef) {
        return Err(BlankArgument);
      }
      var updated := found.value.(state := Completed, resultRef := Some(Strip(resultRef)), evidenceRefs := evidence,
                                  blocker := None, lastError := None);
      var steps := Replaced(plan.steps, updated);
      r := AppendRevision(plan, steps, if AllCompleted(steps) then PlanCompleted else Active);
    }

    method FailStep(planId: string, stepId: string, error: string, evidence: seq<string>)
      returns (r: Result<GoalPlan, PlanError>)
      requires port.Valid()
      modifies port
      ensures port.Valid()
      ensures r == OutcomeOf(old(port.plans), planId, Fail(stepId, error, evidence))
      ensures port.plans == StoreAfter(old(port.plans), planId, r)
    {
      var latest := port.Latest(planId);
      if latest.None? {
        return Err(PlanNotFound);
      }
      var plan := latest.value;
      var found := FindStep(plan.steps, stepId);
      if found.None? {
        return Err(StepNotFound);
      }
      if !found.value.state.Running? {
        return Err(WrongStepState);
      }
      if Blank(error) {
        return Err(BlankArgument);
      }
      var updated := found.value.(state := Failed, evidenceRefs := evidence, lastError := Some(Strip(error)));
      r := ReplaceStep(plan, updated, PlanBlocked);
    }

    method RetryStep(planId: string, stepId: string, runId: Option<string>) returns (r: Result<GoalPlan, PlanError>)
      requires port.Valid()
      modifies port
      ensures port.Valid()
      ensures r == OutcomeOf(old(port.plans), planId, Retry(stepId, runId))
      ensures port.plans == StoreAfter(old(port.plans), planId, r)
    {
      hide FindStep, Replaced;
      var latest := port.Latest(planId);
      if latest.None? {
        return Err(PlanNotFound);
      }
      var plan := latest.value;
      var found := FindStep(plan.steps, stepId);
      if found.None? {
        return Err(StepNotFound);
      }
      var step := found.value;
      if !step.state.Failed? {
        return Err(WrongStepState);
      }
      if step.attemptCount >= step.spec.maxAttempts {
        return Err(AttemptsExhausted);
      }
      if BlankRun(runId) {
        return Err(BlankArgument);
      }
      var updated := step.(state := Running, attemptCount := step.attemptCount + 1, lastError := None, blocker := None,
                           runId := StrippedRun(runId));
      r := ReplaceStep(plan, updated, Active);
    }

    method BlockStep(planId: string, stepId: string, blocker: string) returns (r: Result<GoalPlan, PlanError>)
      requires port.Valid()
      modifies port
      ensures port.Valid()
      ensures r == OutcomeOf(old(port.plans), planId, Block(stepId, blocker))
      ensures port.plans == StoreAfter(old(port.plans), planId, r)
    {
      var latest := port.Latest(planId);
      if latest.None? {
        return Err(PlanNotFound);
      }
      var plan := latest.value;
      var found := FindStep(plan.steps, stepId);
      if found.None? {
        return Err(StepNotFound);
      }
      if found.value.state !in {Pending, Running} {
        return Err(WrongStepState);
      }
      if Blank(blocker) {
        return Err(BlankArgument);
      }
      r := ReplaceStep(plan, found.value.(state := Blocked, blocker := Some(Strip(blocker))), PlanBlocked);
    }

    method UnblockStep(planId: string, stepId: string) returns (r: Result<GoalPlan, PlanError>)
      requires port.Valid()
      modifies port
      ensures port.Valid()
      ensures r == OutcomeOf(old(port.plans), planId, Unblock(stepId))
      ensures port.plans == StoreAfter(old(port.plans), planId, r)
    {
      var latest := port.Latest(planId);
      if latest.None? {
        return Err(PlanNotFound);
      }
      var plan := latest.value;
      var found := FindStep(plan.steps, stepId);
      if found.None? {
        return Err(StepNotFound);
      }
      if !found.value.state.Blocked? {
        return Err(WrongStepState);
      }
      r := ReplaceStep(plan, found.value.(state := Pending, blocker := None), Active);
    }

    method CancelPlan(planId: string, reason: string) returns (r: Result<GoalPlan, PlanError>)
      requires port.Valid()
      modifies port
      ensures port.Valid()
      ensures r == OutcomeOf(old(port.plans), planId, Cancel(reason))
      ensures port.plans == StoreAfter(old(port.plans), planId, r)
    {
      var latest := port.Latest(planId);
      if latest.None? {
        return Err(PlanNotFound);
      }
      if latest.value.Terminal() {
        return Err(TerminalPlan);
      }
      if Blank(reason) {
        return Err(BlankArgument);
      }
      r := AppendRevision(latest.value, latest.value.steps, Cancelled);
    }

    /** `_replace_step` */
    method ReplaceStep(plan: GoalPlan, updated: Step, state: PlanState) returns (r: Result<GoalPlan, PlanError>)
      requires port.Valid() && port.Latest(plan.planId) == Some(plan)
      modifies port
      ensures port.Valid()
      ensures r == Ok(NextRevision(plan, Replaced(plan.steps, updated), state))
      ensures port.plans == StoreAfter(old(port.plans), plan.planId, r)
    {
      r := AppendRevision(plan, Replaced(plan.steps, updated), state);
    }

    /** `_append_revision`: the store never refuses the successor of its latest revision. */
    method AppendRevision(plan: GoalPlan, steps: seq<Step>, state: PlanState) returns (r: Result<GoalPlan, PlanError>)
      requires port.Valid() && port.Latest(plan.planId) == Some(plan)
      modifies port
      ensures port.Valid()
      ensures r == Ok(NextRevision(plan, steps, state))
      ensures port.plans == StoreAfter(old(port.plans), plan.planId, r)
    {
      var updated := GoalPlan(plan.planId, plan.goalId, plan.revision + 1, state, steps, plan.createdAt);
      var stored := port.Append(updated);
      assert stored.Ok?;
      return Ok(updated);
    }
  }
}
