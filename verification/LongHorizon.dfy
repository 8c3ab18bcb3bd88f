/** What the run controller and the plan/goal coordinator do, on the stores they share. */
module LongHorizonSpec {
  import opened Outcomes
  import opened Text
  import opened PlanModels
  import opened PlanStore
  import opened PlanTransitions
  import opened Goals
  import opened RunJournal

  datatype World = World(plans: Histories, goals: GoalTable, events: seq<RunEvent>, checkpoints: seq<Checkpoint>)

  datatype Failure =
    | PlanRefused(plan: PlanError)
    | GoalRefused(goal: GoalError)
    | BlankRunContext
    | CannotStart(decision: Decision)
    | OtherRun
    | RepeatedCheckpoint

  datatype Outcome<+T> = Outcome(world: World, result: Result<T, Failure>)

  /** The fresh id and the clock reading a new checkpoint gets. */
  datatype Stamp = Stamp(id: string, now: nat)

  datatype StepRun = StepRun(
    planId: string, revision: nat, goalId: string, stepId: string, runId: string, title: string, attempt: nat)

  function Fail<T>(w: World, f: Failure): Outcome<T> {
    Outcome(w, Err(f))
  }

  function Done(w: World): Outcome<()> {
    Outcome(w, Ok(()))
  }

  function Log(w: World, goalId: string, runId: string, kind: EventKind): Outcome<()> {
    if Blank(goalId) || Blank(runId) then Fail(w, BlankRunContext)
    else Done(w.(events := Appended(w.events, goalId, runId, kind)))
  }

  function WithGoal(w: World, r: Result<Goal, GoalError>): Outcome<()> {
    if r.Ok? then Done(w.(goals := Stored(w.goals, r))) else Fail(w, GoalRefused(r.error))
  }

  // ----- recovery/run_controller.py and the checkpoint it writes -----

  function WriteCheckpoint(w: World, goalId: string, runId: string, details: Details, stamp: Stamp): Outcome<()> {
    if goalId !in w.goals then Fail(w, GoalRefused(GoalMissing))
    else if Blank(goalId) || Blank(runId) then Fail(w, BlankRunContext)
    else
      var g, sequence := w.goals[goalId], LatestSequence(w.events, goalId, runId);
      var c :=
        Checkpoint(stamp.id, goalId, runId, sequence, stamp.now, g.state, g.nextAction, g.blockers, details);
      if HasCheckpoint(w.checkpoints, stamp.id) then Fail(w, RepeatedCheckpoint)
      else
        Log(w.(checkpoints := w.checkpoints + [c]), goalId, runId, CheckpointWritten(stamp.id, sequence))
  }

  function StartRun(w: World, goalId: string, runId: string): Outcome<()> {
    if goalId !in w.goals then Fail(w, GoalRefused(GoalMissing))
    else
      var g := w.goals[goalId];
      var moved :=
        if g.state.GoalPlanned? then WithGoal(w, TransitionIn(w.goals, goalId, GoalActive, None, g.nextAction))
        else if g.state.GoalActive? then Done(w)
        else Fail(w, GoalRefused(IllegalTransition));
      if moved.result.Err? || LatestSequence(moved.world.events, goalId, runId) != 0 then moved
      else Log(moved.world, goalId, runId, GoalStarted)
  }

  function BlockRun(
    w: World, goalId: string, runId: string, blocker: string, next: Option<string>, stamp: Stamp): Outcome<()>
  {
    if Blank(blocker) then Fail(w, GoalRefused(BlankText))
    else
      var value := [Strip(blocker)];
      var noted := WithGoal(w, ProgressIn(w.goals, goalId, None, next, Some(value)));
      if noted.result.Err? then noted
      else
        var g := noted.world.goals[goalId];
        var moved :=
          if g.state.GoalActive? then
            WithGoal(noted.world, TransitionIn(noted.world.goals, goalId, GoalBlocked, Some(value), next))
          else if g.state.GoalBlocked? then noted
          else Fail(noted.world, GoalRefused(IllegalTransition));
        if moved.result.Err? then moved
        else
          var logged := Log(moved.world, goalId, runId, BlockerDetected(Strip(blocker), next));
          if logged.result.Err? then logged else WriteCheckpoint(logged.world, goalId, runId, NO_DETAILS, stamp)
  }

  function UnblockRun(w: World, goalId: string, next: Option<string>): Outcome<()> {
    if goalId !in w.goals then Fail(w, GoalRefused(GoalMissing))
    else if !w.goals[goalId].state.GoalBlocked? then Fail(w, GoalRefused(IllegalTransition))
    else WithGoal(w, TransitionIn(w.goals, goalId, GoalActive, Some([]), next))
  }

  function CompleteRun(
    w: World, goalId: string, runId: string, work: Option<string>, refs: seq<string>, stamp: Stamp): Outcome<()>
  {
    if goalId !in w.goals then Fail(w, GoalRefused(GoalMissing))
    else
      var noted := if work.None? then Done(w) else WithGoal(w, ProgressIn(w.goals, goalId, work, None, None));
      if noted.result.Err? then noted
      else if !noted.world.goals[goalId].state.GoalActive? then Fail(noted.world, GoalRefused(IllegalTransition))
      else
        var moved := WithGoal(noted.world, TransitionIn(noted.world.goals, goalId, GoalCompleted, Some([]), None));
        if moved.result.Err? then moved
        else
          var logged := Log(moved.world, goalId, runId, GoalFinished(work));
          if logged.result.Err? then logged
          else WriteCheckpoint(logged.world, goalId, runId, Details(refs, map[]), stamp)
  }

  // ----- planning/execution.py -----

  function Binding(plan: GoalPlan, s: Step): StepRun {
    var run := if s.runId.Some? then s.runId.value else "";
    StepRun(plan.planId, plan.revision, plan.goalId, s.Id(), run, s.spec.title, s.attemptCount)
  }

  function StepAction(s: Step): string {
    if Blank(s.spec.description) then s.spec.title else Strip(s.spec.description)
  }

  function WithPlan(w: World, plan: GoalPlan): World {
    w.(plans := w.plans[plan.planId := HistoryIn(w.plans, plan.planId) + [plan]])
  }

  /** The goal side of starting a step: unblock it if need be, start the run, note the action. */
  function PrepareGoal(w: World, goalId: string, runId: string, action: string): Outcome<()>
    requires goalId in w.goals
  {
    var unblocked := if w.goals[goalId].state.GoalBlocked? then UnblockRun(w, goalId, Some(action)) else Done(w);
    if unblocked.result.Err? then unblocked
    else
      var started := StartRun(unblocked.world, goalId, runId);
      if started.result.Err? then started
      else WithGoal(started.world, ProgressIn(started.world.goals, goalId, None, Some(action), Some([])))
  }

  /** The plan side: apply the decided operation and journal the launch. */
  function LaunchStep(w: World, plan: GoalPlan, stepId: string, d: Decision, runId: string): Outcome<StepRun>
    requires Launches(d)
  {
    var updated := StepOutcome(plan, LaunchOp(d, Some(runId)));
    if updated.Err? then Fail(w, PlanRefused(updated.error))
    else
      var found := FindStep(updated.value.steps, stepId);
      if found.None? then Fail(WithPlan(w, updated.value), PlanRefused(StepNotFound))
      else
        var running := found.value;
        var logged := Log(WithPlan(w, updated.value), plan.goalId, runId,
                          StepPlanned(plan.planId, updated.value.revision, running.Id(), running.attemptCount));
        if logged.result.Err? then Fail(logged.world, logged.result.error)
        else Outcome(logged.world, Ok(Binding(updated.value, running)))
  }

  function StartNext(w: World, planId: string, runId: string): Outcome<StepRun> {
    match LatestIn(w.plans, planId)
    case None => Fail(w, PlanRefused(PlanNotFound))
    case Some(plan) =>
      var d := Decide(plan);
      if d.WaitRunning? then
        var s := FindStep(plan.steps, d.stepId);
        if s.None? then Fail(w, PlanRefused(StepNotFound))
        else if s.value.runId != Some(runId) then Fail(w, OtherRun)
        else Outcome(w, Ok(Binding(plan, s.value)))
      else if !Launches(d) then Fail(w, CannotStart(d))
      else
        var s := FindStep(plan.steps, d.stepId);
        if s.None? then Fail(w, PlanRefused(StepNotFound))
        else if plan.goalId !in w.goals then Fail(w, GoalRefused(GoalMissing))
        else
          var prepared := PrepareGoal(w, plan.goalId, runId, StepAction(s.value));
          if prepared.result.Err? then Fail(prepared.world, prepared.result.error)
          else LaunchStep(prepared.world, plan, s.value.Id(), d, runId)
  }

  /** The step a report is about, if it is bound to the reporting run. */
  function BoundStep(w: World, planId: string, stepId: string, runId: string): Result<(GoalPlan, Step), Failure> {
    match LatestIn(w.plans, planId)
    case None => Err(PlanRefused(PlanNotFound))
    case Some(plan) =>
      var s := FindStep(plan.steps, stepId);
      if s.None? then Err(PlanRefused(StepNotFound))
      else if s.value.runId != Some(runId) then Err(OtherRun)
      else Ok((plan, s.value))
  }

  function NextAction(plan: GoalPlan): Option<string> {
    var d := Decide(plan);
    if !d.WaitRunning? && !Launches(d) then None
    else
      match FindStep(plan.steps, d.stepId)
      case None => None
      case Some(s) => Some(StepAction(s))
  }

  /** What a checkpoint after a completed step says about it. */
  function StepDetails(planId: string, revision: nat, stepId: string): Details {
    Details([], map["plan_id" := TextOf(planId), "plan_revision" := NumberOf(revision),
                    "completed_step_id" := TextOf(stepId)])
  }

  /** What follows a journaled completion: the end of the run with the plan's last step, else progress on the goal. */
  function AfterCompletion(
    w: World, planId: string, stepId: string, runId: string, title: string, updated: GoalPlan,
    stamp: Stamp): Outcome<()>
  {
    if updated.state.PlanCompleted? then
      var finished := Log(w, updated.goalId, runId, PlanFinished(planId, updated.revision));
      if finished.result.Err? then finished
      else CompleteRun(finished.world, updated.goalId, runId, Some(title), [], stamp)
    else
      var noted :=
        WithGoal(w, ProgressIn(w.goals, updated.goalId, Some(title), NextAction(updated), Some([])));
      if noted.result.Err? then noted
      else WriteCheckpoint(noted.world, updated.goalId, runId, StepDetails(planId, updated.revision, stepId), stamp)
  }

  function CompleteStep(
    w: World, planId: string, stepId: string, runId: string, resultRef: string, evidence: seq<string>,
    stamp: Stamp): Outcome<()>
  {
    match BoundStep(w, planId, stepId, runId)
    case Err(f) => Fail(w, f)
    case Ok((plan, s)) =>
      var r := StepOutcome(plan, Complete(stepId, resultRef, evidence));
      if r.Err? then Fail(w, PlanRefused(r.error))
      else
        var updated := r.value;
        var logged :=
          Log(WithPlan(w, updated), plan.goalId, runId,
              StepCompleted(planId, updated.revision, stepId, resultRef, evidence));
        if logged.result.Err? then logged
        else AfterCompletion(logged.world, planId, stepId, runId, s.spec.title, updated, stamp)
  }

  function FailAction(plan: GoalPlan, stepId: string): string {
    (if Decide(plan).RetryStep? then "retry plan step " else "replan after failed step ") + stepId
  }

  function FailStep(
    w: World, planId: string, stepId: string, runId: string, error: string, evidence: seq<string>,
    stamp: Stamp): Outcome<()>
  {
    match BoundStep(w, planId, stepId, runId)
    case Err(f) => Fail(w, f)
    case Ok((plan, s)) =>
      var r := StepOutcome(plan, PlanOp.Fail(stepId, error, evidence));
      if r.Err? then Fail(w, PlanRefused(r.error))
      else
        var updated := r.value;
        var logged :=
          Log(WithPlan(w, updated), plan.goalId, runId, StepFailed(planId, updated.revision, stepId, error, evidence));
        if logged.result.Err? then logged
        else BlockRun(logged.world, plan.goalId, runId, error, Some(FailAction(updated, stepId)), stamp)
  }
}

/** The run controller and the coordinator as the source has them: services over shared ports. */
module LongHorizon {
  import opened Outcomes
  import opened Text
  import opened PlanModels
  import opened PlanStore
  import opened PlanTransitions
  import PlanService
  import opened Goals
  import opened RunJournal
  import Spec = LongHorizonSpec

  class RunController {
    const goals: GoalService
    const journal: JournalPort
    const checkpoints: CheckpointPort

    constructor (goals: GoalService, journal: JournalPort, checkpoints: CheckpointPort)
      ensures this.goals == goals && this.journal == journal && this.checkpoints == checkpoints
    {
      this.goals, this.journal, this.checkpoints := goals, journal, checkpoints;
    }

    ghost predicate Valid()
      reads goals
    {
      goals.Valid()
    }

    /** The stores as a value; `plans` is not the controller's to change. */
    ghost function Now(plans: Histories): Spec.World
      reads goals, journal, checkpoints
    {
      Spec.World(plans, goals.goals, journal.events, checkpoints.items)
    }

    method Log(goalId: string, runId: string, kind: EventKind, ghost plans: Histories)
      returns (r: Result<(), Spec.Failure>)
      modifies journal
      ensures Spec.Outcome(Now(plans), r) == Spec.Log(old(Now(plans)), goalId, runId, kind)
    {
      var ok := journal.Append(goalId, runId, kind);
      return if ok then Ok(()) else Err(Spec.BlankRunContext);
    }

    method WriteCheckpoint(
      goalId: string, runId: string, details: Details, stamp: Spec.Stamp, ghost plans: Histories)
      returns (r: Result<(), Spec.Failure>)
      requires Valid()
      modifies journal, checkpoints
      ensures Valid() && Spec.Outcome(Now(plans), r) ==
                         Spec.WriteCheckpoint(old(Now(plans)), goalId, runId, details, stamp)
    {
      if goalId !in goals.goals {
        return Err(Spec.GoalRefused(GoalMissing));
      }
      if Blank(goalId) || Blank(runId) {
        return Err(Spec.BlankRunContext);
      }
      var goal := goals.goals[goalId];
      var sequence := LatestSequence(journal.events, goalId, runId);
      var c := Checkpoint(stamp.id, goalId, runId, sequence, stamp.now, goal.state, goal.nextAction, goal.blockers,
                          details);
      var ok := checkpoints.Put(c);
      if !ok {
        return Err(Spec.RepeatedCheckpoint);
      }
      r := Log(goalId, runId, CheckpointWritten(stamp.id, sequence), plans);
    }

    method Start(goalId: string, runId: string, ghost plans: Histories) returns (r: Result<(), Spec.Failure>)
      requires Valid()
      modifies goals, journal
      ensures Valid() && Spec.Outcome(Now(plans), r) == Spec.StartRun(old(Now(plans)), goalId, runId)
    {
      if goalId !in goals.goals {
        return Err(Spec.GoalRefused(GoalMissing));
      }
      var goal := goals.goals[goalId];
      if goal.state.GoalPlanned? {
        var moved := goals.Transition(goalId, GoalActive, None, goal.nextAction);
        if moved.Err? {
          return Err(Spec.GoalRefused(moved.error));
        }
      } else if !goal.state.GoalActive? {
        return Err(Spec.GoalRefused(IllegalTransition));
      }
      if LatestSequence(journal.events, goalId, runId) == 0 {
        r := Log(goalId, runId, GoalStarted, plans);
      } else {
        r := Ok(());
      }
    }

    method Block(
      goalId: string, runId: string, blocker: string, next: Option<string>, stamp: Spec.Stamp, ghost plans: Histories)
      returns (r: Result<(), Spec.Failure>)
      requires Valid()
      modifies goals, journal, checkpoints
      ensures Valid() &&
                Spec.Outcome(Now(plans), r) == Spec.BlockRun(old(Now(plans)), goalId, runId, blocker, next, stamp)
    {
      if Blank(blocker) {
        return Err(Spec.GoalRefused(BlankText));
      }
      var value := Strip(blocker);
      var goal := goals.RecordProgress(goalId, None, next, Some([value]));
      if goal.Err? {
        return Err(Spec.GoalRefused(goal.error));
      }
      if goal.value.state.GoalActive? {
        var moved := goals.Transition(goalId, GoalBlocked, Some([value]), next);
        if moved.Err? {
          return Err(Spec.GoalRefused(moved.error));
        }
      } else if !goal.value.state.GoalBlocked? {
        return Err(Spec.GoalRefused(IllegalTransition));
      }
      r := Log(goalId, runId, BlockerDetected(value, next), plans);
      if r.Ok? {
        r := WriteCheckpoint(goalId, runId, NO_DETAILS, stamp, plans);
      }
    }

    method Unblock(goalId: string, next: Option<string>, ghost plans: Histories) returns (r: Result<(), Spec.Failure>)
      requires Valid()
      modifies goals
      ensures Valid() && Spec.Outcome(Now(plans), r) == Spec.UnblockRun(old(Now(plans)), goalId, next)
    {
      if goalId !in goals.goals {
        return Err(Spec.GoalRefused(GoalMissing));
      }
      if !goals.goals[goalId].state.GoalBlocked? {
        return Err(Spec.GoalRefused(IllegalTransition));
      }
      var moved := goals.Transition(goalId, GoalActive, Some([]), next);
      return if moved.Ok? then Ok(()) else Err(Spec.GoalRefused(moved.error));
    }

    method Complete(
      goalId: string, runId: string, work: Option<string>, refs: seq<string>, stamp: Spec.Stamp,
      ghost plans: Histories)
      returns (r: Result<(), Spec.Failure>)
      requires Valid()
      modifies goals, journal, checkpoints
      ensures Valid() && Spec.Outcome(Now(plans), r) ==
                         Spec.CompleteRun(old(Now(plans)), goalId, runId, work, refs, stamp)
    {
      if goalId !in goals.goals {
        return Err(Spec.GoalRefused(GoalMissing));
      }
      if work.Some? {
        var noted := goals.RecordProgress(goalId, work, None, None);
        if noted.Err? {
          return Err(Spec.GoalRefused(noted.error));
        }
      }
      if !goals.goals[goalId].state.GoalActive? {
        return Err(Spec.GoalRefused(IllegalTransition));
      }
      var moved := goals.Transition(goalId, GoalCompleted, Some([]), None);
      if moved.Err? {
        return Err(Spec.GoalRefused(moved.error));
      }
      r := Log(goalId, runId, GoalFinished(work), plans);
      if r.Ok? {
        r := WriteCheckpoint(goalId, runId, Details(refs, map[]), stamp, plans);
      }
    }
  }

  class Coordinator {
    const plans: PlanService.Service
    const recovery: RunController

    constructor (plans: PlanService.Service, recovery: RunController)
      ensures this.plans == plans && this.recovery == recovery
    {
      this.plans, this.recovery := plans, recovery;
    }

    ghost predicate Valid()
      reads plans.port, recovery.goals
    {
      plans.port.Valid() && recovery.Valid()
    }

    ghost function Now(): Spec.World
      reads plans.port, recovery.goals, recovery.journal, recovery.checkpoints
    {
      recovery.Now(plans.port.plans)
    }

    /** What the plan service stores for a step operation, in terms of the world. */
    lemma StepStored(w: Spec.World, plan: GoalPlan, op: PlanOp)
      requires LatestIn(w.plans, plan.planId) == Some(plan) && StepOp(op)
      ensures var r := StepOutcome(plan, op);
              && plans.OutcomeOf(w.plans, plan.planId, op) == r
              && (r.Ok? ==> r.value.planId == plan.planId && r.value.goalId == plan.goalId)
              && (r.Ok? ==> w.(plans := plans.StoreAfter(w.plans, plan.planId, r)) == Spec.WithPlan(w, r.value))
              && (r.Err? ==> plans.StoreAfter(w.plans, plan.planId, r) == w.plans)
    {
      hide FindStep, Replaced, StepRefusal, StateAfter, HistoryIn;
    }

    method StartNext(planId: string, runId: string) returns (r: Result<Spec.StepRun, Spec.Failure>)
      requires Valid()
      modifies plans.port, recovery.goals, recovery.journal
      ensures Valid() && Spec.Outcome(Now(), r) == Spec.StartNext(old(Now()), planId, runId)
    {
      var latest := plans.port.Latest(planId);
      if latest.None? {
        return Err(Spec.PlanRefused(PlanNotFound));
      }
      var plan := latest.value;
      var decision := Decide(plan);
      if decision.WaitRunning? {
        var running := FindStep(plan.steps, decision.stepId);
        if running.None? {
          return Err(Spec.PlanRefused(StepNotFound));
        }
        if running.value.runId != Some(runId) {
          return Err(Spec.OtherRun);
        }
        return Ok(Spec.Binding(plan, running.value));
      }
      if !Launches(decision) {
        return Err(Spec.CannotStart(decision));
      }
      var step := FindStep(plan.steps, decision.stepId);
      if step.None? {
        return Err(Spec.PlanRefused(StepNotFound));
      }
      if plan.goalId !in recovery.goals.goals {
        return Err(Spec.GoalRefused(GoalMissing));
      }
      var prepared := PrepareGoal(plan.goalId, runId, Spec.StepAction(step.value));
      if prepared.Err? {
        return Err(prepared.error);
      }
      r := LaunchStep(plan, step.value.Id(), decision, runId);
    }

    method PrepareGoal(goalId: string, runId: string, action: string) returns (r: Result<(), Spec.Failure>)
      requires Valid() && goalId in recovery.goals.goals
      modifies recovery.goals, recovery.journal
      ensures Valid() && Spec.Outcome(Now(), r) == Spec.PrepareGoal(old(Now()), goalId, runId, action)
    {
      if recovery.goals.goals[goalId].state.GoalBlocked? {
        r := recovery.Unblock(goalId, Some(action), plans.port.plans);
        if r.Err? {
          return;
        }
      }
      r := recovery.Start(goalId, runId, plans.port.plans);
      if r.Err? {
        return;
      }
      var noted := recovery.goals.RecordProgress(goalId, None, Some(action), Some([]));
      return if noted.Ok? then Ok(()) else Err(Spec.GoalRefused(noted.error));
    }

    method LaunchStep(plan: GoalPlan, stepId: string, decision: Decision, runId: string)
      returns (r: Result<Spec.StepRun, Spec.Failure>)
      requires Valid() && plans.port.Latest(plan.planId) == Some(plan)
      requires Launches(decision)
      modifies plans.port, recovery.journal
      ensures Valid() && Spec.Outcome(Now(), r) == Spec.LaunchStep(old(Now()), plan, stepId, decision, runId)
    {
      hide FindStep, StepOutcome, PlanService.Service.OutcomeOf, PlanService.Service.StoreAfter;
      StepStored(Now(), plan, LaunchOp(decision, Some(runId)));
      var updated;
      if decision.StartStep? {
        updated := plans.StartStep(plan.planId, decision.stepId, Some(runId));
      } else {
        updated := plans.RetryStep(plan.planId, decision.stepId, Some(runId));
      }
      if updated.Err? {
        return Err(Spec.PlanRefused(updated.error));
      }
      var running := FindStep(updated.value.steps, stepId);
      if running.None? {
        return Err(Spec.PlanRefused(StepNotFound));
      }
      var logged := recovery.Log(plan.goalId, runId,
                                 StepPlanned(plan.planId, updated.value.revision, running.value.Id(),
                                             running.value.attemptCount),
                                 plans.port.plans);
      return if logged.Ok? then Ok(Spec.Binding(updated.value, running.value)) else Err(logged.error);
    }

    method CompleteStep(
      planId: string, stepId: string, runId: string, resultRef: string, evidence: seq<string>, stamp: Spec.Stamp)
      returns (r: Result<(), Spec.Failure>)
      requires Valid()
      modifies plans.port, recovery.goals, recovery.journal, recovery.checkpoints
      ensures Valid() &&
                Spec.Outcome(Now(), r) ==
                Spec.CompleteStep(old(Now()), planId, stepId, runId, resultRef, evidence, stamp)
    {
      hide FindStep, StepOutcome;
      var latest := plans.port.Latest(planId);
      if latest.None? {
        return Err(Spec.PlanRefused(PlanNotFound));
      }
      var plan := latest.value;
      var step := FindStep(plan.steps, stepId);
      if step.None? {
        return Err(Spec.PlanRefused(StepNotFound));
      }
      if step.value.runId != Some(runId) {
        return Err(Spec.OtherRun);
      }
      StepStored(Now(), plan, Complete(stepId, resultRef, evidence));
      var updated := plans.CompleteStep(planId, stepId, resultRef, evidence);
      if updated.Err? {
        return Err(Spec.PlanRefused(updated.error));
      }
      r := recovery.Log(plan.goalId, runId, StepCompleted(planId, updated.value.revision, stepId, resultRef, evidence),
                        plans.port.plans);
      if r.Err? {
        return;
      }
      r := Advance(planId, stepId, runId, step.value.spec.title, updated.value, stamp);
    }

    method Advance(
      planId: string, stepId: string, runId: string, title: string, updated: GoalPlan, stamp: Spec.Stamp)
      returns (r: Result<(), Spec.Failure>)
      requires Valid()
      modifies recovery.goals, recovery.journal, recovery.checkpoints
      ensures Valid() && Spec.Outcome(Now(), r) ==
                         Spec.AfterCompletion(old(Now()), planId, stepId, runId, title, updated, stamp)
    {
      if updated.state.PlanCompleted? {
        r := recovery.Log(updated.goalId, runId, PlanFinished(planId, updated.revision), plans.port.plans);
        if r.Ok? {
          r := recovery.Complete(updated.goalId, runId, Some(title), [], stamp, plans.port.plans);
        }
        return;
      }
      var noted := recovery.goals.RecordProgress(updated.goalId, Some(title), Spec.NextAction(updated), Some([]));
      if noted.Err? {
        return Err(Spec.GoalRefused(noted.error));
      }
      r := recovery.WriteCheckpoint(updated.goalId, runId, Spec.StepDetails(planId, updated.revision, stepId), stamp,
                                    plans.port.plans);
    }

    method FailStep(
      planId: string, stepId: string, runId: string, error: string, evidence: seq<string>, stamp: Spec.Stamp)
      returns (r: Result<(), Spec.Failure>)
      requires Valid()
      modifies plans.port, recovery.goals, recovery.journal, recovery.checkpoints
      ensures Valid() &&
                Spec.Outcome(Now(), r) == Spec.FailStep(old(Now()), planId, stepId, runId, error, evidence, stamp)
    {
      hide FindStep, StepOutcome;
      var latest := plans.port.Latest(planId);
      if latest.None? {
        return Err(Spec.PlanRefused(PlanNotFound));
      }
      var plan := latest.value;
      var step := FindStep(plan.steps, stepId);
      if step.None? {
        return Err(Spec.PlanRefused(StepNotFound));
      }
      if step.value.runId != Some(runId) {
        return Err(Spec.OtherRun);
      }
      StepStored(Now(), plan, PlanOp.Fail(stepId, error, evidence));
      var updated := plans.FailStep(planId, stepId, error, evidence);
      if updated.Err? {
        return Err(Spec.PlanRefused(updated.error));
      }
      r := recovery.Log(plan.goalId, runId, StepFailed(planId, updated.value.revision, stepId, error, evidence),
                        plans.port.plans);
      if r.Ok? {
        r := recovery.Block(plan.goalId, runId, error, Some(Spec.FailAction(updated.value, stepId)), stamp,
                            plans.port.plans);
      }
    }
  }
}
