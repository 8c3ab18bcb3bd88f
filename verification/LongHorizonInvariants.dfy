/** Plan, goal and journal stay in step over every run of the coordinator on one plan. */
module LongHorizonInvariants {
  import opened Outcomes
  import opened Sequences
  import opened Text
  import opened PlanModels
  import opened PlanCompiler
  import opened PlanStore
  import opened PlanTransitions
  import opened PlanInvariants
  import opened PlanHistory
  import opened PlanScheduling
  import opened Goals
  import opened RunJournal
  import opened LongHorizonSpec

  datatype CoordOp =
    | StartNextStep(runId: string)
    | ReportCompleted(stepId: string, runId: string, resultRef: string, evidence: seq<string>, stamp: Stamp)
    | ReportFailed(stepId: string, runId: string, error: string, evidence: seq<string>, stamp: Stamp)
    | AcceptRevision(proposal: RevisionProposal)

  /** A proposal is as its constructor leaves it. */
  predicate Constructed(op: CoordOp) {
    op.AcceptRevision? ==> op.proposal.Valid()
  }

  /** The world after a call on the plan; revisions go straight to the plan service. */
  ghost function Act(w: World, planId: string, op: CoordOp): World {
    match op
    case StartNextStep(run) => StartNext(w, planId, run).world
    case ReportCompleted(step, run, result, evidence, stamp) =>
      CompleteStep(w, planId, step, run, result, evidence, stamp).world
    case ReportFailed(step, run, error, evidence, stamp) =>
      FailStep(w, planId, step, run, error, evidence, stamp).world
    case AcceptRevision(proposal) =>
      match LatestIn(w.plans, planId)
      case None => w
      case Some(plan) =>
        var r := RevisionOutcome(plan, proposal);
        if r.Ok? then WithPlan(w, r.value) else w
  }

  predicate Engaged(s: Step) {
    s.state.Running? || s.state.Failed?
  }

  /** The plan-side facts a coordinator run maintains. */
  ghost predicate PlanInStep(plan: GoalPlan) {
    && WellKept(plan)
    && !plan.state.Cancelled?
    && (forall s :: s in plan.steps ==> !s.state.Blocked?)
    && (forall s, t :: s in plan.steps && t in plan.steps && Engaged(s) && Engaged(t) ==> s.Id() == t.Id())
    && (forall s :: s in plan.steps && s.state.Pending? ==> s.attemptCount == 0)
    && (plan.state.Active? ==> forall s :: s in plan.steps ==> !s.state.Failed?)
    && (plan.state.PlanBlocked? ==> forall s :: s in plan.steps ==> !s.state.Running?)
  }

  /** The goal's state agrees with the plan's. */
  predicate GoalInStep(plan: GoalPlan, g: Goal) {
    && !g.state.GoalCancelled? && !BlankAction(g.nextAction)
    && (plan.state.PlanCompleted? <==> g.state.GoalCompleted?)
    && (plan.state.PlanBlocked? ==> g.state.GoalBlocked?)
    && ((exists s :: s in plan.steps && s.state.Running?) ==> g.state.GoalActive?)
  }

  /** The event of a launch: its run is the step's, up to stripping. */
  predicate LaunchEvent(e: RunEvent, plan: GoalPlan, s: Step) {
    && s.runId == Some(Strip(e.runId)) && !Blank(e.runId) && e.goalId == plan.goalId
    && e.kind.StepPlanned? && e.kind.planId == plan.planId && e.kind.stepId == s.Id()
    && e.kind.attempt == s.attemptCount
  }

  predicate ResultEvent(e: RunEvent, planId: string, s: Step) {
    && e.kind.StepCompleted? && e.kind.planId == planId && e.kind.stepId == s.Id()
    && s.resultRef == Some(Strip(e.kind.resultRef)) && e.kind.evidence == s.evidenceRefs
  }

  ghost predicate LaunchRecorded(events: seq<RunEvent>, plan: GoalPlan, s: Step) {
    exists e :: e in events && LaunchEvent(e, plan, s)
  }

  ghost predicate ResultRecorded(events: seq<RunEvent>, planId: string, s: Step) {
    exists e :: e in events && ResultEvent(e, planId, s)
  }

  /** A running step's launch and a completed step's result are in the journal. */
  ghost predicate Journaled(events: seq<RunEvent>, plan: GoalPlan) {
    && (forall s :: s in plan.steps && s.state.Running? ==> LaunchRecorded(events, plan, s))
    && (forall s :: s in plan.steps && s.state.Completed? ==> ResultRecorded(events, plan.planId, s))
  }

  ghost predicate InStep(w: World, planId: string, goalId: string) {
    && Sound(w.plans) && Keyed(w.goals)
    && !Blank(goalId)
    && planId in w.plans && goalId in w.goals
    && var plan := LatestIn(w.plans, planId).value;
       plan.goalId == goalId && PlanInStep(plan) && GoalInStep(plan, w.goals[goalId]) && Journaled(w.events, plan)
  }

  // ----- the goal side -----

  /** `v` is `w` with other journal events and checkpoints appended, and `g` in place of the goal. */
  ghost predicate GoalMoved(w: World, v: World, goalId: string, g: Goal) {
    && v.plans == w.plans && v.goals == w.goals[goalId := g]
    && w.events <= v.events && w.checkpoints <= v.checkpoints
  }

  ghost predicate Open(w: World, goalId: string, runId: string) {
    Keyed(w.goals) && goalId in w.goals && !Blank(goalId) && !Blank(runId) && !BlankAction(w.goals[goalId].nextAction)
  }

  /** A goal that is planned, active or blocked ends up active with the step's action noted. */
  lemma PrepareGoalSucceeds(w: World, goalId: string, runId: string, action: string)
    requires Open(w, goalId, runId) && !Blank(action) && !w.goals[goalId].Terminal()
    ensures var o := PrepareGoal(w, goalId, runId, action);
            && o.result.Ok?
            && GoalMoved(w, o.world, goalId,
                         w.goals[goalId].(state := GoalActive, blockers := [], nextAction := Some(action)))
  {
    hide WriteCheckpoint, StripLeft, StripRight, Blank, Strip, NextEvent, LatestSequence;
  }

  /** A checkpoint, written or refused, leaves goals and plans alone. */
  lemma CheckpointMoves(w: World, goalId: string, runId: string, details: Details, stamp: Stamp)
    requires Open(w, goalId, runId)
    ensures GoalMoved(w, WriteCheckpoint(w, goalId, runId, details, stamp).world, goalId, w.goals[goalId])
  {
  }

  lemma BlockRunMoves(w: World, goalId: string, runId: string, blocker: string, next: string, stamp: Stamp)
    requires Open(w, goalId, runId) && !Blank(blocker) && !Blank(next) && w.goals[goalId].state.GoalActive?
    ensures var o := BlockRun(w, goalId, runId, blocker, Some(next), stamp);
            GoalMoved(w, o.world, goalId,
                      w.goals[goalId].(state := GoalBlocked, blockers := [Strip(blocker)], nextAction := Some(next)))
  {
    hide Blank, Strip, NextEvent, LatestSequence, WriteCheckpoint;
    var value := [Strip(blocker)];
    var noted := WithGoal(w, ProgressIn(w.goals, goalId, None, Some(next), Some(value))).world;
    var moved := WithGoal(noted, TransitionIn(noted.goals, goalId, GoalBlocked, Some(value), Some(next))).world;
    var logged := Log(moved, goalId, runId, BlockerDetected(Strip(blocker), Some(next))).world;
    CheckpointMoves(logged, goalId, runId, NO_DETAILS, stamp);
    assert logged.goals ==
           w.goals[goalId := w.goals[goalId].(state := GoalBlocked, blockers := value, nextAction := Some(next))];
  }

  lemma CompleteRunMoves(w: World, goalId: string, runId: string, work: string, stamp: Stamp)
    requires Open(w, goalId, runId) && !Blank(work) && w.goals[goalId].state.GoalActive?
    ensures var o := CompleteRun(w, goalId, runId, Some(work), [], stamp);
            GoalMoved(w, o.world, goalId,
                      w.goals[goalId].(state := GoalCompleted, blockers := [], nextAction := None,
                                       completedWork := w.goals[goalId].completedWork + [Strip(work)]))
  {
    hide Blank, Strip, NextEvent, LatestSequence, WriteCheckpoint;
    var g := w.goals[goalId];
    var noted := WithGoal(w, ProgressIn(w.goals, goalId, Some(work), None, None)).world;
    var moved := WithGoal(noted, TransitionIn(noted.goals, goalId, GoalCompleted, Some([]), None)).world;
    var logged := Log(moved, goalId, runId, GoalFinished(Some(work))).world;
    CheckpointMoves(logged, goalId, runId, Details([], map[]), stamp);
    assert logged.goals == w.goals[goalId := g.(state := GoalCompleted, blockers := [], nextAction := None,
                                                completedWork := g.completedWork + [Strip(work)])];
  }

  // ----- the plan side -----

  lemma LaunchKeepsPlanInStep(plan: GoalPlan, d: Decision, runId: string) returns (s: Step, next: GoalPlan)
    requires PlanInStep(plan) && d == Decide(plan) && Launches(d) && !Blank(runId)
    ensures StepOutcome(plan, LaunchOp(d, Some(runId))) == Ok(next) && Successor(plan, next)
    ensures s in plan.steps && s.Id() == d.stepId && FindStep(plan.steps, s.Id()) == Some(s)
    ensures s.state.Pending? || s.state.Failed?
    ensures var running := Launched(s, Some(runId));
            && PlanInStep(next) && next.state.Active?
            && next.steps == Replaced(plan.steps, running) && running in next.steps
            && running.runId == Some(Strip(runId))
  {
    hide WellKept, PlanInStep, StepOutcome, Decide, StepRefusal, StateAfter;
    s := DecidedStep(plan, d, runId);
    var op := LaunchOp(d, Some(runId));
    next := NextRevision(plan, Replaced(plan.steps, Launched(s, Some(runId))), Active);
    PlanInStepKept(plan);
    StepOpKeepsWellKept(plan, op);
    ReplacedMembers(plan.steps, Launched(s, Some(runId)));
    LaunchedInStep(plan, s, next, runId);
  }

  lemma PlanInStepKept(plan: GoalPlan)
    requires PlanInStep(plan)
    ensures WellKept(plan)
  {
  }

  lemma DecidedStep(plan: GoalPlan, d: Decision, runId: string) returns (s: Step)
    requires PlanInStep(plan) && d == Decide(plan) && Launches(d) && !Blank(runId)
    ensures FindStep(plan.steps, d.stepId) == Some(s)
    ensures Apply(plan, LaunchOp(d, Some(runId))) ==
              Ok(NextRevision(plan, Replaced(plan.steps, Launched(s, Some(runId))), Active))
    ensures NoneRunning(plan)
    ensures if d.StartStep? then plan.state.Active? && s.state.Pending? else s.state.Failed?
  {
    if d.StartStep? {
      s := DecidedStartAcceptedIff(plan, Some(runId));
      assert s.spec.maxAttempts > 0 by { assert StepSound(plan.steps, s); }
    } else {
      s := DecidedRetryAccepted(plan, Some(runId));
    }
  }

  lemma LaunchedInStep(plan: GoalPlan, s: Step, next: GoalPlan, runId: string)
    requires PlanInStep(plan) && WellKept(next) && NoneRunning(plan)
    requires s in plan.steps && (s.state.Failed? || (s.state.Pending? && plan.state.Active?))
    requires next.steps == Replaced(plan.steps, Launched(s, Some(runId))) && next.state.Active?
    ensures PlanInStep(next)
  {
    hide WellKept, StepSound;
    ReplacedMembers(plan.steps, Launched(s, Some(runId)));
  }

  /** The only engaged step ends: afterwards nothing runs, and it alone may have failed. */
  lemma ReportKeepsPlanInStep(plan: GoalPlan, s: Step, op: PlanOp)
    requires PlanInStep(plan) && (op.Complete? || op.Fail?) && StepOutcome(plan, op).Ok?
    requires FindStep(plan.steps, op.stepId) == Some(s)
    ensures var next := StepOutcome(plan, op).value;
            && PlanInStep(next) && NoneRunning(next) && Successor(plan, next)
            && next.steps == Replaced(plan.steps, Updated(s, op)) && Updated(s, op) in next.steps
            && (op.Fail? ==> next.state.PlanBlocked?) && (op.Complete? ==> !next.state.PlanBlocked?)
    ensures s.state.Running? && s in plan.steps
  {
    hide WellKept;
    StepOpKeepsWellKept(plan, op);
    ReplacedMembers(plan.steps, Updated(s, op));
    ReportedInStep(plan, s, Updated(s, op), StepOutcome(plan, op).value);
  }

  lemma ReportedInStep(plan: GoalPlan, s: Step, ended: Step, next: GoalPlan)
    requires PlanInStep(plan) && WellKept(next) && s in plan.steps && s.state.Running? && ended.Id() == s.Id()
    requires ended.state.Completed? || ended.state.Failed?
    requires next.steps == Replaced(plan.steps, ended) &&
               (next.state.Active? || next.state.PlanBlocked? || next.state.PlanCompleted?)
    requires next.state.Active? ==> ended.state.Completed?
    ensures PlanInStep(next) && NoneRunning(next)
  {
    hide StepSound;
    ReplacedMembers(plan.steps, ended);
  }

  /** What a journal records stays recorded, and a launch or completion records itself. */
  lemma JournaledReplaced(
    events: seq<RunEvent>, more: seq<RunEvent>, plan: GoalPlan, next: GoalPlan, updated: Step, e: RunEvent)
    requires Journaled(events, plan) && events <= more && next.planId == plan.planId && next.goalId == plan.goalId
    requires next.steps == Replaced(plan.steps, updated)
    requires e in more
    requires updated.state.Running? ==> LaunchEvent(e, plan, updated)
    requires updated.state.Completed? ==> ResultEvent(e, plan.planId, updated)
    ensures Journaled(more, next)
  {
    ReplacedMembers(plan.steps, updated);
    if updated.state.Running? {
      assert LaunchEvent(e, next, updated);
    }
    if updated.state.Completed? {
      assert ResultEvent(e, next.planId, updated);
    }
    forall s | s in plan.steps
      ensures LaunchRecorded(events, plan, s) ==> LaunchRecorded(more, next, s)
      ensures ResultRecorded(events, plan.planId, s) ==> ResultRecorded(more, next.planId, s)
    {
      RecordsStay(events, more, plan, next, s);
    }
  }

  lemma RecordsStay(events: seq<RunEvent>, more: seq<RunEvent>, plan: GoalPlan, next: GoalPlan, s: Step)
    requires events <= more && next.planId == plan.planId && next.goalId == plan.goalId
    ensures LaunchRecorded(events, plan, s) ==> LaunchRecorded(more, next, s)
    ensures ResultRecorded(events, plan.planId, s) ==> ResultRecorded(more, next.planId, s)
  {
    assert forall e :: e in events ==> e in more;
    if LaunchRecorded(events, plan, s) {
      var e :| e in events && LaunchEvent(e, plan, s);
      assert LaunchEvent(e, next, s);
    }
    if ResultRecorded(events, plan.planId, s) {
      var e :| e in events && ResultEvent(e, plan.planId, s);
      assert ResultEvent(e, next.planId, s);
    }
  }

  /** `v` stores `next` as the plan's new revision and `g` as its goal, and journals `e`. */
  ghost predicate Advanced(w: World, v: World, next: GoalPlan, g: Goal, e: RunEvent) {
    && v.plans == WithPlan(w, next).plans
    && v.goals == w.goals[next.goalId := g]
    && w.events <= v.events && e in v.events
  }

  ghost predicate Successor(plan: GoalPlan, next: GoalPlan) {
    && next.planId == plan.planId && next.goalId == plan.goalId && next.createdAt == plan.createdAt
    && next.revision == plan.revision + 1
  }

  lemma AdvancedInStep(
    w: World, v: World, plan: GoalPlan, next: GoalPlan, updated: Step, g: Goal, e: RunEvent)
    requires InStep(w, plan.planId, plan.goalId) && LatestIn(w.plans, plan.planId) == Some(plan)
    requires Successor(plan, next) && Advanced(w, v, next, g, e)
    requires PlanInStep(next) && GoalInStep(next, g) && g.goalId == plan.goalId
    requires next.steps == Replaced(plan.steps, updated)
    requires updated.state.Running? ==> LaunchEvent(e, plan, updated)
    requires updated.state.Completed? ==> ResultEvent(e, plan.planId, updated)
    ensures InStep(v, plan.planId, plan.goalId)
  {
    hide WellKept, StepSound;
    JournaledReplaced(w.events, v.events, plan, next, updated, e);
  }

  lemma ActionNotBlank(s: Step)
    requires s.spec.Valid()
    ensures !Blank(StepAction(s)) && !Blank(s.spec.title)
  {
    StripIdempotent(s.spec.description);
  }

  /** Some proposed step is not one the plan has completed. */
  predicate KeepsUnfinished(plan: GoalPlan, proposal: RevisionProposal) {
    exists spec :: spec in proposal.steps && spec.stepId !in CompletedIds(plan.steps)
  }

  /** The calls that stay in step: accepted revisions keep an unfinished step, and no blank run unblocks a goal. */
  ghost predicate Sensible(w: World, planId: string, op: CoordOp) {
    match LatestIn(w.plans, planId)
    case None => true
    case Some(plan) =>
      match op
      case StartNextStep(run) => Blank(run) && Launches(Decide(plan)) ==> !plan.state.PlanBlocked?
      case AcceptRevision(proposal) => RevisionOutcome(plan, proposal).Ok? ==> KeepsUnfinished(plan, proposal)
      case _ => true
  }

  lemma StartNextKeepsInStepIff(w: World, planId: string, goalId: string, runId: string)
    requires InStep(w, planId, goalId)
    ensures InStep(StartNext(w, planId, runId).world, planId, goalId) <==> Sensible(w, planId, StartNextStep(runId))
  {
    hide InStep;
    var plan := InStepPlan(w, planId, goalId);
    if !Launches(Decide(plan)) {
      UnlaunchedWorld(w, plan, runId);
    } else if Blank(runId) {
      BlankLaunchIff(w, plan, runId);
    } else {
      LaunchKeepsInStep(w, plan, Decide(plan), runId);
    }
  }

  lemma InStepPlan(w: World, planId: string, goalId: string) returns (plan: GoalPlan)
    requires InStep(w, planId, goalId)
    ensures LatestIn(w.plans, planId) == Some(plan) && plan.planId == planId && plan.goalId == goalId
    ensures PlanInStep(plan)
  {
    plan := LatestIn(w.plans, planId).value;
  }

  /** A blank run id is refused only after the goal was made active, whatever the plan's state. */
  lemma BlankLaunchWorld(w: World, plan: GoalPlan, runId: string)
    requires InStep(w, plan.planId, plan.goalId) && LatestIn(w.plans, plan.planId) == Some(plan)
    requires Blank(runId) && Launches(Decide(plan))
    ensures var v := StartNext(w, plan.planId, runId).world;
            && v.plans == w.plans && v.events == w.events && plan.goalId in v.goals
            && v.goals == w.goals[plan.goalId := v.goals[plan.goalId]]
            && v.goals[plan.goalId].goalId == plan.goalId
            && v.goals[plan.goalId].state.GoalActive? && !BlankAction(v.goals[plan.goalId].nextAction)
  {
    hide PlanInStep, Journaled, Decide, LaunchStep, PrepareGoal, StepAction, Blank;
    InStepSpecs(w, plan);
    var d := Decide(plan);
    LaunchedFound(plan);
    var s := FindStep(plan.steps, d.stepId).value;
    LaunchableGoal(plan, w.goals[plan.goalId]);
    ActionNotBlank(s);
    PrepareGoalBlank(w, plan.goalId, runId, StepAction(s));
    BlankLaunchRefused(PrepareGoal(w, plan.goalId, runId, StepAction(s)).world, plan, s.Id(), d, runId);
  }

  lemma PrepareGoalBlank(w: World, goalId: string, runId: string, action: string)
    requires Keyed(w.goals) && goalId in w.goals && !w.goals[goalId].Terminal()
    requires !BlankAction(w.goals[goalId].nextAction) && !Blank(action) && Blank(runId)
    ensures var v := PrepareGoal(w, goalId, runId, action).world;
            && v.plans == w.plans && v.events == w.events && goalId in v.goals
            && v.goals == w.goals[goalId := v.goals[goalId]]
            && v.goals[goalId].goalId == goalId
            && v.goals[goalId].state.GoalActive? && !BlankAction(v.goals[goalId].nextAction)
  {
    hide StripLeft, StripRight, Blank, Strip, NextEvent, LatestSequence;
  }

  lemma InStepSpecs(w: World, plan: GoalPlan)
    requires InStep(w, plan.planId, plan.goalId) && LatestIn(w.plans, plan.planId) == Some(plan)
    ensures PlanInStep(plan) && forall s :: s in plan.steps ==> s.spec.Valid()
  {
    SpecsValid(plan);
  }

  lemma LaunchedFound(plan: GoalPlan)
    requires PlanInStep(plan) && Launches(Decide(plan))
    ensures FindStep(plan.steps, Decide(plan).stepId).Some?
    ensures FindStep(plan.steps, Decide(plan).stepId).value in plan.steps
  {
    hide Decide;
    if Decide(plan).StartStep? {
      var s := DecidedStartAcceptedIff(plan, None);
    } else {
      var s := DecidedRetryAccepted(plan, None);
    }
  }

  lemma BlankLaunchRefused(w: World, plan: GoalPlan, stepId: string, d: Decision, runId: string)
    requires Blank(runId) && Launches(d)
    ensures LaunchStep(w, plan, stepId, d, runId).world == w
  {
    hide Strip, DependenciesDone, Replaced, StateAfter, Blank, NextEvent, LatestSequence, FindStep;
  }

  /** A launch with a blank run id is in step exactly when it does not unblock a blocked plan's goal. */
  lemma BlankLaunchIff(w: World, plan: GoalPlan, runId: string)
    requires InStep(w, plan.planId, plan.goalId) && LatestIn(w.plans, plan.planId) == Some(plan)
    requires Blank(runId) && Launches(Decide(plan))
    ensures InStep(StartNext(w, plan.planId, runId).world, plan.planId, plan.goalId) <==> !plan.state.PlanBlocked?
  {
    hide PlanInStep, Journaled, StartNext, Decide;
    BlankLaunchWorld(w, plan, runId);
    InStepSpecs(w, plan);
    LaunchesOpen(plan);
  }

  lemma LaunchesOpen(plan: GoalPlan)
    requires Launches(Decide(plan))
    ensures !plan.state.PlanCompleted?
  {
  }

  lemma UnlaunchedWorld(w: World, plan: GoalPlan, runId: string)
    requires LatestIn(w.plans, plan.planId) == Some(plan) && !Launches(Decide(plan))
    ensures StartNext(w, plan.planId, runId).world == w
  {
  }

  /** The run a running step is bound to is not blank. */
  lemma BoundRunNotBlank(w: World, plan: GoalPlan, s: Step)
    requires InStep(w, plan.planId, plan.goalId) && LatestIn(w.plans, plan.planId) == Some(plan)
    requires s in plan.steps && s.state.Running?
    ensures s.runId.Some? && !Blank(s.runId.value)
  {
    assert LaunchRecorded(w.events, plan, s);
    var e :| e in w.events && LaunchEvent(e, plan, s);
    StripIdempotent(e.runId);
  }

  lemma InStepFacts(w: World, plan: GoalPlan, runId: string)
    requires InStep(w, plan.planId, plan.goalId) && LatestIn(w.plans, plan.planId) == Some(plan) && !Blank(runId)
    ensures PlanInStep(plan) && Open(w, plan.goalId, runId)
    ensures GoalInStep(plan, w.goals[plan.goalId]) && w.goals[plan.goalId].goalId == plan.goalId
    ensures forall s :: s in plan.steps ==> s.spec.Valid()
  {
    forall s | s in plan.steps
      ensures s.spec.Valid()
    {
      assert StepSound(plan.steps, s);
    }
  }

  lemma LaunchKeepsInStep(w: World, plan: GoalPlan, d: Decision, runId: string)
    requires InStep(w, plan.planId, plan.goalId) && !Blank(runId) && LatestIn(w.plans, plan.planId) == Some(plan)
    requires d == Decide(plan) && Launches(d)
    ensures InStep(StartNext(w, plan.planId, runId).world, plan.planId, plan.goalId)
  {
    hide InStep, PlanInStep, GoalInStep, Decide;
    InStepFacts(w, plan, runId);
    var s, next := LaunchKeepsPlanInStep(plan, d, runId);
    ActionNotBlank(s);
    LaunchableGoal(plan, w.goals[plan.goalId]);
    var running := Launched(s, Some(runId));
    NextFound(next, running);
    var g, e := LaunchWorld(w, plan, s, d, runId, next);
    ActiveGoalInStep(next, g);
    AdvancedInStep(w, StartNext(w, plan.planId, runId).world, plan, next, running, g, e);
  }

  lemma NextFound(plan: GoalPlan, s: Step)
    requires PlanInStep(plan) && s in plan.steps
    ensures FindStep(plan.steps, s.Id()) == Some(s)
  {
    FoundStep(plan.steps, s);
  }

  lemma LaunchableGoal(plan: GoalPlan, g: Goal)
    requires GoalInStep(plan, g) && Launches(Decide(plan))
    ensures !g.Terminal()
  {
  }

  lemma ActiveGoalInStep(plan: GoalPlan, g: Goal)
    requires plan.state.Active? && g.state.GoalActive? && !BlankAction(g.nextAction)
    ensures GoalInStep(plan, g)
  {
  }

  lemma ReportedGoalInStep(plan: GoalPlan, g: Goal)
    requires NoneRunning(plan) && !BlankAction(g.nextAction)
    requires g.state == if plan.state.PlanCompleted? then GoalCompleted
                        else if plan.state.PlanBlocked? then GoalBlocked
                        else GoalActive
    ensures GoalInStep(plan, g)
  {
  }

  lemma RunningMeansActive(plan: GoalPlan, g: Goal, s: Step)
    requires GoalInStep(plan, g) && s in plan.steps && s.state.Running?
    ensures g.state.GoalActive?
  {
  }

  lemma LaunchWorld(w: World, plan: GoalPlan, s: Step, d: Decision, runId: string, next: GoalPlan)
    returns (g: Goal, e: RunEvent)
    requires Open(w, plan.goalId, runId) && LatestIn(w.plans, plan.planId) == Some(plan)
    requires !w.goals[plan.goalId].Terminal() && !Blank(StepAction(s))
    requires d == Decide(plan) && Launches(d) && FindStep(plan.steps, d.stepId) == Some(s)
    requires StepOutcome(plan, LaunchOp(d, Some(runId))) == Ok(next) && Successor(plan, next)
    requires FindStep(next.steps, s.Id()) == Some(Launched(s, Some(runId)))
    ensures Advanced(w, StartNext(w, plan.planId, runId).world, next, g, e)
    ensures g == w.goals[plan.goalId].(state := GoalActive, blockers := [], nextAction := Some(StepAction(s)))
    ensures OfRun(e, plan.goalId, runId) &&
              e.kind == StepPlanned(plan.planId, next.revision, s.Id(), s.attemptCount + 1)
  {
    hide Decide, StepAction, StepOutcome, PrepareGoal, Blank, Strip, LatestSequence, FindStep;
    var goalId := plan.goalId;
    PrepareGoalSucceeds(w, goalId, runId, StepAction(s));
    var prepared := PrepareGoal(w, goalId, runId, StepAction(s)).world;
    g := prepared.goals[goalId];
    e := NextEvent(prepared.events, goalId, runId, StepPlanned(plan.planId, next.revision, s.Id(), s.attemptCount + 1));
    assert StartNext(w, plan.planId, runId).world == LaunchStep(prepared, plan, s.Id(), d, runId).world;
    assert LaunchStep(prepared, plan, s.Id(), d, runId).world ==
      WithPlan(prepared, next).(events := prepared.events + [e]);
  }

  lemma NextActionNotBlank(plan: GoalPlan)
    requires forall s :: s in plan.steps ==> s.spec.Valid()
    ensures !BlankAction(NextAction(plan))
  {
    if NextAction(plan).Some? {
      var s := FindStep(plan.steps, Decide(plan).stepId).value;
      ActionNotBlank(s);
    }
  }

  lemma RefusedReport(w: World, planId: string, op: CoordOp)
    requires LatestIn(w.plans, planId).Some? && (op.ReportCompleted? || op.ReportFailed?)
    requires BoundStep(w, planId, op.stepId, op.runId).Err? ||
               StepOutcome(LatestIn(w.plans, planId).value, ReportOp(op)).Err?
    ensures Act(w, planId, op) == w
  {
  }

  function ReportOp(op: CoordOp): PlanOp
    requires op.ReportCompleted? || op.ReportFailed?
  {
    if op.ReportCompleted? then Complete(op.stepId, op.resultRef, op.evidence)
    else PlanOp.Fail(op.stepId, op.error, op.evidence)
  }

  /** Reports keep everything in step: refused ones change nothing, accepted ones move plan and goal together. */
  lemma ReportKeepsInStep(w: World, planId: string, goalId: string, op: CoordOp)
    requires InStep(w, planId, goalId) && (op.ReportCompleted? || op.ReportFailed?)
    ensures InStep(Act(w, planId, op), planId, goalId)
  {
    var plan := LatestIn(w.plans, planId).value;
    if BoundStep(w, planId, op.stepId, op.runId).Ok? && StepOutcome(plan, ReportOp(op)).Ok? {
      AcceptedReport(w, plan, op);
    } else {
      RefusedReport(w, planId, op);
    }
  }

  lemma AcceptedTexts(plan: GoalPlan, s: Step, op: CoordOp)
    requires (op.ReportCompleted? || op.ReportFailed?) && StepOutcome(plan, ReportOp(op)).Ok?
    ensures op.ReportFailed? ==> !Blank(op.error)
  {
  }

  lemma AcceptedReport(w: World, plan: GoalPlan, op: CoordOp)
    requires InStep(w, plan.planId, plan.goalId) && LatestIn(w.plans, plan.planId) == Some(plan)
    requires (op.ReportCompleted? || op.ReportFailed?)
    requires BoundStep(w, plan.planId, op.stepId, op.runId).Ok? && StepOutcome(plan, ReportOp(op)).Ok?
    ensures InStep(Act(w, plan.planId, op), plan.planId, plan.goalId)
  {
    hide InStep, PlanInStep, GoalInStep, Act, Decide, StepOutcome;
    var s, next := FindStep(plan.steps, op.stepId).value, StepOutcome(plan, ReportOp(op)).value;
    InStepSpecs(w, plan);
    ReportKeepsPlanInStep(plan, s, ReportOp(op));
    BoundRunNotBlank(w, plan, s);
    InStepFacts(w, plan, op.runId);
    AcceptedTexts(plan, s, op);
    RunningMeansActive(plan, w.goals[plan.goalId], s);
    var g, e;
    if op.ReportCompleted? {
      ActionNotBlank(s);
      SpecsValid(next);
      NextActionNotBlank(next);
      g, e := CompletionWorld(w, plan, s, op, next);
    } else {
      g, e := FailureWorld(w, plan, s, op, next);
    }
    ReportedGoalInStep(next, g);
    AdvancedInStep(w, Act(w, plan.planId, op), plan, next, Updated(s, ReportOp(op)), g, e);
  }

  lemma SpecsValid(plan: GoalPlan)
    requires PlanInStep(plan)
    ensures forall s :: s in plan.steps ==> s.spec.Valid()
  {
    forall s | s in plan.steps
      ensures s.spec.Valid()
    {
      assert StepSound(plan.steps, s);
    }
  }

  lemma CompletionWorld(w: World, plan: GoalPlan, s: Step, op: CoordOp, next: GoalPlan) returns (g: Goal, e: RunEvent)
    requires op.ReportCompleted? && Open(w, plan.goalId, op.runId) && LatestIn(w.plans, plan.planId) == Some(plan)
    requires w.goals[plan.goalId].state.GoalActive?
    requires BoundStep(w, plan.planId, op.stepId, op.runId) == Ok((plan, s))
    requires !Blank(s.spec.title) && !BlankAction(NextAction(next))
    requires StepOutcome(plan, ReportOp(op)) == Ok(next) && Successor(plan, next)
    ensures Advanced(w, Act(w, plan.planId, op), next, g, e)
    ensures g.goalId == w.goals[plan.goalId].goalId && !BlankAction(g.nextAction)
    ensures g.state == if next.state.PlanCompleted? then GoalCompleted else GoalActive
    ensures OfRun(e, plan.goalId, op.runId) &&
              e.kind == StepCompleted(plan.planId, next.revision, op.stepId, op.resultRef, op.evidence)
  {
    hide StepOutcome, NextAction, CompleteRun, WriteCheckpoint, Strip, HistoryIn, ProgressIn, StepDetails, Blank;
    hide LatestSequence, FindStep, Launched;
    e := NextEvent(w.events, plan.goalId, op.runId,
                   StepCompleted(plan.planId, next.revision, op.stepId, op.resultRef, op.evidence));
    var logged := WithPlan(w, next).(events := w.events + [e]);
    assert e in logged.events;
    if next.state.PlanCompleted? {
      FinishedGoal(logged, plan.planId, next.revision, plan.goalId, op.runId, s.spec.title, op.stamp);
    } else {
      ContinuedGoal(logged, plan.goalId, op.runId, s.spec.title, NextAction(next),
                    StepDetails(plan.planId, next.revision, op.stepId), op.stamp);
    }
    g := Act(w, plan.planId, op).goals[plan.goalId];
  }

  lemma FinishedGoal(
    w: World, planId: string, revision: nat, goalId: string, runId: string, title: string, stamp: Stamp)
    requires Open(w, goalId, runId) && w.goals[goalId].state.GoalActive? && !Blank(title)
    ensures var finished := Log(w, goalId, runId, PlanFinished(planId, revision));
            var v := CompleteRun(finished.world, goalId, runId, Some(title), [], stamp).world;
            && finished.result.Ok? && goalId in v.goals && GoalMoved(w, v, goalId, v.goals[goalId])
            && v.goals[goalId].state.GoalCompleted? && v.goals[goalId].nextAction.None? &&
                 v.goals[goalId].goalId == w.goals[goalId].goalId
  {
    CompleteRunMoves(Log(w, goalId, runId, PlanFinished(planId, revision)).world, goalId, runId, title, stamp);
  }

  lemma ContinuedGoal(
    w: World, goalId: string, runId: string, title: string, next: Option<string>, details: Details, stamp: Stamp)
    requires Open(w, goalId, runId) && w.goals[goalId].state.GoalActive? && !Blank(title) && !BlankAction(next)
    ensures var noted := WithGoal(w, ProgressIn(w.goals, goalId, Some(title), next, Some([])));
            var v := WriteCheckpoint(noted.world, goalId, runId, details, stamp).world;
            && noted.result.Ok? && goalId in v.goals && GoalMoved(w, v, goalId, v.goals[goalId])
            && v.goals[goalId].state.GoalActive? && v.goals[goalId].nextAction == next &&
                 v.goals[goalId].goalId == w.goals[goalId].goalId
  {
    var noted := WithGoal(w, ProgressIn(w.goals, goalId, Some(title), next, Some([])));
    CheckpointMoves(noted.world, goalId, runId, details, stamp);
  }

  lemma FailActionNotBlank(plan: GoalPlan, stepId: string)
    ensures !Blank(FailAction(plan, stepId))
  {
    var text := FailAction(plan, stepId);
    assert text[0] == 'r';
    StripKeepsFirst(text);
  }

  lemma FailureWorld(w: World, plan: GoalPlan, s: Step, op: CoordOp, next: GoalPlan) returns (g: Goal, e: RunEvent)
    requires op.ReportFailed? && Open(w, plan.goalId, op.runId) && LatestIn(w.plans, plan.planId) == Some(plan)
    requires w.goals[plan.goalId].state.GoalActive? && !Blank(op.error)
    requires BoundStep(w, plan.planId, op.stepId, op.runId) == Ok((plan, s))
    requires StepOutcome(plan, ReportOp(op)) == Ok(next) && Successor(plan, next)
    ensures Advanced(w, Act(w, plan.planId, op), next, g, e)
    ensures g.goalId == w.goals[plan.goalId].goalId && g.state.GoalBlocked? && !BlankAction(g.nextAction)
  {
    hide StepOutcome, FailAction, BlockRun, Blank, Strip, LatestSequence, FindStep;
    var goalId, runId := plan.goalId, op.runId;
    e := NextEvent(w.events, goalId, runId, StepFailed(plan.planId, next.revision, op.stepId, op.error, op.evidence));
    var logged := WithPlan(w, next).(events := w.events + [e]);
    assert e in logged.events;
    FailActionNotBlank(next, op.stepId);
    BlockRunMoves(logged, goalId, runId, op.error, FailAction(next, op.stepId), op.stamp);
    assert Act(w, plan.planId, op) ==
      BlockRun(logged, goalId, runId, op.error, Some(FailAction(next, op.stepId)), op.stamp).world;
    g := Act(w, plan.planId, op).goals[goalId];
  }

  // ----- revisions -----

  lemma CarriedCompleted(current: seq<Step>, specs: seq<StepSpec>, i: nat)
    requires UniqueIds(SpecsOf(current)) && i < |specs|
    ensures CarriedSteps(current, specs)[i].state.Completed? <==> specs[i].stepId in CompletedIds(current)
  {
    var found := FindStep(current, specs[i].stepId);
    if specs[i].stepId in CompletedIds(current) {
      var c :| c in current && c.state.Completed? && c.Id() == specs[i].stepId;
      UniqueStep(current, c, found.value);
    }
  }

  /** An accepted revision completes the plan exactly when it keeps no unfinished step. */
  lemma RevisionCompletesIff(plan: GoalPlan, proposal: RevisionProposal)
    requires UniqueIds(SpecsOf(plan.steps)) && RevisionOutcome(plan, proposal).Ok?
    ensures RevisionOutcome(plan, proposal).value.state.PlanCompleted? <==> !KeepsUnfinished(plan, proposal)
  {
    hide SpecsProblem, FrozenProblem, KeepsMeaning;
    var next := RevisionOutcome(plan, proposal).value;
    assert next.steps == CarriedSteps(plan.steps, proposal.steps);
    forall i | 0 <= i < |proposal.steps|
      ensures next.steps[i].state.Completed? <==> proposal.steps[i].stepId in CompletedIds(plan.steps)
    {
      CarriedCompleted(plan.steps, proposal.steps, i);
    }
    if AllCompleted(next.steps) {
      forall spec | spec in proposal.steps
        ensures spec.stepId in CompletedIds(plan.steps)
      {
        var i :| 0 <= i < |proposal.steps| && proposal.steps[i] == spec;
        assert next.steps[i] in next.steps;
      }
    }
  }

  /** Every engaged or completed step of a revised plan is an old step in a new position. */
  lemma CarriedFrom(current: seq<Step>, specs: seq<StepSpec>, t: Step) returns (s: Step)
    requires t in CarriedSteps(current, specs) && current != []
    ensures s in current
    ensures (t.state.Pending? && t.attemptCount == 0) || t == s.(ordinal := t.ordinal)
  {
    var i :| 0 <= i < |specs| && CarriedSteps(current, specs)[i] == t;
    var found := FindStep(current, specs[i].stepId);
    s := if found.Some? then found.value else current[0];
  }

  lemma RevisionKeepsPlanInStep(plan: GoalPlan, proposal: RevisionProposal)
    requires PlanInStep(plan) && proposal.Valid() && RevisionOutcome(plan, proposal).Ok?
    ensures var next := RevisionOutcome(plan, proposal).value;
            PlanInStep(next) && NoneRunning(next) && Successor(plan, next)
    ensures RevisionOutcome(plan, proposal).value.state.PlanBlocked? ==> plan.state.PlanBlocked?
  {
    hide StepSound, RevisionOutcome;
    RevisionKeepsWellKept(plan, proposal);
    RevisionShape(plan, proposal);
    CarriedPlanInStep(plan, RevisionOutcome(plan, proposal).value, proposal.steps);
  }

  lemma RevisionShape(plan: GoalPlan, proposal: RevisionProposal)
    requires RevisionOutcome(plan, proposal).Ok?
    ensures var next := RevisionOutcome(plan, proposal).value;
            && NoneRunning(plan) && Successor(plan, next)
            && next.steps == CarriedSteps(plan.steps, proposal.steps) && next.state == RevisedState(next.steps)
  {
  }

  lemma CarriedPlanInStep(plan: GoalPlan, next: GoalPlan, specs: seq<StepSpec>)
    requires PlanInStep(plan) && NoneRunning(plan) && WellKept(next)
    requires next.steps == CarriedSteps(plan.steps, specs) && next.state == RevisedState(next.steps)
    ensures PlanInStep(next) && NoneRunning(next)
    ensures next.state.PlanBlocked? ==> plan.state.PlanBlocked?
  {
    hide WellKept;
    forall t | t in next.steps
      ensures !t.state.Blocked? && !t.state.Running? && (t.state.Pending? ==> t.attemptCount == 0)
      ensures t.state.Failed? ==> plan.state.PlanBlocked?
    {
      CarriedAlone(plan, specs, t);
    }
    forall a, b | a in next.steps && b in next.steps && Engaged(a) && Engaged(b)
      ensures a.Id() == b.Id()
    {
      CarriedPair(plan, specs, a, b);
    }
  }

  lemma CarriedAlone(plan: GoalPlan, specs: seq<StepSpec>, t: Step)
    requires PlanInStep(plan) && NoneRunning(plan) && t in CarriedSteps(plan.steps, specs)
    ensures !t.state.Blocked? && !t.state.Running? && (t.state.Pending? ==> t.attemptCount == 0)
    ensures t.state.Failed? ==> plan.state.PlanBlocked?
  {
    hide StepSound, CarriedSteps;
    var s := CarriedFrom(plan.steps, specs, t);
  }

  lemma CarriedPair(plan: GoalPlan, specs: seq<StepSpec>, a: Step, b: Step)
    requires PlanInStep(plan) && a in CarriedSteps(plan.steps, specs) && b in CarriedSteps(plan.steps, specs)
    requires Engaged(a) && Engaged(b)
    ensures a.Id() == b.Id()
  {
    hide StepSound, CarriedSteps;
    var s := CarriedFrom(plan.steps, specs, a);
    var t := CarriedFrom(plan.steps, specs, b);
    assert Engaged(s) && Engaged(t);
  }

  lemma RevisionJournaled(events: seq<RunEvent>, plan: GoalPlan, next: GoalPlan, specs: seq<StepSpec>)
    requires Journaled(events, plan) && NoneRunning(next) && next.planId == plan.planId && plan.steps != []
    requires next.steps == CarriedSteps(plan.steps, specs)
    ensures Journaled(events, next)
  {
    hide CarriedSteps;
    forall t | t in next.steps && t.state.Completed?
      ensures ResultRecorded(events, next.planId, t)
    {
      var s := CarriedFrom(plan.steps, specs, t);
      assert ResultRecorded(events, plan.planId, s);
      var e :| e in events && ResultEvent(e, plan.planId, s);
      assert ResultEvent(e, next.planId, t);
    }
  }

  lemma RevisedGoalInStep(plan: GoalPlan, next: GoalPlan, g: Goal)
    requires GoalInStep(plan, g) && NoneRunning(next) && !plan.state.PlanCompleted?
    requires next.state.PlanBlocked? ==> plan.state.PlanBlocked?
    ensures GoalInStep(next, g) <==> !next.state.PlanCompleted?
  {
  }

  /**
   * Revising keeps plan and goal in step exactly when the revision keeps an unfinished
   * step. One that keeps only completed steps completes the plan and leaves the goal open.
   */
  lemma RevisionKeepsInStepIff(w: World, planId: string, goalId: string, proposal: RevisionProposal)
    requires InStep(w, planId, goalId) && proposal.Valid()
    requires RevisionOutcome(LatestIn(w.plans, planId).value, proposal).Ok?
    ensures InStep(Act(w, planId, AcceptRevision(proposal)), planId, goalId) <==>
              KeepsUnfinished(LatestIn(w.plans, planId).value, proposal)
  {
    hide PlanInStep, GoalInStep, Journaled, RevisionOutcome;
    var plan := LatestIn(w.plans, planId).value;
    var next := RevisionOutcome(plan, proposal).value;
    RevisionKeepsPlanInStep(plan, proposal);
    RevisionShape(plan, proposal);
    OpenPlan(plan, proposal);
    RevisionCompletesIff(plan, proposal);
    RevisionJournaled(w.events, plan, next, proposal.steps);
    RevisedGoalInStep(plan, next, w.goals[goalId]);
    RevisedWorld(w, plan, next);
    assert Act(w, planId, AcceptRevision(proposal)) == WithPlan(w, next);
  }

  lemma RevisedWorld(w: World, plan: GoalPlan, next: GoalPlan)
    requires InStep(w, plan.planId, plan.goalId) && LatestIn(w.plans, plan.planId) == Some(plan)
    requires Successor(plan, next) && PlanInStep(next) && Journaled(w.events, next)
    ensures InStep(WithPlan(w, next), plan.planId, plan.goalId) <==> GoalInStep(next, w.goals[plan.goalId])
  {
    hide PlanInStep, GoalInStep, Journaled;
  }

  lemma OpenPlan(plan: GoalPlan, proposal: RevisionProposal)
    requires PlanInStep(plan) && RevisionOutcome(plan, proposal).Ok?
    ensures UniqueIds(SpecsOf(plan.steps)) && !plan.state.PlanCompleted? && plan.steps != []
  {
  }

  ghost predicate SensibleRun(w: World, planId: string, ops: seq<CoordOp>)
    decreases |ops|
  {
    || ops == []
    || (Constructed(ops[0]) && Sensible(w, planId, ops[0]) && SensibleRun(Act(w, planId, ops[0]), planId, ops[1..]))
  }

  ghost function RunAll(w: World, planId: string, ops: seq<CoordOp>): World
    decreases |ops|
  {
    if ops == [] then w else RunAll(Act(w, planId, ops[0]), planId, ops[1..])
  }

  /** Whatever its texts, a call keeps plan, goal and journal in step exactly when it is sensible. */
  lemma ActKeepsInStepIff(w: World, planId: string, goalId: string, op: CoordOp)
    requires InStep(w, planId, goalId) && Constructed(op)
    ensures InStep(Act(w, planId, op), planId, goalId) <==> Sensible(w, planId, op)
  {
    match op
    case StartNextStep(run) => StartNextKeepsInStepIff(w, planId, goalId, run);
    case AcceptRevision(proposal) =>
      if RevisionOutcome(LatestIn(w.plans, planId).value, proposal).Ok? {
        RevisionKeepsInStepIff(w, planId, goalId, proposal);
      }
    case _ => ReportKeepsInStep(w, planId, goalId, op);
  }

  /**
   * Over every run: at most one step is running or failed, a running step means an active
   * goal, a blocked plan a blocked goal, and plan and goal are completed together.
   */
  lemma {:induction false} RunKeepsInStep(w: World, planId: string, goalId: string, ops: seq<CoordOp>)
    requires InStep(w, planId, goalId) && SensibleRun(w, planId, ops)
    ensures InStep(RunAll(w, planId, ops), planId, goalId)
    decreases |ops|
  {
    if ops != [] {
      ActKeepsInStepIff(w, planId, goalId, ops[0]);
      RunKeepsInStep(Act(w, planId, ops[0]), planId, goalId, ops[1..]);
    }
  }

  /** An accepted proposal for an open goal starts in step. */
  lemma AcceptedInStep(w: World, proposal: PlanProposal)
    requires Sound(w.plans) && Keyed(w.goals) && !Blank(proposal.goalId) && proposal.goalId in w.goals
    requires !w.goals[proposal.goalId].Terminal() && !BlankAction(w.goals[proposal.goalId].nextAction)
    requires proposal.Valid() && CompileOutcome(proposal).Ok? && LatestIn(w.plans, proposal.planId).None?
    ensures InStep(WithPlan(w, CompileOutcome(proposal).value), proposal.planId, proposal.goalId)
  {
    hide StepSound;
    AcceptedIsWellKept(proposal);
    var plan := CompileOutcome(proposal).value;
    forall s | s in plan.steps
      ensures s.state.Pending? && s.attemptCount == 0
    {
    }
  }
}
