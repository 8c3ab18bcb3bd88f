/** Durable goals (goal/models.py, goal/service.py, goal/in_memory.py). */
module Goals {
  import opened Outcomes
  import opened Text

  datatype GoalState = GoalPlanned | GoalActive | GoalBlocked | GoalCompleted | GoalCancelled

  datatype Goal = Goal(
    goalId: string, state: GoalState, completedWork: seq<string>, blockers: seq<string>, nextAction: Option<string>)
  {
    predicate Terminal() {
      state.GoalCompleted? || state.GoalCancelled?
    }
  }

  datatype GoalError = GoalMissing | IllegalTransition | TerminalGoal | BlankText

  type GoalTable = map<string, Goal>

  function Allowed(from: GoalState): set<GoalState> {
    match from
    case GoalPlanned => {GoalActive, GoalCancelled}
    case GoalActive => {GoalBlocked, GoalCompleted, GoalCancelled}
    case GoalBlocked => {GoalActive, GoalCancelled}
    case GoalCompleted => {}
    case GoalCancelled => {}
  }

  /** A record with a blank `next_action` cannot be built. */
  predicate BlankAction(next: Option<string>) {
    next.Some? && Blank(next.value)
  }

  function Transitioned(
    g: Goal, state: GoalState, blockers: Option<seq<string>>, next: Option<string>): Result<Goal, GoalError>
  {
    if state == g.state then Ok(g)
    else if state !in Allowed(g.state) then Err(IllegalTransition)
    else if BlankAction(next) then Err(BlankText)
    else Ok(g.(state := state, blockers := if blockers.None? then g.blockers else blockers.value, nextAction := next))
  }

  function Progressed(
    g: Goal, work: Option<string>, next: Option<string>, blockers: Option<seq<string>>): Result<Goal, GoalError>
  {
    if g.Terminal() then Err(TerminalGoal)
    else if work.Some? && Blank(work.value) then Err(BlankText)
    else if BlankAction(next) then Err(BlankText)
    else Ok(g.(completedWork := if work.Some? then g.completedWork + [Strip(work.value)] else g.completedWork,
               nextAction := next,
               blockers := if blockers.None? then g.blockers else blockers.value))
  }

  function Stored(goals: GoalTable, r: Result<Goal, GoalError>): GoalTable {
    if r.Ok? then goals[r.value.goalId := r.value] else goals
  }

  ghost predicate Keyed(goals: GoalTable) {
    forall id :: id in goals ==> goals[id].goalId == id
  }

  function TransitionIn(
    goals: GoalTable, goalId: string, state: GoalState, blockers: Option<seq<string>>,
    next: Option<string>): Result<Goal, GoalError>
  {
    if goalId !in goals then Err(GoalMissing) else Transitioned(goals[goalId], state, blockers, next)
  }

  function ProgressIn(
    goals: GoalTable, goalId: string, work: Option<string>, next: Option<string>,
    blockers: Option<seq<string>>): Result<Goal, GoalError>
  {
    if goalId !in goals then Err(GoalMissing) else Progressed(goals[goalId], work, next, blockers)
  }

  /** A completed or cancelled goal never changes again. */
  lemma TerminalGoalsAreFinal(
    g: Goal, state: GoalState, blockers: Option<seq<string>>, next: Option<string>, work: Option<string>)
    requires g.Terminal()
    ensures Transitioned(g, state, blockers, next).Ok? ==> Transitioned(g, state, blockers, next).value == g
    ensures Progressed(g, work, next, blockers).Err?
  {
  }

  class GoalService {
    var goals: GoalTable

    ghost predicate Valid()
      reads this
    {
      Keyed(goals)
    }

    constructor (goals: GoalTable)
      requires Keyed(goals)
      ensures Valid() && this.goals == goals
    {
      this.goals := goals;
    }

    method Transition(goalId: string, state: GoalState, blockers: Option<seq<string>>, next: Option<string>)
      returns (r: Result<Goal, GoalError>)
      requires Valid()
      modifies this
      ensures Valid()
      ensures r == TransitionIn(old(goals), goalId, state, blockers, next)
      ensures goals == Stored(old(goals), r)
    {
      if goalId !in goals {
        return Err(GoalMissing);
      }
      var current := goals[goalId];
      if state == current.state {
        return Ok(current);
      }
      if state !in Allowed(current.state) {
        return Err(IllegalTransition);
      }
      if BlankAction(next) {
        return Err(BlankText);
      }
      var updated := current.(state := state,
                              blockers := if blockers.None? then current.blockers else blockers.value,
                              nextAction := next);
      goals := goals[goalId := updated];
      return Ok(updated);
    }

    method RecordProgress(goalId: string, work: Option<string>, next: Option<string>, blockers: Option<seq<string>>)
      returns (r: Result<Goal, GoalError>)
      requires Valid()
      modifies this
      ensures Valid()
      ensures r == ProgressIn(old(goals), goalId, work, next, blockers)
      ensures goals == Stored(old(goals), r)
    {
      if goalId !in goals {
        return Err(GoalMissing);
      }
      var current := goals[goalId];
      if current.Terminal() {
        return Err(TerminalGoal);
      }
      var completed := current.completedWork;
      if work.Some? {
        if Blank(work.value) {
          return Err(BlankText);
        }
        completed := completed + [Strip(work.value)];
      }
      if BlankAction(next) {
        return Err(BlankText);
      }
      var updated := current.(completedWork := completed,
                              nextAction := next,
                              blockers := if blockers.None? then current.blockers else blockers.value);
      goals := goals[goalId := updated];
      return Ok(updated);
    }
  }
}
