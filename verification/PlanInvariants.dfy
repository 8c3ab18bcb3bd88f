/** What every reachable revision of a plan satisfies. */
module PlanInvariants {
  import opened Outcomes
  import opened Sequences
  import opened Sorting
  import opened Text
  import opened StepGraph
  import opened PlanModels
  import opened PlanCompiler
  import opened PlanTransitions

  function GraphOf(steps: seq<Step>): Graph {
    DepsOf(SpecsOf(steps))
  }

  /** Attempts stay in budget, and whatever has been launched has its dependencies completed. */
  predicate StepSound(steps: seq<Step>, s: Step) {
    && s.spec.Valid()
    && s.attemptCount <= s.spec.maxAttempts
    && (s.state.Running? || s.state.Failed? || s.state.Completed? ==> DependenciesDone(steps, s))
    && (s.state.Completed? ==> s.resultRef.Some?)
  }

  ghost predicate StepsSound(steps: seq<Step>) {
    && steps != []
    && SpecsProblem(SpecsOf(steps)).None?
    && (forall i :: 0 <= i < |steps| ==> steps[i].ordinal == i)
    && (forall s :: s in steps ==> StepSound(steps, s))
  }

  ghost predicate WellKept(plan: GoalPlan) {
    && plan.revision > 0
    && StepsSound(plan.steps)
    && !plan.state.Superseded?
    && (plan.state.PlanCompleted? <==> AllCompleted(plan.steps))
    && (plan.state.PlanBlocked? ==> exists s :: s in plan.steps && Stuck(s))
  }

  /** Revision proposals are validated when they are constructed. */
  predicate WellFormed(op: PlanOp) {
    op.Revise? ==> op.proposal.Valid()
  }

  predicate AllWellFormed(ops: seq<PlanOp>) {
    forall op :: op in ops ==> WellFormed(op)
  }

  lemma UniqueStep(steps: seq<Step>, a: Step, b: Step)
    requires UniqueIds(SpecsOf(steps)) && a in steps && b in steps && a.Id() == b.Id()
    ensures a == b
  {
    var i :| 0 <= i < |steps| && steps[i] == a;
    var j :| 0 <= j < |steps| && steps[j] == b;
    assert SpecsOf(steps)[i].stepId == SpecsOf(steps)[j].stepId;
  }

  lemma ReplacedMembers(steps: seq<Step>, updated: Step)
    ensures forall x :: x in Replaced(steps, updated) ==> x == updated || x in steps
    ensures forall x :: x in steps && x.Id() != updated.Id() ==> x in Replaced(steps, updated)
    ensures (exists x :: x in steps && x.Id() == updated.Id()) ==> updated in Replaced(steps, updated)
  {
    var r := Replaced(steps, updated);
    forall x | x in steps
      ensures x.Id() != updated.Id() ==> x in r
      ensures x.Id() == updated.Id() ==> updated in r
    {
      var i :| 0 <= i < |steps| && steps[i] == x;
      assert r[i] in r;
    }
  }

  /** Replacing an uncompleted step by a sound successor of it keeps the steps sound. */
  lemma ReplacementKeepsSound(steps: seq<Step>, s: Step, updated: Step)
    requires StepsSound(steps) && s in steps && !s.state.Completed?
    requires updated.spec == s.spec && updated.ordinal == s.ordinal
    requires updated.attemptCount <= s.spec.maxAttempts
    requires updated.state.Running? || updated.state.Failed? || updated.state.Completed? ==> DependenciesDone(steps, s)
    requires updated.state.Completed? ==> updated.resultRef.Some?
    ensures StepsSound(Replaced(steps, updated))
    ensures CompletedIds(steps) <= CompletedIds(Replaced(steps, updated))
    ensures SpecsOf(Replaced(steps, updated)) == SpecsOf(steps)
    ensures updated in Replaced(steps, updated)
  {
    var r := Replaced(steps, updated);
    ReplacedMembers(steps, updated);
    forall i | 0 <= i < |steps|
      ensures r[i].spec == steps[i].spec && r[i].ordinal == i
    {
      if steps[i].Id() == s.Id() {
        UniqueStep(steps, steps[i], s);
      }
    }
    assert SpecsOf(r) == SpecsOf(steps);
    ReplacementCompletes(steps, s, updated);
  }

  /** Replacing an uncompleted step adds its id to the completed ones, or adds nothing. */
  lemma ReplacementCompletes(steps: seq<Step>, s: Step, updated: Step)
    requires UniqueIds(SpecsOf(steps)) && s in steps && !s.state.Completed? && updated.Id() == s.Id()
    ensures s.Id() !in CompletedIds(steps)
    ensures CompletedIds(Replaced(steps, updated)) ==
              CompletedIds(steps) + (if updated.state.Completed? then {s.Id()} else {})
  {
    var r := Replaced(steps, updated);
    ReplacedMembers(steps, updated);
    forall c | c in steps && c.state.Completed?
      ensures c.Id() != s.Id() && c in r
    {
      if c.Id() == s.Id() {
        UniqueStep(steps, c, s);
      }
    }
  }

  lemma AcceptedIsWellKept(proposal: PlanProposal)
    requires proposal.Valid() && CompileOutcome(proposal).Ok?
    ensures WellKept(CompileOutcome(proposal).value)
  {
    var plan := CompileOutcome(proposal).value;
    assert SpecsOf(plan.steps) == proposal.steps;
    assert plan.steps[0] in plan.steps;
    forall s | s in plan.steps
      ensures StepSound(plan.steps, s)
    {
      assert s.spec in proposal.steps;
    }
  }

  // ----- revisions -----

  lemma {:induction false} FrozenKept(current: seq<Step>, specs: seq<StepSpec>)
    requires FrozenProblem(current, specs).None?
    ensures forall s :: s in current && s.state.Completed? ==> s.spec in specs
  {
    if current != [] {
      FrozenKept(current[1..], specs);
      assert current == [current[0]] + current[1..];
    }
  }

  /** A revision carries every completed step over, changing at most its position. */
  lemma RevisionKeepsCompleted(current: seq<Step>, specs: seq<StepSpec>, s: Step)
    requires UniqueIds(SpecsOf(current)) && FrozenProblem(current, specs).None?
    requires s in current && s.state.Completed?
    ensures exists t :: t in CarriedSteps(current, specs) && t == s.(ordinal := t.ordinal)
  {
    FrozenKept(current, specs);
    var i :| 0 <= i < |specs| && specs[i] == s.spec;
    UniqueStep(current, FindStep(current, specs[i].stepId).value, s);
    assert CarriedSteps(current, specs)[i] == s.(ordinal := i);
  }

  lemma RevisionKeepsDone(current: seq<Step>, specs: seq<StepSpec>)
    requires UniqueIds(SpecsOf(current)) && FrozenProblem(current, specs).None?
    ensures CompletedIds(current) <= CompletedIds(CarriedSteps(current, specs))
  {
    forall d | d in CompletedIds(current)
      ensures d in CompletedIds(CarriedSteps(current, specs))
    {
      var s :| s in current && s.state.Completed? && s.Id() == d;
      RevisionKeepsCompleted(current, specs, s);
      var t :| t in CarriedSteps(current, specs) && t == s.(ordinal := t.ordinal);
      assert t.Id() == d;
    }
  }

  lemma RevisionKeepsWellKept(plan: GoalPlan, proposal: RevisionProposal)
    requires WellKept(plan) && proposal.Valid() && RevisionOutcome(plan, proposal).Ok?
    ensures WellKept(RevisionOutcome(plan, proposal).value)
  {
    hide Blank, FindStep, Strip;
    var specs, next := proposal.steps, RevisionOutcome(plan, proposal).value;
    RevisionKeepsDone(plan.steps, specs);
    forall i | 0 <= i < |specs|
      ensures next.steps[i].spec == specs[i] && next.steps[i].ordinal == i && StepSound(next.steps, next.steps[i])
    {
      assert specs[i] in specs && KeepsMeaning(plan.steps, specs[i]);
      CarriedStepSound(plan.steps, next.steps, specs[i], i);
    }
    assert SpecsOf(next.steps) == specs;
  }

  lemma CarriedStepSound(current: seq<Step>, next: seq<Step>, spec: StepSpec, i: nat)
    requires forall s :: s in current ==> StepSound(current, s)
    requires CompletedIds(current) <= CompletedIds(next)
    requires spec.Valid() && KeepsMeaning(current, spec)
    ensures CarriedStep(current, spec, i).spec == spec && StepSound(next, CarriedStep(current, spec, i))
  {
    var previous := FindStep(current, spec.stepId);
    if previous.Some? {
      assert StepSound(current, previous.value);
    }
  }

  /** Every accepted service call leads from a reachable plan to a reachable plan. */
  lemma ApplyKeepsWellKept(plan: GoalPlan, op: PlanOp)
    requires WellKept(plan) && WellFormed(op) && Apply(plan, op).Ok?
    ensures WellKept(Apply(plan, op).value)
  {
    match op
    case Revise(proposal) => RevisionKeepsWellKept(plan, proposal);
    case Cancel(_) =>
    case _ => StepOpKeepsWellKept(plan, op);
  }

  /** An accepted step operation replaces one uncompleted step. */
  lemma StepOpTarget(plan: GoalPlan, op: PlanOp) returns (s: Step)
    requires StepOp(op) && StepOutcome(plan, op).Ok?
    ensures s in plan.steps && s.Id() == op.stepId && !s.state.Completed?
    ensures StepOutcome(plan, op).value.steps == Replaced(plan.steps, Updated(s, op))
    ensures StepRefusal(plan.steps, s, op).None?
  {
    s := FindStep(plan.steps, op.stepId).value;
  }

  /** The replacement is a sound successor of the step. */
  lemma StepOpShape(plan: GoalPlan, op: PlanOp) returns (s: Step)
    requires WellKept(plan) && StepOp(op) && StepOutcome(plan, op).Ok?
    ensures s in plan.steps && s.Id() == op.stepId && !s.state.Completed?
    ensures StepOutcome(plan, op).value.steps == Replaced(plan.steps, Updated(s, op))
    ensures StepRefusal(plan.steps, s, op).None?
    ensures Updated(s, op).attemptCount <= s.spec.maxAttempts
    ensures var u := Updated(s, op);
            u.state.Running? || u.state.Failed? || u.state.Completed? ==> DependenciesDone(plan.steps, s)
  {
    hide SpecsProblem;
    s := StepOpTarget(plan, op);
    assert StepSound(plan.steps, s);
  }

  lemma StepOpKeepsWellKept(plan: GoalPlan, op: PlanOp)
    requires WellKept(plan) && StepOp(op) && StepOutcome(plan, op).Ok?
    ensures WellKept(StepOutcome(plan, op).value)
  {
    hide StepsSound, StepSound, SpecsOf, FindStep, DependenciesDone, Strip;
    var s := StepOpShape(plan, op);
    ReplacementKeepsSound(plan.steps, s, Updated(s, op));
  }

  lemma AfterKeepsWellKept(plan: GoalPlan, op: PlanOp)
    requires WellKept(plan) && WellFormed(op)
    ensures WellKept(After(plan, op))
  {
    if Apply(plan, op).Ok? {
      ApplyKeepsWellKept(plan, op);
    }
  }

  lemma {:induction false} RunKeepsWellKept(plan: GoalPlan, ops: seq<PlanOp>)
    requires WellKept(plan) && AllWellFormed(ops)
    ensures WellKept(Run(plan, ops))
    decreases |ops|
  {
    if ops != [] {
      AfterKeepsWellKept(plan, ops[0]);
      RunKeepsWellKept(After(plan, ops[0]), ops[1..]);
    }
  }

  // ----- the scheduler is never stuck on dependencies -----

  lemma UnfinishedMinimal(plan: GoalPlan) returns (s: Step)
    requires WellKept(plan) && !AllCompleted(plan.steps)
    ensures s in plan.steps && !s.state.Completed? && DependenciesDone(plan.steps, s)
  {
    var specs := SpecsOf(plan.steps);
    var g := DepsOf(specs);
    KnownIsClosed(specs);
    DepsOfUnique(specs);
    var open := g.Keys - CompletedIds(plan.steps);
    var u :| u in plan.steps && !u.state.Completed?;
    var at :| 0 <= at < |plan.steps| && plan.steps[at] == u;
    assert specs[at].stepId == u.Id();
    assert u.Id() in open by {
      if u.Id() in CompletedIds(plan.steps) {
        var c :| c in plan.steps && c.state.Completed? && c.Id() == u.Id();
        UniqueStep(plan.steps, c, u);
      }
    }
    var m := MinimalStep(g, open);
    var i :| 0 <= i < |specs| && specs[i].stepId == m;
    s := plan.steps[i];
    assert s.spec == specs[i];
    forall d | d in s.spec.dependsOn
      ensures d in CompletedIds(plan.steps)
    {
      assert d in g[m] && d in g;
    }
  }

  /** In no reachable plan does the scheduler wait for dependencies that nothing will finish. */
  lemma NeverDependenciesNotReady(plan: GoalPlan)
    requires WellKept(plan)
    ensures !Decide(plan).DependenciesNotReady?
  {
    hide SpecsProblem, StepsSound, DependenciesDone;
    if !AllCompleted(plan.steps) {
      var s := UnfinishedMinimal(plan);
      if s.state.Running? {
        assert s in Filter(plan.steps, (x: Step) => x.state.Running?);
      } else if s.state.Pending? && plan.state.Active? {
        var ready := Filter(plan.steps, x => IsReady(plan.steps, x));
        assert s in ready;
        assert |ReadySteps(plan)| == |ready|;
      }
    }
  }

  lemma NeverStuckInAnyRun(proposal: PlanProposal, ops: seq<PlanOp>)
    requires proposal.Valid() && CompileOutcome(proposal).Ok? && AllWellFormed(ops)
    ensures !Decide(Run(CompileOutcome(proposal).value, ops)).DependenciesNotReady?
  {
    AcceptedIsWellKept(proposal);
    RunKeepsWellKept(CompileOutcome(proposal).value, ops);
    NeverDependenciesNotReady(Run(CompileOutcome(proposal).value, ops));
  }
}
