/** The run journal and checkpoint stores (recovery/in_memory.py). */
module RunJournal {
  import opened Goals
  import opened Outcomes
  import opened Sequences
  import opened Text

  /** Journal event types with the payload the model reads back. */
  datatype EventKind =
    | GoalStarted
    | StepPlanned(planId: string, revision: nat, stepId: string, attempt: nat)
    | StepCompleted(planId: string, revision: nat, stepId: string, resultRef: string, evidence: seq<string>)
    | StepFailed(planId: string, revision: nat, stepId: string, error: string, evidence: seq<string>)
    | PlanFinished(planId: string, revision: nat)
    | ActionProposed(toolId: string, idempotencyKey: string)
    | ActionAuthorized(toolId: string, allowed: bool)
    | ActionExecuted(toolId: string, succeeded: bool, receipt: Option<string>)
    | VerificationResult(pass: bool)
    | CheckpointWritten(checkpointId: string, covers: nat)
    | BlockerDetected(blocker: string, nextAction: Option<string>)
    | GoalFinished(completedWork: Option<string>)
    | GoalCancelledEvent(reason: string)
    | SideEffectReserved(receiptId: string)
    | SideEffectCommitted(receiptId: string)
    | SideEffectFailed(receiptId: string, reason: string)
    | RecoveryDecision(decision: string, receiptId: string)

  datatype RunEvent = RunEvent(goalId: string, runId: string, sequence: nat, kind: EventKind)

  predicate OfRun(e: RunEvent, goalId: string, runId: string) {
    e.goalId == goalId && e.runId == runId
  }

  function RunEvents(events: seq<RunEvent>, goalId: string, runId: string): seq<RunEvent> {
    Filter(events, (e: RunEvent) => OfRun(e, goalId, runId))
  }

  /** `max(sequences, default=0)` over one run. */
  function LatestSequence(events: seq<RunEvent>, goalId: string, runId: string): (r: nat)
    ensures forall e :: e in events && OfRun(e, goalId, runId) ==> e.sequence <= r
  {
    if events == [] then 0
    else
      var last, front := events[|events| - 1], LatestSequence(events[..|events| - 1], goalId, runId);
      assert events == events[..|events| - 1] + [last];
      if OfRun(last, goalId, runId) && last.sequence > front then last.sequence else front
  }

  function NextEvent(events: seq<RunEvent>, goalId: string, runId: string, kind: EventKind): RunEvent {
    RunEvent(goalId, runId, LatestSequence(events, goalId, runId) + 1, kind)
  }

  function Appended(events: seq<RunEvent>, goalId: string, runId: string, kind: EventKind): seq<RunEvent> {
    events + [NextEvent(events, goalId, runId, kind)]
  }

  /** `events(goal_id, run_id=..., after_sequence=...)` */
  function EventsAfter(events: seq<RunEvent>, goalId: string, runId: string, after: nat): seq<RunEvent> {
    Filter(events, (e: RunEvent) => OfRun(e, goalId, runId) && e.sequence > after)
  }

  /** Each run numbers its events 1, 2, 3, ... in journal order. */
  ghost predicate Numbered(events: seq<RunEvent>) {
    forall goalId, runId, i ::
      0 <= i < |RunEvents(events, goalId, runId)| ==> RunEvents(events, goalId, runId)[i].sequence == i + 1
  }

  lemma {:induction false} LatestIsCount(events: seq<RunEvent>, goalId: string, runId: string)
    requires Numbered(events)
    ensures LatestSequence(events, goalId, runId) == |RunEvents(events, goalId, runId)|
  {
    if events != [] {
      var front, last := events[..|events| - 1], events[|events| - 1];
      assert events == front + [last];
      var ours := RunEvents(events, goalId, runId);
      FilterAppend(front, [last], (e: RunEvent) => OfRun(e, goalId, runId));
      assert Numbered(front) by {
        forall g, r, i | 0 <= i < |RunEvents(front, g, r)|
          ensures RunEvents(front, g, r)[i].sequence == i + 1
        {
          FilterAppend(front, [last], (e: RunEvent) => OfRun(e, g, r));
          assert RunEvents(events, g, r)[i] == RunEvents(front, g, r)[i];
        }
      }
      LatestIsCount(front, goalId, runId);
      if OfRun(last, goalId, runId) {
        assert ours == RunEvents(front, goalId, runId) + [last];
        assert ours[|ours| - 1].sequence == |ours|;
      } else {
        assert ours == RunEvents(front, goalId, runId) + [];
      }
    }
  }

  /** Appending keeps every run numbered without gaps. */
  lemma AppendKeepsNumbered(events: seq<RunEvent>, goalId: string, runId: string, kind: EventKind)
    requires Numbered(events)
    ensures Numbered(Appended(events, goalId, runId, kind))
    ensures RunEvents(Appended(events, goalId, runId, kind), goalId, runId)
         == RunEvents(events, goalId, runId) + [NextEvent(events, goalId, runId, kind)]
  {
    var e := NextEvent(events, goalId, runId, kind);
    forall g, r
      ensures RunEvents(events + [e], g, r) == RunEvents(events, g, r) + (if g == goalId && r == runId then [e] else [])
    {
      FilterAppend(events, [e], (x: RunEvent) => OfRun(x, g, r));
    }
    LatestIsCount(events, goalId, runId);
  }

  lemma {:induction false} FilterTwice(events: seq<RunEvent>, goalId: string, runId: string, after: nat)
    ensures EventsAfter(events, goalId, runId, after)
         == Filter(RunEvents(events, goalId, runId), (e: RunEvent) => e.sequence > after)
  {
    if events != [] {
      FilterTwice(events[1..], goalId, runId, after);
      var ours := RunEvents(events, goalId, runId);
      if OfRun(events[0], goalId, runId) {
        assert ours[0] == events[0] && ours[1..] == RunEvents(events[1..], goalId, runId);
      } else {
        assert ours == RunEvents(events[1..], goalId, runId);
      }
    }
  }

  lemma {:induction false} FilterSuffix(s: seq<RunEvent>, first: nat, after: nat)
    requires forall i :: 0 <= i < |s| ==> s[i].sequence == first + i
    requires first <= after + 1 <= first + |s|
    ensures Filter(s, (e: RunEvent) => e.sequence > after) == s[after + 1 - first..]
    decreases |s|
  {
    if s != [] {
      if first <= after {
        FilterSuffix(s[1..], first + 1, after);
      } else {
        KeepAll(s, after);
      }
    }
  }

  lemma {:induction false} KeepAll(s: seq<RunEvent>, after: nat)
    requires forall e :: e in s ==> e.sequence > after
    ensures Filter(s, (e: RunEvent) => e.sequence > after) == s
  {
    if s != [] {
      KeepAll(s[1..], after);
    }
  }

  /** A checkpoint at sequence `after` is followed by exactly the run's later events. */
  lemma EventsAfterAreTheRest(events: seq<RunEvent>, goalId: string, runId: string, after: nat)
    requires Numbered(events) && after <= LatestSequence(events, goalId, runId)
    ensures after <= |RunEvents(events, goalId, runId)|
    ensures EventsAfter(events, goalId, runId, after) == RunEvents(events, goalId, runId)[after..]
  {
    LatestIsCount(events, goalId, runId);
    FilterTwice(events, goalId, runId, after);
    FilterSuffix(RunEvents(events, goalId, runId), 1, after);
  }

  class JournalPort {
    var events: seq<RunEvent>

    constructor ()
      ensures events == []
    {
      events := [];
    }

    /** Refuses blank goal and run ids; otherwise numbers and appends the event. */
    method Append(goalId: string, runId: string, kind: EventKind) returns (ok: bool)
      modifies this
      ensures ok == (!Blank(goalId) && !Blank(runId))
      ensures events == if ok then Appended(old(events), goalId, runId, kind) else old(events)
      ensures Numbered(old(events)) ==> Numbered(events)
    {
      var sequence := LatestSequence(events, goalId, runId) + 1;
      if Blank(goalId) || Blank(runId) {
        return false;
      }
      ghost var before := events;
      events := events + [RunEvent(goalId, runId, sequence, kind)];
      if Numbered(before) {
        AppendKeepsNumbered(before, goalId, runId, kind);
      }
      return true;
    }
  }

  datatype MetaValue = NumberOf(n: int) | TextOf(text: string)

  /** What the caller adds to a checkpoint. */
  datatype Details = Details(completedRefs: seq<string>, metadata: map<string, MetaValue>)

  const NO_DETAILS := Details([], map[])

  datatype Checkpoint = Checkpoint(
    checkpointId: string, goalId: string, runId: string, journalSequence: nat, createdAt: nat, goalState: GoalState,
    nextAction: Option<string>, blockers: seq<string>, details: Details)

  predicate ForRun(c: Checkpoint, goalId: string, runId: Option<string>) {
    c.goalId == goalId && (runId.None? || c.runId == runId.value)
  }

  /** The selection key: creation time first when any run will do, journal position first otherwise. */
  predicate NotNewer(a: Checkpoint, b: Checkpoint, anyRun: bool) {
    var (a1, a2) := if anyRun then (a.createdAt, a.journalSequence) else (a.journalSequence, a.createdAt);
    var (b1, b2) := if anyRun then (b.createdAt, b.journalSequence) else (b.journalSequence, b.createdAt);
    a1 < b1 || (a1 == b1 && (a2 < b2 || (a2 == b2 && AtMost(a.checkpointId, b.checkpointId))))
  }

  function LatestCheckpoint(items: seq<Checkpoint>, goalId: string, runId: Option<string>): (r: Option<Checkpoint>)
    ensures r.None? <==> forall c :: c in items ==> !ForRun(c, goalId, runId)
    ensures r.Some? ==> r.value in items && ForRun(r.value, goalId, runId)
  {
    if items == [] then None
    else
      var last, front := items[|items| - 1], LatestCheckpoint(items[..|items| - 1], goalId, runId);
      assert items == items[..|items| - 1] + [last];
      if !ForRun(last, goalId, runId) then front
      else if front.None? || NotNewer(front.value, last, runId.None?) then Some(last)
      else front
  }

  lemma NotNewerOrder(a: Checkpoint, b: Checkpoint, c: Checkpoint, anyRun: bool)
    ensures NotNewer(a, b, anyRun) || NotNewer(b, a, anyRun)
    ensures NotNewer(a, b, anyRun) && NotNewer(b, c, anyRun) ==> NotNewer(a, c, anyRun)
  {
    AtMostTotal(a.checkpointId, b.checkpointId);
    if AtMost(a.checkpointId, b.checkpointId) && AtMost(b.checkpointId, c.checkpointId) {
      AtMostTransitive(a.checkpointId, b.checkpointId, c.checkpointId);
    }
  }

  /** No checkpoint of the run is newer than the selected one. */
  lemma {:induction false} LatestCheckpointIsNewest(items: seq<Checkpoint>, goalId: string, runId: Option<string>)
    ensures var r := LatestCheckpoint(items, goalId, runId);
            forall c :: c in items && ForRun(c, goalId, runId) ==> r.Some? && NotNewer(c, r.value, runId.None?)
  {
    if items != [] {
      var front, last := items[..|items| - 1], items[|items| - 1];
      LatestCheckpointIsNewest(front, goalId, runId);
      var before, r := LatestCheckpoint(front, goalId, runId), LatestCheckpoint(items, goalId, runId);
      forall c | c in items && ForRun(c, goalId, runId)
        ensures r.Some? && NotNewer(c, r.value, runId.None?)
      {
        NotNewerOrder(c, c, c, runId.None?);
        if c != last {
          assert c in front;
          NotNewerOrder(c, before.value, r.value, runId.None?);
        } else if before.Some? {
          NotNewerOrder(before.value, last, last, runId.None?);
        }
      }
    }
  }

  predicate HasCheckpoint(items: seq<Checkpoint>, checkpointId: string) {
    exists c :: c in items && c.checkpointId == checkpointId
  }

  predicate DistinctCheckpoints(items: seq<Checkpoint>) {
    forall i, j :: 0 <= i < j < |items| ==> items[i].checkpointId != items[j].checkpointId
  }

  lemma NotNewerAntisymmetric(a: Checkpoint, b: Checkpoint, anyRun: bool)
    requires NotNewer(a, b, anyRun) && NotNewer(b, a, anyRun)
    ensures a.checkpointId == b.checkpointId
  {
    AtMostAntisymmetric(a.checkpointId, b.checkpointId);
  }

  /** With distinct ids the selected checkpoint is the one no other of the run is newer than. */
  lemma LatestCheckpointIff(items: seq<Checkpoint>, goalId: string, runId: Option<string>, c: Checkpoint)
    requires DistinctCheckpoints(items)
    ensures LatestCheckpoint(items, goalId, runId) == Some(c) <==>
            && c in items && ForRun(c, goalId, runId)
            && forall d :: d in items && ForRun(d, goalId, runId) ==> NotNewer(d, c, runId.None?)
  {
    LatestCheckpointIsNewest(items, goalId, runId);
    var r := LatestCheckpoint(items, goalId, runId);
    if c in items && ForRun(c, goalId, runId) && NotNewer(r.value, c, runId.None?) {
      NotNewerAntisymmetric(r.value, c, runId.None?);
      var i, j :| 0 <= i < |items| && 0 <= j < |items| && items[i] == r.value && items[j] == c;
    }
  }

  /** Which checkpoint a run resumes from does not depend on the order in which they were stored. */
  lemma LatestIgnoresOrder(items: seq<Checkpoint>, others: seq<Checkpoint>, goalId: string, runId: Option<string>)
    requires DistinctCheckpoints(items) && DistinctCheckpoints(others)
    requires forall c :: c in items <==> c in others
    ensures LatestCheckpoint(items, goalId, runId) == LatestCheckpoint(others, goalId, runId)
  {
    var r := LatestCheckpoint(items, goalId, runId);
    if r.Some? {
      LatestCheckpointIff(items, goalId, runId, r.value);
      LatestCheckpointIff(others, goalId, runId, r.value);
    }
  }

  class CheckpointPort {
    var items: seq<Checkpoint>

    constructor ()
      ensures items == []
    {
      items := [];
    }

    /** Refuses the id of a stored checkpoint; otherwise stores the checkpoint. */
    method Put(c: Checkpoint) returns (ok: bool)
      modifies this
      ensures ok == !HasCheckpoint(old(items), c.checkpointId)
      ensures items == if ok then old(items) + [c] else old(items)
      ensures DistinctCheckpoints(old(items)) ==> DistinctCheckpoints(items)
    {
      if HasCheckpoint(items, c.checkpointId) {
        return false;
      }
      items := items + [c];
      return true;
    }
  }
}
