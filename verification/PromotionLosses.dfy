/** Failed audit appends: which of them take a candidate's note out of its sight. */
module PromotionLosses {
  import opened Outcomes
  import opened Text
  import opened Normalized
  import opened UsageNotes
  import opened PromotionSpec
  import opened PromotionReversal

  /** The call changes the library, its audit append fails, and it undoes the change. */
  predicate AppendFails(s: State, cfg: Config, op: EngineOp) {
    match op
    case Observing(o, auditWorks) => Observe(s, cfg, o, auditWorks).1.AuditFailed?
    case Revoking(k, actor, reason, auditWorks) => Revoke(s, k, actor, reason, auditWorks).1.RevokeAuditFailed?
  }

  /** A failed append after which the candidate's own note is put back under another identity. */
  predicate Loses(s: State, cfg: Config, op: EngineOp) {
    AppendFails(s, cfg, op) && Present(s, KeyIn(op)) && !CleanConditions(s.candidates[KeyIn(op)])
  }

  /** How often a run loses the candidate's note. */
  function Losses(s: State, cfg: Config, ops: seq<EngineOp>, k: Key): nat
    decreases |ops|
  {
    if ops == [] then 0
    else
      (if KeyIn(ops[0]) == k && Loses(s, cfg, ops[0]) then 1 else 0) + Losses(Act(s, cfg, ops[0]), cfg, ops[1..], k)
  }

  // ----- the edits one call makes -----

  function EditAll(notes: seq<Note>, id: Identity, xs: seq<Option<Note>>): seq<Note>
    decreases |xs|
  {
    if xs == [] then notes else EditAll(Edited(notes, id, xs[0]), id, xs[1..])
  }

  lemma EditOnce(notes: seq<Note>, id: Identity, x: Option<Note>)
    ensures EditAll(notes, id, [x]) == Edited(notes, id, x)
  {
    assert [x][1..] == [];
    assert EditAll(Edited(notes, id, x), id, []) == Edited(notes, id, x);
  }

  lemma EditBoth(notes: seq<Note>, id: Identity, x: Option<Note>, y: Option<Note>)
    ensures EditAll(notes, id, [x, y]) == Edited(Edited(notes, id, x), id, y)
  {
    assert [x, y][1..] == [y];
    EditOnce(Edited(notes, id, x), id, y);
  }

  ghost predicate AllOfKey(c: Candidate, xs: seq<Option<Note>>) {
    forall x :: x in xs ==> OfKey(c, x)
  }

  /** A call leaves the state as it is or edits one candidate's notes on one entry, with notes of its key. */
  ghost predicate EditsFor(s: State, u: State, c: Candidate, xs: seq<Option<Note>>) {
    && WellFormed(c) && AllOfKey(c, xs)
    && (c.target !in s.library ==> u.library == s.library)
    && (c.target in s.library ==>
          u.library == s.library[c.target := EditAll(s.library[c.target], CandidateIdentity(c), xs)])
  }

  lemma NoEdits(s: State, u: State, c: Candidate)
    requires WellFormed(c) && u.library == s.library
    ensures EditsFor(s, u, c, [])
  {
    if c.target in s.library {
      assert s.library[c.target := s.library[c.target]] == s.library;
    }
  }

  lemma OneEdit(s: State, u: State, c: Candidate, x: Option<Note>)
    requires WellFormed(c) && OfKey(c, x) && c.target in s.library
    requires u.library == s.library[c.target := Edited(s.library[c.target], CandidateIdentity(c), x)]
    ensures EditsFor(s, u, c, [x])
  {
    hide WellFormed, OfKey, Edited;
    EditOnce(s.library[c.target], CandidateIdentity(c), x);
  }

  /** An observation that does not lose the note puts a record or promotes; one that does leaves the lost state. */
  lemma ObservedOwn(s: State, cfg: Config, o: Observation, auditWorks: bool)
    requires Sound(s)
    ensures var c, u := WithEvidence(CandidateFor(s, o), o), Observe(s, cfg, o, auditWorks).0;
            && (u != s ==> Puttable(s, c) && c.key == KeyOf(o) && (c.status.Promoted? ==> HasApplied(s, c.key)))
            && (Loses(s, cfg, Observing(o, auditWorks)) ==>
                  && Puttable(s, c) && c.key == KeyOf(o) && c.target in s.library
                  && HasApplied(s, c.key) && Present(s, c.key) && !CleanConditions(c)
                  && FindNote(s.library[c.target], CandidateIdentity(c)).Some? && u == Lost(s, c))
            && (!Loses(s, cfg, Observing(o, auditWorks)) ==>
                  || u == s
                  || u == Put(s, c.(status := Barred)) || u == Put(s, c.(status := NeedsReview))
                  || u == Put(s, c.(status := Collecting)) || u == Put(s, c)
                  || (c.target in s.library && u == Promoting(s, c).0))
  {
    hide Sound, KeyOfTexts, Stricter, AppendUnique, Rejected, WellFormed, Lost, Present, Restored, PromotedNote;
    hide FindNote, Cleaned, Canonical, HasApplied, Edited;
    var c := WithEvidence(CandidateFor(s, o), o);
    if Present(s, KeyOf(o)) {
      PresentIsLive(s, KeyOf(o));
    }
    if !CandidateFor(s, o).status.Revoked? {
      CountedPuttable(s, o);
      if c.target in s.library {
        FailedShape(s, c);
        LosingIff(s, c);
      }
    }
  }

  lemma ObservationEdits(s: State, cfg: Config, o: Observation, auditWorks: bool)
    returns (c: Candidate, xs: seq<Option<Note>>)
    requires Sound(s)
    ensures var u := Observe(s, cfg, o, auditWorks).0; u == s || (c.key == KeyOf(o) && EditsFor(s, u, c, xs))
  {
    hide Sound, Observe, KeyOfTexts, Edited, FindNote, CleanConditions, Present, HasApplied, Reread, EditsFor, Loses;
    var u := Observe(s, cfg, o, auditWorks).0;
    c, xs := WithEvidence(CandidateFor(s, o), o), [];
    ObservedOwn(s, cfg, o, auditWorks);
    if u != s {
      NoEdits(s, s, c);
      if c.target in s.library && u == Promoting(s, c).0 {
        var after := PromotedNote(c, FindNote(s.library[c.target], CandidateIdentity(c)));
        FitsIsOfKey(c, Some(after));
        OneEdit(s, u, c, Some(after));
        xs := [Some(after)];
      } else if Loses(s, cfg, Observing(o, auditWorks)) {
        var n := PresentWritten(s, c);
        OneEdit(s, u, c, Some(Reread(n)));
        xs := [Some(Reread(n))];
      } else {
        NoEdits(s, u, c);
      }
    }
  }

  lemma PresentWritten(s: State, c: Candidate) returns (n: Note)
    requires Sound(s) && Puttable(s, c) && Present(s, c.key) && c.target in s.library
    ensures FindNote(s.library[c.target], CandidateIdentity(c)) == Some(n) == After(s.audit, c.key)
    ensures Written(c, n) && OfKey(c, Some(Reread(n)))
  {
    hide Sound, KeyOfTexts, FindNote, Reread, After, Strip, Cleaned;
    PresentIsLive(s, c.key);
    LiveAudited(s, c.key);
    n := After(s.audit, c.key).value;
    WrittenReread(c, n);
  }

  lemma StepEdits(s: State, cfg: Config, op: EngineOp) returns (c: Candidate, xs: seq<Option<Note>>)
    requires Sound(s)
    ensures var u := Act(s, cfg, op); u == s || (c.key == KeyIn(op) && EditsFor(s, u, c, xs))
  {
    hide Sound, KeyOfTexts, Edited, FindNote, CleanConditions, EditsFor, Revoke, Observe, Reread, Before, After;
    match op
    case Observing(o, auditWorks) =>
      c, xs := ObservationEdits(s, cfg, o, auditWorks);
    case Revoking(k, actor, reason, auditWorks) =>
      RevokeOutcome(s, k, actor, reason, auditWorks);
      if Revocable(s, k, actor, reason) {
        c := s.candidates[k];
        xs := RevocationEdits(s, k, auditWorks);
      } else {
        var some: Candidate :| true;
        c, xs := some, [];
      }
  }

  lemma RevocationEdits(s: State, k: Key, auditWorks: bool) returns (xs: seq<Option<Note>>)
    requires Sound(s) && Present(s, k)
    ensures s.candidates[k].key == k
    ensures EditsFor(s, if auditWorks then PromotionReversal.Revoked(s, k) else PutBack(s, k), s.candidates[k], xs)
  {
    hide Sound, KeyOfTexts, Edited, FindNote, CleanConditions, Reread, Before, After, Strip, Cleaned;
    var c, before := s.candidates[k], Before(s.audit, k);
    LiveAudited(s, k);
    FitsIsOfKey(c, before);
    var after := After(s.audit, k);
    WrittenReread(c, after.value);
    if auditWorks {
      OneEdit(s, PromotionReversal.Revoked(s, k), c, before);
      xs := [before];
    } else {
      xs := [before, RereadOption(after)];
      EditBoth(s.library[c.target], CandidateIdentity(c), before, RereadOption(after));
    }
  }

  lemma {:induction false} FindEditedAll(notes: seq<Note>, c: Candidate, xs: seq<Option<Note>>, d: Candidate)
    requires WellFormed(c) && WellFormed(d) && AllOfKey(c, xs) && c.key != d.key && c.target == d.target
    ensures FindNote(EditAll(notes, CandidateIdentity(c), xs), CandidateIdentity(d)) ==
            FindNote(notes, CandidateIdentity(d))
    decreases |xs|
  {
    hide WellFormed, OfKey, Edited, FindNote;
    if xs != [] {
      OtherCandidate(c, xs[0], d);
      FindEdited(notes, CandidateIdentity(c), xs[0], CandidateIdentity(d));
      FindEditedAll(Edited(notes, CandidateIdentity(c), xs[0]), c, xs[1..], d);
    }
  }

  // ----- a candidate keeps its note unless one of its own calls loses it -----

  /** A call for one candidate leaves the record and the audit of every other as they are. */
  lemma OtherRecords(s: State, cfg: Config, op: EngineOp, k: Key)
    requires Sound(s) && KeyIn(op) != k
    ensures var u := Act(s, cfg, op);
            && (k in u.candidates <==> k in s.candidates)
            && (k in s.candidates ==> u.candidates[k] == s.candidates[k])
            && Applied(u.audit, k) == Applied(s.audit, k)
  {
    hide Sound, KeyOfTexts, Edited, FindNote, CleanConditions, Observe, Revoke, Before, After, Applied, Present;
    hide Puttable, HasApplied, Withdrawn, PromotedNote;
    match op
    case Observing(o, auditWorks) =>
      ObservedCases(s, cfg, o, auditWorks);
      var u, c := Observe(s, cfg, o, auditWorks).0, WithEvidence(CandidateFor(s, o), o);
      if c.target in s.library && u == Promoting(s, c).0 {
        AppliedAppended(s.audit, u.audit[|s.audit|], k);
      }
    case Revoking(j, actor, reason, auditWorks) =>
      RevokeOutcome(s, j, actor, reason, auditWorks);
      if Revocable(s, j, actor, reason) {
        PresentIsLive(s, j);
        RevokedLive(s, j, k);
      }
  }

  lemma OtherPresent(s: State, cfg: Config, op: EngineOp, k: Key)
    requires Sound(s) && KeyIn(op) != k
    ensures Live(Act(s, cfg, op), k) <==> Live(s, k)
    ensures Present(Act(s, cfg, op), k) <==> Present(s, k)
  {
    hide Sound, KeyOfTexts, Edited, FindNote, Act, Applied, WellFormed, EditAll, AllOfKey;
    OtherRecords(s, cfg, op, k);
    var c, xs := StepEdits(s, cfg, op);
    if Act(s, cfg, op) != s && Live(s, k) {
      LiveAudited(s, k);
      var d := s.candidates[k];
      if d.target == c.target {
        FindEditedAll(s.library[c.target], c, xs, d);
      }
    }
  }

  lemma PutPresent(s: State, c: Candidate)
    requires Sound(s) && Puttable(s, c)
    ensures Live(Put(s, c), c.key) <==> Live(s, c.key)
    ensures Present(Put(s, c), c.key) <==> Present(s, c.key)
  {
    hide Sound, Applied, FindNote, WellFormed, HasApplied;
    PutLive(s, c, c.key);
    LiveKnown(s, c.key);
  }

  lemma PromotingPresent(s: State, c: Candidate)
    requires Sound(s) && Puttable(s, c) && c.target in s.library
    ensures Present(Promoting(s, c).0, c.key)
  {
    hide Sound, Applied, FindNote, WellFormed, HasApplied, Edited, After, Before;
    var u, id := Promoting(s, c).0, CandidateIdentity(c);
    var m := u.audit[|s.audit|];
    PromotionAppended(s.audit, m);
    PromotingLive(s, c, c.key);
    FindReplaced(s.library[c.target], id, m.after.value);
  }

  lemma OwnPresent(s: State, cfg: Config, op: EngineOp)
    requires Sound(s) && (Live(s, KeyIn(op)) ==> Present(s, KeyIn(op)))
    ensures var u := Act(s, cfg, op);
            !Loses(s, cfg, op) ==> Live(u, KeyIn(op)) ==> Present(u, KeyIn(op))
    ensures Loses(s, cfg, op) ==> !Present(Act(s, cfg, op), KeyIn(op))
  {
    hide Sound, KeyOfTexts, Edited, FindNote, CleanConditions, Observe, Revoke, Applied, Present, Live, Put;
    hide Puttable, HasApplied, Withdrawn, PromotedNote, Promoting, Lost, PromotionReversal.Revoked, PutBack;
    match op
    case Observing(o, auditWorks) =>
      ObservedOwn(s, cfg, o, auditWorks);
      var c := WithEvidence(CandidateFor(s, o), o);
      if Loses(s, cfg, op) {
        LostKeepsSound(s, c);
      } else if Act(s, cfg, op) != s {
        PutsPuttable(s, c);
        PutPresent(s, c.(status := Barred));
        PutPresent(s, c.(status := NeedsReview));
        PutPresent(s, c.(status := Collecting));
        PutPresent(s, c);
        if c.target in s.library {
          PromotingPresent(s, c);
        }
      }
    case Revoking(k, actor, reason, auditWorks) =>
      RevokeOutcome(s, k, actor, reason, auditWorks);
      if Revocable(s, k, actor, reason) {
        PresentIsLive(s, k);
        RevokedLive(s, k, k);
        PutBackPresent(s, k);
      }
  }

  lemma StepPresent(s: State, cfg: Config, op: EngineOp, k: Key)
    requires Sound(s) && (Live(s, k) ==> Present(s, k))
    requires KeyIn(op) == k ==> !Loses(s, cfg, op)
    ensures Live(Act(s, cfg, op), k) ==> Present(Act(s, cfg, op), k)
  {
    hide Sound, Act, Live, Present, Loses;
    if KeyIn(op) == k {
      OwnPresent(s, cfg, op);
    } else {
      OtherPresent(s, cfg, op, k);
    }
  }

  /** In a run without losses of its note a live candidate finds the note its latest promotion wrote. */
  lemma {:induction false} RunPresent(s: State, cfg: Config, ops: seq<EngineOp>, k: Key)
    requires Sound(s) && (Live(s, k) ==> Present(s, k)) && Losses(s, cfg, ops, k) == 0
    ensures Live(Run(s, cfg, ops), k) ==> Present(Run(s, cfg, ops), k)
    decreases |ops|
  {
    hide Sound, Act, Live, Present, Loses;
    if ops != [] {
      StepPresent(s, cfg, ops[0], k);
      ActKeepsSound(s, cfg, ops[0]);
      RunPresent(Act(s, cfg, ops[0]), cfg, ops[1..], k);
    }
  }

  /** The note a candidate finds on its entry. */
  function FoundNote(s: State, k: Key): Option<Note> {
    if k in s.candidates && s.candidates[k].target in s.library
    then FindNote(s.library[s.candidates[k].target], CandidateIdentity(s.candidates[k]))
    else None
  }

  /** A failed append leaves a candidate revocable exactly when its note was canonical: its conditions are clean. */
  lemma FailedAppendKeepsRevocableIff(s: State, cfg: Config, op: EngineOp, actor: string, reason: string)
    requires Sound(s) && AppendFails(s, cfg, op) && Revocable(s, KeyIn(op), actor, reason)
    ensures var k, u := KeyIn(op), Act(s, cfg, op);
            && (CanonicalOrNone(FoundNote(s, k)) <==> CleanConditions(s.candidates[k]))
            && (Revocable(u, k, actor, reason) <==> CanonicalOrNone(FoundNote(s, k)))
            && k in u.candidates && u.candidates[k].status.Promoted? && u.audit == s.audit
            && Revoke(u, k, actor, reason, true).1 == if CanonicalOrNone(FoundNote(s, k)) then Undone else Diverged
  {
    hide Sound, KeyOfTexts, Edited, FindNote, CleanConditions, Applied, WellFormed, Loses, Blank, Reread;
    hide AppendFails, Observe, Revoke;
    var k, u := KeyIn(op), Act(s, cfg, op);
    LiveAudited(s, k);
    WrittenReread(s.candidates[k], After(s.audit, k).value);
    LosesMeans(s, cfg, op);
    OwnPresent(s, cfg, op);
    FailedRecord(s, cfg, op);
    ActKeepsSound(s, cfg, op);
    RevokeOutcome(u, k, actor, reason, true);
    if !Revocable(u, k, actor, reason) {
      AbsentDiverges(u, k, actor, reason);
    }
  }

  lemma LosesMeans(s: State, cfg: Config, op: EngineOp)
    requires AppendFails(s, cfg, op) && Present(s, KeyIn(op))
    ensures KeyIn(op) in s.candidates && (Loses(s, cfg, op) <==> !CleanConditions(s.candidates[KeyIn(op)]))
  {
    hide AppendFails, CleanConditions, FindNote;
  }

  /** A failed append leaves the audit as it was and the record with its status. */
  lemma FailedRecord(s: State, cfg: Config, op: EngineOp)
    requires Sound(s) && AppendFails(s, cfg, op) && KeyIn(op) in s.candidates
    ensures var k, u := KeyIn(op), Act(s, cfg, op);
            && u.audit == s.audit && k in u.candidates && u.candidates[k].status == s.candidates[k].status
            && SameTexts(u.candidates[k], s.candidates[k])
  {
    hide Sound, KeyOfTexts, Edited, FindNote, Applied, HasApplied, Blank, Reread, Rejected, PromotedNote, Canonical;
    hide Revoke, WellFormed, AppendUnique, Stricter;
    match op
    case Observing(o, auditWorks) =>
      var c := WithEvidence(CandidateFor(s, o), o);
      CountedPuttable(s, o);
      FailedShape(s, c);
    case Revoking(k, actor, reason, auditWorks) =>
      RevokeOutcome(s, k, actor, reason, auditWorks);
  }

  /** A promoted candidate that does not find its latest note cannot be revoked: the call reports a divergence. */
  lemma AbsentDiverges(s: State, k: Key, actor: string, reason: string)
    requires Sound(s) && k in s.candidates && s.candidates[k].status.Promoted? && !Present(s, k)
    requires !Blank(actor) && !Blank(reason)
    ensures Revoke(s, k, actor, reason, true) == (s, Diverged)
  {
    hide Accounted, LiveIdentities, KeyOfTexts, Edited, FindNote, Applied, Blank, EntryMatches, Written, Strip, Cleaned;
    assert Live(s, k);
    LiveAudited(s, k);
  }

  // ----- clean conditions are never lost -----

  /** Every observation of the candidate gives its conditions as a reread note keeps them. */
  predicate CleanlyObserved(ops: seq<EngineOp>, k: Key) {
    forall op :: op in ops && op.Observing? && KeyIn(op) == k ==> Cleaned(op.o.applies) == op.o.applies
  }

  lemma StepKeepsConditions(s: State, cfg: Config, op: EngineOp, k: Key)
    requires Sound(s)
    ensures k in s.candidates ==>
              k in Act(s, cfg, op).candidates && Act(s, cfg, op).candidates[k].applies == s.candidates[k].applies
    ensures k !in s.candidates && k in Act(s, cfg, op).candidates ==>
              op.Observing? && KeyIn(op) == k && Act(s, cfg, op).candidates[k].applies == op.o.applies
  {
    hide Sound, KeyOfTexts, Edited, FindNote, Applied, HasApplied, Blank, Reread, PromotedNote, Canonical, Observe;
    hide Words, Strip, FailedPromotion;
    hide Revoke, WellFormed, AppendUnique, Stricter, Live, CleanConditions, Before, After, Present;
    match op
    case Observing(o, auditWorks) =>
      ObservedCases(s, cfg, o, auditWorks);
    case Revoking(j, actor, reason, auditWorks) =>
      RevokeOutcome(s, j, actor, reason, auditWorks);
      if Revocable(s, j, actor, reason) {
        PresentIsLive(s, j);
      }
  }

  /** A candidate observed with clean conditions loses no note, whichever appends fail. */
  lemma {:induction false} CleanNeverLost(s: State, cfg: Config, ops: seq<EngineOp>, k: Key)
    requires Sound(s) && CleanlyObserved(ops, k)
    requires k in s.candidates ==> CleanConditions(s.candidates[k])
    ensures Losses(s, cfg, ops, k) == 0
    decreases |ops|
  {
    hide Sound, Act, Present, AppendFails;
    if ops != [] {
      assert ops[0] in ops;
      if Present(s, k) {
        PresentIsLive(s, k);
      }
      StepKeepsConditions(s, cfg, ops[0], k);
      ActKeepsSound(s, cfg, ops[0]);
      CleanNeverLost(Act(s, cfg, ops[0]), cfg, ops[1..], k);
    }
  }

  // ----- conditions with spaces around them can be lost -----

  function Spaced(evidenceId: string): Observation {
    Observation(evidenceId, Target("book", "entry"), "retry", [" x "], true, true, Some("ref"), false, Normal, None)
  }

  function SpacedRun(): seq<EngineOp> {
    [Observing(Spaced("first"), true), Observing(Spaced("second"), false)]
  }

  lemma SpacedTexts()
    ensures Strip(" x ") == "x" && Strip("retry") == "retry" && Strip("ref") == "ref"
    ensures !Blank(" x ") && !Blank("ref") && Cleaned([" x "]) == ["x"]
  {
    assert StripLeft(" x ") == "x " by {
      assert " x "[1..] == "x ";
    }
    assert StripRight("x ") == "x" by {
      assert "x "[..1] == "x";
    }
    assert [" x "][1..] == [];
  }

  /** An empty entry. */
  function EmptyEntry(): State {
    Initial(map[Target("book", "entry") := []])
  }

  lemma SpacedPromoted()
    ensures var s, k := Act(EmptyEntry(), Config(1, false), SpacedRun()[0]), KeyOf(Spaced("first"));
            && Sound(s) && Present(s, k) && k in s.candidates
            && s.candidates[k].status.Promoted? && !CleanConditions(s.candidates[k])
            && AppendFails(s, Config(1, false), SpacedRun()[1])
  {
    hide Blank, KeyOfTexts, Strip, Words, FindNote, Edited, Applied, Sound;
    SpacedTexts();
    var start, o := EmptyEntry(), Spaced("first");
    InitialSound(start.library);
    ActKeepsSound(start, Config(1, false), SpacedRun()[0]);
    CountedPuttable(start, o);
    assert Act(start, Config(1, false), SpacedRun()[0]) == Promoting(start, WithEvidence(NewCandidate(o), o)).0;
    PromotingPresent(start, WithEvidence(NewCandidate(o), o));
  }

  /** Two verified successes, the second with a failing append, leave a promoted candidate nobody can revoke. */
  lemma FailedAppendCanDiverge(actor: string, reason: string)
    requires !Blank(actor) && !Blank(reason)
    ensures var s, k := Run(EmptyEntry(), Config(1, false), SpacedRun()), KeyOf(Spaced("first"));
            && k in s.candidates && s.candidates[k].status.Promoted?
            && Revoke(s, k, actor, reason, true).1 == Diverged
            && Losses(EmptyEntry(), Config(1, false), SpacedRun(), k) == 1
  {
    hide Blank, Act, Sound, Revoke, Present, CleanConditions, AppendFails, KeyOfTexts, FoundNote, Canonical, Strip;
    var start, cfg, ops := EmptyEntry(), Config(1, false), SpacedRun();
    var s := Act(start, cfg, ops[0]);
    SpacedPromoted();
    FailedAppendKeepsRevocableIff(s, cfg, ops[1], actor, reason);
    assert ops[1..] == [ops[1]] && [ops[1]][1..] == [];
    assert Run(start, cfg, ops) == Act(s, cfg, ops[1]) by {
      assert Run(s, cfg, [ops[1]]) == Run(Act(s, cfg, ops[1]), cfg, []);
    }
    assert Losses(start, cfg, ops, KeyIn(ops[1])) == 1 by {
      assert !Present(start, KeyIn(ops[0])) by { NothingPresent(KeyIn(ops[0])); }
      assert Losses(s, cfg, [ops[1]], KeyIn(ops[1])) == 1 + Losses(Act(s, cfg, ops[1]), cfg, [], KeyIn(ops[1]));
    }
  }

  lemma NothingPresent(k: Key)
    ensures !Present(EmptyEntry(), k)
  {
  }
}
