/** A run with one candidate's operations left out, read off the state of the full run. */
module PromotionErasure {
  import opened Outcomes
  import opened Sequences
  import opened Text
  import opened Normalized
  import opened UsageNotes
  import opened PromotionSpec
  import opened PromotionLosses
  import opened PromotionReversal

  /** The state with every trace of one candidate taken back. */
  function Erased(s: State, k: Key): State {
    var library :=
      if Live(s, k) && s.candidates[k].target in s.library
      then s.library[s.candidates[k].target := Withdrawn(s, k)]
      else s.library;
    State(s.candidates - {k}, library, Unrelated(s.audit, k))
  }

  function Without(ops: seq<EngineOp>, k: Key): seq<EngineOp> {
    if ops == [] then []
    else (if KeyIn(ops[0]) == k then [] else [ops[0]]) + Without(ops[1..], k)
  }

  // ----- the candidate's own steps vanish -----

  lemma PutErasedOwn(s: State, c: Candidate)
    requires Sound(s) && Puttable(s, c)
    ensures Erased(Put(s, c), c.key) == Erased(s, c.key)
  {
    hide Sound, Applied, Edited, WellFormed, Unrelated, HasApplied, Before;
    PutLive(s, c, c.key);
  }

  /** Undoing the promotion just made, or undoing it after an earlier one, gives the same notes. */
  lemma PromotedNotesUndone(s: State, c: Candidate)
    requires Sound(s) && Puttable(s, c) && c.target in s.library
    ensures var u := Promoting(s, c).0;
            Edited(u.library[c.target], CandidateIdentity(c), Before(u.audit, c.key)) ==
            if Live(s, c.key) then Edited(s.library[c.target], CandidateIdentity(c), Before(s.audit, c.key))
            else s.library[c.target]
  {
    hide Sound, Applied, Edited, FindNote, WellFormed, AuditMatches, Before, After, CleanConditions, Canonical;
    var notes, id := s.library[c.target], CandidateIdentity(c);
    var m := Promoting(s, c).0.audit[|s.audit|];
    PromotionAppended(s.audit, m);
    OwnFacts(s, c);
    FoundBefore(s, c);
    if Live(s, c.key) && FindNote(notes, id).Some? {
      EditTwice(notes, id, m.after.value, Before(s.audit, c.key));
    } else {
      EditUndone(notes, id, m.after.value);
      if Live(s, c.key) {
        LiveAudited(s, c.key);
        CanonicalFits(c, Before(s.audit, c.key));
        EditMissing(notes, id);
      }
    }
  }

  lemma PromotingErasedOwn(s: State, c: Candidate)
    requires Sound(s) && Puttable(s, c) && c.target in s.library
    ensures Erased(Promoting(s, c).0, c.key) == Erased(s, c.key)
  {
    hide Sound, AuditMatches, Applied, Edited, FindNote, WellFormed, Unrelated, HasApplied, PromotedNote, Before;
    var u := Promoting(s, c).0;
    PromotingLive(s, c, c.key);
    PromotedNotesUndone(s, c);
    UnrelatedAppended(s.audit, u.audit[|s.audit|], c.key);
    assert u.library[c.target := s.library[c.target]] == s.library;
    assert u.candidates - {c.key} == s.candidates - {c.key};
  }

  lemma RevokedErasedOwn(s: State, k: Key)
    requires Sound(s) && Live(s, k) && s.candidates[k].target in s.library
    ensures Erased(PromotionReversal.Revoked(s, k), k) == Erased(s, k)
  {
    hide Sound, Applied, Edited, Unrelated, Before;
    var u := PromotionReversal.Revoked(s, k);
    RevokedLive(s, k, k);
    UnrelatedAppended(s.audit, u.audit[|s.audit|], k);
    assert u.candidates - {k} == s.candidates - {k};
  }

  lemma PutBackErasedOwn(s: State, k: Key)
    requires Sound(s) && Present(s, k) && CleanConditions(s.candidates[k])
    ensures Erased(PutBack(s, k), k) == Erased(s, k)
  {
    hide Sound, Applied, Edited, Unrelated, Before, After, FindNote, CleanConditions, KeyOfTexts, Reread;
    var c, after := s.candidates[k], After(s.audit, k);
    LiveAudited(s, k);
    RevokeShape(s, k);
    WrittenReread(c, after.value);
    CanonicalMeans(after.value);
    EditUndone(Withdrawn(s, k), CandidateIdentity(c), after.value);
    assert PutBack(s, k).library[c.target := Withdrawn(s, k)] == s.library[c.target := Withdrawn(s, k)];
  }

  lemma OwnStepErased(s: State, cfg: Config, op: EngineOp)
    requires Sound(s) && !Loses(s, cfg, op)
    ensures Erased(Act(s, cfg, op), KeyIn(op)) == Erased(s, KeyIn(op))
  {
    hide Sound, Observe, Revoke, Promoting, PromotionReversal.Revoked, Put, KeyOfTexts, Applied, Live, Edited, Erased;
    hide Puttable, Lost, PutBack, CleanConditions, Present;
    match op
    case Observing(o, auditWorks) =>
      ObservedOwn(s, cfg, o, auditWorks);
      var c := WithEvidence(CandidateFor(s, o), o);
      if Act(s, cfg, op) != s {
        PutsPuttable(s, c);
        PutErasedOwn(s, c.(status := Barred));
        PutErasedOwn(s, c.(status := NeedsReview));
        PutErasedOwn(s, c.(status := Collecting));
        PutErasedOwn(s, c);
        if c.target in s.library {
          PromotingErasedOwn(s, c);
        }
      }
    case Revoking(k, actor, reason, auditWorks) =>
      RevokeOutcome(s, k, actor, reason, auditWorks);
      if Revocable(s, k, actor, reason) {
        PresentIsLive(s, k);
        RevokedErasedOwn(s, k);
        if !auditWorks {
          LosesMeans(s, cfg, op);
          PutBackErasedOwn(s, k);
        }
      }
  }

  // ----- the steps of other candidates are the same with and without it -----

  lemma PutErasedOther(s: State, c: Candidate, k: Key)
    requires Sound(s) && Puttable(s, c) && c.key != k
    ensures Erased(Put(s, c), k) == Put(Erased(s, k), c)
  {
    hide Sound, Applied, Edited, WellFormed, Unrelated, HasApplied, Puttable, Before;
    PutLive(s, c, k);
    assert s.candidates[c.key := c] - {k} == (s.candidates - {k})[c.key := c];
  }

  /** One entry's notes: an edit for `c` and the undoing of `k` commute, and `c` finds the same note in both. */
  lemma EntryErased(s: State, k: Key, c: Candidate, x: Option<Note>)
    requires Keyed(s) && AuditMatches(s, k) && Live(s, k) && s.candidates[k].target == c.target
    requires c.key != k && WellFormed(c) && OfKey(c, x) && c.target in s.library
    ensures FindNote(Withdrawn(s, k), CandidateIdentity(c)) == FindNote(s.library[c.target], CandidateIdentity(c))
    ensures Edited(Edited(s.library[c.target], CandidateIdentity(c), x), CandidateIdentity(s.candidates[k]),
                   Before(s.audit, k)) ==
            Edited(Withdrawn(s, k), CandidateIdentity(c), x)
  {
    hide Applied, Edited, FindNote, Unrelated, KeyOfTexts, Before, After, Single, CleanConditions, Canonical;
    var d, before := s.candidates[k], Before(s.audit, k);
    OtherCandidate(c, x, d);
    if !CleanConditions(d) {
      CanonicalFits(d, before);
    }
    FindEdited(s.library[c.target], CandidateIdentity(d), before, CandidateIdentity(c));
    EditsCommute(s.library[c.target], CandidateIdentity(c), x, CandidateIdentity(d), before);
  }

  lemma ErasedKeepsEntries(s: State, k: Key)
    ensures Erased(s, k).library.Keys == s.library.Keys
  {
    hide Applied, Edited, Unrelated;
  }

  lemma SameFind(s: State, k: Key, c: Candidate)
    requires Sound(s) && c.target in s.library && c.key != k && WellFormed(c)
    ensures c.target in Erased(s, k).library
    ensures FindNote(Erased(s, k).library[c.target], CandidateIdentity(c)) ==
            FindNote(s.library[c.target], CandidateIdentity(c))
  {
    hide Applied, Edited, FindNote, KeyOfTexts, Unrelated, HasApplied, AuditMatches, Accounted, LiveIdentities;
    ErasedKeepsEntries(s, k);
    if Live(s, k) && s.candidates[k].target == c.target {
      EntryErased(s, k, c, None);
    }
  }

  /** A state `u` reached by one library edit for another candidate. */
  ghost predicate EditedFor(s: State, u: State, k: Key, c: Candidate, x: Option<Note>) {
    && c.target in s.library && WellFormed(c) && OfKey(c, x)
    && u.library == s.library[c.target := Edited(s.library[c.target], CandidateIdentity(c), x)]
    && (Live(u, k) <==> Live(s, k))
    && Applied(u.audit, k) == Applied(s.audit, k)
    && (Live(s, k) ==> s.candidates[k] == u.candidates[k])
  }

  lemma LibraryErased(s: State, u: State, k: Key, c: Candidate, x: Option<Note>)
    requires Keyed(s) && AuditMatches(s, k) && c.key != k && EditedFor(s, u, k, c, x)
    ensures c.target in Erased(s, k).library
    ensures Erased(u, k).library ==
            Erased(s, k).library[c.target := Edited(Erased(s, k).library[c.target], CandidateIdentity(c), x)]
  {
    hide Applied, Edited, FindNote, KeyOfTexts, Unrelated, HasApplied, EntryMatches;
    ErasedKeepsEntries(s, k);
    if Live(s, k) && s.candidates[k].target == c.target {
      EntryErased(s, k, c, x);
    }
  }

  lemma SoundMatches(s: State, k: Key)
    requires Sound(s)
    ensures Keyed(s) && AuditMatches(s, k)
  {
  }

  lemma PromotingErasedOther(s: State, c: Candidate, k: Key)
    requires Sound(s) && Puttable(s, c) && c.target in s.library && c.key != k
    ensures c.target in Erased(s, k).library && Erased(Promoting(s, c).0, k) == Promoting(Erased(s, k), c).0
  {
    hide Sound, Applied, Edited, FindNote, KeyOfTexts, Unrelated, HasApplied, Live, Erased, Keyed, AuditMatches;
    hide Strip, Cleaned;
    var u := Promoting(s, c).0;
    SoundMatches(s, k);
    SameFind(s, k, c);
    PromotingLive(s, c, k);
    var after := PromotedNote(c, FindNote(s.library[c.target], CandidateIdentity(c)));
    LiveKnown(s, k);
    FitsIsOfKey(c, Some(after));
    assert EditedFor(s, u, k, c, Some(after));
    LibraryErased(s, u, k, c, Some(after));
    UnrelatedAppended(s.audit, u.audit[|s.audit|], k);
    ErasedParts(s, k);
    ErasedParts(u, k);
    var done := c.(status := Promoted);
    assert s.candidates[done.key := done] - {k} == (s.candidates - {k})[done.key := done];
  }

  lemma ErasedParts(s: State, k: Key)
    ensures Erased(s, k).candidates == s.candidates - {k} && Erased(s, k).audit == Unrelated(s.audit, k)
  {
    hide Applied, Edited, Unrelated, Live;
  }

  lemma LostErasedOther(s: State, c: Candidate, k: Key)
    requires Sound(s) && Puttable(s, c) && c.target in s.library && c.key != k
    requires Present(s, c.key) && FindNote(s.library[c.target], CandidateIdentity(c)).Some?
    ensures c.target in Erased(s, k).library
    ensures FindNote(Erased(s, k).library[c.target], CandidateIdentity(c)).Some?
    ensures Erased(Lost(s, c), k) == Lost(Erased(s, k), c)
  {
    hide Sound, Applied, Edited, FindNote, KeyOfTexts, Unrelated, HasApplied, Live, Erased, Keyed, AuditMatches;
    hide Strip, Cleaned, Present, Reread, SameTexts;
    var n := PresentWritten(s, c);
    var x, u := Some(Reread(n)), Lost(s, c);
    SoundMatches(s, k);
    SameFind(s, k, c);
    PutLive(s, c, k);
    LibraryLive(u, Put(s, c), k);
    LiveKnown(s, k);
    assert EditedFor(s, u, k, c, x);
    LibraryErased(s, u, k, c, x);
    ErasedParts(s, k);
    ErasedParts(u, k);
    assert s.candidates[c.key := c] - {k} == (s.candidates - {k})[c.key := c];
  }

  /** Being live does not depend on the library. */
  lemma LibraryLive(s: State, u: State, k: Key)
    requires s.candidates == u.candidates && s.audit == u.audit
    ensures Live(s, k) <==> Live(u, k)
  {
  }

  lemma RevokedErasedOther(s: State, j: Key, k: Key)
    requires Sound(s) && Present(s, j) && j != k && Present(Erased(s, k), j)
    ensures Erased(PromotionReversal.Revoked(s, j), k) == PromotionReversal.Revoked(Erased(s, k), j)
  {
    hide Sound, Applied, Edited, FindNote, KeyOfTexts, Unrelated, Erased, Keyed, AuditMatches, Strip, Cleaned;
    hide HasApplied;
    var u, c, before := PromotionReversal.Revoked(s, j), s.candidates[j], Before(s.audit, j);
    SoundMatches(s, k);
    LiveAudited(s, j);
    FitsIsOfKey(c, before);
    RevokedLive(s, j, k);
    assert EditedFor(s, u, k, c, before);
    LibraryErased(s, u, k, c, before);
    UnrelatedAppended(s.audit, u.audit[|s.audit|], k);
    AppliedUnrelated(s.audit, k, j);
    ErasedParts(s, k);
    ErasedParts(u, k);
    var done := c.(status := Status.Revoked);
    assert s.candidates[j := done] - {k} == (s.candidates - {k})[j := done];
  }

  lemma PutBackErasedOther(s: State, j: Key, k: Key)
    requires Sound(s) && Present(s, j) && j != k && Present(Erased(s, k), j)
    ensures Erased(PutBack(s, j), k) == PutBack(Erased(s, k), j)
  {
    hide Sound, Applied, Edited, FindNote, KeyOfTexts, Unrelated, Erased, Keyed, AuditMatches, Strip, Cleaned;
    hide HasApplied, Reread;
    var c, before := s.candidates[j], Before(s.audit, j);
    SoundMatches(s, k);
    LiveAudited(s, j);
    FitsIsOfKey(c, before);
    WrittenReread(c, After(s.audit, j).value);
    var after := RereadOption(After(s.audit, j));
    var mid, u := WithNotes(s, c.target, Withdrawn(s, j)), PutBack(s, j);
    LibraryLive(mid, s, k);
    LibraryLive(u, s, k);
    MatchesAfterEdit(s, mid, c, before, k);
    assert EditedFor(s, mid, k, c, before);
    LibraryErased(s, mid, k, c, before);
    assert EditedFor(mid, u, k, c, after);
    LibraryErased(mid, u, k, c, after);
    AppliedUnrelated(s.audit, k, j);
    ErasedParts(s, k);
    ErasedParts(u, k);
  }

  lemma MatchesAfterEdit(s: State, u: State, c: Candidate, x: Option<Note>, k: Key)
    requires Keyed(s) && AuditMatches(s, k) && WellFormed(c) && OfKey(c, x) && k != c.key && c.target in s.library
    requires u == WithNotes(s, c.target, Edited(s.library[c.target], CandidateIdentity(c), x))
    ensures Keyed(u) && AuditMatches(u, k)
  {
    hide Applied, Edited, FindNote, KeyOfTexts, EntryMatches;
    if k in s.candidates {
      OtherMatches(s, u, c, x, k);
    }
  }

  lemma ObservedElsewhere(s: State, cfg: Config, o: Observation, auditWorks: bool, k: Key)
    requires Sound(s) && KeyOf(o) != k
    ensures Erased(Observe(s, cfg, o, auditWorks).0, k) == Observe(Erased(s, k), cfg, o, auditWorks).0
  {
    hide Sound, KeyOfTexts, Applied, Live, Edited, Erased, Puttable, Rejected, Stricter, AppendUnique, Promoting, Put;
    hide FailedPromotion, Lost, Present, FindNote, CleanConditions, Canonical, WellFormed, HasApplied;
    ErasedParts(s, k);
    ErasedKeepsEntries(s, k);
    assert CandidateFor(Erased(s, k), o) == CandidateFor(s, o);
    var c := WithEvidence(CandidateFor(s, o), o);
    if !CandidateFor(s, o).status.Revoked? {
      CountedPuttable(s, o);
      PutsPuttable(s, c);
      PutErasedOther(s, c.(status := Barred), k);
      PutErasedOther(s, c.(status := NeedsReview), k);
      PutErasedOther(s, c.(status := Collecting), k);
      if c.target in s.library {
        PromotingErasedOther(s, c, k);
        FailedElsewhere(s, c, k);
      }
    }
  }

  lemma FailedElsewhere(s: State, c: Candidate, k: Key)
    requires Sound(s) && Puttable(s, c) && c.target in s.library && c.key != k
    ensures c.target in Erased(s, k).library
    ensures Erased(FailedPromotion(s, c).0, k) == FailedPromotion(Erased(s, k), c).0
  {
    hide Sound, WellFormed, Erased, Put, FailedPromotion, Lost, Present, FindNote, CleanConditions, Canonical;
    PuttableWellFormed(s, c);
    SameFind(s, k, c);
    FailedShape(s, c);
    FailedShape(Erased(s, k), c);
    PutErasedOther(s, c, k);
    LosingIff(s, c);
    if !CanonicalOrNone(FindNote(s.library[c.target], CandidateIdentity(c))) {
      LostErasedOther(s, c, k);
    }
  }

  lemma PuttableWellFormed(s: State, c: Candidate)
    requires Puttable(s, c)
    ensures WellFormed(c)
  {
  }

  lemma RevokedElsewhere(s: State, j: Key, actor: string, reason: string, auditWorks: bool, k: Key)
    requires Sound(s) && Sound(Erased(s, k)) && j != k
    ensures Erased(Revoke(s, j, actor, reason, auditWorks).0, k) == Revoke(Erased(s, k), j, actor, reason, auditWorks).0
  {
    hide Sound, KeyOfTexts, Applied, Live, Edited, Erased, Revoke, PromotionReversal.Revoked, Blank, PutBack, Present;
    ErasedParts(s, k);
    SameRevocable(s, j, k);
    RevokeOutcome(s, j, actor, reason, auditWorks);
    RevokeOutcome(Erased(s, k), j, actor, reason, auditWorks);
    if Revocable(s, j, actor, reason) {
      RevokedErasedOther(s, j, k);
      PutBackErasedOther(s, j, k);
    }
  }

  lemma SameRevocable(s: State, j: Key, k: Key)
    requires Sound(s) && j != k
    ensures Present(s, j) <==> Present(Erased(s, k), j)
  {
    hide Sound, KeyOfTexts, Applied, Edited, FindNote, Unrelated, Erased, Strip, Cleaned;
    ErasedParts(s, k);
    ErasedKeepsEntries(s, k);
    AppliedUnrelated(s.audit, k, j);
    if j in s.candidates && s.candidates[j].target in s.library {
      SoundIsKeyed(s);
      SameFind(s, k, s.candidates[j]);
    }
  }

  /** The engine commutes with erasing a candidate: its steps that lose no note vanish and all others are the same. */
  lemma StepErased(s: State, cfg: Config, op: EngineOp, k: Key)
    requires Sound(s) && Sound(Erased(s, k))
    requires KeyIn(op) == k ==> !Loses(s, cfg, op)
    ensures Erased(Act(s, cfg, op), k) == if KeyIn(op) == k then Erased(s, k) else Act(Erased(s, k), cfg, op)
  {
    hide Sound, Observe, Revoke, Erased, Loses;
    if KeyIn(op) == k {
      OwnStepErased(s, cfg, op);
    } else {
      match op
      case Observing(o, auditWorks) => ObservedElsewhere(s, cfg, o, auditWorks, k);
      case Revoking(j, actor, reason, auditWorks) => RevokedElsewhere(s, j, actor, reason, auditWorks, k);
    }
  }

  lemma {:induction false} RunErased(s: State, cfg: Config, ops: seq<EngineOp>, k: Key)
    requires Sound(s) && Sound(Erased(s, k)) && Losses(s, cfg, ops, k) == 0
    ensures Erased(Run(s, cfg, ops), k) == Run(Erased(s, k), cfg, Without(ops, k))
    decreases |ops|
  {
    hide Sound, Erased, Act, Loses;
    if ops != [] {
      StepErased(s, cfg, ops[0], k);
      ActKeepsSound(s, cfg, ops[0]);
      ActKeepsSound(Erased(s, k), cfg, ops[0]);
      RunErased(Act(s, cfg, ops[0]), cfg, ops[1..], k);
      var rest := Without(ops[1..], k);
      assert ([ops[0]] + rest)[0] == ops[0] && ([ops[0]] + rest)[1..] == rest;
      assert [] + rest == rest;
    }
  }

  lemma InitialErased(library: map<Target, seq<Note>>, k: Key)
    ensures Erased(Initial(library), k) == Initial(library)
  {
    hide Live, Unrelated, Applied, Edited;
    var s := Initial(library);
    LiveKnown(s, k);
    NothingUnrelated(k);
    assert s.candidates - {k} == map[];
  }

  lemma NothingUnrelated(k: Key)
    ensures Unrelated([], k) == []
  {
  }

  /** The library, the other candidates and their audit end as if a revoked candidate had never been observed. */
  lemma RevocationErasesCandidate(library: map<Target, seq<Note>>, cfg: Config, ops: seq<EngineOp>, k: Key)
    requires CanonicalLibrary(library) && Losses(Initial(library), cfg, ops, k) == 0
    requires !Live(Run(Initial(library), cfg, ops), k)
    ensures Run(Initial(library), cfg, ops).library == Run(Initial(library), cfg, Without(ops, k)).library
    ensures Run(Initial(library), cfg, ops).candidates - {k} == Run(Initial(library), cfg, Without(ops, k)).candidates
    ensures Unrelated(Run(Initial(library), cfg, ops).audit, k) == Run(Initial(library), cfg, Without(ops, k)).audit
  {
    hide Sound, Act, Run, Live, Unrelated, Applied, Edited, Loses;
    InitialSound(library);
    InitialErased(library, k);
    RunErased(Initial(library), cfg, ops, k);
  }

  // ----- where a promotion cannot be taken back -----

  /** A candidate with failed or risky evidence that is not marked as promoted. */
  predicate Stranded(s: State, k: Key) {
    k in s.candidates && var c := s.candidates[k];
      c.key == k && !c.status.Promoted? && !c.status.Revoked? && (c.failures > 0 || !c.risk.Normal?)
  }

  /** Failed or risky evidence after a promotion strands it: the candidate loses its status and keeps its note. */
  lemma FailureStrands(s: State, cfg: Config, o: Observation, auditWorks: bool)
    requires Sound(s) && Live(s, KeyOf(o))
    requires !Rejected(cfg, o) && o.evidenceId !in s.candidates[KeyOf(o)].evidence
    requires !o.success || !o.risk.Normal?
    ensures var u := Observe(s, cfg, o, auditWorks).0;
            Stranded(u, KeyOf(o)) && Live(u, KeyOf(o)) && u.library == s.library
  {
    hide Accounted, Applied, KeyOfTexts, LiveIdentities, AuditMatches, AppendUnique, Rejected, Strip, Cleaned;
  }

  /** No later run makes a stranded candidate revocable. */
  lemma {:induction false} StrandedForever(
    s: State, cfg: Config, ops: seq<EngineOp>, k: Key, actor: string, reason: string, auditWorks: bool)
    requires Sound(s) && Stranded(s, k)
    ensures Stranded(Run(s, cfg, ops), k)
    ensures Revoke(Run(s, cfg, ops), k, actor, reason, auditWorks).1 in {BlankText, NotPromoted}
    decreases |ops|
  {
    hide Sound, Act, Blank, Applied;
    if ops != [] {
      StrandedStep(s, cfg, ops[0], k);
      ActKeepsSound(s, cfg, ops[0]);
      StrandedForever(Act(s, cfg, ops[0]), cfg, ops[1..], k, actor, reason, auditWorks);
    }
  }

  lemma StrandedStep(s: State, cfg: Config, op: EngineOp, k: Key)
    requires Sound(s) && Stranded(s, k)
    ensures Stranded(Act(s, cfg, op), k)
  {
    hide Applied, KeyOfTexts, AppendUnique, Rejected, Blank, Edited, FindNote, PromotedNote, Sound, Observe, Revoke;
    hide Present, Live, WellFormed, HasApplied, CleanConditions, Reread;
    match op
    case Observing(o, auditWorks) =>
      ObservedCases(s, cfg, o, auditWorks);
      if KeyOf(o) == k {
        StrandedObserved(s, cfg, o, auditWorks, k);
      }
    case Revoking(j, actor, reason, auditWorks) =>
      RevokeOutcome(s, j, actor, reason, auditWorks);
      if Revocable(s, j, actor, reason) {
        PresentIsLive(s, j);
      }
  }

  /** Evidence for a stranded candidate only blocks it or asks for a review again. */
  lemma StrandedObserved(s: State, cfg: Config, o: Observation, auditWorks: bool, k: Key)
    requires Stranded(s, k) && KeyOf(o) == k
    ensures Stranded(Observe(s, cfg, o, auditWorks).0, k)
  {
    hide KeyOfTexts, AppendUnique, Rejected;
  }

  /** When the audit append fails, the library is put back exactly iff the note it had was canonical or absent. */
  lemma AuditFailureRestores(s: State, c: Candidate)
    requires c.target in s.library
    ensures FailedPromotion(s, c).0.library == s.library <==>
            CanonicalOrNone(FindNote(s.library[c.target], CandidateIdentity(c)))
    ensures FailedPromotion(s, c).0.audit == s.audit && FailedPromotion(s, c).0.candidates == s.candidates[c.key := c]
  {
    hide Edited, FindNote, Reread;
    var notes, id := s.library[c.target], CandidateIdentity(c);
    FailedShape(s, c);
    if !CanonicalOrNone(FindNote(notes, id)) {
      EditedIsSame(notes, id, Reread(FindNote(notes, id).value));
    }
  }

  lemma {:induction false} EditedIsSame(notes: seq<Note>, id: Identity, n: Note)
    requires FindNote(notes, id).Some?
    ensures Edited(notes, id, Some(n)) == notes <==> FindNote(notes, id) == Some(n)
  {
    if IdentityOf(notes[0]) == id {
      assert ([n] + notes[1..])[0] == n;
      assert notes == [notes[0]] + notes[1..];
    } else {
      EditedIsSame(notes[1..], id, n);
      var rest := Edited(notes[1..], id, Some(n));
      assert ([notes[0]] + rest)[1..] == rest && notes == [notes[0]] + notes[1..];
    }
  }

  lemma {:induction false} FoundIsIn(notes: seq<Note>, id: Identity, i: nat)
    requires i < |notes| && IdentityOf(notes[i]) == id
    ensures FindNote(notes, id).Some?
  {
    if IdentityOf(notes[0]) != id {
      FoundIsIn(notes[1..], id, i - 1);
    }
  }

  lemma {:induction false} AppendedWhenMissing(notes: seq<Note>, id: Identity, n: Note)
    requires FindNote(notes, id).None?
    ensures Edited(notes, id, Some(n)) == notes + [n]
  {
    if notes != [] {
      AppendedWhenMissing(notes[1..], id, n);
      assert notes == [notes[0]] + notes[1..];
    }
  }

  /** Removing a single note and appending it again changes nothing exactly when it was the last. */
  lemma {:induction false} MovedToEnd(notes: seq<Note>, id: Identity, n: Note)
    requires Single(notes, id) && FindNote(notes, id) == Some(n)
    ensures Edited(notes, id, None) + [n] == notes <==> notes[|notes| - 1] == n
  {
    var rest := notes[1..];
    if IdentityOf(notes[0]) == id {
      EditedHead(notes, id, None);
      if rest != [] {
        assert (rest + [n])[|notes| - 1] == n;
        if notes[|notes| - 1] == n {
          FoundIsIn(rest, id, |rest| - 1);
        }
      }
    } else {
      assert Edited(notes, id, None) == [notes[0]] + Edited(rest, id, None);
      assert ([notes[0]] + Edited(rest, id, None))[1..] == Edited(rest, id, None);
      MovedToEnd(rest, id, n);
      assert notes == [notes[0]] + rest;
      assert [notes[0]] + Edited(rest, id, None) + [n] == [notes[0]] + (Edited(rest, id, None) + [n]);
      assert ([notes[0]] + (Edited(rest, id, None) + [n]))[1..] == Edited(rest, id, None) + [n];
    }
  }

  /**
   * A failed revocation leaves the library as it was iff the conditions are clean and the note was
   * replaced, or is last.
   */
  lemma FailedRevocationRestoresIff(s: State, k: Key)
    requires Sound(s) && Present(s, k)
    ensures var c := s.candidates[k];
            var notes := s.library[c.target];
            notes != [] &&
            (PutBack(s, k).library == s.library <==>
             CleanConditions(c) && (Before(s.audit, k).Some? || Some(notes[|notes| - 1]) == After(s.audit, k)))
  {
    hide Sound, Applied, Edited, FindNote, KeyOfTexts, Strip, Cleaned, Reread, CleanConditions, Before, After, Single;
    var c, before, after := s.candidates[k], Before(s.audit, k), After(s.audit, k);
    var notes, id := s.library[c.target], CandidateIdentity(c);
    LiveAudited(s, k);
    RevokeShape(s, k);
    FindFits(notes, id);
    WrittenReread(c, after.value);
    PutBackPresent(s, k);
    CanonicalMeans(after.value);
    if CleanConditions(c) {
      if before.Some? {
        EditTwice(notes, id, before.value, after);
        EditedIsSame(notes, id, after.value);
      } else {
        AppendedWhenMissing(Withdrawn(s, k), id, after.value);
        MovedToEnd(notes, id, after.value);
      }
    } else {
      assert PutBack(s, k) != s;
    }
  }
}
