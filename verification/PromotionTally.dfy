/** Counting a candidate's notes: revoking it gives the library of the run without it exactly when no note was lost. */
module PromotionTally {
  import opened Outcomes
  import opened Text
  import opened Normalized
  import opened UsageNotes
  import opened PromotionSpec
  import opened PromotionReversal
  import opened PromotionLosses
  import opened PromotionErasure

  function KeyOfNote(t: Target, n: Note): Key {
    KeyOfTexts(t, n.text, n.applies)
  }

  /** The key a note of this identity digests to on the entry. */
  function KeyOfIdentity(t: Target, id: Identity): Key {
    Key(Strip(t.bookId), Strip(t.entryId), id.words, Unique(Cleaned(id.applies)))
  }

  function Bit(b: bool): nat {
    if b then 1 else 0
  }

  /** How many notes of the entry digest to the key. */
  function OwnCount(t: Target, notes: seq<Note>, k: Key): nat {
    if notes == [] then 0 else Bit(KeyOfNote(t, notes[0]) == k) + OwnCount(t, notes[1..], k)
  }

  lemma {:induction false} EditedCount(t: Target, notes: seq<Note>, id: Identity, x: Option<Note>, k: Key)
    ensures OwnCount(t, Edited(notes, id, x), k) + Bit(FindNote(notes, id).Some? && KeyOfIdentity(t, id) == k) ==
            OwnCount(t, notes, k) + Bit(x.Some? && KeyOfNote(t, x.value) == k)
  {
    hide Strip, Unique, Cleaned, Words;
    if notes == [] {
      if x.Some? {
        assert [x.value][1..] == [];
      }
    } else if IdentityOf(notes[0]) == id {
      EditedHead(notes, id, x);
    } else {
      EditedCount(t, notes[1..], id, x, k);
      var rest := Edited(notes[1..], id, x);
      assert ([notes[0]] + rest)[1..] == rest;
    }
  }

  /** An edit for a candidate: its key is that of its identity and of the note. */
  lemma OwnEdited(c: Candidate, notes: seq<Note>, x: Option<Note>)
    requires WellFormed(c) && OfKey(c, x)
    ensures OwnCount(c.target, Edited(notes, CandidateIdentity(c), x), c.key) +
            Bit(FindNote(notes, CandidateIdentity(c)).Some?) ==
            OwnCount(c.target, notes, c.key) + Bit(x.Some?)
  {
    hide Strip, Unique, Cleaned, Words, OwnCount, Edited, FindNote;
    EditedCount(c.target, notes, CandidateIdentity(c), x, c.key);
  }

  lemma {:induction false} OthersEdited(c: Candidate, notes: seq<Note>, xs: seq<Option<Note>>, k: Key)
    requires WellFormed(c) && AllOfKey(c, xs) && c.key != k
    ensures OwnCount(c.target, EditAll(notes, CandidateIdentity(c), xs), k) == OwnCount(c.target, notes, k)
    decreases |xs|
  {
    hide Strip, Unique, Cleaned, Words, OwnCount, Edited, FindNote;
    if xs != [] {
      assert OfKey(c, xs[0]);
      EditedCount(c.target, notes, CandidateIdentity(c), xs[0], k);
      OthersEdited(c, Edited(notes, CandidateIdentity(c), xs[0]), xs[1..], k);
    }
  }

  /** The note a live candidate finds was not there before its first promotion. */
  predicate Added(s: State, k: Key) {
    Present(s, k) && Before(s.audit, k).None?
  }

  function Extra(s: State, k: Key, t: Target, n: nat): nat {
    if k in s.candidates && s.candidates[k].target == t then n + Bit(Added(s, k)) else 0
  }

  /** On each entry the notes of the key are those of the start, the candidate's own one, and one for each loss. */
  ghost predicate Tally(s: State, start: map<Target, seq<Note>>, k: Key, n: nat) {
    && s.library.Keys == start.Keys
    && (forall t :: t in start ==> OwnCount(t, s.library[t], k) == OwnCount(t, start[t], k) + Extra(s, k, t, n))
    && (n > 0 ==> k in s.candidates && s.candidates[k].target in start)
  }

  lemma OtherTally(s: State, cfg: Config, op: EngineOp, start: map<Target, seq<Note>>, k: Key, n: nat)
    requires Sound(s) && KeyIn(op) != k && Tally(s, start, k, n)
    ensures Tally(Act(s, cfg, op), start, k, n)
  {
    hide Sound, Act, OwnCount, EditAll, WellFormed, Present, Applied, AllOfKey;
    OtherRecords(s, cfg, op, k);
    OtherPresent(s, cfg, op, k);
    var c, xs := StepEdits(s, cfg, op);
    if Act(s, cfg, op) != s && c.target in s.library {
      OthersEdited(c, s.library[c.target], xs, k);
    }
  }

  /** A step that rewrites one entry for its candidate, read as a change of the tally. */
  lemma OwnTallyStep(
    s: State, u: State, c: Candidate, notes: seq<Note>, start: map<Target, seq<Note>>, n: nat, lost: nat)
    requires Tally(s, start, c.key, n) && c.target in s.library
    requires c.key in s.candidates ==> s.candidates[c.key].target == c.target
    requires c.key in u.candidates && u.candidates[c.key].target == c.target
    requires u.library == s.library[c.target := notes]
    requires OwnCount(c.target, notes, c.key) + Bit(Added(s, c.key)) ==
             OwnCount(c.target, s.library[c.target], c.key) + Bit(Added(u, c.key)) + lost
    ensures Tally(u, start, c.key, n + lost)
  {
    hide OwnCount, Present, Applied, Before;
    if c.key !in s.candidates {
      AddedIsKnown(s, c.key);
    }
  }

  lemma AddedIsKnown(s: State, k: Key)
    ensures Added(s, k) ==> Live(s, k) && k in s.candidates
  {
  }

  lemma PutTally(s: State, c: Candidate, start: map<Target, seq<Note>>, n: nat)
    requires Sound(s) && Puttable(s, c) && Tally(s, start, c.key, n)
    ensures Tally(Put(s, c), start, c.key, n)
  {
    hide Sound, OwnCount, Present, Applied, Before, WellFormed;
    PutPresent(s, c);
    AddedIsKnown(s, c.key);
  }

  /** A live candidate that does not find its note had none before its first promotion. */
  lemma MissingHadNone(s: State, k: Key)
    requires Sound(s) && Live(s, k) && !Present(s, k)
    ensures Before(s.audit, k).None?
    ensures FindNote(s.library[s.candidates[k].target], CandidateIdentity(s.candidates[k])).None?
  {
    hide Sound, FindNote, Applied, KeyOfTexts, CleanConditions, Single;
    LiveAudited(s, k);
    CanonicalFits(s.candidates[k], Before(s.audit, k));
  }

  lemma PromotingTally(s: State, c: Candidate, start: map<Target, seq<Note>>, n: nat)
    requires Sound(s) && Puttable(s, c) && c.target in s.library && Tally(s, start, c.key, n)
    ensures Tally(Promoting(s, c).0, start, c.key, n)
  {
    hide Sound, OwnCount, Present, Applied, Before, WellFormed, FindNote, Edited, PromotedNote, KeyOfTexts, Tally;
    var u, notes, id := Promoting(s, c).0, s.library[c.target], CandidateIdentity(c);
    var after := PromotedNote(c, FindNote(notes, id));
    PromotingPresent(s, c);
    PromotionAppended(s.audit, u.audit[|s.audit|]);
    PromotedOfKey(s, c, FindNote(notes, id));
    PuttableWellFormed(s, c);
    OwnEdited(c, notes, Some(after));
    PromotingAdded(s, c);
    OwnTallyStep(s, u, c, Edited(notes, id, Some(after)), start, n, 0);
  }

  lemma PromotedOfKey(s: State, c: Candidate, previous: Option<Note>)
    requires Puttable(s, c)
    ensures OfKey(c, Some(PromotedNote(c, previous)))
  {
  }

  /** A promotion adds a note exactly when it found none. */
  lemma PromotingAdded(s: State, c: Candidate)
    requires Sound(s) && Puttable(s, c) && c.target in s.library
    ensures Bit(FindNote(s.library[c.target], CandidateIdentity(c)).None?) + Bit(Added(s, c.key)) ==
            Bit(Added(Promoting(s, c).0, c.key))
  {
    hide Sound, Applied, WellFormed, FindNote, Edited, PromotedNote, Before, After;
    var u := Promoting(s, c).0;
    PromotingPresent(s, c);
    PromotionAppended(s.audit, u.audit[|s.audit|]);
    OwnFacts(s, c);
    if Live(s, c.key) {
      LiveAudited(s, c.key);
      if !Present(s, c.key) {
        MissingHadNone(s, c.key);
      }
    }
  }

  lemma LostTally(s: State, c: Candidate, start: map<Target, seq<Note>>, n: nat)
    requires Sound(s) && Puttable(s, c) && c.target in s.library && Tally(s, start, c.key, n)
    requires HasApplied(s, c.key) && Present(s, c.key) && !CleanConditions(c)
    requires FindNote(s.library[c.target], CandidateIdentity(c)).Some?
    ensures Tally(Lost(s, c), start, c.key, n + 1)
  {
    hide Sound, OwnCount, Present, Applied, Before, FindNote, Edited, KeyOfTexts, Tally, Reread, Cleaned;
    var u, notes, id := Lost(s, c), s.library[c.target], CandidateIdentity(c);
    var found := PresentWritten(s, c);
    OwnEdited(c, notes, Some(Reread(found)));
    LostKeepsSound(s, c);
    PresentIsLive(s, c.key);
    LiveAudited(s, c.key);
    CanonicalFits(c, Before(s.audit, c.key));
    OwnTallyStep(s, u, c, Edited(notes, id, Some(Reread(found))), start, n, 1);
  }

  lemma RevokedTally(s: State, k: Key, start: map<Target, seq<Note>>, n: nat)
    requires Sound(s) && Present(s, k) && Tally(s, start, k, n)
    ensures Tally(PromotionReversal.Revoked(s, k), start, k, n)
  {
    hide Sound, OwnCount, Applied, Before, FindNote, Edited, KeyOfTexts, Tally, Cleaned, Strip;
    var u, c, before := PromotionReversal.Revoked(s, k), s.candidates[k], Before(s.audit, k);
    LiveAudited(s, k);
    FitsIsOfKey(c, before);
    OwnEdited(c, s.library[c.target], before);
    RevokedLive(s, k, k);
    OwnTallyStep(s, u, c, Withdrawn(s, k), start, n, 0);
  }

  lemma PutBackTally(s: State, k: Key, start: map<Target, seq<Note>>, n: nat)
    requires Sound(s) && Present(s, k) && Tally(s, start, k, n)
    ensures Tally(PutBack(s, k), start, k, n + Bit(!CleanConditions(s.candidates[k])))
  {
    hide Sound, OwnCount, Applied, Before, After, FindNote, Edited, KeyOfTexts, Tally, Cleaned, Strip, Reread;
    hide CleanConditions;
    var u, c, before, after := PutBack(s, k), s.candidates[k], Before(s.audit, k), After(s.audit, k);
    LiveAudited(s, k);
    FitsIsOfKey(c, before);
    WrittenReread(c, after.value);
    RevokeShape(s, k);
    OwnEdited(c, s.library[c.target], before);
    OwnEdited(c, Withdrawn(s, k), RereadOption(after));
    PutBackPresent(s, k);
    if !CleanConditions(c) {
      CanonicalFits(c, before);
    }
    var notes := Edited(Withdrawn(s, k), CandidateIdentity(c), RereadOption(after));
    OwnTallyStep(s, u, c, notes, start, n, Bit(!CleanConditions(c)));
  }

  lemma OwnTally(s: State, cfg: Config, op: EngineOp, start: map<Target, seq<Note>>, n: nat)
    requires Sound(s) && Tally(s, start, KeyIn(op), n)
    ensures Tally(Act(s, cfg, op), start, KeyIn(op), n + Bit(Loses(s, cfg, op)))
  {
    hide Sound, KeyOfTexts, Edited, FindNote, CleanConditions, Observe, Revoke, Applied, Present, Live, Put, Tally;
    hide Puttable, HasApplied, Withdrawn, PromotedNote, Promoting, Lost, PromotionReversal.Revoked, PutBack;
    match op
    case Observing(o, auditWorks) =>
      ObservedOwn(s, cfg, o, auditWorks);
      var c := WithEvidence(CandidateFor(s, o), o);
      if Loses(s, cfg, op) {
        LostTally(s, c, start, n);
      } else if Act(s, cfg, op) != s {
        PutsPuttable(s, c);
        PutTally(s, c.(status := Barred), start, n);
        PutTally(s, c.(status := NeedsReview), start, n);
        PutTally(s, c.(status := Collecting), start, n);
        PutTally(s, c, start, n);
        if c.target in s.library {
          PromotingTally(s, c, start, n);
        }
      }
    case Revoking(k, actor, reason, auditWorks) =>
      RevokeOutcome(s, k, actor, reason, auditWorks);
      if Revocable(s, k, actor, reason) {
        RevokedTally(s, k, start, n);
        PutBackTally(s, k, start, n);
        if !auditWorks {
          LosesMeans(s, cfg, op);
        }
      }
  }

  lemma {:induction false} RunTally(
    s: State, cfg: Config, ops: seq<EngineOp>, start: map<Target, seq<Note>>, k: Key, n: nat)
    requires Sound(s) && Tally(s, start, k, n)
    ensures Tally(Run(s, cfg, ops), start, k, n + Losses(s, cfg, ops, k))
    decreases |ops|
  {
    hide Sound, Act, Tally, Loses;
    if ops != [] {
      var next, lost := Act(s, cfg, ops[0]), KeyIn(ops[0]) == k && Loses(s, cfg, ops[0]);
      if KeyIn(ops[0]) == k {
        OwnTally(s, cfg, ops[0], start, n);
      } else {
        OtherTally(s, cfg, ops[0], start, k, n);
      }
      ActKeepsSound(s, cfg, ops[0]);
      RunTally(next, cfg, ops[1..], start, k, n + Bit(lost));
    }
  }

  lemma {:induction false} NeverObserved(s: State, cfg: Config, ops: seq<EngineOp>, k: Key)
    requires Sound(s) && k !in s.candidates && forall op :: op in ops ==> KeyIn(op) != k
    ensures k !in Run(s, cfg, ops).candidates
    decreases |ops|
  {
    hide Sound, Act;
    if ops != [] {
      OtherRecords(s, cfg, ops[0], k);
      ActKeepsSound(s, cfg, ops[0]);
      NeverObserved(Act(s, cfg, ops[0]), cfg, ops[1..], k);
    }
  }

  lemma {:induction false} WithoutKeeps(ops: seq<EngineOp>, k: Key)
    ensures forall op :: op in Without(ops, k) ==> KeyIn(op) != k
  {
    if ops != [] {
      WithoutKeeps(ops[1..], k);
    }
  }

  lemma InitialTally(library: map<Target, seq<Note>>, k: Key)
    ensures Tally(Initial(library), library, k, 0)
  {
  }

  /** A candidate that is not live leaves the library of the run without it exactly when no call lost its note. */
  lemma LibraryErasedIff(library: map<Target, seq<Note>>, cfg: Config, ops: seq<EngineOp>, k: Key)
    requires CanonicalLibrary(library) && !Live(Run(Initial(library), cfg, ops), k)
    ensures Run(Initial(library), cfg, ops).library == Run(Initial(library), cfg, Without(ops, k)).library <==>
            Losses(Initial(library), cfg, ops, k) == 0
  {
    hide Sound, Act, Run, Applied, Edited, Losses, CanonicalLibrary, OwnCount, Before;
    var start := Initial(library);
    var s, t, n := Run(start, cfg, ops), Run(start, cfg, Without(ops, k)), Losses(start, cfg, ops, k);
    InitialSound(library);
    InitialTally(library, k);
    if n == 0 {
      RevocationErasesCandidate(library, cfg, ops, k);
    } else {
      RunTally(start, cfg, ops, library, k, 0);
      RunTally(start, cfg, Without(ops, k), library, k, 0);
      WithoutKeeps(ops, k);
      NeverObserved(start, cfg, Without(ops, k), k);
      var target := s.candidates[k].target;
      assert OwnCount(target, s.library[target], k) > OwnCount(target, t.library[target], k);
    }
  }

  /** Without losses a promoted candidate can be revoked; revoking restores the library exactly when there were none. */
  lemma RevokeRestores(
    library: map<Target, seq<Note>>, cfg: Config, ops: seq<EngineOp>, k: Key, actor: string, reason: string)
    requires CanonicalLibrary(library) && !Blank(actor) && !Blank(reason)
    ensures var s, lost := Run(Initial(library), cfg, ops), Losses(Initial(library), cfg, ops, k);
            var (u, verdict) := Revoke(s, k, actor, reason, true);
            && (lost == 0 ==> (verdict == Undone <==> k in s.candidates && s.candidates[k].status.Promoted?))
            && (verdict == Undone ==>
                  (u.library == Run(Initial(library), cfg, Without(ops, k)).library <==> lost == 0))
  {
    hide Sound, Observe, Run, Applied, Edited, Revoke, Blank, Losses, FindNote, CanonicalLibrary, Before, After;
    var start := Initial(library);
    var s, last := Run(start, cfg, ops), Revoking(k, actor, reason, true);
    InitialSound(library);
    RunKeepsSound(start, cfg, ops);
    RevokeOutcome(s, k, actor, reason, true);
    if Losses(start, cfg, ops, k) == 0 && k in s.candidates && s.candidates[k].status.Promoted? {
      assert !Live(start, k) by { LiveKnown(start, k); }
      RunPresent(start, cfg, ops, k);
      PromotedIsLive(s, k);
    }
    if Revoke(s, k, actor, reason, true).1 == Undone {
      RunAppended(start, cfg, ops, last);
      RevokedLive(s, k, k);
      LibraryErasedIff(library, cfg, ops + [last], k);
      WithoutAppended(ops, last, k);
      LossesAppended(start, cfg, ops, last, k);
    }
  }

  lemma PromotedIsLive(s: State, k: Key)
    requires Sound(s) && k in s.candidates && s.candidates[k].status.Promoted?
    ensures Live(s, k)
  {
    hide Accounted, LiveIdentities, AuditMatches, WellFormed, Applied;
  }

  lemma {:induction false} RunAppended(s: State, cfg: Config, ops: seq<EngineOp>, op: EngineOp)
    ensures Run(s, cfg, ops + [op]) == Act(Run(s, cfg, ops), cfg, op)
    decreases |ops|
  {
    hide Act;
    if ops == [] {
      assert [] + [op] == [op] && [op][1..] == [];
      assert Run(Act(s, cfg, op), cfg, []) == Act(s, cfg, op);
    } else {
      assert (ops + [op])[1..] == ops[1..] + [op];
      RunAppended(Act(s, cfg, ops[0]), cfg, ops[1..], op);
    }
  }

  /** A call whose audit append works loses nothing. */
  lemma {:induction false} LossesAppended(s: State, cfg: Config, ops: seq<EngineOp>, op: EngineOp, k: Key)
    requires !AppendFails(Run(s, cfg, ops), cfg, op)
    ensures Losses(s, cfg, ops + [op], k) == Losses(s, cfg, ops, k)
    decreases |ops|
  {
    hide Act, AppendFails;
    if ops == [] {
      assert [] + [op] == [op] && [op][1..] == [];
      assert Losses(Act(s, cfg, op), cfg, [], k) == 0;
    } else {
      assert (ops + [op])[1..] == ops[1..] + [op];
      LossesAppended(Act(s, cfg, ops[0]), cfg, ops[1..], op, k);
    }
  }

  lemma {:induction false} WithoutAppended(ops: seq<EngineOp>, op: EngineOp, k: Key)
    requires KeyIn(op) == k
    ensures Without(ops + [op], k) == Without(ops, k)
  {
    if ops == [] {
      assert [] + [op] == [op] && [op][1..] == [];
    } else {
      assert (ops + [op])[1..] == ops[1..] + [op];
      WithoutAppended(ops[1..], op, k);
    }
  }
}
