/** Revoking a promotion erases the candidate from the library, however others interleave. */
module PromotionReversal {
  import opened Outcomes
  import opened Sequences
  import opened Text
  import opened Normalized
  import opened UsageNotes
  import opened PromotionSpec

  // ----- editing one entry's notes -----

  ghost predicate Fits(id: Identity, replacement: Option<Note>) {
    replacement.Some? ==> IdentityOf(replacement.value) == id
  }

  ghost predicate Elsewhere(id: Identity, replacement: Option<Note>) {
    replacement.Some? ==> IdentityOf(replacement.value) != id
  }

  lemma EditedHead(notes: seq<Note>, id: Identity, replacement: Option<Note>)
    requires notes != [] && IdentityOf(notes[0]) == id
    ensures replacement.None? ==> Edited(notes, id, replacement) == notes[1..]
    ensures replacement.Some? ==>
              Edited(notes, id, replacement) != [] && Edited(notes, id, replacement)[0] == replacement.value &&
              Edited(notes, id, replacement)[1..] == notes[1..]
  {
    assert [] + notes[1..] == notes[1..];
  }

  lemma {:induction false} FindEdited(notes: seq<Note>, id: Identity, replacement: Option<Note>, other: Identity)
    requires Elsewhere(other, replacement) && other != id
    ensures FindNote(Edited(notes, id, replacement), other) == FindNote(notes, other)
  {
    if notes != [] {
      if IdentityOf(notes[0]) == id {
        EditedHead(notes, id, replacement);
      } else {
        FindEdited(notes[1..], id, replacement, other);
      }
    }
  }

  lemma {:induction false} FindReplaced(notes: seq<Note>, id: Identity, n: Note)
    requires IdentityOf(n) == id
    ensures FindNote(Edited(notes, id, Some(n)), id) == Some(n)
  {
    if notes != [] && IdentityOf(notes[0]) != id {
      FindReplaced(notes[1..], id, n);
    }
  }

  /** A second edit of the same note forgets the first, once the note is there. */
  lemma {:induction false} EditTwice(notes: seq<Note>, id: Identity, n: Note, replacement: Option<Note>)
    requires IdentityOf(n) == id && FindNote(notes, id).Some?
    ensures Edited(Edited(notes, id, Some(n)), id, replacement) == Edited(notes, id, replacement)
  {
    if IdentityOf(notes[0]) != id {
      EditTwice(notes[1..], id, n, replacement);
    } else {
      assert ([n] + notes[1..])[1..] == notes[1..];
    }
  }

  /** Writing a note and putting back what was found restores the list. */
  lemma {:induction false} EditUndone(notes: seq<Note>, id: Identity, n: Note)
    requires IdentityOf(n) == id
    ensures Edited(Edited(notes, id, Some(n)), id, FindNote(notes, id)) == notes
  {
    if notes != [] {
      if IdentityOf(notes[0]) != id {
        EditUndone(notes[1..], id, n);
      } else {
        assert ([n] + notes[1..])[1..] == notes[1..];
      }
    }
  }

  lemma {:induction false} EditMissing(notes: seq<Note>, id: Identity)
    requires FindNote(notes, id).None?
    ensures Edited(notes, id, None) == notes
  {
    if notes != [] {
      EditMissing(notes[1..], id);
    }
  }

  /** Edits of different notes commute, provided the outer one finds its note or removes nothing. */
  lemma {:induction false} EditsCommute(notes: seq<Note>, a: Identity, x: Option<Note>, b: Identity, y: Option<Note>)
    requires a != b && Elsewhere(b, x) && Elsewhere(a, y) && (FindNote(notes, b).Some? || y.None?)
    ensures Edited(Edited(notes, a, x), b, y) == Edited(Edited(notes, b, y), a, x)
  {
    if notes == [] {
      assert Edited([], b, y) == [];
      if x.Some? {
        assert [x.value][1..] == [];
      }
    } else if IdentityOf(notes[0]) == a {
      EditedHead(notes, a, x);
      assert Edited(notes, b, y) == [notes[0]] + Edited(notes[1..], b, y);
      EditedHead([notes[0]] + Edited(notes[1..], b, y), a, x);
    } else if IdentityOf(notes[0]) == b {
      EditedHead(notes, b, y);
      assert Edited(notes, a, x) == [notes[0]] + Edited(notes[1..], a, x);
      EditedHead([notes[0]] + Edited(notes[1..], a, x), b, y);
    } else {
      EditsCommute(notes[1..], a, x, b, y);
    }
  }

  lemma {:induction false} FindFits(notes: seq<Note>, id: Identity)
    ensures Fits(id, FindNote(notes, id))
    ensures FindNote(notes, id).Some? ==> FindNote(notes, id).value in notes
  {
    if notes != [] && IdentityOf(notes[0]) != id {
      FindFits(notes[1..], id);
    }
  }

  /** At most one note has the identity. */
  ghost predicate Single(notes: seq<Note>, id: Identity) {
    FindNote(Edited(notes, id, None), id).None?
  }

  /** A single note overwritten by one of another identity is gone, and a missing one stays missing. */
  lemma {:induction false} FindStray(notes: seq<Note>, id: Identity, n: Note)
    requires Single(notes, id) && IdentityOf(n) != id
    ensures FindNote(Edited(notes, id, Some(n)), id).None?
  {
    if notes != [] {
      if IdentityOf(notes[0]) == id {
        EditedHead(notes, id, None);
        EditedHead(notes, id, Some(n));
      } else {
        assert Edited(notes, id, None) == [notes[0]] + Edited(notes[1..], id, None);
        FindStray(notes[1..], id, n);
      }
    }
  }

  lemma MissingIsSingle(notes: seq<Note>, id: Identity)
    requires FindNote(notes, id).None?
    ensures Single(notes, id)
  {
    EditMissing(notes, id);
  }

  lemma SingleReplaced(notes: seq<Note>, id: Identity, n: Note)
    requires Single(notes, id) && IdentityOf(n) == id
    ensures Single(Edited(notes, id, Some(n)), id)
  {
    hide Edited, FindNote;
    if FindNote(notes, id).Some? {
      EditTwice(notes, id, n, None);
    } else {
      EditUndone(notes, id, n);
    }
  }

  lemma SingleElsewhere(notes: seq<Note>, a: Identity, x: Option<Note>, id: Identity)
    requires Single(notes, id) && a != id && Elsewhere(id, x)
    ensures Single(Edited(notes, a, x), id)
  {
    hide Edited, FindNote;
    EditsCommute(notes, a, x, id, None);
    FindEdited(Edited(notes, id, None), a, x, id);
  }

  // ----- what every run of the engine maintains -----

  /** A call of the engine; `auditWorks` says whether its append to the audit goes through. */
  datatype EngineOp =
    | Observing(o: Observation, auditWorks: bool)
    | Revoking(key: Key, actor: string, reason: string, auditWorks: bool)

  function Act(s: State, cfg: Config, op: EngineOp): State {
    match op
    case Observing(o, auditWorks) => Observe(s, cfg, o, auditWorks).0
    case Revoking(key, actor, reason, auditWorks) => Revoke(s, key, actor, reason, auditWorks).0
  }

  function Run(s: State, cfg: Config, ops: seq<EngineOp>): State
    decreases |ops|
  {
    if ops == [] then s else Run(Act(s, cfg, ops[0]), cfg, ops[1..])
  }

  function KeyIn(op: EngineOp): Key {
    if op.Observing? then KeyOf(op.o) else op.key
  }

  /** A candidate's texts are those its key digests, and are stored stripped. */
  predicate WellFormed(c: Candidate) {
    && KeyOfTexts(c.target, c.lesson, c.applies) == c.key
    && Strip(c.lesson) == c.lesson
    && Cleaned(c.refs) == c.refs
  }

  predicate Keyed(s: State) {
    forall k :: k in s.candidates ==> s.candidates[k].key == k && WellFormed(s.candidates[k])
  }

  /** Two candidates on one entry never speak about the same note. */
  lemma DistinctCandidatesDistinctNotes(c: Candidate, d: Candidate)
    requires KeyOfTexts(c.target, c.lesson, c.applies) == c.key
    requires KeyOfTexts(d.target, d.lesson, d.applies) == d.key
    requires c.key != d.key && c.target == d.target
    ensures CandidateIdentity(c) != CandidateIdentity(d)
  {
  }

  lemma NewCandidateWellFormed(o: Observation)
    ensures NewCandidate(o).key == KeyOf(o) && WellFormed(NewCandidate(o))
  {
    WordsStrip(o.lesson);
    StripIdempotent(o.lesson);
  }

  lemma EvidenceWellFormed(c: Candidate, o: Observation)
    requires WellFormed(c)
    ensures WellFormed(WithEvidence(c, o))
  {
    hide KeyOfTexts, Strip;
    CleanedSame(c.refs);
    CleanedSame(WithEvidence(c, o).refs);
    if o.verificationRef.Some? {
      StripIdempotent(o.verificationRef.value);
    }
  }

  /** The conditions of a candidate are those a reread note keeps. */
  predicate CleanConditions(c: Candidate) {
    Cleaned(c.applies) == c.applies
  }

  /** A note a promotion of the candidate may have written. */
  predicate Written(c: Candidate, n: Note) {
    n.text == c.lesson && n.applies == c.applies && Cleaned(n.verification) == n.verification
  }

  /** A note whose words and conditions digest to the candidate's key on its entry. */
  ghost predicate OfKey(c: Candidate, n: Option<Note>) {
    n.Some? ==> KeyOfTexts(c.target, n.value.text, n.value.applies) == c.key
  }

  lemma FitsIsOfKey(c: Candidate, n: Option<Note>)
    requires WellFormed(c) && Fits(CandidateIdentity(c), n)
    ensures OfKey(c, n)
  {
  }

  lemma OfKeyElsewhere(c: Candidate, n: Option<Note>, d: Candidate)
    requires WellFormed(d) && OfKey(c, n) && c.key != d.key && c.target == d.target
    ensures Elsewhere(CandidateIdentity(d), n)
  {
  }

  /** A written note is canonical exactly when the conditions are clean; otherwise rereading takes it out of sight. */
  lemma WrittenReread(c: Candidate, n: Note)
    requires WellFormed(c) && Written(c, n)
    ensures Canonical(n) <==> CleanConditions(c)
    ensures IdentityOf(n) == CandidateIdentity(c)
    ensures Canonical(Reread(n)) && OfKey(c, Some(Reread(n)))
    ensures !CleanConditions(c) ==> IdentityOf(Reread(n)) != CandidateIdentity(c)
  {
    CleanedIdempotent(c.applies);
  }

  lemma PromotedWritten(c: Candidate, previous: Option<Note>)
    requires WellFormed(c) && (previous.Some? ==> Cleaned(previous.value.verification) == previous.value.verification)
    ensures Written(c, PromotedNote(c, previous))
  {
    hide KeyOfTexts, Strip;
    if previous.Some? {
      var both := previous.value.verification + c.refs;
      CleanedSame(previous.value.verification);
      CleanedSame(c.refs);
      CleanedSame(Unique(both));
      forall x | x in Unique(both)
        ensures Neat(x)
      {
        UniqueMembers(both, x);
      }
    }
  }

  predicate CanonicalOrNone(n: Option<Note>) {
    n.Some? ==> Canonical(n.value)
  }

  lemma CanonicalFits(c: Candidate, n: Option<Note>)
    requires Fits(CandidateIdentity(c), n) && CanonicalOrNone(n) && !CleanConditions(c)
    ensures n.None?
  {
  }

  predicate HasApplied(s: State, k: Key) {
    Applied(s.audit, k) != []
  }

  /** What the first promotion of a candidate found. */
  function Before(audit: seq<Mutation>, k: Key): Option<Note> {
    if Applied(audit, k) == [] then None else Applied(audit, k)[0].before
  }

  /** What the latest promotion of a candidate wrote. */
  function After(audit: seq<Mutation>, k: Key): Option<Note> {
    if Applied(audit, k) == [] then None else Applied(audit, k)[|Applied(audit, k)| - 1].after
  }

  /** A candidate that is live: promoted at some time and not revoked. */
  predicate Live(s: State, k: Key) {
    k in s.candidates && HasApplied(s, k) && !s.candidates[k].status.Revoked?
  }

  /** The note the latest promotion wrote is the one the candidate finds. */
  predicate Present(s: State, k: Key) {
    && Live(s, k) && s.candidates[k].target in s.library
    && FindNote(s.library[s.candidates[k].target], CandidateIdentity(s.candidates[k])) == After(s.audit, k)
  }

  /** An entry and the audit of a live candidate: it finds the latest note, or none if its conditions are not clean. */
  ghost predicate EntryMatches(notes: seq<Note>, c: Candidate, before: Option<Note>, after: Option<Note>) {
    var id := CandidateIdentity(c);
    && (FindNote(notes, id) == after || (FindNote(notes, id).None? && !CleanConditions(c)))
    && (before.None? ==> Single(notes, id))
  }

  ghost predicate AuditMatches(s: State, k: Key) {
    Live(s, k) ==>
      var c, before, after := s.candidates[k], Before(s.audit, k), After(s.audit, k);
      && c.target in s.library
      && after.Some? && Written(c, after.value)
      && Fits(CandidateIdentity(c), before) && CanonicalOrNone(before)
      && EntryMatches(s.library[c.target], c, before, after)
  }

  /** Every note is canonical, except the first note of each identity in `live`. */
  ghost predicate Accounted(notes: seq<Note>, live: set<Identity>) {
    || notes == []
    || (&& (Canonical(notes[0]) || IdentityOf(notes[0]) in live)
        && Accounted(notes[1..], live - {IdentityOf(notes[0])}))
  }

  ghost function LiveIdentities(s: State, t: Target): set<Identity> {
    set k | k in s.candidates && Live(s, k) && s.candidates[k].target == t :: CandidateIdentity(s.candidates[k])
  }

  /** What holds in every state the engine reaches from a library of canonical notes. */
  ghost predicate Sound(s: State) {
    && Keyed(s)
    && (forall m :: m in s.audit ==> m.key in s.candidates)
    && (forall k :: k in s.candidates ==> AuditMatches(s, k))
    && (forall k :: k in s.candidates && s.candidates[k].status.Promoted? ==> HasApplied(s, k))
    && (forall t :: t in s.library ==> Accounted(s.library[t], LiveIdentities(s, t)))
  }

  lemma {:induction false} AccountedMonotone(notes: seq<Note>, live: set<Identity>, more: set<Identity>)
    requires Accounted(notes, live) && live <= more
    ensures Accounted(notes, more)
  {
    if notes != [] {
      AccountedMonotone(notes[1..], live - {IdentityOf(notes[0])}, more - {IdentityOf(notes[0])});
    }
  }

  lemma {:induction false} PromotedAccounted(notes: seq<Note>, live: set<Identity>, id: Identity, n: Note)
    requires Accounted(notes, live) && IdentityOf(n) == id
    ensures Accounted(Edited(notes, id, Some(n)), live + {id})
  {
    if notes == [] {
    } else if IdentityOf(notes[0]) == id {
      EditedHead(notes, id, Some(n));
      assert live + {id} - {id} == live - {id};
    } else {
      var h := IdentityOf(notes[0]);
      PromotedAccounted(notes[1..], live - {h}, id, n);
      assert live + {id} - {h} == live - {h} + {id};
      assert ([notes[0]] + Edited(notes[1..], id, Some(n)))[1..] == Edited(notes[1..], id, Some(n));
    }
  }

  lemma {:induction false} RestoredAccounted(notes: seq<Note>, live: set<Identity>, id: Identity, n: Option<Note>)
    requires Accounted(notes, live) && Fits(id, n) && CanonicalOrNone(n)
    ensures Accounted(Edited(notes, id, n), live - {id})
  {
    if notes == [] {
    } else if IdentityOf(notes[0]) == id {
      assert live - {id} - {id} == live - {id};
      EditedHead(notes, id, n);
    } else {
      var h := IdentityOf(notes[0]);
      RestoredAccounted(notes[1..], live - {h}, id, n);
      assert live - {id} - {h} == live - {h} - {id};
      assert ([notes[0]] + Edited(notes[1..], id, n))[1..] == Edited(notes[1..], id, n);
    }
  }

  /** A canonical note of no live identity may overwrite any note. */
  lemma {:induction false} StrayAccounted(notes: seq<Note>, live: set<Identity>, id: Identity, n: Note)
    requires Accounted(notes, live) && Canonical(n) && IdentityOf(n) !in live
    ensures Accounted(Edited(notes, id, Some(n)), live)
  {
    if notes == [] {
    } else if IdentityOf(notes[0]) == id {
      EditedHead(notes, id, Some(n));
      AccountedMonotone(notes[1..], live - {id}, live - {IdentityOf(n)});
    } else {
      var h := IdentityOf(notes[0]);
      StrayAccounted(notes[1..], live - {h}, id, n);
      assert ([notes[0]] + Edited(notes[1..], id, Some(n)))[1..] == Edited(notes[1..], id, Some(n));
    }
  }

  lemma {:induction false} UnclaimedNoteIsCanonical(notes: seq<Note>, live: set<Identity>, id: Identity)
    requires Accounted(notes, live) && id !in live
    ensures CanonicalOrNone(FindNote(notes, id))
  {
    if notes != [] && IdentityOf(notes[0]) != id {
      UnclaimedNoteIsCanonical(notes[1..], live - {IdentityOf(notes[0])}, id);
    }
  }

  // ----- one entry under the engine's edits -----

  lemma PromotedEntry(notes: seq<Note>, c: Candidate, before: Option<Note>, n: Note)
    requires IdentityOf(n) == CandidateIdentity(c) && (before.None? ==> Single(notes, CandidateIdentity(c)))
    ensures EntryMatches(Edited(notes, CandidateIdentity(c), Some(n)), c, before, Some(n))
  {
    hide Edited, FindNote, Single, CleanConditions;
    FindReplaced(notes, CandidateIdentity(c), n);
    if before.None? {
      SingleReplaced(notes, CandidateIdentity(c), n);
    }
  }

  lemma OtherEntry(
    notes: seq<Note>, a: Identity, x: Option<Note>, d: Candidate, before: Option<Note>, after: Option<Note>)
    requires EntryMatches(notes, d, before, after) && a != CandidateIdentity(d) && Elsewhere(CandidateIdentity(d), x)
    ensures EntryMatches(Edited(notes, a, x), d, before, after)
  {
    hide Edited, FindNote, Single, CleanConditions;
    FindEdited(notes, a, x, CandidateIdentity(d));
    if before.None? {
      SingleElsewhere(notes, a, x, CandidateIdentity(d));
    }
  }

  /** A note that cannot be found after being put back leaves its candidate without a note. */
  lemma StrayEntry(notes: seq<Note>, c: Candidate, after: Option<Note>, n: Note)
    requires Single(notes, CandidateIdentity(c)) && !CleanConditions(c) && IdentityOf(n) != CandidateIdentity(c)
    ensures FindNote(Edited(notes, CandidateIdentity(c), Some(n)), CandidateIdentity(c)).None?
    ensures EntryMatches(Edited(notes, CandidateIdentity(c), Some(n)), c, None, after)
  {
    hide Edited, FindNote, Single, CleanConditions;
    FindStray(notes, CandidateIdentity(c), n);
    MissingIsSingle(Edited(notes, CandidateIdentity(c), Some(n)), CandidateIdentity(c));
  }

  /** Putting back what the first promotion found leaves just that to be found. */
  lemma BeforeFound(notes: seq<Note>, id: Identity, before: Option<Note>)
    requires Fits(id, before) && (before.None? ==> Single(notes, id))
    ensures FindNote(Edited(notes, id, before), id) == before
    ensures before.None? ==> Single(Edited(notes, id, before), id)
  {
    hide Edited, FindNote;
    if before.Some? {
      FindReplaced(notes, id, before.value);
    } else {
      MissingIsSingle(Edited(notes, id, None), id);
    }
  }

  // ----- the audit as mutations are appended -----

  lemma AppliedAppended(audit: seq<Mutation>, m: Mutation, k: Key)
    ensures Applied(audit + [m], k) == Applied(audit, k) + (if m.key == k && !m.operation.RevokeNote? then [m] else [])
  {
    FilterAppend(audit, [m], (m: Mutation) => m.key == k && !m.operation.RevokeNote?);
    assert [m][1..] == [];
  }

  lemma PromotionAppended(audit: seq<Mutation>, m: Mutation)
    requires !m.operation.RevokeNote?
    ensures Before(audit + [m], m.key) == if Applied(audit, m.key) == [] then m.before else Before(audit, m.key)
    ensures After(audit + [m], m.key) == m.after && Applied(audit + [m], m.key) != []
  {
    hide Applied;
    AppliedAppended(audit, m, m.key);
  }

  /** The audit with the mutations of one candidate left out. */
  function Unrelated(audit: seq<Mutation>, k: Key): seq<Mutation> {
    Filter(audit, (m: Mutation) => m.key != k)
  }

  lemma UnrelatedAppended(audit: seq<Mutation>, m: Mutation, k: Key)
    ensures Unrelated(audit + [m], k) == Unrelated(audit, k) + (if m.key != k then [m] else [])
  {
    FilterAppend(audit, [m], (m: Mutation) => m.key != k);
    assert [m][1..] == [];
  }

  lemma {:induction false} AppliedUnrelated(audit: seq<Mutation>, k: Key, j: Key)
    requires j != k
    ensures Applied(Unrelated(audit, k), j) == Applied(audit, j)
  {
    if audit != [] {
      AppliedUnrelated(audit[1..], k, j);
      var first := if audit[0].key != k then [audit[0]] else [];
      assert Unrelated(audit, k) == first + Unrelated(audit[1..], k);
      FilterAppend(first, Unrelated(audit[1..], k), (m: Mutation) => m.key == j && !m.operation.RevokeNote?);
      assert [audit[0]][1..] == [];
    }
  }

  lemma {:induction false} NoneApplied(audit: seq<Mutation>, k: Key)
    requires forall m :: m in audit ==> m.key != k
    ensures Applied(audit, k) == []
  {
    if audit != [] {
      NoneApplied(audit[1..], k);
    }
  }

  lemma UnknownUnaudited(s: State, k: Key)
    requires Sound(s) && k !in s.candidates
    ensures Applied(s.audit, k) == []
  {
    hide Accounted, Applied, KeyOfTexts, LiveIdentities, AuditMatches;
    NoneApplied(s.audit, k);
  }

  // ----- every step keeps the state sound -----

  predicate SameTexts(c: Candidate, d: Candidate) {
    c.target == d.target && c.lesson == d.lesson && c.applies == d.applies
  }

  /** A record the engine may put back: its texts are those stored, and neither is revoked. */
  ghost predicate Puttable(s: State, c: Candidate) {
    && WellFormed(c)
    && !c.status.Revoked?
    && (c.key in s.candidates ==> SameTexts(s.candidates[c.key], c) && !s.candidates[c.key].status.Revoked?)
  }

  lemma PutLive(s: State, c: Candidate, k: Key)
    requires Sound(s) && Puttable(s, c)
    ensures Live(Put(s, c), k) <==> Live(s, k)
    ensures Live(s, k) ==> SameTexts(Put(s, c).candidates[k], s.candidates[k])
  {
    hide Accounted, Applied, LiveIdentities, WellFormed, AuditMatches;
    if c.key !in s.candidates {
      UnknownUnaudited(s, c.key);
    }
  }

  lemma SameTextsMatch(c: Candidate, d: Candidate, notes: seq<Note>, before: Option<Note>, after: Option<Note>)
    requires SameTexts(c, d) && EntryMatches(notes, c, before, after)
    ensures EntryMatches(notes, d, before, after) && CandidateIdentity(c) == CandidateIdentity(d)
  {
    hide FindNote, Single;
  }

  lemma PutMatches(s: State, c: Candidate, k: Key)
    requires Sound(s) && Puttable(s, c)
    ensures AuditMatches(Put(s, c), k)
  {
    hide Accounted, Applied, LiveIdentities, EntryMatches, FindNote, Live, HasApplied, WellFormed;
    PutLive(s, c, k);
    LiveKnown(s, k);
    if Live(Put(s, c), k) {
      assert AuditMatches(s, k);
      var d := s.candidates[k];
      SameTextsMatch(d, Put(s, c).candidates[k], s.library[d.target], Before(s.audit, k), After(s.audit, k));
    }
  }

  lemma PutKeepsSound(s: State, c: Candidate)
    requires Sound(s) && Puttable(s, c)
    requires c.status.Promoted? ==> HasApplied(s, c.key)
    ensures Sound(Put(s, c))
  {
    hide Accounted, Applied, WellFormed, FindNote, AuditMatches;
    var u := Put(s, c);
    forall k
      ensures Live(u, k) <==> Live(s, k)
      ensures Live(s, k) ==> SameTexts(u.candidates[k], s.candidates[k])
      ensures AuditMatches(u, k)
    {
      PutLive(s, c, k);
      PutMatches(s, c, k);
    }
    forall t
      ensures LiveIdentities(u, t) == LiveIdentities(s, t)
    {
    }
  }

  /** Only the notes of one entry change: every live candidate of the entry must still match it. */
  lemma NotesKeepSound(s: State, t: Target, notes: seq<Note>)
    requires Sound(s) && t in s.library && Accounted(notes, LiveIdentities(s, t))
    requires forall k :: Live(s, k) && s.candidates[k].target == t ==>
                           EntryMatches(notes, s.candidates[k], Before(s.audit, k), After(s.audit, k))
    ensures Sound(WithNotes(s, t, notes))
  {
    hide Accounted, Applied, WellFormed, FindNote, EntryMatches;
    var u := WithNotes(s, t, notes);
    forall k | k in u.candidates
      ensures AuditMatches(u, k)
    {
      assert AuditMatches(s, k);
    }
    forall v | v in u.library
      ensures Accounted(u.library[v], LiveIdentities(u, v))
    {
      assert LiveIdentities(u, v) == LiveIdentities(s, v);
    }
  }

  lemma PromotingLive(s: State, c: Candidate, k: Key)
    requires Sound(s) && Puttable(s, c) && c.target in s.library
    ensures var u := Promoting(s, c).0; Live(u, k) <==> k == c.key || Live(s, k)
    ensures var u := Promoting(s, c).0; k != c.key ==> Applied(u.audit, k) == Applied(s.audit, k)
    ensures Live(s, k) ==> SameTexts(Promoting(s, c).0.candidates[k], s.candidates[k])
  {
    hide Accounted, Applied, LiveIdentities, WellFormed, AuditMatches, FindNote, Edited, PromotedNote;
    var u := Promoting(s, c).0;
    AppliedAppended(s.audit, u.audit[|s.audit|], k);
  }

  /** The found note of a candidate about to be promoted: its latest one, or a canonical one, or none. */
  lemma FoundBefore(s: State, c: Candidate)
    requires Sound(s) && Puttable(s, c) && c.target in s.library
    ensures var found := FindNote(s.library[c.target], CandidateIdentity(c));
            && (Live(s, c.key) ==> found == After(s.audit, c.key) || (found.None? && !CleanConditions(c)))
            && (!Live(s, c.key) ==> CanonicalOrNone(found) && Applied(s.audit, c.key) == [])
            && (found.Some? ==> Cleaned(found.value.verification) == found.value.verification)
    ensures Live(s, c.key) ==> Written(c, After(s.audit, c.key).value)
  {
    hide Accounted, Applied, WellFormed, LiveIdentities, FindNote, Single;
    if Live(s, c.key) {
      assert AuditMatches(s, c.key);
    } else {
      if c.key !in s.candidates {
        UnknownUnaudited(s, c.key);
      }
      UnclaimedBefore(s, c);
    }
  }

  lemma UnclaimedBefore(s: State, c: Candidate)
    requires Sound(s) && Puttable(s, c) && c.target in s.library && !Live(s, c.key)
    ensures CanonicalOrNone(FindNote(s.library[c.target], CandidateIdentity(c)))
  {
    hide Accounted, Applied, AuditMatches, FindNote, HasApplied;
    var live := LiveIdentities(s, c.target);
    forall k | k in s.candidates && Live(s, k) && s.candidates[k].target == c.target
      ensures CandidateIdentity(s.candidates[k]) != CandidateIdentity(c)
    {
      DistinctCandidatesDistinctNotes(s.candidates[k], c);
    }
    UnclaimedNoteIsCanonical(s.library[c.target], live, CandidateIdentity(c));
  }

  /** The candidate a promotion was for is matched by its entry afterwards. */
  lemma PromotedMatches(s: State, c: Candidate)
    requires Sound(s) && Puttable(s, c) && c.target in s.library
    ensures AuditMatches(Promoting(s, c).0, c.key)
  {
    hide Accounted, Applied, WellFormed, LiveIdentities, FindNote, Edited, Single, Before, After, EntryMatches, Sound;
    var u := Promoting(s, c).0;
    var id, notes := CandidateIdentity(c), s.library[c.target];
    var found := FindNote(notes, id);
    var m := u.audit[|s.audit|];
    PromotionAppended(s.audit, m);
    FoundBefore(s, c);
    PromotedWritten(c, found);
    FindFits(notes, id);
    OwnFacts(s, c);
    if found.None? {
      MissingIsSingle(notes, id);
    }
    PromotedEntry(notes, u.candidates[c.key], Before(u.audit, c.key), m.after.value);
  }

  /** What the invariant says of the first promotion of a live candidate. */
  lemma OwnFacts(s: State, c: Candidate)
    requires Sound(s) && Puttable(s, c) && c.target in s.library
    ensures Live(s, c.key) ==> Fits(CandidateIdentity(c), Before(s.audit, c.key))
    ensures Live(s, c.key) ==> CanonicalOrNone(Before(s.audit, c.key))
    ensures Live(s, c.key) && Before(s.audit, c.key).None? ==> Single(s.library[c.target], CandidateIdentity(c))
    ensures !Live(s, c.key) ==> Applied(s.audit, c.key) == []
  {
    hide Accounted, Applied, WellFormed, LiveIdentities, FindNote, Single;
    if Live(s, c.key) {
      assert AuditMatches(s, c.key);
    } else if c.key !in s.candidates {
      UnknownUnaudited(s, c.key);
    }
  }

  /** Another candidate still matches its entry after an edit made for `c`. */
  lemma OtherMatches(s: State, u: State, c: Candidate, x: Option<Note>, k: Key)
    requires Keyed(s) && AuditMatches(s, k) && k in s.candidates && WellFormed(c) && OfKey(c, x)
    requires k != c.key && k in u.candidates && u.candidates[k] == s.candidates[k]
    requires Applied(u.audit, k) == Applied(s.audit, k)
    requires c.target in s.library
    requires u.library == s.library[c.target := Edited(s.library[c.target], CandidateIdentity(c), x)]
    ensures AuditMatches(u, k)
  {
    hide Applied, Edited, FindNote, EntryMatches, KeyOfTexts;
    var d := s.candidates[k];
    if Live(u, k) && d.target == c.target {
      DistinctCandidatesDistinctNotes(d, c);
      OfKeyElsewhere(c, x, d);
      var before, after := Before(s.audit, k), After(s.audit, k);
      OtherEntry(s.library[c.target], CandidateIdentity(c), x, d, before, after);
    }
  }

  lemma PromotingIdentities(s: State, c: Candidate, t: Target)
    requires Sound(s) && Puttable(s, c) && c.target in s.library
    ensures LiveIdentities(Promoting(s, c).0, t) ==
            LiveIdentities(s, t) + if t == c.target then {CandidateIdentity(c)} else {}
  {
    hide Accounted, Applied, WellFormed, AuditMatches, FindNote, Edited, PromotedNote, HasApplied, Live, Sound;
    var u := Promoting(s, c).0;
    forall k
      ensures Live(u, k) <==> k == c.key || Live(s, k)
      ensures Live(s, k) ==> k in u.candidates && k in s.candidates && SameTexts(u.candidates[k], s.candidates[k])
    {
      PromotingLive(s, c, k);
      LiveKnown(s, k);
    }
    assert u.candidates[c.key].target == c.target && CandidateIdentity(u.candidates[c.key]) == CandidateIdentity(c);
    forall id
      ensures id in LiveIdentities(u, t) <==>
              id in LiveIdentities(s, t) + if t == c.target then {CandidateIdentity(c)} else {}
    {
      if id in LiveIdentities(s, t) {
        var k :| k in s.candidates && Live(s, k) && s.candidates[k].target == t
                 && CandidateIdentity(s.candidates[k]) == id;
        assert Live(u, k);
      }
      if t == c.target && id == CandidateIdentity(c) {
        assert Live(u, c.key);
      }
    }
  }

  lemma LiveKnown(s: State, k: Key)
    ensures Live(s, k) ==> k in s.candidates
  {
  }

  lemma PromotingKeepsSound(s: State, c: Candidate)
    requires Sound(s) && Puttable(s, c) && c.target in s.library
    ensures Sound(Promoting(s, c).0)
  {
    hide Accounted, Applied, KeyOfTexts, AuditMatches, FindNote, Edited, LiveIdentities, Cleaned, Strip;
    var u := Promoting(s, c).0;
    var id, notes := CandidateIdentity(c), s.library[c.target];
    var after := PromotedNote(c, FindNote(notes, id));
    FitsIsOfKey(c, Some(after));
    forall k
      ensures Live(u, k) <==> k == c.key || Live(s, k)
      ensures k != c.key ==> Applied(u.audit, k) == Applied(s.audit, k)
    {
      PromotingLive(s, c, k);
    }
    forall k | k in u.candidates
      ensures AuditMatches(u, k)
    {
      if k == c.key {
        PromotedMatches(s, c);
      } else {
        OtherMatches(s, u, c, Some(after), k);
      }
    }
    forall t | t in u.library
      ensures Accounted(u.library[t], LiveIdentities(u, t))
    {
      PromotingIdentities(s, c, t);
      if t == c.target {
        PromotedAccounted(notes, LiveIdentities(s, t), id, after);
      } else {
        assert LiveIdentities(s, t) + {} == LiveIdentities(s, t);
      }
    }
  }

  // ----- a promotion whose audit append fails -----

  /** The state a failed append leaves when the note put back cannot be found again. */
  function Lost(s: State, c: Candidate): State
    requires c.target in s.library && FindNote(s.library[c.target], CandidateIdentity(c)).Some?
  {
    var notes, id := s.library[c.target], CandidateIdentity(c);
    Put(WithNotes(s, c.target, Edited(notes, id, Some(Reread(FindNote(notes, id).value)))), c)
  }

  /** A failed append changes the library exactly when the note it had found is not canonical. */
  lemma FailedShape(s: State, c: Candidate)
    requires c.target in s.library
    ensures var found := FindNote(s.library[c.target], CandidateIdentity(c));
            FailedPromotion(s, c).0 == if CanonicalOrNone(found) then Put(s, c) else Lost(s, c)
  {
    hide Edited, FindNote, Reread;
    var notes, id := s.library[c.target], CandidateIdentity(c);
    var before := FindNote(notes, id);
    var after := PromotedNote(c, before);
    FindReplaced(notes, id, after);
    assert s.library[c.target := notes] == s.library;
    if CanonicalOrNone(before) {
      EditUndone(notes, id, after);
    } else {
      EditTwice(notes, id, after, Some(Reread(before.value)));
    }
  }

  /** The note found is not canonical exactly when it is the candidate's own and its conditions are not clean. */
  lemma LosingIff(s: State, c: Candidate)
    requires Sound(s) && Puttable(s, c) && c.target in s.library
    ensures !CanonicalOrNone(FindNote(s.library[c.target], CandidateIdentity(c))) <==>
            Present(s, c.key) && !CleanConditions(c)
  {
    hide Accounted, Applied, WellFormed, LiveIdentities, FindNote, Single, Before, Sound, CleanConditions;
    FoundBefore(s, c);
    if Live(s, c.key) {
      LiveAudited(s, c.key);
      WrittenReread(c, After(s.audit, c.key).value);
    }
  }

  lemma LiveAudited(s: State, k: Key)
    requires Sound(s) && Live(s, k)
    ensures var c := s.candidates[k]; c.key == k && c.target in s.library && WellFormed(c)
    ensures After(s.audit, k).Some? && Written(s.candidates[k], After(s.audit, k).value)
    ensures Fits(CandidateIdentity(s.candidates[k]), Before(s.audit, k)) && CanonicalOrNone(Before(s.audit, k))
    ensures EntryMatches(s.library[s.candidates[k].target], s.candidates[k], Before(s.audit, k), After(s.audit, k))
  {
    hide Accounted, Applied, LiveIdentities, FindNote, Single, KeyOfTexts;
    assert AuditMatches(s, k);
  }

  /** A stray note of one candidate has no identity of a live candidate. */
  lemma StrayUnclaimed(s: State, c: Candidate, n: Note)
    requires Keyed(s) && WellFormed(c) && !CleanConditions(c) && OfKey(c, Some(n))
    requires IdentityOf(n) != CandidateIdentity(c)
    requires c.key in s.candidates ==> SameTexts(s.candidates[c.key], c)
    ensures IdentityOf(n) !in LiveIdentities(s, c.target)
  {
    hide Live, KeyOfTexts, Cleaned, Strip;
    forall k | k in s.candidates && s.candidates[k].target == c.target
      ensures CandidateIdentity(s.candidates[k]) != IdentityOf(n)
    {
      if k != c.key {
        OfKeyElsewhere(c, Some(n), s.candidates[k]);
      }
    }
  }

  /** Notes of one entry written for `c`: all others still match, so the state is sound if `c` matches too. */
  lemma OwnNotesKeepSound(s: State, c: Candidate, x: Option<Note>, notes: seq<Note>)
    requires Sound(s) && Live(s, c.key) && s.candidates[c.key] == c && OfKey(c, x)
    requires notes == Edited(s.library[c.target], CandidateIdentity(c), x)
    requires EntryMatches(notes, c, Before(s.audit, c.key), After(s.audit, c.key))
    requires Accounted(notes, LiveIdentities(s, c.target))
    ensures Sound(WithNotes(s, c.target, notes))
  {
    hide Accounted, Applied, LiveIdentities, FindNote, Single, EntryMatches, Edited, KeyOfTexts, Before, After;
    LiveAudited(s, c.key);
    forall k | Live(s, k) && s.candidates[k].target == c.target
      ensures EntryMatches(notes, s.candidates[k], Before(s.audit, k), After(s.audit, k))
    {
      if k != c.key {
        LiveAudited(s, k);
        OtherCandidate(c, x, s.candidates[k]);
        var d, notes0 := s.candidates[k], s.library[c.target];
        OtherEntry(notes0, CandidateIdentity(c), x, d, Before(s.audit, k), After(s.audit, k));
      }
    }
    NotesKeepSound(s, c.target, notes);
  }

  lemma OtherCandidate(c: Candidate, x: Option<Note>, d: Candidate)
    requires WellFormed(c) && WellFormed(d) && OfKey(c, x) && c.key != d.key && c.target == d.target
    ensures CandidateIdentity(c) != CandidateIdentity(d) && Elsewhere(CandidateIdentity(d), x)
  {
    DistinctCandidatesDistinctNotes(c, d);
    OfKeyElsewhere(c, x, d);
  }

  lemma LostKeepsSound(s: State, c: Candidate)
    requires Sound(s) && Puttable(s, c) && c.target in s.library && Present(s, c.key) && !CleanConditions(c)
    requires c.status.Promoted? ==> HasApplied(s, c.key)
    ensures FindNote(s.library[c.target], CandidateIdentity(c)).Some? && Sound(Lost(s, c))
    ensures !Present(Lost(s, c), c.key)
  {
    hide Accounted, Applied, LiveIdentities, FindNote, EntryMatches, Edited, KeyOfTexts, Before, After, Sound;
    hide CleanConditions, Reread, Written, Single;
    var u, after := Put(s, c), After(s.audit, c.key);
    LiveAudited(s, c.key);
    PutKeepsSound(s, c);
    PutLive(s, c, c.key);
    LiveAudited(u, c.key);
    var n := Reread(after.value);
    var notes := Edited(s.library[c.target], CandidateIdentity(c), Some(n));
    WrittenReread(c, after.value);
    CanonicalFits(c, Before(s.audit, c.key));
    BeforeSingle(u, c.key);
    StrayEntry(s.library[c.target], c, after, n);
    SoundIsKeyed(u);
    StrayUnclaimed(u, c, n);
    SoundIsAccounted(u, c.target);
    StrayAccounted(s.library[c.target], LiveIdentities(u, c.target), CandidateIdentity(c), n);
    OwnNotesKeepSound(u, c, Some(n), notes);
    assert Lost(s, c) == WithNotes(u, c.target, notes);
  }

  lemma BeforeSingle(s: State, k: Key)
    requires Sound(s) && Live(s, k) && Before(s.audit, k).None?
    ensures Single(s.library[s.candidates[k].target], CandidateIdentity(s.candidates[k]))
  {
    hide Accounted, Applied, LiveIdentities, FindNote, Single, KeyOfTexts;
    LiveAudited(s, k);
  }

  lemma SoundIsKeyed(s: State)
    requires Sound(s)
    ensures Keyed(s)
  {
  }

  lemma SoundIsAccounted(s: State, t: Target)
    requires Sound(s) && t in s.library
    ensures Accounted(s.library[t], LiveIdentities(s, t))
  {
  }

  // ----- revoking -----

  /** The entry's notes with what the first promotion found put back. */
  function Withdrawn(s: State, k: Key): seq<Note>
    requires k in s.candidates && s.candidates[k].target in s.library
  {
    Edited(s.library[s.candidates[k].target], CandidateIdentity(s.candidates[k]), Before(s.audit, k))
  }

  /** The state a revocation leaves. */
  function Revoked(s: State, k: Key): State
    requires k in s.candidates && s.candidates[k].target in s.library
  {
    var c := s.candidates[k];
    State(s.candidates[k := c.(status := Status.Revoked)], s.library[c.target := Withdrawn(s, k)],
          s.audit + [Mutation(k, RevokeNote, After(s.audit, k), Before(s.audit, k))])
  }

  /** The state a revocation leaves whose audit append fails: the latest note is written once more. */
  function PutBack(s: State, k: Key): State
    requires k in s.candidates && s.candidates[k].target in s.library
  {
    var c := s.candidates[k];
    WithNotes(s, c.target, Edited(Withdrawn(s, k), CandidateIdentity(c), RereadOption(After(s.audit, k))))
  }

  /** The texts are given, and the candidate is promoted and finds its latest note. */
  predicate Revocable(s: State, k: Key, actor: string, reason: string) {
    !Blank(actor) && !Blank(reason) && k in s.candidates && s.candidates[k].status.Promoted? && Present(s, k)
  }

  lemma RevokeShape(s: State, k: Key)
    requires Sound(s) && Present(s, k)
    ensures CanonicalOrNone(Before(s.audit, k)) && After(s.audit, k).Some? && s.candidates[k].key == k
    ensures RereadOption(Before(s.audit, k)) == Before(s.audit, k)
    ensures FindNote(Withdrawn(s, k), CandidateIdentity(s.candidates[k])) == Before(s.audit, k)
  {
    hide Accounted, Applied, WellFormed, FindNote, Edited, LiveIdentities, Single, Before, After, Reread;
    var c := s.candidates[k];
    LiveAudited(s, k);
    BeforeFound(s.library[c.target], CandidateIdentity(c), Before(s.audit, k));
  }

  /** A revocation goes through exactly when the candidate is revocable and the audit works. */
  lemma RevokeOutcome(s: State, k: Key, actor: string, reason: string, auditWorks: bool)
    requires Sound(s)
    ensures var r := Revoke(s, k, actor, reason, auditWorks);
            && (r.1 == Undone <==> Revocable(s, k, actor, reason) && auditWorks)
            && (r.1 == RevokeAuditFailed <==> Revocable(s, k, actor, reason) && !auditWorks)
            && (r.1 == Undone ==> r.0 == Revoked(s, k))
            && (r.1 == RevokeAuditFailed ==> r.0 == PutBack(s, k))
            && (!Revocable(s, k, actor, reason) ==> r.0 == s)
  {
    hide Accounted, WellFormed, FindNote, Edited, LiveIdentities, Blank, Single, Reread, Applied, EntryMatches, Written;
    if k in s.candidates && s.candidates[k].status.Promoted? {
      assert Live(s, k);
      LiveAudited(s, k);
      if Present(s, k) {
        RevokeShape(s, k);
        assert s.candidates[k := s.candidates[k]] == s.candidates;
      }
    }
  }

  lemma RevokedLive(s: State, k: Key, j: Key)
    requires Live(s, k) && s.candidates[k].target in s.library
    ensures Live(Revoked(s, k), j) <==> j != k && Live(s, j)
    ensures Applied(Revoked(s, k).audit, j) == Applied(s.audit, j)
  {
    hide Applied, FindNote, Edited;
    AppliedAppended(s.audit, Revoked(s, k).audit[|s.audit|], j);
  }

  lemma RevokedIdentities(s: State, k: Key, t: Target)
    requires Sound(s) && Live(s, k) && s.candidates[k].target in s.library
    ensures LiveIdentities(Revoked(s, k), t) ==
            LiveIdentities(s, t) - if t == s.candidates[k].target then {CandidateIdentity(s.candidates[k])} else {}
  {
    hide Accounted, Applied, AuditMatches, FindNote, Edited, KeyOfTexts, Cleaned, Strip;
    var u, c := Revoked(s, k), s.candidates[k];
    forall j
      ensures Live(u, j) <==> j != k && Live(s, j)
    {
      RevokedLive(s, k, j);
    }
    forall j | j in s.candidates && j != k && s.candidates[j].target == c.target
      ensures CandidateIdentity(s.candidates[j]) != CandidateIdentity(c)
    {
      DistinctCandidatesDistinctNotes(s.candidates[j], c);
    }
    forall id
      ensures id in LiveIdentities(u, t) <==>
              id in LiveIdentities(s, t) - if t == c.target then {CandidateIdentity(c)} else {}
    {
      if id in LiveIdentities(s, t) {
        var j :| j in s.candidates && Live(s, j) && s.candidates[j].target == t
                 && CandidateIdentity(s.candidates[j]) == id;
        assert j != k ==> Live(u, j) && u.candidates[j] == s.candidates[j];
      }
    }
  }

  lemma RevokedKeepsSound(s: State, k: Key)
    requires Sound(s) && Live(s, k) && s.candidates[k].target in s.library
    ensures Sound(Revoked(s, k))
  {
    hide Accounted, Applied, KeyOfTexts, FindNote, Edited, LiveIdentities, Cleaned, Strip, EntryMatches;
    var u, c, before := Revoked(s, k), s.candidates[k], Before(s.audit, k);
    LiveAudited(s, k);
    FitsIsOfKey(c, before);
    forall j
      ensures Live(u, j) <==> j != k && Live(s, j)
      ensures Applied(u.audit, j) == Applied(s.audit, j)
    {
      RevokedLive(s, k, j);
    }
    forall j | j in u.candidates
      ensures AuditMatches(u, j)
    {
      if j != k {
        OtherMatches(s, u, c, before, j);
      }
    }
    forall t | t in u.library
      ensures Accounted(u.library[t], LiveIdentities(u, t))
    {
      RevokedIdentities(s, k, t);
      if t == c.target {
        RestoredAccounted(s.library[t], LiveIdentities(s, t), CandidateIdentity(c), before);
      } else {
        assert LiveIdentities(s, t) - {} == LiveIdentities(s, t);
      }
    }
  }

  /** The notes a failed revocation leaves match every live candidate of the entry. */
  lemma PutBackMatches(s: State, k: Key, j: Key)
    requires Sound(s) && Present(s, k) && Live(s, j) && s.candidates[j].target == s.candidates[k].target
    ensures EntryMatches(PutBack(s, k).library[s.candidates[k].target], s.candidates[j],
                         Before(s.audit, j), After(s.audit, j))
  {
    hide Accounted, Applied, KeyOfTexts, FindNote, Edited, LiveIdentities, Cleaned, Strip, Single;
    hide Before, After, CleanConditions, Reread, Sound;
    var c, before, after := s.candidates[k], Before(s.audit, k), After(s.audit, k);
    LiveAudited(s, k);
    var id, n := CandidateIdentity(c), Reread(after.value);
    LiveAudited(s, j);
    RevokeShape(s, k);
    BeforeFound(s.library[c.target], id, before);
    WrittenReread(c, after.value);
    if j != k {
      FitsIsOfKey(c, before);
      OtherCandidate(c, before, s.candidates[j]);
      OtherCandidate(c, Some(n), s.candidates[j]);
      OtherEntry(s.library[c.target], id, before, s.candidates[j], Before(s.audit, j), After(s.audit, j));
      OtherEntry(Withdrawn(s, k), id, Some(n), s.candidates[j], Before(s.audit, j), After(s.audit, j));
    } else if CleanConditions(c) {
      CanonicalMeans(after.value);
      PromotedEntry(Withdrawn(s, k), c, before, n);
    } else {
      CanonicalFits(c, before);
      StrayEntry(Withdrawn(s, k), c, after, n);
    }
  }

  lemma CanonicalMeans(n: Note)
    ensures Canonical(n) <==> Reread(n) == n
  {
  }

  lemma PutBackAccounted(s: State, k: Key)
    requires Sound(s) && Present(s, k)
    ensures Accounted(PutBack(s, k).library[s.candidates[k].target], LiveIdentities(s, s.candidates[k].target))
  {
    hide Accounted, Applied, KeyOfTexts, FindNote, Edited, Cleaned, Strip, Single;
    hide Before, After, CleanConditions, Reread, Sound, EntryMatches, Written, Live;
    PresentIsLive(s, k);
    LiveAudited(s, k);
    var c, before, after := s.candidates[k], Before(s.audit, k), After(s.audit, k);
    var id, n, live := CandidateIdentity(c), Reread(after.value), LiveIdentities(s, c.target);
    RevokeShape(s, k);
    WrittenReread(c, after.value);
    SoundIsAccounted(s, c.target);
    RestoredAccounted(s.library[c.target], live, id, before);
    assert id in live;
    if CleanConditions(c) {
      CanonicalMeans(after.value);
      PromotedAccounted(Withdrawn(s, k), live - {id}, id, n);
      assert live - {id} + {id} == live;
    } else {
      SoundIsKeyed(s);
      StrayUnclaimed(s, c, n);
      StrayAccounted(Withdrawn(s, k), live - {id}, id, n);
      AccountedMonotone(Edited(Withdrawn(s, k), id, Some(n)), live - {id}, live);
    }
  }

  lemma PutBackKeepsSound(s: State, k: Key)
    requires Sound(s) && Present(s, k)
    ensures Sound(PutBack(s, k))
  {
    hide Accounted, Applied, KeyOfTexts, FindNote, Edited, LiveIdentities, Cleaned, Strip, EntryMatches, Sound;
    hide Before, After, Withdrawn;
    var t := s.candidates[k].target;
    forall j | Live(s, j) && s.candidates[j].target == t
      ensures EntryMatches(PutBack(s, k).library[t], s.candidates[j], Before(s.audit, j), After(s.audit, j))
    {
      PutBackMatches(s, k, j);
    }
    PutBackAccounted(s, k);
    NotesKeepSound(s, t, PutBack(s, k).library[t]);
  }

  /** After a revocation that failed the candidate is revocable exactly when its conditions are clean. */
  lemma PutBackPresent(s: State, k: Key)
    requires Sound(s) && Present(s, k)
    ensures Present(PutBack(s, k), k) <==> CleanConditions(s.candidates[k])
  {
    hide Accounted, Applied, KeyOfTexts, FindNote, Edited, LiveIdentities, Cleaned, Strip, Single;
    hide Before, After, CleanConditions, Reread, Sound;
    var c, before, after := s.candidates[k], Before(s.audit, k), After(s.audit, k);
    LiveAudited(s, k);
    var n := Reread(after.value);
    RevokeShape(s, k);
    BeforeFound(s.library[c.target], CandidateIdentity(c), before);
    WrittenReread(c, after.value);
    if CleanConditions(c) {
      CanonicalMeans(after.value);
      FindReplaced(Withdrawn(s, k), CandidateIdentity(c), n);
    } else {
      CanonicalFits(c, before);
      StrayEntry(Withdrawn(s, k), c, after, n);
    }
  }

  // ----- every run -----

  lemma CountedPuttable(s: State, o: Observation)
    requires Sound(s) && !CandidateFor(s, o).status.Revoked?
    ensures var c := WithEvidence(CandidateFor(s, o), o);
            && Puttable(s, c) && c.key == KeyOf(o)
            && (c.status.Promoted? ==> HasApplied(s, c.key))
  {
    hide Accounted, Applied, KeyOfTexts, LiveIdentities, AuditMatches, Stricter, AppendUnique, WellFormed;
    if KeyOf(o) !in s.candidates {
      NewCandidateWellFormed(o);
    }
    EvidenceWellFormed(CandidateFor(s, o), o);
  }

  /** What an observation may do to a state: nothing, put a record, promote, or fail to. */
  ghost predicate ObservedAs(s: State, o: Observation, c: Candidate, u: State) {
    || u == s
    || (&& Puttable(s, c) && c.key == KeyOf(o) && (c.status.Promoted? ==> HasApplied(s, c.key))
        && (|| u == Put(s, c.(status := Barred)) || u == Put(s, c.(status := NeedsReview))
            || u == Put(s, c.(status := Collecting)) || u == Put(s, c)
            || (c.target in s.library && u == Promoting(s, c).0)
            || (&& c.target in s.library && Present(s, c.key) && !CleanConditions(c)
                && FindNote(s.library[c.target], CandidateIdentity(c)).Some? && u == Lost(s, c))))
  }

  lemma ObservedCases(s: State, cfg: Config, o: Observation, auditWorks: bool)
    requires Sound(s)
    ensures ObservedAs(s, o, WithEvidence(CandidateFor(s, o), o), Observe(s, cfg, o, auditWorks).0)
  {
    hide Sound, KeyOfTexts, Promoting, Stricter, AppendUnique, Rejected, Puttable, FailedPromotion, Lost, Present;
    hide FindNote, CleanConditions, Canonical, HasApplied;
    var c := WithEvidence(CandidateFor(s, o), o);
    if !CandidateFor(s, o).status.Revoked? {
      CountedPuttable(s, o);
      if c.target in s.library {
        FailedShape(s, c);
        LosingIff(s, c);
      }
    }
  }

  lemma PutsPuttable(s: State, c: Candidate)
    requires Puttable(s, c)
    ensures Puttable(s, c.(status := Barred)) && Puttable(s, c.(status := NeedsReview))
    ensures Puttable(s, c.(status := Collecting))
  {
  }

  lemma ActKeepsSound(s: State, cfg: Config, op: EngineOp)
    requires Sound(s)
    ensures Sound(Act(s, cfg, op))
  {
    hide Sound, Observe, Revoke, Promoting, Revoked, Put, KeyOfTexts, Applied, Live, Edited, Lost, PutBack, Present;
    hide CleanConditions, FindNote, WellFormed;
    match op
    case Observing(o, auditWorks) =>
      ObservedCases(s, cfg, o, auditWorks);
      var c := WithEvidence(CandidateFor(s, o), o);
      if Act(s, cfg, op) != s {
        PutsPuttable(s, c);
        PutKeepsSound(s, c.(status := Barred));
        PutKeepsSound(s, c.(status := NeedsReview));
        PutKeepsSound(s, c.(status := Collecting));
        PutKeepsSound(s, c);
        if c.target in s.library {
          PromotingKeepsSound(s, c);
          if Present(s, c.key) && !CleanConditions(c) {
            LostKeepsSound(s, c);
          }
        }
      }
    case Revoking(k, actor, reason, auditWorks) =>
      RevokeOutcome(s, k, actor, reason, auditWorks);
      if Revocable(s, k, actor, reason) {
        PresentIsLive(s, k);
        RevokedKeepsSound(s, k);
        PutBackKeepsSound(s, k);
      }
  }

  lemma PresentIsLive(s: State, k: Key)
    requires Present(s, k)
    ensures Live(s, k) && k in s.candidates && s.candidates[k].target in s.library
  {
  }

  predicate CanonicalLibrary(library: map<Target, seq<Note>>) {
    forall t, n :: t in library && n in library[t] ==> Canonical(n)
  }

  lemma {:induction false} CanonicalAccounted(notes: seq<Note>)
    requires forall n :: n in notes ==> Canonical(n)
    ensures Accounted(notes, {})
  {
    if notes != [] {
      CanonicalAccounted(notes[1..]);
      assert {} - {IdentityOf(notes[0])} == {};
    }
  }

  /** The stores before the first observation. */
  function Initial(library: map<Target, seq<Note>>): State {
    State(map[], library, [])
  }

  lemma InitialSound(library: map<Target, seq<Note>>)
    requires CanonicalLibrary(library)
    ensures Sound(Initial(library))
  {
    var s := Initial(library);
    forall t | t in library
      ensures Accounted(library[t], LiveIdentities(s, t))
    {
      CanonicalAccounted(library[t]);
      assert LiveIdentities(s, t) == {};
    }
  }

  lemma {:induction false} RunKeepsSound(s: State, cfg: Config, ops: seq<EngineOp>)
    requires Sound(s)
    ensures Sound(Run(s, cfg, ops))
    decreases |ops|
  {
    hide Sound, Act;
    if ops != [] {
      ActKeepsSound(s, cfg, ops[0]);
      RunKeepsSound(Act(s, cfg, ops[0]), cfg, ops[1..]);
    }
  }
}
