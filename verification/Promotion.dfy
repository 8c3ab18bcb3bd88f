/** Text normal forms the experience layer compares by. */
module Normalized {
  import opened Text

  /** The first word of a text that does not start with a space. */
  function FirstWord(s: string): (r: string)
    ensures |r| <= |s|
    ensures s != "" && !IsSpace(s[0]) ==> r != ""
  {
    if s == "" || IsSpace(s[0]) then "" else [s[0]] + FirstWord(s[1..])
  }

  /** `s.split()`; joining the words with single spaces loses nothing, so words stand for the joined text. */
  function Words(s: string): seq<string>
    decreases |s|
  {
    if s == "" then []
    else if IsSpace(s[0]) then Words(s[1..])
    else [FirstWord(s)] + Words(s[|FirstWord(s)|..])
  }

  lemma {:induction false} WordsStripLeft(s: string)
    ensures Words(StripLeft(s)) == Words(s)
  {
    if s != "" && IsSpace(s[0]) {
      WordsStripLeft(s[1..]);
    }
  }

  lemma {:induction false} FirstWordBeforeSpace(s: string, c: char)
    requires IsSpace(c)
    ensures FirstWord(s + [c]) == FirstWord(s)
  {
    if s == "" {
      assert s + [c] == [c];
    } else if !IsSpace(s[0]) {
      assert (s + [c])[1..] == s[1..] + [c];
      FirstWordBeforeSpace(s[1..], c);
    }
  }

  lemma {:induction false} WordsTrailingSpace(s: string, c: char)
    requires IsSpace(c)
    ensures Words(s + [c]) == Words(s)
    decreases |s|
  {
    if s == "" {
      assert s + [c] == [c] && [c][1..] == "";
    } else if IsSpace(s[0]) {
      assert (s + [c])[1..] == s[1..] + [c];
      WordsTrailingSpace(s[1..], c);
    } else {
      FirstWordBeforeSpace(s, c);
      var n := |FirstWord(s)|;
      assert (s + [c])[n..] == s[n..] + [c];
      WordsTrailingSpace(s[n..], c);
    }
  }

  lemma {:induction false} WordsStripRight(s: string)
    ensures Words(StripRight(s)) == Words(s)
  {
    if s != "" && IsSpace(s[|s| - 1]) {
      var front := s[..|s| - 1];
      assert s == front + [s[|s| - 1]];
      WordsTrailingSpace(front, s[|s| - 1]);
      WordsStripRight(front);
    }
  }

  lemma WordsStrip(s: string)
    ensures Words(Strip(s)) == Words(s)
  {
    WordsStripLeft(s);
    WordsStripRight(StripLeft(s));
  }

  /** `tuple(x.strip() for x in values if x.strip())` */
  function Cleaned(values: seq<string>): seq<string> {
    if values == [] then []
    else (if Blank(values[0]) then [] else [Strip(values[0])]) + Cleaned(values[1..])
  }

  /** `tuple(dict.fromkeys(...))`: first occurrences only. */
  function Unique(values: seq<string>): seq<string> {
    if values == [] then []
    else
      var front, last := Unique(values[..|values| - 1]), values[|values| - 1];
      if last in front then front else front + [last]
  }

  /** A value that cleaning a list keeps as it is. */
  predicate Neat(x: string) {
    !Blank(x) && Strip(x) == x
  }

  lemma {:induction false} CleanedSame(values: seq<string>)
    ensures Cleaned(values) == values <==> forall x :: x in values ==> Neat(x)
  {
    if values != [] {
      var first, rest := values[0], values[1..];
      CleanedSame(rest);
      CleanedShorter(rest);
      assert first in values;
      assert Cleaned(values) == (if Blank(first) then [] else [Strip(first)]) + Cleaned(rest);
      if Neat(first) {
        assert Cleaned(values)[1..] == Cleaned(rest);
        assert values == [first] + rest;
      } else if !Blank(first) {
        assert Cleaned(values)[0] == Strip(first);
      }
    }
  }

  lemma {:induction false} CleanedShorter(values: seq<string>)
    ensures |Cleaned(values)| <= |values|
  {
    if values != [] {
      CleanedShorter(values[1..]);
    }
  }

  lemma {:induction false} CleanedIsNeat(values: seq<string>)
    ensures forall x :: x in Cleaned(values) ==> Neat(x)
  {
    if values != [] {
      CleanedIsNeat(values[1..]);
      StripIdempotent(values[0]);
    }
  }

  /** Cleaning a list twice is cleaning it once. */
  lemma CleanedIdempotent(values: seq<string>)
    ensures Cleaned(Cleaned(values)) == Cleaned(values)
  {
    CleanedIsNeat(values);
    CleanedSame(Cleaned(values));
  }

  lemma {:induction false} UniqueMembers(values: seq<string>, x: string)
    ensures x in Unique(values) <==> x in values
  {
    if values != [] {
      UniqueMembers(values[..|values| - 1], x);
      assert values == values[..|values| - 1] + [values[|values| - 1]];
    }
  }
}

/** The usage notes of a library entry (library/models.py). */
module UsageNotes {
  import opened Outcomes
  import opened Text
  import opened Normalized

  datatype Note = Note(text: string, applies: seq<string>, uses: nat, verification: seq<string>)

  /** What `LibraryUsageNote.from_dict(note.to_dict())` rebuilds. */
  function Reread(n: Note): Note {
    Note(Strip(n.text), Cleaned(n.applies), n.uses, Cleaned(n.verification))
  }

  function RereadOption(n: Option<Note>): Option<Note> {
    if n.Some? then Some(Reread(n.value)) else None
  }

  predicate Canonical(n: Note) {
    Reread(n) == n
  }

  /** What constructing a `LibraryUsageNote` demands. */
  predicate Readable(n: Note) {
    !Blank(n.text) && n.uses >= 1
  }
}

/** Evidence, candidates, library notes and the promotion audit (experience/, library/models.py). */
module PromotionSpec {
  import opened Outcomes
  import opened Sequences
  import opened Text
  import opened Normalized
  import opened UsageNotes

  datatype Target = Target(bookId: string, entryId: string)

  /** The candidate key; its digest is taken as injective. */
  datatype Key = Key(bookId: string, entryId: string, lesson: seq<string>, applies: seq<string>)

  datatype Risk = Normal | Privileged | SecuritySensitive

  datatype Status = Collecting | Promoted | NeedsReview | Barred | Revoked

  datatype Observation = Observation(
    evidenceId: string, target: Target, lesson: string, applies: seq<string>, success: bool, verified: bool,
    verificationRef: Option<string>, replayed: bool, risk: Risk, episodeId: Option<string>)

  datatype Candidate = Candidate(
    key: Key, target: Target, lesson: string, applies: seq<string>, evidence: seq<string>, refs: seq<string>,
    episodes: seq<string>, successes: nat, failures: nat, risk: Risk, status: Status)

  datatype Operation = Promote | Reinforce | RevokeNote

  datatype Mutation = Mutation(key: Key, operation: Operation, before: Option<Note>, after: Option<Note>)

  datatype Config = Config(minSuccesses: nat, requireReplay: bool)

  datatype State = State(candidates: map<Key, Candidate>, library: map<Target, seq<Note>>, audit: seq<Mutation>)

  function KeyOfTexts(target: Target, lesson: string, applies: seq<string>): Key {
    Key(Strip(target.bookId), Strip(target.entryId), Words(lesson), Unique(Cleaned(applies)))
  }

  function KeyOf(o: Observation): Key {
    KeyOfTexts(o.target, o.lesson, o.applies)
  }

  // ----- notes of one entry -----

  /** What `_same_usage_note` compares: the words of the text and the raw conditions. */
  datatype Identity = Identity(words: seq<string>, applies: seq<string>)

  function IdentityOf(n: Note): Identity {
    Identity(Words(n.text), n.applies)
  }

  function CandidateIdentity(c: Candidate): Identity {
    Identity(Words(c.lesson), c.applies)
  }

  function FindNote(notes: seq<Note>, id: Identity): Option<Note> {
    if notes == [] then None
    else if IdentityOf(notes[0]) == id then Some(notes[0])
    else FindNote(notes[1..], id)
  }

  /** Put a note in the place of the first match, append it, or remove the first match. */
  function Edited(notes: seq<Note>, id: Identity, replacement: Option<Note>): seq<Note> {
    if notes == [] then (if replacement.Some? then [replacement.value] else [])
    else if IdentityOf(notes[0]) == id then (if replacement.Some? then [replacement.value] else []) + notes[1..]
    else [notes[0]] + Edited(notes[1..], id, replacement)
  }

  function Max(a: nat, b: nat): nat {
    if a >= b then a else b
  }

  /** The note a promotion writes over `previous`. */
  function PromotedNote(c: Candidate, previous: Option<Note>): Note {
    match previous
    case None => Note(c.lesson, c.applies, c.successes, c.refs)
    case Some(p) => Note(c.lesson, c.applies, Max(p.uses, c.successes), Unique(p.verification + c.refs))
  }

  // ----- observing -----

  function AppendUnique(values: seq<string>, value: Option<string>): seq<string> {
    if value.None? || Blank(value.value) || Strip(value.value) in values then values else values + [Strip(value.value)]
  }

  function Rank(r: Risk): nat {
    match r case Normal => 0 case Privileged => 1 case SecuritySensitive => 2
  }

  function Stricter(a: Risk, b: Risk): Risk {
    if Rank(b) > Rank(a) then b else a
  }

  predicate StartsWithReplay(ref: Option<string>) {
    ref.Some? && "replay:" <= ref.value
  }

  predicate Rejected(cfg: Config, o: Observation) {
    || !o.verified
    || (&& cfg.requireReplay
        && (|| !o.replayed || !StartsWithReplay(o.verificationRef)
            || o.episodeId.None? || Blank(o.episodeId.value)))
  }

  function NewCandidate(o: Observation): Candidate {
    Candidate(KeyOf(o), o.target, Strip(o.lesson), o.applies, [], [], [], 0, 0, o.risk, Collecting)
  }

  function CandidateFor(s: State, o: Observation): Candidate {
    if KeyOf(o) in s.candidates then s.candidates[KeyOf(o)] else NewCandidate(o)
  }

  /** The candidate with the observation's evidence counted in. */
  function WithEvidence(c: Candidate, o: Observation): Candidate {
    c.(risk := Stricter(c.risk, o.risk),
       evidence := c.evidence + [o.evidenceId],
       refs := AppendUnique(c.refs, o.verificationRef),
       episodes := AppendUnique(c.episodes, o.episodeId),
       successes := c.successes + (if o.success then 1 else 0),
       failures := c.failures + (if o.success then 0 else 1))
  }

  datatype Verdict =
    | RejectedEvidence | BlockedRevoked | DuplicateEvidence | BlockedRisk | ReviewNeeded | Recorded | TargetMissing
    | NotePromoted(reinforced: bool) | AuditFailed

  function Put(s: State, c: Candidate): State {
    s.(candidates := s.candidates[c.key := c])
  }

  function Observe(s: State, cfg: Config, o: Observation, auditWorks: bool): (State, Verdict) {
    if Rejected(cfg, o) then (s, RejectedEvidence)
    else
      var existing := CandidateFor(s, o);
      if existing.status.Revoked? then (s, BlockedRevoked)
      else if o.evidenceId in existing.evidence then (s, DuplicateEvidence)
      else
        var c := WithEvidence(existing, o);
        if !c.risk.Normal? then (Put(s, c.(status := Barred)), BlockedRisk)
        else if c.failures > 0 then (Put(s, c.(status := NeedsReview)), ReviewNeeded)
        else if c.successes < cfg.minSuccesses then (Put(s, c.(status := Collecting)), Recorded)
        else if c.target !in s.library then (Put(s, c.(status := Barred)), TargetMissing)
        else if auditWorks then Promoting(s, c) else FailedPromotion(s, c)
  }

  function WithNotes(s: State, target: Target, notes: seq<Note>): State {
    s.(library := s.library[target := notes])
  }

  function Promoting(s: State, c: Candidate): (State, Verdict)
    requires c.target in s.library
  {
    var notes := s.library[c.target];
    var before := FindNote(notes, CandidateIdentity(c));
    var after := PromotedNote(c, before);
    var edited := WithNotes(s, c.target, Edited(notes, CandidateIdentity(c), Some(after)));
    var written := Put(edited, c.(status := Promoted));
    (written.(audit := s.audit + [Mutation(c.key, if before.None? then Promote else Reinforce, before, Some(after))]),
     NotePromoted(before.Some?))
  }

  /** The audit append raises: the note is restored and the candidate put back with its evidence. */
  function FailedPromotion(s: State, c: Candidate): (State, Verdict)
    requires c.target in s.library
  {
    var notes := s.library[c.target];
    var before := FindNote(notes, CandidateIdentity(c));
    var after := PromotedNote(c, before);
    var written := WithNotes(s, c.target, Edited(notes, CandidateIdentity(c), Some(after)));
    (Put(Restored(written, c, Some(after), before).0, c), AuditFailed)
  }

  /** `_restore_usage_note` */
  function Restored(s: State, c: Candidate, expected: Option<Note>, replacement: Option<Note>): (State, bool) {
    if c.target !in s.library then (s, false)
    else
      var notes, id := s.library[c.target], CandidateIdentity(c);
      if FindNote(notes, id) != expected then (s, false)
      else (WithNotes(s, c.target, Edited(notes, id, RereadOption(replacement))), true)
  }

  // ----- revoking -----

  datatype RevokeVerdict =
    | BlankText | NotFound | AlreadyRevoked | NotPromoted | MissingAudit | InvalidAudit | Diverged | Undone
    | RevokeAuditFailed

  /** The promotions and reinforcements of a candidate, oldest first. */
  function Applied(audit: seq<Mutation>, key: Key): seq<Mutation> {
    Filter(audit, (m: Mutation) => m.key == key && !m.operation.RevokeNote?)
  }

  function Revoke(s: State, key: Key, actor: string, reason: string, auditWorks: bool): (State, RevokeVerdict) {
    if Blank(actor) || Blank(reason) then (s, BlankText)
    else if key !in s.candidates then (s, NotFound)
    else
      var c := s.candidates[key];
      if c.status.Revoked? then (s, AlreadyRevoked)
      else if !c.status.Promoted? then (s, NotPromoted)
      else
        var applied := Applied(s.audit, key);
        if applied == [] then (s, MissingAudit)
        else
          var first, latest := applied[0], applied[|applied| - 1];
          if latest.after.None? then (s, InvalidAudit)
          else
            var (restored, ok) := Restored(s, c, latest.after, first.before);
            if !ok then (s, Diverged)
            else if !auditWorks then (Put(Restored(restored, c, first.before, latest.after).0, c), RevokeAuditFailed)
            else
              (Put(restored, c.(status := Revoked)).(
                 audit := s.audit + [Mutation(key, RevokeNote, latest.after, first.before)]),
               Undone)
  }
}

/** The promotion engine (experience/promotion.py) over its three stores. */
module Promotion {
  import opened Outcomes
  import opened Text
  import opened Normalized
  import opened UsageNotes
  import opened PromotionSpec

  function Slot(r: Option<Note>): seq<Note> {
    if r.Some? then [r.value] else []
  }

  lemma {:induction false} FirstMatch(notes: seq<Note>, id: Identity, i: nat)
    requires i < |notes| && IdentityOf(notes[i]) == id && forall k :: 0 <= k < i ==> IdentityOf(notes[k]) != id
    ensures FindNote(notes, id) == Some(notes[i])
    ensures forall r :: Edited(notes, id, r) == notes[..i] + Slot(r) + notes[i + 1..]
  {
    if i > 0 {
      FirstMatch(notes[1..], id, i - 1);
      forall r
        ensures Edited(notes, id, r) == notes[..i] + Slot(r) + notes[i + 1..]
      {
        assert notes[1..][..i - 1] == notes[1..i] && notes[1..][i..] == notes[i + 1..];
        assert notes[..i] == [notes[0]] + notes[1..i];
      }
    }
  }

  lemma {:induction false} NoMatch(notes: seq<Note>, id: Identity)
    requires forall k :: 0 <= k < |notes| ==> IdentityOf(notes[k]) != id
    ensures FindNote(notes, id).None? && forall r :: Edited(notes, id, r) == notes + Slot(r)
  {
    if notes != [] {
      NoMatch(notes[1..], id);
      forall r
        ensures Edited(notes, id, r) == notes + Slot(r)
      {
        assert notes == [notes[0]] + notes[1..];
      }
    }
  }

  class Engine {
    const cfg: Config
    var candidates: map<Key, Candidate>
    var library: map<Target, seq<Note>>
    var audit: seq<Mutation>

    constructor (cfg: Config, library: map<Target, seq<Note>>)
      ensures this.cfg == cfg && Now() == State(map[], library, [])
    {
      this.cfg := cfg;
      this.candidates, this.library, this.audit := map[], library, [];
    }

    ghost function Now(): State
      reads this
    {
      State(candidates, library, audit)
    }

    method Observe(o: Observation, auditWorks: bool) returns (r: Verdict)
      modifies this
      ensures (Now(), r) == PromotionSpec.Observe(old(Now()), cfg, o, auditWorks)
    {
      if Rejected(cfg, o) {
        return RejectedEvidence;
      }
      var candidate := if KeyOf(o) in candidates then candidates[KeyOf(o)] else NewCandidate(o);
      if candidate.status.Revoked? {
        return BlockedRevoked;
      }
      if o.evidenceId in candidate.evidence {
        return DuplicateEvidence;
      }
      candidate := WithEvidence(candidate, o);
      if !candidate.risk.Normal? {
        candidates := candidates[candidate.key := candidate.(status := Barred)];
        return BlockedRisk;
      }
      if candidate.failures > 0 {
        candidates := candidates[candidate.key := candidate.(status := NeedsReview)];
        return ReviewNeeded;
      }
      if candidate.successes < cfg.minSuccesses {
        candidates := candidates[candidate.key := candidate.(status := Collecting)];
        return Recorded;
      }
      var promotion := PromoteUsageNote(candidate);
      if promotion.None? {
        candidates := candidates[candidate.key := candidate.(status := Barred)];
        return TargetMissing;
      }
      var (before, after) := promotion.value;
      if !auditWorks {
        var restored := RestoreUsageNote(candidate, Some(after), before);
        candidates := candidates[candidate.key := candidate];
        return AuditFailed;
      }
      candidates := candidates[candidate.key := candidate.(status := Promoted)];
      audit := audit + [Mutation(candidate.key, if before.None? then Promote else Reinforce, before, Some(after))];
      return NotePromoted(before.Some?);
    }

    /** The index of the first note the candidate speaks about, by a scan. */
    method MatchingIndex(notes: seq<Note>, id: Identity) returns (index: Option<nat>)
      ensures index.None? ==> FindNote(notes, id).None? && forall r :: Edited(notes, id, r) == notes + Slot(r)
      ensures index.Some? ==> index.value < |notes| && FindNote(notes, id) == Some(notes[index.value])
      ensures index.Some? ==>
                forall r :: Edited(notes, id, r) == notes[..index.value] + Slot(r) + notes[index.value + 1..]
    {
      for i := 0 to |notes|
        invariant forall k :: 0 <= k < i ==> IdentityOf(notes[k]) != id
      {
        if IdentityOf(notes[i]) == id {
          FirstMatch(notes, id, i);
          return Some(i);
        }
      }
      NoMatch(notes, id);
      return None;
    }

    method PromoteUsageNote(c: Candidate) returns (r: Option<(Option<Note>, Note)>)
      modifies `library
      ensures c.target !in old(library) ==> r.None? && library == old(library)
      ensures c.target in old(library) ==>
                var notes := old(library)[c.target];
                var before := FindNote(notes, CandidateIdentity(c));
                && r == Some((before, PromotedNote(c, before)))
                && library ==
                   old(library)[c.target := Edited(notes, CandidateIdentity(c), Some(PromotedNote(c, before)))]
    {
      if c.target !in library {
        return None;
      }
      var notes := library[c.target];
      var index := MatchingIndex(notes, CandidateIdentity(c));
      if index.None? {
        var note := Note(c.lesson, c.applies, c.successes, c.refs);
        library := library[c.target := notes + [note]];
        return Some((None, note));
      }
      var previous := notes[index.value];
      var note := Note(c.lesson, c.applies, Max(previous.uses, c.successes), Unique(previous.verification + c.refs));
      library := library[c.target := notes[..index.value] + [note] + notes[index.value + 1..]];
      return Some((Some(previous), note));
    }

    method RestoreUsageNote(c: Candidate, expected: Option<Note>, replacement: Option<Note>) returns (ok: bool)
      modifies `library
      ensures (State(candidates, library, audit), ok) == Restored(old(Now()), c, expected, replacement)
    {
      if c.target !in library {
        return false;
      }
      var notes := library[c.target];
      var index := MatchingIndex(notes, CandidateIdentity(c));
      var current := if index.Some? then Some(notes[index.value]) else None;
      if current != expected {
        return false;
      }
      if replacement.None? {
        if index.Some? {
          notes := notes[..index.value] + notes[index.value + 1..];
        }
      } else {
        var restored := Reread(replacement.value);
        if index.None? {
          notes := notes + [restored];
        } else {
          notes := notes[index.value := restored];
        }
      }
      assert notes == Edited(old(library)[c.target], CandidateIdentity(c), RereadOption(replacement));
      library := library[c.target := notes];
      return true;
    }

    method Revoke(key: Key, actor: string, reason: string, auditWorks: bool) returns (r: RevokeVerdict)
      modifies this
      ensures (Now(), r) == PromotionSpec.Revoke(old(Now()), key, actor, reason, auditWorks)
    {
      if Blank(actor) || Blank(reason) {
        return BlankText;
      }
      if key !in candidates {
        return NotFound;
      }
      var candidate := candidates[key];
      if candidate.status.Revoked? {
        return AlreadyRevoked;
      }
      if !candidate.status.Promoted? {
        return NotPromoted;
      }
      var applied := Applied(audit, key);
      if applied == [] {
        return MissingAudit;
      }
      var first, latest := applied[0], applied[|applied| - 1];
      if latest.after.None? {
        return InvalidAudit;
      }
      var restored := RestoreUsageNote(candidate, latest.after, first.before);
      if !restored {
        return Diverged;
      }
      var revoked := candidate.(status := PromotionSpec.Revoked);
      candidates := candidates[revoked.key := revoked];
      if !auditWorks {
        restored := RestoreUsageNote(candidate, first.before, latest.after);
        candidates := candidates[candidate.key := candidate];
        assert candidates == old(candidates)[candidate.key := candidate];
        return RevokeAuditFailed;
      }
      audit := audit + [Mutation(key, RevokeNote, latest.after, first.before)];
      return Undone;
    }
  }
}
