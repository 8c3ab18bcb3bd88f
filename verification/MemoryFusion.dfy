/** Fusing the answers of several projections into one selection of active records (memory/projected.py). */
module MemoryFusion {
  import opened Outcomes
  import opened Sequences
  import opened Text
  import opened Sorting
  import opened Listing
  import opened MemorySpec

  /** The ids one projection answers with, best first, and the weight the port gives that projection. */
  datatype Answer = Answer(weight: real, hits: seq<string>)

  /** Fusion constant, weight of the lexical projection, and the metadata score of a record at a time. */
  datatype Policy = Policy(k: nat, weight: real, metadata: (Record, int) -> real)

  function ActiveById(store: seq<Record>, id: string, at: int): Option<Record> {
    var i := Locate(store, id);
    if i.Some? && Active(store[i.value], at) then Some(store[i.value]) else None
  }

  function Share(k: nat, weight: real, rank: nat): real
    requires rank > 0
  {
    weight / (k + rank) as real
  }

  /** What the hits of one projection add to the score of an id; ranks start at one. */
  function RankScore(k: nat, weight: real, hits: seq<string>, id: string): real {
    if hits == [] then 0.0
    else
      RankScore(k, weight, hits[..|hits| - 1], id) +
      if hits[|hits| - 1] == id then Share(k, weight, |hits|) else 0.0
  }

  function FusionScore(k: nat, answers: seq<Answer>, id: string): real {
    if answers == [] then 0.0
    else
      var last := answers[|answers| - 1];
      FusionScore(k, answers[..|answers| - 1], id) + RankScore(k, last.weight, last.hits, id)
  }

  /** The keys of the score dictionary, in the order of their first hit. */
  function Noted(ids: seq<string>, hits: seq<string>): seq<string> {
    if hits == [] then ids
    else
      var front, id := Noted(ids, hits[..|hits| - 1]), hits[|hits| - 1];
      if id in front then front else front + [id]
  }

  function Mentioned(answers: seq<Answer>): seq<string> {
    if answers == [] then [] else Noted(Mentioned(answers[..|answers| - 1]), answers[|answers| - 1].hits)
  }

  ghost predicate Mentions(answers: seq<Answer>, id: string) {
    exists a :: a in answers && id in a.hits
  }

  function CandidateOf(p: Policy, store: seq<Record>, answers: seq<Answer>, id: string, at: int): Option<Hit> {
    var record := ActiveById(store, id, at);
    if record.None? then None else Some(Hit(id, FusionScore(p.k, answers, id) + p.metadata(record.value, at)))
  }

  /** The active records among some ids, with fused and metadata scores. */
  function CandidatesAmong(
    p: Policy, store: seq<Record>, answers: seq<Answer>, ids: seq<string>, at: int): seq<Hit>
  {
    if ids == [] then []
    else
      var c := CandidateOf(p, store, answers, ids[|ids| - 1], at);
      CandidatesAmong(p, store, answers, ids[..|ids| - 1], at) + (if c.Some? then [c.value] else [])
  }

  function Candidates(p: Policy, store: seq<Record>, answers: seq<Answer>, at: int): seq<Hit> {
    CandidatesAmong(p, store, answers, Mentioned(answers), at)
  }

  function Ids(hits: seq<Hit>): (r: seq<string>)
    ensures |r| == |hits| && forall i :: 0 <= i < |r| ==> r[i] == hits[i].id
  {
    seq(|hits|, i requires 0 <= i < |hits| => hits[i].id)
  }

  /** The ids a search selects, given the answers of its projections. */
  function Selected(p: Policy, store: seq<Record>, answers: seq<Answer>, limit: nat, at: int): seq<string> {
    Ids(FirstOf(Sort(Candidates(p, store, answers, at), Before), limit))
  }

  // ----- which ids are scored -----

  lemma {:induction false} NotedExactly(ids: seq<string>, hits: seq<string>)
    requires NoRepeats(ids)
    ensures NoRepeats(Noted(ids, hits))
    ensures forall id :: id in Noted(ids, hits) <==> id in ids || id in hits
  {
    if hits != [] {
      var front, last := hits[..|hits| - 1], hits[|hits| - 1];
      assert hits == front + [last];
      NotedExactly(ids, front);
    }
  }

  lemma {:induction false} MentionedExactly(answers: seq<Answer>)
    ensures NoRepeats(Mentioned(answers))
    ensures forall id :: id in Mentioned(answers) <==> Mentions(answers, id)
  {
    hide Noted;
    if answers != [] {
      var front, last := answers[..|answers| - 1], answers[|answers| - 1];
      assert answers == front + [last];
      MentionedExactly(front);
      NotedExactly(Mentioned(front), last.hits);
    }
  }

  lemma {:induction false} RankScoreSign(k: nat, weight: real, hits: seq<string>, id: string)
    ensures id !in hits ==> RankScore(k, weight, hits, id) == 0.0
    ensures weight > 0.0 ==> RankScore(k, weight, hits, id) >= 0.0
    ensures weight > 0.0 && id in hits ==> RankScore(k, weight, hits, id) > 0.0
  {
    hide Share;
    if hits != [] {
      var front, last := hits[..|hits| - 1], hits[|hits| - 1];
      assert hits == front + [last];
      RankScoreSign(k, weight, front, id);
      SharePositive(k, weight, |hits|);
    }
  }

  lemma SharePositive(k: nat, weight: real, rank: nat)
    requires rank > 0
    ensures weight > 0.0 ==> Share(k, weight, rank) > 0.0
  {
  }

  lemma {:induction false} UnmentionedScoresNothing(k: nat, answers: seq<Answer>, id: string)
    requires !Mentions(answers, id)
    ensures FusionScore(k, answers, id) == 0.0
  {
    if answers != [] {
      var front, last := answers[..|answers| - 1], answers[|answers| - 1];
      assert last in answers && forall a :: a in front ==> a in answers;
      RankScoreSign(k, last.weight, last.hits, id);
      UnmentionedScoresNothing(k, front, id);
    }
  }

  lemma NewlyNoted(k: nat, answers: seq<Answer>, weight: real, hits: seq<string>, id: string)
    requires id !in Noted(Mentioned(answers), hits)
    ensures FusionScore(k, answers, id) == 0.0 && RankScore(k, weight, hits, id) == 0.0
  {
    hide FusionScore, RankScore, Noted, Mentioned, Mentions;
    MentionedExactly(answers);
    NotedExactly(Mentioned(answers), hits);
    UnmentionedScoresNothing(k, answers, id);
    RankScoreSign(k, weight, hits, id);
  }

  lemma NothingHit(k: nat, ids: seq<string>, weight: real)
    ensures Noted(ids, []) == ids && forall id :: RankScore(k, weight, [], id) == 0.0
  {
  }

  lemma OneMoreHit(k: nat, ids: seq<string>, weight: real, hits: seq<string>, i: nat)
    requires i < |hits|
    ensures var before := Noted(ids, hits[..i]);
            Noted(ids, hits[..i + 1]) == if hits[i] in before then before else before + [hits[i]]
    ensures forall id ::
              RankScore(k, weight, hits[..i + 1], id) ==
              RankScore(k, weight, hits[..i], id) + if hits[i] == id then Share(k, weight, i + 1) else 0.0
  {
    hide Share;
    assert hits[..i + 1][..i] == hits[..i];
  }

  /** One more projection raises the score of exactly the ids it answers with, and lowers none. */
  lemma AnswerRaisesIff(k: nat, answers: seq<Answer>, a: Answer, id: string)
    requires a.weight > 0.0
    ensures FusionScore(k, answers + [a], id) > FusionScore(k, answers, id) <==> id in a.hits
    ensures FusionScore(k, answers + [a], id) >= FusionScore(k, answers, id)
  {
    assert (answers + [a])[..|answers|] == answers;
    RankScoreSign(k, a.weight, a.hits, id);
  }

  // ----- what a search selects -----

  lemma {:induction false} CandidatesExactly(
    p: Policy, store: seq<Record>, answers: seq<Answer>, ids: seq<string>, at: int)
    requires NoRepeats(ids)
    ensures var c := CandidatesAmong(p, store, answers, ids, at);
            && NoRepeats(c)
            && (forall h :: h in c <==> h.id in ids && CandidateOf(p, store, answers, h.id, at) == Some(h))
  {
    hide ActiveById, FusionScore;
    if ids != [] {
      var front, last := ids[..|ids| - 1], ids[|ids| - 1];
      assert ids == front + [last];
      CandidatesExactly(p, store, answers, front, at);
      assert last !in front;
    }
  }

  /** An id some projection answered with whose record is active, with its score. */
  ghost predicate Eligible(p: Policy, store: seq<Record>, answers: seq<Answer>, at: int, h: Hit) {
    Mentions(answers, h.id) && CandidateOf(p, store, answers, h.id, at) == Some(h)
  }

  lemma EligibleExactly(p: Policy, store: seq<Record>, answers: seq<Answer>, at: int)
    ensures var c := Candidates(p, store, answers, at);
            NoRepeats(c) && forall h :: h in c <==> Eligible(p, store, answers, at, h)
  {
    hide CandidatesAmong, CandidateOf, Mentioned, Mentions, NoRepeats;
    MentionedExactly(answers);
    CandidatesExactly(p, store, answers, Mentioned(answers), at);
  }

  /** The hits behind a selection: ranked, eligible, and as many as the limit allows. */
  ghost predicate Best(p: Policy, store: seq<Record>, answers: seq<Answer>, limit: nat, at: int, hits: seq<Hit>) {
    && |hits| <= limit && NoRepeats(hits) && Sorted(hits, Before)
    && (forall h :: h in hits ==> Eligible(p, store, answers, at, h))
    && (forall h :: Eligible(p, store, answers, at, h) && h !in hits ==>
          |hits| == limit && forall kept :: kept in hits ==> Before(kept, h))
  }

  lemma FirstAreBest(all: seq<Hit>, limit: nat)
    requires Sorted(all, Before) && NoRepeats(all)
    ensures var r := FirstOf(all, limit);
            && |r| <= limit && NoRepeats(r) && Sorted(r, Before) && (forall h :: h in r ==> h in all)
            && (forall h, kept :: h in all && h !in r && kept in r ==> |r| == limit && Before(kept, h))
            && (forall h :: h in all && h !in r ==> |r| == limit)
  {
    hide Before;
    var r := FirstOf(all, limit);
    assert forall q :: 0 <= q < |r| ==> r[q] == all[q];
    forall h, kept | h in all && h !in r && kept in r
      ensures |r| == limit && Before(kept, h)
    {
      var i :| 0 <= i < |r| && r[i] == kept;
      var j :| 0 <= j < |all| && all[j] == h;
      assert all[i] == kept && j >= |r|;
    }
  }

  /** A search selects the best of the active records its projections answered with. */
  lemma SelectsBest(p: Policy, store: seq<Record>, answers: seq<Answer>, limit: nat, at: int)
    ensures var hits := FirstOf(Sort(Candidates(p, store, answers, at), Before), limit);
            Best(p, store, answers, limit, at, hits) && Selected(p, store, answers, limit, at) == Ids(hits)
  {
    hide Candidates, Before, Eligible, Sorted, NoRepeats, FirstOf;
    var c := Candidates(p, store, answers, at);
    EligibleExactly(p, store, answers, at);
    BeforeOrders(c);
    SortSorted(c, Before);
    SortedNoRepeats(c, Before);
    FirstAreBest(Sort(c, Before), limit);
  }

  /** Whatever the projections answer, a search selects active records only, and only such as one of them answered. */
  lemma SelectedActive(p: Policy, store: seq<Record>, answers: seq<Answer>, limit: nat, at: int)
    ensures forall id :: id in Selected(p, store, answers, limit, at) ==>
              Mentions(answers, id) && ActiveById(store, id, at).Some?
  {
    hide ActiveById, Before, Candidates, Selected, FusionScore, Mentions;
    SelectsBest(p, store, answers, limit, at);
    var hits := FirstOf(Sort(Candidates(p, store, answers, at), Before), limit);
    forall id | id in Selected(p, store, answers, limit, at)
      ensures Mentions(answers, id) && ActiveById(store, id, at).Some?
    {
      var i :| 0 <= i < |hits| && Ids(hits)[i] == id;
      assert hits[i] in hits;
    }
  }

  // ----- the order of the projections -----

  lemma {:induction false} ScoreWithout(k: nat, answers: seq<Answer>, j: nat, id: string)
    requires j < |answers|
    ensures FusionScore(k, answers, id) ==
            FusionScore(k, answers[..j] + answers[j + 1..], id) + RankScore(k, answers[j].weight, answers[j].hits, id)
    decreases |answers|
  {
    var front, last := answers[..|answers| - 1], answers[|answers| - 1];
    var rest := answers[..j] + answers[j + 1..];
    if j == |front| {
      assert rest == front;
    } else {
      ScoreWithout(k, front, j, id);
      assert rest[..|rest| - 1] == front[..j] + front[j + 1..] && rest[|rest| - 1] == last;
    }
  }

  lemma BagWithout(s: seq<Answer>, j: nat)
    requires j < |s|
    ensures multiset(s[..j] + s[j + 1..]) == multiset(s) - multiset{s[j]}
  {
    assert s == s[..j] + [s[j]] + s[j + 1..];
  }

  lemma {:induction false} ScoreIgnoresOrder(k: nat, a: seq<Answer>, b: seq<Answer>, id: string)
    requires multiset(a) == multiset(b)
    ensures FusionScore(k, a, id) == FusionScore(k, b, id)
    decreases |a|
  {
    hide FusionScore, RankScore;
    assert |a| == |multiset(a)| == |multiset(b)| == |b|;
    if a == [] {
      assert a == b;
    } else {
      var i := |a| - 1;
      SameElement(a, b, a[i]);
      var j :| 0 <= j < |b| && b[j] == a[i];
      BagWithout(a, i);
      BagWithout(b, j);
      ScoreIgnoresOrder(k, a[..i] + a[i + 1..], b[..j] + b[j + 1..], id);
      ScoreWithout(k, a, i, id);
      ScoreWithout(k, b, j, id);
    }
  }

  /** A search does not depend on the order in which its projections are configured. */
  lemma SearchIgnoresProjectionOrder(
    p: Policy, store: seq<Record>, a: seq<Answer>, b: seq<Answer>, limit: nat, at: int)
    requires multiset(a) == multiset(b)
    ensures Selected(p, store, a, limit, at) == Selected(p, store, b, limit, at)
  {
    hide Candidates, Before, ActiveById, FusionScore, Mentions, Sort, Sorted, NoRepeats;
    var x, y := Candidates(p, store, a, at), Candidates(p, store, b, at);
    EligibleExactly(p, store, a, at);
    EligibleExactly(p, store, b, at);
    forall h
      ensures h in x <==> h in y
    {
      ScoreIgnoresOrder(p.k, a, b, h.id);
      SameMentions(a, b, h.id);
    }
    SameElementsSameBag(x, y);
    SameSorted(x, y);
  }

  lemma SameMentions(a: seq<Answer>, b: seq<Answer>, id: string)
    requires multiset(a) == multiset(b)
    ensures Mentions(a, id) <==> Mentions(b, id)
  {
    forall x
      ensures x in a <==> x in b
    {
      SameElement(a, b, x);
    }
  }

  lemma SameSorted(x: seq<Hit>, y: seq<Hit>)
    requires multiset(x) == multiset(y)
    ensures Sort(x, Before) == Sort(y, Before)
  {
    hide Before, Sorted, Sort;
    BeforeOrders(x);
    BeforeOrders(y);
    BeforeOrders(Sort(x, Before));
    SortSorted(x, Before);
    SortSorted(y, Before);
    SortedUnique(Sort(x, Before), Sort(y, Before), Before);
  }
}
