/** Feedback summaries over telemetry events (ego/telemetry.py), in real arithmetic. */
module EgoTelemetry {
  import opened Outcomes

  datatype EventKind = RuntimeUse | ReplayHealth

  datatype Event = Event(
    kind: EventKind, ego: string, version: string, success: bool, latency: Option<real>, createdAt: real)

  /** `decay` maps an age to a factor; the source halves it every half life. */
  datatype Scorer = Scorer(
    minSamples: nat, saturation: nat, replayWeight: real, maxAdjustment: real, priorStrength: real, decay: real -> real)

  /** What the constructor accepts, and what a decay is: a factor between none and all. */
  ghost predicate Valid(s: Scorer) {
    && 1 <= s.minSamples <= s.saturation && s.replayWeight > 0.0 && 0.0 < s.maxAdjustment <= 1.0 &&
         s.priorStrength >= 0.0
    && forall age :: age >= 0.0 ==> 0.0 <= s.decay(age) <= 1.0
  }

  function Weight(s: Scorer, e: Event, now: real): real {
    s.decay(if now - e.createdAt > 0.0 then now - e.createdAt else 0.0) *
    if e.kind.ReplayHealth? then s.replayWeight else 1.0
  }

  function TotalWeight(s: Scorer, events: seq<Event>, now: real): real {
    if events == [] then 0.0 else TotalWeight(s, events[..|events| - 1], now) + Weight(s, events[|events| - 1], now)
  }

  function SuccessWeight(s: Scorer, events: seq<Event>, now: real): real {
    if events == [] then 0.0
    else SuccessWeight(s, events[..|events| - 1], now) +
         (if events[|events| - 1].success then Weight(s, events[|events| - 1], now) else 0.0)
  }

  function CountOf(events: seq<Event>, kind: EventKind, success: bool): nat {
    if events == [] then 0
    else CountOf(events[..|events| - 1], kind, success) +
         (if events[|events| - 1].kind == kind && events[|events| - 1].success == success then 1 else 0)
  }

  lemma {:induction false} CountsCover(events: seq<Event>)
    ensures CountOf(events, RuntimeUse, true) + CountOf(events, RuntimeUse, false) +
              CountOf(events, ReplayHealth, true) + CountOf(events, ReplayHealth, false) == |events|
  {
    if events != [] {
      CountsCover(events[..|events| - 1]);
    }
  }

  lemma WeightNonNegative(s: Scorer, e: Event, now: real)
    requires Valid(s)
    ensures Weight(s, e, now) >= 0.0
  {
    var age := if now - e.createdAt > 0.0 then now - e.createdAt else 0.0;
    ProductNonNegative(s.decay(age), if e.kind.ReplayHealth? then s.replayWeight else 1.0);
  }

  lemma {:induction false} SuccessWithinTotal(s: Scorer, events: seq<Event>, now: real)
    requires Valid(s)
    ensures 0.0 <= SuccessWeight(s, events, now) <= TotalWeight(s, events, now)
  {
    hide Weight;
    if events != [] {
      SuccessWithinTotal(s, events[..|events| - 1], now);
      WeightNonNegative(s, events[|events| - 1], now);
    }
  }

  function Rate(s: Scorer, events: seq<Event>, now: real): real
    requires Valid(s)
  {
    SuccessWithinTotal(s, events, now);
    if TotalWeight(s, events, now) == 0.0 then 0.5
    else (SuccessWeight(s, events, now) + s.priorStrength * 0.5) / (TotalWeight(s, events, now) + s.priorStrength)
  }

  lemma ProductNonNegative(x: real, y: real)
    requires x >= 0.0 && y >= 0.0
    ensures x * y >= 0.0
  {
  }

  lemma ProductPositive(x: real, y: real)
    requires x > 0.0 && y > 0.0
    ensures x * y > 0.0
  {
  }

  lemma Distributes(x: real, y: real, z: real)
    ensures (x - y) * z == x * z - y * z
  {
  }

  lemma QuotientAtLeast(sum: real, n: real, low: real)
    requires n > 0.0 && low * n <= sum
    ensures low <= sum / n
  {
    var q := sum / n;
    assert q * n == sum;
    if q < low {
      ProductPositive(low - q, n);
      Distributes(low, q, n);
      assert false;
    }
  }

  lemma QuotientAtMost(sum: real, n: real, high: real)
    requires n > 0.0 && sum <= high * n
    ensures sum / n <= high
  {
    var q := sum / n;
    assert q * n == sum;
    if q > high {
      ProductPositive(q - high, n);
      Distributes(q, high, n);
      assert false;
    }
  }

  lemma QuotientBounds(sum: real, n: real, low: real, high: real)
    requires n > 0.0 && low * n <= sum <= high * n
    ensures low <= sum / n <= high
  {
    QuotientAtLeast(sum, n, low);
    QuotientAtMost(sum, n, high);
  }

  lemma RatioInUnit(a: real, b: real)
    requires 0.0 <= a <= b && b > 0.0
    ensures 0.0 <= a / b <= 1.0
  {
    QuotientBounds(a, b, 0.0, 1.0);
  }

  /** The weighted success rate is a proportion. */
  lemma RateInUnit(s: Scorer, events: seq<Event>, now: real)
    requires Valid(s)
    ensures 0.0 <= Rate(s, events, now) <= 1.0
  {
    SuccessWithinTotal(s, events, now);
    if TotalWeight(s, events, now) != 0.0 {
      RatioInUnit(SuccessWeight(s, events, now) + s.priorStrength * 0.5, TotalWeight(s, events, now) + s.priorStrength);
    }
  }

  function Least(a: real, b: real): real {
    if a <= b then a else b
  }

  function Most(a: real, b: real): real {
    if a >= b then a else b
  }

  /** How much the sample is trusted: none below the minimum, all from the saturation on. */
  function Confidence(s: Scorer, n: nat): real
    requires s.saturation > 0
  {
    if n < s.minSamples then 0.0 else Least(1.0, n as real / s.saturation as real)
  }

  function Scaled(centered: real, max: real, confidence: real): real {
    centered * max * confidence
  }

  /** How far feedback of a given confidence reaches. */
  function Reach(max: real, confidence: real): real {
    max * confidence
  }

  function Adjustment(s: Scorer, events: seq<Event>, now: real): real
    requires Valid(s)
  {
    if |events| < s.minSamples then 0.0
    else
      var centered := (Rate(s, events, now) - 0.5) * 2.0;
      Most(-s.maxAdjustment, Least(s.maxAdjustment, Scaled(centered, s.maxAdjustment, Confidence(s, |events|))))
  }

  lemma ConfidenceInUnit(s: Scorer, n: nat)
    requires Valid(s)
    ensures 0.0 <= Confidence(s, n) <= 1.0
  {
    QuotientAtLeast(n as real, s.saturation as real, 0.0);
  }

  function Times(x: real, y: real): real {
    x * y
  }

  lemma ProductBound(x: real, m: real)
    requires -1.0 <= x <= 1.0 && m >= 0.0
    ensures -m <= Times(x, m) <= m
  {
    ProductNonNegative(1.0 - x, m);
    ProductNonNegative(x + 1.0, m);
  }

  lemma ReachBound(max: real, c: real)
    requires 0.0 <= c <= 1.0 && max >= 0.0
    ensures 0.0 <= Reach(max, c) <= max
  {
    ProductNonNegative(max, c);
    ProductNonNegative(max, 1.0 - c);
  }

  lemma ScaledIsProduct(centered: real, max: real, c: real)
    ensures Scaled(centered, max, c) == Times(centered, Reach(max, c))
  {
  }

  lemma ClampIdle(x: real, m: real, bound: real)
    requires -m <= x <= m <= bound
    ensures Most(-bound, Least(bound, x)) == x
  {
  }

  /** A centred rate times the maximum times a confidence stays within the scaled maximum. */
  lemma ScaledBound(centered: real, max: real, c: real)
    requires -1.0 <= centered <= 1.0 && 0.0 <= c <= 1.0 && max >= 0.0
    ensures -Reach(max, c) <= Scaled(centered, max, c) <= Reach(max, c) && 0.0 <= Reach(max, c) <= max
  {
    hide Scaled, Reach, Times;
    ReachBound(max, c);
    ScaledIsProduct(centered, max, c);
    ProductBound(centered, Reach(max, c));
  }

  /** The adjustment never exceeds the maximum, scaled by the confidence; the clamp never bites. */
  lemma AdjustmentBounded(s: Scorer, events: seq<Event>, now: real)
    requires Valid(s)
    ensures var a, m := Adjustment(s, events, now), Reach(s.maxAdjustment, Confidence(s, |events|));
            -m <= a <= m <= s.maxAdjustment
  {
    hide Rate, Confidence, Most, Least, Scaled, Reach, Times;
    var c := Confidence(s, |events|);
    ConfidenceInUnit(s, |events|);
    RateInUnit(s, events, now);
    var centered := (Rate(s, events, now) - 0.5) * 2.0;
    ScaledBound(centered, s.maxAdjustment, c);
    ClampIdle(Scaled(centered, s.maxAdjustment, c), Reach(s.maxAdjustment, c), s.maxAdjustment);
  }

  lemma {:induction false} NoSuccessWeight(s: Scorer, events: seq<Event>, now: real)
    requires forall e :: e in events ==> !e.success
    ensures SuccessWeight(s, events, now) == 0.0
  {
    if events != [] {
      NoSuccessWeight(s, events[..|events| - 1], now);
    }
  }

  lemma FullConfidence(s: Scorer, n: nat)
    requires Valid(s) && n >= s.saturation
    ensures Confidence(s, n) == 1.0
  {
    QuotientAtLeast(n as real, s.saturation as real, 1.0);
  }

  /** Without a prior, a saturated sample of failures costs the whole maximum. */
  lemma FailuresCostMaximum(s: Scorer, events: seq<Event>, now: real)
    requires Valid(s) && s.priorStrength == 0.0 && |events| >= s.saturation
    requires TotalWeight(s, events, now) > 0.0 && forall e :: e in events ==> !e.success
    ensures Adjustment(s, events, now) == -s.maxAdjustment
  {
    hide Confidence, TotalWeight, SuccessWeight;
    NoSuccessWeight(s, events, now);
    FullConfidence(s, |events|);
    SuccessWithinTotal(s, events, now);
    assert Rate(s, events, now) == 0.0;
  }

  /** The reported latencies of runtime uses, in event order. */
  function Latencies(events: seq<Event>): seq<real> {
    if events == [] then []
    else
      var last := events[|events| - 1];
      Latencies(events[..|events| - 1]) +
      if last.kind.RuntimeUse? && last.latency.Some? then [last.latency.value] else []
  }

  function Sum(xs: seq<real>): real {
    if xs == [] then 0.0 else Sum(xs[..|xs| - 1]) + xs[|xs| - 1]
  }

  lemma {:induction false} SumBounds(xs: seq<real>, low: real, high: real)
    requires forall x :: x in xs ==> low <= x <= high
    ensures Times(low, |xs| as real) <= Sum(xs) <= Times(high, |xs| as real)
  {
    if xs != [] {
      hide Times;
      var front := xs[..|xs| - 1];
      assert xs == front + [xs[|xs| - 1]];
      assert xs[|front|] in xs && forall x :: x in front ==> x in xs;
      SumBounds(front, low, high);
      OneMore(low, |front|);
      OneMore(high, |front|);
      assert |front| + 1 == |xs|;
    }
  }

  lemma OneMore(x: real, n: nat)
    ensures Times(x, (n + 1) as real) == Times(x, n as real) + x
  {
  }

  function Average(xs: seq<real>): Option<real> {
    if xs == [] then None else Some(Sum(xs) / |xs| as real)
  }

  /** The average latency lies between the least and the greatest reported one. */
  lemma AverageWithin(events: seq<Event>, low: real, high: real)
    requires forall x :: x in Latencies(events) ==> low <= x <= high
    ensures var a := Average(Latencies(events));
            (a.None? <==> Latencies(events) == []) && (a.Some? ==> low <= a.value <= high)
  {
    var xs := Latencies(events);
    SumBounds(xs, low, high);
    if xs != [] {
      QuotientBounds(Sum(xs), |xs| as real, low, high);
    }
  }

  datatype Summary = Summary(
    samples: nat, runtimeSuccesses: nat, runtimeFailures: nat, replayPasses: nat, replayFailures: nat,
    rate: real, adjustment: real, averageLatency: Option<real>)

  class EgoAdaptiveScorer {
    const s: Scorer

    constructor (s: Scorer)
      requires Valid(s)
      ensures this.s == s
    {
      this.s := s;
    }

    /** One pass over the events, counting and weighing. */
    method Tally(events: seq<Event>, now: real)
      returns (success: real, total: real, runtimeSuccesses: nat, runtimeFailures: nat,
               replayPasses: nat, replayFailures: nat, latencies: seq<real>)
      ensures latencies == Latencies(events)
      ensures total == TotalWeight(s, events, now) && success == SuccessWeight(s, events, now)
      ensures runtimeSuccesses == CountOf(events, RuntimeUse, true)
      ensures runtimeFailures == CountOf(events, RuntimeUse, false)
      ensures replayPasses == CountOf(events, ReplayHealth, true)
      ensures replayFailures == CountOf(events, ReplayHealth, false)
    {
      hide Weight;
      success, total := 0.0, 0.0;
      runtimeSuccesses, runtimeFailures, replayPasses, replayFailures, latencies := 0, 0, 0, 0, [];
      for i := 0 to |events|
        invariant total == TotalWeight(s, events[..i], now) && success == SuccessWeight(s, events[..i], now)
        invariant runtimeSuccesses == CountOf(events[..i], RuntimeUse, true)
        invariant runtimeFailures == CountOf(events[..i], RuntimeUse, false)
        invariant replayPasses == CountOf(events[..i], ReplayHealth, true)
        invariant replayFailures == CountOf(events[..i], ReplayHealth, false)
        invariant latencies == Latencies(events[..i])
      {
        assert events[..i + 1][..i] == events[..i];
        var event := events[i];
        var weight := Weight(s, event, now);
        total := total + weight;
        if event.success {
          success := success + weight;
        }
        if event.kind.RuntimeUse? {
          if event.success {
            runtimeSuccesses := runtimeSuccesses + 1;
          } else {
            runtimeFailures := runtimeFailures + 1;
          }
          if event.latency.Some? {
            latencies := latencies + [event.latency.value];
          }
        } else if event.success {
          replayPasses := replayPasses + 1;
        } else {
          replayFailures := replayFailures + 1;
        }
      }
      assert events[..|events|] == events;
    }

    method Summarize(events: seq<Event>, now: real) returns (r: Summary)
      requires Valid(s)
      ensures r.rate == Rate(s, events, now) && r.adjustment == Adjustment(s, events, now)
      ensures r.samples == |events| == r.runtimeSuccesses + r.runtimeFailures + r.replayPasses + r.replayFailures
      ensures r.runtimeSuccesses == CountOf(events, RuntimeUse, true)
      ensures r.runtimeFailures == CountOf(events, RuntimeUse, false)
      ensures r.replayPasses == CountOf(events, ReplayHealth, true)
      ensures r.replayFailures == CountOf(events, ReplayHealth, false)
      ensures r.averageLatency == Average(Latencies(events))
    {
      hide TotalWeight, SuccessWeight, CountOf, Latencies, Sum;
      var success, total, runtimeSuccesses, runtimeFailures, replayPasses, replayFailures, latencies :=
        Tally(events, now);
      CountsCover(events);
      SuccessWithinTotal(s, events, now);
      var rate := if total == 0.0 then 0.5 else (success + s.priorStrength * 0.5) / (total + s.priorStrength);
      var adjustment := 0.0;
      if |events| >= s.minSamples {
        var confidence := Least(1.0, |events| as real / s.saturation as real);
        var centered := (rate - 0.5) * 2.0;
        adjustment := Most(-s.maxAdjustment, Least(s.maxAdjustment, Scaled(centered, s.maxAdjustment, confidence)));
      }
      r := Summary(|events|, runtimeSuccesses, runtimeFailures, replayPasses, replayFailures,
                   rate, adjustment, Average(latencies));
    }
  }
}

/** Metadata routing and its feedback-adjusted form (ego/router_v2.py, ego/adaptive_router.py). */
module EgoRouting {
  import opened Outcomes
  import opened Text
  import opened Sorting
  import opened EgoTelemetry

  datatype Ego = Ego(
    id: string, version: string, capabilities: seq<string>, keywords: seq<string>, tags: seq<string>,
    description: string, examples: seq<string>)

  /** A query as the router reads it: which phrases it contains, its tokens, and the tokenizer. */
  datatype Query = Query(mentions: string -> bool, tokens: set<string>, lex: string -> set<string>)

  function Spaced(parts: seq<string>): string {
    if parts == [] then "" else if |parts| == 1 then parts[0] else parts[0] + " " + Spaced(parts[1..])
  }

  function KeywordHits(q: Query, keywords: seq<string>): nat {
    if keywords == [] then 0 else (if q.mentions(keywords[0]) then 1 else 0) + KeywordHits(q, keywords[1..])
  }

  function ExampleHits(q: Query, examples: seq<string>): nat {
    if examples == [] then 0
    else
      var n := |q.tokens * q.lex(examples[0])|;
      (if n > 2 then 2 else n) + ExampleHits(q, examples[1..])
  }

  function Elements(s: seq<string>): set<string> {
    set x | x in s
  }

  predicate Eligible(e: Ego, required: set<string>) {
    required <= Elements(e.capabilities)
  }

  /** Keyword, tag, capability, description, example and requirement points. */
  function Relevance(q: Query, e: Ego, required: set<string>): real {
    KeywordHits(q, e.keywords) as real * 4.0 + |q.tokens * q.lex(Spaced(e.tags))| as real * 3.0
    + |q.tokens * q.lex(Spaced(e.capabilities))| as real * 3.0 + |q.tokens * q.lex(e.description)| as real * 1.5
    + ExampleHits(q, e.examples) as real * 0.75 + |required| as real * 6.0
  }

  /** Points come in steps no smaller than three quarters. */
  lemma RelevanceGap(q: Query, e: Ego, required: set<string>)
    ensures Relevance(q, e, required) == 0.0 || Relevance(q, e, required) >= 0.75
  {
  }

  function Clamp(x: real): real {
    Most(-1.0, Least(1.0, x))
  }

  function Prior(priors: map<string, real>, e: Ego): real {
    if e.id in priors then Most(0.0, Least(1.0, priors[e.id])) else 0.0
  }

  function VersionKey(e: Ego): string {
    e.id + "@" + e.version
  }

  function AdjustmentFor(adjustments: map<string, real>, e: Ego): real {
    Clamp(if VersionKey(e) in adjustments then adjustments[VersionKey(e)]
          else if e.id in adjustments then adjustments[e.id] else 0.0)
  }

  function Score(
    q: Query, e: Ego, required: set<string>, priors: map<string, real>, adjustments: map<string, real>): real
  {
    var base := Relevance(q, e, required) + Prior(priors, e) * 2.0;
    if base > 0.0 then base + AdjustmentFor(adjustments, e) * 2.0 else base
  }

  datatype ReasonKind =
    | ByKeyword | ByTag | ByProvides | ByDescription | ByExample | ByRequirement | ByPrior | ByFeedback

  /** A reported reason: what spoke for the E.G.O., and how much of it. */
  datatype Reason = Reason(kind: ReasonKind, amount: real)

  function PointsPer(kind: ReasonKind): real {
    match kind
    case ByKeyword => 4.0
    case ByTag => 3.0
    case ByProvides => 3.0
    case ByDescription => 1.5
    case ByExample => 0.75
    case ByRequirement => 6.0
    case ByPrior => 2.0
    case ByFeedback => 2.0
  }

  function When(kind: ReasonKind, amount: real): seq<Reason> {
    if amount == 0.0 then [] else [Reason(kind, amount)]
  }

  /** The reasons found in the metadata and the prior, in the order their points are added. */
  function BaseReasons(q: Query, e: Ego, required: set<string>, priors: map<string, real>): seq<Reason> {
    When(ByKeyword, KeywordHits(q, e.keywords) as real)
    + When(ByTag, |q.tokens * q.lex(Spaced(e.tags))| as real)
    + When(ByProvides, |q.tokens * q.lex(Spaced(e.capabilities))| as real)
    + When(ByDescription, |q.tokens * q.lex(e.description)| as real)
    + When(ByExample, ExampleHits(q, e.examples) as real)
    + When(ByRequirement, |required| as real)
    + When(ByPrior, Prior(priors, e))
  }

  function Reasons(
    q: Query, e: Ego, required: set<string>, priors: map<string, real>, adjustments: map<string, real>): seq<Reason>
  {
    BaseReasons(q, e, required, priors) +
    if Relevance(q, e, required) + Prior(priors, e) * 2.0 > 0.0 then When(ByFeedback, AdjustmentFor(adjustments, e))
    else []
  }

  function Explained(reasons: seq<Reason>): real {
    if reasons == [] then 0.0
    else
      var last := reasons[|reasons| - 1];
      Explained(reasons[..|reasons| - 1]) + last.amount * PointsPer(last.kind)
  }

  lemma ExplainedWhen(reasons: seq<Reason>, kind: ReasonKind, amount: real)
    ensures Explained(reasons + When(kind, amount)) == Explained(reasons) + amount * PointsPer(kind)
  {
    if amount == 0.0 {
      assert reasons + [] == reasons;
    } else {
      assert (reasons + [Reason(kind, amount)])[..|reasons|] == reasons;
    }
  }

  lemma BaseExplained(q: Query, e: Ego, required: set<string>, priors: map<string, real>)
    ensures Explained(BaseReasons(q, e, required, priors)) == Relevance(q, e, required) + Prior(priors, e) * 2.0
  {
    hide KeywordHits, ExampleHits, Spaced, Prior, When, Explained;
    var r0 := When(ByKeyword, KeywordHits(q, e.keywords) as real);
    var r1 := r0 + When(ByTag, |q.tokens * q.lex(Spaced(e.tags))| as real);
    var r2 := r1 + When(ByProvides, |q.tokens * q.lex(Spaced(e.capabilities))| as real);
    var r3 := r2 + When(ByDescription, |q.tokens * q.lex(e.description)| as real);
    var r4 := r3 + When(ByExample, ExampleHits(q, e.examples) as real);
    var r5 := r4 + When(ByRequirement, |required| as real);
    assert [] + r0 == r0;
    NothingExplained();
    ExplainedWhen([], ByKeyword, KeywordHits(q, e.keywords) as real);
    ExplainedWhen(r0, ByTag, |q.tokens * q.lex(Spaced(e.tags))| as real);
    ExplainedWhen(r1, ByProvides, |q.tokens * q.lex(Spaced(e.capabilities))| as real);
    ExplainedWhen(r2, ByDescription, |q.tokens * q.lex(e.description)| as real);
    ExplainedWhen(r3, ByExample, ExampleHits(q, e.examples) as real);
    ExplainedWhen(r4, ByRequirement, |required| as real);
    ExplainedWhen(r5, ByPrior, Prior(priors, e));
  }

  /** The reported reasons account for the score: their points add up to it. */
  lemma ReasonsExplainScore(
    q: Query, e: Ego, required: set<string>, priors: map<string, real>, adjustments: map<string, real>)
    ensures Explained(Reasons(q, e, required, priors, adjustments)) == Score(q, e, required, priors, adjustments)
  {
    hide Relevance, Prior, AdjustmentFor, When, Explained, BaseReasons;
    var base := BaseReasons(q, e, required, priors);
    BaseExplained(q, e, required, priors);
    ExplainedWhen(base, ByFeedback, AdjustmentFor(adjustments, e));
    assert base + [] == base;
  }

  lemma NothingExplained()
    ensures Explained([]) == 0.0
  {
  }

  datatype Routed = Routed(ego: Ego, score: real, reasons: seq<Reason>)

  predicate Before(a: Routed, b: Routed) {
    a.score > b.score
    || (a.score == b.score
        && ((a.ego.id != b.ego.id && AtMost(a.ego.id, b.ego.id)) ||
            (a.ego.id == b.ego.id && AtMost(a.ego.version, b.ego.version))))
  }

  function Scored(
    q: Query, egos: seq<Ego>, required: set<string>, priors: map<string, real>,
    adjustments: map<string, real>): seq<Routed>
  {
    if egos == [] then []
    else
      var e, front := egos[|egos| - 1], Scored(q, egos[..|egos| - 1], required, priors, adjustments);
      var score := Score(q, e, required, priors, adjustments);
      if Eligible(e, required) && score > 0.0
      then front + [Routed(e, score, Reasons(q, e, required, priors, adjustments))]
      else front
  }

  /** The ranking: every eligible E.G.O. with a positive score, best first. */
  function Ranking(
    q: Query, egos: seq<Ego>, required: set<string>, priors: map<string, real>,
    adjustments: map<string, real>): seq<Routed>
  {
    Sort(Scored(q, egos, required, priors, adjustments), Before)
  }

  class HybridCapabilityRouter {
    constructor () {}

    /** The points and reasons of the metadata and the prior, in the source's order. */
    method BasePoints(q: Query, e: Ego, required: set<string>, priors: map<string, real>)
      returns (score: real, reasons: seq<Reason>)
      ensures score == Relevance(q, e, required) + Prior(priors, e) * 2.0
      ensures reasons == BaseReasons(q, e, required, priors)
    {
      hide KeywordHits, ExampleHits, Spaced, Prior, When;
      score, reasons := 0.0, [];
      score, reasons := Add(score, reasons, ByKeyword, KeywordHits(q, e.keywords) as real);
      score, reasons := Add(score, reasons, ByTag, |q.tokens * q.lex(Spaced(e.tags))| as real);
      score, reasons := Add(score, reasons, ByProvides, |q.tokens * q.lex(Spaced(e.capabilities))| as real);
      score, reasons := Add(score, reasons, ByDescription, |q.tokens * q.lex(e.description)| as real);
      score, reasons := Add(score, reasons, ByExample, ExampleHits(q, e.examples) as real);
      score, reasons := Add(score, reasons, ByRequirement, |required| as real);
      score, reasons := Add(score, reasons, ByPrior, Prior(priors, e));
    }

    method Points(
      q: Query, e: Ego, required: set<string>, priors: map<string, real>, adjustments: map<string, real>)
      returns (score: real, reasons: seq<Reason>)
      ensures score == Score(q, e, required, priors, adjustments)
      ensures reasons == Reasons(q, e, required, priors, adjustments)
    {
      hide Relevance, Prior, AdjustmentFor, When, BaseReasons;
      score, reasons := BasePoints(q, e, required, priors);
      assert reasons + [] == reasons;
      if score > 0.0 {
        score, reasons := Add(score, reasons, ByFeedback, AdjustmentFor(adjustments, e));
      }
    }

    /** Counts an amount in, with its reason, unless it is zero. */
    method Add(score: real, reasons: seq<Reason>, kind: ReasonKind, amount: real)
      returns (newScore: real, newReasons: seq<Reason>)
      ensures newScore == score + amount * PointsPer(kind) && newReasons == reasons + When(kind, amount)
    {
      newScore, newReasons := score, reasons;
      if amount != 0.0 {
        newScore, newReasons := score + amount * PointsPer(kind), reasons + [Reason(kind, amount)];
      }
    }

    method Rank(
      q: Query, egos: seq<Ego>, required: set<string>, priors: map<string, real>, adjustments: map<string, real>)
      returns (r: seq<Routed>)
      ensures r == Ranking(q, egos, required, priors, adjustments)
    {
      hide Score, Reasons;
      var ranked: seq<Routed> := [];
      for i := 0 to |egos|
        invariant ranked == Scored(q, egos[..i], required, priors, adjustments)
      {
        assert egos[..i + 1][..i] == egos[..i];
        if required != {} && !(required <= Elements(egos[i].capabilities)) {
          continue;
        }
        var score, reasons := Points(q, egos[i], required, priors, adjustments);
        if score > 0.0 {
          ranked := ranked + [Routed(egos[i], score, reasons)];
        }
      }
      assert egos[..|egos|] == egos;
      r := Sort(ranked, Before);
    }
  }

  /** The events of one version, oldest call first. */
  function EventsFor(events: seq<Event>, id: string, version: string): seq<Event> {
    if events == [] then []
    else (if events[0].ego == id && events[0].version == version then [events[0]] else []) +
         EventsFor(events[1..], id, version)
  }

  /** The adjustment one E.G.O. gets from the events of its version at a clock reading. */
  function AdjustmentOf(s: Scorer, events: seq<Event>, e: Ego, now: real): real
    requires Valid(s)
  {
    Adjustment(s, EventsFor(events, e.id, e.version), now)
  }

  /** The adjustments by version key; `clock(i)` is what the clock shows for the summary of `egos[i]`. */
  function FeedbackFor(s: Scorer, events: seq<Event>, egos: seq<Ego>, clock: nat -> real): map<string, real>
    requires Valid(s)
  {
    if egos == [] then map[]
    else
      var e, n := egos[|egos| - 1], |egos| - 1;
      FeedbackFor(s, events, egos[..n], clock)[VersionKey(e) := AdjustmentOf(s, events, e, clock(n))]
  }

  class AdaptiveCapabilityRouter {
    const base: HybridCapabilityRouter
    const scorer: EgoAdaptiveScorer

    constructor (base: HybridCapabilityRouter, scorer: EgoAdaptiveScorer)
      ensures this.base == base && this.scorer == scorer
    {
      this.base, this.scorer := base, scorer;
    }

    method Rank(q: Query, events: seq<Event>, egos: seq<Ego>, required: set<string>, clock: nat -> real)
      returns (r: seq<Routed>)
      requires Valid(scorer.s)
      ensures r == Ranking(q, egos, required, map[], FeedbackFor(scorer.s, events, egos, clock))
    {
      hide Ranking, Adjustment, EventsFor;
      var adjustments: map<string, real> := map[];
      for i := 0 to |egos|
        invariant adjustments == FeedbackFor(scorer.s, events, egos[..i], clock)
      {
        assert egos[..i + 1][..i] == egos[..i];
        var summary := scorer.Summarize(EventsFor(events, egos[i].id, egos[i].version), clock(i));
        adjustments := adjustments[VersionKey(egos[i]) := summary.adjustment];
      }
      assert egos[..|egos|] == egos;
      r := base.Rank(q, egos, required, map[], adjustments);
    }
  }

  // ----- what feedback can and cannot do -----

  lemma {:induction false} FeedbackBounded(s: Scorer, events: seq<Event>, egos: seq<Ego>, clock: nat -> real, k: string)
    requires Valid(s) && k in FeedbackFor(s, events, egos, clock)
    ensures -s.maxAdjustment <= FeedbackFor(s, events, egos, clock)[k] <= s.maxAdjustment
  {
    hide Adjustment, Valid, EventsFor;
    var e, n := egos[|egos| - 1], |egos| - 1;
    if k == VersionKey(e) {
      AdjustmentBounded(s, EventsFor(events, e.id, e.version), clock(n));
    } else {
      FeedbackBounded(s, events, egos[..n], clock, k);
    }
  }

  /** Adjustments within a bound move a score by at most twice the bound, and leave an irrelevant E.G.O. at zero. */
  lemma ScoreMoves(q: Query, e: Ego, required: set<string>, adjustments: map<string, real>, bound: real)
    requires 0.0 <= bound <= 1.0 && forall k :: k in adjustments ==> -bound <= adjustments[k] <= bound
    ensures var base, adapted := Score(q, e, required, map[], map[]), Score(q, e, required, map[], adjustments);
            base - 2.0 * bound <= adapted <= base + 2.0 * bound
    ensures Relevance(q, e, required) == 0.0 ==> Score(q, e, required, map[], adjustments) == 0.0
    ensures Score(q, e, required, map[], map[]) == Relevance(q, e, required)
  {
    hide Relevance;
    RelevanceGap(q, e, required);
  }

  lemma {:induction false} ScoredMembers(
    q: Query, egos: seq<Ego>, required: set<string>, priors: map<string, real>, adjustments: map<string, real>,
    x: Routed)
    ensures x in Scored(q, egos, required, priors, adjustments) <==>
            && x.ego in egos && Eligible(x.ego, required)
            && x.score == Score(q, x.ego, required, priors, adjustments) > 0.0
            && x.reasons == Reasons(q, x.ego, required, priors, adjustments)
  {
    hide Score, Eligible, Reasons;
    if egos != [] {
      var front := egos[..|egos| - 1];
      assert egos == front + [egos[|egos| - 1]];
      ScoredMembers(q, front, required, priors, adjustments, x);
    }
  }

  predicate Routes(ranking: seq<Routed>, e: Ego) {
    exists i :: 0 <= i < |ranking| && ranking[i].ego == e
  }

  lemma RoutesIff(
    q: Query, egos: seq<Ego>, required: set<string>, priors: map<string, real>, adjustments: map<string, real>, e: Ego)
    ensures Routes(Ranking(q, egos, required, priors, adjustments), e) <==>
              e in egos && Eligible(e, required) && Score(q, e, required, priors, adjustments) > 0.0
  {
    hide Score, Eligible, Before, Scored, Reasons;
    var scored := Scored(q, egos, required, priors, adjustments);
    var x := Routed(e, Score(q, e, required, priors, adjustments), Reasons(q, e, required, priors, adjustments));
    var ranking := Sort(scored, Before);
    ScoredMembers(q, egos, required, priors, adjustments, x);
    SameElement(ranking, scored, x);
    if x in ranking {
      var i :| 0 <= i < |ranking| && ranking[i] == x;
      assert ranking[i].ego == e;
    }
    if Routes(ranking, e) {
      var i :| 0 <= i < |ranking| && ranking[i].ego == e;
      SameElement(ranking, scored, ranking[i]);
      ScoredMembers(q, egos, required, priors, adjustments, ranking[i]);
    }
  }

  /** Below three eighths, feedback changes the order but never which E.G.O.s are found. */
  lemma FeedbackKeepsSet(
    q: Query, events: seq<Event>, egos: seq<Ego>, required: set<string>, s: Scorer, clock: nat -> real, e: Ego)
    requires Valid(s) && s.maxAdjustment < 0.375
    ensures Routes(Ranking(q, egos, required, map[], FeedbackFor(s, events, egos, clock)), e) <==>
              Routes(Ranking(q, egos, required, map[], map[]), e)
  {
    hide Ranking, Score, Eligible, Relevance, FeedbackFor, Routes;
    var feedback := FeedbackFor(s, events, egos, clock);
    forall k | k in feedback
      ensures -s.maxAdjustment <= feedback[k] <= s.maxAdjustment
    {
      FeedbackBounded(s, events, egos, clock, k);
    }
    ScoreMoves(q, e, required, feedback, s.maxAdjustment);
    RelevanceGap(q, e, required);
    RoutesIff(q, egos, required, map[], feedback, e);
    RoutesIff(q, egos, required, map[], map[], e);
  }

  /** `egos[j]` is the last of the version key of `egos[i]`; with distinct keys it is `egos[i]` itself. */
  predicate SpeaksFor(egos: seq<Ego>, i: nat, j: nat) {
    && i <= j < |egos| && VersionKey(egos[j]) == VersionKey(egos[i])
    && forall k :: j < k < |egos| ==> VersionKey(egos[k]) != VersionKey(egos[i])
  }

  lemma {:induction false} FeedbackOf(s: Scorer, events: seq<Event>, egos: seq<Ego>, clock: nat -> real, i: nat, j: nat)
    requires Valid(s) && SpeaksFor(egos, i, j)
    ensures var feedback := FeedbackFor(s, events, egos, clock);
            && VersionKey(egos[i]) in feedback
            && feedback[VersionKey(egos[i])] == AdjustmentOf(s, events, egos[j], clock(j))
    decreases |egos|
  {
    hide AdjustmentOf, VersionKey;
    if j < |egos| - 1 {
      FeedbackOf(s, events, egos[..|egos| - 1], clock, i, j);
    }
  }

  /** Exactly when feedback drops a relevant E.G.O.: its adjustment takes away all of its points. */
  lemma FeedbackDropsIff(
    q: Query, events: seq<Event>, egos: seq<Ego>, i: nat, j: nat, required: set<string>, s: Scorer, clock: nat -> real)
    requires Valid(s) && SpeaksFor(egos, i, j)
    requires Eligible(egos[i], required) && Relevance(q, egos[i], required) > 0.0
    ensures Routes(Ranking(q, egos, required, map[], map[]), egos[i])
    ensures Routes(Ranking(q, egos, required, map[], FeedbackFor(s, events, egos, clock)), egos[i]) <==>
            Relevance(q, egos[i], required) + 2.0 * AdjustmentOf(s, events, egos[j], clock(j)) > 0.0
  {
    hide Ranking, Relevance, Eligible, EventsFor, Adjustment, Routes, FeedbackFor, VersionKey;
    var feedback, e := FeedbackFor(s, events, egos, clock), egos[i];
    FeedbackOf(s, events, egos, clock, i, j);
    AdjustmentBounded(s, EventsFor(events, egos[j].id, egos[j].version), clock(j));
    RoutesIff(q, egos, required, map[], map[], e);
    RoutesIff(q, egos, required, map[], feedback, e);
  }

  /** A saturated record of failures that still weighs something. */
  predicate FailedRecord(s: Scorer, events: seq<Event>, now: real) {
    |events| >= s.saturation && TotalWeight(s, events, now) > 0.0 && forall x :: x in events ==> !x.success
  }

  /** From three eighths on, a saturated record of failures drops an E.G.O. found by one example word. */
  lemma StrongFeedbackDrops(
    q: Query, events: seq<Event>, egos: seq<Ego>, i: nat, j: nat, s: Scorer, clock: nat -> real)
    requires Valid(s) && s.priorStrength == 0.0 && s.maxAdjustment >= 0.375 && SpeaksFor(egos, i, j)
    requires Relevance(q, egos[i], {}) == 0.75
    requires FailedRecord(s, EventsFor(events, egos[j].id, egos[j].version), clock(j))
    ensures Routes(Ranking(q, egos, {}, map[], map[]), egos[i])
    ensures !Routes(Ranking(q, egos, {}, map[], FeedbackFor(s, events, egos, clock)), egos[i])
  {
    hide Ranking, Relevance, EventsFor, Adjustment, Routes, TotalWeight, FeedbackFor;
    FailuresCostMaximum(s, EventsFor(events, egos[j].id, egos[j].version), clock(j));
    FeedbackDropsIff(q, events, egos, i, j, {}, s, clock);
  }

  function OneExample(): Ego {
    Ego("ego", "1", [], [], [], "", ["x"])
  }

  function OneWord(): Query {
    Query((phrase: string) => false, {"x"}, (text: string) => if text == "x" then {"x"} else {})
  }

  function OneFailure(): Event {
    Event(RuntimeUse, "ego", "1", false, None, 0.0)
  }

  function Undecaying(): Scorer {
    Scorer(1, 1, 1.0, 0.375, 0.0, (age: real) => 1.0)
  }

  lemma OneExampleRelevance()
    ensures Relevance(OneWord(), OneExample(), {}) == 0.75
  {
    var q, e := OneWord(), OneExample();
    assert q.lex("x") == {"x"} && q.lex("") == {};
    assert q.tokens * q.lex("x") == {"x"} && q.tokens * q.lex("") == {};
    assert ExampleHits(q, ["x"][1..]) == 0;
  }

  /** A case: one word, one example, one failed use, and the only E.G.O. is no longer found. */
  lemma OneFailureDrops(clock: nat -> real)
    ensures Valid(Undecaying())
    ensures var egos := [OneExample()];
            && Routes(Ranking(OneWord(), egos, {}, map[], map[]), OneExample())
            && !Routes(Ranking(OneWord(), egos, {}, map[],
                               FeedbackFor(Undecaying(), [OneFailure()], egos, clock)), OneExample())
  {
    hide Ranking, Relevance, Routes, FeedbackFor;
    var mine := EventsFor([OneFailure()], "ego", "1");
    assert mine == [OneFailure()];
    assert mine[..0] == [] && TotalWeight(Undecaying(), [], clock(0)) == 0.0;
    assert TotalWeight(Undecaying(), mine, clock(0)) == Weight(Undecaying(), OneFailure(), clock(0)) == 1.0;
    OneExampleRelevance();
    StrongFeedbackDrops(OneWord(), [OneFailure()], [OneExample()], 0, 0, Undecaying(), clock);
  }

  lemma BeforeOrders(s: seq<Routed>)
    ensures TotalOn(s, Before)
  {
    forall x: Routed, y: Routed
      ensures Before(x, y) || Before(y, x)
    {
      AtMostTotal(x.ego.id, y.ego.id);
      AtMostTotal(x.ego.version, y.ego.version);
    }
    forall x: Routed, y: Routed, z: Routed | Before(x, y) && Before(y, z)
      ensures Before(x, z)
    {
      BeforeTransitive(x, y, z);
    }
  }

  lemma BeforeTransitive(x: Routed, y: Routed, z: Routed)
    requires Before(x, y) && Before(y, z)
    ensures Before(x, z)
  {
    if AtMost(x.ego.id, y.ego.id) && AtMost(y.ego.id, z.ego.id) {
      AtMostTransitive(x.ego.id, y.ego.id, z.ego.id);
      if x.ego.id == z.ego.id {
        AtMostAntisymmetric(x.ego.id, y.ego.id);
      }
    }
    if AtMost(x.ego.version, y.ego.version) && AtMost(y.ego.version, z.ego.version) {
      AtMostTransitive(x.ego.version, y.ego.version, z.ego.version);
    }
  }

  /** In any ranking a strictly better score comes first, and a score is that of its E.G.O. */
  lemma RankedByScore(q: Query, egos: seq<Ego>, required: set<string>, adjustments: map<string, real>, i: nat, j: nat)
    requires var r := Ranking(q, egos, required, map[], adjustments); i < |r| && j < |r| && r[i].score > r[j].score
    ensures i < j
    ensures var r := Ranking(q, egos, required, map[], adjustments);
            r[i].score == Score(q, r[i].ego, required, map[], adjustments)
    ensures var r := Ranking(q, egos, required, map[], adjustments);
            r[j].score == Score(q, r[j].ego, required, map[], adjustments)
  {
    hide Score, Eligible, Scored;
    var scored := Scored(q, egos, required, map[], adjustments);
    var r := Ranking(q, egos, required, map[], adjustments);
    BeforeOrders(scored);
    SortSorted(scored, Before);
    SameElement(r, scored, r[i]);
    SameElement(r, scored, r[j]);
    ScoredMembers(q, egos, required, map[], adjustments, r[i]);
    ScoredMembers(q, egos, required, map[], adjustments, r[j]);
    assert j < i ==> Before(r[j], r[i]);
    assert !Before(r[j], r[i]);
  }

  lemma RankedScore(q: Query, egos: seq<Ego>, required: set<string>, adjustments: map<string, real>, i: nat)
    requires i < |Ranking(q, egos, required, map[], adjustments)|
    ensures var r := Ranking(q, egos, required, map[], adjustments);
            r[i].score == Score(q, r[i].ego, required, map[], adjustments)
  {
    hide Score, Eligible, Scored, Before;
    var scored := Scored(q, egos, required, map[], adjustments);
    var r := Ranking(q, egos, required, map[], adjustments);
    SameElement(r, scored, r[i]);
    ScoredMembers(q, egos, required, map[], adjustments, r[i]);
  }

  /** Feedback never reverses two E.G.O.s whose base scores differ by more than four maximal adjustments. */
  lemma FeedbackKeepsWideGaps(
    q: Query, events: seq<Event>, egos: seq<Ego>, required: set<string>, s: Scorer, clock: nat -> real, i: nat, j: nat)
    requires Valid(s)
    requires var r := Ranking(q, egos, required, map[], FeedbackFor(s, events, egos, clock));
             i < |r| && j < |r| &&
             Score(q, r[i].ego, required, map[], map[]) > Score(q, r[j].ego, required, map[], map[]) +
             4.0 * s.maxAdjustment
    ensures i < j
  {
    hide Ranking, Score, Relevance, FeedbackFor;
    var feedback := FeedbackFor(s, events, egos, clock);
    var r := Ranking(q, egos, required, map[], feedback);
    forall k | k in feedback
      ensures -s.maxAdjustment <= feedback[k] <= s.maxAdjustment
    {
      FeedbackBounded(s, events, egos, clock, k);
    }
    ScoreMoves(q, r[i].ego, required, feedback, s.maxAdjustment);
    ScoreMoves(q, r[j].ego, required, feedback, s.maxAdjustment);
    RankedScore(q, egos, required, feedback, i);
    RankedScore(q, egos, required, feedback, j);
    RankedByScore(q, egos, required, feedback, i, j);
  }
}
