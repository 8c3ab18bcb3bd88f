/** Building a delivery for the model and fitting it to a budget (library/delivery.py). */
module LibraryDelivery {
  import opened Outcomes
  import opened Sequences
  import opened Text
  import opened LibraryItems
  import opened LibraryScoring

  const IMPLEMENTATION: set<string> :=
    {"implement", "implementation", "code", "coding", "function", "class", "configure", "구현", "코드", "설정"}
  const PERFORMANCE: set<string> :=
    {"performance", "complexity", "latency", "throughput", "memory", "speed", "optimize", "optimization", "성능", "복잡도",
     "메모리", "속도", "지연", "최적화"}
  const TRADEOFF: set<string> :=
    {"compare", "comparison", "tradeoff", "tradeoffs", "risk", "pitfall", "failure", "avoid", "caution", "비교", "장단점",
     "위험", "실패", "주의"}

  datatype Intents = Intents(implementation: bool, performance: bool, tradeoff: bool)

  function IntentsOf(terms: set<string>): Intents {
    Intents(terms * IMPLEMENTATION != {}, terms * PERFORMANCE != {}, terms * TRADEOFF != {})
  }

  function WithDetail(
    details: map<Detail, seq<string>>, d: Detail, wanted: bool, value: seq<string>): map<Detail, seq<string>>
  {
    if wanted && value != [] then details[d := value] else details
  }

  function DetailsOf(e: Entry, w: Intents): map<Detail, seq<string>> {
    var a := WithDetail(map[], UseWhen, true, FirstOf(e.useWhen, 3));
    var b := WithDetail(a, Structure, true, FirstOf(e.structure, 4));
    var c := WithDetail(b, Hint, w.implementation && e.hint != "", [e.hint]);
    var d := WithDetail(c, Complexity, w.performance, e.complexity);
    WithDetail(WithDetail(d, Tradeoffs, w.tradeoff, FirstOf(e.tradeoffs, 3)), Pitfalls, w.tradeoff,
               FirstOf(e.pitfalls, 3))
  }

  /** The first result that is not a warning, or the first result. */
  function PrimaryIndex(results: seq<Row>): nat {
    match FirstUseful(results)
    case None => 0
    case Some(i) => i
  }

  function FirstUseful(results: seq<Row>): (r: Option<nat>)
    ensures r.Some? ==>
              r.value < |results| && !results[r.value].fit.Avoid? &&
              forall i :: 0 <= i < r.value ==> results[i].fit.Avoid?
    ensures r.None? ==> forall i :: 0 <= i < |results| ==> results[i].fit.Avoid?
  {
    if results == [] then None
    else if !results[0].fit.Avoid? then Some(0)
    else
      match FirstUseful(results[1..])
      case None => None
      case Some(i) => Some(i + 1)
  }

  function Payload(row: Row, primary: bool, w: Intents): Item {
    Item(if primary then Primary else if row.fit.Avoid? then Guardrail else Complement,
         Fixed(row.book.bookId, row.book.title, row.entry.entryId, row.entry.title, row.fit.Avoid?,
               row.entry.trust, row.entry.validation, FirstOf(row.entry.avoidWhen, 3), row.entry.provenance),
         row.entry.summary, DetailsOf(row.entry, w))
  }

  /** The items before they are fitted to the budget. */
  ghost predicate Built(results: seq<Row>, w: Intents, items: seq<Item>) {
    |items| == |results| &&
    forall i :: 0 <= i < |items| ==> items[i] == Payload(results[i], i == PrimaryIndex(results), w)
  }

  /** One item is primary, and a warning is a guardrail unless it is that item. */
  lemma RolesOf(results: seq<Row>, w: Intents, items: seq<Item>, i: nat)
    requires Built(results, w, items) && i < |results|
    ensures items[i].role.Primary? <==> i == PrimaryIndex(results)
    ensures items[i].role.Guardrail? <==> results[i].fit.Avoid? && i != PrimaryIndex(results)
  {
  }

  /** Every warning is delivered as a guardrail exactly when some result is not a warning. */
  lemma WarningsGuardedIff(results: seq<Row>, w: Intents, items: seq<Item>)
    requires Built(results, w, items)
    ensures (forall i :: 0 <= i < |results| && results[i].fit.Avoid? ==> items[i].role.Guardrail?) <==>
              (results == [] || exists i :: 0 <= i < |results| && !results[i].fit.Avoid?)
  {
    hide Payload;
    if results != [] {
      RolesOf(results, w, items, PrimaryIndex(results));
    }
    forall i | 0 <= i < |results|
      ensures items[i].role.Guardrail? <==> results[i].fit.Avoid? && i != PrimaryIndex(results)
    {
      RolesOf(results, w, items, i);
    }
  }

  datatype DeliveryError = BudgetNotPositive

  method BuildLibraryDelivery(results: seq<Row>, terms: set<string>, maxChars: int, chars: seq<Item> -> nat)
    returns (r: Result<seq<Item>, DeliveryError>, ghost built: seq<Item>)
    ensures r.Err? <==> maxChars <= 0
    ensures r.Ok? ==> Built(results, IntentsOf(terms), built) && Pruned(built, r.value) && InOrder(built, r.value)
    ensures r.Ok? ==> r.value == [] || chars(r.value) <= maxChars || Bare(r.value)
  {
    hide Payload, Pruned, InOrder, Bare, IntentsOf, PrimaryIndex;
    built := [];
    if maxChars <= 0 {
      return Err(BudgetNotPositive), built;
    }
    var primary := PrimaryIndex(results);
    var w := IntentsOf(terms);
    var payloads: seq<Item> := [];
    for i := 0 to |results|
      invariant |payloads| == i && forall j :: 0 <= j < i ==> payloads[j] == Payload(results[j], j == primary, w)
    {
      payloads := payloads + [Payload(results[i], i == primary, w)];
    }
    built := payloads;
    var fitted := FitBudget(payloads, maxChars, chars);
    return Ok(fitted), built;
  }

  /** `_fit_budget`, for any length function. */
  method FitBudget(payloads: seq<Item>, maxChars: nat, chars: seq<Item> -> nat) returns (result: seq<Item>)
    ensures Pruned(payloads, result) && InOrder(payloads, result)
    ensures result == [] || chars(result) <= maxChars || Bare(result)
    ensures payloads == [] || chars(payloads) <= maxChars ==> result == payloads
  {
    hide Pruned, PruneStep, Bare, DetailCount, KnowledgeLength, InOrder;
    result := payloads;
    PrunedReflexive(payloads);
    InOrderReflexive(payloads);
    while result != [] && chars(result) > maxChars
      invariant Pruned(payloads, result) && InOrder(payloads, result)
      invariant payloads == [] || chars(payloads) <= maxChars ==> result == payloads
      decreases |result|, DetailCount(result), KnowledgeLength(result)
    {
      ghost var style := ToBudget(chars(result) - maxChars);
      var next := PruneStep(result, ToBudget(chars(result) - maxChars));
      StepStopsIff(result, style);
      if next.None? {
        break;
      }
      StepPrunes(result, style);
      StepInOrder(payloads, result, style);
      PrunedTransitive(payloads, result, next.value);
      result := next.value;
    }
  }
}
