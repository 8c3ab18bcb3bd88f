/** Character costs of a context pack, additive over its parts (context/models.py, context/budget.py). */
module ContextCosts {
  import opened Outcomes
  import opened Text
  import opened LibraryItems

  /**
   * A memory, capability, tool, history item or message: the text that may be trimmed and the
   * rest of its payload. A JSON object that is too long becomes a preview of its text.
   */
  datatype Part = Part(fields: string, content: string, isObject: bool, preview: bool)

  /** The JSON length of each part; every character of a text costs at least one. */
  datatype Costs = Costs(
    envelope: nat, payload: Part -> nat, fixed: Fixed -> nat, detail: (Detail, seq<string>) -> nat, glyph: char -> nat)

  ghost predicate Json(c: Costs) {
    (forall x :: c.glyph(x) >= 1) && c.glyph(ELLIPSIS[0]) == 1
  }

  function TextCost(c: Costs, s: string): nat {
    if s == "" then 0 else TextCost(c, s[..|s| - 1]) + c.glyph(s[|s| - 1])
  }

  /** A JSON list: brackets, items, and separators. */
  function ListCost(c: Costs, items: seq<Part>): nat {
    if items == [] then 2
    else (if |items| == 1 then 0 else 2) + ListCost(c, items[..|items| - 1]) + c.payload(items[|items| - 1])
  }

  function DetailsCost(c: Costs, details: map<Detail, seq<string>>, order: seq<Detail>): nat {
    if order == [] then 0
    else (if order[0] in details then c.detail(order[0], details[order[0]]) else 0) +
         DetailsCost(c, details, order[1..])
  }

  function ItemCost(c: Costs, x: Item): nat {
    c.fixed(x.fixed) + DetailsCost(c, x.details, ORDER) + TextCost(c, x.knowledge)
  }

  function ItemsCost(c: Costs, items: seq<Item>): nat {
    if items == [] then 0 else ItemCost(c, items[0]) + 2 + ItemsCost(c, items[1..])
  }

  function LibraryListCost(c: Costs, items: seq<Item>): nat {
    if items == [] then 2 else ItemsCost(c, items)
  }

  /** `library` is a key of the pack only while it has items. */
  function LibraryCost(c: Costs, items: seq<Item>): nat {
    if items == [] then 0 else |", \"library\": "| + ItemsCost(c, items)
  }

  lemma EmptyTextCost(c: Costs)
    ensures TextCost(c, "") == 0
  {
  }

  lemma {:induction false} TextCostPrefix(c: Costs, p: string, s: string)
    requires Json(c) && p <= s
    ensures TextCost(c, s) >= TextCost(c, p) + |s| - |p|
    decreases |s|
  {
    if |s| > |p| {
      TextCostPrefix(c, p, s[..|s| - 1]);
    } else {
      assert p == s;
    }
  }

  lemma AbridgedCost(c: Costs, k: string, r: string)
    requires Json(c) && Abridged(k, r)
    ensures TextCost(c, r) <= TextCost(c, k)
  {
    if r != k {
      var p := r[..|r| - 1];
      TextCostPrefix(c, p, k);
      assert r == p + ELLIPSIS;
    }
  }

  lemma {:induction false} DetailsCostFewer(
    c: Costs, a: map<Detail, seq<string>>, b: map<Detail, seq<string>>, order: seq<Detail>)
    requires forall d :: d in b ==> d in a && b[d] == a[d]
    ensures DetailsCost(c, b, order) <= DetailsCost(c, a, order)
  {
    if order != [] {
      DetailsCostFewer(c, a, b, order[1..]);
    }
  }

  /** Pruning a library never makes it longer. */
  lemma {:induction false} PrunedCost(c: Costs, a: seq<Item>, b: seq<Item>)
    requires Json(c) && Pruned(a, b)
    ensures ItemsCost(c, b) <= ItemsCost(c, a)
    ensures LibraryCost(c, b) <= LibraryCost(c, a)
  {
    hide ItemCost, Abridged;
    if a != [] {
      if !a[0].role.Guardrail? && Pruned(a[1..], b) {
        PrunedCost(c, a[1..], b);
      } else {
        PrunedCost(c, a[1..], b[1..]);
        ShrunkCost(c, a[0], b[0]);
      }
    }
  }

  lemma ShrunkCost(c: Costs, a: Item, b: Item)
    requires Json(c) && Shrunk(a, b)
    ensures ItemCost(c, b) <= ItemCost(c, a)
  {
    AbridgedCost(c, a.knowledge, b.knowledge);
    DetailsCostFewer(c, a.details, b.details, ORDER);
  }

  // ----- trimming the user text -----

  /** `trim_text` */
  function Trim(text: string, limit: nat): (r: string)
    ensures |r| <= limit
    ensures |text| <= limit ==> r == text
    ensures Abridged(text, r) || (limit <= 1 && r <= text)
  {
    if |text| <= limit then text
    else if limit <= 1 then text[..limit]
    else text[..limit - 1] + ELLIPSIS
  }

  /** Trimming by the overflow removes it, unless the text is used up. */
  lemma TrimFits(c: Costs, text: string, overflow: nat)
    requires Json(c) && overflow > 0
    ensures |text| <= overflow ==> Trim(text, 0) == ""
    ensures |text| > overflow ==> TextCost(c, Trim(text, |text| - overflow)) + overflow <= TextCost(c, text)
  {
    if |text| > overflow {
      var limit := |text| - overflow;
      if limit == 1 {
        TextCostPrefix(c, text[..1], text);
      } else {
        var p := text[..limit - 1];
        TextCostPrefix(c, p, text);
        assert (p + ELLIPSIS)[..|p|] == p;
      }
    }
  }
}

/** Assembling a context pack within its character budget (context/compiler.py). */
module ContextCompiler {
  import opened Outcomes
  import opened Sequences
  import opened Text
  import opened LibraryItems
  import opened ContextCosts

  datatype Pack = Pack(
    userText: string, memories: seq<Part>, egos: seq<Part>, library: seq<Item>, tools: seq<Part>, actions: seq<Part>,
    session: seq<Part>)

  function Chars(c: Costs, p: Pack): nat {
    c.envelope + TextCost(c, p.userText) + ListCost(c, p.memories) + ListCost(c, p.egos) + LibraryCost(c, p.library)
    + ListCost(c, p.tools) + ListCost(c, p.actions) + ListCost(c, p.session)
  }

  // ----- the library pruner -----

  /** One call of `_prune_library_once` that changes something. */
  function PruneOnce(items: seq<Item>): Option<seq<Item>> {
    if items == [] then None else PruneStep(items, ToFloor)
  }

  /** What repeated pruning without a budget leaves. */
  function PrunedAll(items: seq<Item>): (r: seq<Item>)
    ensures Pruned(items, r)
    decreases |items|, DetailCount(items), KnowledgeLength(items)
  {
    match PruneOnce(items)
    case None =>
      PrunedReflexive(items);
      items
    case Some(next) =>
      StepPrunes(items, ToFloor);
      var r := PrunedAll(next);
      PrunedTransitive(items, next, r);
      r
  }

  /** `_fit_library_payload` as a function. */
  function Fitted(c: Costs, items: seq<Item>, maxChars: nat): seq<Item>
    decreases |items|, DetailCount(items), KnowledgeLength(items)
  {
    if items == [] || ItemsCost(c, items) <= maxChars then items
    else
      match PruneOnce(items)
      case None => items
      case Some(next) =>
        StepPrunes(items, ToFloor);
        Fitted(c, next, maxChars)
  }

  method FitLibraryPayload(c: Costs, payload: seq<Item>, maxChars: nat) returns (result: seq<Item>)
    ensures result == Fitted(c, payload, maxChars)
  {
    hide DetailCount, KnowledgeLength, PruneOnce, ItemsCost;
    result := payload;
    while result != [] && ItemsCost(c, result) > maxChars
      invariant Fitted(c, result, maxChars) == Fitted(c, payload, maxChars)
      decreases |result|, DetailCount(result), KnowledgeLength(result)
    {
      var next := PruneOnce(result);
      if next.None? {
        break;
      }
      PruneOnceSmaller(result);
      result := next.value;
    }
  }

  lemma PruneOnceSmaller(items: seq<Item>)
    requires PruneOnce(items).Some?
    ensures Smaller(PruneOnce(items).value, items) && Pruned(items, PruneOnce(items).value)
  {
    StepPrunes(items, ToFloor);
  }

  /** The fitted library is within its budget unless it is bare, and gave things up in order. */
  lemma {:induction false} FittedKeeps(c: Costs, start: seq<Item>, items: seq<Item>, maxChars: nat)
    requires Pruned(start, items) && InOrder(start, items)
    ensures var r := Fitted(c, items, maxChars); Pruned(start, r) && InOrder(start, r)
    ensures var r := Fitted(c, items, maxChars); r == [] || ItemsCost(c, r) <= maxChars || Bare(r)
    decreases |items|, DetailCount(items), KnowledgeLength(items)
  {
    hide DetailCount, KnowledgeLength, PruneStep, Pruned, InOrder, Bare, ItemsCost;
    if items != [] && ItemsCost(c, items) > maxChars {
      StepStopsIff(items, ToFloor);
      if PruneOnce(items).Some? {
        StepPrunes(items, ToFloor);
        StepInOrder(start, items, ToFloor);
        PrunedTransitive(start, items, PruneOnce(items).value);
        FittedKeeps(c, start, PruneOnce(items).value, maxChars);
      }
    }
  }

  // ----- the pack -----

  type Positive = n: nat | n > 0 witness 1

  /** Budget values; the source refuses any that is not positive. */
  datatype Budget = Budget(
    maxTotal: Positive, maxUser: Positive, maxMemoryChars: Positive, maxEgoChars: Positive, maxLibraryChars: Positive,
    maxToolChars: Positive, maxActionChars: Positive, maxSessionChars: Positive, maxMemories: Positive,
    maxEgos: Positive, maxLibrary: Positive, maxTools: Positive, maxActions: Positive, maxSession: Positive)

  /** `s[-n:]` for a positive `n` */
  function LastOf<T>(s: seq<T>, n: nat): seq<T> {
    if n <= |s| then s[|s| - n..] else s
  }

  datatype Supplied = Supplied(
    text: string, memories: seq<Part>, egos: seq<Part>, library: seq<Item>, tools: seq<Part>, actions: seq<Part>,
    session: seq<Part>)

  /** The share of a character budget one of `count` items gets: the floor of the quotient, and one at least. */
  function Share(maxChars: nat, count: nat): (r: nat)
    ensures r >= 1
  {
    var each := maxChars / if count > 1 then count else 1;
    if each > 1 then each else 1
  }

  /** An item cut to its share. */
  function Shortened(x: Part, limit: nat): Part {
    x.(content := Trim(x.content, limit), preview := x.preview || (x.isObject && |x.content| > limit))
  }

  function Shares(items: seq<Part>, maxChars: nat): (r: seq<Part>)
    ensures |r| == |items|
    ensures forall i :: 0 <= i < |r| ==> r[i] == Shortened(items[i], Share(maxChars, |items|))
  {
    Map(items, (x: Part) => Shortened(x, Share(maxChars, |items|)))
  }

  function ContentLength(items: seq<Part>): nat {
    if items == [] then 0 else ContentLength(items[..|items| - 1]) + |items[|items| - 1].content|
  }

  function Times(n: nat, limit: nat): nat {
    n * limit
  }

  lemma OneMore(n: nat, limit: nat)
    ensures Times(n + 1, limit) == Times(n, limit) + limit
  {
  }

  lemma {:induction false} ContentWithin(items: seq<Part>, limit: nat)
    requires forall x :: x in items ==> |x.content| <= limit
    ensures ContentLength(items) <= Times(|items|, limit)
  {
    hide Times;
    if items != [] {
      var front := items[..|items| - 1];
      assert items[|front|] in items && forall x :: x in front ==> x in items;
      ContentWithin(front, limit);
      OneMore(|front|, limit);
      assert |front| + 1 == |items|;
    }
  }

  lemma SharesAddUp(maxChars: nat, count: nat)
    ensures Times(count, Share(maxChars, count)) <= if maxChars >= count then maxChars else count
  {
    if count > 1 && maxChars / count > 1 {
      assert count * (maxChars / count) <= maxChars;
    }
  }

  /** The trimmed texts of a list stay within its character budget, or within one character for each item. */
  lemma SharesFit(items: seq<Part>, maxChars: nat)
    ensures ContentLength(Shares(items, maxChars)) <= if maxChars >= |items| then maxChars else |items|
  {
    hide ContentLength, Share, Trim, Times;
    var r, each := Shares(items, maxChars), Share(maxChars, |items|);
    forall x | x in r
      ensures |x.content| <= each
    {
      var i :| 0 <= i < |r| && r[i] == x;
      assert x.content == Trim(items[i].content, each);
    }
    ContentWithin(r, each);
    SharesAddUp(maxChars, |items|);
  }

  /** The pack before it is pruned as a whole. */
  function Selected(c: Costs, b: Budget, s: Supplied): Pack {
    Pack(Trim(s.text, b.maxUser),
         Shares(FirstOf(s.memories, b.maxMemories), b.maxMemoryChars),
         Shares(FirstOf(s.egos, b.maxEgos), b.maxEgoChars),
         Fitted(c, FirstOf(s.library, b.maxLibrary), b.maxLibraryChars),
         Shares(FirstOf(s.tools, b.maxTools), b.maxToolChars),
         Shares(LastOf(s.actions, b.maxActions), b.maxActionChars),
         Shares(LastOf(s.session, b.maxSession), b.maxSessionChars))
  }

  /** Everything that can be given up, given up. */
  function Irreducible(p: Pack): Pack {
    Pack("", [], [], PrunedAll(p.library), [], LastOf(p.actions, 1), LastOf(p.session, 1))
  }

  ghost predicate Suffix(start: seq<Part>, s: seq<Part>) {
    |s| <= |start| && s == LastOf(start, |s|) && (start != [] ==> s != [])
  }

  /** Memories: a prefix, cut no further than needed. One more would be over the budget with all else untouched. */
  ghost predicate MemoriesOk(c: Costs, max: nat, start: Pack, memories: seq<Part>) {
    memories <= start.memories &&
    (|memories| < |start.memories| ==> Chars(c, start.(memories := start.memories[..|memories| + 1])) > max)
  }

  /**
   * Session history: a suffix with at least one item, cut only once the memories are used up and no
   * further than needed.
   */
  ghost predicate SessionOk(c: Costs, max: nat, start: Pack, memories: seq<Part>, session: seq<Part>) {
    && Suffix(start.session, session)
    && (|session| < |start.session| ==>
        memories == [] && Chars(c, start.(memories := [], session := LastOf(start.session, |session| + 1))) > max)
  }

  /** Action history: the same, cut after the session history. */
  ghost predicate ActionsOk(
    c: Costs, max: nat, start: Pack, memories: seq<Part>, session: seq<Part>, actions: seq<Part>)
  {
    && Suffix(start.actions, actions)
    && (|actions| < |start.actions| ==>
          && memories == [] && session == LastOf(start.session, 1)
          && Chars(c,
                   start.(memories := [], session := LastOf(start.session, 1),
                          actions := LastOf(start.actions, |actions| + 1))) > max)
  }

  /** No memories, and one item of each history. */
  ghost predicate Spent(start: Pack, memories: seq<Part>, session: seq<Part>, actions: seq<Part>) {
    memories == [] && session == LastOf(start.session, 1) && actions == LastOf(start.actions, 1)
  }

  ghost predicate EgosOk(c: Costs, max: nat, start: Pack, spent: bool, egos: seq<Part>) {
    egos <= start.egos &&
    (|egos| < |start.egos| ==> spent && Chars(c, Quiet(start).(egos := start.egos[..|egos| + 1])) > max)
  }

  ghost predicate ToolsOk(c: Costs, max: nat, start: Pack, spent: bool, egos: seq<Part>, tools: seq<Part>) {
    tools <= start.tools &&
    (|tools| < |start.tools| ==>
     spent && egos == [] && Chars(c, Quiet(start).(egos := [], tools := start.tools[..|tools| + 1])) > max)
  }

  /** The library: pruned, and only once everything before it is used up. */
  ghost predicate LibraryOk(start: Pack, spent: bool, egos: seq<Part>, tools: seq<Part>, library: seq<Item>) {
    && Pruned(start.library, library) && PrunedAll(library) == PrunedAll(start.library)
    && (library != start.library ==> spent && egos == [] && tools == [])
  }

  /**
   * What pruning keeps of a pack. Nothing is given up while something less important remains, each list is cut as
   * little as the budget allows, and the user text is trimmed only when all else is irreducible.
   */
  ghost predicate Good(c: Costs, max: nat, start: Pack, p: Pack) {
    var spent := Spent(start, p.memories, p.session, p.actions);
    && MemoriesOk(c, max, start, p.memories)
    && SessionOk(c, max, start, p.memories, p.session)
    && ActionsOk(c, max, start, p.memories, p.session, p.actions)
    && EgosOk(c, max, start, spent, p.egos)
    && ToolsOk(c, max, start, spent, p.egos, p.tools)
    && LibraryOk(start, spent, p.egos, p.tools, p.library)
    && (p.userText != start.userText ==> p == Irreducible(start).(userText := p.userText))
  }

  /** Without memories, and with one item of each history. */
  function Quiet(p: Pack): Pack {
    p.(memories := [], session := LastOf(p.session, 1), actions := LastOf(p.actions, 1))
  }

  lemma {:induction false} ListCostPrefix(c: Costs, p: seq<Part>, s: seq<Part>)
    requires p <= s
    ensures ListCost(c, p) <= ListCost(c, s)
    decreases |s|
  {
    if |p| < |s| {
      ListCostPrefix(c, p, s[..|s| - 1]);
    } else {
      assert p == s;
    }
  }

  lemma ListCostLast(c: Costs, s: seq<Part>)
    ensures ListCost(c, LastOf(s, 1)) <= ListCost(c, s)
  {
    if s != [] {
      assert LastOf(s, 1) == [s[|s| - 1]] && [s[|s| - 1]][..0] == [];
      ListCostPrefix(c, [], s[..|s| - 1]);
    }
  }

  /** The irreducible pack is never longer than a pack pruned from the same start. */
  lemma IrreducibleLeast(c: Costs, start: Pack, p: Pack)
    requires Json(c) && Suffix(start.actions, p.actions) && Suffix(start.session, p.session)
    requires PrunedAll(p.library) == PrunedAll(start.library)
    ensures Irreducible(p) == Irreducible(start)
    ensures Chars(c, Irreducible(start)) <= Chars(c, p)
  {
    hide ListCost, TextCost, LibraryCost, Pruned, PrunedAll;
    assert LastOf(p.actions, 1) == LastOf(start.actions, 1);
    assert LastOf(p.session, 1) == LastOf(start.session, 1);
    ListCostPrefix(c, [], p.memories);
    ListCostPrefix(c, [], p.egos);
    ListCostPrefix(c, [], p.tools);
    ListCostLast(c, p.actions);
    ListCostLast(c, p.session);
    PrunedCost(c, p.library, PrunedAll(p.library));
    EmptyTextCost(c);
  }

  /** The JSON length of each list of a pack, and the length of the user text. */
  datatype ListChars = ListChars(
    user: nat, memories: nat, egos: nat, library: nat, tools: nat, actions: nat, session: nat)

  function CharsOf(c: Costs, p: Pack): ListChars {
    ListChars(|p.userText|, ListCost(c, p.memories), ListCost(c, p.egos), LibraryListCost(c, p.library),
              ListCost(c, p.tools), ListCost(c, p.actions), ListCost(c, p.session))
  }

  datatype Report = Report(
    maxTotal: nat, totalChars: nat, chars: ListChars,
    selectedMemories: nat, droppedMemories: nat, selectedEgos: nat, droppedEgos: nat,
    selectedLibrary: nat, droppedLibrary: nat, selectedTools: nat, droppedTools: nat,
    selectedActions: nat, droppedActions: nat, selectedSession: nat, droppedSession: nat, userTruncated: bool)

  datatype CompileError = EnvelopeTooBig

  datatype Compiled = Compiled(pack: Pack, report: Report)

  function Dropped(supplied: nat, selected: nat): nat {
    if supplied > selected then supplied - selected else 0
  }

  function ReportOf(c: Costs, max: nat, s: Supplied, p: Pack): Report {
    Report(max, Chars(c, p), CharsOf(c, p),
           |p.memories|, Dropped(|s.memories|, |p.memories|), |p.egos|, Dropped(|s.egos|, |p.egos|),
           |p.library|, Dropped(|s.library|, |p.library|), |p.tools|, Dropped(|s.tools|, |p.tools|),
           |p.actions|, Dropped(|s.actions|, |p.actions|), |p.session|, Dropped(|s.session|, |p.session|),
           p.userText != s.text)
  }

  ghost predicate Within(c: Costs, max: nat, p: Pack) {
    Chars(c, p) <= max
  }

  lemma PrunedAllSteps(items: seq<Item>)
    ensures PruneOnce(items).None? ==> PrunedAll(items) == items
    ensures PruneOnce(items).Some? ==> PrunedAll(items) == PrunedAll(PruneOnce(items).value)
  {
  }

  /** The user text loses what is over the budget; the pack fits then unless the text is used up. */
  method TrimmedUser(c: Costs, max: nat, p: Pack) returns (r: Pack)
    requires Json(c) && Chars(c, p) > max
    ensures r == p.(userText := r.userText)
    ensures Chars(c, r) <= max || r.userText == ""
  {
    var overflow := Chars(c, p) - max;
    var limit := if |p.userText| > overflow then |p.userText| - overflow else 0;
    TrimFits(c, p.userText, overflow);
    r := p.(userText := Trim(p.userText, limit));
  }

  // ----- the pruning loops -----

  /** A pack within the budget is left alone; otherwise one list is cut until the pack fits or the list is used up. */
  ghost predicate MemoriesCut(c: Costs, max: nat, p: Pack, q: Pack) {
    && q == p.(memories := q.memories) && q.memories <= p.memories
    && (|q.memories| < |p.memories| ==> Chars(c, p.(memories := p.memories[..|q.memories| + 1])) > max)
    && (Chars(c, p) <= max ==> q == p) && (Chars(c, q) <= max || q.memories == [])
  }

  method PopMemories(c: Costs, max: nat, p: Pack) returns (q: Pack)
    ensures MemoriesCut(c, max, p, q)
  {
    hide Chars;
    q := p;
    while Chars(c, q) > max && q.memories != []
      invariant q == p.(memories := q.memories) && q.memories <= p.memories && (Chars(c, p) <= max ==> q == p)
      invariant |q.memories| < |p.memories| ==> Chars(c, p.(memories := p.memories[..|q.memories| + 1])) > max
      decreases |q.memories|
    {
      assert q.memories == p.memories[..|q.memories|];
      q := q.(memories := q.memories[..|q.memories| - 1]);
    }
  }

  ghost predicate SessionCut(c: Costs, max: nat, p: Pack, q: Pack) {
    && q == p.(session := q.session) && Suffix(p.session, q.session)
    && (|q.session| < |p.session| ==> Chars(c, p.(session := LastOf(p.session, |q.session| + 1))) > max)
    && (Chars(c, p) <= max ==> q == p) && (Chars(c, q) <= max || |q.session| <= 1)
  }

  method ShiftSession(c: Costs, max: nat, p: Pack) returns (q: Pack)
    ensures SessionCut(c, max, p, q)
  {
    hide Chars;
    q := p;
    while Chars(c, q) > max && |q.session| > 1
      invariant q == p.(session := q.session) && Suffix(p.session, q.session) && (Chars(c, p) <= max ==> q == p)
      invariant |q.session| < |p.session| ==> Chars(c, p.(session := LastOf(p.session, |q.session| + 1))) > max
      decreases |q.session|
    {
      q := q.(session := q.session[1..]);
    }
  }

  ghost predicate ActionsCut(c: Costs, max: nat, p: Pack, q: Pack) {
    && q == p.(actions := q.actions) && Suffix(p.actions, q.actions)
    && (|q.actions| < |p.actions| ==> Chars(c, p.(actions := LastOf(p.actions, |q.actions| + 1))) > max)
    && (Chars(c, p) <= max ==> q == p) && (Chars(c, q) <= max || |q.actions| <= 1)
  }

  method ShiftActions(c: Costs, max: nat, p: Pack) returns (q: Pack)
    ensures ActionsCut(c, max, p, q)
  {
    hide Chars;
    q := p;
    while Chars(c, q) > max && |q.actions| > 1
      invariant q == p.(actions := q.actions) && Suffix(p.actions, q.actions) && (Chars(c, p) <= max ==> q == p)
      invariant |q.actions| < |p.actions| ==> Chars(c, p.(actions := LastOf(p.actions, |q.actions| + 1))) > max
      decreases |q.actions|
    {
      q := q.(actions := q.actions[1..]);
    }
  }

  ghost predicate EgosCut(c: Costs, max: nat, p: Pack, q: Pack) {
    && q == p.(egos := q.egos) && q.egos <= p.egos
    && (|q.egos| < |p.egos| ==> Chars(c, p.(egos := p.egos[..|q.egos| + 1])) > max)
    && (Chars(c, p) <= max ==> q == p) && (Chars(c, q) <= max || q.egos == [])
  }

  method PopEgos(c: Costs, max: nat, p: Pack) returns (q: Pack)
    ensures EgosCut(c, max, p, q)
  {
    hide Chars;
    q := p;
    while Chars(c, q) > max && q.egos != []
      invariant q == p.(egos := q.egos) && q.egos <= p.egos && (Chars(c, p) <= max ==> q == p)
      invariant |q.egos| < |p.egos| ==> Chars(c, p.(egos := p.egos[..|q.egos| + 1])) > max
      decreases |q.egos|
    {
      assert q.egos == p.egos[..|q.egos|];
      q := q.(egos := q.egos[..|q.egos| - 1]);
    }
  }

  ghost predicate ToolsCut(c: Costs, max: nat, p: Pack, q: Pack) {
    && q == p.(tools := q.tools) && q.tools <= p.tools
    && (|q.tools| < |p.tools| ==> Chars(c, p.(tools := p.tools[..|q.tools| + 1])) > max)
    && (Chars(c, p) <= max ==> q == p) && (Chars(c, q) <= max || q.tools == [])
  }

  method PopTools(c: Costs, max: nat, p: Pack) returns (q: Pack)
    ensures ToolsCut(c, max, p, q)
  {
    hide Chars;
    q := p;
    while Chars(c, q) > max && q.tools != []
      invariant q == p.(tools := q.tools) && q.tools <= p.tools && (Chars(c, p) <= max ==> q == p)
      invariant |q.tools| < |p.tools| ==> Chars(c, p.(tools := p.tools[..|q.tools| + 1])) > max
      decreases |q.tools|
    {
      assert q.tools == p.tools[..|q.tools|];
      q := q.(tools := q.tools[..|q.tools| - 1]);
    }
  }

  ghost predicate LibraryCut(c: Costs, max: nat, p: Pack, q: Pack) {
    && q == p.(library := q.library) && Pruned(p.library, q.library) && PrunedAll(q.library) == PrunedAll(p.library)
    && (Chars(c, p) <= max ==> q == p) && (Chars(c, q) <= max || q.library == PrunedAll(q.library))
  }

  method PruneLibrary(c: Costs, max: nat, p: Pack) returns (q: Pack)
    ensures LibraryCut(c, max, p, q)
  {
    hide Chars, PruneOnce, PrunedAll, Pruned, DetailCount, KnowledgeLength;
    q := p;
    PrunedReflexive(p.library);
    while Chars(c, q) > max
      invariant q == p.(library := q.library) && Pruned(p.library, q.library) &&
                  PrunedAll(q.library) == PrunedAll(p.library)
      invariant Chars(c, p) <= max ==> q == p
      decreases |q.library|, DetailCount(q.library), KnowledgeLength(q.library)
    {
      var next := PruneOnce(q.library);
      PrunedAllSteps(q.library);
      if next.None? {
        break;
      }
      PruneOnceSmaller(q.library);
      PrunedTransitive(p.library, q.library, next.value);
      q := q.(library := next.value);
    }
  }

  lemma SuffixSelf(s: seq<Part>)
    ensures Suffix(s, s)
  {
  }

  /** Lists that are still whole are fine, whatever came before. */
  lemma WholeOk(c: Costs, max: nat, start: Pack, memories: seq<Part>, session: seq<Part>, spent: bool)
    ensures SessionOk(c, max, start, memories, start.session)
    ensures ActionsOk(c, max, start, memories, session, start.actions)
    ensures EgosOk(c, max, start, spent, start.egos)
    ensures ToolsOk(c, max, start, spent, start.egos, start.tools)
    ensures LibraryOk(start, spent, start.egos, start.tools, start.library)
  {
    hide Chars, PrunedAll, Pruned, Quiet, Suffix, LastOf;
    SuffixSelf(start.session);
    SuffixSelf(start.actions);
    PrunedReflexive(start.library);
  }

  lemma EndAtMemories(c: Costs, max: nat, start: Pack, q: Pack)
    requires MemoriesCut(c, max, start, q)
    ensures Good(c, max, start, q)
  {
    hide Chars, PrunedAll, Pruned, Irreducible, Quiet, SessionOk, ActionsOk, EgosOk, ToolsOk, LibraryOk, Spent, LastOf;
    WholeOk(c, max, start, q.memories, q.session, Spent(start, q.memories, q.session, q.actions));
  }

  lemma EndAtSession(c: Costs, max: nat, start: Pack, p: Pack, q: Pack)
    requires Good(c, max, start, p) && p == start.(memories := []) && SessionCut(c, max, p, q)
    ensures Good(c, max, start, q)
  {
    hide Chars, PrunedAll, Pruned, Irreducible, Quiet, MemoriesOk, ActionsOk, EgosOk, ToolsOk, LibraryOk, Spent, LastOf;
    WholeOk(c, max, start, q.memories, q.session, Spent(start, q.memories, q.session, q.actions));
  }

  lemma EndAtActions(c: Costs, max: nat, start: Pack, p: Pack, q: Pack)
    requires Good(c, max, start, p) && p == start.(memories := [], session := LastOf(start.session, 1)) &&
               ActionsCut(c, max, p, q)
    ensures Good(c, max, start, q)
  {
    hide Chars, PrunedAll, Pruned, Irreducible, Quiet, MemoriesOk, SessionOk;
  }

  lemma EndAtEgos(c: Costs, max: nat, start: Pack, q: Pack)
    requires Good(c, max, start, Quiet(start)) && EgosCut(c, max, Quiet(start), q)
    ensures Good(c, max, start, q)
  {
    hide Chars, PrunedAll, Pruned, Irreducible, MemoriesOk, SessionOk, ActionsOk, LastOf;
  }

  lemma EndAtTools(c: Costs, max: nat, start: Pack, p: Pack, q: Pack)
    requires Good(c, max, start, p) && p == Quiet(start).(egos := []) && ToolsCut(c, max, p, q)
    ensures Good(c, max, start, q)
  {
    hide Chars, PrunedAll, Pruned, Irreducible, MemoriesOk, SessionOk, ActionsOk, EgosOk, LastOf;
  }

  lemma EndAtLibrary(c: Costs, max: nat, start: Pack, p: Pack, q: Pack)
    requires Good(c, max, start, p) && p == Quiet(start).(egos := [], tools := []) && LibraryCut(c, max, p, q)
    ensures Good(c, max, start, q)
    ensures Chars(c, q) <= max || q == Irreducible(start).(userText := start.userText)
  {
    hide Chars, PrunedAll, Pruned, MemoriesOk, SessionOk, ActionsOk, EgosOk, ToolsOk, LastOf;
  }

  /** What the six loops keep, in which order they take, and where they end. */
  lemma CutsCompose(c: Costs, max: nat, start: Pack, m: Pack, s: Pack, a: Pack, e: Pack, t: Pack, l: Pack)
    requires MemoriesCut(c, max, start, m) && SessionCut(c, max, m, s) && ActionsCut(c, max, s, a)
    requires EgosCut(c, max, a, e) && ToolsCut(c, max, e, t) && LibraryCut(c, max, t, l)
    ensures Good(c, max, start, l)
    ensures Chars(c, l) <= max || l == Irreducible(start).(userText := start.userText)
  {
    hide Chars, PrunedAll, Pruned, Good, Irreducible;
    EndAtMemories(c, max, start, m);
    if Chars(c, m) > max {
      EndAtSession(c, max, start, m, s);
      if Chars(c, s) > max {
        EndAtActions(c, max, start, s, a);
        if Chars(c, a) > max {
          EndAtEgos(c, max, start, e);
          if Chars(c, e) > max {
            EndAtTools(c, max, start, e, t);
            if Chars(c, t) > max {
              EndAtLibrary(c, max, start, t, l);
            }
          }
        }
      }
    }
  }

  lemma TrimmedGood(c: Costs, max: nat, start: Pack, p: Pack, q: Pack)
    requires Good(c, max, start, p) && p == Irreducible(start).(userText := start.userText) &&
               q == p.(userText := q.userText)
    ensures Good(c, max, start, q)
  {
    hide Chars, PrunedAll, Pruned, MemoriesOk, SessionOk, ActionsOk, EgosOk, ToolsOk, LibraryOk, LastOf;
  }

  lemma GoodKeeps(c: Costs, max: nat, start: Pack, p: Pack)
    requires Good(c, max, start, p)
    ensures Suffix(start.actions, p.actions) && Suffix(start.session, p.session) &&
              PrunedAll(p.library) == PrunedAll(start.library)
  {
    hide Chars, PrunedAll, Pruned, MemoriesOk, EgosOk, ToolsOk, LastOf;
  }

  /** Cuts each item of a list to its share of the list's budget. */
  method ShareOut(items: seq<Part>, maxChars: nat) returns (r: seq<Part>)
    ensures r == Shares(items, maxChars)
  {
    var each := Share(maxChars, |items|);
    r := [];
    for i := 0 to |items|
      invariant |r| == i && forall k :: 0 <= k < i ==> r[k] == Shortened(items[k], each)
    {
      r := r + [Shortened(items[i], each)];
    }
  }

  method Compile(c: Costs, b: Budget, s: Supplied) returns (r: Result<Compiled, CompileError>)
    requires Json(c)
    ensures r.Err? <==> !Within(c, b.maxTotal, Irreducible(Selected(c, b, s)))
    ensures r.Ok? ==> Within(c, b.maxTotal, r.value.pack) && r.value.report == ReportOf(c, b.maxTotal, s, r.value.pack)
    ensures r.Ok? ==> Good(c, b.maxTotal, Selected(c, b, s), r.value.pack)
  {
    hide Chars, Fitted, PrunedAll, Pruned, MemoriesCut, SessionCut, ActionsCut, EgosCut, ToolsCut, LibraryCut, Trim;
    hide LastOf, FirstOf, Good, Shares;
    var library := FitLibraryPayload(c, FirstOf(s.library, b.maxLibrary), b.maxLibraryChars);
    var memories := ShareOut(FirstOf(s.memories, b.maxMemories), b.maxMemoryChars);
    var egos := ShareOut(FirstOf(s.egos, b.maxEgos), b.maxEgoChars);
    var tools := ShareOut(FirstOf(s.tools, b.maxTools), b.maxToolChars);
    var actions := ShareOut(LastOf(s.actions, b.maxActions), b.maxActionChars);
    var session := ShareOut(LastOf(s.session, b.maxSession), b.maxSessionChars);
    var start := Pack(Trim(s.text, b.maxUser), memories, egos, library, tools, actions, session);
    assert start == Selected(c, b, s);
    var m := PopMemories(c, b.maxTotal, start);
    var se := ShiftSession(c, b.maxTotal, m);
    var a := ShiftActions(c, b.maxTotal, se);
    var e := PopEgos(c, b.maxTotal, a);
    var t := PopTools(c, b.maxTotal, e);
    var pack := PruneLibrary(c, b.maxTotal, t);
    CutsCompose(c, b.maxTotal, start, m, se, a, e, t, pack);
    if Chars(c, pack) > b.maxTotal {
      var trimmed := TrimmedUser(c, b.maxTotal, pack);
      TrimmedGood(c, b.maxTotal, start, pack, trimmed);
      pack := trimmed;
    }
    GoodKeeps(c, b.maxTotal, start, pack);
    IrreducibleLeast(c, start, pack);
    if Chars(c, pack) > b.maxTotal {
      return Err(EnvelopeTooBig);
    }
    return Ok(Compiled(pack, ReportOf(c, b.maxTotal, s, pack)));
  }

  lemma {:induction false} PrunedShorter(a: seq<Item>, b: seq<Item>)
    requires Pruned(a, b)
    ensures |b| <= |a|
  {
    hide Shrunk;
    if a != [] {
      if !a[0].role.Guardrail? && Pruned(a[1..], b) {
        PrunedShorter(a[1..], b);
      } else {
        PrunedShorter(a[1..], b[1..]);
      }
    }
  }

  /** The library a pack carries is pruned from the supplied one, cut to its item limit. */
  lemma LibraryFromSupplied(c: Costs, max: nat, b: Budget, s: Supplied, p: Pack)
    requires Good(c, max, Selected(c, b, s), p)
    ensures Pruned(FirstOf(s.library, b.maxLibrary), p.library)
  {
    hide Chars, PrunedAll, Pruned, MemoriesOk, SessionOk, ActionsOk, EgosOk, ToolsOk, Fitted, InOrder, Irreducible;
    hide Spent, LastOf, Trim;
    var supplied := FirstOf(s.library, b.maxLibrary);
    PrunedReflexive(supplied);
    InOrderReflexive(supplied);
    FittedKeeps(c, supplied, supplied, b.maxLibraryChars);
    PrunedTransitive(supplied, Selected(c, b, s).library, p.library);
  }

  /** Both prunings together keep every guardrail among the supplied items the limit admits. */
  lemma GuardrailReachesModel(c: Costs, max: nat, b: Budget, s: Supplied, p: Pack, i: nat)
    requires Good(c, max, Selected(c, b, s), p) && i < |s.library| && i < b.maxLibrary && s.library[i].role.Guardrail?
    ensures exists y :: y in p.library && Shrunk(s.library[i], y)
  {
    hide Good, Selected, Shrunk, Pruned;
    LibraryFromSupplied(c, max, b, s, p);
    GuardrailSurvives(FirstOf(s.library, b.maxLibrary), p.library, i);
  }

  lemma FirstOfShorter<T>(s: seq<T>, n: nat)
    ensures |FirstOf(s, n)| <= |s| && |LastOf(s, n)| <= |s|
  {
  }

  lemma GoodShorter(c: Costs, max: nat, start: Pack, p: Pack)
    requires Good(c, max, start, p)
    ensures |p.memories| <= |start.memories| && |p.egos| <= |start.egos| && |p.tools| <= |start.tools|
    ensures |p.actions| <= |start.actions| && |p.session| <= |start.session|
  {
    hide Chars, Irreducible, Spent, Quiet, LibraryOk, LastOf;
  }

  /** In the report selected plus dropped is what was supplied, and the parts add up to the total. */
  lemma CountsAddUp(c: Costs, max: nat, b: Budget, s: Supplied, p: Pack)
    requires Good(c, max, Selected(c, b, s), p)
    ensures var r := ReportOf(c, max, s, p);
            r.selectedMemories + r.droppedMemories == |s.memories| && r.selectedEgos + r.droppedEgos == |s.egos|
    ensures var r := ReportOf(c, max, s, p);
            r.selectedLibrary + r.droppedLibrary == |s.library| && r.selectedTools + r.droppedTools == |s.tools|
    ensures var r := ReportOf(c, max, s, p);
            r.selectedActions + r.droppedActions == |s.actions| && r.selectedSession + r.droppedSession == |s.session|
    ensures var r := ReportOf(c, max, s, p);
            r.totalChars == c.envelope + TextCost(c, p.userText) + r.chars.memories + r.chars.egos + r.chars.tools +
                            r.chars.actions + r.chars.session +
                            if r.selectedLibrary == 0 then 0 else |", \"library\": "| + r.chars.library
  {
    hide Good, Fitted, Trim, FirstOf, LastOf, Pruned;
    LibraryFromSupplied(c, max, b, s, p);
    PrunedShorter(FirstOf(s.library, b.maxLibrary), p.library);
    GoodShorter(c, max, Selected(c, b, s), p);
    FirstOfShorter(s.library, b.maxLibrary);
    FirstOfShorter(s.memories, b.maxMemories);
    FirstOfShorter(s.egos, b.maxEgos);
    FirstOfShorter(s.tools, b.maxTools);
    FirstOfShorter(s.actions, b.maxActions);
    FirstOfShorter(s.session, b.maxSession);
  }

  /** A list whose items are those of another, in order, each cut to the share its list was given. */
  ghost predicate CutFrom(items: seq<Part>, maxChars: nat, r: seq<Part>) {
    |r| <= |items| && forall i :: 0 <= i < |r| ==> r[i] == Shortened(items[i], Share(maxChars, |items|))
  }

  /** The same, from the end of the list, with one item if there is any. */
  ghost predicate CutFromEnd(items: seq<Part>, maxChars: nat, r: seq<Part>) {
    && |r| <= |items| && (items != [] ==> r != [])
    && forall i :: 0 <= i < |r| ==> r[i] == Shortened(items[|items| - |r| + i], Share(maxChars, |items|))
  }

  /** Memories, capabilities and tools reach the pack as prefixes of what was selected, histories as suffixes. */
  lemma PrefixesAndSuffixes(c: Costs, max: nat, b: Budget, s: Supplied, p: Pack)
    requires Good(c, max, Selected(c, b, s), p)
    ensures CutFrom(FirstOf(s.memories, b.maxMemories), b.maxMemoryChars, p.memories)
    ensures CutFrom(FirstOf(s.egos, b.maxEgos), b.maxEgoChars, p.egos)
    ensures CutFrom(FirstOf(s.tools, b.maxTools), b.maxToolChars, p.tools)
    ensures CutFromEnd(LastOf(s.actions, b.maxActions), b.maxActionChars, p.actions)
    ensures CutFromEnd(LastOf(s.session, b.maxSession), b.maxSessionChars, p.session)
  {
    hide Chars, PrunedAll, Pruned, Fitted, Irreducible, Spent, Trim, Quiet, LibraryOk, Suffix, CutFrom, CutFromEnd;
    hide Shares, LastOf, FirstOf;
    PrefixIsCut(FirstOf(s.memories, b.maxMemories), b.maxMemoryChars, p.memories);
    PrefixIsCut(FirstOf(s.egos, b.maxEgos), b.maxEgoChars, p.egos);
    PrefixIsCut(FirstOf(s.tools, b.maxTools), b.maxToolChars, p.tools);
    SuffixIsCut(LastOf(s.actions, b.maxActions), b.maxActionChars, p.actions);
    SuffixIsCut(LastOf(s.session, b.maxSession), b.maxSessionChars, p.session);
  }

  lemma PrefixIsCut(items: seq<Part>, maxChars: nat, r: seq<Part>)
    requires r <= Shares(items, maxChars)
    ensures CutFrom(items, maxChars, r)
  {
    hide Share, Trim;
  }

  lemma SuffixIsCut(items: seq<Part>, maxChars: nat, r: seq<Part>)
    requires Suffix(Shares(items, maxChars), r)
    ensures CutFromEnd(items, maxChars, r)
  {
    hide Share, Trim;
  }
}
