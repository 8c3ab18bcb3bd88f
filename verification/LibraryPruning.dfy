/** Delivered library items and the single steps the two pruners take (library/delivery.py, context/compiler.py). */
module LibraryItems {
  import opened Outcomes
  import opened Sequences
  import opened Text

  datatype Role = Primary | Guardrail | Complement | OtherRole

  /** The optional fields, in the order in which they are given up. */
  datatype Detail = Pitfalls | Tradeoffs | Complexity | Hint | Structure | UseWhen

  const ORDER: seq<Detail> := [Pitfalls, Tradeoffs, Complexity, Hint, Structure, UseWhen]

  /** The fields no pruner touches: identity, topic, fit, labels, provenance and `avoid_when`. */
  datatype Fixed = Fixed(
    bookId: string, book: string, entryId: string, topic: string, avoided: bool, trust: string, validation: string,
    avoidWhen: seq<string>, provenance: seq<string>)

  datatype Item = Item(role: Role, fixed: Fixed, knowledge: string, details: map<Detail, seq<string>>)

  const ELLIPSIS: string := "\U{2026}"
  const FLOOR := 80

  /** `knowledge[: size - 1].rstrip() + "..."` with the one-character ellipsis. */
  function Shortened(k: string, size: nat): (r: string)
    requires 1 <= size <= |k|
    ensures 0 < |r| <= size && r[|r| - 1..] == ELLIPSIS && r[..|r| - 1] <= k
  {
    StripRight(k[..size - 1]) + ELLIPSIS
  }

  // ----- what pruning may do to an item and to a list -----

  /** A text that is unchanged, or a shorter text made of a prefix and the ellipsis. */
  predicate Abridged(k: string, r: string) {
    r == k || (0 < |r| < |k| && r[|r| - 1..] == ELLIPSIS && r[..|r| - 1] <= k)
  }

  predicate Shrunk(a: Item, b: Item) {
    && b.role == a.role && b.fixed == a.fixed && Abridged(a.knowledge, b.knowledge)
    && (forall d :: d in b.details ==> d in a.details && b.details[d] == a.details[d])
  }

  /** `b` is `a` with some items other than guardrails dropped and the rest shrunk, in order. */
  predicate Pruned(a: seq<Item>, b: seq<Item>) {
    if a == [] then b == []
    else
      || (!a[0].role.Guardrail? && Pruned(a[1..], b))
      || (b != [] && Shrunk(a[0], b[0]) && Pruned(a[1..], b[1..]))
  }

  lemma AbridgedTransitive(x: string, y: string, z: string)
    requires Abridged(x, y) && Abridged(y, z)
    ensures Abridged(x, z)
  {
  }

  lemma {:induction false} PrunedReflexive(a: seq<Item>)
    ensures Pruned(a, a)
  {
    if a != [] {
      PrunedReflexive(a[1..]);
    }
  }

  lemma {:induction false} PrunedTransitive(a: seq<Item>, b: seq<Item>, c: seq<Item>)
    requires Pruned(a, b) && Pruned(b, c)
    ensures Pruned(a, c)
    decreases |a| + |b|
  {
    if a != [] {
      if !a[0].role.Guardrail? && Pruned(a[1..], b) {
        PrunedTransitive(a[1..], b, c);
      } else if !b[0].role.Guardrail? && Pruned(b[1..], c) {
        PrunedTransitive(a[1..], b[1..], c);
      } else {
        PrunedTransitive(a[1..], b[1..], c[1..]);
        AbridgedTransitive(a[0].knowledge, b[0].knowledge, c[0].knowledge);
      }
    }
  }

  function Guardrails(items: seq<Item>): seq<Item> {
    if items == [] then []
    else (if items[0].role.Guardrail? then [items[0]] else []) + Guardrails(items[1..])
  }

  /** Pruning keeps every guardrail, in order, with its boundary and provenance. */
  lemma {:induction false} GuardrailsKept(a: seq<Item>, b: seq<Item>)
    requires Pruned(a, b)
    ensures |Guardrails(a)| == |Guardrails(b)|
    ensures forall i :: 0 <= i < |Guardrails(a)| ==> Shrunk(Guardrails(a)[i], Guardrails(b)[i])
  {
    hide Abridged;
    if a != [] {
      if !a[0].role.Guardrail? && Pruned(a[1..], b) {
        GuardrailsKept(a[1..], b);
      } else {
        GuardrailsKept(a[1..], b[1..]);
      }
    }
  }

  /** Each guardrail of the list reappears, with nothing lost but optional fields and the end of its text. */
  lemma {:induction false} GuardrailSurvives(a: seq<Item>, b: seq<Item>, i: nat)
    requires Pruned(a, b) && i < |a| && a[i].role.Guardrail?
    ensures exists y :: y in b && Shrunk(a[i], y)
  {
    if !a[0].role.Guardrail? && Pruned(a[1..], b) {
      GuardrailSurvives(a[1..], b, i - 1);
    } else if i == 0 {
      assert b[0] in b;
    } else {
      GuardrailSurvives(a[1..], b[1..], i - 1);
      assert forall y :: y in b[1..] ==> y in b;
    }
  }

  lemma {:induction false} PrunedAt(items: seq<Item>, i: nat, x: Item)
    requires i < |items| && Shrunk(items[i], x)
    ensures Pruned(items, items[i := x])
  {
    if i == 0 {
      assert items[0 := x][1..] == items[1..];
      PrunedReflexive(items[1..]);
    } else {
      PrunedAt(items[1..], i - 1, x);
      assert items[i := x][1..] == items[1..][i - 1 := x];
    }
  }

  function Removed<T>(s: seq<T>, i: nat): seq<T>
    requires i < |s|
  {
    s[..i] + s[i + 1..]
  }

  lemma {:induction false} PrunedWithout(items: seq<Item>, i: nat)
    requires i < |items| && !items[i].role.Guardrail?
    ensures Pruned(items, Removed(items, i))
  {
    if i == 0 {
      PrunedReflexive(items[1..]);
      assert Removed(items, 0) == items[1..];
    } else {
      PrunedWithout(items[1..], i - 1);
      assert Removed(items, i)[1..] == Removed(items[1..], i - 1);
    }
  }

  // ----- the searches -----

  /** The last index whose item passes a test, as `range(len - 1, -1, -1)` finds it. */
  function LastIndex(items: seq<Item>, test: Item -> bool): (r: Option<nat>)
    ensures r.Some? ==> r.value < |items| && test(items[r.value])
    ensures r.Some? ==> forall i :: r.value < i < |items| ==> !test(items[i])
    ensures r.None? ==> forall i :: 0 <= i < |items| ==> !test(items[i])
  {
    if items == [] then None
    else if test(items[|items| - 1]) then Some(|items| - 1)
    else LastIndex(items[..|items| - 1], test)
  }

  /** The first detail of the order that some item still has, and the last item that has it. */
  function LastDetail(items: seq<Item>, order: seq<Detail>): (r: Option<(Detail, nat)>)
    ensures r.Some? ==> r.value.1 < |items| && r.value.0 in items[r.value.1].details
    ensures r.None? ==> forall d, i :: d in order && 0 <= i < |items| ==> d !in items[i].details
  {
    if order == [] then None
    else
      assert order == [order[0]] + order[1..];
      var i := LastIndex(items, (x: Item) => order[0] in x.details);
      if i.Some? then Some((order[0], i.value)) else LastDetail(items, order[1..])
  }

  /** `max(range(len(items)), key=...)`: the first item with the longest knowledge. */
  function Longest(items: seq<Item>): (r: nat)
    requires items != []
    ensures r < |items| && forall i :: 0 <= i < |items| ==> |items[i].knowledge| <= |items[r].knowledge|
  {
    if |items| == 1 then 0
    else
      var front := Longest(items[..|items| - 1]);
      if |items[|items| - 1].knowledge| > |items[front].knowledge| then |items| - 1 else front
  }

  predicate IsComplement(x: Item) { x.role.Complement? }
  predicate IsOther(x: Item) { !x.role.Primary? && !x.role.Guardrail? }
  predicate Unguarded(x: Item) { !x.role.Guardrail? }

  // ----- the measure -----

  function DetailCount(items: seq<Item>): nat {
    if items == [] then 0 else DetailCount(items[..|items| - 1]) + |items[|items| - 1].details|
  }

  function KnowledgeLength(items: seq<Item>): nat {
    if items == [] then 0 else KnowledgeLength(items[..|items| - 1]) + |items[|items| - 1].knowledge|
  }

  lemma {:induction false} MeasureAt(items: seq<Item>, i: nat, x: Item)
    requires i < |items|
    ensures DetailCount(items[i := x]) == DetailCount(items) - |items[i].details| + |x.details|
    ensures KnowledgeLength(items[i := x]) == KnowledgeLength(items) - |items[i].knowledge| + |x.knowledge|
  {
    var front := items[..|items| - 1];
    if i == |items| - 1 {
      assert items[i := x][..i] == front;
    } else {
      assert items[i := x][..|items| - 1] == front[i := x];
      MeasureAt(front, i, x);
    }
  }

  // ----- the steps -----

  function WithoutDetail(x: Item, d: Detail): Item {
    x.(details := x.details - {d})
  }

  /** Give up the next optional field, if any is left. */
  function DropDetail(items: seq<Item>): (r: Option<seq<Item>>) {
    match LastDetail(items, ORDER)
    case None => None
    case Some((d, i)) => Some(items[i := WithoutDetail(items[i], d)])
  }

  function DropLast(items: seq<Item>, test: Item -> bool): Option<seq<Item>> {
    match LastIndex(items, test)
    case None => None
    case Some(i) => Some(Removed(items, i))
  }

  /** The delivery pruner cuts a text by what is over the budget; the context pruner cuts it to the floor. */
  datatype Style = ToBudget(overflow: nat) | ToFloor

  /** `max(80, len(knowledge) - max(1, overflow))`, or 80 */
  function CutTo(n: nat, style: Style): (r: nat)
    requires n > FLOOR
    ensures FLOOR <= r < n
  {
    match style
    case ToFloor => FLOOR
    case ToBudget(overflow) =>
      var step := if overflow > 1 then overflow else 1;
      if n - step > FLOOR then n - step else FLOOR
  }

  /** Shorten the longest knowledge text that exceeds the floor. */
  function Shorten(items: seq<Item>, style: Style): Option<seq<Item>> {
    if items == [] || |items[Longest(items)].knowledge| <= FLOOR then None
    else
      var i := Longest(items);
      var k := items[i].knowledge;
      Some(items[i := items[i].(knowledge := Shortened(k, CutTo(|k|, style)))])
  }

  lemma DroppedDetail(items: seq<Item>)
    requires DropDetail(items).Some?
    ensures var r := DropDetail(items).value; |r| == |items| && DetailCount(r) < DetailCount(items) && Pruned(items, r)
  {
    var (d, i) := LastDetail(items, ORDER).value;
    var x := WithoutDetail(items[i], d);
    assert x.details.Keys == items[i].details.Keys - {d};
    assert |x.details| == |x.details.Keys| < |items[i].details.Keys| == |items[i].details|;
    MeasureAt(items, i, x);
    PrunedAt(items, i, x);
  }

  lemma DroppedLast(items: seq<Item>, test: Item -> bool)
    requires DropLast(items, test).Some?
    requires forall x :: test(x) ==> Unguarded(x)
    ensures |DropLast(items, test).value| == |items| - 1 && Pruned(items, DropLast(items, test).value)
  {
    PrunedWithout(items, LastIndex(items, test).value);
  }

  lemma ShortenedOne(items: seq<Item>, style: Style)
    requires Shorten(items, style).Some?
    ensures var r := Shorten(items, style).value;
            |r| == |items| && DetailCount(r) == DetailCount(items) && KnowledgeLength(r) < KnowledgeLength(items) &&
            Pruned(items, r)
  {
    var i := Longest(items);
    var k := items[i].knowledge;
    var x := items[i].(knowledge := Shortened(k, CutTo(|k|, style)));
    MeasureAt(items, i, x);
    PrunedAt(items, i, x);
  }

  // ----- one pruning step -----

  predicate NoDetails(items: seq<Item>) {
    forall d, i :: d in ORDER && 0 <= i < |items| ==> d !in items[i].details
  }

  predicate NoComplements(items: seq<Item>) {
    forall i :: 0 <= i < |items| ==> !items[i].role.Complement?
  }

  predicate AtFloor(items: seq<Item>) {
    forall i :: 0 <= i < |items| ==> |items[i].knowledge| <= FLOOR
  }

  /** Nothing more may be given up: no detail, every text at the floor, and one item or guardrails only. */
  predicate Bare(items: seq<Item>) {
    && NoDetails(items) && NoComplements(items) && AtFloor(items)
    && (|items| > 1 ==> forall i :: 0 <= i < |items| ==> items[i].role.Guardrail?)
  }

  /**
   * What one step gives up, in order of importance; `None` when nothing is left to give. The delivery pruner drops
   * items of unknown role before it shortens any text, the context pruner after.
   */
  function PruneStep(items: seq<Item>, style: Style): Option<seq<Item>>
    requires items != []
  {
    if DropDetail(items).Some? then DropDetail(items)
    else if DropLast(items, IsComplement).Some? then DropLast(items, IsComplement)
    else if style.ToBudget? && |items| > 1 && DropLast(items, IsOther).Some? then DropLast(items, IsOther)
    else if Shorten(items, style).Some? then Shorten(items, style)
    else if |items| > 1 then DropLast(items, Unguarded)
    else None
  }

  ghost predicate Smaller(a: seq<Item>, b: seq<Item>) {
    || |a| < |b|
    || (|a| == |b| && DetailCount(a) < DetailCount(b))
    || (|a| == |b| && DetailCount(a) == DetailCount(b) && KnowledgeLength(a) < KnowledgeLength(b))
  }

  /** Every step lowers (items, optional fields, knowledge length) and keeps the guardrails. */
  lemma StepPrunes(items: seq<Item>, style: Style)
    requires items != [] && PruneStep(items, style).Some?
    ensures Smaller(PruneStep(items, style).value, items) && Pruned(items, PruneStep(items, style).value)
  {
    hide Pruned, DropDetail, DropLast, Shorten, DetailCount, KnowledgeLength;
    if DropDetail(items).Some? {
      DroppedDetail(items);
    } else if DropLast(items, IsComplement).Some? {
      DroppedLast(items, IsComplement);
    } else if style.ToBudget? && |items| > 1 && DropLast(items, IsOther).Some? {
      DroppedLast(items, IsOther);
    } else if Shorten(items, style).Some? {
      ShortenedOne(items, style);
    } else {
      DroppedLast(items, Unguarded);
    }
  }

  lemma NoDetailIff(items: seq<Item>)
    ensures DropDetail(items).None? <==> NoDetails(items)
  {
    if LastDetail(items, ORDER).Some? {
      DetailInOrder(items, ORDER);
    }
  }

  lemma {:induction false} DetailInOrder(items: seq<Item>, order: seq<Detail>)
    requires LastDetail(items, order).Some?
    ensures LastDetail(items, order).value.0 in order
  {
    if LastIndex(items, (x: Item) => order[0] in x.details).None? {
      DetailInOrder(items, order[1..]);
    }
  }

  lemma NoComplementIff(items: seq<Item>)
    ensures DropLast(items, IsComplement).None? <==> NoComplements(items)
  {
    if LastIndex(items, IsComplement).None? {
      forall i | 0 <= i < |items|
        ensures !items[i].role.Complement?
      {
        assert !IsComplement(items[i]);
      }
    }
  }

  lemma NoShortenIff(items: seq<Item>, style: Style)
    ensures Shorten(items, style).None? <==> AtFloor(items)
  {
  }

  /** The steps stop by themselves exactly at a bare list. */
  lemma StepStopsIff(items: seq<Item>, style: Style)
    requires items != []
    ensures PruneStep(items, style).None? <==> Bare(items)
  {
    hide DropDetail, Shorten, NoDetails, NoComplements, AtFloor, LastIndex;
    NoDetailIff(items);
    NoComplementIff(items);
    NoShortenIff(items, style);
    var last, other := LastIndex(items, Unguarded), LastIndex(items, IsOther);
    if last.None? {
      forall i | 0 <= i < |items|
        ensures items[i].role.Guardrail?
      {
        assert !Unguarded(items[i]);
      }
    }
  }

  // ----- the order of sacrifice -----

  datatype Essence = Essence(role: Role, fixed: Fixed, knowledge: string)

  /** Everything but complements and optional fields. */
  function Essentials(items: seq<Item>): seq<Essence> {
    if items == [] then []
    else (if items[0].role.Complement? then [] else [Essence(items[0].role, items[0].fixed, items[0].knowledge)]) +
         Essentials(items[1..])
  }

  /** The primary item and the guardrails, without their texts. */
  function Cores(items: seq<Item>): seq<(Role, Fixed)> {
    if items == [] then []
    else (if IsOther(items[0]) then [] else [(items[0].role, items[0].fixed)]) + Cores(items[1..])
  }

  ghost predicate SameTexts(a: seq<Item>, b: seq<Item>) {
    |a| == |b| &&
    forall i :: 0 <= i < |a| ==> b[i].role == a[i].role && b[i].fixed == a[i].fixed && b[i].knowledge == a[i].knowledge
  }

  /**
   * Optional fields go first, then complements, then text beyond the floor; a primary item only when all of these
   * are gone.
   */
  ghost predicate InOrder(a: seq<Item>, b: seq<Item>) {
    && (SameTexts(a, b) || NoDetails(b))
    && (Essentials(a) == Essentials(b) || (NoDetails(b) && NoComplements(b)))
    && (Cores(a) == Cores(b) || (NoDetails(b) && NoComplements(b) && AtFloor(b)))
  }

  lemma {:induction false} EssentialsAt(items: seq<Item>, i: nat, x: Item)
    requires i < |items| && x.role == items[i].role && x.fixed == items[i].fixed
    ensures x.knowledge == items[i].knowledge ==> Essentials(items[i := x]) == Essentials(items)
    ensures Cores(items[i := x]) == Cores(items)
  {
    if i == 0 {
      assert items[0 := x][1..] == items[1..];
    } else {
      assert items[i := x][1..] == items[1..][i - 1 := x];
      EssentialsAt(items[1..], i - 1, x);
    }
  }

  lemma {:induction false} EssentialsWithout(items: seq<Item>, i: nat)
    requires i < |items|
    ensures items[i].role.Complement? ==> Essentials(Removed(items, i)) == Essentials(items)
    ensures IsOther(items[i]) ==> Cores(Removed(items, i)) == Cores(items)
  {
    if i == 0 {
      assert Removed(items, 0) == items[1..];
    } else {
      assert Removed(items, i)[0] == items[0] && Removed(items, i)[1..] == Removed(items[1..], i - 1);
      EssentialsWithout(items[1..], i - 1);
    }
  }

  lemma RemovedKeeps(items: seq<Item>, i: nat)
    requires i < |items|
    ensures NoDetails(items) ==> NoDetails(Removed(items, i))
    ensures NoComplements(items) ==> NoComplements(Removed(items, i))
    ensures AtFloor(items) ==> AtFloor(Removed(items, i))
  {
    var r := Removed(items, i);
    assert forall j :: 0 <= j < |r| ==> r[j] == if j < i then items[j] else items[j + 1];
  }

  lemma ReplacedKeeps(items: seq<Item>, i: nat, x: Item)
    requires i < |items| && x.role == items[i].role
    ensures NoDetails(items) && x.details == items[i].details ==> NoDetails(items[i := x])
    ensures NoComplements(items) ==> NoComplements(items[i := x])
  {
  }

  lemma InOrderReflexive(a: seq<Item>)
    ensures InOrder(a, a)
  {
  }

  /** Each step follows the order of sacrifice. */
  lemma StepInOrder(start: seq<Item>, items: seq<Item>, style: Style)
    requires items != [] && PruneStep(items, style).Some? && InOrder(start, items)
    ensures InOrder(start, PruneStep(items, style).value)
  {
    hide Essentials, Cores, NoDetails, NoComplements, AtFloor, LastDetail, LastIndex, Longest, Shortened;
    NoDetailIff(items);
    NoComplementIff(items);
    NoShortenIff(items, style);
    if DropDetail(items).Some? {
      var (d, i) := LastDetail(items, ORDER).value;
      EssentialsAt(items, i, WithoutDetail(items[i], d));
    } else if DropLast(items, IsComplement).Some? {
      var i := LastIndex(items, IsComplement).value;
      EssentialsWithout(items, i);
      RemovedKeeps(items, i);
    } else if style.ToBudget? && |items| > 1 && DropLast(items, IsOther).Some? {
      var i := LastIndex(items, IsOther).value;
      EssentialsWithout(items, i);
      RemovedKeeps(items, i);
    } else if Shorten(items, style).Some? {
      var i := Longest(items);
      var k := items[i].knowledge;
      var x := items[i].(knowledge := Shortened(k, CutTo(|k|, style)));
      EssentialsAt(items, i, x);
      ReplacedKeeps(items, i, x);
    } else {
      RemovedKeeps(items, LastIndex(items, Unguarded).value);
    }
  }
}
