/** Bundle plans competing with volume prices (backend/src/lib/bundle-pricing.ts):
    the recipes, the selection, and where every cent of every unit goes. */
module BundlePricing {
  import opened Common
  import opened BundleMath
  import opened VolumePricing

  datatype Component = Component(variantID: int, quantity: int)

  datatype BundleCandidate = BundleCandidate(id: int, priceCents: int, components: seq<Component>)

  /** A component together with the cart line that holds its SKU. */
  datatype Part = Part(variantID: int, quantity: int, line: Line)

  datatype BundleUnit = InBundle(bundleID: int, instance: int) | Surplus(bundleID: int)

  function VariantsOf(components: seq<Component>): set<int> { set c | c in components :: c.variantID }

  function Variants(b: BundleCandidate): set<int> { VariantsOf(b.components) }

  /** What the bundle form accepts: each SKU once, in a positive quantity. */
  ghost predicate Recipe(b: BundleCandidate) {
    && (forall i, j :: 0 <= i < j < |b.components| ==> b.components[i].variantID != b.components[j].variantID)
    && forall c :: c in b.components ==> c.quantity >= 1
  }

  ghost predicate Recipes(bundles: seq<BundleCandidate>) {
    forall b :: b in bundles ==> Recipe(b)
  }

  // --- Resolving a recipe against the cart ------------------------------------------

  /** `new Map(lines.map((line) => [line.variantID, line])).get(variantID)` */
  function FindLine(lines: seq<Line>, variantID: int): (r: Option<Line>)
    ensures match r
      case Some(l) => l in lines && l.variantID == variantID
      case None => forall l :: l in lines ==> l.variantID != variantID
  {
    if lines == [] then None
    else
      assert lines == [lines[0]] + lines[1..];
      match FindLine(lines[1..], variantID)
      case Some(l) => Some(l)
      case None => if lines[0].variantID == variantID then Some(lines[0]) else None
  }

  predicate AllPresent(components: seq<Component>, lines: seq<Line>) {
    forall i :: 0 <= i < |components| ==> FindLine(lines, components[i].variantID).Some?
  }

  function PartsOf(components: seq<Component>, lines: seq<Line>): (r: seq<Part>)
    requires AllPresent(components, lines)
    ensures |r| == |components|
    ensures forall i :: 0 <= i < |r| ==>
      r[i].variantID == components[i].variantID && r[i].quantity == components[i].quantity
    ensures forall i :: 0 <= i < |r| ==> r[i].line in lines && r[i].line.variantID == components[i].variantID
  {
    seq(|components|, i requires 0 <= i < |components| =>
      Part(components[i].variantID, components[i].quantity, FindLine(lines, components[i].variantID).value))
  }

  function ItemOf(p: Part): Item { Item(p.line.quantity, p.quantity, p.line.individualCents) }

  function ItemsOf(parts: seq<Part>): (r: seq<Item>)
    ensures |r| == |parts| && forall i :: 0 <= i < |r| ==> r[i] == ItemOf(parts[i])
  {
    seq(|parts|, i requires 0 <= i < |parts| => ItemOf(parts[i]))
  }

  function PartTotalBy(rules: seq<ComboRule>): Part -> int { (p: Part) => OrdinaryCents(p.line, rules) }

  /** What ordinary pricing charges for the lines of a recipe. */
  function OrdinaryPartsCents(parts: seq<Part>, rules: seq<ComboRule>): int {
    Sum(Map(PartTotalBy(rules), parts))
  }

  predicate Buildable(b: BundleCandidate, lines: seq<Line>) {
    |b.components| >= 2 && AllPresent(b.components, lines)
  }

  function BundleItems(b: BundleCandidate, lines: seq<Line>): (r: seq<Item>)
    requires Buildable(b, lines)
    ensures |r| == |b.components| && forall i :: 0 <= i < |r| ==> r[i].need == b.components[i].quantity
  {
    ItemsOf(PartsOf(b.components, lines))
  }

  function BundleOrdinary(b: BundleCandidate, lines: seq<Line>, rules: seq<ComboRule>): int
    requires Buildable(b, lines)
  {
    OrdinaryPartsCents(PartsOf(b.components, lines), rules)
  }

  lemma ItemsWellformed(b: BundleCandidate, lines: seq<Line>)
    requires Buildable(b, lines) && Recipe(b) && Cart(lines)
    ensures Wellformed(BundleItems(b, lines))
  {
    var parts := PartsOf(b.components, lines);
    forall i | 0 <= i < |parts|
      ensures ItemOf(parts[i]).have >= 0 && ItemOf(parts[i]).need >= 1 && ItemOf(parts[i]).price >= 0
    {
      assert b.components[i] in b.components;
    }
  }

  predicate PositiveNeeds(b: BundleCandidate) {
    forall i :: 0 <= i < |b.components| ==> b.components[i].quantity >= 1
  }

  function InstanceCount(b: BundleCandidate, lines: seq<Line>): int
    requires Buildable(b, lines) && PositiveNeeds(b)
  {
    Instances(BundleItems(b, lines))
  }

  function BundlePlanCents(b: BundleCandidate, lines: seq<Line>, n: int): int
    requires Buildable(b, lines)
  {
    PlanCents(BundleItems(b, lines), n, b.priceCents)
  }

  /** The bundle plan is used: complete, within the price bounds, and strictly cheaper. */
  predicate Qualifies(b: BundleCandidate, lines: seq<Line>, rules: seq<ComboRule>)
    requires PositiveNeeds(b)
  {
    && Buildable(b, lines)
    && InstanceCount(b, lines) != 0
    && InBounds(b.priceCents, BundleItems(b, lines))
    && BundlePlanCents(b, lines, InstanceCount(b, lines)) < BundleOrdinary(b, lines, rules)
  }

  /** What one bundle takes off the ordinary subtotal when nothing else claims its SKUs. */
  function Saving(b: BundleCandidate, lines: seq<Line>, rules: seq<ComboRule>): int {
    if PositiveNeeds(b) && Qualifies(b, lines, rules)
    then BundleOrdinary(b, lines, rules) - BundlePlanCents(b, lines, InstanceCount(b, lines))
    else 0
  }

  function SavingBy(lines: seq<Line>, rules: seq<ComboRule>): BundleCandidate -> int { b => Saving(b, lines, rules) }

  function Savings(bundles: seq<BundleCandidate>, lines: seq<Line>, rules: seq<ComboRule>): int {
    Sum(Map(SavingBy(lines, rules), bundles))
  }

  // --- Selection --------------------------------------------------------------------

  function InsertBundle(b: BundleCandidate, s: seq<BundleCandidate>): (r: seq<BundleCandidate>)
    ensures multiset(r) == multiset{b} + multiset(s)
  {
    if s == [] || b.id <= s[0].id then [b] + s
    else
      assert s == [s[0]] + s[1..];
      [s[0]] + InsertBundle(b, s[1..])
  }

  /** `[...bundles].sort((a, b) => a.id.localeCompare(b.id))` */
  function SortBundles(s: seq<BundleCandidate>): (r: seq<BundleCandidate>)
    ensures multiset(r) == multiset(s)
  {
    if s == [] then []
    else
      assert s == [s[0]] + s[1..];
      InsertBundle(s[0], SortBundles(s[1..]))
  }

  /** The bundles applied, given the SKUs already claimed. */
  function Select(bundles: seq<BundleCandidate>, lines: seq<Line>, rules: seq<ComboRule>,
                  claimed: set<int>): seq<BundleCandidate>
  {
    if bundles == [] then []
    else
      var b, rest := bundles[0], bundles[1..];
      if PositiveNeeds(b) && Variants(b) !! claimed && Qualifies(b, lines, rules)
      then [b] + Select(rest, lines, rules, claimed + Variants(b))
      else Select(rest, lines, rules, claimed)
  }

  function Chosen(bundles: seq<BundleCandidate>, lines: seq<Line>, rules: seq<ComboRule>): seq<BundleCandidate> {
    Select(SortBundles(bundles), lines, rules, {})
  }

  /** The subtotal of the selected plan. */
  function Subtotal(bundles: seq<BundleCandidate>, lines: seq<Line>, rules: seq<ComboRule>): int {
    OrdinarySubtotal(lines, rules) - Savings(Chosen(bundles, lines, rules), lines, rules)
  }

  ghost predicate Disjoint(bundles: seq<BundleCandidate>) {
    forall i, j :: 0 <= i < j < |bundles| ==> Variants(bundles[i]) !! Variants(bundles[j])
  }

  /** Whatever recipes are on offer, each SKU is in at most one applied bundle, and
      every applied bundle qualifies. */
  lemma {:induction false} SelectedAreDisjoint(bundles: seq<BundleCandidate>, lines: seq<Line>, rules: seq<ComboRule>,
                                               claimed: set<int>)
    ensures var chosen := Select(bundles, lines, rules, claimed);
      && Disjoint(chosen)
      && (forall b :: b in chosen ==>
        b in bundles && PositiveNeeds(b) && Variants(b) !! claimed && Qualifies(b, lines, rules))
  {
    if bundles != [] {
      var b, rest := bundles[0], bundles[1..];
      assert bundles == [b] + rest;
      SelectedAreDisjoint(rest, lines, rules, claimed + Variants(b));
      SelectedAreDisjoint(rest, lines, rules, claimed);
    }
  }

  lemma SavingsCons(b: BundleCandidate, rest: seq<BundleCandidate>, lines: seq<Line>, rules: seq<ComboRule>)
    ensures Savings([b] + rest, lines, rules) == Saving(b, lines, rules) + Savings(rest, lines, rules)
  {
    var f := SavingBy(lines, rules);
    assert Map(f, [b] + rest) == [f(b)] + Map(f, rest);
  }

  /** With disjoint recipes nothing is ever turned away for a claimed SKU. */
  lemma {:induction false} DisjointSavings(bundles: seq<BundleCandidate>, lines: seq<Line>, rules: seq<ComboRule>,
                                           claimed: set<int>)
    requires Disjoint(bundles) && forall b :: b in bundles ==> Variants(b) !! claimed
    ensures Savings(Select(bundles, lines, rules, claimed), lines, rules) == Savings(bundles, lines, rules)
  {
    if bundles != [] {
      var b, rest := bundles[0], bundles[1..];
      assert bundles == [b] + rest;
      SavingsCons(b, rest, lines, rules);
      assert forall c :: c in rest ==> Variants(b) !! Variants(c);
      if PositiveNeeds(b) && Qualifies(b, lines, rules) {
        DisjointSavings(rest, lines, rules, claimed + Variants(b));
        SavingsCons(b, Select(rest, lines, rules, claimed + Variants(b)), lines, rules);
      } else {
        DisjointSavings(rest, lines, rules, claimed);
      }
    }
  }

  lemma {:induction false} InsertKeepsDisjoint(b: BundleCandidate, s: seq<BundleCandidate>)
    requires Disjoint(s) && forall c :: c in s ==> Variants(b) !! Variants(c)
    ensures Disjoint(InsertBundle(b, s))
  {
    if s != [] && !(b.id <= s[0].id) {
      assert s == [s[0]] + s[1..];
      InsertKeepsDisjoint(b, s[1..]);
      var r := InsertBundle(b, s[1..]);
      SameElements(r, [b] + s[1..]);
      forall c | c in r ensures Variants(s[0]) !! Variants(c) { assert c in [b] + s[1..]; }
    }
  }

  lemma {:induction false} SortKeepsDisjoint(s: seq<BundleCandidate>)
    requires Disjoint(s)
    ensures Disjoint(SortBundles(s))
  {
    if s != [] {
      SortKeepsDisjoint(s[1..]);
      SameElements(SortBundles(s[1..]), s[1..]);
      InsertKeepsDisjoint(s[0], SortBundles(s[1..]));
    }
  }

  /** With disjoint recipes the subtotal is the ordinary one less each bundle's own
      saving: ids, order and the claimed set play no part. */
  lemma SubtotalOfDisjoint(bundles: seq<BundleCandidate>, lines: seq<Line>, rules: seq<ComboRule>)
    requires Disjoint(bundles)
    ensures Subtotal(bundles, lines, rules) == OrdinarySubtotal(lines, rules) - Savings(bundles, lines, rules)
  {
    SortKeepsDisjoint(bundles);
    DisjointSavings(SortBundles(bundles), lines, rules, {});
    MapPermuted(SavingBy(lines, rules), SortBundles(bundles), bundles);
    SumPermuted(Map(SavingBy(lines, rules), SortBundles(bundles)), Map(SavingBy(lines, rules), bundles));
  }

  /** Reordering disjoint bundles never changes the subtotal. */
  lemma SubtotalOrderIndependent(a: seq<BundleCandidate>, b: seq<BundleCandidate>, lines: seq<Line>,
                                 rules: seq<ComboRule>)
    requires Permuted(a, b) && Disjoint(a) && Disjoint(b)
    ensures Subtotal(a, lines, rules) == Subtotal(b, lines, rules)
  {
    SubtotalOfDisjoint(a, lines, rules);
    SubtotalOfDisjoint(b, lines, rules);
    MapPermuted(SavingBy(lines, rules), a, b);
    SumPermuted(Map(SavingBy(lines, rules), a), Map(SavingBy(lines, rules), b));
  }

  // --- The selected plan is the cheapest --------------------------------------------

  /** A choice of instance counts: none, or as many as fit of a recipe within its bounds. */
  ghost predicate FeasibleChoice(b: BundleCandidate, lines: seq<Line>, n: int)
    requires Recipe(b)
  {
    || n == 0
    || (n >= 1 && Buildable(b, lines)
        && InBounds(b.priceCents, BundleItems(b, lines)) && Fits(BundleItems(b, lines), n))
  }

  ghost function ChoiceSaving(b: BundleCandidate, lines: seq<Line>, rules: seq<ComboRule>, n: int): int
    requires Recipe(b) && FeasibleChoice(b, lines, n)
  {
    if n == 0 then 0 else BundleOrdinary(b, lines, rules) - BundlePlanCents(b, lines, n)
  }

  lemma ChoiceNeverBeatsSaving(b: BundleCandidate, lines: seq<Line>, rules: seq<ComboRule>, n: int)
    requires Recipe(b) && Cart(lines) && FeasibleChoice(b, lines, n)
    ensures ChoiceSaving(b, lines, rules, n) <= Saving(b, lines, rules)
  {
    if n != 0 {
      ItemsWellformed(b, lines);
      assert forall i :: 0 <= i < |b.components| ==> b.components[i] in b.components;
      var items := BundleItems(b, lines);
      BestPlan(items, n, b.priceCents);
      InstancesAreLargest(items, n);
    }
  }

  ghost predicate FeasibleChoices(bundles: seq<BundleCandidate>, lines: seq<Line>, ns: seq<int>)
    requires Recipes(bundles)
  {
    |ns| == |bundles| && forall i :: 0 <= i < |bundles| ==> FeasibleChoice(bundles[i], lines, ns[i])
  }

  ghost function ChoicesSaving(bundles: seq<BundleCandidate>, lines: seq<Line>, rules: seq<ComboRule>,
                               ns: seq<int>): int
    requires Recipes(bundles) && FeasibleChoices(bundles, lines, ns)
  {
    if bundles == [] then 0
    else
      assert forall b :: b in bundles[1..] ==> b in bundles;
      assert forall i :: 0 <= i < |bundles[1..]| ==> bundles[1..][i] == bundles[i + 1] && ns[1..][i] == ns[i + 1];
      ChoiceSaving(bundles[0], lines, rules, ns[0]) + ChoicesSaving(bundles[1..], lines, rules, ns[1..])
  }

  lemma {:induction false} ChoicesNeverBeatSavings(bundles: seq<BundleCandidate>, lines: seq<Line>,
                                                   rules: seq<ComboRule>, ns: seq<int>)
    requires Recipes(bundles) && Cart(lines) && FeasibleChoices(bundles, lines, ns)
    ensures ChoicesSaving(bundles, lines, rules, ns) <= Savings(bundles, lines, rules)
  {
    if bundles != [] {
      assert bundles == [bundles[0]] + bundles[1..];
      SavingsCons(bundles[0], bundles[1..], lines, rules);
      ChoiceNeverBeatsSaving(bundles[0], lines, rules, ns[0]);
      ChoicesNeverBeatSavings(bundles[1..], lines, rules, ns[1..]);
    }
  }

  /** The counts the engine ends up using. */
  ghost function EngineCount(b: BundleCandidate, lines: seq<Line>, rules: seq<ComboRule>): int {
    if PositiveNeeds(b) && Qualifies(b, lines, rules) then InstanceCount(b, lines) else 0
  }

  lemma {:induction false} EngineChoices(bundles: seq<BundleCandidate>, lines: seq<Line>, rules: seq<ComboRule>)
    returns (ns: seq<int>)
    requires Recipes(bundles) && Cart(lines)
    ensures FeasibleChoices(bundles, lines, ns)
    ensures ChoicesSaving(bundles, lines, rules, ns) == Savings(bundles, lines, rules)
  {
    ns := [];
    if bundles != [] {
      var b := bundles[0];
      assert bundles == [b] + bundles[1..];
      SavingsCons(b, bundles[1..], lines, rules);
      var tail := EngineChoices(bundles[1..], lines, rules);
      var n := EngineCount(b, lines, rules);
      if n != 0 {
        ItemsWellformed(b, lines);
        InstancesAreLargest(BundleItems(b, lines), n);
      }
      ns := [n] + tail;
      assert ns[1..] == tail;
    }
  }

  /** The subtotal is the least over all choices of instance counts for the recipes
      within their price bounds, and some choice attains it. */
  lemma SubtotalIsOptimal(bundles: seq<BundleCandidate>, lines: seq<Line>, rules: seq<ComboRule>)
    requires Recipes(bundles) && Disjoint(bundles) && Cart(lines)
    ensures forall ns :: FeasibleChoices(bundles, lines, ns) ==>
      Subtotal(bundles, lines, rules) <= OrdinarySubtotal(lines, rules) - ChoicesSaving(bundles, lines, rules, ns)
    ensures exists ns ::
      FeasibleChoices(bundles, lines, ns)
      && Subtotal(bundles, lines, rules) == OrdinarySubtotal(lines, rules) - ChoicesSaving(bundles, lines, rules, ns)
  {
    SubtotalOfDisjoint(bundles, lines, rules);
    forall ns | FeasibleChoices(bundles, lines, ns)
      ensures Subtotal(bundles, lines, rules)
        <= OrdinarySubtotal(lines, rules) - ChoicesSaving(bundles, lines, rules, ns)
    {
      ChoicesNeverBeatSavings(bundles, lines, rules, ns);
    }
    var ns := EngineChoices(bundles, lines, rules);
  }
}
