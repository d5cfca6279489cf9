/** Where every cent of every unit goes once bundle plans are applied
    (backend/src/lib/bundle-pricing.ts:39-91), as values. */
module Placements {
  import opened Common
  import opened BundleMath
  import opened AllocateCents
  import opened VolumePricing
  import opened BundlePricing

  /** Unit prices, and for lines in a bundle the identity of every unit, by line id. */
  datatype Placement = Placement(units: map<int, seq<int>>, identities: map<int, seq<BundleUnit>>)

  function InsertPart(p: Part, s: seq<Part>): (r: seq<Part>)
    ensures multiset(r) == multiset{p} + multiset(s)
  {
    if s == [] || p.variantID <= s[0].variantID then [p] + s
    else
      assert s == [s[0]] + s[1..];
      [s[0]] + InsertPart(p, s[1..])
  }

  /** `[...components].sort((a, b) => a.variantID.localeCompare(b.variantID))` */
  function SortParts(s: seq<Part>): (r: seq<Part>)
    ensures multiset(r) == multiset(s)
  {
    if s == [] then []
    else
      assert s == [s[0]] + s[1..];
      InsertPart(s[0], SortParts(s[1..]))
  }

  /** One individual price for each unit of one instance, in component order. */
  function UnitWeights(parts: seq<Part>): seq<int> {
    if parts == [] then [] else Fill(Max(0, parts[0].quantity), parts[0].line.individualCents) + UnitWeights(parts[1..])
  }

  /** `count` copies of one instance's unit prices. */
  function Repeat(perInstance: seq<int>, count: nat): seq<int> {
    if count == 0 then [] else perInstance + Repeat(perInstance, count - 1)
  }

  function InstanceTags(bundleID: int, quantity: nat, first: nat, count: nat): seq<BundleUnit>
    decreases count
  {
    if count == 0 then []
    else Fill(quantity, InBundle(bundleID, first)) + InstanceTags(bundleID, quantity, first + 1, count - 1)
  }

  function SurplusUnits(p: Part, count: nat): nat { Max(0, p.line.quantity - Times(count, p.quantity)) }

  function PartUnits(p: Part, perInstance: seq<int>, count: nat): seq<int> {
    Repeat(perInstance, count) + Fill(SurplusUnits(p, count), p.line.individualCents)
  }

  function PartTags(bundleID: int, p: Part, count: nat): seq<BundleUnit> {
    InstanceTags(bundleID, Max(0, p.quantity), 0, count) + Fill(SurplusUnits(p, count), Surplus(bundleID))
  }

  function PlaceLine(at: Placement, lineId: int, units: seq<int>, tags: seq<BundleUnit>): Placement {
    Placement(at.units[lineId := units], at.identities[lineId := tags])
  }

  ghost predicate Covers(parts: seq<Part>, shares: seq<int>) {
    (forall i :: 0 <= i < |parts| ==> parts[i].quantity >= 1) && |shares| == |UnitWeights(parts)|
  }

  lemma CoversNext(parts: seq<Part>, shares: seq<int>)
    requires Covers(parts, shares) && parts != []
    ensures parts[0].quantity <= |shares| && Covers(parts[1..], shares[parts[0].quantity..])
  {
  }

  /** Lines of one bundle take over, component by component, slices of one instance's split. */
  function PlaceParts(at: Placement, bundleID: int, count: nat, parts: seq<Part>, shares: seq<int>): Placement
    requires Covers(parts, shares)
    decreases parts
  {
    if parts == [] then at
    else
      CoversNext(parts, shares);
      var p := parts[0];
      var placed := PlaceLine(at, p.line.lineId, PartUnits(p, shares[..p.quantity], count),
        PartTags(bundleID, p, count));
      PlaceParts(placed, bundleID, count, parts[1..], shares[p.quantity..])
  }

  function Ordered(b: BundleCandidate, lines: seq<Line>): seq<Part>
    requires Buildable(b, lines)
  {
    SortParts(PartsOf(b.components, lines))
  }

  /** A bundle that can be applied: it qualifies against this cart. */
  ghost predicate Applicable(b: BundleCandidate, lines: seq<Line>, rules: seq<ComboRule>) {
    Recipe(b) && PositiveNeeds(b) && Qualifies(b, lines, rules)
  }

  // --- Sorting components changes no amount ------------------------------------------

  lemma SortPartsAmounts(s: seq<Part>, n: int, rules: seq<ComboRule>)
    ensures FullCents(ItemsOf(SortParts(s))) == FullCents(ItemsOf(s))
    ensures SurplusCents(ItemsOf(SortParts(s)), n) == SurplusCents(ItemsOf(s), n)
    ensures OrdinaryPartsCents(SortParts(s), rules) == OrdinaryPartsCents(s, rules)
  {
    var r, f, g := SortParts(s), PartTotalBy(rules), (p: Part) => ItemOf(p);
    MapPermuted(g, r, s);
    assert Map(g, r) == ItemsOf(r) && Map(g, s) == ItemsOf(s);
    AmountsPermuted(ItemsOf(r), ItemsOf(s), n);
    MapPermuted(f, r, s);
    SumPermuted(Map(f, r), Map(f, s));
  }

  lemma {:induction false} WeightsSum(parts: seq<Part>)
    requires forall i :: 0 <= i < |parts| ==> parts[i].quantity >= 0
    ensures Sum(UnitWeights(parts)) == FullCents(ItemsOf(parts))
  {
    if parts != [] {
      WeightsSum(parts[1..]);
      SumFill(parts[0].quantity, parts[0].line.individualCents);
      SumAppend(Fill(parts[0].quantity, parts[0].line.individualCents), UnitWeights(parts[1..]));
      assert ItemsOf(parts)[1..] == ItemsOf(parts[1..]);
    }
  }

  lemma {:induction false} WeightsNonNegative(parts: seq<Part>)
    requires forall i :: 0 <= i < |parts| ==> parts[i].quantity >= 0 && parts[i].line.individualCents >= 0
    ensures AllNonNegative(UnitWeights(parts))
  {
    if parts != [] { WeightsNonNegative(parts[1..]); }
  }

  lemma {:induction false} FullAtLeastCheapest(items: seq<Item>)
    requires Wellformed(items)
    ensures FullCents(items) >= CheapestCents(items)
  {
    MulOrder(1, items[0].need, items[0].price);
    if |items| > 1 { FullAtLeastCheapest(items[1..]); }
  }

  /** Facts about the components of a bundle that qualifies. */
  lemma OrderedFacts(b: BundleCandidate, lines: seq<Line>, rules: seq<ComboRule>)
    requires Applicable(b, lines, rules) && Cart(lines)
    ensures var parts := Ordered(b, lines);
      && |parts| == |b.components| >= 2
      && (forall i :: 0 <= i < |parts| ==>
        parts[i].quantity >= 1 && parts[i].line in lines && parts[i].line.variantID == parts[i].variantID)
      && (forall p :: p in parts <==> p in PartsOf(b.components, lines))
      && (forall v :: v in Variants(b) <==> exists i :: 0 <= i < |parts| && parts[i].variantID == v)
  {
    var unsorted, parts := PartsOf(b.components, lines), Ordered(b, lines);
    SameElements(parts, unsorted);
    forall i | 0 <= i < |parts|
      ensures parts[i].quantity >= 1 && parts[i].line in lines && parts[i].line.variantID == parts[i].variantID
    {
      assert parts[i] in unsorted;
    }
    forall v | v in Variants(b) ensures exists i :: 0 <= i < |parts| && parts[i].variantID == v {
      var c :| c in b.components && c.variantID == v;
      var k :| 0 <= k < |b.components| && b.components[k] == c;
      assert unsorted[k] in parts;
    }
    forall i | 0 <= i < |parts| ensures parts[i].variantID in Variants(b) {
      assert parts[i] in unsorted;
      var k :| 0 <= k < |unsorted| && unsorted[k] == parts[i];
      assert b.components[k] in b.components;
    }
  }

  /** The bundle price is always splittable over the units of one instance. */
  lemma SplitWorks(b: BundleCandidate, lines: seq<Line>, rules: seq<ComboRule>)
    requires Applicable(b, lines, rules) && Cart(lines)
    ensures var parts := Ordered(b, lines);
      var split := Allocate(b.priceCents, UnitWeights(parts));
      split.Ok? && Covers(parts, split.value) && Sum(split.value) == b.priceCents
      && b.priceCents < Sum(UnitWeights(parts))
  {
    OrderedFacts(b, lines, rules);
    var parts := Ordered(b, lines);
    ItemsWellformed(b, lines);
    FullAtLeastCheapest(BundleItems(b, lines));
    SortPartsAmounts(PartsOf(b.components, lines), 0, rules);
    WeightsSum(parts);
    WeightsNonNegative(parts);
    assert |UnitWeights(parts)| >= parts[0].quantity;
    AllocationExact(b.priceCents, UnitWeights(parts));
  }

  function Split(b: BundleCandidate, lines: seq<Line>): seq<int>
    requires Buildable(b, lines) && Allocate(b.priceCents, UnitWeights(Ordered(b, lines))).Ok?
  {
    Allocate(b.priceCents, UnitWeights(Ordered(b, lines))).value
  }

  function PlaceBundle(at: Placement, b: BundleCandidate, lines: seq<Line>, ghost rules: seq<ComboRule>): Placement
    requires Applicable(b, lines, rules) && Cart(lines)
  {
    SplitWorks(b, lines, rules);
    InstancesNonNegative(b, lines);
    PlaceParts(at, b.id, InstanceCount(b, lines), Ordered(b, lines), Split(b, lines))
  }

  lemma InstancesNonNegative(b: BundleCandidate, lines: seq<Line>)
    requires Recipe(b) && PositiveNeeds(b) && Buildable(b, lines) && Cart(lines)
    ensures InstanceCount(b, lines) >= 0
  {
    ItemsWellformed(b, lines);
    InstancesAreLargest(BundleItems(b, lines), 0);
  }

  ghost predicate AllApplicable(bs: seq<BundleCandidate>, lines: seq<Line>, rules: seq<ComboRule>) {
    forall i :: 0 <= i < |bs| ==> Applicable(bs[i], lines, rules)
  }

  function PlaceAll(at: Placement, bs: seq<BundleCandidate>, lines: seq<Line>, ghost rules: seq<ComboRule>): Placement
    requires AllApplicable(bs, lines, rules) && Cart(lines)
  {
    if bs == [] then at
    else PlaceBundle(PlaceAll(at, bs[..|bs| - 1], lines, rules), bs[|bs| - 1], lines, rules)
  }

  function LineById(lines: seq<Line>, id: int): Line
    requires id in LineIds(lines)
  {
    if lines[0].lineId == id then lines[0]
    else
      assert LineIds(lines)[1..] == LineIds(lines[1..]);
      LineById(lines[1..], id)
  }

  lemma {:induction false} LineByIdFinds(lines: seq<Line>, i: int)
    requires Distinct(LineIds(lines)) && 0 <= i < |lines|
    ensures LineIds(lines)[i] == lines[i].lineId && LineById(lines, lines[i].lineId) == lines[i]
  {
    assert LineIds(lines)[i] == lines[i].lineId;
    if i > 0 {
      assert LineIds(lines)[1..] == LineIds(lines[1..]);
      assert LineIds(lines)[0] != LineIds(lines)[i];
      LineByIdFinds(lines[1..], i - 1);
    }
  }

  function ByLine<V>(lines: seq<Line>, f: Line -> V): map<int, V> {
    map id | id in LineIds(lines) :: f(LineById(lines, id))
  }

  /** Ordinary pricing as a placement. */
  function Base(lines: seq<Line>, rules: seq<ComboRule>): Placement {
    Placement(ByLine(lines, UnitsBy(rules)), map[])
  }

  /** The whole answer as a value: ordinary pricing overlaid with the chosen bundles. */
  function Placed(bundles: seq<BundleCandidate>, lines: seq<Line>, rules: seq<ComboRule>): Placement
    requires Recipes(bundles) && Cart(lines)
  {
    ChosenApplicable(bundles, lines, rules);
    PlaceAll(Base(lines, rules), Chosen(bundles, lines, rules), lines, rules)
  }

  lemma ChosenApplicable(bundles: seq<BundleCandidate>, lines: seq<Line>, rules: seq<ComboRule>)
    requires Recipes(bundles)
    ensures AllApplicable(Chosen(bundles, lines, rules), lines, rules) && Disjoint(Chosen(bundles, lines, rules))
    ensures forall b :: b in Chosen(bundles, lines, rules) ==> b in bundles
  {
    SelectedAreDisjoint(SortBundles(bundles), lines, rules, {});
    SameElements(SortBundles(bundles), bundles);
    var chosen := Chosen(bundles, lines, rules);
    forall i | 0 <= i < |chosen| ensures Applicable(chosen[i], lines, rules) { assert chosen[i] in chosen; }
  }
}
