/** What a bundle does to a cart, unit by unit, as a customer could check it
    (backend/src/lib/bundle-pricing.ts:45-82): which bundles apply, what each unit of their lines
    costs, and what is recorded. */
module BundledUnits {
  import opened Common
  import LargestRemainder
  import opened AllocateCents
  import opened BundleMath
  import opened VolumePricing
  import opened BundlePricing
  import opened Placements
  import opened Ledger
  import opened CartLedger
  import opened PriceMerchandise

  // --- Slices of one split ---------------------------------------------------------------------

  lemma {:induction false} SliceAt(parts: seq<Part>, shares: seq<int>, i: nat, k: nat)
    requires Covers(parts, shares) && i < |parts| && k < parts[i].quantity
    ensures |Slice(parts, shares, i)| == parts[i].quantity
    ensures 0 <= OffsetOf(parts, i) && OffsetOf(parts, i) + k < |shares|
    ensures Slice(parts, shares, i)[k] == shares[OffsetOf(parts, i) + k]
    ensures UnitWeights(parts)[OffsetOf(parts, i) + k] == parts[i].line.individualCents
    decreases parts
  {
    CoversNext(parts, shares);
    if i > 0 { SliceAt(parts[1..], shares[parts[0].quantity..], i - 1, k); }
  }

  lemma {:induction false} OffsetsGrow(parts: seq<Part>, i: nat, j: nat)
    requires i < j <= |parts| && forall k :: 0 <= k < |parts| ==> parts[k].quantity >= 1
    ensures OffsetOf(parts, i) + parts[i].quantity <= OffsetOf(parts, j)
  {
    OffsetNext(parts, j - 1);
    if i < j - 1 { OffsetsGrow(parts, i, j - 1); }
  }

  ghost predicate Ascending(parts: seq<Part>) {
    forall i, j :: 0 <= i < j < |parts| ==> parts[i].variantID <= parts[j].variantID
  }

  lemma {:induction false} InsertAscends(p: Part, s: seq<Part>)
    requires Ascending(s)
    ensures Ascending(InsertPart(p, s))
  {
    if s != [] && !(p.variantID <= s[0].variantID) {
      InsertAscends(p, s[1..]);
      var r := InsertPart(p, s[1..]);
      SameElements(r, [p] + s[1..]);
      forall x | x in r ensures s[0].variantID <= x.variantID { assert x in [p] + s[1..]; }
    }
  }

  lemma {:induction false} SortAscends(s: seq<Part>)
    ensures Ascending(SortParts(s))
  {
    if s != [] {
      SortAscends(s[1..]);
      InsertAscends(s[0], SortParts(s[1..]));
    }
  }

  /** The components in order: by SKU, each SKU once. */
  lemma OrderedAscends(b: BundleCandidate, lines: seq<Line>, rules: seq<ComboRule>, i: nat, j: nat)
    requires Applicable(b, lines, rules) && Cart(lines) && i < j < |Ordered(b, lines)|
    ensures Ordered(b, lines)[i].variantID < Ordered(b, lines)[j].variantID
  {
    var parts := Ordered(b, lines);
    SortAscends(PartsOf(b.components, lines));
    OrderedDistinct(b, lines, rules);
    OrderedFacts(b, lines, rules);
    SameLine(lines, parts[i].line, parts[j].line);
  }

  // --- Repetition ------------------------------------------------------------------------------

  lemma DivStep(k: int, q: int)
    requires k >= q >= 1
    ensures (k - q) / q == k / q - 1 && (k - q) % q == k % q
  {
    var d, m := k / q, k % q;
    assert k == d * q + m;
    assert k - q == (d - 1) * q + m;
    FloorIsLargest(d - 1, k - q, q);
    FloorIsLargest(d, k - q, q);
  }

  lemma {:induction false} RepeatAt(s: seq<int>, count: nat, k: nat)
    requires s != [] && k < |Repeat(s, count)|
    ensures Repeat(s, count)[k] == s[k % |s|]
  {
    if k >= |s| {
      DivStep(k, |s|);
      RepeatAt(s, count - 1, k - |s|);
    }
  }

  lemma {:induction false} InstanceTagsAt(bundleID: int, quantity: nat, first: nat, count: nat, k: nat)
    requires quantity >= 1 && k < |InstanceTags(bundleID, quantity, first, count)|
    ensures InstanceTags(bundleID, quantity, first, count)[k] == InBundle(bundleID, first + k / quantity)
    decreases count
  {
    if k >= quantity {
      DivStep(k, quantity);
      InstanceTagsAt(bundleID, quantity, first + 1, count - 1, k - quantity);
    }
  }

  // --- One unit --------------------------------------------------------------------------------

  /** Unit `k` of a component: in instance `k / q` and priced as its fellow of the first instance, or
      beyond the instances and at its own price. */
  ghost predicate UnitStands(units: seq<int>, tags: seq<BundleUnit>, bundleID: int, q: int, n: int, own: int, k: nat)
    requires |units| == |tags| && k < |units| && q >= 1
  {
    if k < n * q then tags[k] == InBundle(bundleID, k / q) && k % q < |units| && units[k] == units[k % q]
    else tags[k] == Surplus(bundleID) && units[k] == own
  }

  lemma PartUnitStands(bundleID: int, p: Part, s: seq<int>, count: nat, k: nat)
    requires |s| == p.quantity >= 1 && count >= 1 && count * p.quantity <= p.line.quantity && k < p.line.quantity
    ensures |PartUnits(p, s, count)| == p.line.quantity == |PartTags(bundleID, p, count)|
    ensures k < p.quantity ==> PartUnits(p, s, count)[k] == s[k]
    ensures UnitStands(PartUnits(p, s, count), PartTags(bundleID, p, count), bundleID, p.quantity, count,
      p.line.individualCents, k)
  {
    PartAmounts(bundleID, p, s, count, 0, 0);
    TimesIs(count, p.quantity);
    RepeatSum(s, count);
    TagsLength(bundleID, p.quantity, 0, count);
    MulOrder(1, count, p.quantity);
    if k < count * p.quantity {
      RepeatAt(s, count, k);
      RepeatAt(s, count, k % p.quantity);
      InstanceTagsAt(bundleID, p.quantity, 0, count, k);
    }
  }

  // --- What a bundled line costs ---------------------------------------------------------------

  /** What one recipe costs at individual prices. */
  function RecipeCents(b: BundleCandidate, lines: seq<Line>): int
    requires Buildable(b, lines)
  {
    FullCents(BundleItems(b, lines))
  }

  /** A line of the cart and the component of an applied bundle that takes it. */
  ghost predicate Takes(bundles: seq<BundleCandidate>, lines: seq<Line>, rules: seq<ComboRule>, b: BundleCandidate,
                        c: Component, l: Line)
    requires Recipes(bundles) && Cart(lines)
  {
    b in Chosen(bundles, lines, rules) && c in b.components && l in lines && c.variantID == l.variantID
  }

  /** Where a taken line stands among the sorted components. */
  lemma PartFor(bundles: seq<BundleCandidate>, lines: seq<Line>, rules: seq<ComboRule>, b: BundleCandidate,
                c: Component, l: Line) returns (i: nat)
    requires Recipes(bundles) && Cart(lines) && Takes(bundles, lines, rules, b, c, l)
    ensures Applicable(b, lines, rules) && i < |Ordered(b, lines)|
    ensures Ordered(b, lines)[i] == Part(c.variantID, c.quantity, l)
    ensures Allocate(b.priceCents, UnitWeights(Ordered(b, lines))).Ok? && Covers(Ordered(b, lines), Split(b, lines))
    ensures InstanceCount(b, lines) >= 1
    ensures var placed, slice := Placed(bundles, lines, rules), Slice(Ordered(b, lines), Split(b, lines), i);
      && l.lineId in placed.units && l.lineId in placed.identities
      && placed.units[l.lineId] == PartUnits(Ordered(b, lines)[i], slice, InstanceCount(b, lines))
      && placed.identities[l.lineId] == PartTags(b.id, Ordered(b, lines)[i], InstanceCount(b, lines))
  {
    var chosen := Chosen(bundles, lines, rules);
    ChosenApplicable(bundles, lines, rules);
    var k :| 0 <= k < |chosen| && chosen[k] == b;
    BundlesStay(chosen, lines, rules, k);
    BundleReady(b, lines, rules);
    i := PartAt(b, lines, rules, c, l);
  }

  lemma PartAt(b: BundleCandidate, lines: seq<Line>, rules: seq<ComboRule>, c: Component, l: Line) returns (i: nat)
    requires Applicable(b, lines, rules) && Cart(lines)
    requires c in b.components && l in lines && c.variantID == l.variantID
    ensures i < |Ordered(b, lines)| && Ordered(b, lines)[i] == Part(c.variantID, c.quantity, l)
  {
    var unsorted, parts := PartsOf(b.components, lines), Ordered(b, lines);
    OrderedFacts(b, lines, rules);
    var k :| 0 <= k < |b.components| && b.components[k] == c;
    assert unsorted[k] in parts;
    i :| 0 <= i < |parts| && parts[i] == unsorted[k];
    SameLine(lines, parts[i].line, l);
  }

  /** The line is long enough for the instances. */
  lemma CountFitsLine(b: BundleCandidate, lines: seq<Line>, rules: seq<ComboRule>, i: nat)
    requires Applicable(b, lines, rules) && Cart(lines) && i < |Ordered(b, lines)|
    ensures var p, n := Ordered(b, lines)[i], InstanceCount(b, lines);
      n >= 1 && 1 <= p.quantity <= n * p.quantity <= p.line.quantity
  {
    OrderedCountFits(b, lines, rules);
    OrderedFacts(b, lines, rules);
    MulOrder(1, InstanceCount(b, lines), Ordered(b, lines)[i].quantity);
  }

  /** The split of one instance, at one unit. */
  lemma ShareOfUnit(b: BundleCandidate, lines: seq<Line>, rules: seq<ComboRule>, i: nat, k: nat)
    requires Applicable(b, lines, rules) && Cart(lines)
    requires i < |Ordered(b, lines)| && k < Ordered(b, lines)[i].quantity
    requires Allocate(b.priceCents, UnitWeights(Ordered(b, lines))).Ok? && Covers(Ordered(b, lines), Split(b, lines))
    ensures RecipeCents(b, lines) > 0
    ensures |Slice(Ordered(b, lines), Split(b, lines), i)| == Ordered(b, lines)[i].quantity
    ensures RoundsQuota(b.priceCents * Ordered(b, lines)[i].line.individualCents, RecipeCents(b, lines),
      Slice(Ordered(b, lines), Split(b, lines), i)[k])
  {
    var parts := Ordered(b, lines);
    SliceAt(parts, Split(b, lines), i, k);
    FullPositive(b, lines, rules);
    AllocationRounds(b.priceCents, UnitWeights(parts), OffsetOf(parts, i) + k);
  }

  lemma FullPositive(b: BundleCandidate, lines: seq<Line>, rules: seq<ComboRule>)
    requires Applicable(b, lines, rules) && Cart(lines)
    ensures Sum(UnitWeights(Ordered(b, lines))) == RecipeCents(b, lines) > 0
    ensures RecipeCents(b, lines) > b.priceCents
  {
    OrderedFacts(b, lines, rules);
    WeightsSum(Ordered(b, lines));
    SortPartsAmounts(PartsOf(b.components, lines), 0, rules);
    SplitWorks(b, lines, rules);
    AllocationRefusal(b.priceCents, UnitWeights(Ordered(b, lines)));
  }

  /** Every unit of a line in a bundle: in its instance at the bundle price's share of its own price,
      rounded down or up and exact where that is whole, alike in every instance; the units left over
      at their own price. */
  lemma BundledLine(bundles: seq<BundleCandidate>, lines: seq<Line>, rules: seq<ComboRule>, b: BundleCandidate,
                    c: Component, l: Line, k: nat)
    requires Recipes(bundles) && Cart(lines) && Takes(bundles, lines, rules, b, c, l) && k < l.quantity
    ensures PositiveNeeds(b) && Buildable(b, lines)
    ensures var n, placed := InstanceCount(b, lines), Placed(bundles, lines, rules);
      && n >= 1 && 1 <= c.quantity <= n * c.quantity <= l.quantity
      && l.lineId in placed.units && l.lineId in placed.identities
      && |placed.units[l.lineId]| == |placed.identities[l.lineId]| == l.quantity
      && UnitStands(placed.units[l.lineId], placed.identities[l.lineId], b.id, c.quantity, n, l.individualCents, k)
      && (k < n * c.quantity ==>
        RoundsQuota(b.priceCents * l.individualCents, RecipeCents(b, lines), placed.units[l.lineId][k]))
  {
    var i := PartFor(bundles, lines, rules, b, c, l);
    var parts, n := Ordered(b, lines), InstanceCount(b, lines);
    var slice := Slice(parts, Split(b, lines), i);
    CountFitsLine(b, lines, rules, i);
    SliceFits(parts, Split(b, lines), i);
    PartUnitStands(b.id, parts[i], slice, n, k);
    if k < n * c.quantity {
      PartUnitStands(b.id, parts[i], slice, n, k % c.quantity);
      ShareOfUnit(b, lines, rules, i, k % c.quantity);
    }
  }

  /** Of two units of one instance, one with the extra cent and one without, the first has the larger
      remainder, or an equal one and the smaller SKU or the earlier place in the line. */
  lemma ExtraCentGoesFirst(bundles: seq<BundleCandidate>, lines: seq<Line>, rules: seq<ComboRule>, b: BundleCandidate,
                           c1: Component, l1: Line, k1: nat, c2: Component, l2: Line, k2: nat)
    requires Recipes(bundles) && Cart(lines)
    requires Takes(bundles, lines, rules, b, c1, l1) && Takes(bundles, lines, rules, b, c2, l2)
    requires k1 < c1.quantity && k2 < c2.quantity
    ensures Buildable(b, lines) && RecipeCents(b, lines) > 0
    ensures var units := Placed(bundles, lines, rules).units;
      && l1.lineId in units && k1 < |units[l1.lineId]| && l2.lineId in units && k2 < |units[l2.lineId]|
      && (ExtraCent(b, lines, l1, units[l1.lineId][k1]) && !ExtraCent(b, lines, l2, units[l2.lineId][k2]) ==>
        GoesBefore(b, lines, l1, k1, l2, k2))
  {
    var i := FirstInstance(bundles, lines, rules, b, c1, l1, k1);
    var j := FirstInstance(bundles, lines, rules, b, c2, l2, k2);
    FullPositive(b, lines, rules);
    SplitOrder(b, lines, rules, i, k1, j, k2);
  }

  /** A unit got one cent more than its share rounded down. */
  ghost predicate ExtraCent(b: BundleCandidate, lines: seq<Line>, l: Line, cents: int)
    requires Buildable(b, lines) && RecipeCents(b, lines) > 0
  {
    cents == b.priceCents * l.individualCents / RecipeCents(b, lines) + 1
  }

  ghost predicate GoesBefore(b: BundleCandidate, lines: seq<Line>, l1: Line, k1: nat, l2: Line, k2: nat)
    requires Buildable(b, lines) && RecipeCents(b, lines) > 0
  {
    var r1 := b.priceCents * l1.individualCents % RecipeCents(b, lines);
    var r2 := b.priceCents * l2.individualCents % RecipeCents(b, lines);
    r1 > r2 || (r1 == r2 && (l1.variantID < l2.variantID || (l1 == l2 && k1 < k2)))
  }

  /** A unit of the first instance holds its share of the split. */
  lemma FirstInstance(bundles: seq<BundleCandidate>, lines: seq<Line>, rules: seq<ComboRule>, b: BundleCandidate,
                      c: Component, l: Line, k: nat) returns (i: nat)
    requires Recipes(bundles) && Cart(lines) && Takes(bundles, lines, rules, b, c, l) && k < c.quantity
    ensures Applicable(b, lines, rules) && i < |Ordered(b, lines)|
    ensures Ordered(b, lines)[i] == Part(c.variantID, c.quantity, l)
    ensures Allocate(b.priceCents, UnitWeights(Ordered(b, lines))).Ok? && Covers(Ordered(b, lines), Split(b, lines))
    ensures |Slice(Ordered(b, lines), Split(b, lines), i)| == c.quantity
    ensures var units := Placed(bundles, lines, rules).units;
      && l.lineId in units && k < |units[l.lineId]|
      && units[l.lineId][k] == Slice(Ordered(b, lines), Split(b, lines), i)[k]
  {
    i := PartFor(bundles, lines, rules, b, c, l);
    var parts := Ordered(b, lines);
    CountFitsLine(b, lines, rules, i);
    SliceFits(parts, Split(b, lines), i);
    FirstUnits(parts[i], Slice(parts, Split(b, lines), i), InstanceCount(b, lines));
  }

  lemma FirstUnits(p: Part, s: seq<int>, count: nat)
    requires count >= 1
    ensures |s| <= |PartUnits(p, s, count)| && PartUnits(p, s, count)[..|s|] == s
  {
  }

  /** Where a unit of one instance stands in the split. */
  lemma UnitOfSlice(b: BundleCandidate, lines: seq<Line>, rules: seq<ComboRule>, i: nat, k: nat) returns (o: nat)
    requires Applicable(b, lines, rules) && Cart(lines) && i < |Ordered(b, lines)|
    requires k < Ordered(b, lines)[i].quantity
    requires Allocate(b.priceCents, UnitWeights(Ordered(b, lines))).Ok? && Covers(Ordered(b, lines), Split(b, lines))
    ensures |Slice(Ordered(b, lines), Split(b, lines), i)| == Ordered(b, lines)[i].quantity
    ensures o == OffsetOf(Ordered(b, lines), i) + k && o < |UnitWeights(Ordered(b, lines))| == |Split(b, lines)|
    ensures Split(b, lines)[o] == Slice(Ordered(b, lines), Split(b, lines), i)[k]
    ensures UnitWeights(Ordered(b, lines))[o] == Ordered(b, lines)[i].line.individualCents
  {
    SliceAt(Ordered(b, lines), Split(b, lines), i, k);
    o := OffsetOf(Ordered(b, lines), i) + k;
  }

  lemma SplitOrder(b: BundleCandidate, lines: seq<Line>, rules: seq<ComboRule>, i: nat, k1: nat, j: nat, k2: nat)
    requires Applicable(b, lines, rules) && Cart(lines) && i < |Ordered(b, lines)| && j < |Ordered(b, lines)|
    requires k1 < Ordered(b, lines)[i].quantity && k2 < Ordered(b, lines)[j].quantity
    requires Allocate(b.priceCents, UnitWeights(Ordered(b, lines))).Ok? && Covers(Ordered(b, lines), Split(b, lines))
    requires |Slice(Ordered(b, lines), Split(b, lines), i)| == Ordered(b, lines)[i].quantity
    requires |Slice(Ordered(b, lines), Split(b, lines), j)| == Ordered(b, lines)[j].quantity
    requires RecipeCents(b, lines) > 0
    ensures ExtraCent(b, lines, Ordered(b, lines)[i].line, Slice(Ordered(b, lines), Split(b, lines), i)[k1])
      && !ExtraCent(b, lines, Ordered(b, lines)[j].line, Slice(Ordered(b, lines), Split(b, lines), j)[k2])
      ==> GoesBefore(b, lines, Ordered(b, lines)[i].line, k1, Ordered(b, lines)[j].line, k2)
  {
    var o1 := UnitOfSlice(b, lines, rules, i, k1);
    var o2 := UnitOfSlice(b, lines, rules, j, k2);
    PlaceOrder(b, lines, rules, i, k1, j, k2);
    PositionOrder(b, lines, rules, o1, Ordered(b, lines)[i].line, k1, o2, Ordered(b, lines)[j].line, k2);
  }

  /** Of two places in the split, one topped up and one not, the first goes before the second. */
  lemma PositionOrder(b: BundleCandidate, lines: seq<Line>, rules: seq<ComboRule>, o1: nat, l1: Line, k1: nat, o2: nat,
                      l2: Line, k2: nat)
    requires Applicable(b, lines, rules) && Cart(lines) && RecipeCents(b, lines) > 0
    requires Allocate(b.priceCents, UnitWeights(Ordered(b, lines))).Ok?
    requires o1 < |UnitWeights(Ordered(b, lines))| == |Split(b, lines)| && o2 < |UnitWeights(Ordered(b, lines))|
    requires l1.individualCents == UnitWeights(Ordered(b, lines))[o1]
    requires l2.individualCents == UnitWeights(Ordered(b, lines))[o2]
    requires o1 < o2 ==> l1.variantID < l2.variantID || (l1 == l2 && k1 < k2)
    ensures ExtraCent(b, lines, l1, Split(b, lines)[o1]) && !ExtraCent(b, lines, l2, Split(b, lines)[o2])
      ==> GoesBefore(b, lines, l1, k1, l2, k2)
  {
    var weights := UnitWeights(Ordered(b, lines));
    FullPositive(b, lines, rules);
    AllocatedProRata(b.priceCents, weights);
    WeightOrder(b.priceCents, weights, Split(b, lines), o1, o2);
  }

  /** An earlier place in the split is a smaller SKU or an earlier unit of the line. */
  lemma PlaceOrder(b: BundleCandidate, lines: seq<Line>, rules: seq<ComboRule>, i: nat, k1: nat, j: nat, k2: nat)
    requires Applicable(b, lines, rules) && Cart(lines) && i < |Ordered(b, lines)| && j < |Ordered(b, lines)|
    requires k1 < Ordered(b, lines)[i].quantity && k2 < Ordered(b, lines)[j].quantity
    ensures OffsetOf(Ordered(b, lines), i) + k1 < OffsetOf(Ordered(b, lines), j) + k2 ==>
      var l1, l2 := Ordered(b, lines)[i].line, Ordered(b, lines)[j].line;
      l1.variantID < l2.variantID || (l1 == l2 && k1 < k2)
  {
    var parts := Ordered(b, lines);
    OrderedFacts(b, lines, rules);
    if i < j { OrderedAscends(b, lines, rules, i, j); }
    if j < i { OffsetsGrow(parts, j, i); }
  }

  lemma WeightOrder(total: int, weights: seq<int>, shares: seq<int>, i: int, j: int)
    requires SplitsProRata(total, weights, shares) && Sum(weights) > 0 && |shares| == |weights|
    requires 0 <= i < |weights| && 0 <= j < |weights|
    ensures LargestRemainder.Topped(total * weights[i], Sum(weights), shares[i])
      && !LargestRemainder.Topped(total * weights[j], Sum(weights), shares[j])
      ==> LargestRemainder.Sooner(total * weights[i], i, total * weights[j], j, Sum(weights))
  {
    var even := Sum(weights) == 0;
    LargestRemainder.SplitOrders(total,
      seq(|weights|, k requires 0 <= k < |weights| => if even then total else total * weights[k]),
      Sum(weights), seq(|weights|, k => k), shares, i, j);
  }

  // --- Which bundles apply ---------------------------------------------------------------------

  ghost predicate ById(bs: seq<BundleCandidate>) {
    forall i, j :: 0 <= i < j < |bs| ==> bs[i].id <= bs[j].id
  }

  lemma {:induction false} InsertById(b: BundleCandidate, s: seq<BundleCandidate>)
    requires ById(s)
    ensures ById(InsertBundle(b, s))
  {
    if s != [] && !(b.id <= s[0].id) {
      InsertById(b, s[1..]);
      var r := InsertBundle(b, s[1..]);
      SameElements(r, [b] + s[1..]);
      forall x | x in r ensures s[0].id <= x.id { assert x in [b] + s[1..]; }
    }
  }

  lemma {:induction false} SortById(s: seq<BundleCandidate>)
    ensures ById(SortBundles(s))
  {
    if s != [] {
      SortById(s[1..]);
      InsertById(s[0], SortBundles(s[1..]));
    }
  }

  /** Turned away: a SKU already claimed, or shared with an applied bundle of no larger id. */
  ghost predicate Outranked(b: BundleCandidate, chosen: seq<BundleCandidate>, claimed: set<int>) {
    !(Variants(b) !! claimed) || exists c :: c in chosen && c.id <= b.id && !(Variants(c) !! Variants(b))
  }

  lemma {:induction false} SelectAscends(bs: seq<BundleCandidate>, lines: seq<Line>, rules: seq<ComboRule>,
                                         claimed: set<int>)
    requires ById(bs)
    ensures ById(Select(bs, lines, rules, claimed))
  {
    if bs != [] {
      SelectAscends(bs[1..], lines, rules, claimed + Variants(bs[0]));
      SelectAscends(bs[1..], lines, rules, claimed);
      SelectedAreDisjoint(bs[1..], lines, rules, claimed + Variants(bs[0]));
      forall b | b in bs[1..] ensures bs[0].id <= b.id {}
    }
  }

  /** One that qualifies and is left out is outranked. */
  lemma {:induction false} LeftOutOutranked(bs: seq<BundleCandidate>, lines: seq<Line>, rules: seq<ComboRule>,
                                            claimed: set<int>, b: BundleCandidate)
    requires ById(bs) && b in bs && PositiveNeeds(b) && Qualifies(b, lines, rules)
    requires b !in Select(bs, lines, rules, claimed)
    ensures Outranked(b, Select(bs, lines, rules, claimed), claimed)
  {
    var first, rest, chosen := bs[0], bs[1..], Select(bs, lines, rules, claimed);
    assert bs == [first] + rest;
    if b in rest {
      assert first.id <= b.id;
      var taken := PositiveNeeds(first) && Variants(first) !! claimed && Qualifies(first, lines, rules);
      LeftOutOutranked(rest, lines, rules, if taken then claimed + Variants(first) else claimed, b);
      if taken && !(Variants(b) !! Variants(first)) { assert first in chosen; }
    }
  }

  /** The bundles are taken by id: every applied one qualifies, no two share a SKU, and one that
      qualifies is left out only for a SKU that an applied bundle of no larger id takes. */
  lemma SelectionById(bundles: seq<BundleCandidate>, lines: seq<Line>, rules: seq<ComboRule>)
    ensures ById(Chosen(bundles, lines, rules)) && Disjoint(Chosen(bundles, lines, rules))
    ensures forall b :: b in Chosen(bundles, lines, rules) ==>
      b in bundles && PositiveNeeds(b) && Qualifies(b, lines, rules)
    ensures forall b :: b in bundles && PositiveNeeds(b) && Qualifies(b, lines, rules) ==>
      b in Chosen(bundles, lines, rules)
      || exists c :: c in Chosen(bundles, lines, rules) && c.id <= b.id && !(Variants(c) !! Variants(b))
  {
    var sorted := SortBundles(bundles);
    SortById(bundles);
    SameElements(sorted, bundles);
    SelectAscends(sorted, lines, rules, {});
    SelectedAreDisjoint(sorted, lines, rules, {});
    forall b | b in bundles && PositiveNeeds(b) && Qualifies(b, lines, rules) && b !in Chosen(bundles, lines, rules)
      ensures exists c :: c in Chosen(bundles, lines, rules) && c.id <= b.id && !(Variants(c) !! Variants(b))
    {
      LeftOutOutranked(sorted, lines, rules, {}, b);
    }
  }

  // --- When a bundle qualifies -----------------------------------------------------------------

  /** Every component has its line. */
  ghost predicate Lined(b: BundleCandidate, lines: seq<Line>, own: seq<Line>) {
    |own| == |b.components| >= 2
    && forall i :: 0 <= i < |own| ==> own[i] in lines && own[i].variantID == b.components[i].variantID
  }

  function Needed(b: BundleCandidate, own: seq<Line>): seq<int>
    requires |own| == |b.components|
  {
    seq(|own|, i requires 0 <= i < |own| => b.components[i].quantity * own[i].individualCents)
  }

  function LeftOver(b: BundleCandidate, own: seq<Line>, n: int): seq<int>
    requires |own| == |b.components|
  {
    seq(|own|, i requires 0 <= i < |own| =>
      (own[i].quantity - n * b.components[i].quantity) * own[i].individualCents)
  }

  function Ordinary(own: seq<Line>, rules: seq<ComboRule>): seq<int> {
    seq(|own|, i requires 0 <= i < |own| =>
      own[i].quantity * VolumeRate(own[i].quantity, own[i].individualCents, TiersFor(own[i], rules)))
  }

  /** `n` whole recipes are all the lines allow. */
  ghost predicate Largest(b: BundleCandidate, own: seq<Line>, n: int)
    requires |own| == |b.components|
  {
    && (forall i :: 0 <= i < |own| ==> n * b.components[i].quantity <= own[i].quantity)
    && exists i :: 0 <= i < |own| && own[i].quantity < (n + 1) * b.components[i].quantity
  }

  /** The price saves on one recipe but not short of a unit, and `n` recipes beat ordinary pricing. */
  ghost predicate Pays(b: BundleCandidate, own: seq<Line>, rules: seq<ComboRule>, n: int)
    requires |own| == |b.components|
  {
    && n >= 1 && b.priceCents < Sum(Needed(b, own))
    && (forall i :: 0 <= i < |own| ==> Sum(Needed(b, own)) - own[i].individualCents < b.priceCents)
    && n * b.priceCents + Sum(LeftOver(b, own, n)) < Sum(Ordinary(own, rules))
  }

  lemma LinesFound(b: BundleCandidate, lines: seq<Line>, own: seq<Line>)
    requires Cart(lines) && Lined(b, lines, own)
    ensures Buildable(b, lines)
    ensures forall i :: 0 <= i < |own| ==>
      PartsOf(b.components, lines)[i] == Part(b.components[i].variantID, b.components[i].quantity, own[i])
  {
    forall i | 0 <= i < |own|
      ensures FindLine(lines, b.components[i].variantID) == Some(own[i])
    {
      SameLine(lines, FindLine(lines, b.components[i].variantID).value, own[i]);
    }
  }

  lemma AmountsOf(b: BundleCandidate, lines: seq<Line>, rules: seq<ComboRule>, own: seq<Line>, n: int)
    requires Recipe(b) && Cart(lines) && Lined(b, lines, own)
    ensures Buildable(b, lines) && PositiveNeeds(b)
    ensures RecipeCents(b, lines) == Sum(Needed(b, own))
    ensures BundlePlanCents(b, lines, n) == n * b.priceCents + Sum(LeftOver(b, own, n))
    ensures BundleOrdinary(b, lines, rules) == Sum(Ordinary(own, rules))
  {
    LinesFound(b, lines, own);
    var parts, items := PartsOf(b.components, lines), BundleItems(b, lines);
    AmountsAreSums(items, n);
    assert Map(FullTerm(), items) == Needed(b, own);
    assert Map(SurplusTerm(n), items) == LeftOver(b, own, n);
    forall i | 0 <= i < |own| ensures PartTotalBy(rules)(parts[i]) == Ordinary(own, rules)[i] {
      OrdinaryLineMeans(own[i], rules);
    }
    assert Map(PartTotalBy(rules), parts) == Ordinary(own, rules);
  }

  /** How many instances: as many as the lines of the recipe allow. */
  lemma CountMeans(b: BundleCandidate, lines: seq<Line>, own: seq<Line>, n: int)
    requires Recipe(b) && Cart(lines) && Lined(b, lines, own) && n >= 0
    ensures Buildable(b, lines) && PositiveNeeds(b)
    ensures InstanceCount(b, lines) == n <==> Largest(b, own, n)
  {
    LinesFound(b, lines, own);
    ItemsWellformed(b, lines);
    var items := BundleItems(b, lines);
    InstancesAreLargest(items, n);
    InstancesAreLargest(items, n + 1);
    assert forall i :: 0 <= i < |own| ==>
      items[i] == Item(own[i].quantity, b.components[i].quantity, own[i].individualCents);
  }

  /** A recipe qualifies exactly when its lines are there, hold a whole instance, and the price is in
      bounds and beats ordinary pricing of those lines with as many instances as fit. */
  lemma QualifiesMeans(b: BundleCandidate, lines: seq<Line>, rules: seq<ComboRule>)
    requires Recipe(b) && Cart(lines)
    ensures PositiveNeeds(b)
    ensures Qualifies(b, lines, rules) <==>
      exists own, n :: Lined(b, lines, own) && Largest(b, own, n) && Pays(b, own, rules, n)
  {
    forall i | 0 <= i < |b.components| ensures b.components[i].quantity >= 1 { assert b.components[i] in b.components; }
    if Buildable(b, lines) {
      var parts := PartsOf(b.components, lines);
      var own := seq(|parts|, i requires 0 <= i < |parts| => parts[i].line);
      OneLining(b, lines, rules, own);
      forall other | Lined(b, lines, other) ensures other == own { SameLining(b, lines, own, other); }
    } else {
      forall own | Lined(b, lines, own) ensures false { LinesFound(b, lines, own); }
    }
  }

  lemma SameLining(b: BundleCandidate, lines: seq<Line>, own: seq<Line>, other: seq<Line>)
    requires Cart(lines) && Lined(b, lines, own) && Lined(b, lines, other)
    ensures own == other
  {
    LinesFound(b, lines, own);
    LinesFound(b, lines, other);
  }

  lemma OneLining(b: BundleCandidate, lines: seq<Line>, rules: seq<ComboRule>, own: seq<Line>)
    requires Recipe(b) && Cart(lines) && Lined(b, lines, own) && PositiveNeeds(b)
    ensures Qualifies(b, lines, rules) <==> exists n :: Largest(b, own, n) && Pays(b, own, rules, n)
  {
    LinesFound(b, lines, own);
    InstancesNonNegative(b, lines);
    var n := InstanceCount(b, lines);
    CountMeans(b, lines, own, n);
    QualifiesAt(b, lines, rules, own, n);
    forall m | Largest(b, own, m) && Pays(b, own, rules, m) ensures m == n { CountMeans(b, lines, own, m); }
  }

  lemma QualifiesAt(b: BundleCandidate, lines: seq<Line>, rules: seq<ComboRule>, own: seq<Line>, n: int)
    requires Recipe(b) && Cart(lines) && Lined(b, lines, own) && PositiveNeeds(b)
    requires Buildable(b, lines) && n == InstanceCount(b, lines) >= 0
    ensures Qualifies(b, lines, rules) <==> Pays(b, own, rules, n)
  {
    LinesFound(b, lines, own);
    AmountsOf(b, lines, rules, own, n);
    var items := BundleItems(b, lines);
    InBoundsMeans(b.priceCents, items);
    AmountsAreSums(items, 0);
    assert forall i :: 0 <= i < |own| ==> items[i].price == own[i].individualCents;
  }

  // --- What is recorded ------------------------------------------------------------------------

  /** A component as recorded: its line, its individual price, and the units in instances, which are
      the first ones of the line. */
  ghost predicate Records(a: AppliedComponent, c: Component, l: Line, n: int) {
    && a.variantID == c.variantID == l.variantID && a.quantity == c.quantity && a.lineId == l.lineId
    && a.individualPriceCents == l.individualCents && |a.unitIndices| == n * c.quantity
    && forall k :: 0 <= k < |a.unitIndices| ==> a.unitIndices[k] == k
  }

  /** The record of an applied bundle: every component once, in order of SKU. */
  lemma AppliedMeans(b: BundleCandidate, lines: seq<Line>, rules: seq<ComboRule>)
    requires Applicable(b, lines, rules) && Cart(lines)
    ensures var a := AppliedOf(b, lines, rules);
      && a.id == b.id && a.priceCents == b.priceCents && a.instanceCount == InstanceCount(b, lines)
      && |a.components| == |b.components|
      && (forall i, j :: 0 <= i < j < |a.components| ==> a.components[i].variantID < a.components[j].variantID)
      && forall c, l :: c in b.components && l in lines && c.variantID == l.variantID ==>
        exists i :: 0 <= i < |a.components| && Records(a.components[i], c, l, a.instanceCount)
  {
    var a, parts := AppliedOf(b, lines, rules), Ordered(b, lines);
    OrderedFacts(b, lines, rules);
    forall i, j | 0 <= i < j < |a.components| ensures a.components[i].variantID < a.components[j].variantID {
      OrderedAscends(b, lines, rules, i, j);
    }
    forall c, l | c in b.components && l in lines && c.variantID == l.variantID
      ensures exists i :: 0 <= i < |a.components| && Records(a.components[i], c, l, a.instanceCount)
    {
      var i := PartAt(b, lines, rules, c, l);
      InstancesNonNegative(b, lines);
      assert c.quantity >= 1 && a.components[i] == AppliedPart(a.instanceCount)(parts[i]);
      RecordsPart(parts[i], c, l, a.instanceCount);
    }
  }

  lemma RecordsPart(p: Part, c: Component, l: Line, n: nat)
    requires p == Part(c.variantID, c.quantity, l) && c.variantID == l.variantID && c.quantity >= 1
    ensures Records(AppliedPart(n)(p), c, l, n)
  {
    TimesIs(n, c.quantity);
    MulOrder(0, n, c.quantity);
  }
}
