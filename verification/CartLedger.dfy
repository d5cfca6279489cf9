/** The exact ledger of a priced cart (backend/src/lib/bundle-pricing.ts:40-90). */
module CartLedger {
  import opened Common
  import opened BundleMath
  import opened AllocateCents
  import opened VolumePricing
  import opened BundlePricing
  import opened Placements
  import opened Ledger

  lemma SameLine(lines: seq<Line>, a: Line, b: Line)
    requires Cart(lines) && a in lines && b in lines
    ensures a.lineId == b.lineId ==> a == b
    ensures a.variantID == b.variantID ==> a == b
  {
    var i :| 0 <= i < |lines| && lines[i] == a;
    var j :| 0 <= j < |lines| && lines[j] == b;
    assert LineIds(lines)[i] == a.lineId && LineIds(lines)[j] == b.lineId;
    assert VariantIds(lines)[i] == a.variantID && VariantIds(lines)[j] == b.variantID;
  }

  lemma LineIdIn(lines: seq<Line>, l: Line)
    requires l in lines
    ensures l.lineId in LineIds(lines)
  {
    var i :| 0 <= i < |lines| && lines[i] == l;
    assert LineIds(lines)[i] == l.lineId;
  }

  lemma OrderedDistinct(b: BundleCandidate, lines: seq<Line>, rules: seq<ComboRule>)
    requires Applicable(b, lines, rules) && Cart(lines)
    ensures DistinctLines(Ordered(b, lines))
  {
    var unsorted, parts, v := PartsOf(b.components, lines), Ordered(b, lines), (p: Part) => p.variantID;
    OrderedFacts(b, lines, rules);
    assert Distinct(Map(v, unsorted));
    MapPermuted(v, unsorted, parts);
    DistinctPermuted(Map(v, unsorted), Map(v, parts));
    forall i, j | 0 <= i < j < |parts| ensures parts[i].line.lineId != parts[j].line.lineId {
      assert Map(v, parts)[i] != Map(v, parts)[j];
      SameLine(lines, parts[i].line, parts[j].line);
    }
  }

  lemma OrderedCountFits(b: BundleCandidate, lines: seq<Line>, rules: seq<ComboRule>)
    requires Applicable(b, lines, rules) && Cart(lines)
    ensures InstanceCount(b, lines) >= 1 && CountFits(Ordered(b, lines), InstanceCount(b, lines))
  {
    ItemsWellformed(b, lines);
    var items, count, parts, unsorted := BundleItems(b, lines), InstanceCount(b, lines), Ordered(b, lines),
      PartsOf(b.components, lines);
    InstancesAreLargest(items, count);
    OrderedFacts(b, lines, rules);
    forall i | 0 <= i < |parts| ensures count * parts[i].quantity <= parts[i].line.quantity {
      assert parts[i] in unsorted;
      var k :| 0 <= k < |unsorted| && unsorted[k] == parts[i];
      assert items[k] == ItemOf(parts[i]);
    }
  }

  /** A line outside the recipe is not touched by placing it. */
  lemma OutsideRecipe(b: BundleCandidate, lines: seq<Line>, rules: seq<ComboRule>, l: Line)
    requires Applicable(b, lines, rules) && Cart(lines) && l in lines
    ensures Touches(Ordered(b, lines), l.lineId) <==> l.variantID in Variants(b)
  {
    OrderedFacts(b, lines, rules);
    var parts := Ordered(b, lines);
    if i :| 0 <= i < |parts| && parts[i].line.lineId == l.lineId {
      SameLine(lines, parts[i].line, l);
    }
    if l.variantID in Variants(b) {
      var i :| 0 <= i < |parts| && parts[i].variantID == l.variantID;
      SameLine(lines, parts[i].line, l);
      assert parts[i].line.lineId == l.lineId;
    }
  }

  ghost predicate Untouched(bs: seq<BundleCandidate>, l: Line) {
    forall i :: 0 <= i < |bs| ==> l.variantID !in Variants(bs[i])
  }

  ghost predicate OrdinaryAt(at: Placement, l: Line, rules: seq<ComboRule>) {
    UnitsAt(at, l.lineId) == OrdinaryUnits(l, rules) && l.lineId in at.units && l.lineId !in at.identities
  }

  lemma BaseIsOrdinary(lines: seq<Line>, rules: seq<ComboRule>, l: Line)
    requires Cart(lines) && l in lines
    ensures OrdinaryAt(Base(lines, rules), l, rules)
  {
    var i :| 0 <= i < |lines| && lines[i] == l;
    LineByIdFinds(lines, i);
    LineIdIn(lines, l);
  }

  /** Lines whose SKU no applied bundle claims keep their ordinary price: what the
      engine reads from the shared Maps for a later bundle is still the baseline. */
  lemma {:induction false} UnclaimedStaysOrdinary(bs: seq<BundleCandidate>, lines: seq<Line>, rules: seq<ComboRule>,
                                                  l: Line)
    requires AllApplicable(bs, lines, rules) && Cart(lines) && l in lines && Untouched(bs, l)
    ensures OrdinaryAt(PlaceAll(Base(lines, rules), bs, lines, rules), l, rules)
  {
    if bs == [] {
      BaseIsOrdinary(lines, rules, l);
    } else {
      var front, b := bs[..|bs| - 1], bs[|bs| - 1];
      UnclaimedStaysOrdinary(front, lines, rules, l);
      OutsideRecipe(b, lines, rules, l);
      SplitWorks(b, lines, rules);
      InstancesNonNegative(b, lines);
      PlacePartsOutside(PlaceAll(Base(lines, rules), front, lines, rules), b.id, InstanceCount(b, lines),
        Ordered(b, lines), Split(b, lines), l.lineId);
    }
  }

  lemma {:induction false} OldOrdinary(at: Placement, parts: seq<Part>, rules: seq<ComboRule>, tag: BundleUnit)
    requires forall i :: 0 <= i < |parts| ==> OrdinaryAt(at, parts[i].line, rules) && parts[i].line.quantity >= 0
    ensures OldMeasure(at, parts, CentsMeasure()) == OrdinaryPartsCents(parts, rules)
    ensures OldMeasure(at, parts, TagMeasure(tag)) == 0
  {
    if parts != [] {
      OldOrdinary(at, parts[1..], rules, tag);
      SumFill(parts[0].line.quantity, Rate(parts[0].line, rules));
      var f := PartTotalBy(rules);
      assert Map(f, parts) == [f(parts[0])] + Map(f, parts[1..]);
    }
  }

  /** What the next bundle finds: splittable price, fitting counts. */
  lemma BundleReady(b: BundleCandidate, lines: seq<Line>, rules: seq<ComboRule>)
    requires Applicable(b, lines, rules) && Cart(lines)
    ensures Allocate(b.priceCents, UnitWeights(Ordered(b, lines))).Ok? && Covers(Ordered(b, lines), Split(b, lines))
    ensures InstanceCount(b, lines) >= 1 && CountFits(Ordered(b, lines), InstanceCount(b, lines))
    ensures Sum(Split(b, lines)) == b.priceCents
  {
    SplitWorks(b, lines, rules);
    OrderedCountFits(b, lines, rules);
  }

  /** ... and lines that still carry their ordinary price. */
  lemma LinesReady(front: seq<BundleCandidate>, b: BundleCandidate, lines: seq<Line>, rules: seq<ComboRule>)
    requires AllApplicable(front, lines, rules) && Applicable(b, lines, rules) && Cart(lines)
    requires forall i :: 0 <= i < |front| ==> Variants(front[i]) !! Variants(b)
    ensures var parts, base := Ordered(b, lines), PlaceAll(Base(lines, rules), front, lines, rules);
      forall i :: 0 <= i < |parts| ==>
        OrdinaryAt(base, parts[i].line, rules) && parts[i].line.quantity >= 0 && parts[i].line.lineId in LineIds(lines)
  {
    var parts := Ordered(b, lines);
    OrderedFacts(b, lines, rules);
    forall i | 0 <= i < |parts|
      ensures OrdinaryAt(PlaceAll(Base(lines, rules), front, lines, rules), parts[i].line, rules)
      ensures parts[i].line.lineId in LineIds(lines)
    {
      assert parts[i].variantID in Variants(b);
      UnclaimedStaysOrdinary(front, lines, rules, parts[i].line);
      LineIdIn(lines, parts[i].line);
    }
  }

  lemma PlaceAllSnoc(front: seq<BundleCandidate>, b: BundleCandidate, lines: seq<Line>, rules: seq<ComboRule>)
    requires AllApplicable(front, lines, rules) && AllApplicable(front + [b], lines, rules)
    requires Applicable(b, lines, rules) && Cart(lines)
    requires Allocate(b.priceCents, UnitWeights(Ordered(b, lines))).Ok?
    requires Covers(Ordered(b, lines), Split(b, lines)) && InstanceCount(b, lines) >= 1
    ensures PlaceAll(Base(lines, rules), front + [b], lines, rules)
      == PlaceParts(PlaceAll(Base(lines, rules), front, lines, rules), b.id, InstanceCount(b, lines), Ordered(b, lines),
                    Split(b, lines))
  {
    assert (front + [b])[..|front|] == front;
  }

  /** Placing one more bundle changes any ledger by that bundle's lines only. */
  lemma BundleLedger(front: seq<BundleCandidate>, b: BundleCandidate, lines: seq<Line>, rules: seq<ComboRule>,
                     f: Measure)
    requires AllApplicable(front, lines, rules) && AllApplicable(front + [b], lines, rules)
    requires Applicable(b, lines, rules) && Cart(lines)
    requires forall i :: 0 <= i < |front| ==> Variants(front[i]) !! Variants(b)
    requires Allocate(b.priceCents, UnitWeights(Ordered(b, lines))).Ok?
    requires Covers(Ordered(b, lines), Split(b, lines)) && InstanceCount(b, lines) >= 1
    ensures LedgerSum(LineIds(lines), PlaceAll(Base(lines, rules), front + [b], lines, rules), f)
      == LedgerSum(LineIds(lines), PlaceAll(Base(lines, rules), front, lines, rules), f)
         - OldMeasure(PlaceAll(Base(lines, rules), front, lines, rules), Ordered(b, lines), f)
         + NewMeasure(b.id, InstanceCount(b, lines), Ordered(b, lines), Split(b, lines), f)
  {
    LinesReady(front, b, lines, rules);
    OrderedDistinct(b, lines, rules);
    PlacePartsLedger(LineIds(lines), PlaceAll(Base(lines, rules), front, lines, rules), b.id, InstanceCount(b, lines),
      Ordered(b, lines), Split(b, lines), f);
    PlaceAllSnoc(front, b, lines, rules);
  }

  lemma BaseLineCents(l: Line, all: seq<Line>, rules: seq<ComboRule>)
    requires Cart(all) && l in all
    ensures MeasureAt(Base(all, rules), CentsMeasure())(l.lineId) == OrdinaryCents(l, rules)
  {
    BaseIsOrdinary(all, rules, l);
    SumFill(l.quantity, Rate(l, rules));
    assert UnitsAt(Base(all, rules), l.lineId) == OrdinaryUnits(l, rules);
  }

  lemma {:induction false} BaseCents(lines: seq<Line>, all: seq<Line>, rules: seq<ComboRule>)
    requires Cart(all) && forall l :: l in lines ==> l in all
    ensures LedgerSum(LineIds(lines), Base(all, rules), CentsMeasure()) == OrdinarySubtotal(lines, rules)
  {
    if lines != [] {
      var l, m, f := lines[0], MeasureAt(Base(all, rules), CentsMeasure()), TotalBy(rules);
      BaseCents(lines[1..], all, rules);
      BaseLineCents(l, all, rules);
      assert Map(m, LineIds(lines)) == [m(l.lineId)] + Map(m, LineIds(lines[1..]));
      assert Map(f, lines) == [f(l)] + Map(f, lines[1..]);
    }
  }

  lemma {:induction false} BaseTagged(order: seq<int>, lines: seq<Line>, rules: seq<ComboRule>, tag: BundleUnit)
    ensures LedgerSum(order, Base(lines, rules), TagMeasure(tag)) == 0
  {
    if order != [] {
      BaseTagged(order[1..], lines, rules, tag);
      var m := MeasureAt(Base(lines, rules), TagMeasure(tag));
      assert TagsAt(Base(lines, rules), order[0]) == [];
      assert m(order[0]) == TagSum(UnitsAt(Base(lines, rules), order[0]), [], tag);
      assert Map(m, order) == [m(order[0])] + Map(m, order[1..]);
    }
  }

  lemma SavingsSnoc(bs: seq<BundleCandidate>, b: BundleCandidate, lines: seq<Line>, rules: seq<ComboRule>)
    ensures Savings(bs + [b], lines, rules) == Savings(bs, lines, rules) + Saving(b, lines, rules)
  {
    var f := SavingBy(lines, rules);
    assert Map(f, bs + [b]) == Map(f, bs) + [f(b)];
    SumAppend(Map(f, bs), [f(b)]);
  }

  /** The units of all the lines sum to the ordinary subtotal less the savings. */
  lemma {:induction false} UnitsSumToSubtotal(bs: seq<BundleCandidate>, lines: seq<Line>, rules: seq<ComboRule>)
    requires AllApplicable(bs, lines, rules) && Disjoint(bs) && Cart(lines)
    ensures LedgerSum(LineIds(lines), PlaceAll(Base(lines, rules), bs, lines, rules), CentsMeasure())
      == OrdinarySubtotal(lines, rules) - Savings(bs, lines, rules)
  {
    if bs == [] {
      BaseCents(lines, lines, rules);
    } else {
      var front, b := bs[..|bs| - 1], bs[|bs| - 1];
      assert bs == front + [b];
      UnitsSumToSubtotal(front, lines, rules);
      BundleReady(b, lines, rules);
      LinesReady(front, b, lines, rules);
      BundleLedger(front, b, lines, rules, CentsMeasure());
      var parts := Ordered(b, lines);
      OldOrdinary(PlaceAll(Base(lines, rules), front, lines, rules), parts, rules, Surplus(0));
      NewCentsIsPlan(b, lines, rules);
      SortPartsAmounts(PartsOf(b.components, lines), 0, rules);
      SavingsSnoc(front, b, lines, rules);
    }
  }

  /** How many bundles of the list have this id and this many instances: at most one with distinct ids. */
  ghost function PriceOfInstance(bs: seq<BundleCandidate>, lines: seq<Line>, rules: seq<ComboRule>, id: int,
                                 k: int): int
    requires AllApplicable(bs, lines, rules)
  {
    if bs == [] then 0
    else
      var b := bs[|bs| - 1];
      PriceOfInstance(bs[..|bs| - 1], lines, rules, id, k)
      + if b.id == id && 0 <= k < InstanceCount(b, lines) then b.priceCents else 0
  }

  lemma {:induction false} InstanceLedger(bs: seq<BundleCandidate>, lines: seq<Line>, rules: seq<ComboRule>, id: int,
                                          k: int)
    requires AllApplicable(bs, lines, rules) && Disjoint(bs) && Cart(lines)
    ensures LedgerSum(LineIds(lines), PlaceAll(Base(lines, rules), bs, lines, rules), TagMeasure(InBundle(id, k)))
      == PriceOfInstance(bs, lines, rules, id, k)
  {
    if bs == [] {
      BaseTagged(LineIds(lines), lines, rules, InBundle(id, k));
    } else {
      var front, b := bs[..|bs| - 1], bs[|bs| - 1];
      assert bs == front + [b];
      InstanceLedger(front, lines, rules, id, k);
      InstanceStep(front, b, lines, rules, id, k);
    }
  }

  /** One more bundle adds its price once for each of its own instances, and nothing else. */
  lemma InstanceStep(front: seq<BundleCandidate>, b: BundleCandidate, lines: seq<Line>, rules: seq<ComboRule>, id: int,
                     k: int)
    requires AllApplicable(front, lines, rules)
    requires AllApplicable(front + [b], lines, rules) && Applicable(b, lines, rules)
    requires Disjoint(front + [b]) && Cart(lines)
    ensures LedgerSum(LineIds(lines), PlaceAll(Base(lines, rules), front + [b], lines, rules),
      TagMeasure(InBundle(id, k)))
      == LedgerSum(LineIds(lines), PlaceAll(Base(lines, rules), front, lines, rules), TagMeasure(InBundle(id, k)))
         + if b.id == id && 0 <= k < InstanceCount(b, lines) then b.priceCents else 0
  {
    forall i | 0 <= i < |front| ensures Variants(front[i]) !! Variants(b) {
      assert (front + [b])[i] == front[i] && (front + [b])[|front|] == b;
    }
    BundleReady(b, lines, rules);
    LinesReady(front, b, lines, rules);
    BundleLedger(front, b, lines, rules, TagMeasure(InBundle(id, k)));
    OldOrdinary(PlaceAll(Base(lines, rules), front, lines, rules), Ordered(b, lines), rules, InBundle(id, k));
    NewTagged(b.id, InstanceCount(b, lines), Ordered(b, lines), Split(b, lines), id, k);
  }

  ghost predicate DistinctIds(bs: seq<BundleCandidate>) {
    forall i, j :: 0 <= i < j < |bs| ==> bs[i].id != bs[j].id
  }

  lemma {:induction false} NoPrice(bs: seq<BundleCandidate>, lines: seq<Line>, rules: seq<ComboRule>, id: int, k: int)
    requires AllApplicable(bs, lines, rules) && forall i :: 0 <= i < |bs| ==> bs[i].id != id
    ensures PriceOfInstance(bs, lines, rules, id, k) == 0
  {
    if bs != [] { NoPrice(bs[..|bs| - 1], lines, rules, id, k); }
  }

  lemma {:induction false} OnePrice(bs: seq<BundleCandidate>, lines: seq<Line>, rules: seq<ComboRule>, i: nat, k: int)
    requires AllApplicable(bs, lines, rules) && DistinctIds(bs) && i < |bs| && 0 <= k < InstanceCount(bs[i], lines)
    ensures PriceOfInstance(bs, lines, rules, bs[i].id, k) == bs[i].priceCents
  {
    var front := bs[..|bs| - 1];
    if i == |bs| - 1 {
      NoPrice(front, lines, rules, bs[i].id, k);
    } else {
      assert front[i] == bs[i];
      OnePrice(front, lines, rules, i, k);
    }
  }

  /** The engine's answer balances: its units sum to the subtotal, which is the ordinary
      subtotal less the nonnegative bundle savings. */
  lemma LedgerBalances(bundles: seq<BundleCandidate>, lines: seq<Line>, rules: seq<ComboRule>)
    requires Recipes(bundles) && Cart(lines)
    ensures LedgerSum(LineIds(lines), Placed(bundles, lines, rules), CentsMeasure()) == Subtotal(bundles, lines, rules)
    ensures Subtotal(bundles, lines, rules) <= OrdinarySubtotal(lines, rules)
  {
    ChosenApplicable(bundles, lines, rules);
    UnitsSumToSubtotal(Chosen(bundles, lines, rules), lines, rules);
    var savings := Map(SavingBy(lines, rules), Chosen(bundles, lines, rules));
    assert NonNegative(savings);
    SumNonNegative(savings);
  }

  /** The units of every instance of every applied bundle sum to exactly the bundle price. */
  lemma InstancesCostTheBundlePrice(bundles: seq<BundleCandidate>, lines: seq<Line>, rules: seq<ComboRule>,
                                    b: BundleCandidate, k: int)
    requires Recipes(bundles) && Cart(lines) && DistinctIds(bundles)
    requires b in Chosen(bundles, lines, rules) && Buildable(b, lines)
    requires PositiveNeeds(b) && 0 <= k < InstanceCount(b, lines)
    ensures LedgerSum(LineIds(lines), Placed(bundles, lines, rules), TagMeasure(InBundle(b.id, k))) == b.priceCents
  {
    var chosen := Chosen(bundles, lines, rules);
    ChosenApplicable(bundles, lines, rules);
    InstanceLedger(chosen, lines, rules, b.id, k);
    ChosenIds(bundles, lines, rules);
    var i :| 0 <= i < |chosen| && chosen[i] == b;
    OnePrice(chosen, lines, rules, i, k);
  }

  lemma ChosenIds(bundles: seq<BundleCandidate>, lines: seq<Line>, rules: seq<ComboRule>)
    requires DistinctIds(bundles)
    ensures DistinctIds(Chosen(bundles, lines, rules))
  {
    var id, sorted := (b: BundleCandidate) => b.id, SortBundles(bundles);
    MapPermuted(id, bundles, sorted);
    assert Distinct(Map(id, bundles));
    DistinctPermuted(Map(id, bundles), Map(id, sorted));
    forall i, j | 0 <= i < j < |sorted| ensures sorted[i].id != sorted[j].id {
      assert Map(id, sorted)[i] != Map(id, sorted)[j];
    }
    SelectedIds(sorted, lines, rules, {});
  }

  lemma {:induction false} SelectedIds(bs: seq<BundleCandidate>, lines: seq<Line>, rules: seq<ComboRule>,
                                       claimed: set<int>)
    requires DistinctIds(bs)
    ensures DistinctIds(Select(bs, lines, rules, claimed))
  {
    if bs != [] {
      SelectedIds(bs[1..], lines, rules, claimed + Variants(bs[0]));
      SelectedIds(bs[1..], lines, rules, claimed);
      SelectedAreDisjoint(bs[1..], lines, rules, claimed + Variants(bs[0]));
      var rest := Select(bs[1..], lines, rules, claimed + Variants(bs[0]));
      forall i | 0 <= i < |rest| ensures rest[i].id != bs[0].id {
        assert rest[i] in rest;
        var k :| 0 <= k < |bs[1..]| && bs[1..][k] == rest[i];
        assert bs[k + 1] == rest[i];
      }
    }
  }

  // --- Line by line ------------------------------------------------------------------

  /** The lines of an applied bundle hold exactly that bundle's units and identities. */
  ghost predicate BundleAt(at: Placement, b: BundleCandidate, lines: seq<Line>, rules: seq<ComboRule>)
    requires Applicable(b, lines, rules) && Cart(lines)
  {
    SplitWorks(b, lines, rules);
    OrderedCountFits(b, lines, rules);
    var parts, count := Ordered(b, lines), InstanceCount(b, lines);
    forall i :: 0 <= i < |parts| ==>
      && parts[i].line.lineId in at.units && parts[i].line.lineId in at.identities
      && at.units[parts[i].line.lineId] == PartUnits(parts[i], Slice(parts, Split(b, lines), i), count)
      && at.identities[parts[i].line.lineId] == PartTags(b.id, parts[i], count)
  }

  lemma LaterLeavesLine(at: Placement, later: BundleCandidate, lines: seq<Line>, rules: seq<ComboRule>, l: Line)
    requires Applicable(later, lines, rules) && Cart(lines) && l in lines && l.variantID !in Variants(later)
    ensures var placed := PlaceBundle(at, later, lines, rules);
      && UnitsAt(placed, l.lineId) == UnitsAt(at, l.lineId) && (l.lineId in placed.units <==> l.lineId in at.units)
      && TagsAt(placed, l.lineId) == TagsAt(at, l.lineId)
      && (l.lineId in placed.identities <==> l.lineId in at.identities)
  {
    SplitWorks(later, lines, rules);
    OrderedCountFits(later, lines, rules);
    OutsideRecipe(later, lines, rules, l);
    PlacePartsOutside(at, later.id, InstanceCount(later, lines), Ordered(later, lines), Split(later, lines), l.lineId);
  }

  lemma LaterBundleKeeps(at: Placement, b: BundleCandidate, later: BundleCandidate, lines: seq<Line>,
                         rules: seq<ComboRule>)
    requires Applicable(b, lines, rules) && Applicable(later, lines, rules) && Cart(lines)
    requires Variants(b) !! Variants(later) && BundleAt(at, b, lines, rules)
    ensures BundleAt(PlaceBundle(at, later, lines, rules), b, lines, rules)
  {
    var parts, placed := Ordered(b, lines), PlaceBundle(at, later, lines, rules);
    OrderedFacts(b, lines, rules);
    forall i | 0 <= i < |parts|
      ensures UnitsAt(placed, parts[i].line.lineId) == UnitsAt(at, parts[i].line.lineId)
      ensures TagsAt(placed, parts[i].line.lineId) == TagsAt(at, parts[i].line.lineId)
      ensures parts[i].line.lineId in placed.units && parts[i].line.lineId in placed.identities
    {
      assert parts[i].variantID in Variants(b);
      LaterLeavesLine(at, later, lines, rules, parts[i].line);
    }
  }

  lemma JustPlaced(at: Placement, b: BundleCandidate, lines: seq<Line>, rules: seq<ComboRule>)
    requires Applicable(b, lines, rules) && Cart(lines)
    ensures BundleAt(PlaceBundle(at, b, lines, rules), b, lines, rules)
  {
    SplitWorks(b, lines, rules);
    OrderedCountFits(b, lines, rules);
    OrderedDistinct(b, lines, rules);
    var parts := Ordered(b, lines);
    forall i | 0 <= i < |parts| ensures
      var placed := PlaceBundle(at, b, lines, rules);
      && parts[i].line.lineId in placed.units && parts[i].line.lineId in placed.identities
      && placed.units[parts[i].line.lineId]
        == PartUnits(parts[i], Slice(parts, Split(b, lines), i), InstanceCount(b, lines))
      && placed.identities[parts[i].line.lineId] == PartTags(b.id, parts[i], InstanceCount(b, lines))
    {
      PlacePartsAt(at, b.id, InstanceCount(b, lines), parts, Split(b, lines), i);
    }
  }

  lemma {:induction false} BundlesStay(bs: seq<BundleCandidate>, lines: seq<Line>, rules: seq<ComboRule>, k: nat)
    requires AllApplicable(bs, lines, rules) && Disjoint(bs) && Cart(lines) && k < |bs|
    ensures BundleAt(PlaceAll(Base(lines, rules), bs, lines, rules), bs[k], lines, rules)
  {
    var front, b := bs[..|bs| - 1], bs[|bs| - 1];
    if k == |bs| - 1 {
      JustPlaced(PlaceAll(Base(lines, rules), front, lines, rules), b, lines, rules);
    } else {
      BundlesStay(front, lines, rules, k);
      LaterBundleKeeps(PlaceAll(Base(lines, rules), front, lines, rules), bs[k], b, lines, rules);
    }
  }

  ghost predicate Between(units: seq<int>, high: int) {
    forall i :: 0 <= i < |units| ==> 0 <= units[i] <= high
  }

  /** Bundled units cost between nothing and their individual price, one identity each. */
  lemma PartWithinPrice(b: BundleCandidate, lines: seq<Line>, rules: seq<ComboRule>, i: nat)
    requires Applicable(b, lines, rules) && Cart(lines) && i < |Ordered(b, lines)|
    ensures Allocate(b.priceCents, UnitWeights(Ordered(b, lines))).Ok?
    ensures Covers(Ordered(b, lines), Split(b, lines)) && InstanceCount(b, lines) >= 1
    ensures var p := Ordered(b, lines)[i];
      var units := PartUnits(p, Slice(Ordered(b, lines), Split(b, lines), i), InstanceCount(b, lines));
      |units| == p.line.quantity == |PartTags(b.id, p, InstanceCount(b, lines))|
      && Between(units, p.line.individualCents)
  {
    var parts, count := Ordered(b, lines), InstanceCount(b, lines);
    var p := parts[i];
    SplitWorks(b, lines, rules);
    OrderedFacts(b, lines, rules);
    OrderedCountFits(b, lines, rules);
    var shares := Split(b, lines);
    var slice := Slice(parts, shares, i);
    SliceFits(parts, shares, i);
    PartAmounts(b.id, p, slice, count, 0, 0);
    RepeatSum(slice, count);
    forall x | x in slice ensures 0 <= x <= p.line.individualCents {
      var k :| 0 <= k < |shares| && shares[k] == x && UnitWeights(parts)[k] == p.line.individualCents;
      AllocationCapped(b.priceCents, UnitWeights(parts), k);
    }
    var units := PartUnits(p, slice, count);
    forall k | 0 <= k < |units| ensures 0 <= units[k] <= p.line.individualCents {
      if k < |Repeat(slice, count)| { assert units[k] in Repeat(slice, count); }
    }
  }

  lemma {:induction false} TagsCarryId(bundleID: int, quantity: nat, first: nat, count: nat)
    ensures forall t :: t in InstanceTags(bundleID, quantity, first, count) ==> t.bundleID == bundleID
    decreases count
  {
    if count > 0 { TagsCarryId(bundleID, quantity, first + 1, count - 1); }
  }

  lemma PartTagsName(bundleID: int, p: Part, count: nat)
    ensures forall t :: t in PartTags(bundleID, p, count) ==> t.bundleID == bundleID
  {
    TagsCarryId(bundleID, Max(0, p.quantity), 0, count);
  }

  lemma BundleTagsName(at: Placement, b: BundleCandidate, lines: seq<Line>, rules: seq<ComboRule>, l: Line)
    requires Applicable(b, lines, rules) && Cart(lines)
    requires BundleAt(at, b, lines, rules) && Touches(Ordered(b, lines), l.lineId)
    ensures l.lineId in at.identities && forall t :: t in at.identities[l.lineId] ==> t.bundleID == b.id
  {
    var parts := Ordered(b, lines);
    var i :| 0 <= i < |parts| && parts[i].line.lineId == l.lineId;
    InstancesNonNegative(b, lines);
    PartTagsName(b.id, parts[i], InstanceCount(b, lines));
  }

  /** Every unit of a claimed line names the bundle that claimed it, as the frozen record later does. */
  lemma IdentitiesNameTheBundle(bundles: seq<BundleCandidate>, lines: seq<Line>, rules: seq<ComboRule>,
                                b: BundleCandidate, l: Line)
    requires Recipes(bundles) && Cart(lines) && b in Chosen(bundles, lines, rules)
    requires l in lines && l.variantID in Variants(b)
    ensures l.lineId in Placed(bundles, lines, rules).identities
    ensures forall t :: t in Placed(bundles, lines, rules).identities[l.lineId] ==> t.bundleID == b.id
  {
    var chosen := Chosen(bundles, lines, rules);
    ChosenApplicable(bundles, lines, rules);
    var k :| 0 <= k < |chosen| && chosen[k] == b;
    BundlesStay(chosen, lines, rules, k);
    OutsideRecipe(b, lines, rules, l);
    BundleTagsName(Placed(bundles, lines, rules), b, lines, rules, l);
  }

  /** The cents of the lines of a bundle. */
  function PartsCents(at: Placement, parts: seq<Part>): int {
    if parts == [] then 0 else Sum(UnitsAt(at, parts[0].line.lineId)) + PartsCents(at, parts[1..])
  }

  lemma {:induction false} PartsCentsAre(at: Placement, bundleID: int, count: nat, parts: seq<Part>, shares: seq<int>)
    requires Covers(parts, shares)
    requires forall i :: 0 <= i < |parts| ==>
      UnitsAt(at, parts[i].line.lineId) == PartUnits(parts[i], Slice(parts, shares, i), count)
    ensures PartsCents(at, parts) == NewMeasure(bundleID, count, parts, shares, CentsMeasure())
    decreases parts
  {
    if parts != [] {
      CoversNext(parts, shares);
      var rest := shares[parts[0].quantity..];
      forall i | 0 <= i < |parts[1..]|
        ensures UnitsAt(at, parts[1..][i].line.lineId) == PartUnits(parts[1..][i], Slice(parts[1..], rest, i), count)
      {
        assert parts[1..][i] == parts[i + 1] && Slice(parts[1..], rest, i) == Slice(parts, shares, i + 1);
      }
      PartsCentsAre(at, bundleID, count, parts[1..], rest);
    }
  }

  lemma NewCentsIsPlan(b: BundleCandidate, lines: seq<Line>, rules: seq<ComboRule>)
    requires Applicable(b, lines, rules) && Cart(lines)
    ensures Allocate(b.priceCents, UnitWeights(Ordered(b, lines))).Ok?
    ensures Covers(Ordered(b, lines), Split(b, lines)) && InstanceCount(b, lines) >= 1
    ensures NewMeasure(b.id, InstanceCount(b, lines), Ordered(b, lines), Split(b, lines), CentsMeasure())
      == BundlePlanCents(b, lines, InstanceCount(b, lines))
  {
    SplitWorks(b, lines, rules);
    OrderedCountFits(b, lines, rules);
    NewCents(b.id, InstanceCount(b, lines), Ordered(b, lines), Split(b, lines));
    SortPartsAmounts(PartsOf(b.components, lines), InstanceCount(b, lines), rules);
  }

  /** The lines of an applied bundle together cost exactly its plan. */
  lemma BundleLinesCost(bundles: seq<BundleCandidate>, lines: seq<Line>, rules: seq<ComboRule>, b: BundleCandidate)
    requires Recipes(bundles) && Cart(lines) && b in Chosen(bundles, lines, rules)
    ensures Applicable(b, lines, rules)
    ensures PartsCents(Placed(bundles, lines, rules), Ordered(b, lines))
      == BundlePlanCents(b, lines, InstanceCount(b, lines))
  {
    var chosen := Chosen(bundles, lines, rules);
    ChosenApplicable(bundles, lines, rules);
    var k :| 0 <= k < |chosen| && chosen[k] == b;
    BundlesStay(chosen, lines, rules, k);
    SplitWorks(b, lines, rules);
    OrderedCountFits(b, lines, rules);
    PartsCentsAre(Placed(bundles, lines, rules), b.id, InstanceCount(b, lines), Ordered(b, lines), Split(b, lines));
    NewCentsIsPlan(b, lines, rules);
  }

  ghost predicate GoodPrices(lines: seq<Line>, rules: seq<ComboRule>) {
    forall l :: l in lines ==> NonNegativePrices(TiersFor(l, rules), l.individualCents)
  }

  lemma UnclaimedLineExact(bundles: seq<BundleCandidate>, lines: seq<Line>, rules: seq<ComboRule>, l: Line)
    requires Recipes(bundles) && Cart(lines) && GoodPrices(lines, rules) && l in lines
    requires Untouched(Chosen(bundles, lines, rules), l)
    ensures OrdinaryAt(Placed(bundles, lines, rules), l, rules)
    ensures |OrdinaryUnits(l, rules)| == l.quantity && Between(OrdinaryUnits(l, rules), l.individualCents)
  {
    ChosenApplicable(bundles, lines, rules);
    UnclaimedStaysOrdinary(Chosen(bundles, lines, rules), lines, rules, l);
    RateNonNegative(l.quantity, l.individualCents, TiersFor(l, rules));
  }

  lemma ClaimedLineExact(at: Placement, b: BundleCandidate, lines: seq<Line>, rules: seq<ComboRule>, l: Line)
    requires Applicable(b, lines, rules) && Cart(lines) && BundleAt(at, b, lines, rules)
    requires l in lines && l.variantID in Variants(b)
    ensures l.lineId in at.units && |at.units[l.lineId]| == l.quantity && Between(at.units[l.lineId], l.individualCents)
    ensures l.lineId in at.identities && |at.identities[l.lineId]| == l.quantity
  {
    OutsideRecipe(b, lines, rules, l);
    var parts := Ordered(b, lines);
    var i :| 0 <= i < |parts| && parts[i].line.lineId == l.lineId;
    OrderedFacts(b, lines, rules);
    SameLine(lines, parts[i].line, l);
    PartWithinPrice(b, lines, rules, i);
  }

  /** Every line ends with one price per unit, none negative and none above the individual
      price, and a line claimed by a bundle with exactly one identity per unit. */
  lemma LinesAreExact(bundles: seq<BundleCandidate>, lines: seq<Line>, rules: seq<ComboRule>, l: Line)
    requires Recipes(bundles) && Cart(lines) && GoodPrices(lines, rules) && l in lines
    ensures var at := Placed(bundles, lines, rules);
      && l.lineId in at.units && |at.units[l.lineId]| == l.quantity && Between(at.units[l.lineId], l.individualCents)
      && (Untouched(Chosen(bundles, lines, rules), l) ==>
        at.units[l.lineId] == OrdinaryUnits(l, rules) && l.lineId !in at.identities)
      && (!Untouched(Chosen(bundles, lines, rules), l) ==>
        l.lineId in at.identities && |at.identities[l.lineId]| == l.quantity)
  {
    var chosen := Chosen(bundles, lines, rules);
    if Untouched(chosen, l) {
      UnclaimedLineExact(bundles, lines, rules, l);
    } else {
      ChosenApplicable(bundles, lines, rules);
      var k :| 0 <= k < |chosen| && l.variantID in Variants(chosen[k]);
      BundlesStay(chosen, lines, rules, k);
      ClaimedLineExact(Placed(bundles, lines, rules), chosen[k], lines, rules, l);
    }
  }
}
