/** From a priced cart to frozen order items: `priceMerchandise` feeding `checkoutItemPrices`
    (backend/src/lib/bundle-pricing.ts, backend/src/lib/checkout-pricing.ts). */
module CartCheckout {
  import opened Common
  import opened VolumePricing
  import BundlePricing
  import opened Placements
  import opened Ledger
  import opened CartLedger
  import opened PriceMerchandise
  import ReturnPricing
  import opened CheckoutPricing

  type Candidate = BundlePricing.BundleCandidate
  type BundleUnit = BundlePricing.BundleUnit

  function PricedBy(at: Placement, rules: seq<ComboRule>): Line -> PricedLine {
    (l: Line) => PricedLine(l.lineId, UnitsAt(at, l.lineId), BasisOf(l, rules),
                            if l.lineId in at.identities then Some(at.identities[l.lineId]) else None)
  }

  /** What the pricing engine hands to checkout for this cart. */
  function PricedCart(bundles: seq<Candidate>, lines: seq<Line>, rules: seq<ComboRule>): Priced
    requires BundlePricing.Recipes(bundles) && Cart(lines)
  {
    Priced(Map(PricedBy(Placed(bundles, lines, rules), rules), lines),
      BundlePricing.Subtotal(bundles, lines, rules), |BundlePricing.Chosen(bundles, lines, rules)|)
  }

  /** Every line has one nonnegative price per unit; a claimed line one identity per unit. */
  lemma CartLines(bundles: seq<Candidate>, lines: seq<Line>, rules: seq<ComboRule>)
    requires BundlePricing.Recipes(bundles) && Cart(lines) && GoodPrices(lines, rules)
    ensures Tagged(PricedCart(bundles, lines, rules).lines) && UnitsNonNegative(PricedCart(bundles, lines, rules).lines)
    ensures forall i :: 0 <= i < |lines| ==> |PricedCart(bundles, lines, rules).lines[i].units| == lines[i].quantity
    ensures forall i :: 0 <= i < |lines| ==>
      PricedCart(bundles, lines, rules).lines[i].identities.None?
        == Untouched(BundlePricing.Chosen(bundles, lines, rules), lines[i])
  {
    var at, priced := Placed(bundles, lines, rules), PricedCart(bundles, lines, rules).lines;
    forall i | 0 <= i < |lines|
      ensures |priced[i].units| == lines[i].quantity && NonNegative(priced[i].units)
      ensures priced[i].identities.Some? ==> priced[i].identities.value != []
      ensures priced[i].identities.None? <==> Untouched(BundlePricing.Chosen(bundles, lines, rules), lines[i])
    {
      assert lines[i] in lines;
      LinesAreExact(bundles, lines, rules, lines[i]);
    }
  }

  lemma CartCents(bundles: seq<Candidate>, lines: seq<Line>, rules: seq<ComboRule>)
    requires BundlePricing.Recipes(bundles) && Cart(lines)
    ensures Sum(LineCents(PricedCart(bundles, lines, rules).lines)) == PricedCart(bundles, lines, rules).subtotal
  {
    var at := Placed(bundles, lines, rules);
    LedgerBalances(bundles, lines, rules);
    var a, b := LineCents(PricedCart(bundles, lines, rules).lines), Map(MeasureAt(at, CentsMeasure()), LineIds(lines));
    forall i | 0 <= i < |lines| ensures a[i] == b[i] {
      assert LineIds(lines)[i] == lines[i].lineId;
    }
    assert a == b;
  }

  /** Checkout refuses a priced cart only for its coupon: out of range, or beside a bundle. */
  lemma CartAccepted(bundles: seq<Candidate>, lines: seq<Line>, rules: seq<ComboRule>, discount: int)
    requires BundlePricing.Recipes(bundles) && Cart(lines) && GoodPrices(lines, rules)
    ensures Tagged(PricedCart(bundles, lines, rules).lines)
    ensures CheckoutItemPrices(PricedCart(bundles, lines, rules), discount).Ok? <==>
      && 0 <= discount <= BundlePricing.Subtotal(bundles, lines, rules)
      && (BundlePricing.Chosen(bundles, lines, rules) != [] ==> discount == 0)
  {
    CartLines(bundles, lines, rules);
    CartCents(bundles, lines, rules);
    CheckoutAcceptance(PricedCart(bundles, lines, rules), discount);
  }

  /** Tiers as the rule form accepts them: thresholds of at least one, nonnegative rates. */
  ghost predicate GoodTiers(lines: seq<Line>, rules: seq<ComboRule>) {
    forall l :: l in lines ==> l.individualCents >= 0 && TiersStorable(TiersFor(l, rules))
  }

  ghost predicate TiersStorable(tiers: seq<Tier>) {
    forall i :: 0 <= i < |tiers| ==> tiers[i].minQty >= 1 && tiers[i].priceCents >= 0
  }

  lemma GoodTiersPrices(lines: seq<Line>, rules: seq<ComboRule>)
    requires GoodTiers(lines, rules)
    ensures GoodPrices(lines, rules)
  {
  }

  lemma StorableBasis(l: Line, rules: seq<ComboRule>)
    requires l.quantity >= 1 && l.individualCents >= 0
    requires TiersStorable(TiersFor(l, rules))
    ensures BasisStorable(BasisOf(l, rules))
  {
    var tiers := TiersFor(l, rules);
    var sorted, stored := SortAscending(tiers), SnapshotTiers(tiers);
    SameElements(sorted, tiers);
    forall i | 0 <= i < |stored| ensures stored[i].minQty > 0 && stored[i].priceCents >= 0 {
      assert sorted[i] in tiers;
      assert stored[i] == Tier(sorted[i].minQty, sorted[i].priceCents);
    }
  }

  /** A line no bundle claims is stored with a basis that prices it as it was sold. */
  lemma OrdinaryBasis(bundles: seq<Candidate>, lines: seq<Line>, rules: seq<ComboRule>, i: nat)
    requires BundlePricing.Recipes(bundles) && Cart(lines) && GoodTiers(lines, rules) && i < |lines|
    requires Untouched(BundlePricing.Chosen(bundles, lines, rules), lines[i])
    ensures BasisStorable(BasisOf(lines[i], rules)) && BasisPrices(PricedCart(bundles, lines, rules).lines[i])
  {
    var l, priced := lines[i], PricedCart(bundles, lines, rules).lines[i];
    assert l in lines;
    GoodTiersPrices(lines, rules);
    LinesAreExact(bundles, lines, rules, l);
    StorableBasis(l, rules);
    SnapshotTiersPriceAlike(l.quantity, l.individualCents, TiersFor(l, rules));
    assert priced.units == Fill(l.quantity, Rate(l, rules));
    SumFill(l.quantity, Rate(l, rules));
  }

  /** Every volume snapshot of an accepted checkout can be read back, reconciles, and owes
      nothing before a return. */
  lemma SnapshotsWork(bundles: seq<Candidate>, lines: seq<Line>, rules: seq<ComboRule>, discount: int, i: nat)
    requires BundlePricing.Recipes(bundles) && Cart(lines) && GoodTiers(lines, rules) && i < |lines|
    requires Tagged(PricedCart(bundles, lines, rules).lines)
    requires CheckoutItemPrices(PricedCart(bundles, lines, rules), discount).Ok?
    requires i < |CheckoutItemPrices(PricedCart(bundles, lines, rules), discount).value|
    requires CheckoutItemPrices(PricedCart(bundles, lines, rules), discount).value[i].breakdown.UnitRates?
    ensures var s := CheckoutItemPrices(PricedCart(bundles, lines, rules), discount).value[i].breakdown.snapshot;
      && ReturnPricing.ReadPurchasePricing(ReturnPricing.UnitRateBands(s)) == Ok(Some(s))
      && ReturnPricing.SchemaValid(s) && ReturnPricing.Reconciles(s) && ReturnPricing.Entitlement(s, 0) == 0
      && s.beforeCouponCents == ReturnPricing.KeptGross(s, s.quantity) && s.quantity == lines[i].quantity
      && s.netCents == CheckoutItemPrices(PricedCart(bundles, lines, rules), discount).value[i].lineTotalCents
  {
    var p := PricedCart(bundles, lines, rules);
    GoodTiersPrices(lines, rules);
    CartLines(bundles, lines, rules);
    CheckoutExact(p, discount);
    assert ItemExact(p.lines[i], Discounts(p, discount)[i], CheckoutItemPrices(p, discount).value[i]);
    OrdinaryBasis(bundles, lines, rules, i);
    SnapshotReadable(p, discount, i);
    FreshSnapshotOwesNothing(p, discount, i);
  }

  lemma StoredBasis(bundles: seq<Candidate>, lines: seq<Line>, rules: seq<ComboRule>, discount: int, i: nat)
    requires BundlePricing.Recipes(bundles) && Cart(lines) && i < |lines|
    requires Tagged(PricedCart(bundles, lines, rules).lines)
    requires CheckoutItemPrices(PricedCart(bundles, lines, rules), discount).Ok?
    ensures i < |CheckoutItemPrices(PricedCart(bundles, lines, rules), discount).value|
    ensures var item := CheckoutItemPrices(PricedCart(bundles, lines, rules), discount).value[i];
      item.breakdown.UnitRates? ==>
        item.breakdown.snapshot.tiers == SnapshotTiers(TiersFor(lines[i], rules))
        && item.breakdown.snapshot.individualCents == lines[i].individualCents
  {
    var p := PricedCart(bundles, lines, rules);
    CheckoutExact(p, discount);
    assert ItemExact(p.lines[i], Discounts(p, discount)[i], CheckoutItemPrices(p, discount).value[i]);
  }

  /** A volume snapshot is safe to re-price exactly when the live tiers of its line pass
      their boundary checks. */
  lemma SnapshotsSafe(bundles: seq<Candidate>, lines: seq<Line>, rules: seq<ComboRule>, discount: int, i: nat)
    requires BundlePricing.Recipes(bundles) && Cart(lines) && GoodTiers(lines, rules) && i < |lines|
    requires Tagged(PricedCart(bundles, lines, rules).lines)
    requires CheckoutItemPrices(PricedCart(bundles, lines, rules), discount).Ok?
    requires i < |CheckoutItemPrices(PricedCart(bundles, lines, rules), discount).value|
    requires CheckoutItemPrices(PricedCart(bundles, lines, rules), discount).value[i].breakdown.UnitRates?
    ensures var s := CheckoutItemPrices(PricedCart(bundles, lines, rules), discount).value[i].breakdown.snapshot;
      && ReturnPricing.Frozen(s)
      && (ReturnPricing.SafeSnapshot(s) <==> AllValid(TiersFor(lines[i], rules), lines[i].individualCents))
  {
    SnapshotsWork(bundles, lines, rules, discount, i);
    StoredBasis(bundles, lines, rules, discount, i);
    SnapshotTiersValidAlike(TiersFor(lines[i], rules), lines[i].individualCents);
  }

  /** A later return charges the kept units of a frozen line as ordinary pricing would have
      charged a line of just those units. */
  lemma KeptPricedLive(bundles: seq<Candidate>, lines: seq<Line>, rules: seq<ComboRule>, discount: int, i: nat,
                       kept: nat)
    requires BundlePricing.Recipes(bundles) && Cart(lines) && i < |lines|
    requires Tagged(PricedCart(bundles, lines, rules).lines)
    requires CheckoutItemPrices(PricedCart(bundles, lines, rules), discount).Ok?
    ensures i < |CheckoutItemPrices(PricedCart(bundles, lines, rules), discount).value|
    ensures CheckoutItemPrices(PricedCart(bundles, lines, rules), discount).value[i].breakdown.UnitRates? ==>
      var s := CheckoutItemPrices(PricedCart(bundles, lines, rules), discount).value[i].breakdown.snapshot;
      && ReturnPricing.KeptGross(s, kept) == OrdinaryCents(lines[i].(quantity := kept), rules)
      && ReturnPricing.KeptGross(s, kept)
        == kept * VolumeRate(kept, lines[i].individualCents, TiersFor(lines[i], rules))
  {
    StoredBasis(bundles, lines, rules, discount, i);
    SnapshotTiersPriceAlike(kept, lines[i].individualCents, TiersFor(lines[i], rules));
  }

  /** What a frozen line `s` of the cart line `l` says: it is safe, and any units kept of it are
      charged as ordinary pricing would charge a line of just those units. */
  ghost predicate FrozenFrom(s: ReturnPricing.Snapshot, l: Line, rules: seq<ComboRule>) {
    && ReturnPricing.SafeSnapshot(s) && s.quantity == l.quantity && s.individualCents == l.individualCents
    && s.tiers == SnapshotTiers(TiersFor(l, rules))
  }

  /** What is still paid of a line after these returns. */
  ghost function StillPaid(s: ReturnPricing.Snapshot, units: seq<int>): int
    requires ReturnPricing.SchemaValid(s)
  {
    s.netCents - ReturnPricing.Refunded(s, units)
  }

  lemma LinePaid(s: ReturnPricing.Snapshot, l: Line, rules: seq<ComboRule>, units: seq<int>)
    requires FrozenFrom(s, l, rules) && ReturnPricing.History(s, units)
    ensures ReturnPricing.HalfUp(OrdinaryCents(l.(quantity := l.quantity - Sum(units)), rules), s.netCents,
      OrdinaryCents(l, rules), StillPaid(s, units))
  {
    var kept := l.quantity - Sum(units);
    SnapshotTiersPriceAlike(kept, l.individualCents, TiersFor(l, rules));
    SnapshotTiersPriceAlike(l.quantity, l.individualCents, TiersFor(l, rules));
    ReturnPricing.CustomerPaysForKeptUnits(s, units);
    ReturnPricing.ProrateMeans(ReturnPricing.KeptGross(s, kept), s.netCents, s.beforeCouponCents);
  }

  /** After every history of returns the customer has paid what the kept units would cost alone,
      prorated by the coupon and rounded half up. */
  ghost predicate PaysForKeptAlone(s: ReturnPricing.Snapshot, l: Line, rules: seq<ComboRule>)
    requires ReturnPricing.SchemaValid(s)
  {
    forall units :: ReturnPricing.History(s, units) ==>
      ReturnPricing.HalfUp(OrdinaryCents(l.(quantity := l.quantity - Sum(units)), rules), s.netCents,
        OrdinaryCents(l, rules), StillPaid(s, units))
  }

  lemma FrozenLinePays(s: ReturnPricing.Snapshot, l: Line, rules: seq<ComboRule>)
    requires FrozenFrom(s, l, rules)
    ensures PaysForKeptAlone(s, l, rules)
  {
    forall units | ReturnPricing.History(s, units)
      ensures ReturnPricing.HalfUp(OrdinaryCents(l.(quantity := l.quantity - Sum(units)), rules), s.netCents,
        OrdinaryCents(l, rules), StillPaid(s, units))
    {
      LinePaid(s, l, rules, units);
    }
  }

  /** A volume line of an accepted cart with valid band boundaries, as it is frozen. */
  lemma SafeLine(bundles: seq<Candidate>, lines: seq<Line>, rules: seq<ComboRule>, discount: int, i: nat,
                 s: ReturnPricing.Snapshot)
    requires BundlePricing.Recipes(bundles) && Cart(lines) && GoodTiers(lines, rules) && i < |lines|
    requires Tagged(PricedCart(bundles, lines, rules).lines)
    requires CheckoutItemPrices(PricedCart(bundles, lines, rules), discount).Ok?
    requires i < |CheckoutItemPrices(PricedCart(bundles, lines, rules), discount).value|
    requires CheckoutItemPrices(PricedCart(bundles, lines, rules), discount).value[i].breakdown == UnitRates(s)
    requires AllValid(TiersFor(lines[i], rules), lines[i].individualCents)
    ensures FrozenFrom(s, lines[i], rules)
  {
    SnapshotsSafe(bundles, lines, rules, discount, i);
    SnapshotsWork(bundles, lines, rules, discount, i);
    StoredBasis(bundles, lines, rules, discount, i);
  }

  /** After checkout with valid band boundaries, whatever comes back in whatever order, the
      customer has paid exactly what the kept units would cost alone, prorated by the coupon. */
  lemma KeptUnitsArePaid(bundles: seq<Candidate>, lines: seq<Line>, rules: seq<ComboRule>, discount: int, i: nat,
                         s: ReturnPricing.Snapshot)
    requires BundlePricing.Recipes(bundles) && Cart(lines) && GoodTiers(lines, rules) && i < |lines|
    requires Tagged(PricedCart(bundles, lines, rules).lines)
    requires CheckoutItemPrices(PricedCart(bundles, lines, rules), discount).Ok?
    requires i < |CheckoutItemPrices(PricedCart(bundles, lines, rules), discount).value|
    requires CheckoutItemPrices(PricedCart(bundles, lines, rules), discount).value[i].breakdown == UnitRates(s)
    requires AllValid(TiersFor(lines[i], rules), lines[i].individualCents)
    ensures ReturnPricing.SchemaValid(s) && PaysForKeptAlone(s, lines[i], rules)
  {
    SafeLine(bundles, lines, rules, discount, i, s);
    FrozenLinePays(s, lines[i], rules);
  }

  // --- The Maps that carry a priced cart ---------------------------------------------------

  /** `[...priced.lineUnitPricesCents]` with the other Maps looked up line by line. */
  function Gather(order: seq<int>, units: map<int, seq<int>>, basis: map<int, Basis>,
                  tags: map<int, seq<BundleUnit>>): (r: seq<PricedLine>)
    requires forall i :: 0 <= i < |order| ==> order[i] in units && order[i] in basis
    ensures |r| == |order|
  {
    seq(|order|, i requires 0 <= i < |order| =>
      PricedLine(order[i], units[order[i]], basis[order[i]], if order[i] in tags then Some(tags[order[i]]) else None))
  }

  lemma GatherIsPriced(order: seq<int>, at: Placement, basis: map<int, Basis>, lines: seq<Line>, rules: seq<ComboRule>)
    requires SpellsOut(order, basis, lines, BasisBy(rules)) && forall l :: l in lines ==> l.lineId in at.units
    ensures forall i :: 0 <= i < |order| ==> order[i] in at.units && order[i] in basis
    ensures Gather(order, at.units, basis, at.identities) == Map(PricedBy(at, rules), lines)
  {
    forall i | 0 <= i < |order|
      ensures order[i] == lines[i].lineId && order[i] in at.units
      ensures order[i] in basis && basis[order[i]] == BasisOf(lines[i], rules)
    {
      assert lines[i] in lines;
    }
  }

  /** The priced result read back from its Maps. */
  method ReadPriced(r: Merchandise, lines: seq<Line>, rules: seq<ComboRule>) returns (p: Priced)
    requires Cart(lines) && Consistent(r, lines, rules)
    ensures p ==
      Priced(Map(PricedBy(EntriesOf(r.combo, r.bundleUnits).at, rules), lines), r.combo.subtotal, |r.applied|)
  {
    ghost var at := EntriesOf(r.combo, r.bundleUnits).at;
    GatherIsPriced(r.combo.lineUnits.order, at, r.combo.basis.entries, lines, rules);
    var items := Gather(r.combo.lineUnits.order, r.combo.lineUnits.entries, r.combo.basis.entries,
      r.bundleUnits.entries);
    p := Priced(items, r.combo.subtotal, |r.applied|);
  }

  /** No bundles on offer is the same as bundles switched off. */
  lemma BundlesOff(lines: seq<Line>, rules: seq<ComboRule>)
    requires Cart(lines)
    ensures Placed([], lines, rules) == Base(lines, rules)
    ensures BundlePricing.Subtotal([], lines, rules) == OrdinarySubtotal(lines, rules)
    ensures BundlePricing.Chosen([], lines, rules) == []
  {
    assert BundlePricing.SortBundles([]) == [];
    assert Map(BundlePricing.SavingBy(lines, rules), []) == [];
  }

  /** Pricing a cart and freezing it, through the mutable Maps. */
  method CheckoutCart(lines: seq<Line>, rules: seq<ComboRule>, bundles: seq<Candidate>, allowBundles: bool,
                      discount: int)
    returns (r: Result<seq<ItemPrices>>, applied: seq<AppliedBundle>)
    requires Cart(lines) && BundlePricing.Recipes(bundles) && GoodPrices(lines, rules)
    ensures var offered := if allowBundles then bundles else [];
      Tagged(PricedCart(offered, lines, rules).lines)
      && r == CheckoutItemPrices(PricedCart(offered, lines, rules), discount)
    ensures var offered := if allowBundles then bundles else [];
      AllApplicable(BundlePricing.Chosen(offered, lines, rules), lines, rules)
      && applied == AppliedAll(BundlePricing.Chosen(offered, lines, rules), lines, rules)
  {
    var m := PriceMerchandise.PriceMerchandise(lines, rules, bundles, allowBundles);
    ghost var offered := if allowBundles then bundles else [];
    BundlesOff(lines, rules);
    var p := ReadPriced(m, lines, rules);
    ChosenApplicable(offered, lines, rules);
    CartLines(offered, lines, rules);
    assert p == PricedCart(offered, lines, rules);
    r := CheckoutItemPrices(p, discount);
    applied := m.applied;
  }
}
