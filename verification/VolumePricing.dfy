/** Volume bands and whole-line pricing (backend/src/lib/combo-pricing.ts). */
module VolumePricing {
  import opened Common
  import opened JsMaps

  /** A band: from `minQty` units on, every unit of the line costs `priceCents`. */
  datatype Tier = Tier(minQty: int, priceCents: int)

  datatype ComboRule = ComboRule(id: int, priority: int, appliesToAll: bool, directProductIds: seq<int>,
                                 categoryTargets: seq<int>, collections: seq<int>, tiers: seq<Tier>)

  datatype Line = Line(lineId: int, variantID: int, productId: int, quantity: int, individualCents: int)

  // --- Which band a quantity falls in -----------------------------------------------

  function InsertDescending(t: Tier, s: seq<Tier>): seq<Tier> {
    if s == [] || s[0].minQty <= t.minQty then [t] + s else [s[0]] + InsertDescending(t, s[1..])
  }

  /** `[...tiers].sort((a, b) => b.minQty - a.minQty)`, a stable sort. */
  function SortDescending(tiers: seq<Tier>): seq<Tier> {
    if tiers == [] then [] else InsertDescending(tiers[0], SortDescending(tiers[1..]))
  }

  /** `.find((tier) => quantity >= tier.minQty)` */
  function FindBand(quantity: int, tiers: seq<Tier>): Option<Tier> {
    if tiers == [] then None
    else if quantity >= tiers[0].minQty then Some(tiers[0])
    else FindBand(quantity, tiers[1..])
  }

  function Band(quantity: int, tiers: seq<Tier>): Option<Tier> { FindBand(quantity, SortDescending(tiers)) }

  function VolumeRate(quantity: int, individualCents: int, tiers: seq<Tier>): int {
    match Band(quantity, tiers)
    case Some(band) => Min(individualCents, band.priceCents)
    case None => individualCents
  }

  /** Of a tier and the band found among the later tiers, the one that wins. */
  function Prefer(quantity: int, t: Tier, rest: Option<Tier>): Option<Tier> {
    if quantity >= t.minQty && (rest == None || rest.value.minQty <= t.minQty) then Some(t) else rest
  }

  ghost predicate Descending(s: seq<Tier>) {
    forall i, j :: 0 <= i < j < |s| ==> s[i].minQty >= s[j].minQty
  }

  lemma {:induction false} FindAfterInsert(quantity: int, t: Tier, s: seq<Tier>)
    requires Descending(s)
    ensures FindBand(quantity, InsertDescending(t, s)) == Prefer(quantity, t, FindBand(quantity, s))
    ensures Descending(InsertDescending(t, s)) && InsertDescending(t, s)[0] in [t] + s[..Min(1, |s|)]
  {
    if s != [] && !(s[0].minQty <= t.minQty) {
      FindAfterInsert(quantity, t, s[1..]);
    } else if s != [] {
      FindIsHead(quantity, s);
    }
  }

  lemma {:induction false} FindIsHead(quantity: int, s: seq<Tier>)
    ensures FindBand(quantity, s).Some? ==>
      FindBand(quantity, s).value in s && FindBand(quantity, s).value.minQty <= quantity
    ensures FindBand(quantity, s) == None ==> forall t :: t in s ==> quantity < t.minQty
  {
    if s != [] {
      FindIsHead(quantity, s[1..]);
      assert s == [s[0]] + s[1..];
    }
  }

  lemma {:induction false} SortedDescending(tiers: seq<Tier>)
    ensures Descending(SortDescending(tiers))
  {
    if tiers != [] {
      SortedDescending(tiers[1..]);
      FindAfterInsert(0, tiers[0], SortDescending(tiers[1..]));
    }
  }

  /** Sorting then searching is the same as keeping the best tier seen from the right. */
  lemma BandOfCons(quantity: int, t: Tier, rest: seq<Tier>)
    ensures Band(quantity, [t] + rest) == Prefer(quantity, t, Band(quantity, rest))
  {
    SortedDescending(rest);
    FindAfterInsert(quantity, t, SortDescending(rest));
    assert ([t] + rest)[1..] == rest;
  }

  /** The band of a quantity is a tier with the largest threshold the quantity reaches,
      and there is none exactly when it reaches no threshold. */
  lemma {:induction false} BandIsLargestReached(quantity: int, tiers: seq<Tier>)
    ensures match Band(quantity, tiers)
      case Some(b) => b in tiers && b.minQty <= quantity
        && forall t :: t in tiers && t.minQty <= quantity ==> t.minQty <= b.minQty
      case None => forall t :: t in tiers ==> quantity < t.minQty
  {
    if tiers != [] {
      assert tiers == [tiers[0]] + tiers[1..];
      BandOfCons(quantity, tiers[0], tiers[1..]);
      BandIsLargestReached(quantity, tiers[1..]);
    }
  }

  /** Crossing no threshold keeps the band. */
  lemma {:induction false} BandConstant(quantity: int, tiers: seq<Tier>)
    requires forall t :: t in tiers ==> t.minQty != quantity + 1
    ensures Band(quantity + 1, tiers) == Band(quantity, tiers)
  {
    if tiers != [] {
      assert tiers == [tiers[0]] + tiers[1..];
      BandOfCons(quantity, tiers[0], tiers[1..]);
      BandOfCons(quantity + 1, tiers[0], tiers[1..]);
      BandConstant(quantity, tiers[1..]);
    }
  }

  /** Position `i` holds the tier charged: the first of those with the largest threshold reached. */
  ghost predicate ChargedAt(quantity: int, tiers: seq<Tier>, i: int) {
    && 0 <= i < |tiers| && tiers[i].minQty <= quantity
    && (forall k :: 0 <= k < |tiers| && tiers[k].minQty <= quantity ==> tiers[k].minQty <= tiers[i].minQty)
    && forall k :: 0 <= k < i ==> tiers[k].minQty != tiers[i].minQty
  }

  lemma {:induction false} BandIsChargedAt(quantity: int, tiers: seq<Tier>) returns (i: int)
    ensures Band(quantity, tiers) == None ==> forall k :: 0 <= k < |tiers| ==> quantity < tiers[k].minQty
    ensures Band(quantity, tiers).Some? ==> ChargedAt(quantity, tiers, i) && Band(quantity, tiers).value == tiers[i]
  {
    i := 0;
    if tiers != [] {
      var t, rest := tiers[0], tiers[1..];
      assert tiers == [t] + rest;
      BandOfCons(quantity, t, rest);
      i := BandIsChargedAt(quantity, rest);
      assert forall k :: 1 <= k < |tiers| ==> tiers[k] == rest[k - 1];
      if quantity >= t.minQty && (Band(quantity, rest) == None || Band(quantity, rest).value.minQty <= t.minQty) {
        i := 0;
      } else {
        i := i + 1;
      }
    }
  }

  /** The rate is the individual price where no threshold is reached, and otherwise the smaller of
      it and the price of the tier charged. */
  lemma RateIs(quantity: int, individualCents: int, tiers: seq<Tier>)
    ensures (forall k :: 0 <= k < |tiers| ==> quantity < tiers[k].minQty) ==>
      VolumeRate(quantity, individualCents, tiers) == individualCents
    ensures forall i :: ChargedAt(quantity, tiers, i) ==>
      VolumeRate(quantity, individualCents, tiers)
        == if tiers[i].priceCents < individualCents then tiers[i].priceCents else individualCents
    ensures (exists k :: 0 <= k < |tiers| && tiers[k].minQty <= quantity) ==> exists i :: ChargedAt(quantity, tiers, i)
  {
    var i := BandIsChargedAt(quantity, tiers);
    BandIsLargestReached(quantity, tiers);
    forall k | ChargedAt(quantity, tiers, k) ensures Band(quantity, tiers) == Some(tiers[k]) {
      assert tiers[k] in tiers;
    }
    if k :| 0 <= k < |tiers| && tiers[k].minQty <= quantity { assert tiers[k] in tiers; }
  }

  // --- Derived tiers ----------------------------------------------------------------

  function InsertAscending(t: Tier, s: seq<Tier>): (r: seq<Tier>)
    ensures multiset(r) == multiset{t} + multiset(s)
  {
    if s == [] || t.minQty <= s[0].minQty then [t] + s
    else
      assert s == [s[0]] + s[1..];
      [s[0]] + InsertAscending(t, s[1..])
  }

  function SortAscending(tiers: seq<Tier>): (r: seq<Tier>)
    ensures multiset(r) == multiset(tiers)
  {
    if tiers == [] then []
    else
      assert tiers == [tiers[0]] + tiers[1..];
      InsertAscending(tiers[0], SortAscending(tiers[1..]))
  }

  /** A tier with the last quantity of its band, None for the open-ended last one. */
  datatype DerivedTier = DerivedTier(minQty: int, priceCents: int, maxQty: Option<int>)

  function DeriveTiers(tiers: seq<Tier>): seq<DerivedTier> {
    var sorted := SortAscending(tiers);
    seq(|sorted|, i requires 0 <= i < |sorted| =>
      DerivedTier(sorted[i].minQty, sorted[i].priceCents,
        if i + 1 < |sorted| then Some(sorted[i + 1].minQty - 1) else None))
  }

  /** The tiers the snapshot stores: the derived ones without their upper bounds. */
  function SnapshotTiers(tiers: seq<Tier>): seq<Tier> {
    Map((t: DerivedTier) => Tier(t.minQty, t.priceCents), DeriveTiers(tiers))
  }

  // --- The derived ranges ----------------------------------------------------------

  /** The quantity lies in the range displayed for the tier. */
  predicate InRange(d: DerivedTier, quantity: int) {
    d.minQty <= quantity && (d.maxQty.Some? ==> quantity <= d.maxQty.value)
  }

  function MinQty(): Tier -> int { (t: Tier) => t.minQty }

  ghost predicate DistinctThresholds(tiers: seq<Tier>) { Distinct(Map(MinQty(), tiers)) }

  ghost predicate Ascending(s: seq<Tier>) {
    forall i, j :: 0 <= i < j < |s| ==> s[i].minQty <= s[j].minQty
  }

  lemma {:induction false} InsertKeepsAscending(t: Tier, s: seq<Tier>)
    requires Ascending(s)
    ensures Ascending(InsertAscending(t, s))
  {
    if s != [] && !(t.minQty <= s[0].minQty) {
      InsertKeepsAscending(t, s[1..]);
      var r := InsertAscending(t, s[1..]);
      SameElements(r, [t] + s[1..]);
      forall j | 0 <= j < |r| ensures s[0].minQty <= r[j].minQty { assert r[j] in [t] + s[1..]; }
    }
  }

  lemma {:induction false} SortedAscending(tiers: seq<Tier>)
    ensures Ascending(SortAscending(tiers))
  {
    if tiers != [] {
      SortedAscending(tiers[1..]);
      InsertKeepsAscending(tiers[0], SortAscending(tiers[1..]));
    }
  }

  lemma StrictlySorted(tiers: seq<Tier>)
    requires DistinctThresholds(tiers)
    ensures var sorted := SortAscending(tiers);
      forall i, j :: 0 <= i < j < |sorted| ==> sorted[i].minQty < sorted[j].minQty
  {
    var sorted := SortAscending(tiers);
    SortedAscending(tiers);
    MapPermuted(MinQty(), tiers, sorted);
    DistinctPermuted(Map(MinQty(), tiers), Map(MinQty(), sorted));
    forall i, j | 0 <= i < j < |sorted| ensures sorted[i].minQty < sorted[j].minQty {
      assert Map(MinQty(), sorted)[i] != Map(MinQty(), sorted)[j];
    }
  }

  /** Where the band stands in the sorted list: the last tier the quantity reaches. */
  lemma BandPlace(quantity: int, tiers: seq<Tier>) returns (k: nat)
    requires DistinctThresholds(tiers) && Band(quantity, tiers).Some?
    ensures k < |SortAscending(tiers)| && SortAscending(tiers)[k] == Band(quantity, tiers).value
    ensures SortAscending(tiers)[k].minQty <= quantity
    ensures k + 1 < |SortAscending(tiers)| ==> quantity < SortAscending(tiers)[k + 1].minQty
  {
    var sorted, b := SortAscending(tiers), Band(quantity, tiers).value;
    SameElements(sorted, tiers);
    BandIsLargestReached(quantity, tiers);
    assert b in sorted;
    k :| 0 <= k < |sorted| && sorted[k] == b;
    if k + 1 < |sorted| {
      StrictlySorted(tiers);
      assert sorted[k + 1] in tiers;
    }
  }

  lemma RangeReached(quantity: int, tiers: seq<Tier>, i: nat)
    requires i < |DeriveTiers(tiers)| && DeriveTiers(tiers)[i].minQty <= quantity
    ensures Band(quantity, tiers).Some?
  {
    var sorted := SortAscending(tiers);
    SameElements(sorted, tiers);
    assert sorted[i] in tiers;
    BandIsLargestReached(quantity, tiers);
  }

  lemma OneRange(sorted: seq<Tier>, quantity: int, i: nat, k: nat)
    requires forall a, b :: 0 <= a < b < |sorted| ==> sorted[a].minQty < sorted[b].minQty
    requires i < |sorted| && k < |sorted| && sorted[k].minQty <= quantity
    requires k + 1 < |sorted| ==> quantity < sorted[k + 1].minQty
    ensures sorted[i] == sorted[k] <==> i == k
    ensures i == k <==> sorted[i].minQty <= quantity && (i + 1 < |sorted| ==> quantity < sorted[i + 1].minQty)
  {
    if i < k { assert sorted[i + 1].minQty <= sorted[k].minQty; }
    if k < i { assert sorted[k + 1].minQty <= sorted[i].minQty; }
  }

  /** With distinct thresholds the tier whose displayed range holds a quantity is the one charged. */
  lemma DerivedRangeIsCharged(quantity: int, tiers: seq<Tier>, i: nat)
    requires DistinctThresholds(tiers) && i < |DeriveTiers(tiers)|
    ensures var d := DeriveTiers(tiers)[i];
      InRange(d, quantity) <==> Band(quantity, tiers) == Some(Tier(d.minQty, d.priceCents))
  {
    var sorted, d := SortAscending(tiers), DeriveTiers(tiers)[i];
    assert sorted[i] == Tier(d.minQty, d.priceCents);
    StrictlySorted(tiers);
    if d.minQty <= quantity { RangeReached(quantity, tiers, i); }
    if Band(quantity, tiers).Some? {
      var k := BandPlace(quantity, tiers);
      OneRange(sorted, quantity, i, k);
    }
  }

  /** Two prices for one threshold: the first is charged, but its displayed range is empty and
      the quantity is shown in the range of the second. */
  lemma RepeatedThresholdMisleads(minQty: int, first: int, second: int)
    requires first != second
    ensures var tiers := [Tier(minQty, first), Tier(minQty, second)];
      && DeriveTiers(tiers) == [DerivedTier(minQty, first, Some(minQty - 1)), DerivedTier(minQty, second, None)]
      && !InRange(DeriveTiers(tiers)[0], minQty) && InRange(DeriveTiers(tiers)[1], minQty)
      && Band(minQty, tiers) == Some(Tier(minQty, first))
  {
    var a, b := Tier(minQty, first), Tier(minQty, second);
    assert [a, b][1..] == [b] && [b][1..] == [];
    assert SortAscending([b]) == [b] && SortAscending([a, b]) == [a, b];
    BandOfCons(minQty, b, []);
    BandOfCons(minQty, a, [b]);
    assert [a] + [b] == [a, b] && [b] + [] == [b];
  }

  lemma PreferCommutes(quantity: int, t: Tier, u: Tier, rest: Option<Tier>)
    requires t.minQty > u.minQty
    ensures Prefer(quantity, u, Prefer(quantity, t, rest)) == Prefer(quantity, t, Prefer(quantity, u, rest))
  {
  }

  lemma {:induction false} BandOfInsertAscending(quantity: int, t: Tier, s: seq<Tier>)
    ensures Band(quantity, InsertAscending(t, s)) == Band(quantity, [t] + s)
  {
    if s != [] && !(t.minQty <= s[0].minQty) {
      var u, rest := s[0], s[1..];
      assert s == [u] + rest;
      BandOfInsertAscending(quantity, t, rest);
      BandOfCons(quantity, u, InsertAscending(t, rest));
      BandOfCons(quantity, t, rest);
      BandOfCons(quantity, t, s);
      BandOfCons(quantity, u, rest);
      PreferCommutes(quantity, t, u, Band(quantity, rest));
    }
  }

  lemma {:induction false} BandOfAscending(quantity: int, tiers: seq<Tier>)
    ensures Band(quantity, SortAscending(tiers)) == Band(quantity, tiers)
  {
    if tiers != [] {
      var t, rest := tiers[0], tiers[1..];
      assert tiers == [t] + rest;
      BandOfAscending(quantity, rest);
      BandOfInsertAscending(quantity, t, SortAscending(rest));
      BandOfCons(quantity, t, SortAscending(rest));
      BandOfCons(quantity, t, rest);
    }
  }

  /** The frozen tiers re-price every quantity exactly as the live ones did, duplicates
      and unsorted lists included. */
  lemma SnapshotTiersPriceAlike(quantity: int, individualCents: int, tiers: seq<Tier>)
    ensures VolumeRate(quantity, individualCents, SnapshotTiers(tiers)) == VolumeRate(quantity, individualCents, tiers)
  {
    assert SnapshotTiers(tiers) == SortAscending(tiers);
    BandOfAscending(quantity, tiers);
  }

  // --- Band boundaries --------------------------------------------------------------

  datatype Boundary = Boundary(beforeQuantity: int, afterQuantity: int, beforeTotalCents: int, afterTotalCents: int,
                               valid: bool)

  function Total(quantity: int, individualCents: int, tiers: seq<Tier>): int {
    quantity * VolumeRate(quantity, individualCents, tiers)
  }

  function BoundaryAt(minQty: int, individualCents: int, tiers: seq<Tier>): Boundary {
    var before, after := Total(minQty - 1, individualCents, tiers), Total(minQty, individualCents, tiers);
    Boundary(minQty - 1, minQty, before, after, after > before)
  }

  function Thresholds(derived: seq<DerivedTier>): seq<int> {
    if derived == [] then []
    else (if derived[0].minQty > 1 then [derived[0].minQty] else []) + Thresholds(derived[1..])
  }

  /** `volumeBandBoundaries`: one record for each derived tier above quantity one. */
  function Boundaries(tiers: seq<Tier>, individualCents: int): seq<Boundary> {
    Map(m => BoundaryAt(m, individualCents, tiers), Thresholds(DeriveTiers(tiers)))
  }

  predicate AllValid(tiers: seq<Tier>, individualCents: int) {
    forall i :: 0 <= i < |Boundaries(tiers, individualCents)| ==> Boundaries(tiers, individualCents)[i].valid
  }

  lemma {:induction false} ThresholdsAre(derived: seq<DerivedTier>, m: int)
    ensures m in Thresholds(derived) <==> m > 1 && exists d :: d in derived && d.minQty == m
  {
    if derived != [] {
      ThresholdsAre(derived[1..], m);
      assert derived == [derived[0]] + derived[1..];
    }
  }

  lemma DerivedThresholds(tiers: seq<Tier>, m: int)
    ensures m in Thresholds(DeriveTiers(tiers)) <==> m > 1 && exists t :: t in tiers && t.minQty == m
  {
    ThresholdsAre(DeriveTiers(tiers), m);
    var sorted, derived := SortAscending(tiers), DeriveTiers(tiers);
    SameElements(sorted, tiers);
    forall t | t in tiers && t.minQty == m ensures exists d :: d in derived && d.minQty == m {
      assert t in sorted;
      var i :| 0 <= i < |sorted| && sorted[i] == t;
      assert derived[i] in derived;
    }
    forall d | d in derived && d.minQty == m ensures exists t :: t in tiers && t.minQty == m {
      var i :| 0 <= i < |derived| && derived[i] == d;
      assert sorted[i] in tiers;
    }
  }

  /** Validity, read off the thresholds themselves. */
  lemma ValidAtThresholds(tiers: seq<Tier>, individualCents: int)
    ensures AllValid(tiers, individualCents) <==>
      forall t :: t in tiers && t.minQty > 1 ==> BoundaryAt(t.minQty, individualCents, tiers).valid
  {
    var ms, bs := Thresholds(DeriveTiers(tiers)), Boundaries(tiers, individualCents);
    if AllValid(tiers, individualCents) {
      forall t | t in tiers && t.minQty > 1 ensures BoundaryAt(t.minQty, individualCents, tiers).valid {
        DerivedThresholds(tiers, t.minQty);
        var i :| 0 <= i < |ms| && ms[i] == t.minQty;
        assert bs[i].valid;
      }
    }
    if forall t :: t in tiers && t.minQty > 1 ==> BoundaryAt(t.minQty, individualCents, tiers).valid {
      forall i | 0 <= i < |bs| ensures bs[i].valid {
        assert ms[i] in ms;
        DerivedThresholds(tiers, ms[i]);
      }
    }
  }

  /** The frozen tiers pass their boundary checks exactly when the live ones do. */
  lemma SnapshotTiersValidAlike(tiers: seq<Tier>, individualCents: int)
    ensures AllValid(SnapshotTiers(tiers), individualCents) <==> AllValid(tiers, individualCents)
  {
    var stored := SnapshotTiers(tiers);
    assert stored == SortAscending(tiers);
    SameElements(stored, tiers);
    ValidAtThresholds(stored, individualCents);
    ValidAtThresholds(tiers, individualCents);
    forall m ensures BoundaryAt(m, individualCents, stored) == BoundaryAt(m, individualCents, tiers) {
      SnapshotTiersPriceAlike(m - 1, individualCents, tiers);
      SnapshotTiersPriceAlike(m, individualCents, tiers);
    }
  }

  /** Every reported boundary stands at a threshold above one unit, has the totals of the units on
      both sides at their rates, and is valid exactly when the second is larger. */
  lemma BoundariesMean(tiers: seq<Tier>, individualCents: int, i: nat)
    requires i < |Boundaries(tiers, individualCents)|
    ensures var b := Boundaries(tiers, individualCents)[i];
      && b.afterQuantity > 1 && b.beforeQuantity == b.afterQuantity - 1
      && (exists t :: t in tiers && t.minQty == b.afterQuantity)
      && b.beforeTotalCents == b.beforeQuantity * VolumeRate(b.beforeQuantity, individualCents, tiers)
      && b.afterTotalCents == b.afterQuantity * VolumeRate(b.afterQuantity, individualCents, tiers)
      && (b.valid <==> b.afterTotalCents > b.beforeTotalCents)
  {
    var ms := Thresholds(DeriveTiers(tiers));
    assert ms[i] in ms;
    DerivedThresholds(tiers, ms[i]);
  }

  ghost predicate NonNegativePrices(tiers: seq<Tier>, individualCents: int) {
    0 <= individualCents && forall t :: t in tiers ==> 0 <= t.priceCents
  }

  lemma RateNonNegative(quantity: int, individualCents: int, tiers: seq<Tier>)
    requires NonNegativePrices(tiers, individualCents)
    ensures 0 <= VolumeRate(quantity, individualCents, tiers) <= individualCents
  {
    BandIsLargestReached(quantity, tiers);
  }

  lemma RateConstant(quantity: int, individualCents: int, tiers: seq<Tier>)
    requires forall t :: t in tiers ==> t.minQty != quantity + 1
    ensures VolumeRate(quantity + 1, individualCents, tiers) == VolumeRate(quantity, individualCents, tiers)
  {
    BandConstant(quantity, tiers);
  }

  /** One more unit: never cheaper when the boundaries are valid, and dearer if the rate is positive. */
  lemma OneMoreUnit(quantity: int, individualCents: int, tiers: seq<Tier>)
    requires AllValid(tiers, individualCents) && NonNegativePrices(tiers, individualCents) && 0 <= quantity
    ensures Total(quantity, individualCents, tiers) <= Total(quantity + 1, individualCents, tiers)
    ensures VolumeRate(quantity + 1, individualCents, tiers) > 0 ==>
      Total(quantity, individualCents, tiers) < Total(quantity + 1, individualCents, tiers)
  {
    RateNonNegative(quantity + 1, individualCents, tiers);
    var rate := VolumeRate(quantity + 1, individualCents, tiers);
    assert (quantity + 1) * rate == quantity * rate + rate;
    if quantity > 0 {
      if t :| t in tiers && t.minQty == quantity + 1 {
        ValidAtThresholds(tiers, individualCents);
        assert BoundaryAt(t.minQty, individualCents, tiers).valid;
      } else {
        RateConstant(quantity, individualCents, tiers);
      }
    }
  }

  /** Boundary checks are enough for all quantities. */
  lemma {:induction false} TotalsMonotone(q1: int, q2: int, individualCents: int, tiers: seq<Tier>)
    requires AllValid(tiers, individualCents) && NonNegativePrices(tiers, individualCents) && 0 <= q1 <= q2
    ensures Total(q1, individualCents, tiers) <= Total(q2, individualCents, tiers)
    decreases q2 - q1
  {
    if q1 < q2 {
      TotalsMonotone(q1, q2 - 1, individualCents, tiers);
      OneMoreUnit(q2 - 1, individualCents, tiers);
    }
  }

  lemma {:induction false} RatePositive(q: int, individualCents: int, tiers: seq<Tier>)
    requires AllValid(tiers, individualCents) && NonNegativePrices(tiers, individualCents)
    requires VolumeRate(1, individualCents, tiers) > 0 && 1 <= q
    ensures VolumeRate(q, individualCents, tiers) > 0
  {
    TotalsMonotone(1, q, individualCents, tiers);
    RateNonNegative(q, individualCents, tiers);
  }

  lemma {:induction false} TotalsStrict(q1: int, q2: int, individualCents: int, tiers: seq<Tier>)
    requires AllValid(tiers, individualCents) && NonNegativePrices(tiers, individualCents)
    requires VolumeRate(1, individualCents, tiers) > 0 && 0 <= q1 < q2
    ensures Total(q1, individualCents, tiers) < Total(q2, individualCents, tiers)
  {
    TotalsMonotone(q1, q2 - 1, individualCents, tiers);
    RatePositive(q2, individualCents, tiers);
    OneMoreUnit(q2 - 1, individualCents, tiers);
  }

  ghost predicate StrictlyGrowing(individualCents: int, tiers: seq<Tier>) {
    forall q1, q2 :: 0 <= q1 < q2 ==> Total(q1, individualCents, tiers) < Total(q2, individualCents, tiers)
  }

  /** The finitely many boundary checks decide growth over all quantities, in both directions. */
  lemma BoundaryChecksDecideGrowth(individualCents: int, tiers: seq<Tier>)
    requires NonNegativePrices(tiers, individualCents)
    ensures StrictlyGrowing(individualCents, tiers) <==>
      VolumeRate(1, individualCents, tiers) > 0 && AllValid(tiers, individualCents)
  {
    if VolumeRate(1, individualCents, tiers) > 0 && AllValid(tiers, individualCents) {
      forall q1, q2 | 0 <= q1 < q2 ensures Total(q1, individualCents, tiers) < Total(q2, individualCents, tiers) {
        TotalsStrict(q1, q2, individualCents, tiers);
      }
    }
    if StrictlyGrowing(individualCents, tiers) {
      assert Total(0, individualCents, tiers) < Total(1, individualCents, tiers);
      ValidAtThresholds(tiers, individualCents);
      forall t | t in tiers && t.minQty > 1 ensures BoundaryAt(t.minQty, individualCents, tiers).valid {
        assert Total(t.minQty - 1, individualCents, tiers) < Total(t.minQty, individualCents, tiers);
      }
    }
  }

  // --- Rules and whole lines --------------------------------------------------------

  /** Only a rule aimed at exactly this one product applies. */
  predicate Applies(rule: ComboRule, productId: int) {
    && !rule.appliesToAll
    && rule.directProductIds == [productId]
    && rule.categoryTargets == [] && rule.collections == []
  }

  predicate RuleBefore(a: ComboRule, b: ComboRule) {
    a.priority > b.priority || (a.priority == b.priority && a.id < b.id)
  }

  function Matches(productId: int, rules: seq<ComboRule>): seq<ComboRule> {
    if rules == [] then []
    else (if Applies(rules[0], productId) then [rules[0]] else []) + Matches(productId, rules[1..])
  }

  function InsertRule(r: ComboRule, s: seq<ComboRule>): seq<ComboRule> {
    if s == [] || !RuleBefore(s[0], r) then [r] + s else [s[0]] + InsertRule(r, s[1..])
  }

  function SortRules(s: seq<ComboRule>): seq<ComboRule> {
    if s == [] then [] else InsertRule(s[0], SortRules(s[1..]))
  }

  function PickRule(productId: int, rules: seq<ComboRule>): Option<ComboRule> {
    var sorted := SortRules(Matches(productId, rules));
    if sorted == [] then None else Some(sorted[0])
  }

  lemma {:induction false} FirstRuleBest(s: seq<ComboRule>)
    ensures (SortRules(s) == []) == (s == [])
    ensures s != [] ==> SortRules(s)[0] in s && forall r :: r in s ==> !RuleBefore(r, SortRules(s)[0])
  {
    if s != [] {
      FirstRuleBest(s[1..]);
      assert s == [s[0]] + s[1..];
    }
  }

  lemma {:induction false} MatchesAre(productId: int, rules: seq<ComboRule>, r: ComboRule)
    ensures r in Matches(productId, rules) <==> r in rules && Applies(r, productId)
  {
    if rules != [] {
      MatchesAre(productId, rules[1..], r);
      assert rules == [rules[0]] + rules[1..];
    }
  }

  /** The rule chosen for a product applies to it and no applicable rule precedes it;
      there is none exactly when no rule applies. */
  lemma PickedRuleIsBest(productId: int, rules: seq<ComboRule>)
    ensures match PickRule(productId, rules)
      case Some(best) => best in rules && Applies(best, productId)
        && forall r :: r in rules && Applies(r, productId) ==> !RuleBefore(r, best)
      case None => forall r :: r in rules ==> !Applies(r, productId)
  {
    FirstRuleBest(Matches(productId, rules));
    forall r ensures r in Matches(productId, rules) <==> r in rules && Applies(r, productId) {
      MatchesAre(productId, rules, r);
    }
    assert Matches(productId, rules) == [] || Matches(productId, rules)[0] in Matches(productId, rules);
  }

  function TiersFor(line: Line, rules: seq<ComboRule>): seq<Tier> {
    match PickRule(line.productId, rules)
    case Some(rule) => rule.tiers
    case None => []
  }

  function Rate(line: Line, rules: seq<ComboRule>): int {
    VolumeRate(line.quantity, line.individualCents, TiersFor(line, rules))
  }

  function OrdinaryCents(line: Line, rules: seq<ComboRule>): int { line.quantity * Rate(line, rules) }

  /** `Array(quantity).fill(rate)`; a cart quantity is never below one. */
  function OrdinaryUnits(line: Line, rules: seq<ComboRule>): seq<int> {
    Fill(Max(0, line.quantity), Rate(line, rules))
  }

  function PickedId(line: Line, rules: seq<ComboRule>): Option<int> {
    match PickRule(line.productId, rules)
    case Some(rule) => Some(rule.id)
    case None => None
  }

  /** The rule is named only where it beats the individual price. */
  function OrdinaryRule(line: Line, rules: seq<ComboRule>): Option<int> {
    if Rate(line, rules) < line.individualCents then PickedId(line, rules) else None
  }

  /** What a later return needs to price any kept quantity of the line. */
  datatype Basis = Basis(quantity: int, individualCents: int, tiers: seq<Tier>, rule: Option<int>)

  function BasisOf(line: Line, rules: seq<ComboRule>): Basis {
    Basis(line.quantity, line.individualCents, SnapshotTiers(TiersFor(line, rules)), PickedId(line, rules))
  }

  /** The rule aims at this one product and at nothing else. */
  ghost predicate AimsAt(r: ComboRule, productId: int) {
    !r.appliesToAll && |r.directProductIds| == 1 && r.directProductIds[0] == productId && |r.categoryTargets| == 0
    && |r.collections| == 0
  }

  /** The rule of a product is, of those aimed at it, one of the highest priority and among these
      of the smallest id; there is none exactly when none aims at it. */
  lemma PickedRuleMeans(productId: int, rules: seq<ComboRule>)
    ensures PickRule(productId, rules).Some? <==> exists r :: r in rules && AimsAt(r, productId)
    ensures PickRule(productId, rules).Some? ==>
      var best := PickRule(productId, rules).value;
      && best in rules && AimsAt(best, productId)
      && forall r :: r in rules && AimsAt(r, productId) ==>
           r.priority < best.priority || (r.priority == best.priority && best.id <= r.id)
  {
    PickedRuleIsBest(productId, rules);
    forall r ensures Applies(r, productId) <==> AimsAt(r, productId) {
      if AimsAt(r, productId) { assert r.directProductIds == [productId]; }
    }
  }

  lemma UnbeatenWithoutTiers(quantity: int, individualCents: int)
    ensures VolumeRate(quantity, individualCents, []) == individualCents
  {
    assert SortDescending([]) == [];
  }

  /** What ordinary pricing says of a line: every unit at the rate of the whole quantity, and the
      rule named exactly where that beats the individual price. */
  lemma OrdinaryLineMeans(l: Line, rules: seq<ComboRule>)
    requires l.quantity >= 0
    ensures OrdinaryCents(l, rules) == l.quantity * VolumeRate(l.quantity, l.individualCents, TiersFor(l, rules))
    ensures |OrdinaryUnits(l, rules)| == l.quantity
    ensures forall u :: u in OrdinaryUnits(l, rules) ==>
      u == VolumeRate(l.quantity, l.individualCents, TiersFor(l, rules))
    ensures OrdinaryRule(l, rules).Some?
      <==> VolumeRate(l.quantity, l.individualCents, TiersFor(l, rules)) < l.individualCents
    ensures match PickRule(l.productId, rules)
      case Some(rule) => TiersFor(l, rules) == rule.tiers && OrdinaryRule(l, rules) in {Some(rule.id), None}
      case None => TiersFor(l, rules) == [] && OrdinaryRule(l, rules) == None
  {
    UnbeatenWithoutTiers(l.quantity, l.individualCents);
  }

  /** ... and the basis a later return needs: the line as sold, its rule, and its tiers in order. */
  lemma BasisMeans(l: Line, rules: seq<ComboRule>)
    ensures BasisOf(l, rules).quantity == l.quantity && BasisOf(l, rules).individualCents == l.individualCents
    ensures Permuted(BasisOf(l, rules).tiers, TiersFor(l, rules)) && Ascending(BasisOf(l, rules).tiers)
    ensures match PickRule(l.productId, rules)
      case Some(rule) => BasisOf(l, rules).rule == Some(rule.id)
      case None => BasisOf(l, rules).rule == None
  {
    SortedAscending(TiersFor(l, rules));
    assert SnapshotTiers(TiersFor(l, rules)) == SortAscending(TiersFor(l, rules));
  }

  function LineIds(lines: seq<Line>): seq<int> { Map((l: Line) => l.lineId, lines) }

  function VariantIds(lines: seq<Line>): seq<int> { Map((l: Line) => l.variantID, lines) }

  /** What the cart guarantees of its lines. */
  ghost predicate Cart(lines: seq<Line>) {
    && Distinct(LineIds(lines)) && Distinct(VariantIds(lines))
    && forall l :: l in lines ==> l.quantity >= 1 && l.individualCents >= 0
  }

  function TotalBy(rules: seq<ComboRule>): Line -> int { l => OrdinaryCents(l, rules) }

  function UnitsBy(rules: seq<ComboRule>): Line -> seq<int> { l => OrdinaryUnits(l, rules) }

  function RuleBy(rules: seq<ComboRule>): Line -> Option<int> { l => OrdinaryRule(l, rules) }

  function BasisBy(rules: seq<ComboRule>): Line -> Basis { l => BasisOf(l, rules) }

  function OrdinarySubtotal(lines: seq<Line>, rules: seq<ComboRule>): int {
    Sum(Map(TotalBy(rules), lines))
  }

  function IndividualSubtotal(lines: seq<Line>): int {
    Sum(Map((l: Line) => l.individualCents * l.quantity, lines))
  }

  /** The Maps `applyComboPricing` returns. */
  datatype ComboPricing = ComboPricing(lineTotals: JsMap<int>, lineUnits: JsMap<seq<int>>,
                                       lineRules: JsMap<Option<int>>,
                                       basis: JsMap<Basis>, subtotal: int, savings: int)

  ghost predicate SpellsOut<V>(order: seq<int>, entries: map<int, V>, lines: seq<Line>, f: Line -> V) {
    && order == LineIds(lines)
    && forall l :: l in lines ==> l.lineId in entries && entries[l.lineId] == f(l)
  }

  ghost predicate Describes<V>(m: JsMap<V>, lines: seq<Line>, f: Line -> V)
    reads m
  {
    m.Valid() && SpellsOut(m.order, m.entries, lines, f)
  }

  lemma SpellsOutNext<V>(order: seq<int>, entries: map<int, V>, lines: seq<Line>, n: nat, f: Line -> V)
    requires n < |lines| && Distinct(LineIds(lines))
    requires SpellsOut(order, entries, lines[..n], f) && Elements(order) == entries.Keys
    ensures lines[n].lineId !in entries
    ensures SpellsOut(order + [lines[n].lineId], entries[lines[n].lineId := f(lines[n])], lines[..n + 1], f)
  {
    var id := lines[n].lineId;
    assert lines[..n + 1] == lines[..n] + [lines[n]];
    assert LineIds(lines[..n]) == LineIds(lines)[..n] && LineIds(lines)[n] == id;
    forall i | 0 <= i < n ensures LineIds(lines)[i] == lines[i].lineId != id {
    }
    assert id !in order;
    assert id !in Elements(order);
    assert LineIds(lines[..n + 1]) == LineIds(lines[..n]) + [id];
  }

  /** Adding one line's entry keeps the Map in step with the lines priced so far. */
  method SetLine<V>(m: JsMap<V>, ghost lines: seq<Line>, ghost n: nat, line: Line, v: V, ghost f: Line -> V)
    requires n < |lines| && lines[n] == line && Distinct(LineIds(lines))
    requires Describes(m, lines[..n], f) && v == f(line)
    modifies m
    ensures Describes(m, lines[..n + 1], f)
  {
    SpellsOutNext(m.order, m.entries, lines, n, f);
    m.Set(line.lineId, v);
  }

  /** What each of the four Maps should say of a line. */
  datatype LineSpec = LineSpec(total: Line -> int, units: Line -> seq<int>, rule: Line -> Option<int>,
                               basis: Line -> Basis)

  function OrdinarySpec(rules: seq<ComboRule>): LineSpec {
    LineSpec(TotalBy(rules), UnitsBy(rules), RuleBy(rules), BasisBy(rules))
  }

  ghost predicate Prices(p: ComboPricing, lines: seq<Line>, spec: LineSpec)
    reads p.lineTotals, p.lineUnits, p.lineRules, p.basis
  {
    && Describes(p.lineTotals, lines, spec.total) && Describes(p.lineUnits, lines, spec.units)
    && Describes(p.lineRules, lines, spec.rule) && Describes(p.basis, lines, spec.basis)
  }

  ghost predicate Separate(p: ComboPricing) {
    var a: object, b: object, c: object, d: object := p.lineTotals, p.lineUnits, p.lineRules, p.basis;
    a != b && a != c && a != d && b != c && b != d && c != d
  }

  method PriceLine(p: ComboPricing, ghost lines: seq<Line>, ghost n: nat, line: Line, spec: LineSpec)
    requires n < |lines| && lines[n] == line && Distinct(LineIds(lines))
    requires Separate(p) && Prices(p, lines[..n], spec)
    modifies p.lineTotals, p.lineUnits, p.lineRules, p.basis
    ensures Prices(p, lines[..n + 1], spec)
  {
    SetLine(p.basis, lines, n, line, spec.basis(line), spec.basis);
    SetLine(p.lineTotals, lines, n, line, spec.total(line), spec.total);
    SetLine(p.lineUnits, lines, n, line, spec.units(line), spec.units);
    SetLine(p.lineRules, lines, n, line, spec.rule(line), spec.rule);
  }

  method EmptyMaps(ghost spec: LineSpec) returns (p: ComboPricing)
    ensures fresh(p.lineTotals) && fresh(p.lineUnits) && fresh(p.lineRules) && fresh(p.basis) && Separate(p)
    ensures Prices(p, [], spec)
  {
    var totals := new JsMap<int>();
    var units := new JsMap<seq<int>>();
    var ruleIds := new JsMap<Option<int>>();
    var basis := new JsMap<Basis>();
    p := ComboPricing(totals, units, ruleIds, basis, 0, 0);
  }

  /** The loop over the cart: four Map entries a line and two running totals. */
  method PriceLines(p: ComboPricing, lines: seq<Line>, spec: LineSpec) returns (subtotal: int, individual: int)
    requires Separate(p) && Prices(p, [], spec) && Distinct(LineIds(lines))
    modifies p.lineTotals, p.lineUnits, p.lineRules, p.basis
    ensures Prices(p, lines, spec)
    ensures subtotal == Sum(Map(spec.total, lines)) && individual == IndividualSubtotal(lines)
  {
    subtotal, individual := 0, 0;
    assert lines[..0] == [];
    for i := 0 to |lines|
      invariant Prices(p, lines[..i], spec)
      invariant subtotal == Sum(Map(spec.total, lines[..i])) && individual == IndividualSubtotal(lines[..i])
    {
      PriceLine(p, lines, i, lines[i], spec);
      SumMapSnoc(lines, i, spec.total);
      SumMapSnoc(lines, i, (l: Line) => l.individualCents * l.quantity);
      subtotal := subtotal + spec.total(lines[i]);
      individual := individual + lines[i].individualCents * lines[i].quantity;
    }
    assert lines[..|lines|] == lines;
  }

  method ApplyComboPricing(lines: seq<Line>, rules: seq<ComboRule>) returns (p: ComboPricing)
    requires Cart(lines)
    ensures fresh(p.lineTotals) && fresh(p.lineUnits) && fresh(p.lineRules) && fresh(p.basis) && Separate(p)
    ensures Prices(p, lines, OrdinarySpec(rules))
    ensures p.subtotal == OrdinarySubtotal(lines, rules)
    ensures p.savings == IndividualSubtotal(lines) - OrdinarySubtotal(lines, rules)
  {
    p := EmptyMaps(OrdinarySpec(rules));
    var subtotal, individual := PriceLines(p, lines, OrdinarySpec(rules));
    p := p.(subtotal := subtotal, savings := individual - subtotal);
  }

  lemma SumMapSnoc(lines: seq<Line>, i: nat, f: Line -> int)
    requires i < |lines|
    ensures Sum(Map(f, lines[..i + 1])) == Sum(Map(f, lines[..i])) + f(lines[i])
  {
    assert Map(f, lines[..i + 1]) == Map(f, lines[..i]) + [f(lines[i])];
    SumAppend(Map(f, lines[..i]), [f(lines[i])]);
  }
}
