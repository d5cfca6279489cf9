/** Refunds of volume-priced lines (backend/src/lib/return-pricing.ts): the stored snapshot
    is the only evidence, and prior refunds are deducted from a cumulative entitlement. */
module ReturnPricing {
  import opened Common
  import opened LargestRemainder
  import opened VolumePricing

  datatype Snapshot = Snapshot(quantity: int, individualCents: int, tiers: seq<Tier>, rule: Option<int>,
                               beforeCouponCents: int,
                               couponCents: int, netCents: int, unitPrices: seq<int>)

  /** What an order line may have stored: nothing usable, this model, or a bundle record. */
  datatype Stored = Legacy | UnitRateBands(snapshot: Snapshot) | BundlePurchase(bundleID: int)

  /** Round half up of `amount * numerator / denominator`. */
  function Prorate(amount: int, numerator: int, denominator: int): int
    requires 0 <= denominator
  {
    if denominator == 0 then 0 else (2 * amount * numerator + denominator) / (2 * denominator)
  }

  predicate SchemaValid(s: Snapshot) {
    && s.quantity > 0 && s.individualCents >= 0 && s.beforeCouponCents >= 0 && s.couponCents >= 0 && s.netCents >= 0
    && (forall i :: 0 <= i < |s.tiers| ==> s.tiers[i].minQty > 0 && s.tiers[i].priceCents >= 0)
    && (forall i :: 0 <= i < |s.unitPrices| ==> s.unitPrices[i] >= 0)
  }

  predicate Reconciles(s: Snapshot) {
    && s.couponCents + s.netCents == s.beforeCouponCents
    && |s.unitPrices| == s.quantity
    && Sum(s.unitPrices) == s.netCents
  }

  function ReadPurchasePricing(value: Stored): Result<Option<Snapshot>> {
    match value
    case UnitRateBands(s) => if SchemaValid(s) && Reconciles(s) then Ok(Some(s)) else Err(InvalidSnapshot)
    case _ => Ok(None)
  }

  datatype RefundCalculation = RefundCalculation(keptQuantity: int, keptGrossCents: int, keptNetCents: int,
                                                 proportionalCents: int,
                                                 adjustmentCents: int, cumulativeCents: int, refundCents: int)

  function KeptGross(s: Snapshot, kept: int): int { Total(kept, s.individualCents, s.tiers) }

  function KeptNet(s: Snapshot, kept: int): int
    requires s.beforeCouponCents >= 0
  {
    Prorate(KeptGross(s, kept), s.netCents, s.beforeCouponCents)
  }

  /** What the customer is owed in all once `returned` units are back. */
  function Entitlement(s: Snapshot, returned: int): int
    requires s.beforeCouponCents >= 0
  {
    Max(0, Min(s.netCents, s.netCents - KeptNet(s, s.quantity - returned)))
  }

  function CalculateKeptRefund(s: Snapshot, returned: int, previousCents: int,
                               reservedCents: int): Result<RefundCalculation>
    requires SchemaValid(s)
  {
    if returned < 0 || returned > s.quantity then Err(InvalidQuantity)
    else
      var kept := s.quantity - returned;
      var cumulative := Entitlement(s, returned);
      var accounted := previousCents + reservedCents;
      var refund := Max(0, Min(s.netCents - accounted, cumulative - accounted));
      var proportional := Prorate(s.netCents, returned, s.quantity);
      Ok(RefundCalculation(kept, KeptGross(s, kept), KeptNet(s, kept), proportional, proportional - cumulative,
        cumulative, refund))
  }

  lemma ProrateIsHalfUp(amount: int, numerator: int, denominator: int)
    requires denominator > 0
    ensures var p := Prorate(amount, numerator, denominator);
      2 * denominator * p <= 2 * amount * numerator + denominator < 2 * denominator * p + 2 * denominator
  {
    var x, d := 2 * amount * numerator + denominator, 2 * denominator;
    assert x == d * (x / d) + x % d;
  }

  lemma ProrateAt(a: int, n: int, d: int, p: int)
    requires d > 0 && 2 * d * p <= 2 * a * n + d < 2 * d * p + 2 * d
    ensures Prorate(a, n, d) == p
  {
    ProrateIsHalfUp(a, n, d);
    var q := Prorate(a, n, d);
    if q < p { MulOrder(q + 1, p, 2 * d); }
    if p < q { MulOrder(p + 1, q, 2 * d); }
  }

  lemma ProrateZero(n: int, d: int)
    requires d >= 0
    ensures Prorate(0, n, d) == 0
  {
  }

  lemma ProrateWhole(n: int, d: int)
    requires d >= 0 && 0 <= n <= d
    ensures Prorate(d, n, d) == n
  {
    if d > 0 {
      assert 2 * d * n == 2 * n * d;
      ProrateAt(d, n, d, n);
    }
  }

  lemma ProrateMonotone(a: int, b: int, n: int, d: int)
    requires d >= 0 && n >= 0 && a <= b
    ensures Prorate(a, n, d) <= Prorate(b, n, d)
  {
    if d > 0 {
      MulOrder(a, b, n);
      DivModOrder(2 * b * n + d, 2 * a * n + d, 2 * d);
    }
  }

  // --- Histories of returns ----------------------------------------------------------

  /** Total refunded after returning `units[0]`, then `units[1]`, ...; each call is given the
      refunds of the earlier ones, part of them perhaps still reserved. */
  function Refunded(s: Snapshot, units: seq<int>): int
    requires SchemaValid(s)
  {
    if units == [] then 0
    else
      var before := Refunded(s, units[..|units| - 1]);
      before + match CalculateKeptRefund(s, Sum(units), before, 0)
        case Ok(c) => c.refundCents
        case Err(_) => 0
  }

  /** The running maximum of the cumulative entitlements along a history. */
  function HighestEntitlement(s: Snapshot, units: seq<int>): int
    requires SchemaValid(s)
  {
    if units == [] then 0
    else Max(HighestEntitlement(s, units[..|units| - 1]), Entitlement(s, Sum(units)))
  }

  /** Returns of at least one unit each, never more than were bought. */
  ghost predicate History(s: Snapshot, units: seq<int>) {
    (forall i :: 0 <= i < |units| ==> units[i] >= 1) && Sum(units) <= s.quantity
  }

  lemma HistoryFront(s: Snapshot, units: seq<int>)
    requires History(s, units) && units != []
    ensures History(s, units[..|units| - 1]) && 0 <= Sum(units[..|units| - 1]) < Sum(units) <= s.quantity
  {
    var front, last := units[..|units| - 1], units[|units| - 1];
    assert units == front + [last];
    SumAppend(front, [last]);
    SumNonNegative(front);
  }

  /** The same history when, at each call, part of what went before is still reserved. */
  function RefundedReserving(s: Snapshot, units: seq<int>, reserved: seq<int>): int
    requires SchemaValid(s) && |units| == |reserved|
  {
    if units == [] then 0
    else
      var n := |units| - 1;
      var before := RefundedReserving(s, units[..n], reserved[..n]);
      before + match CalculateKeptRefund(s, Sum(units), before - reserved[n], reserved[n])
        case Ok(c) => c.refundCents
        case Err(_) => 0
  }

  /** However much of the earlier refunds is still reserved at each call, a history refunds the same. */
  lemma {:induction false} ReservationsIrrelevant(s: Snapshot, units: seq<int>, reserved: seq<int>)
    requires SchemaValid(s) && |units| == |reserved|
    ensures RefundedReserving(s, units, reserved) == Refunded(s, units)
  {
    if units != [] { ReservationsIrrelevant(s, units[..|units| - 1], reserved[..|units| - 1]); }
  }

  /** Over any history the total refunded is the running maximum of the entitlements, and
      never more than was paid. */
  lemma {:induction false} RefundedIsRunningMaximum(s: Snapshot, units: seq<int>)
    requires SchemaValid(s) && History(s, units)
    ensures Refunded(s, units) == HighestEntitlement(s, units)
    ensures 0 <= Refunded(s, units) <= s.netCents
  {
    if units != [] {
      HistoryFront(s, units);
      RefundedIsRunningMaximum(s, units[..|units| - 1]);
    }
  }

  /** Returning everything, in any batches, refunds exactly what was paid. */
  lemma FullReturnRefundsNet(s: Snapshot, units: seq<int>)
    requires SchemaValid(s) && History(s, units) && Sum(units) == s.quantity
    ensures Refunded(s, units) == s.netCents
  {
    RefundedIsRunningMaximum(s, units);
    assert units != [];
    ProrateZero(s.netCents, s.beforeCouponCents);
    assert KeptGross(s, 0) == 0;
  }

  /** A reconciling snapshot that holds the gross of the whole line before the coupon, as checkout freezes it. */
  ghost predicate Frozen(s: Snapshot) {
    SchemaValid(s) && Reconciles(s) && s.beforeCouponCents == KeptGross(s, s.quantity)
  }

  /** ... and whose tiers passed their boundary checks. */
  ghost predicate SafeSnapshot(s: Snapshot) { Frozen(s) && AllValid(s.tiers, s.individualCents) }

  /** Crossing a threshold of the line never makes the prorated kept price cheaper. */
  predicate KeptPriceSteps(s: Snapshot)
    requires s.beforeCouponCents >= 0
  {
    forall i :: 0 <= i < |s.tiers| && 1 < s.tiers[i].minQty <= s.quantity ==>
      KeptNet(s, s.tiers[i].minQty - 1) <= KeptNet(s, s.tiers[i].minQty)
  }

  lemma SnapshotPricesNonNegative(s: Snapshot)
    requires SchemaValid(s)
    ensures NonNegativePrices(s.tiers, s.individualCents)
  {
  }

  lemma GrossNonNegative(s: Snapshot, kept: nat)
    requires SchemaValid(s)
    ensures KeptGross(s, kept) >= 0 && KeptGross(s, 0) == 0
  {
    SnapshotPricesNonNegative(s);
    RateNonNegative(kept, s.individualCents, s.tiers);
    MulOrder(0, kept, VolumeRate(kept, s.individualCents, s.tiers));
  }

  lemma OneMoreKept(s: Snapshot, kept: nat)
    requires SchemaValid(s) && KeptPriceSteps(s) && kept < s.quantity
    ensures KeptNet(s, kept) <= KeptNet(s, kept + 1)
  {
    GrossNonNegative(s, kept + 1);
    if kept > 0 && exists i :: 0 <= i < |s.tiers| && s.tiers[i].minQty == kept + 1 {
      var i :| 0 <= i < |s.tiers| && s.tiers[i].minQty == kept + 1;
    } else if kept > 0 {
      SameBand(s, kept);
    } else {
      ProrateMonotone(KeptGross(s, 0), KeptGross(s, 1), s.netCents, s.beforeCouponCents);
    }
  }

  lemma SameBand(s: Snapshot, kept: nat)
    requires SchemaValid(s) && forall i :: 0 <= i < |s.tiers| ==> s.tiers[i].minQty != kept + 1
    ensures KeptNet(s, kept) <= KeptNet(s, kept + 1)
  {
    SnapshotPricesNonNegative(s);
    RateConstant(kept, s.individualCents, s.tiers);
    var rate := VolumeRate(kept, s.individualCents, s.tiers);
    RateNonNegative(kept, s.individualCents, s.tiers);
    MulOrder(kept, kept + 1, rate);
    ProrateMonotone(KeptGross(s, kept), KeptGross(s, kept + 1), s.netCents, s.beforeCouponCents);
  }

  lemma {:induction false} KeptPriceMonotone(s: Snapshot, k1: nat, k2: nat)
    requires SchemaValid(s) && KeptPriceSteps(s) && k1 <= k2 <= s.quantity
    ensures KeptNet(s, k1) <= KeptNet(s, k2)
  {
    if k1 < k2 {
      KeptPriceMonotone(s, k1, k2 - 1);
      OneMoreKept(s, k2 - 1);
    }
  }

  /** With valid band boundaries no threshold makes the kept units cheaper. */
  lemma ValidBoundariesStep(s: Snapshot)
    requires SafeSnapshot(s)
    ensures KeptPriceSteps(s)
  {
    SnapshotPricesNonNegative(s);
    forall i | 0 <= i < |s.tiers| && 1 < s.tiers[i].minQty <= s.quantity
      ensures KeptNet(s, s.tiers[i].minQty - 1) <= KeptNet(s, s.tiers[i].minQty)
    {
      var m := s.tiers[i].minQty;
      TotalsMonotone(m - 1, m, s.individualCents, s.tiers);
      ProrateMonotone(KeptGross(s, m - 1), KeptGross(s, m), s.netCents, s.beforeCouponCents);
    }
  }

  lemma KeepingAllOrNothing(s: Snapshot)
    requires Frozen(s)
    ensures KeptNet(s, s.quantity) == s.netCents && KeptNet(s, 0) == 0
  {
    GrossNonNegative(s, 0);
    ProrateWhole(s.netCents, s.beforeCouponCents);
    ProrateZero(s.netCents, s.beforeCouponCents);
  }

  /** The entitlement then only grows as more comes back. */
  lemma EntitlementMonotone(s: Snapshot, r1: int, r2: int)
    requires Frozen(s) && KeptPriceSteps(s) && 0 <= r1 <= r2 <= s.quantity
    ensures Entitlement(s, r1) <= Entitlement(s, r2)
    ensures Entitlement(s, r2) == s.netCents - KeptNet(s, s.quantity - r2)
    ensures 0 <= KeptNet(s, s.quantity - r2) <= s.netCents
  {
    KeepingAllOrNothing(s);
    KeptPriceMonotone(s, s.quantity - r2, s.quantity - r1);
    KeptPriceMonotone(s, 0, s.quantity - r2);
    KeptPriceMonotone(s, s.quantity - r2, s.quantity);
  }

  /** Nothing returned, nothing owed. */
  lemma NothingReturnedNothingOwed(s: Snapshot)
    requires Frozen(s)
    ensures Entitlement(s, 0) == 0
  {
    ProrateWhole(s.netCents, s.beforeCouponCents);
  }

  /** What the customer has still paid is the coupon-prorated price of the units kept. */
  ghost predicate PaysForKept(s: Snapshot, units: seq<int>)
    requires SchemaValid(s)
  {
    s.netCents - Refunded(s, units) == KeptNet(s, s.quantity - Sum(units))
  }

  lemma {:induction false} StepsSuffice(s: Snapshot, units: seq<int>)
    requires Frozen(s) && KeptPriceSteps(s) && History(s, units)
    ensures PaysForKept(s, units)
  {
    if units == [] {
      KeepingAllOrNothing(s);
    } else {
      HistoryFront(s, units);
      var front := units[..|units| - 1];
      StepsSuffice(s, front);
      EntitlementMonotone(s, Sum(front), Sum(units));
      EntitlementMonotone(s, Sum(front), Sum(front));
    }
  }

  /** Returning one more unit never takes cents back. */
  lemma RefundsOnlyGrow(s: Snapshot, units: seq<int>, more: int)
    requires SchemaValid(s)
    ensures Refunded(s, units) <= Refunded(s, units + [more])
  {
    assert (units + [more])[..|units|] == units;
  }

  /** Returning down to a threshold and then one unit further shows whether it was a step up. */
  lemma StepsNeeded(s: Snapshot, m: int)
    requires SchemaValid(s) && 1 < m <= s.quantity
    requires forall units :: History(s, units) ==> PaysForKept(s, units)
    ensures KeptNet(s, m - 1) <= KeptNet(s, m)
  {
    var down := if m < s.quantity then [s.quantity - m] else [];
    SumAppend(down, [1]);
    assert Sum(down) == s.quantity - m && Sum(down + [1]) == s.quantity - m + 1;
    assert History(s, down) && PaysForKept(s, down);
    assert History(s, down + [1]) && PaysForKept(s, down + [1]);
    RefundsOnlyGrow(s, down, 1);
  }

  /** The exact condition under which every history, in any order and batching, leaves the
      customer paying the prorated price of the units kept: no threshold within the bought
      quantity makes the kept units cheaper. */
  lemma CustomerPaysExactlyWhen(s: Snapshot)
    requires Frozen(s)
    ensures (forall units :: History(s, units) ==> PaysForKept(s, units)) <==> KeptPriceSteps(s)
  {
    if KeptPriceSteps(s) {
      forall units | History(s, units) ensures PaysForKept(s, units) { StepsSuffice(s, units); }
    }
    if forall units :: History(s, units) ==> PaysForKept(s, units) {
      forall i | 0 <= i < |s.tiers| && 1 < s.tiers[i].minQty <= s.quantity
        ensures KeptNet(s, s.tiers[i].minQty - 1) <= KeptNet(s, s.tiers[i].minQty)
      {
        StepsNeeded(s, s.tiers[i].minQty);
      }
    }
  }

  /** Valid band boundaries are enough for it. */
  lemma CustomerPaysForKeptUnits(s: Snapshot, units: seq<int>)
    requires SafeSnapshot(s) && History(s, units)
    ensures PaysForKept(s, units)
  {
    ValidBoundariesStep(s);
    StepsSuffice(s, units);
  }

  /** Two units bought at `unit` each where a single one costs 100. */
  function Pair(unit: int): Snapshot {
    Snapshot(2, 100, [Tier(2, unit)], None, 2 * unit, 0, 2 * unit, [unit, unit])
  }

  lemma PairGross(unit: int)
    requires 0 < unit <= 100
    ensures KeptGross(Pair(unit), 1) == 100 && KeptGross(Pair(unit), 2) == 2 * unit
  {
    var tiers := [Tier(2, unit)];
    assert SortDescending(tiers) == tiers && tiers[1..] == [];
    assert FindBand(1, tiers) == FindBand(1, tiers[1..]);
    assert VolumeRate(2, 100, tiers) == unit && VolumeRate(1, 100, tiers) == 100;
  }

  lemma PairFrozen(unit: int)
    requires 0 < unit <= 100
    ensures Frozen(Pair(unit))
  {
    PairGross(unit);
    assert [unit, unit][1..] == [unit];
    assert Sum([unit, unit]) == 2 * unit;
  }

  lemma KeptNetOf(s: Snapshot, kept: int, gross: int)
    requires s.beforeCouponCents == s.netCents > 0 && KeptGross(s, kept) == gross
    ensures KeptNet(s, kept) == gross
  {
    ProrateAt(gross, s.netCents, s.beforeCouponCents, gross);
  }

  lemma OneBack(s: Snapshot)
    requires SchemaValid(s) && s.quantity == 2 && KeptNet(s, 1) > s.netCents
    ensures History(s, [1]) && Refunded(s, [1]) == 0 && !PaysForKept(s, [1])
  {
    assert Sum([1]) == 1 && [1][..0] == [];
    RefundedIsRunningMaximum(s, [1]);
  }

  /** A pair cheaper than one unit alone fails it: sending one back refunds nothing, yet the
      one kept would cost more than was paid for both. */
  lemma CheaperPairFails(unit: int)
    requires 0 < unit < 50
    ensures Frozen(Pair(unit)) && History(Pair(unit), [1]) && Refunded(Pair(unit), [1]) == 0
    ensures KeptNet(Pair(unit), 1) == 100 > Pair(unit).netCents && !PaysForKept(Pair(unit), [1])
  {
    PairGross(unit);
    PairFrozen(unit);
    KeptNetOf(Pair(unit), 1, 100);
    OneBack(Pair(unit));
  }

  lemma PairBoundary(unit: int)
    requires 0 < unit <= 100
    ensures AllValid([Tier(2, unit)], 100) <==> unit > 50
  {
    var tiers := [Tier(2, unit)];
    PairGross(unit);
    ValidAtThresholds(tiers, 100);
    assert BoundaryAt(2, 100, tiers).valid <==> unit > 50;
    assert tiers[0] in tiers;
  }

  lemma PairSteps(unit: int)
    requires 50 <= unit <= 100
    ensures KeptPriceSteps(Pair(unit))
  {
    PairGross(unit);
    KeptNetOf(Pair(unit), 1, 100);
    KeptNetOf(Pair(unit), 2, 2 * unit);
  }

  /** From half price on the customer always pays for what is kept, although at exactly half
      price, with equal totals on both sides, the boundary check fails. */
  lemma EqualTotalsStillPay(unit: int, units: seq<int>)
    requires 50 <= unit <= 100 && History(Pair(unit), units)
    ensures PaysForKept(Pair(unit), units)
    ensures AllValid([Tier(2, unit)], 100) <==> unit > 50
  {
    PairFrozen(unit);
    PairSteps(unit);
    PairBoundary(unit);
    StepsSuffice(Pair(unit), units);
  }

  // --- The displayed adjustment -------------------------------------------------------

  /** Half up of a part and half up of the rest overshoot the whole by one exactly on a tie. */
  lemma HalvesOfWhole(net: int, part: int, whole: int)
    requires whole > 0 && 0 <= part <= whole && net >= 0
    ensures var over := Prorate(net, part, whole) + Prorate(net, whole - part, whole) - net;
      over == if (2 * net * part + whole) % (2 * whole) == 0 then 1 else 0
  {
    var p, q := Prorate(net, part, whole), Prorate(net, whole - part, whole);
    ProrateIsHalfUp(net, part, whole);
    ProrateIsHalfUp(net, whole - part, whole);
    assert 2 * net * (whole - part) == 2 * net * whole - 2 * net * part;
    Overshoot(2 * net * part, 2 * whole, p, q, net, whole);
  }

  lemma Overshoot(x: int, d: int, p: int, q: int, net: int, half: int)
    requires half > 0 && d == 2 * half
    requires d * p <= x + half < d * p + d && d * q <= d * net - x + half < d * q + d
    ensures p + q - net == if (x + half) % d == 0 then 1 else 0
  {
    var r := x + half - d * p;
    assert 0 <= r < d && x + half == d * p + r;
    RemainderOf(x + half, d, p, r);
    var e := net - p;
    assert d * net - x + half == d * e + d - r;
    assert d * e == d * net - d * p;
    if r == 0 {
      QuotientOf(d * net - x + half, d, q, e + 1, 0);
    } else {
      QuotientOf(d * net - x + half, d, q, e, d - r);
    }
  }

  lemma RemainderOf(y: int, d: int, p: int, r: int)
    requires d > 0 && y == d * p + r && 0 <= r < d
    ensures y % d == r
  {
    assert y == d * (y / d) + y % d;
    var k := y / d - p;
    assert d * k == d * (y / d) - d * p;
    if k >= 1 { MulOrder(1, k, d); }
    if k <= -1 { MulOrder(k, -1, d); }
  }

  lemma QuotientOf(y: int, d: int, q: int, p: int, r: int)
    requires d > 0 && y == d * p + r && 0 <= r < d && d * q <= y < d * q + d
    ensures q == p
  {
    var k := p - q;
    assert d * k == d * p - d * q;
    if k >= 1 { MulOrder(1, k, d); }
    if k <= -1 { MulOrder(k, -1, d); }
  }

  /** What a line without tiers is charged for the kept units is their share of what it cost. */
  lemma KeptShare(s: Snapshot, kept: nat)
    requires Frozen(s) && s.tiers == [] && kept <= s.quantity
    ensures KeptNet(s, kept) == Prorate(s.netCents, kept, s.quantity)
  {
    assert SortDescending(s.tiers) == [] && VolumeRate(kept, s.individualCents, s.tiers) == s.individualCents;
    assert VolumeRate(s.quantity, s.individualCents, s.tiers) == s.individualCents;
    if s.individualCents == 0 {
      assert s.beforeCouponCents == 0 && s.netCents == 0;
      ProrateZero(kept, s.quantity);
    } else {
      ScaledShare(kept, s.quantity, s.individualCents, s.netCents);
    }
  }

  /** A common factor of amount and denominator cancels. */
  lemma ScaledShare(kept: nat, quantity: nat, price: int, net: int)
    requires quantity > 0 && price > 0 && net >= 0
    ensures Prorate(kept * price, net, quantity * price) == Prorate(net, kept, quantity)
  {
    var p := Prorate(net, kept, quantity);
    ProrateIsHalfUp(net, kept, quantity);
    var x, d := 2 * net * kept + quantity, 2 * quantity;
    MulOrder(d * p, x, price);
    MulOrder(x + 1, d * p + d, price);
    assert x * price == 2 * (kept * price) * net + quantity * price;
    assert 2 * (quantity * price) * p == d * p * price;
    assert (d * p + d) * price == d * p * price + 2 * (quantity * price);
    ProrateAt(kept * price, net, quantity * price, p);
  }

  /** Without tiers the proportional refund and the entitlement differ by at most the cent of a
      tie: the adjustment for a lost quantity discount is nothing else. */
  lemma AdjustmentWithoutTiers(s: Snapshot, returned: nat, previousCents: int, reservedCents: int)
    requires Frozen(s) && s.tiers == [] && returned <= s.quantity
    ensures CalculateKeptRefund(s, returned, previousCents, reservedCents).Ok?
    ensures CalculateKeptRefund(s, returned, previousCents, reservedCents).value.adjustmentCents
      == if (2 * s.netCents * returned + s.quantity) % (2 * s.quantity) == 0 then 1 else 0
  {
    KeptShare(s, s.quantity - returned);
    assert KeptPriceSteps(s);
    EntitlementMonotone(s, returned, returned);
    HalvesOfWhole(s.netCents, returned, s.quantity);
  }

  // --- One calculation, field by field --------------------------------------------------------

  /** A stored volume line is readable exactly under these conditions. */
  lemma ReadMeans(s: Snapshot)
    ensures ReadPurchasePricing(UnitRateBands(s)) ==
      if && s.quantity > 0 && s.individualCents >= 0
         && s.beforeCouponCents >= 0 && s.couponCents >= 0 && s.netCents >= 0
         && (forall i :: 0 <= i < |s.tiers| ==> s.tiers[i].minQty > 0 && s.tiers[i].priceCents >= 0)
         && (forall i :: 0 <= i < |s.unitPrices| ==> s.unitPrices[i] >= 0)
         && s.couponCents + s.netCents == s.beforeCouponCents
         && |s.unitPrices| == s.quantity && Sum(s.unitPrices) == s.netCents
      then Ok(Some(s)) else Err(InvalidSnapshot)
  {
  }

  /** The kept units are charged at the individual price where they reach no threshold, and
      otherwise each at the smaller of it and the price of the tier they reach. */
  lemma KeptGrossMeans(s: Snapshot, kept: int)
    ensures (forall k :: 0 <= k < |s.tiers| ==> kept < s.tiers[k].minQty) ==>
      KeptGross(s, kept) == kept * s.individualCents
    ensures forall i :: ChargedAt(kept, s.tiers, i) ==>
      KeptGross(s, kept)
        == kept * if s.tiers[i].priceCents < s.individualCents then s.tiers[i].priceCents else s.individualCents
    ensures (exists k :: 0 <= k < |s.tiers| && s.tiers[k].minQty <= kept) ==> exists i :: ChargedAt(kept, s.tiers, i)
  {
    RateIs(kept, s.individualCents, s.tiers);
  }

  /** `p` is `amount * numerator / denominator`, halves up. */
  ghost predicate HalfUp(amount: int, numerator: int, denominator: int, p: int) {
    if denominator == 0 then p == 0
    else 2 * denominator * p <= 2 * amount * numerator + denominator < 2 * denominator * p + 2 * denominator
  }

  lemma ProrateMeans(amount: int, numerator: int, denominator: int)
    requires denominator >= 0
    ensures HalfUp(amount, numerator, denominator, Prorate(amount, numerator, denominator))
  {
    if denominator > 0 { ProrateIsHalfUp(amount, numerator, denominator); }
  }

  /** Every figure of a refund calculation, and exactly when there is none. */
  lemma CalculationMeans(s: Snapshot, returned: int, previousCents: int, reservedCents: int)
    requires SchemaValid(s)
    ensures CalculateKeptRefund(s, returned, previousCents, reservedCents).Err?
      <==> returned < 0 || returned > s.quantity
    ensures CalculateKeptRefund(s, returned, previousCents, reservedCents).Ok? ==>
      var c := CalculateKeptRefund(s, returned, previousCents, reservedCents).value;
      var owed := s.netCents - c.keptNetCents;
      && c.keptQuantity == s.quantity - returned && c.keptGrossCents == KeptGross(s, c.keptQuantity)
      && HalfUp(c.keptGrossCents, s.netCents, s.beforeCouponCents, c.keptNetCents)
      && HalfUp(s.netCents, returned, s.quantity, c.proportionalCents)
      && c.adjustmentCents == c.proportionalCents - c.cumulativeCents
      && c.cumulativeCents == (if owed < 0 then 0 else if owed > s.netCents then s.netCents else owed)
      && c.refundCents == if c.cumulativeCents <= previousCents + reservedCents then 0
                          else c.cumulativeCents - previousCents - reservedCents
  {
    if 0 <= returned <= s.quantity {
      ProrateMeans(KeptGross(s, s.quantity - returned), s.netCents, s.beforeCouponCents);
      ProrateMeans(s.netCents, returned, s.quantity);
    }
  }
}
