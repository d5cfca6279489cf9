# Verified model of the money engine and the session protocol

A Dafny model of two cores of the shop backend, with proofs of what their comments and design
promise. All amounts are integer cents.

**Price, checkout, refund.** `VolumePricing` prices a whole cart line by its volume band;
`BundlePricing`, `Placements`, `Ledger`, `CartLedger` and `PriceMerchandise` let bundle plans
compete with those prices, as values and as the code that overwrites Maps it shares with its own
baseline; `BundledUnits` says unit by unit what comes of it; `CartGrowth` and `CartContents` show
that more units never cost less and that only what a cart holds decides its price. `CheckoutPricing`
and `CartCheckout` freeze the result with its coupon; `ReturnPricing`, `BundleReturn`,
`RegroupedUnits` and `OrderReturns` re-price what the customer keeps, over whole histories of
returns and whole orders. `BundleSchedule` is the administration of recipes that keeps active ones
apart. `LargestRemainder`, `AllocateCents` and `RefundAllocation` are the exact splitters
underneath, and `ReturnIndicators` the two ways an order's returns are totalled.

**Sessions.** `TokenRotation` is refresh-token rotation with replay detection (the idea of section
4.14.2 of RFC 9700) as a state machine: each database call is one atomic step, and so is each
password comparison and each stamp; a run is any sequence of steps of any number of operations, and
only a token that was handed out can be presented, besides unknown ones. `TokenStore` is the table
those calls mutate. `Lockout` is the failure counter behind both sign-in doors.

How to read it: code that computes by expressions is a function; code that updates things is a
method or a class whose contract ties it to such a function. The lemmas then say what the
functions mean. `dafny verify dfyconfig.toml` checks everything.

## Findings

Where code and comment differ, or a promise needs a condition:

- The comment on the step-up gate speaks of the time since a password was verified. The code stamps
  the time after the check and, in a password change, after further database writes. The stamp is
  always less than `maxAgeSeconds + 1` seconds old at a passing request; the check itself is so at
  every passing request if and only if it falls in the same second as its stamp
  (`TokenRotation.FreshCheckExactlyWhen`), and in a slow password change it can be arbitrarily old
  (`TokenRotation.CheckMayBeOlder`).
- A sign-in that has read the user row before a reset or password change can still end in a session
  after it, even if it compares the replaced password only then
  (`TokenRotation.StaleHashStillSignsIn`). Exactly the sign-ins in flight with the row already read
  escape; every later one reads the row anew (`TokenRotation.ResetIsFinalExactlyWhen`,
  `TokenRotation.PasswordChangeIsFinalExactlyWhen`).
- "All return sequences reconcile": a full return always refunds exactly what was paid, and the
  total is the highest entitlement so far (`ReturnPricing.RefundedIsRunningMaximum`). That the
  customer has at every point paid exactly the prorated price of the kept units holds if and only
  if no threshold within the bought quantity makes the prorated kept units cheaper
  (`ReturnPricing.CustomerPaysExactlyWhen`). Valid band boundaries are enough but not needed, as
  equal totals show (`ReturnPricing.EqualTotalsStillPay`); a pair cheaper than one unit fails
  (`ReturnPricing.CheaperPairFails`).
- A volume snapshot is readable later exactly when its basis has positive thresholds and
  nonnegative prices; the rule form (backend/src/modules/combos/combo-rule.schema.ts:7) ensures that.
- The displayed ranges of volume tiers agree with what is charged for distinct thresholds, which the
  rule form demands (backend/src/modules/combos/combo-rule.schema.ts:11); with a repeated threshold
  they do not (`VolumePricing.RepeatedThresholdMisleads`).

## Model

| member | source | states |
|---|---|---|
| `AllocateCents.AllocateCents` | backend/src/lib/allocate-cents.ts:3-20 | the loop-and-array splitter answers the specified split or refusal for every total and weight list |
| `AllocateCents.BumpRanked` | backend/src/lib/allocate-cents.ts:17-18 | exactly the first `remainder` ranked positions get one cent more in place, all others keep theirs |
| `AllocateCents.AllocationExact` | backend/src/lib/allocate-cents.ts:3-20 | an accepted split sums to exactly the total and has no negative share |
| `AllocateCents.AllocationRefusal` | backend/src/lib/allocate-cents.ts:4-11 | refused exactly for a negative total, a negative weight, or a positive total over nothing |
| `AllocateCents.AllocationRounds` | backend/src/lib/allocate-cents.ts:10-18 | every share is the floor or ceiling of its exact quota, weighted or, where nothing weighs anything, even; an exact quota gets no extra cent |
| `AllocateCents.AllocationMonotone` | backend/src/lib/allocate-cents.ts:12-18 | a larger weight never gets less, and of equal weights the earlier one never gets less |
| `AllocateCents.AllocationCapped` | backend/src/lib/allocate-cents.ts:3-20 | with a total of at most the weight sum no share exceeds its weight, so no discounted or bundled unit turns negative or dearer |
| `AllocateCents.AllocationIsProRata` | backend/src/lib/allocate-cents.ts:3-20 | the answer is exactly the one split that sums to the total, gives each entry `total * weight / sum` (or an even part where nothing weighs anything) rounded down or up and exact where it is whole, and gives the cents left over by larger remainder, then earlier entry |
| `LargestRemainder.RankingUnique` | backend/src/lib/allocate-cents.ts:15-16 | rankings of the same parts under the tie-breaking order coincide, so the sort has one possible answer |
| `LargestRemainder.SharesSum` | backend/src/lib/allocate-cents.ts:12-18 | floors plus handed-out cents are the total |
| `LargestRemainder.WinnersHaveRemainder` | backend/src/lib/allocate-cents.ts:12-18 | only entries with a nonzero remainder win a cent |
| `LargestRemainder.SplitUnique` | backend/src/lib/allocate-cents.ts:12-18 | sum, rounding and the order of the extra cents leave one possible split |
| `RefundAllocation.AllocateRefundCents` | backend/src/lib/refund-allocation.ts:3-20 | the loop over mutable records shared by two lists answers the specified split for all lines, in both weighting modes; lines that repeat an id keep their order on ties |
| `RefundAllocation.HandOut` | backend/src/lib/refund-allocation.ts:15-19 | a cent given through the ranked list shows in the parts list: exactly the first `owed` ranked records gain one |
| `RefundAllocation.RefundExact` | backend/src/lib/refund-allocation.ts:3-20 | for all lines, repeated ids included, the parts carry the lines' ids, sum to the amount, value-weighted or quantity-weighted, and none is negative |
| `RefundAllocation.PlacesOrder` | backend/src/lib/refund-allocation.ts:16-17 | the keys the ranking uses order lines by id and, as the stable sort does, lines of one id by position |
| `RefundAllocation.RefundOrderIndependent` | backend/src/lib/refund-allocation.ts:3-20 | any reordering of lines with distinct ids is refused alike or gives each id the same cents |
| `RefundAllocation.RefundIsProRata` | backend/src/lib/refund-allocation.ts:3-20 | the answer is exactly the one split in proportion to the calculated cents, or to the quantities where all of those are zero, each share rounded down or up, the cents left over by larger remainder, then smaller id, then earlier line |
| `RefundAllocation.RefundRefusal` | backend/src/lib/refund-allocation.ts:4-7 | refused exactly for a negative amount, no lines, a negative value or a quantity below one |
| `VolumePricing.BandIsLargestReached` | backend/src/lib/combo-pricing.ts:35-37 | sort-then-find picks a tier with the largest threshold the quantity reaches, and none exactly when none is reached |
| `VolumePricing.SnapshotTiersPriceAlike` | backend/src/lib/combo-pricing.ts:28-33 | the derived tiers frozen into the pricing basis price every quantity as the live list does, unsorted lists and duplicate thresholds included |
| `VolumePricing.DerivedRangeIsCharged` | backend/src/lib/combo-pricing.ts:28-37 | with distinct thresholds a quantity lies in the derived range of a tier if and only if that tier is the band charged |
| `VolumePricing.RepeatedThresholdMisleads` | backend/src/lib/combo-pricing.ts:28-37 | of two prices for one threshold the first is charged, but its derived range is empty and the quantity is shown under the second |
| `VolumePricing.SnapshotTiersValidAlike` | backend/src/lib/combo-pricing.ts:28-53 | the frozen tiers pass the boundary checks if and only if the live ones do |
| `VolumePricing.ValidAtThresholds` | backend/src/lib/combo-pricing.ts:41-53 | all reported boundaries are valid exactly when the total grows at every threshold above one |
| `VolumePricing.TotalsMonotone` | backend/src/lib/combo-pricing.ts:41-53 | valid boundaries make quantity times rate nondecreasing over all quantities |
| `VolumePricing.BoundaryChecksDecideGrowth` | backend/src/lib/combo-pricing.ts:41-53 | quantity times rate is strictly increasing over all quantities if and only if every boundary is valid and the rate of one unit is positive |
| `VolumePricing.PickedRuleIsBest` | backend/src/lib/combo-pricing.ts:21-26 | the rule picked applies and no applicable rule precedes it; none is picked exactly when none applies |
| `VolumePricing.PickedRuleMeans` | backend/src/lib/combo-pricing.ts:21-26 | a rule is picked exactly when one is aimed at this one product and nothing else, and it is one of the highest priority and among these of the smallest id |
| `VolumePricing.RateIs` | backend/src/lib/combo-pricing.ts:35-39 | the rate is the individual price where no threshold is reached and otherwise the smaller of it and the price of the tier with the largest threshold reached |
| `VolumePricing.OrdinaryLineMeans` | backend/src/lib/combo-pricing.ts:78-93 | every unit of a line costs the rate of its whole quantity, and the rule is named exactly where that rate beats the individual price |
| `VolumePricing.BasisMeans` | backend/src/lib/combo-pricing.ts:82-87 | the frozen basis has the quantity and individual price of the line, all tiers of its rule in ascending order, and the rule |
| `VolumePricing.BoundariesMean` | backend/src/lib/combo-pricing.ts:43-53 | a reported boundary stands at a threshold above one unit with the totals of both sides, valid exactly when the second is larger |
| `VolumePricing.RateNonNegative` | backend/src/lib/combo-pricing.ts:35-39 | a volume rate lies between zero and the individual price |
| `VolumePricing.SetLine` | backend/src/lib/combo-pricing.ts:76-93 | one more entry keeps a Map in step with the lines priced so far |
| `VolumePricing.PriceLine` | backend/src/lib/combo-pricing.ts:76-93 | one turn of the loop extends all four Maps by that line |
| `VolumePricing.PriceLines` | backend/src/lib/combo-pricing.ts:72-96 | the loop leaves total, units, rule and basis of every line in the Maps and both running sums right |
| `VolumePricing.ApplyComboPricing` | backend/src/lib/combo-pricing.ts:69-99 | fresh, distinct Maps that describe every line of the cart, with subtotal and savings as the sums over the lines |
| `BundleMath.InstancesAreLargest` | backend/src/lib/bundle-pricing.ts:50 | the instance count is the largest number of recipes the units allow |
| `BundleMath.BestPlan` | backend/src/lib/bundle-pricing.ts:50-57 | within the price bounds, taking every complete recipe is the cheapest of all feasible groupings |
| `BundleMath.PlanLinear` | backend/src/lib/bundle-pricing.ts:57 | a plan costs the separate value less one full saving per instance |
| `BundleMath.NewInstancesCost` | backend/src/lib/bundle-pricing.ts:26-33 | units that complete further recipes are worth strictly more than those recipes save |
| `BundleMath.BestPlanMonotone` | backend/src/lib/bundle-pricing.ts:26-33 | the bound claimed to keep re-pricing monotonic does: more units of any component never make the best plan cheaper, and strictly dearer as soon as one component grew |
| `BundleMath.BoundIsExact` | backend/src/lib/bundle-pricing.ts:26-33 | for a bundle price below the full one, more units always cost more if and only if the price is above the lower bound; at or below it a recipe short of one cheapest unit is completed for nothing or less |
| `BundleMath.InBoundsMeans` | backend/src/lib/bundle-pricing.ts:29-33 | the price is in bounds exactly when it is below the separate price of one recipe and above that price short of any one unit |
| `BundleMath.PlanMeans` | backend/src/lib/bundle-pricing.ts:57 | a plan is its instances at the bundle price and every other unit at its own |
| `BundleMath.AmountsPermuted` | backend/src/lib/bundle-pricing.ts:29-33 | full and surplus amounts do not depend on component order |
| `BundlePricing.FindLine` | backend/src/lib/bundle-pricing.ts:44-49 | the line found for a SKU is a cart line of that SKU, and none is found exactly when there is none |
| `BundlePricing.SelectedAreDisjoint` | backend/src/lib/bundle-pricing.ts:45-58 | whatever recipes are offered, each SKU is in at most one applied bundle and every applied bundle is complete, in bounds and strictly cheaper |
| `BundlePricing.SubtotalOfDisjoint` | backend/src/lib/bundle-pricing.ts:45-82 | with disjoint recipes the subtotal is the ordinary one less each recipe's own saving |
| `BundlePricing.SubtotalOrderIndependent` | backend/src/lib/bundle-pricing.ts:46 | disjoint recipes in any order give the same subtotal |
| `BundlePricing.SubtotalIsOptimal` | backend/src/lib/bundle-pricing.ts:46-58 | the subtotal is the least over all choices of instance counts for the recipes in bounds, and some choice attains it |
| `CartGrowth.SavingsGrowLess` | backend/src/lib/bundle-pricing.ts:26-58 | when one line grows, all bundle savings together grow by less than what the new units cost at ordinary prices |
| `CartGrowth.OneLineGrows` | backend/src/lib/bundle-pricing.ts:26-91 | more units of one line never lower the subtotal, and raise it when that line's rate is positive |
| `CartGrowth.MoreUnitsNeverCheaper` | backend/src/lib/bundle-pricing.ts:26-91 | more units of any lines, those that grew with valid band boundaries, never lower the subtotal and strictly raise it when a line with a positive rate grew, through every flip between volume price and bundle plan |
| `CartGrowth.NewLineNeverCheaper` | backend/src/lib/bundle-pricing.ts:26-91 | a SKU new to the cart never lowers the subtotal either, even as the missing component of a bundle |
| `CartContents.SameGoodsCostTheSame` | backend/src/lib/bundle-pricing.ts:39-91 | carts that hold the same goods cost the same, whatever the order of their lines and their line ids |
| `CartContents.MoreGoodsNeverCheaper` | backend/src/lib/bundle-pricing.ts:26-91 | a cart that holds at least the units of another, SKU by SKU and in any order, never costs less, and costs more as soon as a unit that is not free came on top |
| `Placements.SplitWorks` | backend/src/lib/bundle-pricing.ts:59-61 | the price of a qualifying bundle can always be split over the units of one instance, and is below their separate prices |
| `Placements.OrderedFacts` | backend/src/lib/bundle-pricing.ts:59 | sorting the components keeps which parts and which SKUs there are |
| `Placements.ChosenApplicable` | backend/src/lib/bundle-pricing.ts:46-58 | every bundle the loop applies qualifies and comes from the offered list |
| `Ledger.PlacePartsLedger` | backend/src/lib/bundle-pricing.ts:62-77 | writing one bundle's lines changes any ledger by exactly old minus new amounts of those lines |
| `Ledger.NewCents` | backend/src/lib/bundle-pricing.ts:60-71 | all the units of an applied bundle cost its plan |
| `Ledger.NewTagged` | backend/src/lib/bundle-pricing.ts:64-69 | the units tagged with one instance cost exactly one split |
| `CartLedger.UnclaimedStaysOrdinary` | backend/src/lib/bundle-pricing.ts:40-58 | a line of an unclaimed SKU still has its ordinary units and no identities after any number of bundles |
| `CartLedger.LedgerBalances` | backend/src/lib/bundle-pricing.ts:84-86 | the unit prices of all lines sum to the subtotal, which never exceeds the ordinary subtotal |
| `CartLedger.InstancesCostTheBundlePrice` | backend/src/lib/bundle-pricing.ts:60-73 | over all lines, the units of every instance of every applied bundle sum to exactly the bundle price |
| `CartLedger.LinesAreExact` | backend/src/lib/bundle-pricing.ts:63-77 | every line ends with one price per unit between zero and its individual price, and has one identity per unit exactly when a bundle claimed it |
| `CartLedger.BundleLinesCost` | backend/src/lib/bundle-pricing.ts:57-77 | the lines of an applied bundle together cost exactly its plan |
| `CartLedger.BundlesStay` | backend/src/lib/bundle-pricing.ts:46-83 | no later bundle touches the lines of an earlier one |
| `CartLedger.PartWithinPrice` | backend/src/lib/bundle-pricing.ts:60-71 | a bundled line has as many identities as units and no unit above its individual price |
| `CartLedger.IdentitiesNameTheBundle` | backend/src/lib/bundle-pricing.ts:67-73 | every identity on a claimed line names the bundle that claimed it |
| `CartLedger.ChosenIds` | backend/src/lib/bundle-pricing.ts:46-82 | applied bundles have distinct ids when the offered ones do |
| `BundledUnits.BundledLine` | backend/src/lib/bundle-pricing.ts:60-73 | every unit of a line in an applied bundle: the units in instances cost the bundle price times their own price over the price of the recipe, rounded down or up and exact where that is whole, the same in every instance, and carry their instance; the units left over cost their own price and are surplus |
| `BundledUnits.ExtraCentGoesFirst` | backend/src/lib/bundle-pricing.ts:59-61 | of two units of an instance, one rounded up and one not, the first has the larger remainder, or an equal one and the smaller SKU or the earlier place in the line |
| `BundledUnits.SelectionById` | backend/src/lib/bundle-pricing.ts:46-58 | bundles apply in order of id; each applied one qualifies, no two share a SKU, and one that qualifies is left out only for a SKU taken by an applied bundle of no larger id |
| `BundledUnits.QualifiesMeans` | backend/src/lib/bundle-pricing.ts:47-58 | a recipe qualifies if and only if every component has its line, at least one instance fits, its price is below the separate one but above it short of any unit, and as many instances as fit with the rest at individual prices cost less than ordinary pricing of those lines |
| `BundledUnits.CountMeans` | backend/src/lib/bundle-pricing.ts:50-51 | the instance count is the number of recipes all lines allow and one line allows no more of |
| `BundledUnits.AppliedMeans` | backend/src/lib/bundle-pricing.ts:78-81 | the record of an applied bundle has its id, price and count, and each component once in order of SKU with its line, individual price and the first units of the line |
| `PriceMerchandise.PlacePart` | backend/src/lib/bundle-pricing.ts:64-76 | one component's turn overwrites its line in all four Maps and claims its SKU |
| `PriceMerchandise.PlaceLines` | backend/src/lib/bundle-pricing.ts:62-77 | the inner loop gives every component its own slice of the split at the running offset |
| `PriceMerchandise.ReadBaseline` | backend/src/lib/bundle-pricing.ts:56 | reading the shared totals gives the ordinary cents of the recipe's lines |
| `PriceMerchandise.BaselineIntact` | backend/src/lib/bundle-pricing.ts:40-56 | although earlier bundles have overwritten the shared Maps, a bundle with no claimed SKU still reads the ordinary baseline |
| `PriceMerchandise.Consider` | backend/src/lib/bundle-pricing.ts:47-58 | the tests made against the shared Maps decide as the ordinary prices would, and the saving recorded is the true one |
| `PriceMerchandise.ApplyBundle` | backend/src/lib/bundle-pricing.ts:59-82 | applying a bundle updates the Maps, the claimed set and the list of applied bundles together |
| `PriceMerchandise.ApplyBundles` | backend/src/lib/bundle-pricing.ts:46-83 | the loop applies exactly the selected bundles and adds up their savings |
| `PriceMerchandise.ReachedNext` | backend/src/lib/bundle-pricing.ts:45-83 | the loop invariant over Maps and claimed SKUs survives one more applied bundle |
| `PriceMerchandise.TotalCents` | backend/src/lib/bundle-pricing.ts:84-85 | the subtotal recomputed from the Map of unit prices is the ledger sum |
| `PriceMerchandise.Baseline` | backend/src/lib/bundle-pricing.ts:40-42 | the identity Map and the one copied Map are separate objects from the ordinary Maps |
| `PriceMerchandise.AddBundles` | backend/src/lib/bundle-pricing.ts:44-90 | with bundles: units, identities, totals, applied list, subtotal and savings of the same Map objects all agree with the chosen plan, bundled lines name no volume rule and all others the ordinary one, and the copied Map and the basis stay ordinary |
| `PriceMerchandise.PriceMerchandise` | backend/src/lib/bundle-pricing.ts:39-91 | the whole function: one exact, consistent ledger with bundles on, plain ordinary pricing with bundles off, the rule named on every line, and `ordinarySubtotal - subtotal = bundleSavings` |
| `CheckoutPricing.PriceItems` | backend/src/lib/checkout-pricing.ts:38-57 | an accepted checkout has for each line its item: the line's id, its total less its own share of the coupon, and a bundle record exactly on a claimed line |
| `CheckoutPricing.ItemsExact` | backend/src/lib/checkout-pricing.ts:38-57 | every item's units lie between zero and their price and sum to the line net |
| `CheckoutPricing.CheckoutAcceptance` | backend/src/lib/checkout-pricing.ts:26-39 | checkout goes through if and only if the subtotal reconciles, the coupon is within it and not beside a bundle, and no unit price is negative |
| `CheckoutPricing.CheckoutExact` | backend/src/lib/checkout-pricing.ts:37-57 | every item is exact: nonnegative unit prices that sum to the line net and none above its pre-coupon price; the nets sum to subtotal minus coupon |
| `CheckoutPricing.CheckoutMeans` | backend/src/lib/checkout-pricing.ts:36-57 | by the items alone: the coupon is split over the lines in proportion to their cents, each line's part over its units in proportion to theirs, both to the cent with ties to the earlier; and every field of every item says what it should |
| `CheckoutPricing.DearerLineBearsNoLess` | backend/src/lib/checkout-pricing.ts:37 | a dearer line bears no less of the coupon than a cheaper one, nor the earlier of two equal ones |
| `CheckoutPricing.DiscountedUnits` | backend/src/lib/checkout-pricing.ts:39-40 | the second-level split leaves every unit between zero and its price |
| `CheckoutPricing.SnapshotReadable` | backend/src/lib/checkout-pricing.ts:52-56 | a volume snapshot can be read back exactly when its basis is storable and prices every unit; its amounts always reconcile |
| `CheckoutPricing.FreshSnapshotOwesNothing` | backend/src/lib/checkout-pricing.ts:52-56 | a fresh snapshot gives no entitlement for no returns |
| `CartCheckout.CartAccepted` | backend/src/lib/checkout-pricing.ts:28-37 | checkout of a priced cart is refused only for its coupon: out of range, or beside an applied bundle |
| `CartCheckout.CartLines` | backend/src/lib/bundle-pricing.ts:62-77 | what pricing hands over has one nonnegative price per unit and identities exactly on claimed lines |
| `CartCheckout.SnapshotsWork` | backend/src/lib/checkout-pricing.ts:52-56 | every volume snapshot of an accepted cart is readable, reconciles, equals its line net and owes nothing before a return |
| `CartCheckout.SnapshotsSafe` | backend/src/lib/checkout-pricing.ts:52-56 | a frozen volume line is safe to re-price if and only if the live tiers of its line pass their boundary checks |
| `CartCheckout.KeptPricedLive` | backend/src/lib/return-pricing.ts:66-69 | a return charges the kept units of a frozen line as ordinary pricing charges a line of just those units: their number times its live rate |
| `CartCheckout.KeptUnitsArePaid` | backend/src/lib/return-pricing.ts:60-75 | after an accepted checkout with valid band boundaries, after every history of returns the customer has paid what ordinary pricing charges for just the kept units, prorated by the coupon and rounded half up |
| `CartCheckout.ReadPriced` | backend/src/lib/checkout-pricing.ts:27-28 | walking the unit-price Map in its order recovers exactly the priced lines |
| `CartCheckout.CheckoutCart` | backend/src/lib/checkout-pricing.ts:26-59 | pricing through the mutable Maps followed by checkout gives the specified items and applied bundles |
| `ReturnPricing.ProrateIsHalfUp` | backend/src/lib/return-pricing.ts:18-23 | proration is the exact half-up rounding of the rational amount |
| `ReturnPricing.ProrateMonotone` | backend/src/lib/return-pricing.ts:18-23 | proration is monotone in the amount |
| `ReturnPricing.ReadMeans` | backend/src/lib/return-pricing.ts:30-39 | a stored volume line is read exactly when its amounts are in range, coupon and net add up to the price before, and the unit prices are as many as units and sum to the net |
| `ReturnPricing.KeptGrossMeans` | backend/src/lib/return-pricing.ts:67-69 | the kept units cost their number times the individual price where they reach no threshold, and otherwise times the smaller of it and the price of the tier with the largest threshold reached |
| `ReturnPricing.CalculationMeans` | backend/src/lib/return-pricing.ts:62-82 | every figure of a calculation from the kept units, and that it is refused exactly for a returned quantity out of range |
| `ReturnPricing.ReservationsIrrelevant` | backend/src/lib/return-pricing.ts:60-75 | a history refunds the same however much of the earlier refunds is still reserved at each call |
| `ReturnPricing.AdjustmentWithoutTiers` | backend/src/lib/return-pricing.ts:72-80 | without tiers the proportional refund exceeds the entitlement by one cent exactly on a half-cent tie and by nothing otherwise |
| `ReturnPricing.RefundedIsRunningMaximum` | backend/src/lib/return-pricing.ts:60-75 | over any history of returns the total refunded is the running maximum of the entitlements and at most the net paid |
| `ReturnPricing.FullReturnRefundsNet` | backend/src/lib/return-pricing.ts:60-75 | any history that returns everything refunds exactly the net paid |
| `ReturnPricing.EntitlementMonotone` | backend/src/lib/return-pricing.ts:66-73 | when no threshold makes the kept units cheaper the entitlement only grows with the units returned |
| `ReturnPricing.NothingReturnedNothingOwed` | backend/src/lib/return-pricing.ts:66-73 | a reconciling snapshot owes nothing for zero returned units |
| `ReturnPricing.CustomerPaysExactlyWhen` | backend/src/lib/return-pricing.ts:60-75 | after every history the customer has paid exactly the coupon-prorated price of the kept units if and only if no threshold within the bought quantity makes the prorated kept units cheaper |
| `ReturnPricing.CustomerPaysForKeptUnits` | backend/src/lib/return-pricing.ts:60-75 | valid band boundaries are enough for that |
| `ReturnPricing.CheaperPairFails` | backend/src/lib/return-pricing.ts:66-75 | a pair sold below the price of one unit fails it: one unit back refunds nothing, and the kept one would cost more than was paid |
| `ReturnPricing.EqualTotalsStillPay` | backend/src/lib/return-pricing.ts:66-75 | equal totals on both sides of a threshold fail the boundary check and still meet it |
| `BundleReturn.TakeRequested` | backend/src/lib/bundle-return-pricing.ts:61-65 | the loop decrementing the kept units leaves them, or refuses, as taking the requests in turn does |
| `BundleReturn.TakeWorks` | backend/src/lib/bundle-return-pricing.ts:61-65 | requests fit one after another exactly when their totals fit the kept units |
| `BundleReturn.CalculateBundleRefund` | backend/src/lib/bundle-return-pricing.ts:38-86 | the whole function answers the specified refund for every record, history and request |
| `BundleReturn.KeptCostIsLeast` | backend/src/lib/bundle-return-pricing.ts:66-68 | the kept cost is the minimum over all feasible groupings of the kept units into recipes plus singles |
| `BundleReturn.KeepingLessCostsLess` | backend/src/lib/bundle-return-pricing.ts:66-72 | keeping fewer units costs strictly less, never below zero and never above the net paid |
| `BundleReturn.CallWorks` | backend/src/lib/bundle-return-pricing.ts:44-85 | with a reconciled history a call is refused exactly when the request does not fit, and otherwise refunds the strictly positive drop in what the kept units cost |
| `BundleReturn.OnlyReconciledAccepted` | backend/src/lib/bundle-return-pricing.ts:45-73 | nothing but a valid purchase with a reconciled history and a fitting request is accepted |
| `BundleReturn.RefundIsValueLessLostDiscount` | backend/src/lib/bundle-return-pricing.ts:74-84 | the cumulative refund is the separate-price value of the returned units minus `lostDiscountCents` |
| `BundleReturn.AllocationsExact` | backend/src/lib/bundle-return-pricing.ts:77-85 | the line shares of a refund are nonnegative, belong to the requested lines and sum to it |
| `BundleReturn.EveryHistoryReconciles` | backend/src/lib/bundle-return-pricing.ts:32-85 | a history built from the function's own outputs is accepted if and only if it never asks for more than was bought, and then the total refunded is the price paid less what the kept units cost |
| `BundleReturn.EveryReturnRefunds` | backend/src/lib/bundle-return-pricing.ts:58-85 | every further fitting return is accepted and refunds at least one cent, never more than was paid |
| `BundleReturn.OrderAndBatchingIrrelevant` | backend/src/lib/bundle-return-pricing.ts:58-85 | histories that return the same units refund the same, whatever their order and batching |
| `BundleReturn.FullReturnRefundsNet` | backend/src/lib/bundle-return-pricing.ts:58-85 | the total refunded is `originalNetCents` if and only if everything was returned |
| `RegroupedUnits.PurchaseMeans` | backend/src/lib/bundle-return-pricing.ts:45-57 | the purchase checks accept exactly the records that add up: two or more distinct lines, a flat price between the two bounds, as many instances as the units make, and the net they cost |
| `RegroupedUnits.RefundMeans` | backend/src/lib/bundle-return-pricing.ts:45-85 | for such a purchase a request is answered if and only if it names bought lines once each, leaves none short, and the earlier refunds are the net less what the units before it cost; the refund is then what the units before cost less what the units kept cost, each grouped into as many recipes as they make and at most as many as were bought, with every reported figure |
| `RegroupedUnits.OtherwiseRefused` | backend/src/lib/bundle-return-pricing.ts:45-65 | a record that does not add up or a request that cannot be read is refused as a conflict |
| `RegroupedUnits.LineSharesProRata` | backend/src/lib/bundle-return-pricing.ts:77-85 | a refund goes to the requested lines in proportion to units times individual price, or to units where none is worth anything, to the cent by larger remainder and smaller line id |
| `OrderReturns.EveryCartChecksOut` | backend/src/lib/checkout-pricing.ts:26-59 | every priced cart, with whatever bundles apply, is accepted by checkout without a coupon |
| `OrderReturns.AppliedBundleIsValidPurchase` | backend/src/lib/bundle-return-pricing.ts:46-57 | every bundle applied in an accepted checkout passes the purchase validation of a bundle return unchanged |
| `OrderReturns.ReorderedRecipe` | backend/src/lib/bundle-return-pricing.ts:55-57 | bounds and instance count do not depend on the order components are stored in |
| `OrderReturns.PaidInParts` | backend/src/lib/checkout-pricing.ts:38-57 | the amount paid is the nets of the unclaimed lines plus the plans of the applied bundles |
| `OrderReturns.WholeOrderRefund` | backend/src/lib/return-pricing.ts:60-82 | end to end, for any cart, bundles and coupon that checkout accepts: no returns of an order refund more than subtotal minus coupon, and returning every unit in any sequences refunds exactly that |
| `BundleSchedule.BundleTable.CreateBundle` | backend/src/modules/bundles/bundle.service.ts:56-67 | creation stores the recipe or refuses with the specified rejection, one transaction under the lock |
| `BundleSchedule.BundleTable.UpdateBundle` | backend/src/modules/bundles/bundle.service.ts:69-83 | an edit validates the merged recipe against all other rows and replaces it, or changes nothing |
| `BundleSchedule.BundleTable.DeleteBundle` | backend/src/modules/bundles/bundle.service.ts:85-95 | archiving ends the row and drops its components, or refuses an unknown or archived one |
| `BundleSchedule.WindowTestIsOverlap` | backend/src/modules/bundles/bundle.service.ts:47-50 | the column tests of the conflict query hold if and only if some instant lies in both windows |
| `BundleSchedule.ConflictIsOverlap` | backend/src/modules/bundles/bundle.service.ts:43-53 | a recipe is turned away for its schedule if and only if another live active one shares a SKU and an instant with it |
| `BundleSchedule.CreateAccepted` | backend/src/modules/bundles/bundle.service.ts:21-67 | a new recipe is stored exactly when its window, SKUs and both prices pass and it shares no instant with a live active recipe over a common SKU; otherwise nothing changes |
| `BundleSchedule.EditAccepted` | backend/src/modules/bundles/bundle.service.ts:69-83 | an edit goes through exactly when the merged recipe passes against all other recipes, never against itself; otherwise nothing changes |
| `BundleSchedule.CreateMeans` | backend/src/modules/bundles/bundle.service.ts:21-67 | creation stores the form as given exactly when its window is not empty, its SKUs exist and sell, its price is between the bounds at regular and at current prices, and no other live active recipe shares a SKU and an instant with it; otherwise it is refused as invalid or as a conflict and nothing changes |
| `BundleSchedule.EditMeans` | backend/src/modules/bundles/bundle.service.ts:69-83 | an edit leaves every field the patch's where it has one and the stored one otherwise, cleared instants included, if that form passes the same tests; no other row changes, and a refusal changes nothing |
| `BundleSchedule.ArchiveMeans` | backend/src/modules/bundles/bundle.service.ts:72-95 | an unknown or archived recipe can be neither edited nor archived; archiving ends a live one, drops its components and keeps its window and price |
| `BundleSchedule.StepKeepsSchedule` | backend/src/modules/bundles/bundle.service.ts:56-95 | create, edit and archive keep live active recipes that share a SKU apart in time |
| `BundleSchedule.EveryRunStaysScheduled` | backend/src/modules/bundles/bundle.service.ts:56-95 | so does every run of them |
| `BundleSchedule.ActiveBundlesComplete` | backend/src/modules/bundles/bundle.service.ts:97-103 | the filtered read returns a bundle exactly when it is live, active, in its window and sellable |
| `BundleSchedule.ActiveMeans` | backend/src/modules/bundles/bundle.service.ts:97-103 | the bundles read are exactly the live active rows whose window holds the instant and whose SKUs all sell, with their price and components |
| `BundleSchedule.ReachableBundlesDisjoint` | backend/src/modules/bundles/bundle.service.ts:97-103 | in every reachable state and at every instant the active bundles are pairwise SKU-disjoint, well-formed recipes |
| `BundleSchedule.ReachablePricingIsOptimal` | backend/src/modules/bundles/bundle.service.ts:97-103 | hence pricing charges the same in whatever order the database lists them, and the least any choice of recipes would |
| `TokenRotation.StepKeepsInv` | backend/src/modules/auth/auth.service.ts:326-460 | every single database step of refresh, logout, sign-in, password change or reset keeps the invariant |
| `TokenRotation.EveryRunKeepsInv` | backend/src/modules/auth/auth.service.ts:366-382 | the race argument as an invariant of every interleaving of any number of operations |
| `TokenRotation.AtMostOneSuccessor` | backend/src/modules/auth/auth.service.ts:375-384 | in every interleaving a token gets at most one successor that is ever returned, and no two tokens share one |
| `TokenRotation.ExactlyOneWins` | backend/src/modules/auth/auth.service.ts:366-374 | in every interleaving, a returned token found revoked with no logout, replay detection or user-wide revocation behind it has exactly one successor, and that was returned: exactly one caller won |
| `TokenRotation.AtMostOneLivePerFamily` | backend/src/modules/auth/auth.service.ts:366-384 | of the tokens of a family that were ever returned, at most one is unrevoked |
| `TokenRotation.LosersEndRevoked` | backend/src/modules/auth/auth.service.ts:379-382 | once no refresh holds a child, every token that was not returned is revoked |
| `TokenRotation.GuardDecides` | backend/src/modules/auth/auth.service.ts:375-382 | the guarded update returns the child exactly when the parent is still live; otherwise the child ends revoked |
| `TokenRotation.UndisturbedRefreshWorks` | backend/src/modules/auth/auth.service.ts:326-385 | an undisturbed refresh of a live token always ends in one live token of the same login |
| `TokenRotation.UsedTokenIsReplay` | backend/src/modules/auth/auth.service.ts:341-350 | presenting a rotated or revoked token leads to the revocation of its whole family |
| `TokenRotation.RunKeepsDead` | backend/src/modules/auth/auth.service.ts:326-385 | a family without a live returned token never regains one |
| `TokenRotation.RevokedFamilyStaysDead` | backend/src/modules/auth/auth.service.ts:437-446 | after replay detection or a password change, reset or email change, no refresh in flight at any step and no continuation leaves a live returned token in those families, and none at all once no refresh is in flight |
| `TokenRotation.LoggedOutForGood` | backend/src/modules/auth/auth.service.ts:455-460 | a logged-out token never works again, whatever was in flight |
| `TokenRotation.ResetKeeps` | backend/src/modules/auth/password-reset.service.ts:70-80 | the user-wide revocation of a reset keeps the invariant |
| `TokenRotation.KillingStep` | backend/src/modules/account/email-change.service.ts:143-153 | a user-wide revocation, like replay detection, revokes every stored token of the families it covers |
| `TokenRotation.SignInKeeps` | backend/src/modules/auth/admin-auth.service.ts:133-139 | starting a family at either door keeps the invariant |
| `TokenRotation.FamilySharesLogin` | backend/src/modules/auth/auth.service.ts:94-122 | all tokens of a family share one user and one authentication time through any number of rotations |
| `TokenRotation.FreshAuthRestsOnCheck` | backend/src/middleware/step-up.middleware.ts:21-36 | a request that passes rests on a password check of that very user, stamped less than `maxAgeSeconds + 1` seconds ago, and itself made less than that ago when stamped in the same second |
| `TokenRotation.GateMeans` | backend/src/middleware/step-up.middleware.ts:25-28 | a request passes if and only if its claim has a time, that time is not zero, and it is less than `maxAgeSeconds + 1` seconds ago |
| `TokenRotation.FreshCheckExactlyWhen` | backend/src/middleware/step-up.middleware.ts:25-28 | in every reachable state, for every sign-in whose claim still passes: each passing request from then on comes less than `maxAgeSeconds + 1` seconds after the password check itself if and only if check and stamp fall in the same second |
| `TokenRotation.CheckMayBeOlder` | backend/src/modules/auth/auth.service.ts:431-451 | a run in which the check is arbitrarily old: a slow password change, after which the new claim passes with any allowed age |
| `TokenRotation.ResetIsFinalExactlyWhen` | backend/src/modules/auth/password-reset.service.ts:70-80 | after a reset or change of email, until some sign-in reads the user row anew, the user gets no live token if and only if no sign-in of that user was in flight with the row already read, compared or not |
| `TokenRotation.StaleHashStillSignsIn` | backend/src/modules/auth/auth.service.ts:237-249 | a login that read the old hash before the reset and compares it afterwards ends with a live token |
| `TokenRotation.PasswordChangeIsFinalExactlyWhen` | backend/src/modules/auth/auth.service.ts:426-446 | likewise for a password change, its own new session set aside |
| `TokenRotation.TokenEndsExactlyWhen` | backend/src/modules/auth/auth.service.ts:326-460 | in one step a working token stops working if and only if it is rotated, logged out, its family replayed or its user's sessions ended |
| `TokenRotation.TokenBeginsExactlyWhen` | backend/src/modules/auth/auth.service.ts:326-460 | in one step a token starts working if and only if it is handed out, by a rotation of a working parent or as the first of a family, and was not revoked before |
| `TokenStore.Store.ReadForRefresh` | backend/src/modules/auth/auth.service.ts:336-350 | an unknown token changes nothing; a known one leaves a copy of its row in flight if it is live and the replay branch otherwise |
| `TokenStore.Store.RevokeReplayed` | backend/src/modules/auth/auth.service.ts:344-349 | no token of the family that was handed out works any more |
| `TokenStore.Store.CheckUser` | backend/src/modules/auth/auth.service.ts:352-355 | an inactive user ends the refresh |
| `TokenStore.Store.IssueSuccessor` | backend/src/modules/auth/auth.service.ts:357-363 | the child is stored with the user, family and authentication time of the row as read |
| `TokenStore.Store.Rotate` | backend/src/modules/auth/auth.service.ts:375-384 | the guarded update and its count; only a count of one returns the child |
| `TokenStore.Store.RevokeLoser` | backend/src/modules/auth/auth.service.ts:379-382 | the loser revokes its own child |
| `TokenStore.Store.IssueAndRotate` | backend/src/modules/auth/auth.service.ts:357-382 | the child leaves the server exactly when the parent was still live at the guarded update, and is revoked otherwise |
| `TokenStore.Store.RotateOrRevoke` | backend/src/modules/auth/auth.service.ts:375-382 | won exactly when the parent was still live |
| `TokenStore.Store.Exchange` | backend/src/modules/auth/auth.service.ts:352-385 | after the row was read, whatever happened meanwhile: the child is returned exactly when the user is active and the parent still live, and otherwise nothing leaves the server and the child is revoked |
| `TokenStore.Store.Refresh` | backend/src/modules/auth/auth.service.ts:326-385 | undisturbed, an unknown token is refused and changes nothing, a used one ends its family, and a live one of an active user is exchanged |
| `TokenStore.Store.ReadForLogout` | backend/src/modules/auth/auth.service.ts:455-457 | an unknown token is ignored, a known one remembered |
| `TokenStore.Store.RevokeLoggedOut` | backend/src/modules/auth/auth.service.ts:457-459 | logout revokes that row only, and its token no longer works |
| `TokenStore.Store.Logout` | backend/src/modules/auth/auth.service.ts:455-460 | undisturbed, exactly the presented token's row is revoked, none if it is unknown |
| `TokenStore.Store.ReadUser` | backend/src/modules/auth/auth.service.ts:396-400 | a sign-in holds the user row as it was read, whatever happens to it later |
| `TokenStore.Store.VerifyPassword` | backend/src/modules/auth/auth.service.ts:401-404 | only a password that matches the row as read goes on, and the check is recorded with its moment |
| `TokenStore.Store.ChangePassword` | backend/src/modules/auth/auth.service.ts:436-446 | after the transaction no token of the user works |
| `TokenStore.Store.StampAuthTime` | backend/src/modules/auth/auth.service.ts:448-449 | the authentication time is the clock after those writes, never before the recorded check it rests on |
| `TokenStore.Store.IssueFamily` | backend/src/modules/auth/auth.service.ts:318-323 | a sign-in starts a new family with a live token and the claim of its stamp |
| `TokenStore.Store.EndAllSessions` | backend/src/modules/auth/password-reset.service.ts:70-80 | after the transaction no token of the user works |
| `Lockout.Account.Login` | backend/src/modules/auth/auth.service.ts:251-316 | the customer door: outcome and new counter in every branch |
| `Lockout.Account.AdminLogin` | backend/src/modules/auth/admin-auth.service.ts:96-134 | the admin door: outcome and new counter in every branch |
| `Lockout.AdvancesWhen` | backend/src/modules/auth/auth.service.ts:257-295 | an attempt advances the counter exactly when no lock stands and a wrong password is offered for a usable account at a door that serves it |
| `Lockout.CustomerDoorMeans` | backend/src/modules/auth/auth.service.ts:251-316 | each outcome of the customer door if and only if its facts hold; success leaves the counter (0, none), a wrong password for a usable account one more and from the fifth on a lock of 15 minutes, everything else the counter as it was |
| `Lockout.AdminDoorMeans` | backend/src/modules/auth/admin-auth.service.ts:98-134 | likewise the admin door, with 30 minutes; a right password of a customer clears the counter and is refused |
| `Lockout.LockHolds` | backend/src/modules/auth/auth.service.ts:262-266 | while a lock stands no attempt at either door succeeds, right passwords included, and the counter and the end of the lock stay as they are |
| `Lockout.FifthFailureLocks` | backend/src/modules/auth/auth.service.ts:282-295 | from a cleared account the fifth wrong password in a row at a door locks it for 15 or 30 minutes, and fewer do not |
| `Lockout.GuessRateBounded` | backend/src/modules/auth/auth.service.ts:282-295 | in any span of length L, without a success or a clearing in between, at most 5 + floor(L / 15 min) attempts advance the counter across both doors |
| `Lockout.BoundIsTight` | backend/src/modules/auth/auth.service.ts:282-295 | for every L some run attains that bound |
| `ReturnIndicators.Counters.Count` | backend/src/lib/order-return-indicators.ts:54-66 | one turn of the loop updates exactly the counters of the return's status |
| `ReturnIndicators.FoldRecords` | backend/src/lib/order-return-indicators.ts:54-66 | the loop computes the fold over all returns |
| `ReturnIndicators.IndicatorsFromRecords` | backend/src/lib/order-return-indicators.ts:43-71 | ordered units, original merchandise, return totals and owed goodwill are those of the order's records |
| `ReturnIndicators.OneMoreReturn` | backend/src/lib/order-return-indicators.ts:75-90 | one more return row changes the join aggregate as one turn of the loop does |
| `ReturnIndicators.FoldIsAggregate` | backend/src/lib/order-return-indicators.ts:73-94 | for all tables and every order the fold over loaded records equals the aggregate over the LEFT JOIN: distinct counts, filtered sums, paid-over-calculated, returns without items, orders without returns |
| `ReturnIndicators.SummariesAgree` | backend/src/lib/order-return-indicators.ts:43-122 | for all tables and every order the details page and the list query summarise alike: ordered units, original merchandise, every return total and owed goodwill |
| `ReturnIndicators.MarkingVisible` | backend/src/lib/order-return-indicators.ts:24-39 | over an order's records: a marking shows if and only if some return is marked refunded, be it of nothing; an order of positive value is fully marked if and only if the cents of those returns reach it; awaiting marking shows until the first marking |
| `ReturnIndicators.FoldConsistent` | backend/src/lib/order-return-indicators.ts:54-66 | every active return is in progress, awaiting marking or marked, and counted once |
| `ReturnIndicators.FoldAddsUp` | backend/src/lib/order-return-indicators.ts:50-66 | every counter is a plain count or sum over the returns of its statuses: units, calculated cents, and paid cents for marked ones |
| `ReturnIndicators.ReturnLabelMeans` | backend/src/lib/order-return-indicators.ts:27-37 | the return label, case by case if and only if: returned in full or in part by the units back against those ordered, else in progress, else none; `hasReturn` exactly when some return is neither rejected nor cancelled |
| `ReturnIndicators.DueMeans` | backend/src/lib/order-return-indicators.ts:38-39 | the count and cents due are those of the received returns and the owed goodwill |
| `ReturnIndicators.RefundLabelMeans` | backend/src/lib/order-return-indicators.ts:30-36 | the refund label, case by case if and only if, orders that cost nothing included |
| `ReturnIndicators.RowOrderIrrelevant` | backend/src/lib/order-return-indicators.ts:75-90 | the aggregate does not depend on the order of the joined rows |
| `JsMaps.JsMap.Set` | backend/src/lib/bundle-pricing.ts:72-75 | setting a key keeps its place in the iteration order or appends it |

## Left out

- Money parsing and display: `round2`, `/ 100`, `Math.round(x * 100)`, `moneyCents`, the display-only `unitPrice` average and the safe-integer cap; the model computes in unbounded integer cents.
- Identifiers: tokens, lines, SKUs, bundles and rules are integers under their own order, which stands for `localeCompare` and UUID equality; names are dropped.
- Sorting: `Array.prototype.sort` is insertion under the same comparator, so stability on ties is that of the language.
- Promotion and sale pricing: the individual unit price of a line is an input, and in recipe validation each SKU's regular and effective price come with the catalogue.
- Line totals: the `lineTotals` Map holds cents where the code holds the same amount divided by 100.
- Schemas: of the form schemas only component counts, quantities, distinct SKUs and a positive price are modelled; the 1 000 000 price cap and name lengths are not.
- The order, return and refund services that call the engine: a history is the returned quantities and calculated refunds of earlier calls; a bundle purchase is the applied bundle with its lines' quantities and what they cost.
- PriceMerchandise.PriceMerchandise: price bounds, counts and plan amounts inside the loop are computed on values; only the Maps, the claimed set and the running totals are mutable.
- BundleReturn.CalculateBundleRefund: names and descriptive fields of the purchase are not repeated in the result.
- RefundAllocation.RefundOrderIndependent: for lines that repeat an id nothing is promised across reorderings, as their ties go by position.
- Token expiry, signatures, hashing, roles and access-token lifetime: an expired token behaves like one that is never presented, and the user of a token is the user of its row.
- Deletion of users and crashes between two calls: rows are never removed, and an operation that stops is one that takes no further step.
- TokenStore.Store.EndAllSessions: the single use of a reset or confirmation link, the new password and the new address are not modelled, only the revocation in the same transaction.
- Lockout.GuessRateBounded: attempts on one account are serialized, as concurrent attempts may read the same counter.
- The SQL filters of the list query: only its totals and labels are modelled.
- Delivery fees, permissions, rate limits, mail, audit rows, backups, reports and the frontend: wrappers and I/O.
