/** The arithmetic of one bundle recipe against the units on hand, used both when a
    cart is priced (backend/src/lib/bundle-pricing.ts) and when kept units are re-priced
    after a return (backend/src/lib/bundle-return-pricing.ts). */
module BundleMath {
  import opened Common

  /** One component: units on hand, units one recipe instance needs, separate unit price. */
  datatype Item = Item(have: int, need: int, price: int)

  ghost predicate Wellformed(items: seq<Item>) {
    items != [] && forall i :: 0 <= i < |items| ==> items[i].have >= 0 && items[i].need >= 1 && items[i].price >= 0
  }

  function FullCents(items: seq<Item>): int {
    if items == [] then 0 else items[0].need * items[0].price + FullCents(items[1..])
  }

  function CheapestCents(items: seq<Item>): int
    requires items != []
  {
    if |items| == 1 then items[0].price else Min(items[0].price, CheapestCents(items[1..]))
  }

  datatype Bounds = Bounds(fullCents: int, incompleteCents: int)

  function PriceBounds(items: seq<Item>): Bounds
    requires items != []
  {
    Bounds(FullCents(items), FullCents(items) - CheapestCents(items))
  }

  /** The guard both sides apply: completing a recipe saves, the missing unit still costs. */
  predicate InBounds(priceCents: int, items: seq<Item>)
    requires items != []
  {
    PriceBounds(items).incompleteCents < priceCents < PriceBounds(items).fullCents
  }

  function SeparateCents(items: seq<Item>): int {
    if items == [] then 0 else items[0].have * items[0].price + SeparateCents(items[1..])
  }

  /** `Math.min(...components.map((c) => Math.floor(have / need)))` */
  function Instances(items: seq<Item>): int
    requires items != [] && forall i :: 0 <= i < |items| ==> items[i].need >= 1
  {
    if |items| == 1 then items[0].have / items[0].need
    else Min(items[0].have / items[0].need, Instances(items[1..]))
  }

  function SurplusCents(items: seq<Item>, n: int): int {
    if items == [] then 0 else (items[0].have - n * items[0].need) * items[0].price + SurplusCents(items[1..], n)
  }

  /** `n` recipes at the bundle price, everything else at its separate price. */
  function PlanCents(items: seq<Item>, n: int, priceCents: int): int { n * priceCents + SurplusCents(items, n) }

  /** `n` instances can be taken from the units on hand. */
  ghost predicate Fits(items: seq<Item>, n: int) {
    0 <= n && forall i :: 0 <= i < |items| ==> n * items[i].need <= items[i].have
  }

  lemma FloorIsLargest(n: int, have: int, need: int)
    requires need >= 1
    ensures n <= have / need <==> n * need <= have
  {
    var q := have / need;
    assert have == q * need + have % need;
    if n <= q { MulOrder(n, q, need); }
    if n > q { MulOrder(q + 1, n, need); assert (q + 1) * need == q * need + need; }
  }

  /** The instance count is the largest one that fits. */
  lemma {:induction false} InstancesAreLargest(items: seq<Item>, n: int)
    requires Wellformed(items)
    ensures Instances(items) >= 0
    ensures n >= 0 ==> (n <= Instances(items) <==> Fits(items, n))
  {
    FloorIsLargest(n, items[0].have, items[0].need);
    FloorIsLargest(0, items[0].have, items[0].need);
    if |items| > 1 {
      InstancesAreLargest(items[1..], n);
      assert forall i :: 1 <= i < |items| ==> items[i] == items[1..][i - 1];
      if n >= 0 && Fits(items, n) {
        assert Fits(items[1..], n);
      }
    }
  }

  /** Some component is used up: one more instance of it does not fit. */
  lemma {:induction false} ScarceComponent(items: seq<Item>) returns (i: nat)
    requires Wellformed(items)
    ensures i < |items| && items[i].have < (Instances(items) + 1) * items[i].need
  {
    if items[0].have / items[0].need == Instances(items) {
      i := 0;
      FloorIsLargest(Instances(items) + 1, items[0].have, items[0].need);
    } else {
      i := ScarceComponent(items[1..]);
      i := i + 1;
    }
  }

  lemma {:induction false} SurplusLinear(items: seq<Item>, n: int)
    ensures SurplusCents(items, n) == SeparateCents(items) - n * FullCents(items)
  {
    if items != [] {
      SurplusLinear(items[1..], n);
      var x := items[0];
      assert (x.have - n * x.need) * x.price == x.have * x.price - n * (x.need * x.price);
      assert n * FullCents(items) == n * (x.need * x.price) + n * FullCents(items[1..]);
    }
  }

  /** A plan costs the separate value less one saving per instance. */
  lemma PlanLinear(items: seq<Item>, n: int, priceCents: int)
    ensures PlanCents(items, n, priceCents) == SeparateCents(items) - n * (FullCents(items) - priceCents)
  {
    SurplusLinear(items, n);
  }

  /** Taking every complete recipe is the cheapest of all feasible groupings. */
  lemma BestPlan(items: seq<Item>, n: int, priceCents: int)
    requires Wellformed(items) && InBounds(priceCents, items) && Fits(items, n)
    ensures PlanCents(items, Instances(items), priceCents) <= PlanCents(items, n, priceCents)
  {
    InstancesAreLargest(items, n);
    PlanLinear(items, n, priceCents);
    PlanLinear(items, Instances(items), priceCents);
    MulOrder(n, Instances(items), FullCents(items) - priceCents);
  }

  lemma {:induction false} CheapestIsLeast(items: seq<Item>)
    requires items != []
    ensures forall i :: 0 <= i < |items| ==> CheapestCents(items) <= items[i].price
  {
    if |items| > 1 { CheapestIsLeast(items[1..]); }
  }

  /** The same recipe with at least as many units of every component. */
  ghost predicate Grows(a: seq<Item>, b: seq<Item>) {
    |a| == |b| && forall i :: 0 <= i < |a| ==>
      a[i].need == b[i].need && a[i].price == b[i].price && a[i].have <= b[i].have
  }

  lemma {:induction false} GrowsKeepsRecipe(a: seq<Item>, b: seq<Item>)
    requires Grows(a, b)
    ensures FullCents(a) == FullCents(b)
    ensures a != [] ==> CheapestCents(a) == CheapestCents(b)
  {
    if a != [] { GrowsKeepsRecipe(a[1..], b[1..]); }
  }

  /** More units raise the separate value by at least the value of the added units of any one component. */
  lemma {:induction false} SeparateGrows(a: seq<Item>, b: seq<Item>, i: int)
    requires Grows(a, b) && 0 <= i < |a| && forall k :: 0 <= k < |a| ==> a[k].price >= 0
    ensures SeparateCents(b) - SeparateCents(a) >= (b[i].have - a[i].have) * a[i].price
  {
    var d := (b[0].have - a[0].have) * a[0].price;
    assert b[0].have * b[0].price - a[0].have * a[0].price == d;
    MulOrder(0, b[0].have - a[0].have, a[0].price);
    if i > 0 {
      SeparateGrows(a[1..], b[1..], i - 1);
    } else if |a| > 1 {
      SeparateGrows(a[1..], b[1..], 0);
      MulOrder(0, b[1].have - a[1].have, a[1].price);
    }
  }

  /** Completing more recipes never saves as much as the units that completed them are worth. */
  lemma NewInstancesCost(a: seq<Item>, b: seq<Item>, saving: int)
    requires Wellformed(a) && Wellformed(b) && Grows(a, b)
    requires 0 < saving < CheapestCents(a) && Instances(a) < Instances(b)
    ensures SeparateCents(b) - SeparateCents(a) > (Instances(b) - Instances(a)) * saving
  {
    var n, m := Instances(a), Instances(b);
    var i := ScarceComponent(a);
    InstancesAreLargest(a, 0);
    InstancesAreLargest(b, m);
    CheapestIsLeast(a);
    ScarceGap(a[i].have, b[i].have, a[i].need, n, m);
    SeparateGrows(a, b, i);
    ValueOfGap(b[i].have - a[i].have, m - n, a[i].price, saving);
  }

  lemma NewUnitsCost(a: seq<Item>, b: seq<Item>, saving: int)
    requires Wellformed(a) && Wellformed(b) && Grows(a, b) && 0 < saving < CheapestCents(a)
    ensures SeparateCents(b) >= SeparateCents(a) && (a != b ==> SeparateCents(b) > SeparateCents(a))
  {
    SeparateGrows(a, b, 0);
    MulOrder(0, b[0].have - a[0].have, a[0].price);
    if a != b {
      var i :| 0 <= i < |a| && a[i] != b[i];
      CheapestIsLeast(a);
      SeparateGrows(a, b, i);
      ValueOfGap(b[i].have - a[i].have, 1, a[i].price, saving);
    }
  }

  /** The claim behind the price bounds: with more units of any component the best plan
      costs at least as much, and strictly more as soon as one component really grew,
      even when the extra units complete further recipes. */
  lemma BestPlanMonotone(a: seq<Item>, b: seq<Item>, priceCents: int)
    requires Wellformed(a) && Wellformed(b) && Grows(a, b) && InBounds(priceCents, a)
    ensures InBounds(priceCents, b)
    ensures PlanCents(a, Instances(a), priceCents) <= PlanCents(b, Instances(b), priceCents)
    ensures a != b ==> PlanCents(a, Instances(a), priceCents) < PlanCents(b, Instances(b), priceCents)
  {
    GrowsKeepsRecipe(a, b);
    var saving := FullCents(a) - priceCents;
    PlanLinear(a, Instances(a), priceCents);
    PlanLinear(b, Instances(b), priceCents);
    InstancesGrow(a, b);
    if Instances(a) < Instances(b) { NewInstancesCost(a, b, saving); } else { NewUnitsCost(a, b, saving); }
    Regroup(Instances(a), Instances(b), saving);
  }

  lemma Regroup(n: int, m: int, saving: int)
    ensures m * saving - n * saving == (m - n) * saving
  {
  }

  lemma InstancesGrow(a: seq<Item>, b: seq<Item>)
    requires Wellformed(a) && Wellformed(b) && Grows(a, b)
    ensures Instances(a) <= Instances(b)
  {
    InstancesAreLargest(a, Instances(a));
    InstancesAreLargest(b, Instances(a));
  }

  lemma ScarceGap(have: int, more: int, need: int, n: int, m: int)
    requires need >= 1 && have < (n + 1) * need && m * need <= more && n < m
    ensures more - have >= m - n
  {
    assert m * need - (n + 1) * need == (m - n - 1) * need;
    MulOrder(1, need, m - n - 1);
  }

  /** Units that outnumber the new instances are worth more than those instances save. */
  lemma ValueOfGap(units: int, count: int, price: int, saving: int)
    requires units >= count >= 1 && 0 < saving < price
    ensures units * price > count * saving
  {
    MulOrder(count, units, price);
    assert count * price - count * saving == count * (price - saving);
    MulOrder(1, count, price - saving);
  }

  // --- The bound is exact -------------------------------------------------------------

  /** The same components, whatever units are on hand. */
  ghost predicate SameRecipe(a: seq<Item>, b: seq<Item>) {
    |a| == |b| && forall i :: 0 <= i < |a| ==> a[i].need == b[i].need && a[i].price == b[i].price
  }

  lemma {:induction false} SameRecipeAmounts(a: seq<Item>, b: seq<Item>)
    requires SameRecipe(a, b)
    ensures FullCents(a) == FullCents(b)
    ensures a != [] ==> CheapestCents(a) == CheapestCents(b)
  {
    if a != [] { SameRecipeAmounts(a[1..], b[1..]); }
  }

  function BestPlanCents(items: seq<Item>, priceCents: int): int
    requires items != [] && forall i :: 0 <= i < |items| ==> items[i].need >= 1
  {
    PlanCents(items, Instances(items), priceCents)
  }

  /** Units for exactly one instance. */
  lemma {:induction false} WholeRecipe(recipe: seq<Item>) returns (whole: seq<Item>)
    ensures SameRecipe(whole, recipe) && SeparateCents(whole) == FullCents(recipe)
    ensures forall i :: 0 <= i < |whole| ==> whole[i].have == whole[i].need
  {
    whole := [];
    if recipe != [] {
      var rest := WholeRecipe(recipe[1..]);
      whole := [recipe[0].(have := recipe[0].need)] + rest;
      assert whole[1..] == rest;
    }
  }

  lemma {:induction false} OneUnitLess(items: seq<Item>, k: nat, fewer: seq<Item>)
    requires k < |items| && fewer == items[k := items[k].(have := items[k].have - 1)]
    ensures SeparateCents(fewer) == SeparateCents(items) - items[k].price
  {
    if k == 0 {
      assert fewer[1..] == items[1..];
      assert fewer[0].have * fewer[0].price == items[0].have * items[0].price - items[0].price;
    } else {
      assert fewer[1..] == items[1..][k - 1 := fewer[k]];
      OneUnitLess(items[1..], k - 1, fewer[1..]);
    }
  }

  lemma WholeCosts(whole: seq<Item>, priceCents: int)
    requires Wellformed(whole) && SeparateCents(whole) == FullCents(whole)
    requires forall i :: 0 <= i < |whole| ==> whole[i].have == whole[i].need
    ensures BestPlanCents(whole, priceCents) == priceCents
  {
    InstancesAreLargest(whole, 1);
    InstancesAreLargest(whole, 2);
    assert Fits(whole, 1) && !Fits(whole, 2) by { assert 2 * whole[0].need > whole[0].have; }
    PlanLinear(whole, 1, priceCents);
  }

  lemma NotOneInstance(items: seq<Item>, k: nat)
    requires Wellformed(items) && k < |items| && items[k].have < items[k].need
    ensures Instances(items) == 0
  {
    InstancesAreLargest(items, 1);
    InstancesAreLargest(items, 0);
    assert !Fits(items, 1) by { assert 1 * items[k].need > items[k].have; }
  }

  /** One unit short of a whole recipe everything is charged separately. */
  lemma ShortCosts(whole: seq<Item>, k: nat, short: seq<Item>, priceCents: int)
    requires Wellformed(short) && k < |whole| && short == whole[k := whole[k].(have := whole[k].have - 1)]
    requires whole[k].have == whole[k].need
    ensures BestPlanCents(short, priceCents) == SeparateCents(whole) - whole[k].price
  {
    NotOneInstance(short, k);
    OneUnitLess(whole, k, short);
    PlanLinear(short, 0, priceCents);
  }

  /** A whole recipe, and the same short of one unit of component `k`. */
  lemma WholeAndShort(recipe: seq<Item>, k: nat, priceCents: int) returns (whole: seq<Item>, short: seq<Item>)
    requires Wellformed(recipe) && k < |recipe|
    ensures Wellformed(whole) && Wellformed(short) && SameRecipe(short, recipe) && Grows(short, whole) && short != whole
    ensures BestPlanCents(whole, priceCents) == priceCents
    ensures BestPlanCents(short, priceCents) == FullCents(recipe) - recipe[k].price
  {
    whole := WholeRecipe(recipe);
    short := whole[k := whole[k].(have := whole[k].have - 1)];
    assert short[k].have < whole[k].have;
    SameRecipeAmounts(whole, recipe);
    WholeCosts(whole, priceCents);
    ShortCosts(whole, k, short, priceCents);
  }

  /** More units of a recipe always cost more, whatever units there were. */
  ghost predicate AlwaysGrows(recipe: seq<Item>, priceCents: int) {
    forall a, b :: Wellformed(a) && Wellformed(b) && SameRecipe(a, recipe) && Grows(a, b) && a != b ==>
      BestPlanCents(a, priceCents) < BestPlanCents(b, priceCents)
  }

  lemma {:induction false} CheapestAt(items: seq<Item>) returns (k: nat)
    requires items != []
    ensures k < |items| && items[k].price == CheapestCents(items)
  {
    if |items| == 1 || items[0].price <= CheapestCents(items[1..]) {
      k := 0;
    } else {
      k := CheapestAt(items[1..]);
      k := k + 1;
    }
  }

  /** For a bundle price that saves anything, the lower bound is exact: above it more units always
      cost more, and at or below it a recipe short of one cheapest unit is completed for nothing
      or less. */
  lemma BoundIsExact(recipe: seq<Item>, priceCents: int)
    requires Wellformed(recipe) && priceCents < FullCents(recipe)
    ensures AlwaysGrows(recipe, priceCents) <==> PriceBounds(recipe).incompleteCents < priceCents
  {
    if PriceBounds(recipe).incompleteCents < priceCents {
      forall a, b | Wellformed(a) && Wellformed(b) && SameRecipe(a, recipe) && Grows(a, b) && a != b
        ensures BestPlanCents(a, priceCents) < BestPlanCents(b, priceCents)
      {
        SameRecipeAmounts(a, recipe);
        BestPlanMonotone(a, b, priceCents);
      }
    } else {
      var k := CheapestAt(recipe);
      var whole, short := WholeAndShort(recipe, k, priceCents);
      assert BestPlanCents(whole, priceCents) <= BestPlanCents(short, priceCents);
    }
  }

  // --- Component order plays no part ------------------------------------------------

  function FullTerm(): Item -> int { (x: Item) => x.need * x.price }

  function SurplusTerm(n: int): Item -> int { (x: Item) => (x.have - n * x.need) * x.price }

  lemma {:induction false} AmountsAreSums(items: seq<Item>, n: int)
    ensures FullCents(items) == Sum(Map(FullTerm(), items))
    ensures SurplusCents(items, n) == Sum(Map(SurplusTerm(n), items))
  {
    if items != [] {
      AmountsAreSums(items[1..], n);
      assert Map(FullTerm(), items) == [FullTerm()(items[0])] + Map(FullTerm(), items[1..]);
      assert Map(SurplusTerm(n), items) == [SurplusTerm(n)(items[0])] + Map(SurplusTerm(n), items[1..]);
    }
  }

  /** The bounds without their recursions: below what the whole recipe costs separately, and above
      what it costs short of any one unit. */
  lemma InBoundsMeans(priceCents: int, items: seq<Item>)
    requires items != []
    ensures InBounds(priceCents, items) <==>
      && priceCents < Sum(Map(FullTerm(), items))
      && forall i :: 0 <= i < |items| ==> Sum(Map(FullTerm(), items)) - items[i].price < priceCents
  {
    AmountsAreSums(items, 0);
    CheapestIsLeast(items);
    var k := CheapestAt(items);
  }

  /** A plan without its recursion: the instances at the bundle price, every other unit at its own. */
  lemma PlanMeans(items: seq<Item>, n: int, priceCents: int)
    ensures PlanCents(items, n, priceCents) == n * priceCents + Sum(Map(SurplusTerm(n), items))
  {
    AmountsAreSums(items, n);
  }

  lemma AmountsPermuted(a: seq<Item>, b: seq<Item>, n: int)
    requires Permuted(a, b)
    ensures FullCents(a) == FullCents(b) && SurplusCents(a, n) == SurplusCents(b, n)
  {
    AmountsAreSums(a, n);
    AmountsAreSums(b, n);
    MapPermuted(FullTerm(), a, b);
    SumPermuted(Map(FullTerm(), a), Map(FullTerm(), b));
    MapPermuted(SurplusTerm(n), a, b);
    SumPermuted(Map(SurplusTerm(n), a), Map(SurplusTerm(n), b));
  }
}
