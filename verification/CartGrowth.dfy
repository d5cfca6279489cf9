/** Adding merchandise never lowers the subtotal
    (backend/src/lib/bundle-pricing.ts, backend/src/lib/combo-pricing.ts). */
module CartGrowth {
  import opened Common
  import opened BundleMath
  import opened VolumePricing
  import opened BundlePricing

  lemma FindUnique(lines: seq<Line>, i: int)
    requires Distinct(VariantIds(lines)) && 0 <= i < |lines|
    ensures FindLine(lines, lines[i].variantID) == Some(lines[i])
  {
    var found := FindLine(lines, lines[i].variantID);
    assert lines[i] in lines;
    var k :| 0 <= k < |lines| && lines[k] == found.value;
    var ids := VariantIds(lines);
    assert ids[k] == lines[k].variantID && ids[i] == lines[i].variantID;
    assert k == i;
  }

  /** One line with another quantity. */
  function WithQuantity(lines: seq<Line>, j: nat, q: int): seq<Line>
    requires j < |lines|
  {
    lines[j := lines[j].(quantity := q)]
  }

  lemma CartWithQuantity(lines: seq<Line>, j: nat, q: int)
    requires Cart(lines) && j < |lines| && q >= 1
    ensures Cart(WithQuantity(lines, j, q))
  {
    assert LineIds(WithQuantity(lines, j, q)) == LineIds(lines);
    assert VariantIds(WithQuantity(lines, j, q)) == VariantIds(lines);
    assert lines[j] in lines;
  }

  lemma FindWithQuantity(lines: seq<Line>, j: nat, q: int, v: int)
    requires Cart(lines) && j < |lines| && q >= 1
    ensures var found := FindLine(WithQuantity(lines, j, q), v);
      if v == lines[j].variantID then found == Some(lines[j].(quantity := q)) else found == FindLine(lines, v)
  {
    var lines' := WithQuantity(lines, j, q);
    CartWithQuantity(lines, j, q);
    FindUnique(lines', j);
    if v != lines[j].variantID {
      match FindLine(lines, v) {
        case Some(l) =>
          var k :| 0 <= k < |lines| && lines[k] == l;
          FindUnique(lines', k);
        case None =>
          assert forall k :: 0 <= k < |lines'| ==> lines'[k].variantID == lines[k].variantID && lines[k] in lines;
      }
    }
  }

  /** A component's total is at most its separate value, whatever the rate. */
  lemma {:induction false} TotalsAtMostSeparate(totals: seq<int>, items: seq<Item>)
    requires |totals| == |items| && forall i :: 0 <= i < |items| ==> totals[i] <= items[i].have * items[i].price
    ensures Sum(totals) <= SeparateCents(items)
  {
    if items != [] { TotalsAtMostSeparate(totals[1..], items[1..]); }
  }

  lemma OrdinaryAtMostIndividual(line: Line, rules: seq<ComboRule>)
    requires line.quantity >= 0
    ensures OrdinaryCents(line, rules) <= line.quantity * line.individualCents
  {
    MulOrder(Rate(line, rules), line.individualCents, line.quantity);
  }

  function PartTotals(b: BundleCandidate, lines: seq<Line>, rules: seq<ComboRule>): (r: seq<int>)
    requires Buildable(b, lines)
    ensures |r| == |b.components|
  {
    Map(PartTotalBy(rules), PartsOf(b.components, lines))
  }

  function BestCents(b: BundleCandidate, lines: seq<Line>): int
    requires Buildable(b, lines) && PositiveNeeds(b)
  {
    BundlePlanCents(b, lines, InstanceCount(b, lines))
  }

  /** Within its bounds a bundle saves exactly what its best plan undercuts ordinary pricing by. */
  lemma SavingIs(b: BundleCandidate, lines: seq<Line>, rules: seq<ComboRule>)
    requires Recipe(b) && Cart(lines) && Buildable(b, lines)
    ensures PositiveNeeds(b)
    ensures Saving(b, lines, rules) ==
      if InBounds(b.priceCents, BundleItems(b, lines))
      then Max(0, BundleOrdinary(b, lines, rules) - BestCents(b, lines))
      else 0
  {
    assert forall i :: 0 <= i < |b.components| ==> b.components[i] in b.components;
    ItemsWellformed(b, lines);
    var parts, items := PartsOf(b.components, lines), BundleItems(b, lines);
    InstancesAreLargest(items, 0);
    if InstanceCount(b, lines) == 0 {
      PlanLinear(items, 0, b.priceCents);
      forall i | 0 <= i < |items| ensures PartTotals(b, lines, rules)[i] <= items[i].have * items[i].price {
        OrdinaryAtMostIndividual(parts[i].line, rules);
      }
      TotalsAtMostSeparate(PartTotals(b, lines, rules), items);
    }
  }

  // --- More units of one line -------------------------------------------------------

  lemma UntouchedBundle(b: BundleCandidate, lines: seq<Line>, rules: seq<ComboRule>, j: nat, q: int)
    requires Cart(lines) && j < |lines| && q >= 1 && lines[j].variantID !in Variants(b)
    ensures Saving(b, WithQuantity(lines, j, q), rules) == Saving(b, lines, rules)
  {
    var lines' := WithQuantity(lines, j, q);
    forall i | 0 <= i < |b.components|
      ensures FindLine(lines', b.components[i].variantID) == FindLine(lines, b.components[i].variantID)
    {
      assert b.components[i] in b.components;
      FindWithQuantity(lines, j, q, b.components[i].variantID);
    }
    assert AllPresent(b.components, lines') == AllPresent(b.components, lines);
    if AllPresent(b.components, lines) {
      assert PartsOf(b.components, lines') == PartsOf(b.components, lines);
    }
  }

  /** Only the component of the changed line resolves differently. */
  lemma TouchedResolution(b: BundleCandidate, lines: seq<Line>, j: nat, q: int) returns (c: nat)
    requires Recipe(b) && Cart(lines) && j < |lines| && q >= lines[j].quantity
    requires lines[j].variantID in Variants(b) && Buildable(b, lines)
    ensures c < |b.components| && Buildable(b, WithQuantity(lines, j, q))
    ensures var parts := PartsOf(b.components, lines);
      && parts[c].line == lines[j]
      && PartsOf(b.components, WithQuantity(lines, j, q)) == parts[c := parts[c].(line := lines[j].(quantity := q))]
  {
    assert lines[j] in lines;
    var comp :| comp in b.components && comp.variantID == lines[j].variantID;
    c :| 0 <= c < |b.components| && b.components[c] == comp;
    FindUnique(lines, j);
    forall i | 0 <= i < |b.components|
      ensures FindLine(WithQuantity(lines, j, q), b.components[i].variantID) ==
        if i == c then Some(lines[j].(quantity := q)) else FindLine(lines, b.components[i].variantID)
    {
      FindWithQuantity(lines, j, q, b.components[i].variantID);
    }
  }

  lemma TouchedParts(b: BundleCandidate, lines: seq<Line>, rules: seq<ComboRule>, j: nat, q: int) returns (c: nat)
    requires Recipe(b) && Cart(lines) && j < |lines| && q >= lines[j].quantity
    requires lines[j].variantID in Variants(b) && Buildable(b, lines)
    ensures c < |b.components| && Buildable(b, WithQuantity(lines, j, q))
    ensures BundleItems(b, WithQuantity(lines, j, q))
      == BundleItems(b, lines)[c := BundleItems(b, lines)[c].(have := q)]
    ensures BundleItems(b, lines)[c].have == lines[j].quantity
    ensures PartTotals(b, WithQuantity(lines, j, q), rules) ==
      PartTotals(b, lines, rules)[c := OrdinaryCents(lines[j].(quantity := q), rules)]
    ensures PartTotals(b, lines, rules)[c] == OrdinaryCents(lines[j], rules)
  {
    c := TouchedResolution(b, lines, j, q);
  }

  lemma TouchedBundle(b: BundleCandidate, lines: seq<Line>, rules: seq<ComboRule>, j: nat, q: int)
    requires Recipe(b) && Cart(lines) && j < |lines| && q >= lines[j].quantity
    requires lines[j].variantID in Variants(b)
    requires OrdinaryCents(lines[j], rules) <= OrdinaryCents(lines[j].(quantity := q), rules)
    ensures var more := Saving(b, WithQuantity(lines, j, q), rules) - Saving(b, lines, rules);
      var delta := OrdinaryCents(lines[j].(quantity := q), rules) - OrdinaryCents(lines[j], rules);
      more <= delta && (delta > 0 ==> more < delta)
  {
    var lines' := WithQuantity(lines, j, q);
    assert lines[j] in lines;
    CartWithQuantity(lines, j, q);
    if Buildable(b, lines) {
      var c := TouchedParts(b, lines, rules, j, q);
      SumUpdate(PartTotals(b, lines, rules), c, OrdinaryCents(lines'[j], rules));
      SavingIs(b, lines, rules);
      SavingIs(b, lines', rules);
      ItemsWellformed(b, lines);
      ItemsWellformed(b, lines');
      var items, items' := BundleItems(b, lines), BundleItems(b, lines');
      GrowsKeepsRecipe(items, items');
      if InBounds(b.priceCents, items) { BestPlanMonotone(items, items', b.priceCents); }
      if q == lines[j].quantity { assert lines' == lines; }
    } else {
      forall i | 0 <= i < |b.components|
        ensures FindLine(lines', b.components[i].variantID).Some? == FindLine(lines, b.components[i].variantID).Some?
      {
        FindWithQuantity(lines, j, q, b.components[i].variantID);
        if b.components[i].variantID == lines[j].variantID { FindUnique(lines, j); }
      }
    }
  }

  /** However the choice between volume price and bundle plan flips, the extra savings
      stay below what the extra units cost at ordinary prices. */
  lemma {:induction false} SavingsGrowLess(bundles: seq<BundleCandidate>, lines: seq<Line>, rules: seq<ComboRule>,
                                           j: nat, q: int)
    requires Recipes(bundles) && Disjoint(bundles) && Cart(lines) && j < |lines| && q >= lines[j].quantity
    requires OrdinaryCents(lines[j], rules) <= OrdinaryCents(lines[j].(quantity := q), rules)
    ensures var more := Savings(bundles, WithQuantity(lines, j, q), rules) - Savings(bundles, lines, rules);
      var delta := OrdinaryCents(lines[j].(quantity := q), rules) - OrdinaryCents(lines[j], rules);
      && more <= delta && (delta > 0 ==> more < delta)
      && ((forall b :: b in bundles ==> lines[j].variantID !in Variants(b)) ==> more == 0)
  {
    if bundles != [] {
      var b, rest, lines' := bundles[0], bundles[1..], WithQuantity(lines, j, q);
      assert bundles == [b] + rest;
      SavingsCons(b, rest, lines, rules);
      SavingsCons(b, rest, lines', rules);
      assert lines[j] in lines;
      SavingsGrowLess(rest, lines, rules, j, q);
      if lines[j].variantID in Variants(b) {
        assert forall other :: other in rest ==> Variants(b) !! Variants(other);
        TouchedBundle(b, lines, rules, j, q);
      } else {
        UntouchedBundle(b, lines, rules, j, q);
      }
    }
  }

  /** The line's volume tiers passed their boundary checks. */
  ghost predicate SafeTiers(line: Line, rules: seq<ComboRule>) {
    && NonNegativePrices(TiersFor(line, rules), line.individualCents)
    && AllValid(TiersFor(line, rules), line.individualCents)
  }

  ghost predicate PositiveRate(line: Line, rules: seq<ComboRule>) {
    VolumeRate(1, line.individualCents, TiersFor(line, rules)) > 0
  }

  lemma OrdinarySubtotalUpdate(lines: seq<Line>, rules: seq<ComboRule>, j: nat, q: int)
    requires j < |lines|
    ensures OrdinarySubtotal(WithQuantity(lines, j, q), rules) ==
      OrdinarySubtotal(lines, rules) - OrdinaryCents(lines[j], rules) + OrdinaryCents(lines[j].(quantity := q), rules)
  {
    var f, l := TotalBy(rules), lines[j].(quantity := q);
    assert Map(f, WithQuantity(lines, j, q)) == Map(f, lines)[j := f(l)];
    SumUpdate(Map(f, lines), j, f(l));
  }

  lemma OneLineGrows(bundles: seq<BundleCandidate>, lines: seq<Line>, rules: seq<ComboRule>, j: nat, q: int)
    requires Recipes(bundles) && Disjoint(bundles) && Cart(lines) && j < |lines| && q >= lines[j].quantity
    requires SafeTiers(lines[j], rules)
    ensures Cart(WithQuantity(lines, j, q))
    ensures Subtotal(bundles, lines, rules) <= Subtotal(bundles, WithQuantity(lines, j, q), rules)
    ensures q > lines[j].quantity && PositiveRate(lines[j], rules) ==>
      Subtotal(bundles, lines, rules) < Subtotal(bundles, WithQuantity(lines, j, q), rules)
  {
    var line := lines[j];
    assert line in lines;
    var tiers := TiersFor(line, rules);
    CartWithQuantity(lines, j, q);
    TotalsMonotone(line.quantity, q, line.individualCents, tiers);
    if q > line.quantity && PositiveRate(line, rules) { TotalsStrict(line.quantity, q, line.individualCents, tiers); }
    OrdinarySubtotalUpdate(lines, rules, j, q);
    SavingsGrowLess(bundles, lines, rules, j, q);
    SubtotalOfDisjoint(bundles, lines, rules);
    SubtotalOfDisjoint(bundles, WithQuantity(lines, j, q), rules);
  }

  /** The same lines, none with fewer units. */
  ghost predicate Grown(lines: seq<Line>, more: seq<Line>) {
    |lines| == |more| && forall i :: 0 <= i < |lines| ==>
      more[i] == lines[i].(quantity := more[i].quantity) && lines[i].quantity <= more[i].quantity
  }

  /** The lines that grew have safe tiers. */
  ghost predicate GrownSafe(lines: seq<Line>, more: seq<Line>, rules: seq<ComboRule>)
    requires |lines| == |more|
  {
    forall i :: 0 <= i < |lines| && more[i] != lines[i] ==> SafeTiers(lines[i], rules)
  }

  /** A line with a positive rate really grew. */
  ghost predicate SomeGrew(lines: seq<Line>, more: seq<Line>, rules: seq<ComboRule>)
    requires |lines| == |more|
  {
    exists i :: 0 <= i < |lines| && more[i] != lines[i] && PositiveRate(lines[i], rules)
  }

  /** The cart in which only the lines from `k` on have grown. */
  function Stage(lines: seq<Line>, more: seq<Line>, k: nat): seq<Line>
    requires k <= |lines| == |more|
  {
    lines[..k] + more[k..]
  }

  lemma StageStep(lines: seq<Line>, more: seq<Line>, k: nat)
    requires Grown(lines, more) && k < |lines|
    ensures Stage(lines, more, k) == WithQuantity(Stage(lines, more, k + 1), k, more[k].quantity)
    ensures Stage(lines, more, k + 1)[k] == lines[k]
  {
    assert more[k] == lines[k].(quantity := more[k].quantity);
  }

  lemma {:induction false} StagesClimb(bundles: seq<BundleCandidate>, lines: seq<Line>, more: seq<Line>,
                                       rules: seq<ComboRule>, k: nat)
    requires Recipes(bundles) && Disjoint(bundles) && Cart(lines)
    requires Grown(lines, more) && GrownSafe(lines, more, rules) && k <= |lines|
    ensures Cart(Stage(lines, more, k))
    ensures Subtotal(bundles, lines, rules) <= Subtotal(bundles, Stage(lines, more, k), rules)
    ensures (exists i :: k <= i < |lines| && more[i] != lines[i] && PositiveRate(lines[i], rules)) ==>
      Subtotal(bundles, lines, rules) < Subtotal(bundles, Stage(lines, more, k), rules)
    decreases |lines| - k
  {
    if k == |lines| {
      assert Stage(lines, more, k) == lines;
    } else {
      StagesClimb(bundles, lines, more, rules, k + 1);
      StageStep(lines, more, k);
      if more[k] == lines[k] {
        assert Stage(lines, more, k) == Stage(lines, more, k + 1);
      } else {
        OneLineGrows(bundles, Stage(lines, more, k + 1), rules, k, more[k].quantity);
      }
    }
  }

  /** Adding units to any cart lines never lowers the merchandise subtotal, and strictly
      raises it when a line with a positive rate grew. */
  lemma MoreUnitsNeverCheaper(bundles: seq<BundleCandidate>, lines: seq<Line>, more: seq<Line>, rules: seq<ComboRule>)
    requires Recipes(bundles) && Disjoint(bundles) && Cart(lines)
    requires Grown(lines, more) && GrownSafe(lines, more, rules)
    ensures Cart(more)
    ensures Subtotal(bundles, lines, rules) <= Subtotal(bundles, more, rules)
    ensures SomeGrew(lines, more, rules) ==> Subtotal(bundles, lines, rules) < Subtotal(bundles, more, rules)
  {
    StagesClimb(bundles, lines, more, rules, 0);
    assert Stage(lines, more, 0) == more;
  }

  // --- A new line -------------------------------------------------------------------

  lemma FindWithNew(lines: seq<Line>, line: Line, v: int)
    ensures FindLine(lines + [line], v) == if v == line.variantID then Some(line) else FindLine(lines, v)
  {
    FindAppended(lines, line, v);
  }

  lemma {:induction false} FindAppended(lines: seq<Line>, line: Line, v: int)
    ensures FindLine(lines + [line], v) == if v == line.variantID then Some(line) else FindLine(lines, v)
  {
    if lines == [] {
      assert [] + [line] == [line];
    } else {
      assert (lines + [line])[1..] == lines[1..] + [line];
      FindAppended(lines[1..], line, v);
    }
  }

  lemma NewLineBundle(b: BundleCandidate, lines: seq<Line>, line: Line, rules: seq<ComboRule>)
    requires Recipe(b) && Cart(lines + [line])
    requires line.variantID in Variants(b) && OrdinaryCents(line, rules) >= 0
    ensures Saving(b, lines, rules) == 0
    ensures Saving(b, lines + [line], rules) <= OrdinaryCents(line, rules)
    ensures OrdinaryCents(line, rules) > 0 ==> Saving(b, lines + [line], rules) < OrdinaryCents(line, rules)
  {
    var more := lines + [line];
    var comp :| comp in b.components && comp.variantID == line.variantID;
    var c :| 0 <= c < |b.components| && b.components[c] == comp;
    forall i | 0 <= i < |lines| ensures lines[i].variantID != line.variantID {
      assert VariantIds(more)[i] != VariantIds(more)[|lines|];
    }
    assert !AllPresent(b.components, lines);
    if Buildable(b, more) {
      SavingIs(b, more, rules);
      ItemsWellformed(b, more);
      FindWithNew(lines, line, comp.variantID);
      var items := BundleItems(b, more);
      if InBounds(b.priceCents, items) {
        WithoutNewLine(b, more, rules, c);
      }
    }
  }

  /** Even if the new line completes recipes, their plan costs more than the other lines did. */
  lemma WithoutNewLine(b: BundleCandidate, lines: seq<Line>, rules: seq<ComboRule>, c: nat)
    requires Recipe(b) && Cart(lines) && Buildable(b, lines) && PositiveNeeds(b) && c < |b.components|
    requires InBounds(b.priceCents, BundleItems(b, lines))
    ensures BestCents(b, lines) > BundleOrdinary(b, lines, rules) - PartTotals(b, lines, rules)[c]
  {
    ItemsWellformed(b, lines);
    var items, totals, parts := BundleItems(b, lines), PartTotals(b, lines, rules), PartsOf(b.components, lines);
    var without := items[c := items[c].(have := 0)];
    assert items[c].have >= 1;
    GrowsKeepsRecipe(without, items);
    InstancesAreLargest(without, 0);
    InstancesAreLargest(without, 1);
    BestPlanMonotone(without, items, b.priceCents);
    PlanLinear(without, 0, b.priceCents);
    forall i | 0 <= i < |items| ensures totals[c := 0][i] <= without[i].have * without[i].price {
      OrdinaryAtMostIndividual(parts[i].line, rules);
    }
    TotalsAtMostSeparate(totals[c := 0], without);
    SumUpdate(totals, c, 0);
  }

  lemma {:induction false} NewLineSavings(bundles: seq<BundleCandidate>, lines: seq<Line>, line: Line,
                                          rules: seq<ComboRule>)
    requires Recipes(bundles) && Disjoint(bundles) && Cart(lines + [line]) && OrdinaryCents(line, rules) >= 0
    ensures var more := Savings(bundles, lines + [line], rules) - Savings(bundles, lines, rules);
      && more <= OrdinaryCents(line, rules) && (OrdinaryCents(line, rules) > 0 ==> more < OrdinaryCents(line, rules))
      && ((forall b :: b in bundles ==> line.variantID !in Variants(b)) ==> more == 0)
  {
    if bundles != [] {
      var b, rest, more := bundles[0], bundles[1..], lines + [line];
      assert bundles == [b] + rest;
      SavingsCons(b, rest, lines, rules);
      SavingsCons(b, rest, more, rules);
      NewLineSavings(rest, lines, line, rules);
      if line.variantID in Variants(b) {
        assert forall other :: other in rest ==> Variants(b) !! Variants(other);
        NewLineBundle(b, lines, line, rules);
      } else {
        forall i | 0 <= i < |b.components|
          ensures FindLine(more, b.components[i].variantID) == FindLine(lines, b.components[i].variantID)
        {
          assert b.components[i] in b.components;
          FindWithNew(lines, line, b.components[i].variantID);
        }
        assert AllPresent(b.components, more) == AllPresent(b.components, lines);
        if AllPresent(b.components, lines) { assert PartsOf(b.components, more) == PartsOf(b.components, lines); }
      }
    }
  }

  /** Putting a new SKU in the cart never lowers the subtotal either, even when it is the
      missing component of a bundle. */
  lemma NewLineNeverCheaper(bundles: seq<BundleCandidate>, lines: seq<Line>, line: Line, rules: seq<ComboRule>)
    requires Recipes(bundles) && Disjoint(bundles) && Cart(lines + [line]) && OrdinaryCents(line, rules) >= 0
    ensures Subtotal(bundles, lines, rules) <= Subtotal(bundles, lines + [line], rules)
    ensures OrdinaryCents(line, rules) > 0 ==>
      Subtotal(bundles, lines, rules) < Subtotal(bundles, lines + [line], rules)
  {
    SubtotalOfDisjoint(bundles, lines, rules);
    SubtotalOfDisjoint(bundles, lines + [line], rules);
    NewLineSavings(bundles, lines, line, rules);
    var f := TotalBy(rules);
    assert Map(f, lines + [line]) == Map(f, lines) + [f(line)];
    SumAppend(Map(f, lines), [f(line)]);
  }
}
