/** Only what a cart holds decides its subtotal (backend/src/lib/bundle-pricing.ts,
    backend/src/lib/combo-pricing.ts): neither the order of its lines nor their ids do. */
module CartContents {
  import opened Common
  import opened VolumePricing
  import opened BundlePricing
  import opened CartGrowth

  /** A line without the id that tells it from the other lines of its cart. */
  function Goods(l: Line): Line { l.(lineId := 0) }

  function GoodsOf(lines: seq<Line>): seq<Line> { Map((l: Line) => Goods(l), lines) }

  ghost predicate SameGoods(a: seq<Line>, b: seq<Line>) { Permuted(GoodsOf(a), GoodsOf(b)) }

  function Found(lines: seq<Line>, v: int): Option<Line> {
    match FindLine(lines, v)
    case Some(l) => Some(Goods(l))
    case None => None
  }

  lemma FoundCarries(a: seq<Line>, b: seq<Line>, v: int)
    requires Distinct(VariantIds(b)) && SameGoods(a, b) && FindLine(a, v).Some?
    ensures Found(b, v) == Found(a, v)
  {
    var l := FindLine(a, v).value;
    var i :| 0 <= i < |a| && a[i] == l;
    assert GoodsOf(a)[i] == Goods(l);
    SameElements(GoodsOf(a), GoodsOf(b));
    assert Goods(l) in GoodsOf(b);
    var k :| 0 <= k < |GoodsOf(b)| && GoodsOf(b)[k] == Goods(l);
    FindUnique(b, k);
  }

  lemma SameFound(a: seq<Line>, b: seq<Line>, v: int)
    requires Distinct(VariantIds(a)) && Distinct(VariantIds(b)) && SameGoods(a, b)
    ensures Found(a, v) == Found(b, v)
  {
    if FindLine(a, v).Some? {
      FoundCarries(a, b, v);
    } else if FindLine(b, v).Some? {
      FoundCarries(b, a, v);
    }
  }

  ghost predicate LookAlike(a: seq<Line>, b: seq<Line>) { forall v :: Found(a, v) == Found(b, v) }

  lemma SamePart(b: BundleCandidate, lines: seq<Line>, more: seq<Line>, rules: seq<ComboRule>, i: nat)
    requires LookAlike(lines, more) && Buildable(b, lines) && Buildable(b, more) && i < |b.components|
    ensures BundleItems(b, lines)[i] == BundleItems(b, more)[i]
    ensures PartTotals(b, lines, rules)[i] == PartTotals(b, more, rules)[i]
  {
    assert Found(lines, b.components[i].variantID) == Found(more, b.components[i].variantID);
  }

  lemma SameBundle(b: BundleCandidate, lines: seq<Line>, more: seq<Line>, rules: seq<ComboRule>)
    requires LookAlike(lines, more)
    ensures Buildable(b, lines) == Buildable(b, more)
    ensures Buildable(b, lines) ==> BundleItems(b, lines) == BundleItems(b, more)
    ensures Buildable(b, lines) ==> BundleOrdinary(b, lines, rules) == BundleOrdinary(b, more, rules)
  {
    forall v ensures FindLine(lines, v).Some? == FindLine(more, v).Some? {
      assert Found(lines, v) == Found(more, v);
    }
    if Buildable(b, lines) {
      forall i | 0 <= i < |b.components|
        ensures BundleItems(b, lines)[i] == BundleItems(b, more)[i]
        ensures PartTotals(b, lines, rules)[i] == PartTotals(b, more, rules)[i]
      {
        SamePart(b, lines, more, rules, i);
      }
      assert PartTotals(b, lines, rules) == PartTotals(b, more, rules);
    }
  }

  lemma {:induction false} SameSelection(bundles: seq<BundleCandidate>, lines: seq<Line>, more: seq<Line>,
                                         rules: seq<ComboRule>, claimed: set<int>)
    requires LookAlike(lines, more)
    ensures Select(bundles, lines, rules, claimed) == Select(bundles, more, rules, claimed)
  {
    if bundles != [] {
      SameBundle(bundles[0], lines, more, rules);
      SameSelection(bundles[1..], lines, more, rules, claimed + Variants(bundles[0]));
      SameSelection(bundles[1..], lines, more, rules, claimed);
    }
  }

  lemma SameSavings(bundles: seq<BundleCandidate>, lines: seq<Line>, more: seq<Line>, rules: seq<ComboRule>)
    requires LookAlike(lines, more)
    ensures Savings(bundles, lines, rules) == Savings(bundles, more, rules)
  {
    forall i | 0 <= i < |bundles| ensures SavingBy(lines, rules)(bundles[i]) == SavingBy(more, rules)(bundles[i]) {
      SameBundle(bundles[i], lines, more, rules);
    }
    assert Map(SavingBy(lines, rules), bundles) == Map(SavingBy(more, rules), bundles);
  }

  lemma OrdinaryOfGoods(lines: seq<Line>, rules: seq<ComboRule>)
    ensures OrdinarySubtotal(lines, rules) == Sum(Map(TotalBy(rules), GoodsOf(lines)))
  {
    assert Map(TotalBy(rules), lines) == Map(TotalBy(rules), GoodsOf(lines));
  }

  /** Carts that hold the same goods cost the same, in whatever order and under whatever line ids. */
  lemma SameGoodsCostTheSame(bundles: seq<BundleCandidate>, a: seq<Line>, b: seq<Line>, rules: seq<ComboRule>)
    requires Cart(a) && Cart(b) && SameGoods(a, b)
    ensures Subtotal(bundles, a, rules) == Subtotal(bundles, b, rules)
  {
    forall v ensures Found(a, v) == Found(b, v) { SameFound(a, b, v); }
    SameSelection(SortBundles(bundles), a, b, rules, {});
    SameSavings(Chosen(bundles, a, rules), a, b, rules);
    OrdinaryOfGoods(a, rules);
    OrdinaryOfGoods(b, rules);
    MapPermuted(TotalBy(rules), GoodsOf(a), GoodsOf(b));
    SumPermuted(Map(TotalBy(rules), GoodsOf(a)), Map(TotalBy(rules), GoodsOf(b)));
  }

  // --- A cart that holds at least the units of another ---------------------------------

  /** The same SKU at the same individual price. */
  predicate SameSku(l: Line, m: Line) { m == l.(lineId := m.lineId, quantity := m.quantity) }

  ghost predicate HoldsAtLeast(lines: seq<Line>, more: seq<Line>) {
    forall l :: l in lines ==>
      match FindLine(more, l.variantID)
      case Some(m) => SameSku(l, m) && l.quantity <= m.quantity
      case None => false
  }

  /** Where units came on top: safe tiers under a line that grew, a nonnegative price on a new one. */
  ghost predicate ExtraSafe(lines: seq<Line>, more: seq<Line>, rules: seq<ComboRule>) {
    forall m :: m in more ==>
      match FindLine(lines, m.variantID)
      case Some(l) => l.quantity != m.quantity ==> SafeTiers(l, rules)
      case None => OrdinaryCents(m, rules) >= 0
  }

  /** ... and where they cannot be free. */
  ghost predicate Costly(lines: seq<Line>, m: Line, rules: seq<ComboRule>) {
    match FindLine(lines, m.variantID)
    case Some(l) => l.quantity != m.quantity && PositiveRate(l, rules)
    case None => OrdinaryCents(m, rules) > 0
  }

  /** The same cart with SKUs for line ids. */
  function BySku(lines: seq<Line>): seq<Line> { Map((l: Line) => l.(lineId := l.variantID), lines) }

  lemma BySkuSame(lines: seq<Line>)
    requires Cart(lines)
    ensures Cart(BySku(lines)) && SameGoods(BySku(lines), lines)
  {
    var named := BySku(lines);
    assert VariantIds(named) == VariantIds(lines) && LineIds(named) == VariantIds(lines);
    assert GoodsOf(named) == GoodsOf(lines);
    forall l | l in named ensures l.quantity >= 1 && l.individualCents >= 0 {
      var i :| 0 <= i < |named| && named[i] == l;
      assert lines[i] in lines;
    }
  }

  function Swap(s: seq<Line>, i: nat, j: nat): seq<Line>
    requires i < |s| && j < |s|
  {
    s[i := s[j]][j := s[i]]
  }

  lemma SwapPermutes(s: seq<Line>, i: nat, j: nat)
    requires i < |s| && j < |s|
    ensures Permuted(Swap(s, i, j), s)
  {
  }

  /** Every line of one cart has its grown counterpart in the other. */
  ghost predicate Matched(lines: seq<Line>, more: seq<Line>) {
    forall i :: 0 <= i < |lines| ==> HasMatch(lines[i], more)
  }

  ghost predicate HasMatch(l: Line, more: seq<Line>) {
    exists m :: m in more && m == l.(quantity := m.quantity) && l.quantity <= m.quantity
  }

  /** The larger cart with the counterparts of the smaller one's lines in front, in their order. */
  lemma {:induction false} Arrange(lines: seq<Line>, more: seq<Line>) returns (p: seq<Line>)
    requires Distinct(VariantIds(lines)) && Matched(lines, more)
    ensures Permuted(p, more) && |lines| <= |p| && Grown(lines, p[..|lines|])
  {
    if lines == [] {
      p := more;
    } else {
      var n := |lines| - 1;
      assert VariantIds(lines[..n]) == VariantIds(lines)[..n];
      forall i | 0 <= i < n ensures HasMatch(lines[..n][i], more) { assert HasMatch(lines[i], more); }
      assert HasMatch(lines[n], more);
      var q := Arrange(lines[..n], more);
      var m :| m in more && m == lines[n].(quantity := m.quantity) && lines[n].quantity <= m.quantity;
      SameElements(q, more);
      var k :| 0 <= k < |q| && q[k] == m;
      forall i | 0 <= i < n ensures q[i] == lines[i].(quantity := q[i].quantity) && lines[i].quantity <= q[i].quantity {
        assert q[..n][i] == q[i] && lines[..n][i] == lines[i];
      }
      forall i | 0 <= i < n ensures q[i].variantID != m.variantID {
        assert VariantIds(lines)[i] != VariantIds(lines)[n];
      }
      p := Swap(q, n, k);
      SwapPermutes(q, n, k);
    }
  }

  lemma PermutedCart(a: seq<Line>, b: seq<Line>)
    requires Permuted(a, b) && Cart(b)
    ensures Cart(a) && SameGoods(a, b)
  {
    SameElements(a, b);
    MapPermuted((l: Line) => Goods(l), a, b);
    MapPermuted((l: Line) => l.lineId, b, a);
    MapPermuted((l: Line) => l.variantID, b, a);
    DistinctPermuted(LineIds(b), LineIds(a));
    DistinctPermuted(VariantIds(b), VariantIds(a));
  }

  lemma PrefixCart(lines: seq<Line>, n: nat)
    requires Cart(lines) && n <= |lines|
    ensures Cart(lines[..n])
  {
    assert LineIds(lines[..n]) == LineIds(lines)[..n] && VariantIds(lines[..n]) == VariantIds(lines)[..n];
  }

  /** Lines added one after the other. */
  lemma {:induction false} LinesAdded(bundles: seq<BundleCandidate>, lines: seq<Line>, n: nat, rules: seq<ComboRule>)
    requires Recipes(bundles) && Disjoint(bundles) && Cart(lines) && n <= |lines|
    requires forall i :: n <= i < |lines| ==> OrdinaryCents(lines[i], rules) >= 0
    ensures Subtotal(bundles, lines[..n], rules) <= Subtotal(bundles, lines, rules)
    ensures (exists i :: n <= i < |lines| && OrdinaryCents(lines[i], rules) > 0) ==>
      Subtotal(bundles, lines[..n], rules) < Subtotal(bundles, lines, rules)
  {
    if n == |lines| {
      assert lines[..n] == lines;
    } else {
      var k := |lines| - 1;
      PrefixCart(lines, k);
      assert lines[..k] + [lines[k]] == lines && lines[..k][..n] == lines[..n];
      LinesAdded(bundles, lines[..k], n, rules);
      NewLineNeverCheaper(bundles, lines[..k], lines[k], rules);
    }
  }

  lemma BySkuMatched(lines: seq<Line>, more: seq<Line>)
    requires HoldsAtLeast(lines, more)
    ensures Matched(BySku(lines), BySku(more))
  {
    forall i | 0 <= i < |lines| ensures HasMatch(BySku(lines)[i], BySku(more)) {
      assert lines[i] in lines;
      var found := FindLine(more, lines[i].variantID).value;
      var k :| 0 <= k < |more| && more[k] == found;
      var m := BySku(more)[k];
      assert m in BySku(more) && m == BySku(lines)[i].(quantity := m.quantity);
    }
  }

  lemma ArrangedDistinct(more: seq<Line>, p: seq<Line>)
    requires Cart(more) && Permuted(p, BySku(more))
    ensures Cart(p) && SameGoods(p, more)
  {
    BySkuSame(more);
    PermutedCart(p, BySku(more));
  }

  /** Where a line of the arranged cart comes from. */
  lemma FromMore(more: seq<Line>, p: seq<Line>, i: nat) returns (m: Line)
    requires Permuted(p, BySku(more)) && i < |p|
    ensures m in more && p[i] == m.(lineId := m.variantID)
  {
    SameElements(p, BySku(more));
    assert p[i] in BySku(more);
    var k :| 0 <= k < |more| && BySku(more)[k] == p[i];
    m := more[k];
  }

  /** A line behind the counterparts is of a SKU the smaller cart does not hold. */
  lemma NewSku(lines: seq<Line>, p: seq<Line>, i: nat)
    requires Distinct(VariantIds(p)) && |lines| <= i < |p| && Grown(BySku(lines), p[..|lines|])
    ensures FindLine(lines, p[i].variantID).None?
  {
    forall l | l in lines ensures l.variantID != p[i].variantID {
      var j :| 0 <= j < |lines| && lines[j] == l;
      assert p[..|lines|][j] == p[j] && BySku(lines)[j].variantID == l.variantID;
      assert VariantIds(p)[j] != VariantIds(p)[i];
    }
  }

  lemma FrontSafe(lines: seq<Line>, more: seq<Line>, p: seq<Line>, rules: seq<ComboRule>)
    requires Cart(lines) && Cart(more) && Permuted(p, BySku(more)) && ExtraSafe(lines, more, rules)
    requires |lines| <= |p| && Grown(BySku(lines), p[..|lines|])
    ensures GrownSafe(BySku(lines), p[..|lines|], rules)
  {
    forall i | 0 <= i < |lines| && p[..|lines|][i] != BySku(lines)[i] ensures SafeTiers(BySku(lines)[i], rules) {
      var m := FromMore(more, p, i);
      assert p[..|lines|][i] == p[i];
      FindUnique(lines, i);
    }
  }

  lemma RestSafe(lines: seq<Line>, more: seq<Line>, p: seq<Line>, rules: seq<ComboRule>)
    requires Cart(more) && Permuted(p, BySku(more)) && ExtraSafe(lines, more, rules)
    requires |lines| <= |p| && Grown(BySku(lines), p[..|lines|])
    ensures forall i :: |lines| <= i < |p| ==> OrdinaryCents(p[i], rules) >= 0
  {
    forall i | |lines| <= i < |p| ensures OrdinaryCents(p[i], rules) >= 0 {
      var m := FromMore(more, p, i);
      ArrangedDistinct(more, p);
      NewSku(lines, p, i);
    }
  }

  /** Where the arranged cart shows that a costly unit came on top. */
  lemma CostlyShows(lines: seq<Line>, more: seq<Line>, p: seq<Line>, rules: seq<ComboRule>, m: Line)
    requires Cart(lines) && Cart(more) && Permuted(p, BySku(more)) && m in more && Costly(lines, m, rules)
    requires |lines| <= |p| && Grown(BySku(lines), p[..|lines|])
    ensures SomeGrew(BySku(lines), p[..|lines|], rules)
      || exists i :: |lines| <= i < |p| && OrdinaryCents(p[i], rules) > 0
  {
    SameElements(p, BySku(more));
    var k :| 0 <= k < |more| && more[k] == m;
    assert BySku(more)[k] in p;
    var i :| 0 <= i < |p| && p[i] == BySku(more)[k];
    if i < |lines| {
      assert p[..|lines|][i] == p[i];
      FindUnique(lines, i);
      assert p[..|lines|][i] != BySku(lines)[i] && PositiveRate(BySku(lines)[i], rules);
    } else {
      ArrangedDistinct(more, p);
      NewSku(lines, p, i);
      assert OrdinaryCents(p[i], rules) > 0;
    }
  }

  /** A cart that holds at least the units of another, SKU by SKU, with whatever more besides and
      in whatever order, never costs less; and it costs more as soon as a unit that is not free
      came on top. */
  lemma MoreGoodsNeverCheaper(bundles: seq<BundleCandidate>, lines: seq<Line>, more: seq<Line>, rules: seq<ComboRule>)
    requires Recipes(bundles) && Disjoint(bundles) && Cart(lines) && Cart(more)
    requires HoldsAtLeast(lines, more) && ExtraSafe(lines, more, rules)
    ensures Subtotal(bundles, lines, rules) <= Subtotal(bundles, more, rules)
    ensures (exists m :: m in more && Costly(lines, m, rules)) ==>
      Subtotal(bundles, lines, rules) < Subtotal(bundles, more, rules)
  {
    BySkuSame(lines);
    BySkuMatched(lines, more);
    var p := Arrange(BySku(lines), BySku(more));
    var n := |lines|;
    ArrangedDistinct(more, p);
    SameGoodsCostTheSame(bundles, BySku(lines), lines, rules);
    SameGoodsCostTheSame(bundles, p, more, rules);
    FrontSafe(lines, more, p, rules);
    RestSafe(lines, more, p, rules);
    MoreUnitsNeverCheaper(bundles, BySku(lines), p[..n], rules);
    LinesAdded(bundles, p, n, rules);
    if m :| m in more && Costly(lines, m, rules) { CostlyShows(lines, more, p, rules, m); }
  }
}
