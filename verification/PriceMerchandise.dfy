/** `priceMerchandise` as it runs (backend/src/lib/bundle-pricing.ts:39-91): the result
    shares its Maps with the ordinary pricing it later still reads as a baseline. */
module PriceMerchandise {
  import opened Common
  import opened JsMaps
  import opened BundleMath
  import AllocateCents
  import opened VolumePricing
  import opened BundlePricing
  import opened Placements
  import opened Ledger
  import opened CartLedger

  datatype AppliedComponent = AppliedComponent(variantID: int, quantity: int, lineId: int, individualPriceCents: int,
                                               unitIndices: seq<int>)

  datatype AppliedBundle = AppliedBundle(id: int, priceCents: int, instanceCount: int,
                                         components: seq<AppliedComponent>)

  /** `combo` holds the Maps of the ordinary pricing, overwritten in place. */
  datatype Merchandise = Merchandise(combo: ComboPricing, bundleUnits: JsMap<seq<BundleUnit>>,
                                     ordinaryUnits: JsMap<seq<int>>,
                                     applied: seq<AppliedBundle>, ordinarySubtotal: int, bundleSavings: int)

  function AppliedPart(count: nat): Part -> AppliedComponent {
    (p: Part) => AppliedComponent(p.variantID, p.quantity, p.line.lineId, p.line.individualCents,
      seq(Max(0, Times(count, p.quantity)), i => i))
  }

  function AppliedOf(b: BundleCandidate, lines: seq<Line>, ghost rules: seq<ComboRule>): AppliedBundle
    requires Applicable(b, lines, rules) && Cart(lines)
  {
    InstancesNonNegative(b, lines);
    AppliedBundle(b.id, b.priceCents, InstanceCount(b, lines),
      Map(AppliedPart(InstanceCount(b, lines)), Ordered(b, lines)))
  }

  function AppliedAll(bs: seq<BundleCandidate>, lines: seq<Line>, ghost rules: seq<ComboRule>): seq<AppliedBundle>
    requires AllApplicable(bs, lines, rules) && Cart(lines)
  {
    seq(|bs|, i requires 0 <= i < |bs| => AppliedOf(bs[i], lines, rules))
  }

  /** The four Maps that change, told apart as objects. */
  ghost predicate Apart(m: ComboPricing, tags: JsMap<seq<BundleUnit>>) {
    var a: object, b: object, c: object, d: object, e: object := m.lineTotals, m.lineUnits, m.lineRules, m.basis, tags;
    Separate(m) && e != a && e != b && e != c && e != d
  }

  /** What the four Maps hold. */
  datatype Entries = Entries(totals: map<int, int>, ruleIds: map<int, Option<int>>, at: Placement)

  ghost function EntriesOf(m: ComboPricing, tags: JsMap<seq<BundleUnit>>): Entries
    reads m.lineTotals, m.lineRules, m.lineUnits, tags
  {
    Entries(m.lineTotals.entries, m.lineRules.entries, Placement(m.lineUnits.entries, tags.entries))
  }

  ghost predicate Sound(m: ComboPricing, tags: JsMap<seq<BundleUnit>>, order: seq<int>)
    reads m.lineTotals, m.lineRules, m.lineUnits, tags
  {
    && Apart(m, tags) && tags.Valid() && m.lineUnits.Valid() && m.lineTotals.Valid() && m.lineRules.Valid()
    && m.lineUnits.order == m.lineTotals.order == m.lineRules.order == order
  }

  ghost predicate Keyed(e: Entries, id: int) {
    id in e.totals && id in e.ruleIds && id in e.at.units
  }

  /** One line taken over by a bundle. */
  datatype Write = Write(id: int, units: seq<int>, identities: seq<BundleUnit>)

  /** ... and its effect on all four Maps. */
  ghost function Overwrite(e: Entries, w: Write): Entries {
    Entries(e.totals[w.id := Sum(w.units)], e.ruleIds[w.id := None], PlaceLine(e.at, w.id, w.units, w.identities))
  }

  ghost function OverwriteUpTo(e: Entries, ws: seq<Write>, i: nat): Entries
    requires i <= |ws|
  {
    if i == 0 then e else Overwrite(OverwriteUpTo(e, ws, i - 1), ws[i - 1])
  }

  lemma {:induction false} UpToKeyed(e: Entries, ws: seq<Write>, i: nat, id: int)
    requires i <= |ws| && Keyed(e, id)
    ensures Keyed(OverwriteUpTo(e, ws, i), id)
  {
    if i > 0 { UpToKeyed(e, ws, i - 1, id); }
  }

  function WriteOf(bundleID: int, count: nat, p: Part, perInstance: seq<int>): Write {
    Write(p.line.lineId, PartUnits(p, perInstance, count), PartTags(bundleID, p, count))
  }

  method PlacePart(m: ComboPricing, tags: JsMap<seq<BundleUnit>>, ghost order: seq<int>, claimed: set<int>,
                   bundleID: int, p: Part, count: nat, perInstance: seq<int>, ghost w: Write)
    returns (claimed': set<int>)
    requires Sound(m, tags, order) && Keyed(EntriesOf(m, tags), p.line.lineId) && p.quantity >= 1
    requires w == WriteOf(bundleID, count, p, perInstance)
    modifies m.lineTotals, m.lineUnits, m.lineRules, tags
    ensures Sound(m, tags, order) && claimed' == claimed + {p.variantID}
    ensures EntriesOf(m, tags) == Overwrite(old(EntriesOf(m, tags)), w)
  {
    var units := Repeat(perInstance, count);
    var identities := InstanceTags(bundleID, p.quantity, 0, count);
    var surplus := SurplusUnits(p, count);
    units := units + Fill(surplus, p.line.individualCents);
    identities := identities + Fill(surplus, Surplus(bundleID));
    SetAll(m, tags, order, p.line.lineId, units, identities);
    claimed' := claimed + {p.variantID};
  }

  method SetAll(m: ComboPricing, tags: JsMap<seq<BundleUnit>>, ghost order: seq<int>, id: int, units: seq<int>,
                identities: seq<BundleUnit>)
    requires Sound(m, tags, order) && Keyed(EntriesOf(m, tags), id)
    modifies m.lineTotals, m.lineUnits, m.lineRules, tags
    ensures Sound(m, tags, order)
    ensures EntriesOf(m, tags) == Overwrite(old(EntriesOf(m, tags)), Write(id, units, identities))
  {
    m.lineUnits.Set(id, units);
    tags.Set(id, identities);
    m.lineTotals.Set(id, Sum(units));
    m.lineRules.Set(id, None);
  }

  function ClaimedUpTo(claimed: set<int>, parts: seq<Part>, i: nat): set<int>
    requires i <= |parts|
  {
    if i == 0 then claimed else ClaimedUpTo(claimed, parts, i - 1) + {parts[i - 1].variantID}
  }

  lemma {:induction false} ClaimedAre(claimed: set<int>, parts: seq<Part>, i: nat, v: int)
    requires i <= |parts|
    ensures v in ClaimedUpTo(claimed, parts, i) <==> v in claimed || exists k :: 0 <= k < i && parts[k].variantID == v
  {
    if i > 0 { ClaimedAre(claimed, parts, i - 1, v); }
  }

  /** What the inner loop writes, component by component. */
  function Writes(bundleID: int, count: nat, parts: seq<Part>, shares: seq<int>): (r: seq<Write>)
    requires Covers(parts, shares)
    ensures |r| == |parts|
    decreases parts
  {
    if parts == [] then []
    else
      CoversNext(parts, shares);
      [WriteOf(bundleID, count, parts[0], shares[..parts[0].quantity])]
      + Writes(bundleID, count, parts[1..], shares[parts[0].quantity..])
  }

  /** The slice at the running offset is the one component `i` is owed. */
  lemma {:induction false} WriteAt(bundleID: int, count: nat, parts: seq<Part>, shares: seq<int>, i: nat)
    requires Covers(parts, shares) && i < |parts|
    ensures 1 <= parts[i].quantity && 0 <= OffsetOf(parts, i) <= OffsetOf(parts, i) + parts[i].quantity <= |shares|
    ensures Writes(bundleID, count, parts, shares)[i] ==
      WriteOf(bundleID, count, parts[i], shares[OffsetOf(parts, i)..OffsetOf(parts, i) + parts[i].quantity])
    decreases parts
  {
    CoversNext(parts, shares);
    if i > 0 {
      var q, rest := parts[0].quantity, shares[parts[0].quantity..];
      WriteAt(bundleID, count, parts[1..], rest, i - 1);
      var o := OffsetOf(parts[1..], i - 1);
      assert shares[q + o..q + o + parts[i].quantity] == rest[o..o + parts[i].quantity];
    }
  }

  lemma {:induction false} UpToCons(e: Entries, w: Write, ws: seq<Write>, i: nat)
    requires i <= |ws|
    ensures OverwriteUpTo(e, [w] + ws, i + 1) == OverwriteUpTo(Overwrite(e, w), ws, i)
  {
    if i > 0 { UpToCons(e, w, ws, i - 1); }
  }

  /** All the writes together are the placement of the bundle. */
  lemma {:induction false} WritesPlace(e: Entries, bundleID: int, count: nat, parts: seq<Part>, shares: seq<int>)
    requires Covers(parts, shares)
    ensures OverwriteUpTo(e, Writes(bundleID, count, parts, shares), |parts|).at
      == PlaceParts(e.at, bundleID, count, parts, shares)
    decreases parts
  {
    if parts != [] {
      CoversNext(parts, shares);
      var w := WriteOf(bundleID, count, parts[0], shares[..parts[0].quantity]);
      var rest := Writes(bundleID, count, parts[1..], shares[parts[0].quantity..]);
      UpToCons(e, w, rest, |rest|);
      WritesPlace(Overwrite(e, w), bundleID, count, parts[1..], shares[parts[0].quantity..]);
    }
  }

  lemma OrderedVariants(b: BundleCandidate, lines: seq<Line>, rules: seq<ComboRule>, claimed: set<int>)
    requires Applicable(b, lines, rules) && Cart(lines)
    ensures ClaimedUpTo(claimed, Ordered(b, lines), |Ordered(b, lines)|) == claimed + Variants(b)
  {
    OrderedFacts(b, lines, rules);
    var ordered := Ordered(b, lines);
    forall v ensures v in ClaimedUpTo(claimed, ordered, |ordered|) <==> v in claimed || v in Variants(b) {
      ClaimedAre(claimed, ordered, |ordered|, v);
    }
  }

  /** One turn of the inner loop. */
  method PlaceTurn(m: ComboPricing, tags: JsMap<seq<BundleUnit>>, ghost order: seq<int>, claimed: set<int>,
                   bundleID: int,
                   ordered: seq<Part>, allocations: seq<int>, count: nat, i: nat, offset: int, ghost start: Entries,
                   ghost ws: seq<Write>)
    returns (claimed': set<int>, offset': int)
    requires Sound(m, tags, order) && Covers(ordered, allocations) && i < |ordered|
    requires ws == Writes(bundleID, count, ordered, allocations) && Keyed(start, ordered[i].line.lineId)
    requires EntriesOf(m, tags) == OverwriteUpTo(start, ws, i) && offset == OffsetOf(ordered, i)
    modifies m.lineTotals, m.lineUnits, m.lineRules, tags
    ensures Sound(m, tags, order) && EntriesOf(m, tags) == OverwriteUpTo(start, ws, i + 1)
    ensures offset' == OffsetOf(ordered, i + 1) && claimed' == claimed + {ordered[i].variantID}
  {
    var c := ordered[i];
    WriteAt(bundleID, count, ordered, allocations, i);
    OffsetNext(ordered, i);
    UpToKeyed(start, ws, i, c.line.lineId);
    var perInstance := allocations[offset..offset + c.quantity];
    offset' := offset + c.quantity;
    claimed' := PlacePart(m, tags, order, claimed, bundleID, c, count, perInstance, ws[i]);
  }

  /** The inner loop: every component of one bundle, with its slice of the split. */
  method PlaceLines(m: ComboPricing, tags: JsMap<seq<BundleUnit>>, ghost order: seq<int>,
                    claimed: set<int>, bundleID: int, ordered: seq<Part>, allocations: seq<int>, count: nat)
    returns (claimed': set<int>)
    requires Sound(m, tags, order) && Covers(ordered, allocations)
    requires forall i :: 0 <= i < |ordered| ==> Keyed(EntriesOf(m, tags), ordered[i].line.lineId)
    modifies m.lineTotals, m.lineUnits, m.lineRules, tags
    ensures Sound(m, tags, order) && claimed' == ClaimedUpTo(claimed, ordered, |ordered|)
    ensures EntriesOf(m, tags)
      == OverwriteUpTo(old(EntriesOf(m, tags)), Writes(bundleID, count, ordered, allocations), |ordered|)
  {
    var offset := 0;
    claimed' := claimed;
    ghost var start, ws := EntriesOf(m, tags), Writes(bundleID, count, ordered, allocations);
    for i := 0 to |ordered|
      invariant Sound(m, tags, order) && EntriesOf(m, tags) == OverwriteUpTo(start, ws, i)
      invariant offset == OffsetOf(ordered, i)
      invariant claimed' == ClaimedUpTo(claimed, ordered, i)
    {
      claimed', offset := PlaceTurn(m, tags, order, claimed', bundleID, ordered, allocations, count, i, offset, start,
        ws);
    }
  }

  /** The baseline the later bundles read: the totals of the bundle's own lines. */
  method ReadBaseline(totals: JsMap<int>, parts: seq<Part>, ghost rules: seq<ComboRule>) returns (cents: int)
    requires forall i :: 0 <= i < |parts| ==> TotalIs(totals.entries, parts[i].line, rules)
    ensures cents == OrdinaryPartsCents(parts, rules)
  {
    cents := 0;
    ghost var f := PartTotalBy(rules);
    for i := 0 to |parts|
      invariant cents == Sum(Map(f, parts[..i]))
    {
      assert Map(f, parts[..i + 1]) == Map(f, parts[..i]) + [f(parts[i])];
      SumAppend(Map(f, parts[..i]), [f(parts[i])]);
      cents := cents + totals.entries[parts[i].line.lineId];
    }
    assert parts[..|parts|] == parts;
  }

  method TotalCents(units: JsMap<seq<int>>, ghost at: Placement) returns (cents: int)
    requires units.Valid() && units.entries == at.units
    ensures cents == LedgerSum(units.order, at, CentsMeasure())
  {
    cents := 0;
    ghost var f := MeasureAt(at, CentsMeasure());
    for i := 0 to |units.order|
      invariant cents == Sum(Map(f, units.order[..i]))
    {
      assert Map(f, units.order[..i + 1]) == Map(f, units.order[..i]) + [f(units.order[i])];
      SumAppend(Map(f, units.order[..i]), [f(units.order[i])]);
      assert units.order[i] in units.entries && UnitsAt(at, units.order[i]) == units.entries[units.order[i]];
      assert f(units.order[i]) == Sum(UnitsAt(at, units.order[i]));
      cents := cents + Sum(units.entries[units.order[i]]);
    }
    assert units.order[..|units.order|] == units.order;
  }

  // --- The loop over the bundles -----------------------------------------------------

  /** Totals follow the units, and lines in a bundle name no volume rule. */
  ghost predicate Follows(e: Entries, start: Entries) {
    forall id :: Keyed(start, id) ==>
      Keyed(e, id) && e.totals[id] == Sum(e.at.units[id])
      && e.ruleIds[id] == (if id in e.at.identities then None else start.ruleIds[id])
  }

  lemma {:induction false} UpToFollows(e: Entries, start: Entries, ws: seq<Write>, i: nat)
    requires Follows(e, start) && i <= |ws|
    ensures Follows(OverwriteUpTo(e, ws, i), start)
  {
    if i > 0 { UpToFollows(e, start, ws, i - 1); }
  }

  ghost predicate ClaimedBy(claimed: set<int>, chosen: seq<BundleCandidate>) {
    forall v :: v in claimed <==> exists i :: 0 <= i < |chosen| && v in Variants(chosen[i])
  }

  ghost predicate KeyedLines(e: Entries, lines: seq<Line>) {
    forall l :: l in lines ==> Keyed(e, l.lineId)
  }

  /** What the Maps say once `chosen` is applied. */
  ghost predicate Reached(e: Entries, start: Entries, lines: seq<Line>, rules: seq<ComboRule>,
                          chosen: seq<BundleCandidate>, claimed: set<int>)
    requires Cart(lines) && AllApplicable(chosen, lines, rules)
  {
    && KeyedLines(start, lines) && Follows(e, start)
    && e.at == PlaceAll(Base(lines, rules), chosen, lines, rules)
    && Disjoint(chosen) && ClaimedBy(claimed, chosen)
  }

  /** The totals a bundle would read are the ordinary ones, unless its SKUs are claimed. */
  ghost predicate BaselineOk(totals: map<int, int>, lines: seq<Line>, rules: seq<ComboRule>, b: BundleCandidate,
                             claimed: set<int>) {
    Buildable(b, lines) && Variants(b) !! claimed ==>
      forall i :: 0 <= i < |b.components| ==> TotalIs(totals, PartsOf(b.components, lines)[i].line, rules)
  }

  ghost predicate TotalIs(totals: map<int, int>, l: Line, rules: seq<ComboRule>) {
    l.lineId in totals && totals[l.lineId] == OrdinaryCents(l, rules)
  }

  /** The aliasing argument: although earlier bundles have overwritten the shared Maps, the
      baseline of a bundle that is not claimed is intact. */
  lemma BaselineIntact(e: Entries, start: Entries, lines: seq<Line>, rules: seq<ComboRule>,
                       chosen: seq<BundleCandidate>, claimed: set<int>, b: BundleCandidate)
    requires Cart(lines) && AllApplicable(chosen, lines, rules) && Reached(e, start, lines, rules, chosen, claimed)
    ensures BaselineOk(e.totals, lines, rules, b, claimed)
  {
    if Buildable(b, lines) && Variants(b) !! claimed {
      var parts := PartsOf(b.components, lines);
      forall i | 0 <= i < |parts| ensures TotalIs(e.totals, parts[i].line, rules) {
        var l := parts[i].line;
        assert b.components[i] in b.components && l.variantID in Variants(b);
        UnclaimedStaysOrdinary(chosen, lines, rules, l);
        SumFill(l.quantity, Rate(l, rules));
        assert Keyed(start, l.lineId);
      }
    }
  }

  lemma NextPlacement(e: Entries, lines: seq<Line>, rules: seq<ComboRule>, chosen: seq<BundleCandidate>,
                      b: BundleCandidate)
    requires Cart(lines) && AllApplicable(chosen, lines, rules) && Applicable(b, lines, rules)
    requires e.at == PlaceAll(Base(lines, rules), chosen, lines, rules)
    requires AllocateCents.Allocate(b.priceCents, UnitWeights(Ordered(b, lines))).Ok?
    requires Covers(Ordered(b, lines), Split(b, lines)) && InstanceCount(b, lines) >= 0
    ensures AllApplicable(chosen + [b], lines, rules)
    ensures OverwriteUpTo(e, Writes(b.id, InstanceCount(b, lines), Ordered(b, lines), Split(b, lines)),
      |Ordered(b, lines)|).at
      == PlaceAll(Base(lines, rules), chosen + [b], lines, rules)
  {
    WritesPlace(e, b.id, InstanceCount(b, lines), Ordered(b, lines), Split(b, lines));
    var more := chosen + [b];
    assert more[..|more| - 1] == chosen;
  }

  lemma ReachedNext(e: Entries, start: Entries, lines: seq<Line>, rules: seq<ComboRule>, chosen: seq<BundleCandidate>,
                    claimed: set<int>, b: BundleCandidate)
    requires Cart(lines) && AllApplicable(chosen, lines, rules) && Reached(e, start, lines, rules, chosen, claimed)
    requires Applicable(b, lines, rules) && Variants(b) !! claimed
    requires AllocateCents.Allocate(b.priceCents, UnitWeights(Ordered(b, lines))).Ok?
    requires Covers(Ordered(b, lines), Split(b, lines)) && InstanceCount(b, lines) >= 0
    ensures AllApplicable(chosen + [b], lines, rules)
    ensures Reached(OverwriteUpTo(e, Writes(b.id, InstanceCount(b, lines), Ordered(b, lines), Split(b, lines)),
      |Ordered(b, lines)|),
      start, lines, rules, chosen + [b], claimed + Variants(b))
  {
    var ws := Writes(b.id, InstanceCount(b, lines), Ordered(b, lines), Split(b, lines));
    UpToFollows(e, start, ws, |ws|);
    NextPlacement(e, lines, rules, chosen, b);
    ClaimedNext(chosen, claimed, b);
  }

  lemma ClaimedNext(chosen: seq<BundleCandidate>, claimed: set<int>, b: BundleCandidate)
    requires Disjoint(chosen) && ClaimedBy(claimed, chosen) && Variants(b) !! claimed
    ensures Disjoint(chosen + [b]) && ClaimedBy(claimed + Variants(b), chosen + [b])
  {
    var more := chosen + [b];
    forall i | 0 <= i < |chosen| ensures Variants(chosen[i]) !! Variants(b) {
      assert forall v :: v in Variants(chosen[i]) ==> v in claimed;
    }
    forall v ensures v in claimed + Variants(b) <==> exists i :: 0 <= i < |more| && v in Variants(more[i]) {
      if v in Variants(b) { assert more[|chosen|] == b; }
      if i :| 0 <= i < |chosen| && v in Variants(chosen[i]) { assert more[i] == chosen[i]; }
    }
  }

  predicate BlockedAt(variantID: int, lines: seq<Line>, claimed: set<int>) {
    FindLine(lines, variantID).None? || variantID in claimed
  }

  predicate Blocked(b: BundleCandidate, lines: seq<Line>, claimed: set<int>) {
    exists i :: 0 <= i < |b.components| && BlockedAt(b.components[i].variantID, lines, claimed)
  }

  lemma NotBlocked(b: BundleCandidate, lines: seq<Line>, claimed: set<int>)
    ensures !Blocked(b, lines, claimed) <==> AllPresent(b.components, lines) && Variants(b) !! claimed
  {
    if !Blocked(b, lines, claimed) {
      forall v | v in Variants(b) ensures v !in claimed {
        var c :| c in b.components && c.variantID == v;
        var i :| 0 <= i < |b.components| && b.components[i] == c;
      }
    } else {
      var i :| 0 <= i < |b.components| && BlockedAt(b.components[i].variantID, lines, claimed);
      assert b.components[i] in b.components && b.components[i].variantID in Variants(b);
    }
  }

  /** This bundle's turn comes to nothing or to its being applied. */
  ghost predicate Taken(b: BundleCandidate, lines: seq<Line>, rules: seq<ComboRule>, claimed: set<int>) {
    PositiveNeeds(b) && Variants(b) !! claimed && Qualifies(b, lines, rules)
  }

  /** The tests of one turn, against the Maps as they are now. */
  method Consider(totals: JsMap<int>, lines: seq<Line>, ghost rules: seq<ComboRule>, b: BundleCandidate,
                  claimed: set<int>)
    returns (taken: bool, saved: int)
    requires Cart(lines) && Recipe(b) && PositiveNeeds(b)
    requires BaselineOk(totals.entries, lines, rules, b, claimed)
    ensures taken == Taken(b, lines, rules, claimed)
    ensures taken ==> saved == Saving(b, lines, rules)
  {
    NotBlocked(b, lines, claimed);
    if |b.components| < 2 || Blocked(b, lines, claimed) { return false, 0; }
    var parts := PartsOf(b.components, lines);
    var items := ItemsOf(parts);
    var count := Instances(items);
    if count == 0 { return false, 0; }
    var bounds := PriceBounds(items);
    if b.priceCents <= bounds.incompleteCents || b.priceCents >= bounds.fullCents { return false, 0; }
    var ordinaryCents := ReadBaseline(totals, parts, rules);
    var bundleCents := PlanCents(items, count, b.priceCents);
    taken, saved := bundleCents < ordinaryCents, ordinaryCents - bundleCents;
  }

  /** Applying a bundle that passed: its lines, its record, its SKUs. */
  method ApplyBundle(m: ComboPricing, tags: JsMap<seq<BundleUnit>>, lines: seq<Line>, ghost rules: seq<ComboRule>,
                     claimed: set<int>,
                     b: BundleCandidate, ghost chosen: seq<BundleCandidate>, ghost start: Entries)
    returns (claimed': set<int>, record: AppliedBundle)
    requires Cart(lines) && Sound(m, tags, LineIds(lines)) && AllApplicable(chosen, lines, rules)
    requires Reached(EntriesOf(m, tags), start, lines, rules, chosen, claimed)
    requires Applicable(b, lines, rules) && Variants(b) !! claimed
    modifies m.lineTotals, m.lineUnits, m.lineRules, tags
    ensures Sound(m, tags, LineIds(lines)) && AllApplicable(chosen + [b], lines, rules)
    ensures Reached(EntriesOf(m, tags), start, lines, rules, chosen + [b], claimed')
    ensures claimed' == claimed + Variants(b) && record == AppliedOf(b, lines, rules)
  {
    SplitWorks(b, lines, rules);
    InstancesNonNegative(b, lines);
    OrderedVariants(b, lines, rules, claimed);
    var ordered, count := Ordered(b, lines), InstanceCount(b, lines);
    OrderedKeyed(b, lines, rules, EntriesOf(m, tags), start);
    var split := AllocateCents.AllocateCents(b.priceCents, UnitWeights(ordered));
    ReachedNext(EntriesOf(m, tags), start, lines, rules, chosen, claimed, b);
    claimed' := PlaceLines(m, tags, LineIds(lines), claimed, b.id, ordered, split.value, count);
    record := AppliedBundle(b.id, b.priceCents, count, Map(AppliedPart(count), ordered));
  }

  lemma OrderedKeyed(b: BundleCandidate, lines: seq<Line>, rules: seq<ComboRule>, e: Entries, start: Entries)
    requires Applicable(b, lines, rules) && Cart(lines) && KeyedLines(start, lines) && Follows(e, start)
    ensures forall i :: 0 <= i < |Ordered(b, lines)| ==> Keyed(e, Ordered(b, lines)[i].line.lineId)
  {
    OrderedFacts(b, lines, rules);
  }

  lemma SelectStep(bundles: seq<BundleCandidate>, lines: seq<Line>, rules: seq<ComboRule>, claimed: set<int>, i: nat)
    requires i < |bundles| && PositiveNeeds(bundles[i])
    ensures Select(bundles[i..], lines, rules, claimed) ==
      if Taken(bundles[i], lines, rules, claimed)
      then [bundles[i]] + Select(bundles[i + 1..], lines, rules, claimed + Variants(bundles[i]))
      else Select(bundles[i + 1..], lines, rules, claimed)
  {
    assert bundles[i..][1..] == bundles[i + 1..];
  }

  lemma AppliedSnoc(chosen: seq<BundleCandidate>, b: BundleCandidate, lines: seq<Line>, rules: seq<ComboRule>)
    requires Cart(lines) && AllApplicable(chosen, lines, rules) && Applicable(b, lines, rules)
    ensures AllApplicable(chosen + [b], lines, rules)
    ensures AppliedAll(chosen + [b], lines, rules) == AppliedAll(chosen, lines, rules) + [AppliedOf(b, lines, rules)]
  {
  }

  /** What the loop over the bundles has done and still has to do. */
  ghost predicate Progress(all: seq<BundleCandidate>, i: nat, chosen: seq<BundleCandidate>, claimed: set<int>,
                           applied: seq<AppliedBundle>, savings: int,
                           lines: seq<Line>, rules: seq<ComboRule>)
    requires Cart(lines) && i <= |all|
  {
    && AllApplicable(chosen, lines, rules)
    && chosen + Select(all[i..], lines, rules, claimed) == Select(all, lines, rules, {})
    && applied == AppliedAll(chosen, lines, rules) && savings == Savings(chosen, lines, rules)
  }

  lemma ProgressSkips(all: seq<BundleCandidate>, i: nat, chosen: seq<BundleCandidate>, claimed: set<int>,
                      applied: seq<AppliedBundle>, savings: int,
                      lines: seq<Line>, rules: seq<ComboRule>)
    requires Cart(lines) && i < |all| && PositiveNeeds(all[i]) && !Taken(all[i], lines, rules, claimed)
    requires Progress(all, i, chosen, claimed, applied, savings, lines, rules)
    ensures Progress(all, i + 1, chosen, claimed, applied, savings, lines, rules)
  {
    SelectStep(all, lines, rules, claimed, i);
  }

  lemma SelectionGrows(all: seq<BundleCandidate>, i: nat, chosen: seq<BundleCandidate>, claimed: set<int>,
                       lines: seq<Line>, rules: seq<ComboRule>)
    requires i < |all| && PositiveNeeds(all[i]) && Taken(all[i], lines, rules, claimed)
    ensures (chosen + [all[i]]) + Select(all[i + 1..], lines, rules, claimed + Variants(all[i]))
      == chosen + Select(all[i..], lines, rules, claimed)
  {
    SelectStep(all, lines, rules, claimed, i);
  }

  lemma ProgressTakes(all: seq<BundleCandidate>, i: nat, chosen: seq<BundleCandidate>, claimed: set<int>,
                      applied: seq<AppliedBundle>, savings: int,
                      lines: seq<Line>, rules: seq<ComboRule>)
    requires Cart(lines) && i < |all| && Applicable(all[i], lines, rules) && Taken(all[i], lines, rules, claimed)
    requires Progress(all, i, chosen, claimed, applied, savings, lines, rules)
    ensures Progress(all, i + 1, chosen + [all[i]], claimed + Variants(all[i]),
      applied + [AppliedOf(all[i], lines, rules)], savings + Saving(all[i], lines, rules), lines, rules)
  {
    SelectionGrows(all, i, chosen, claimed, lines, rules);
    AppliedSnoc(chosen, all[i], lines, rules);
    SavingsSnoc(chosen, all[i], lines, rules);
  }

  lemma ProgressDone(all: seq<BundleCandidate>, chosen: seq<BundleCandidate>, claimed: set<int>,
                     applied: seq<AppliedBundle>, savings: int,
                     lines: seq<Line>, rules: seq<ComboRule>)
    requires Cart(lines) && Progress(all, |all|, chosen, claimed, applied, savings, lines, rules)
    ensures chosen == Select(all, lines, rules, {})
  {
    assert all[|all|..] == [];
  }

  /** One turn of the loop over the bundles. */
  method BundleTurn(m: ComboPricing, tags: JsMap<seq<BundleUnit>>, lines: seq<Line>, ghost rules: seq<ComboRule>,
                    sorted: seq<BundleCandidate>, i: nat,
                    claimed: set<int>, applied: seq<AppliedBundle>, savings: int, ghost chosen: seq<BundleCandidate>,
                    ghost start: Entries)
    returns (claimed': set<int>, applied': seq<AppliedBundle>, savings': int, ghost chosen': seq<BundleCandidate>)
    requires Cart(lines) && Sound(m, tags, LineIds(lines)) && i < |sorted| && Recipe(sorted[i])
    requires Progress(sorted, i, chosen, claimed, applied, savings, lines, rules)
    requires Reached(EntriesOf(m, tags), start, lines, rules, chosen, claimed)
    modifies m.lineTotals, m.lineUnits, m.lineRules, tags
    ensures Sound(m, tags, LineIds(lines))
    ensures Progress(sorted, i + 1, chosen', claimed', applied', savings', lines, rules)
    ensures Reached(EntriesOf(m, tags), start, lines, rules, chosen', claimed')
  {
    var b := sorted[i];
    RecipePositive(b);
    BaselineIntact(EntriesOf(m, tags), start, lines, rules, chosen, claimed, b);
    claimed', applied', savings', chosen' := claimed, applied, savings, chosen;
    var taken, saved := Consider(m.lineTotals, lines, rules, b, claimed);
    if taken {
      ProgressTakes(sorted, i, chosen, claimed, applied, savings, lines, rules);
      var record;
      claimed', record := ApplyBundle(m, tags, lines, rules, claimed, b, chosen, start);
      applied', savings', chosen' := applied + [record], savings + saved, chosen + [b];
    } else {
      ProgressSkips(sorted, i, chosen, claimed, applied, savings, lines, rules);
    }
  }

  lemma ProgressStarts(all: seq<BundleCandidate>, lines: seq<Line>, rules: seq<ComboRule>)
    requires Cart(lines)
    ensures Progress(all, 0, [], {}, [], 0, lines, rules)
  {
    assert all[0..] == all;
  }

  method ApplyBundles(m: ComboPricing, tags: JsMap<seq<BundleUnit>>, lines: seq<Line>, ghost rules: seq<ComboRule>,
                      sorted: seq<BundleCandidate>)
    returns (applied: seq<AppliedBundle>, savings: int, ghost chosen: seq<BundleCandidate>)
    requires Cart(lines) && Recipes(sorted) && Sound(m, tags, LineIds(lines))
    requires Reached(EntriesOf(m, tags), EntriesOf(m, tags), lines, rules, [], {})
    modifies m.lineTotals, m.lineUnits, m.lineRules, tags
    ensures Sound(m, tags, LineIds(lines)) && chosen == Select(sorted, lines, rules, {})
    ensures AllApplicable(chosen, lines, rules)
    ensures EntriesOf(m, tags).at == PlaceAll(Base(lines, rules), chosen, lines, rules)
    ensures KeyedLines(old(EntriesOf(m, tags)), lines) && Follows(EntriesOf(m, tags), old(EntriesOf(m, tags)))
    ensures applied == AppliedAll(chosen, lines, rules) && savings == Savings(chosen, lines, rules)
  {
    var claimed: set<int> := {};
    applied, savings, chosen := [], 0, [];
    ghost var start := EntriesOf(m, tags);
    ProgressStarts(sorted, lines, rules);
    for i := 0 to |sorted|
      invariant Sound(m, tags, LineIds(lines))
      invariant Progress(sorted, i, chosen, claimed, applied, savings, lines, rules)
      invariant Reached(EntriesOf(m, tags), start, lines, rules, chosen, claimed)
    {
      assert sorted[i] in sorted;
      claimed, applied, savings, chosen := BundleTurn(m, tags, lines, rules, sorted, i, claimed, applied, savings,
        chosen, start);
    }
    ProgressDone(sorted, chosen, claimed, applied, savings, lines, rules);
  }

  lemma RecipePositive(b: BundleCandidate)
    requires Recipe(b)
    ensures PositiveNeeds(b)
  {
    assert forall i :: 0 <= i < |b.components| ==> b.components[i] in b.components;
  }

  /** A Map that spells out `f` line by line holds exactly `f` of the line of each id. */
  lemma MapIsByLine<V>(order: seq<int>, entries: map<int, V>, lines: seq<Line>, f: Line -> V)
    requires Distinct(LineIds(lines)) && SpellsOut(order, entries, lines, f) && Elements(order) == entries.Keys
    ensures entries == ByLine(lines, f)
  {
    forall id ensures id in entries <==> id in LineIds(lines) {
      assert id in Elements(order) <==> id in order;
    }
    forall id | id in LineIds(lines) ensures entries[id] == f(LineById(lines, id)) {
      var i :| 0 <= i < |LineIds(lines)| && LineIds(lines)[i] == id;
      LineByIdFinds(lines, i);
      assert lines[i] in lines;
    }
  }

  lemma StartUnits(p: ComboPricing, lines: seq<Line>, rules: seq<ComboRule>)
    requires Cart(lines) && Describes(p.lineUnits, lines, UnitsBy(rules))
    ensures Placement(p.lineUnits.entries, map[]) == Base(lines, rules)
  {
    MapIsByLine(p.lineUnits.order, p.lineUnits.entries, lines, UnitsBy(rules));
  }

  lemma OrdinaryTotal(l: Line, rules: seq<ComboRule>)
    requires l.quantity >= 0
    ensures TotalBy(rules)(l) == Sum(UnitsBy(rules)(l))
  {
    SumFill(l.quantity, Rate(l, rules));
  }

  /** Every listed id belongs to some line, whose entries are in step. */
  lemma StartFollows(p: ComboPricing, lines: seq<Line>, spec: LineSpec, e: Entries)
    requires Distinct(LineIds(lines)) && Prices(p, lines, spec)
    requires e == Entries(p.lineTotals.entries, p.lineRules.entries, Placement(p.lineUnits.entries, map[]))
    requires forall l :: l in lines ==> spec.total(l) == Sum(spec.units(l))
    ensures KeyedLines(e, lines) && Follows(e, e)
  {
    forall id | Keyed(e, id) ensures e.totals[id] == Sum(e.at.units[id]) {
      assert id in Elements(p.lineUnits.order);
      var i :| 0 <= i < |LineIds(lines)| && LineIds(lines)[i] == id;
      assert lines[i] in lines && LineIds(lines)[i] == lines[i].lineId;
    }
  }

  lemma StartReached(p: ComboPricing, lines: seq<Line>, rules: seq<ComboRule>, e: Entries)
    requires Cart(lines) && Prices(p, lines, OrdinarySpec(rules))
    requires e == Entries(p.lineTotals.entries, p.lineRules.entries, Placement(p.lineUnits.entries, map[]))
    ensures Reached(e, e, lines, rules, [], {})
  {
    StartUnits(p, lines, rules);
    forall l | l in lines ensures OrdinarySpec(rules).total(l) == Sum(OrdinarySpec(rules).units(l)) {
      OrdinaryTotal(l, rules);
    }
    StartFollows(p, lines, OrdinarySpec(rules), e);
  }

  /** Ordinary pricing, an empty identity Map, and the one real copy. */
  method Baseline(lines: seq<Line>, rules: seq<ComboRule>)
    returns (ordinary: ComboPricing, tags: JsMap<seq<BundleUnit>>, copy: JsMap<seq<int>>)
    requires Cart(lines)
    ensures Sound(ordinary, tags, LineIds(lines))
    ensures fresh(ordinary.lineTotals) && fresh(ordinary.lineUnits)
    ensures fresh(ordinary.lineRules) && fresh(ordinary.basis) && fresh(tags) && fresh(copy)
    ensures copy != ordinary.lineUnits && Describes(copy, lines, UnitsBy(rules))
    ensures Describes(ordinary.basis, lines, BasisBy(rules))
    ensures Reached(EntriesOf(ordinary, tags), EntriesOf(ordinary, tags), lines, rules, [], {})
    ensures NamesRules(EntriesOf(ordinary, tags), lines, RuleBy(rules))
    ensures ordinary.subtotal == OrdinarySubtotal(lines, rules)
    ensures ordinary.savings == IndividualSubtotal(lines) - OrdinarySubtotal(lines, rules)
  {
    ordinary := ApplyComboPricing(lines, rules);
    tags := new JsMap<seq<BundleUnit>>();
    copy := new JsMap<seq<int>>.Copy(ordinary.lineUnits);
    StartReached(ordinary, lines, rules, EntriesOf(ordinary, tags));
  }

  /** The part of the promise that holds with bundles on or off. */
  ghost predicate Consistent(r: Merchandise, lines: seq<Line>, rules: seq<ComboRule>)
    reads r.combo.lineTotals, r.combo.lineUnits, r.combo.lineRules, r.combo.basis, r.bundleUnits, r.ordinaryUnits
  {
    ConsistentWith(r, lines, rules, OrdinarySpec(rules))
  }

  /** ... whatever ordinary pricing says of a line. */
  ghost predicate ConsistentWith(r: Merchandise, lines: seq<Line>, rules: seq<ComboRule>, spec: LineSpec)
    reads r.combo.lineTotals, r.combo.lineUnits, r.combo.lineRules, r.combo.basis, r.bundleUnits, r.ordinaryUnits
  {
    && MapsAgree(r.combo, r.bundleUnits, r.ordinaryUnits, lines, spec)
    && r.ordinarySubtotal == OrdinarySubtotal(lines, rules)
    && r.bundleSavings == r.ordinarySubtotal - r.combo.subtotal
    && r.combo.savings == IndividualSubtotal(lines) - r.combo.subtotal
  }

  /** The Maps agree with each other line by line, and the copy and the basis with ordinary pricing. */
  ghost predicate MapsAgree(m: ComboPricing, tags: JsMap<seq<BundleUnit>>, copy: JsMap<seq<int>>, lines: seq<Line>,
                            spec: LineSpec)
    reads m.lineTotals, m.lineUnits, m.lineRules, m.basis, tags, copy
  {
    && Sound(m, tags, LineIds(lines))
    && Describes(copy, lines, spec.units) && Describes(m.basis, lines, spec.basis)
    && KeyedLines(EntriesOf(m, tags), lines) && LinesFollow(EntriesOf(m, tags), lines, spec.rule)
  }

  /** Every line names the rule that ordinary pricing named. */
  ghost predicate NamesRules(e: Entries, lines: seq<Line>, rule: Line -> Option<int>) {
    forall l :: l in lines ==> l.lineId in e.ruleIds && e.ruleIds[l.lineId] == rule(l)
  }

  /** Every total is the sum of the line's units; a line in a bundle names no volume rule, any
      other line the rule of ordinary pricing. */
  ghost predicate LinesFollow(e: Entries, lines: seq<Line>, rule: Line -> Option<int>)
    requires KeyedLines(e, lines)
  {
    forall l :: l in lines ==>
      && e.totals[l.lineId] == Sum(e.at.units[l.lineId])
      && e.ruleIds[l.lineId] == if l.lineId in e.at.identities then None else rule(l)
  }

  lemma FollowsLines(e: Entries, start: Entries, lines: seq<Line>, rule: Line -> Option<int>)
    requires KeyedLines(start, lines) && Follows(e, start) && NamesRules(start, lines, rule)
    ensures KeyedLines(e, lines) && LinesFollow(e, lines, rule)
  {
  }

  /** The answer with bundles on: the placement of the chosen bundles over ordinary pricing. */
  ghost predicate PricedWith(r: Merchandise, lines: seq<Line>, rules: seq<ComboRule>, bundles: seq<BundleCandidate>)
    requires Cart(lines) && Recipes(bundles)
    reads r.combo.lineTotals, r.combo.lineUnits, r.combo.lineRules, r.bundleUnits
  {
    ChosenApplicable(bundles, lines, rules);
    && EntriesOf(r.combo, r.bundleUnits).at == Placed(bundles, lines, rules)
    && r.combo.subtotal == Subtotal(bundles, lines, rules)
    && r.applied == AppliedAll(Chosen(bundles, lines, rules), lines, rules)
  }

  /** The answer with bundles off: ordinary pricing. */
  ghost predicate PricedWithout(r: Merchandise, lines: seq<Line>, rules: seq<ComboRule>)
    reads r.combo.lineTotals, r.combo.lineUnits, r.combo.lineRules, r.bundleUnits
  {
    && EntriesOf(r.combo, r.bundleUnits).at == Base(lines, rules)
    && r.combo.subtotal == OrdinarySubtotal(lines, rules) && r.applied == []
  }

  /** The ordinary result, before any bundle is looked at. */
  method Ordinary(lines: seq<Line>, rules: seq<ComboRule>) returns (r: Merchandise)
    requires Cart(lines)
    ensures fresh(r.combo.lineTotals) && fresh(r.combo.lineUnits) && fresh(r.combo.lineRules) && fresh(r.combo.basis)
    ensures fresh(r.bundleUnits) && fresh(r.ordinaryUnits) && Aliased(r)
    ensures Consistent(r, lines, rules) && PricedWithout(r, lines, rules)
    ensures var e := EntriesOf(r.combo, r.bundleUnits); Reached(e, e, lines, rules, [], {})
    ensures NamesRules(EntriesOf(r.combo, r.bundleUnits), lines, RuleBy(rules))
  {
    var ordinary, tags, copy := Baseline(lines, rules);
    FollowsLines(EntriesOf(ordinary, tags), EntriesOf(ordinary, tags), lines, RuleBy(rules));
    r := Merchandise(ordinary, tags, copy, [], ordinary.subtotal, 0);
  }

  /** The copy of the ordinary unit prices and the basis are none of the Maps that change. */
  ghost predicate Aliased(r: Merchandise) {
    r.ordinaryUnits != r.combo.lineUnits && Apart(r.combo, r.bundleUnits)
    && var copy: object, a: object, b: object, c: object := r.ordinaryUnits, r.combo.lineTotals, r.combo.lineRules,
      r.bundleUnits;
       copy != a && copy != b && copy != c
  }

  /** The loop over the bundles, then the subtotal added up again from the Maps. */
  method WithBundles(m: ComboPricing, tags: JsMap<seq<BundleUnit>>, lines: seq<Line>, rules: seq<ComboRule>,
                     bundles: seq<BundleCandidate>, ghost rule: Line -> Option<int>)
    returns (applied: seq<AppliedBundle>, savings: int, total: int)
    requires Cart(lines) && Recipes(bundles) && Sound(m, tags, LineIds(lines))
    requires Reached(EntriesOf(m, tags), EntriesOf(m, tags), lines, rules, [], {})
    requires NamesRules(EntriesOf(m, tags), lines, rule)
    modifies m.lineTotals, m.lineUnits, m.lineRules, tags
    ensures Sound(m, tags, LineIds(lines)) && KeyedLines(EntriesOf(m, tags), lines)
    ensures LinesFollow(EntriesOf(m, tags), lines, rule)
    ensures PricedWith(Merchandise(m.(subtotal := total), tags, m.lineUnits, applied, 0, 0), lines, rules, bundles)
    ensures total == OrdinarySubtotal(lines, rules) - savings
  {
    ChosenApplicable(bundles, lines, rules);
    var sorted := SortBundles(bundles);
    SameElements(sorted, bundles);
    ghost var start := EntriesOf(m, tags);
    ghost var chosen;
    applied, savings, chosen := ApplyBundles(m, tags, lines, rules, sorted);
    FollowsLines(EntriesOf(m, tags), start, lines, rule);
    LedgerBalances(bundles, lines, rules);
    total := TotalCents(m.lineUnits, EntriesOf(m, tags).at);
  }

  /** ... during which the copy and the basis stay what they were, whatever that is. */
  method WithBundlesKeeping(r: Merchandise, lines: seq<Line>, rules: seq<ComboRule>, bundles: seq<BundleCandidate>,
                            ghost spec: LineSpec)
    returns (applied: seq<AppliedBundle>, savings: int, total: int)
    requires Cart(lines) && Recipes(bundles) && Sound(r.combo, r.bundleUnits, LineIds(lines)) && Aliased(r)
    requires var e := EntriesOf(r.combo, r.bundleUnits); Reached(e, e, lines, rules, [], {})
    requires NamesRules(EntriesOf(r.combo, r.bundleUnits), lines, spec.rule)
    requires Describes(r.ordinaryUnits, lines, spec.units) && Describes(r.combo.basis, lines, spec.basis)
    modifies r.combo.lineTotals, r.combo.lineUnits, r.combo.lineRules, r.bundleUnits
    ensures MapsAgree(r.combo, r.bundleUnits, r.ordinaryUnits, lines, spec)
    ensures PricedWith(Merchandise(r.combo.(subtotal := total), r.bundleUnits, r.combo.lineUnits, applied, 0, 0),
      lines, rules, bundles)
    ensures total == OrdinarySubtotal(lines, rules) - savings
  {
    applied, savings, total := WithBundles(r.combo, r.bundleUnits, lines, rules, bundles, spec.rule);
  }

  /** The result with bundles, on the very Maps of the ordinary result. */
  method AddBundles(r0: Merchandise, lines: seq<Line>, rules: seq<ComboRule>, bundles: seq<BundleCandidate>,
                    ghost spec: LineSpec)
    returns (r: Merchandise)
    requires Cart(lines) && Recipes(bundles) && Aliased(r0) && ConsistentWith(r0, lines, rules, spec)
    requires var e := EntriesOf(r0.combo, r0.bundleUnits); Reached(e, e, lines, rules, [], {})
    requires NamesRules(EntriesOf(r0.combo, r0.bundleUnits), lines, spec.rule)
    modifies r0.combo.lineTotals, r0.combo.lineUnits, r0.combo.lineRules, r0.bundleUnits
    ensures ConsistentWith(r, lines, rules, spec) && PricedWith(r, lines, rules, bundles)
    ensures r.combo.lineUnits == r0.combo.lineUnits
    ensures r.combo.lineTotals == r0.combo.lineTotals && r.bundleUnits == r0.bundleUnits
  {
    var applied, savings, total := WithBundlesKeeping(r0, lines, rules, bundles, spec);
    r := Merchandise(r0.combo.(subtotal := total, savings := IndividualSubtotal(lines) - total), r0.bundleUnits,
                     r0.ordinaryUnits, applied, r0.ordinarySubtotal, savings);
  }

  /** Cart, checkout preview and checkout pricing. The Maps handed back are the ordinary
      ones overwritten in place; the copy of the ordinary unit prices is not. */
  method PriceMerchandise(lines: seq<Line>, rules: seq<ComboRule>, bundles: seq<BundleCandidate>, allowBundles: bool)
    returns (r: Merchandise)
    requires Cart(lines) && Recipes(bundles)
    ensures Consistent(r, lines, rules)
    ensures if allowBundles then PricedWith(r, lines, rules, bundles) else PricedWithout(r, lines, rules)
  {
    r := Ordinary(lines, rules);
    if allowBundles {
      r := AddBundles(r, lines, rules, bundles, OrdinarySpec(rules));
    }
  }
}
