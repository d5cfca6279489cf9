/** The ledger behind a priced cart (backend/src/lib/bundle-pricing.ts:40-90): what every
    line, every bundle and every bundle instance adds up to. */
module Ledger {
  import opened Common
  import opened BundleMath
  import opened VolumePricing
  import opened BundlePricing
  import opened Placements

  /** Something counted per line from its unit prices and unit identities. */
  type Measure = (seq<int>, seq<BundleUnit>) -> int

  function UnitsAt(at: Placement, id: int): seq<int> { if id in at.units then at.units[id] else [] }

  function TagsAt(at: Placement, id: int): seq<BundleUnit> { if id in at.identities then at.identities[id] else [] }

  function MeasureAt(at: Placement, f: Measure): int -> int { id => f(UnitsAt(at, id), TagsAt(at, id)) }

  function LedgerSum(order: seq<int>, at: Placement, f: Measure): int { Sum(Map(MeasureAt(at, f), order)) }

  lemma LedgerUpdate(order: seq<int>, at: Placement, id: int, units: seq<int>, tags: seq<BundleUnit>, f: Measure)
    requires Distinct(order) && id in order
    ensures LedgerSum(order, PlaceLine(at, id, units, tags), f)
      == LedgerSum(order, at, f) - f(UnitsAt(at, id), TagsAt(at, id)) + f(units, tags)
  {
    var i :| 0 <= i < |order| && order[i] == id;
    var placed := PlaceLine(at, id, units, tags);
    var before, after := Map(MeasureAt(at, f), order), Map(MeasureAt(placed, f), order);
    assert UnitsAt(placed, id) == units && TagsAt(placed, id) == tags;
    assert MeasureAt(placed, f)(id) == f(UnitsAt(placed, id), TagsAt(placed, id));
    forall j | 0 <= j < |order| && j != i ensures after[j] == before[j] {
      assert order[j] != id;
      assert UnitsAt(placed, order[j]) == UnitsAt(at, order[j]) && TagsAt(placed, order[j]) == TagsAt(at, order[j]);
      assert MeasureAt(placed, f)(order[j]) == MeasureAt(at, f)(order[j]);
    }
    assert after == before[i := f(units, tags)];
    SumUpdate(before, i, f(units, tags));
  }

  ghost predicate DistinctLines(parts: seq<Part>) {
    forall i, j :: 0 <= i < j < |parts| ==> parts[i].line.lineId != parts[j].line.lineId
  }

  ghost predicate Touches(parts: seq<Part>, id: int) {
    exists i :: 0 <= i < |parts| && parts[i].line.lineId == id
  }

  function OldMeasure(at: Placement, parts: seq<Part>, f: Measure): int {
    if parts == [] then 0
    else f(UnitsAt(at, parts[0].line.lineId), TagsAt(at, parts[0].line.lineId)) + OldMeasure(at, parts[1..], f)
  }

  function NewMeasure(bundleID: int, count: nat, parts: seq<Part>, shares: seq<int>, f: Measure): int
    requires Covers(parts, shares)
    decreases parts
  {
    if parts == [] then 0
    else
      CoversNext(parts, shares);
      f(PartUnits(parts[0], shares[..parts[0].quantity], count), PartTags(bundleID, parts[0], count))
      + NewMeasure(bundleID, count, parts[1..], shares[parts[0].quantity..], f)
  }

  lemma {:induction false} OldMeasureKept(at: Placement, parts: seq<Part>, f: Measure, id: int, units: seq<int>,
                                          tags: seq<BundleUnit>)
    requires !Touches(parts, id)
    ensures OldMeasure(PlaceLine(at, id, units, tags), parts, f) == OldMeasure(at, parts, f)
  {
    if parts != [] {
      assert !Touches(parts[1..], id) by {
        assert forall i :: 0 <= i < |parts[1..]| ==> parts[1..][i] == parts[i + 1];
      }
      OldMeasureKept(at, parts[1..], f, id, units, tags);
    }
  }

  lemma {:induction false} PlacePartsLedger(order: seq<int>, at: Placement, bundleID: int, count: nat,
                                            parts: seq<Part>, shares: seq<int>, f: Measure)
    requires Covers(parts, shares) && Distinct(order) && DistinctLines(parts)
    requires forall i :: 0 <= i < |parts| ==> parts[i].line.lineId in order
    ensures LedgerSum(order, PlaceParts(at, bundleID, count, parts, shares), f)
      == LedgerSum(order, at, f) - OldMeasure(at, parts, f) + NewMeasure(bundleID, count, parts, shares, f)
    decreases parts
  {
    if parts != [] {
      CoversNext(parts, shares);
      var p := parts[0];
      var units, tags := PartUnits(p, shares[..p.quantity], count), PartTags(bundleID, p, count);
      LedgerUpdate(order, at, p.line.lineId, units, tags, f);
      PlacePartsLedger(order, PlaceLine(at, p.line.lineId, units, tags), bundleID, count, parts[1..],
        shares[p.quantity..], f);
      OldMeasureKept(at, parts[1..], f, p.line.lineId, units, tags);
    }
  }

  lemma {:induction false} PlacePartsOutside(at: Placement, bundleID: int, count: nat, parts: seq<Part>,
                                             shares: seq<int>, id: int)
    requires Covers(parts, shares) && !Touches(parts, id)
    ensures var placed := PlaceParts(at, bundleID, count, parts, shares);
      && UnitsAt(placed, id) == UnitsAt(at, id) && (id in placed.units <==> id in at.units)
      && TagsAt(placed, id) == TagsAt(at, id) && (id in placed.identities <==> id in at.identities)
    decreases parts
  {
    if parts != [] {
      CoversNext(parts, shares);
      assert !Touches(parts[1..], id) by {
        assert forall i :: 0 <= i < |parts[1..]| ==> parts[1..][i] == parts[i + 1];
      }
      var p := parts[0];
      var units, tags := PartUnits(p, shares[..p.quantity], count), PartTags(bundleID, p, count);
      PlacePartsOutside(PlaceLine(at, p.line.lineId, units, tags), bundleID, count, parts[1..], shares[p.quantity..],
        id);
    }
  }

  /** The slice of the split that component `i` uses. */
  function Slice(parts: seq<Part>, shares: seq<int>, i: nat): seq<int>
    requires Covers(parts, shares) && i < |parts|
    decreases parts
  {
    CoversNext(parts, shares);
    if i == 0 then shares[..parts[0].quantity] else Slice(parts[1..], shares[parts[0].quantity..], i - 1)
  }

  /** Where component `i`'s slice of the split begins. */
  function OffsetOf(parts: seq<Part>, i: nat): int
    requires i <= |parts|
  {
    if i == 0 then 0 else parts[0].quantity + OffsetOf(parts[1..], i - 1)
  }

  lemma {:induction false} OffsetNext(parts: seq<Part>, i: nat)
    requires i < |parts|
    ensures OffsetOf(parts, i + 1) == OffsetOf(parts, i) + parts[i].quantity
  {
    if i > 0 { OffsetNext(parts[1..], i - 1); }
  }

  lemma {:induction false} PlacePartsAt(at: Placement, bundleID: int, count: nat, parts: seq<Part>, shares: seq<int>,
                                        i: nat)
    requires Covers(parts, shares) && DistinctLines(parts) && i < |parts|
    ensures var placed := PlaceParts(at, bundleID, count, parts, shares);
      && parts[i].line.lineId in placed.units && parts[i].line.lineId in placed.identities
      && placed.units[parts[i].line.lineId] == PartUnits(parts[i], Slice(parts, shares, i), count)
      && placed.identities[parts[i].line.lineId] == PartTags(bundleID, parts[i], count)
    decreases parts
  {
    CoversNext(parts, shares);
    var p := parts[0];
    var units, tags := PartUnits(p, shares[..p.quantity], count), PartTags(bundleID, p, count);
    var placed := PlaceLine(at, p.line.lineId, units, tags);
    if i == 0 {
      assert forall k :: 0 <= k < |parts[1..]| ==> parts[1..][k] == parts[k + 1];
      PlacePartsOutside(placed, bundleID, count, parts[1..], shares[p.quantity..], p.line.lineId);
    } else {
      PlacePartsAt(placed, bundleID, count, parts[1..], shares[p.quantity..], i - 1);
    }
  }

  lemma {:induction false} SliceFits(parts: seq<Part>, shares: seq<int>, i: nat)
    requires Covers(parts, shares) && i < |parts|
    ensures |Slice(parts, shares, i)| == parts[i].quantity
    ensures forall x :: x in Slice(parts, shares, i) ==>
      exists k :: 0 <= k < |shares| && shares[k] == x && UnitWeights(parts)[k] == parts[i].line.individualCents
    decreases parts
  {
    CoversNext(parts, shares);
    var q := parts[0].quantity;
    if i == 0 {
      forall x | x in shares[..q]
        ensures exists k ::
          0 <= k < |shares| && shares[k] == x && UnitWeights(parts)[k] == parts[0].line.individualCents
      {
        var k :| 0 <= k < q && shares[..q][k] == x;
        assert shares[k] == x;
      }
    } else {
      SliceFits(parts[1..], shares[q..], i - 1);
      forall x | x in Slice(parts, shares, i)
        ensures exists k ::
          0 <= k < |shares| && shares[k] == x && UnitWeights(parts)[k] == parts[i].line.individualCents
      {
        var k :| 0 <= k < |shares[q..]| && shares[q..][k] == x
          && UnitWeights(parts[1..])[k] == parts[1..][i - 1].line.individualCents;
        assert shares[q + k] == x && UnitWeights(parts)[q + k] == UnitWeights(parts[1..])[k];
      }
    }
  }

  // --- What a part's units add up to --------------------------------------------------

  lemma {:induction false} RepeatSum(s: seq<int>, count: nat)
    ensures Sum(Repeat(s, count)) == count * Sum(s)
    ensures |Repeat(s, count)| == count * |s|
    ensures forall x :: x in Repeat(s, count) ==> x in s
  {
    if count > 0 {
      RepeatSum(s, count - 1);
      SumAppend(s, Repeat(s, count - 1));
      assert count * Sum(s) == (count - 1) * Sum(s) + Sum(s);
      assert count * |s| == (count - 1) * |s| + |s|;
    }
  }

  lemma {:induction false} TagsLength(bundleID: int, quantity: nat, first: nat, count: nat)
    ensures |InstanceTags(bundleID, quantity, first, count)| == count * quantity
    decreases count
  {
    if count > 0 {
      TagsLength(bundleID, quantity, first + 1, count - 1);
      assert count * quantity == (count - 1) * quantity + quantity;
    }
  }

  function CentsMeasure(): Measure { (units: seq<int>, tags: seq<BundleUnit>) => Sum(units) }

  /** The cents of the units that carry a given identity. */
  function TagSum(units: seq<int>, tags: seq<BundleUnit>, tag: BundleUnit): int {
    if units == [] || tags == [] then 0
    else (if tags[0] == tag then units[0] else 0) + TagSum(units[1..], tags[1..], tag)
  }

  function TagMeasure(tag: BundleUnit): Measure { (units: seq<int>, tags: seq<BundleUnit>) => TagSum(units, tags, tag) }

  lemma {:induction false} TagSumAppend(u1: seq<int>, t1: seq<BundleUnit>, u2: seq<int>, t2: seq<BundleUnit>,
                                        tag: BundleUnit)
    requires |u1| == |t1|
    ensures TagSum(u1 + u2, t1 + t2, tag) == TagSum(u1, t1, tag) + TagSum(u2, t2, tag)
  {
    if u1 == [] {
      assert u1 + u2 == u2 && t1 + t2 == t2;
    } else {
      assert (u1 + u2)[1..] == u1[1..] + u2 && (t1 + t2)[1..] == t1[1..] + t2;
      TagSumAppend(u1[1..], t1[1..], u2, t2, tag);
    }
  }

  lemma {:induction false} TagSumUniform(u: seq<int>, one: BundleUnit, tag: BundleUnit)
    ensures TagSum(u, Fill(|u|, one), tag) == if one == tag then Sum(u) else 0
  {
    if u != [] {
      assert Fill(|u|, one)[1..] == Fill(|u| - 1, one);
      TagSumUniform(u[1..], one, tag);
    }
  }

  lemma {:induction false} TagSumInstances(s: seq<int>, bundleID: int, first: nat, count: nat, id: int, k: int)
    ensures TagSum(Repeat(s, count), InstanceTags(bundleID, |s|, first, count), InBundle(id, k))
      == if id == bundleID && first <= k < first + count then Sum(s) else 0
    decreases count
  {
    if count > 0 {
      var head, tail := Fill(|s|, InBundle(bundleID, first)), InstanceTags(bundleID, |s|, first + 1, count - 1);
      TagSumAppend(s, head, Repeat(s, count - 1), tail, InBundle(id, k));
      TagSumUniform(s, InBundle(bundleID, first), InBundle(id, k));
      TagSumInstances(s, bundleID, first + 1, count - 1, id, k);
    }
  }

  /** The units of one component: lengths, value, and the value of each instance. */
  lemma PartAmounts(bundleID: int, p: Part, s: seq<int>, count: nat, id: int, k: int)
    requires |s| == p.quantity && count * p.quantity <= p.line.quantity
    ensures |PartUnits(p, s, count)| == p.line.quantity == |PartTags(bundleID, p, count)|
    ensures Sum(PartUnits(p, s, count))
      == count * Sum(s) + (p.line.quantity - count * p.quantity) * p.line.individualCents
    ensures TagSum(PartUnits(p, s, count), PartTags(bundleID, p, count), InBundle(id, k))
      == if id == bundleID && 0 <= k < count then Sum(s) else 0
  {
    var extra := SurplusUnits(p, count);
    TimesIs(count, p.quantity);
    RepeatSum(s, count);
    TagsLength(bundleID, p.quantity, 0, count);
    var rest := Fill(extra, p.line.individualCents);
    SumFill(extra, p.line.individualCents);
    SumAppend(Repeat(s, count), rest);
    TagSumAppend(Repeat(s, count), InstanceTags(bundleID, p.quantity, 0, count), rest, Fill(extra, Surplus(bundleID)),
      InBundle(id, k));
    TagSumInstances(s, bundleID, 0, count, id, k);
    TagSumUniform(rest, Surplus(bundleID), InBundle(id, k));
  }

  ghost predicate CountFits(parts: seq<Part>, count: nat) {
    forall i :: 0 <= i < |parts| ==> count * parts[i].quantity <= parts[i].line.quantity
  }

  function PartCents(p: Part, s: seq<int>, count: nat): int { Sum(PartUnits(p, s, count)) }

  /** The value of the units left over once `count` instances are formed. */
  function SurplusSum(parts: seq<Part>, count: nat): int {
    if parts == [] then 0
    else Sum(Fill(SurplusUnits(parts[0], count), parts[0].line.individualCents)) + SurplusSum(parts[1..], count)
  }

  lemma {:induction false} SurplusSumIs(parts: seq<Part>, count: nat)
    requires CountFits(parts, count)
    ensures SurplusSum(parts, count) == SurplusCents(ItemsOf(parts), count)
  {
    if parts != [] {
      assert forall i :: 0 <= i < |parts[1..]| ==> parts[1..][i] == parts[i + 1];
      SurplusSumIs(parts[1..], count);
      TimesIs(count, parts[0].quantity);
      SumFill(SurplusUnits(parts[0], count), parts[0].line.individualCents);
      assert ItemsOf(parts)[1..] == ItemsOf(parts[1..]);
    }
  }

  lemma {:induction false} TimesAdd(n: nat, a: int, b: int)
    ensures Times(n, a + b) == Times(n, a) + Times(n, b)
  {
    if n > 0 { TimesAdd(n - 1, a, b); }
  }

  lemma RepeatCents(p: Part, s: seq<int>, count: nat)
    ensures PartCents(p, s, count) == Times(count, Sum(s)) + Sum(Fill(SurplusUnits(p, count), p.line.individualCents))
  {
    RepeatSum(s, count);
    TimesIs(count, Sum(s));
    SumAppend(Repeat(s, count), Fill(SurplusUnits(p, count), p.line.individualCents));
  }

  lemma {:induction false} NewCentsSum(bundleID: int, count: nat, parts: seq<Part>, shares: seq<int>)
    requires Covers(parts, shares)
    ensures NewMeasure(bundleID, count, parts, shares, CentsMeasure())
      == Times(count, Sum(shares)) + SurplusSum(parts, count)
    decreases parts
  {
    if parts == [] {
      TimesIs(count, 0);
    } else {
      CoversNext(parts, shares);
      var p, s, rest := parts[0], shares[..parts[0].quantity], shares[parts[0].quantity..];
      NewCentsSum(bundleID, count, parts[1..], rest);
      RepeatCents(p, s, count);
      assert shares == s + rest;
      SumAppend(s, rest);
      TimesAdd(count, Sum(s), Sum(rest));
    }
  }

  /** All the units of a bundle cost its plan. */
  lemma NewCents(bundleID: int, count: nat, parts: seq<Part>, shares: seq<int>)
    requires Covers(parts, shares) && CountFits(parts, count)
    ensures NewMeasure(bundleID, count, parts, shares, CentsMeasure())
      == count * Sum(shares) + SurplusCents(ItemsOf(parts), count)
  {
    NewCentsSum(bundleID, count, parts, shares);
    SurplusSumIs(parts, count);
    TimesIs(count, Sum(shares));
  }

  lemma SplitSum(shares: seq<int>, q: nat)
    requires q <= |shares|
    ensures Sum(shares) == Sum(shares[..q]) + Sum(shares[q..])
  {
    assert shares == shares[..q] + shares[q..];
    SumAppend(shares[..q], shares[q..]);
  }

  /** Each instance of a bundle costs exactly the split total, and no other tag appears. */
  lemma {:induction false} NewTagged(bundleID: int, count: nat, parts: seq<Part>, shares: seq<int>, id: int, k: int)
    requires Covers(parts, shares) && CountFits(parts, count)
    ensures NewMeasure(bundleID, count, parts, shares, TagMeasure(InBundle(id, k)))
      == if id == bundleID && 0 <= k < count then Sum(shares) else 0
    decreases parts
  {
    if parts != [] {
      CoversNext(parts, shares);
      var p, s, rest := parts[0], shares[..parts[0].quantity], shares[parts[0].quantity..];
      assert forall i :: 0 <= i < |parts[1..]| ==> parts[1..][i] == parts[i + 1];
      NewTagged(bundleID, count, parts[1..], rest, id, k);
      PartAmounts(bundleID, p, s, count, id, k);
      SplitSum(shares, p.quantity);
    }
  }
}
