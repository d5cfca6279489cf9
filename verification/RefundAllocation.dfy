/** Splitting one refund over order lines (backend/src/lib/refund-allocation.ts).
    Ties go to the smaller line id, so the answer must not depend on query order; lines that
    repeat an id keep their order, as the stable sort leaves it. */
module RefundAllocation {
  import opened Common
  import opened LargestRemainder

  datatype RefundLine = RefundLine(id: int, calculatedCents: int, quantity: int)
  datatype RefundShare = RefundShare(id: int, cents: int)

  predicate DistinctIds(lines: seq<RefundLine>) {
    forall i, j :: 0 <= i < j < |lines| ==> lines[i].id != lines[j].id
  }

  predicate Refusable(amount: int, lines: seq<RefundLine>) {
    || amount < 0
    || lines == []
    || exists i :: 0 <= i < |lines| && (lines[i].calculatedCents < 0 || lines[i].quantity < 1)
  }

  /** Lines that are all worth nothing are weighted by quantity instead. */
  predicate UseQuantity(lines: seq<RefundLine>) {
    forall i :: 0 <= i < |lines| ==> lines[i].calculatedCents == 0
  }

  function Weight(byQuantity: bool): RefundLine -> int {
    (line: RefundLine) => if byQuantity then line.quantity else line.calculatedCents
  }

  function Weights(lines: seq<RefundLine>): seq<int> { Map(Weight(UseQuantity(lines)), lines) }

  function Products(amount: int, lines: seq<RefundLine>): seq<int> {
    seq(|lines|, i requires 0 <= i < |lines| => amount * Weights(lines)[i])
  }

  function Ids(lines: seq<RefundLine>): seq<int> { Map((line: RefundLine) => line.id, lines) }

  // --- The tie-breaking order --------------------------------------------------------

  function Smaller(x: int): int -> int { (y: int) => if y < x then 1 else 0 }

  function Same(x: int): int -> int { (y: int) => if y == x then 1 else 0 }

  /** Lines of a smaller id, and earlier lines of the same id. */
  function Place(ids: seq<int>, i: nat): int
    requires i < |ids|
  {
    Sum(Map(Smaller(ids[i]), ids)) + Sum(Map(Same(ids[i]), ids[..i]))
  }

  /** The places of the first `n` lines among all. */
  function PlacesUpTo(ids: seq<int>, n: nat): (r: seq<int>)
    requires n <= |ids|
    ensures |r| == n
  {
    if n == 0 then [] else PlacesUpTo(ids, n - 1) + [Place(ids, n - 1)]
  }

  function Places(ids: seq<int>): (r: seq<int>)
    ensures |r| == |ids|
  {
    PlacesUpTo(ids, |ids|)
  }

  lemma {:induction false} PlaceAt(ids: seq<int>, n: nat, i: nat)
    requires i < n <= |ids|
    ensures PlacesUpTo(ids, n)[i] == Place(ids, i)
  {
    if i < n - 1 { PlaceAt(ids, n - 1, i); }
  }

  lemma {:induction false} CountNonNegative(ids: seq<int>, x: int)
    ensures Sum(Map(Same(x), ids)) >= 0
  {
    assert NonNegative(Map(Same(x), ids));
    SumNonNegative(Map(Same(x), ids));
  }

  lemma {:induction false} CountsAddUp(ids: seq<int>, x: int, y: int)
    requires x < y
    ensures Sum(Map(Smaller(x), ids)) + Sum(Map(Same(x), ids)) <= Sum(Map(Smaller(y), ids))
  {
    if ids != [] {
      CountsAddUp(ids[1..], x, y);
      assert Map(Smaller(x), ids)[1..] == Map(Smaller(x), ids[1..]);
      assert Map(Same(x), ids)[1..] == Map(Same(x), ids[1..]);
      assert Map(Smaller(y), ids)[1..] == Map(Smaller(y), ids[1..]);
    }
  }

  lemma CountEarlier(ids: seq<int>, i: nat)
    requires i < |ids|
    ensures Sum(Map(Same(ids[i]), ids[..i])) + 1 <= Sum(Map(Same(ids[i]), ids))
  {
    var f := Same(ids[i]);
    assert Map(f, ids) == Map(f, ids[..i]) + ([f(ids[i])] + Map(f, ids[i + 1..]));
    SumAppend(Map(f, ids[..i]), [f(ids[i])] + Map(f, ids[i + 1..]));
    assert ([f(ids[i])] + Map(f, ids[i + 1..]))[1..] == Map(f, ids[i + 1..]);
    CountNonNegative(ids[i + 1..], ids[i]);
  }

  lemma PlaceBefore(ids: seq<int>, i: nat, j: nat)
    requires i < |ids| && j < |ids| && (ids[i] < ids[j] || (ids[i] == ids[j] && i < j))
    ensures Place(ids, i) < Place(ids, j)
  {
    if ids[i] < ids[j] {
      CountsAddUp(ids, ids[i], ids[j]);
      CountEarlier(ids, i);
      CountNonNegative(ids[..j], ids[j]);
    } else {
      CountEarlier(ids[..j], i);
      assert ids[..j][..i] == ids[..i];
    }
  }

  /** Places order lines by id, and lines of one id by position. */
  lemma PlacesOrder(ids: seq<int>)
    ensures forall i, j :: 0 <= i < j < |ids| ==> (Places(ids)[i] < Places(ids)[j] <==> ids[i] <= ids[j])
    ensures Distinct(Places(ids))
  {
    forall i, j | 0 <= i < j < |ids|
      ensures Places(ids)[i] < Places(ids)[j] <==> ids[i] <= ids[j]
      ensures Places(ids)[i] != Places(ids)[j]
    {
      PlaceAt(ids, |ids|, i);
      PlaceAt(ids, |ids|, j);
      if ids[i] <= ids[j] { PlaceBefore(ids, i, j); } else { PlaceBefore(ids, j, i); }
    }
  }

  /** Without repeated ids the place of a line does not depend on where it stands. */
  lemma PlaceOfDistinct(ids: seq<int>, i: nat)
    requires Distinct(ids) && i < |ids|
    ensures Place(ids, i) == Sum(Map(Smaller(ids[i]), ids))
  {
    var same := Map(Same(ids[i]), ids[..i]);
    assert NonNegative(same);
    SumZero(same);
  }

  lemma ProductsAreQuotas(amount: int, lines: seq<RefundLine>)
    requires !Refusable(amount, lines)
    ensures Sum(Weights(lines)) > 0
    ensures Quotas(amount, Products(amount, lines), Sum(Weights(lines)), Places(Ids(lines)))
  {
    var w := Weights(lines);
    PlacesOrder(Ids(lines));
    assert NonNegative(w);
    SumNonNegative(w);
    SumZero(w);
    if UseQuantity(lines) {
      assert w[0] == lines[0].quantity;
    } else {
      var i :| 0 <= i < |lines| && lines[i].calculatedCents != 0;
      assert w[i] != 0;
    }
    SumScale(Products(amount, lines), w, amount);
    forall i | 0 <= i < |lines| ensures 0 <= Products(amount, lines)[i] { MulOrder(0, amount, w[i]); }
  }

  function AllocateRefund(amount: int, lines: seq<RefundLine>): Result<seq<RefundShare>> {
    if Refusable(amount, lines) then Err(InvalidMoney)
    else
      ProductsAreQuotas(amount, lines);
      var shares := Shares(amount, Products(amount, lines), Sum(Weights(lines)), Places(Ids(lines)));
      Ok(seq(|lines|, i requires 0 <= i < |lines| => RefundShare(lines[i].id, shares[i])))
  }

  // --- The records, mutated through two lists ------------------------------------------

  /** One mutable `{ id, cents, remainder }` record, shared by `parts` and `ranked`. */
  class PartRecord {
    const id: int
    const remainder: int
    var cents: int
    ghost const place: int

    constructor (id: int, cents: int, remainder: int, ghost place: int)
      ensures this.id == id && this.cents == cents && this.remainder == remainder && this.place == place
    {
      this.id, this.cents, this.remainder, this.place := id, cents, remainder, place;
    }
  }

  ghost function View(p: PartRecord): Part { Part(p.place, p.remainder) }

  ghost function Views(records: seq<PartRecord>): seq<Part> {
    seq(|records|, i requires 0 <= i < |records| => View(records[i]))
  }

  /** The comparator does not put `q` before `p`. */
  predicate Ahead(p: PartRecord, q: PartRecord) {
    p.remainder > q.remainder || (p.remainder == q.remainder && p.id <= q.id)
  }

  /** Where `p` stood before all of `s`, its place agrees with its id. */
  ghost predicate Leads(p: PartRecord, s: seq<PartRecord>) {
    forall q :: q in s ==> (p.place < q.place <==> p.id <= q.id)
  }

  ghost predicate PlacedById(s: seq<PartRecord>) {
    forall i, j :: 0 <= i < j < |s| ==> (s[i].place < s[j].place <==> s[i].id <= s[j].id)
  }

  lemma ViewsCons(p: PartRecord, s: seq<PartRecord>)
    ensures Views([p] + s) == [View(p)] + Views(s)
  {
  }

  lemma ViewsTail(s: seq<PartRecord>)
    requires s != []
    ensures s == [s[0]] + s[1..] && Views(s) == [View(s[0])] + Views(s[1..]) && Views(s)[1..] == Views(s[1..])
  {
    assert s == [s[0]] + s[1..];
    ViewsCons(s[0], s[1..]);
  }

  function InsertRecord(p: PartRecord, s: seq<PartRecord>): (r: seq<PartRecord>)
    requires Leads(p, s)
    ensures Views(r) == Insert(View(p), Views(s))
    ensures multiset(r) == multiset{p} + multiset(s)
  {
    if s == [] || Ahead(p, s[0]) then
      ViewsCons(p, s);
      [p] + s
    else
      ViewsTail(s);
      var tail := InsertRecord(p, s[1..]);
      ViewsCons(s[0], tail);
      [s[0]] + tail
  }

  /** `[...parts].sort(...)`: a new list of the same records. */
  function RankRecords(s: seq<PartRecord>): (r: seq<PartRecord>)
    requires PlacedById(s)
    ensures Views(r) == Ranked(Views(s))
    ensures multiset(r) == multiset(s)
  {
    if s == [] then []
    else
      ViewsTail(s);
      var rest := RankRecords(s[1..]);
      HeadLeads(s, rest);
      InsertRecord(s[0], rest)
  }

  lemma HeadLeads(s: seq<PartRecord>, rest: seq<PartRecord>)
    requires PlacedById(s) && s != [] && Permuted(rest, s[1..])
    ensures Leads(s[0], rest)
  {
    SameElements(rest, s[1..]);
    forall q | q in rest ensures s[0].place < q.place <==> s[0].id <= q.id {
      assert q in s[1..];
      var j :| 0 <= j < |s[1..]| && s[1..][j] == q;
      assert s[j + 1] == q;
    }
  }

  /** One fresh record a line, holding the floored cents. */
  method MakeParts(ids: seq<int>, remainders: seq<int>, floors: seq<int>, ghost values: seq<Part>)
    returns (parts: seq<PartRecord>)
    requires |values| == |floors| == |ids| == |remainders|
    requires forall j :: 0 <= j < |values| ==> values[j].remainder == remainders[j]
    ensures |parts| == |floors| && Distinct(parts) && Views(parts) == values
    ensures forall j :: 0 <= j < |parts| ==> fresh(parts[j]) && parts[j].cents == floors[j] && parts[j].id == ids[j]
  {
    parts := [];
    for i := 0 to |floors|
      invariant |parts| == i && Distinct(parts)
      invariant forall j :: 0 <= j < i ==> fresh(parts[j]) && parts[j].cents == floors[j] && parts[j].id == ids[j]
      invariant forall j :: 0 <= j < i ==> View(parts[j]) == values[j]
    {
      var part := new PartRecord(ids[i], floors[i], remainders[i], values[i].key);
      parts := parts + [part];
    }
  }

  /** One cent to each of the first `owed` ranked records, seen through `parts`. */
  method HandOut(parts: seq<PartRecord>, ranked: seq<PartRecord>, owed: nat)
    requires Distinct(parts) && Permuted(ranked, parts) && owed <= |ranked|
    requires Sorted(Views(ranked))
    modifies parts
    ensures forall j :: 0 <= j < |parts| ==>
      parts[j].cents == old(parts[j].cents) + (if View(parts[j]) in Winners(Views(ranked), owed) then 1 else 0)
  {
    var remaining := owed;
    ghost var views := Views(ranked);
    SameElements(ranked, parts);
    for i := 0 to |ranked|
      invariant remaining == if i <= owed then owed - i else 0
      invariant forall j :: 0 <= j < |parts| ==>
        parts[j].cents == old(parts[j].cents) + (if View(parts[j]) in Elements(views[..Min(i, owed)]) then 1 else 0)
    {
      if remaining == 0 { break; }
      ghost var before := views[..i];
      assert ranked[i] in parts && views[i] !in before;
      assert views[..i + 1] == before + [views[i]];
      forall j | 0 <= j < |parts| && View(parts[j]) == views[i] ensures parts[j] == ranked[i] {
        assert parts[j] in ranked;
        var m :| 0 <= m < |ranked| && ranked[m] == parts[j];
        assert views[m] == views[i];
      }
      ranked[i].cents := ranked[i].cents + 1;
      remaining := remaining - 1;
    }
  }

  /** The keys of the parts rank them as their ids do. */
  ghost predicate KeyedById(values: seq<Part>, ids: seq<int>) {
    && |values| == |ids| && DistinctKeys(values)
    && forall i, j :: 0 <= i < j < |ids| ==> (values[i].key < values[j].key <==> ids[i] <= ids[j])
  }

  method Distribute(ids: seq<int>, remainders: seq<int>, floors: seq<int>, owed: nat, ghost values: seq<Part>)
    returns (cents: seq<int>)
    requires |values| == |floors| == |remainders| && KeyedById(values, ids) && owed <= |Ranked(values)|
    requires forall j :: 0 <= j < |values| ==> values[j].remainder == remainders[j]
    ensures |cents| == |floors|
    ensures forall i :: 0 <= i < |cents| ==>
      cents[i] == floors[i] + (if values[i] in Winners(Ranked(values), owed) then 1 else 0)
  {
    var parts := MakeParts(ids, remainders, floors, values);
    assert forall i :: 0 <= i < |parts| ==> View(parts[i]) == values[i];
    var ranked := RankRecords(parts);
    RankedSorted(values);
    SameElements(ranked, parts);
    HandOut(parts, ranked, owed);
    cents := seq(|parts|, i requires 0 <= i < |parts| reads parts => parts[i].cents);
  }

  lemma SharesAre(amount: int, products: seq<int>, total: int, ids: seq<int>, cents: seq<int>)
    requires Quotas(amount, products, total, ids) && |cents| == |products|
    requires var parts, owed := Parts(products, total, ids), amount - Sum(Floors(products, total));
      0 <= owed <= |Ranked(parts)| && forall i :: 0 <= i < |cents| ==>
        cents[i] == Floors(products, total)[i] + (if parts[i] in Winners(Ranked(parts), owed) then 1 else 0)
    ensures cents == Shares(amount, products, total, ids)
  {
  }

  function Remainders(products: seq<int>, total: int): (r: seq<int>)
    requires total > 0
    ensures |r| == |products|
  {
    seq(|products|, i requires 0 <= i < |products| => products[i] % total)
  }

  lemma PartsKeyed(products: seq<int>, total: int, ids: seq<int>, values: seq<Part>)
    requires total > 0 && |products| == |ids| && values == Parts(products, total, Places(ids))
    ensures RankedById(ids, Remainders(products, total), values)
  {
    PlacesOrder(ids);
    forall j | 0 <= j < |products| ensures values[j] == Part(Places(ids)[j], products[j] % total) {
      QuotaAt(products, total, Places(ids), j);
    }
  }

  /** Parts with these remainders whose keys rank them as their ids do. */
  ghost predicate RankedById(ids: seq<int>, remainders: seq<int>, values: seq<Part>) {
    && |values| == |remainders| && KeyedById(values, ids)
    && forall j :: 0 <= j < |values| ==> values[j].remainder == remainders[j]
  }

  /** The split of quotas whose ties go by id. */
  method Split(amount: int, products: seq<int>, total: int, ids: seq<int>, remainders: seq<int>, ghost keys: seq<int>)
    returns (cents: seq<int>)
    requires Quotas(amount, products, total, keys) && RankedById(ids, remainders, Parts(products, total, keys))
    ensures cents == Shares(amount, products, total, keys)
  {
    ghost var values := Parts(products, total, keys);
    var floors := Floors(products, total);
    RankingReady(amount, products, total, keys);
    cents := Distribute(ids, remainders, floors, amount - Sum(floors), values);
    SharesAre(amount, products, total, keys, cents);
  }

  method AllocateRefundCents(amount: int, lines: seq<RefundLine>) returns (r: Result<seq<RefundShare>>)
    ensures r == AllocateRefund(amount, lines)
  {
    if Refusable(amount, lines) { return Err(InvalidMoney); }
    ProductsAreQuotas(amount, lines);
    var products, total, ids := Products(amount, lines), Sum(Weights(lines)), Ids(lines);
    PartsKeyed(products, total, ids, Parts(products, total, Places(ids)));
    var cents := Split(amount, products, total, ids, Remainders(products, total), Places(ids));
    r := Ok(seq(|lines|, i requires 0 <= i < |lines| && i < |cents| => RefundShare(lines[i].id, cents[i])));
    assert r.value == AllocateRefund(amount, lines).value;
  }

  /** The parts sum to the amount, in the value-weighted and in the quantity-weighted mode. */
  lemma RefundExact(amount: int, lines: seq<RefundLine>)
    requires AllocateRefund(amount, lines).Ok?
    ensures |AllocateRefund(amount, lines).value| == |lines|
    ensures Sum(Map((s: RefundShare) => s.cents, AllocateRefund(amount, lines).value)) == amount
    ensures forall i :: 0 <= i < |lines| ==>
      AllocateRefund(amount, lines).value[i].id == lines[i].id && 0 <= AllocateRefund(amount, lines).value[i].cents
  {
    ProductsAreQuotas(amount, lines);
    var products, total, places := Products(amount, lines), Sum(Weights(lines)), Places(Ids(lines));
    SharesSum(amount, products, total, places);
    assert Map((s: RefundShare) => s.cents, AllocateRefund(amount, lines).value)
      == Shares(amount, products, total, places);
    SharesNonNegative(amount, products, total, places);
  }

  // --- Order independence ---------------------------------------------------------------

  /** A line as the ranking sees it, by the ids it competes with. */
  function PartOf(amount: int, byQuantity: bool, total: int, ids: seq<int>): RefundLine -> Part
    requires total > 0
  {
    (line: RefundLine) => Part(Sum(Map(Smaller(line.id), ids)), (amount * Weight(byQuantity)(line)) % total)
  }

  /** Both modes and both refusals depend only on which lines there are. */
  lemma PermutedMode(amount: int, a: seq<RefundLine>, b: seq<RefundLine>)
    requires Permuted(a, b)
    ensures Refusable(amount, a) ==> Refusable(amount, b)
    ensures UseQuantity(a) ==> UseQuantity(b)
  {
    SameElements(a, b);
    if i :| 0 <= i < |a| && (a[i].calculatedCents < 0 || a[i].quantity < 1) {
      assert a[i] in b;
    }
    if UseQuantity(a) {
      forall i | 0 <= i < |b| ensures b[i].calculatedCents == 0 { assert b[i] in a; }
    }
  }

  lemma PartsAreMapped(amount: int, lines: seq<RefundLine>, total: int)
    requires total > 0 && DistinctIds(lines)
    ensures Parts(Products(amount, lines), total, Places(Ids(lines)))
      == Map(PartOf(amount, UseQuantity(lines), total, Ids(lines)), lines)
  {
    var f := PartOf(amount, UseQuantity(lines), total, Ids(lines));
    forall i | 0 <= i < |lines| ensures Parts(Products(amount, lines), total, Places(Ids(lines)))[i] == f(lines[i]) {
      assert Weights(lines)[i] == Weight(UseQuantity(lines))(lines[i]);
      QuotaAt(Products(amount, lines), total, Places(Ids(lines)), i);
      PlaceAt(Ids(lines), |lines|, i);
      PlaceOfDistinct(Ids(lines), i);
    }
  }

  /** Reordering the lines changes nothing in how any line is ranked. */
  lemma SamePart(amount: int, a: seq<RefundLine>, b: seq<RefundLine>, byQuantity: bool, total: int, line: RefundLine)
    requires Permuted(a, b) && total > 0
    ensures PartOf(amount, byQuantity, total, Ids(a))(line) == PartOf(amount, byQuantity, total, Ids(b))(line)
  {
    MapPermuted((l: RefundLine) => l.id, a, b);
    MapPermuted(Smaller(line.id), Ids(a), Ids(b));
    SumPermuted(Map(Smaller(line.id), Ids(a)), Map(Smaller(line.id), Ids(b)));
  }

  lemma PermutedRanking(amount: int, a: seq<RefundLine>, b: seq<RefundLine>, total: int)
    requires Permuted(a, b) && DistinctIds(a) && DistinctIds(b)
    requires UseQuantity(a) == UseQuantity(b) && total > 0
    ensures Ranked(Parts(Products(amount, a), total, Places(Ids(a))))
      == Ranked(Parts(Products(amount, b), total, Places(Ids(b))))
  {
    PartsAreMapped(amount, a, total);
    PartsAreMapped(amount, b, total);
    var f, g := PartOf(amount, UseQuantity(a), total, Ids(a)), PartOf(amount, UseQuantity(b), total, Ids(b));
    MapPermuted(f, a, b);
    forall i | 0 <= i < |b| ensures f(b[i]) == g(b[i]) { SamePart(amount, a, b, UseQuantity(a), total, b[i]); }
    assert Map(f, b) == Map(g, b);
    PlacesOrder(Ids(a));
    PlacesOrder(Ids(b));
    RankingUnique(Parts(Products(amount, a), total, Places(Ids(a))), Parts(Products(amount, b), total, Places(Ids(b))));
  }

  lemma PermutedLeftover(amount: int, a: seq<RefundLine>, b: seq<RefundLine>, total: int)
    requires Quotas(amount, Products(amount, a), total, Places(Ids(a)))
    requires Quotas(amount, Products(amount, b), total, Places(Ids(b)))
    requires Ranked(Parts(Products(amount, a), total, Places(Ids(a))))
      == Ranked(Parts(Products(amount, b), total, Places(Ids(b))))
    ensures Leftover(amount, Products(amount, a), total) == Leftover(amount, Products(amount, b), total)
  {
    LeftoverRange(amount, Products(amount, a), total, Places(Ids(a)));
    LeftoverRange(amount, Products(amount, b), total, Places(Ids(b)));
    RemaindersRanked(Parts(Products(amount, a), total, Places(Ids(a))));
    RemaindersRanked(Parts(Products(amount, b), total, Places(Ids(b))));
    SameFactor(Leftover(amount, Products(amount, a), total), Leftover(amount, Products(amount, b), total), total);
  }

  lemma SameFactor(a: int, b: int, total: int)
    requires total > 0 && a * total == b * total
    ensures a == b
  {
    if a < b { MulOrder(a + 1, b, total); }
    if b < a { MulOrder(b + 1, a, total); }
  }

  lemma LeftoverFits(amount: int, lines: seq<RefundLine>)
    requires !Refusable(amount, lines)
    ensures Quotas(amount, Products(amount, lines), Sum(Weights(lines)), Places(Ids(lines)))
    ensures 0 <= Leftover(amount, Products(amount, lines), Sum(Weights(lines)))
      <= |Ranked(Parts(Products(amount, lines), Sum(Weights(lines)), Places(Ids(lines))))|
  {
    ProductsAreQuotas(amount, lines);
    RankingReady(amount, Products(amount, lines), Sum(Weights(lines)), Places(Ids(lines)));
  }

  lemma ShareOfLine(amount: int, lines: seq<RefundLine>, i: int)
    requires DistinctIds(lines) && !Refusable(amount, lines) && 0 <= i < |lines|
    ensures AllocateRefund(amount, lines).Ok? && i < |AllocateRefund(amount, lines).value|
    ensures Quotas(amount, Products(amount, lines), Sum(Weights(lines)), Places(Ids(lines)))
    ensures 0 <= Leftover(amount, Products(amount, lines), Sum(Weights(lines)))
      <= |Ranked(Parts(Products(amount, lines), Sum(Weights(lines)), Places(Ids(lines))))|
    ensures AllocateRefund(amount, lines).value[i] == CanonicalShare(amount, lines[i], UseQuantity(lines),
      Sum(Weights(lines)), Ids(lines), Ranked(Parts(Products(amount, lines), Sum(Weights(lines)), Places(Ids(lines)))),
      Leftover(amount, Products(amount, lines), Sum(Weights(lines))))
  {
    LeftoverFits(amount, lines);
    QuotaAt(Products(amount, lines), Sum(Weights(lines)), Places(Ids(lines)), i);
    PartsAreMapped(amount, lines, Sum(Weights(lines)));
  }

  /** A line's share in terms of the ranking only, not of its position. */
  ghost function CanonicalShare(amount: int, line: RefundLine, byQuantity: bool, total: int, ids: seq<int>,
                               ranked: seq<Part>, k: int): RefundShare
    requires total > 0 && 0 <= k <= |ranked|
  {
    RefundShare(line.id, (amount * Weight(byQuantity)(line)) / total
      + if PartOf(amount, byQuantity, total, ids)(line) in Winners(ranked, k) then 1 else 0)
  }

  lemma SameShare(amount: int, a: seq<RefundLine>, b: seq<RefundLine>, i: int, j: int)
    requires Permuted(a, b) && DistinctIds(a) && DistinctIds(b) && !Refusable(amount, a) && !Refusable(amount, b)
    requires UseQuantity(a) == UseQuantity(b)
    requires 0 <= i < |a| && 0 <= j < |b| && a[i].id == b[j].id
    ensures AllocateRefund(amount, a).value[i] == AllocateRefund(amount, b).value[j]
  {
    SameElements(a, b);
    assert b[j] in a;
    MapPermuted(Weight(UseQuantity(a)), a, b);
    SumPermuted(Weights(a), Weights(b));
    ShareOfLine(amount, a, i);
    ShareOfLine(amount, b, j);
    PermutedRanking(amount, a, b, Sum(Weights(a)));
    SamePart(amount, a, b, UseQuantity(a), Sum(Weights(a)), a[i]);
    PermutedLeftover(amount, a, b, Sum(Weights(a)));
  }

  /** Query order does not matter: any reordering of the lines is refused alike or gives
      every line id the same cents. */
  lemma RefundOrderIndependent(amount: int, a: seq<RefundLine>, b: seq<RefundLine>)
    requires Permuted(a, b) && DistinctIds(a) && DistinctIds(b)
    ensures AllocateRefund(amount, a).Ok? == AllocateRefund(amount, b).Ok?
    ensures AllocateRefund(amount, a).Ok? ==> forall i, j :: 0 <= i < |a| && 0 <= j < |b| && a[i].id == b[j].id ==>
      AllocateRefund(amount, a).value[i] == AllocateRefund(amount, b).value[j]
  {
    PermutedMode(amount, a, b);
    PermutedMode(amount, b, a);
    if !Refusable(amount, a) {
      forall i, j | 0 <= i < |a| && 0 <= j < |b| && a[i].id == b[j].id
        ensures AllocateRefund(amount, a).value[i] == AllocateRefund(amount, b).value[j]
      {
        SameShare(amount, a, b, i, j);
      }
    }
  }

  // --- The answer by what it gives -----------------------------------------------------------

  /** A line counts by its calculated cents, or by its quantity where no line has any. */
  function Counts(lines: seq<RefundLine>): seq<int> {
    var worthless := forall k :: 0 <= k < |lines| ==> lines[k].calculatedCents == 0;
    seq(|lines|, i requires 0 <= i < |lines| => if worthless then lines[i].quantity else lines[i].calculatedCents)
  }

  /** Larger remainder, then smaller line id, then earlier line. */
  ghost predicate SoonerById(lines: seq<RefundLine>, nums: seq<int>, den: int, i: nat, j: nat)
    requires i < |lines| == |nums| && j < |lines| && den > 0
  {
    var a, b := nums[i] % den, nums[j] % den;
    a > b || (a == b && (lines[i].id < lines[j].id || (lines[i].id == lines[j].id && i < j)))
  }

  /** Cents that sum to the amount, each its quota `nums[i] / den` rounded down or up, the cents
      left over to those that go first. */
  ghost predicate SplitById(amount: int, lines: seq<RefundLine>, nums: seq<int>, den: int, cents: seq<int>)
    requires |lines| == |nums| && den > 0
  {
    && |cents| == |lines| && Sum(cents) == amount
    && (forall i :: 0 <= i < |lines| ==>
      && (cents[i] == nums[i] / den || Topped(nums[i], den, cents[i]))
      && (nums[i] % den == 0 ==> cents[i] == nums[i] / den))
    && forall i, j :: 0 <= i < |lines| && 0 <= j < |lines| ==>
      Topped(nums[i], den, cents[i]) && !Topped(nums[j], den, cents[j]) ==> SoonerById(lines, nums, den, i, j)
  }

  /** Each line gets its part of the refund, to the cent: `amount * count / sum of counts`. */
  ghost predicate RefundProRata(amount: int, lines: seq<RefundLine>, shares: seq<RefundShare>) {
    && |shares| == |lines| && Sum(Counts(lines)) > 0
    && (forall i :: 0 <= i < |lines| ==> shares[i].id == lines[i].id)
    && SplitById(amount, lines, seq(|lines|, i requires 0 <= i < |lines| => amount * Counts(lines)[i]),
                 Sum(Counts(lines)), CentsOf(shares))
  }

  lemma PlacesCompare(ids: seq<int>, i: nat, j: nat)
    requires i < |ids| && j < |ids|
    ensures Places(ids)[i] < Places(ids)[j] <==> ids[i] < ids[j] || (ids[i] == ids[j] && i < j)
  {
    PlacesOrder(ids);
    if i < j {
      assert Places(ids)[i] < Places(ids)[j] <==> ids[i] <= ids[j];
    } else if j < i {
      assert Places(ids)[j] < Places(ids)[i] <==> ids[j] <= ids[i];
      assert Places(ids)[j] != Places(ids)[i];
    }
  }

  lemma CountsAreWeights(lines: seq<RefundLine>)
    ensures Counts(lines) == Weights(lines)
  {
  }

  lemma SplitsAgree(amount: int, lines: seq<RefundLine>, nums: seq<int>, den: int, cents: seq<int>)
    requires |lines| == |nums| && den > 0
    ensures SplitById(amount, lines, nums, den, cents)
      <==> LargestRemainderSplit(amount, nums, den, Places(Ids(lines)), cents)
  {
    forall i: nat, j: nat | i < |lines| && j < |lines|
      ensures SoonerById(lines, nums, den, i, j)
        <==> Sooner(nums[i], Places(Ids(lines))[i], nums[j], Places(Ids(lines))[j], den)
    {
      PlacesCompare(Ids(lines), i, j);
    }
  }

  function CentsOf(shares: seq<RefundShare>): seq<int> { Map((s: RefundShare) => s.cents, shares) }

  lemma OneSplitById(amount: int, lines: seq<RefundLine>, nums: seq<int>, den: int, a: seq<int>, b: seq<int>)
    requires |lines| == |nums| && den > 0
    requires SplitById(amount, lines, nums, den, a) && SplitById(amount, lines, nums, den, b)
    ensures a == b
  {
    SplitsAgree(amount, lines, nums, den, a);
    SplitsAgree(amount, lines, nums, den, b);
    SplitUnique(amount, nums, den, Places(Ids(lines)), a, b);
  }

  lemma OneRefundSplit(amount: int, lines: seq<RefundLine>, a: seq<RefundShare>, b: seq<RefundShare>)
    requires RefundProRata(amount, lines, a) && RefundProRata(amount, lines, b)
    ensures a == b
  {
    var nums := seq(|lines|, i requires 0 <= i < |lines| => amount * Counts(lines)[i]);
    OneSplitById(amount, lines, nums, Sum(Counts(lines)), CentsOf(a), CentsOf(b));
    forall i | 0 <= i < |lines| ensures a[i] == b[i] { assert CentsOf(a)[i] == CentsOf(b)[i]; }
  }

  lemma AnswerCents(amount: int, lines: seq<RefundLine>)
    requires !Refusable(amount, lines)
    ensures Quotas(amount, Products(amount, lines), Sum(Weights(lines)), Places(Ids(lines)))
    ensures AllocateRefund(amount, lines).Ok? && |AllocateRefund(amount, lines).value| == |lines|
    ensures CentsOf(AllocateRefund(amount, lines).value)
      == Shares(amount, Products(amount, lines), Sum(Weights(lines)), Places(Ids(lines)))
    ensures forall i :: 0 <= i < |lines| ==> AllocateRefund(amount, lines).value[i].id == lines[i].id
  {
    ProductsAreQuotas(amount, lines);
  }

  lemma AnswerIsProRata(amount: int, lines: seq<RefundLine>)
    requires !Refusable(amount, lines)
    ensures AllocateRefund(amount, lines).Ok? && RefundProRata(amount, lines, AllocateRefund(amount, lines).value)
  {
    AnswerCents(amount, lines);
    CountsAreWeights(lines);
    ProductsAreQuotas(amount, lines);
    SharesSplit(amount, Products(amount, lines), Sum(Weights(lines)), Places(Ids(lines)));
    var cents := CentsOf(AllocateRefund(amount, lines).value);
    SplitsAgree(amount, lines, Products(amount, lines), Sum(Weights(lines)), cents);
    assert Products(amount, lines) == seq(|lines|, i requires 0 <= i < |lines| => amount * Counts(lines)[i]);
  }

  /** The refund splitter answers with the one pro-rata split, ties by line id, and nothing else. */
  lemma RefundIsProRata(amount: int, lines: seq<RefundLine>, shares: seq<RefundShare>)
    requires amount >= 0 && lines != []
    requires forall i :: 0 <= i < |lines| ==> lines[i].calculatedCents >= 0 && lines[i].quantity >= 1
    ensures AllocateRefund(amount, lines) == Ok(shares) <==> RefundProRata(amount, lines, shares)
  {
    AnswerIsProRata(amount, lines);
    if RefundProRata(amount, lines, shares) {
      OneRefundSplit(amount, lines, shares, AllocateRefund(amount, lines).value);
    }
  }

  /** Exactly when the refund splitter refuses. */
  lemma RefundRefusal(amount: int, lines: seq<RefundLine>)
    ensures AllocateRefund(amount, lines).Err? <==>
      || amount < 0 || lines == []
      || exists i :: 0 <= i < |lines| && (lines[i].calculatedCents < 0 || lines[i].quantity < 1)
  {
  }
}
