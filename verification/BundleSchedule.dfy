/** Bundle recipes over time (backend/src/modules/bundles/bundle.service.ts): create, edit and
    archive are serialized by one lock, and live active recipes that share a SKU never overlap. */
module BundleSchedule {
  import opened Common
  import BundleMath
  import opened BundlePricing
  import opened VolumePricing

  datatype Status = Draft | Active | Paused | Ended

  /** What a bundle form carries. Instants are epoch milliseconds, None an open end. */
  datatype Form = Form(status: Status, startsAt: Option<int>, endsAt: Option<int>, priceCents: int,
                       components: seq<Component>)

  /** A stored bundle; an archived one keeps its row but loses its components. */
  datatype Row = Row(form: Form, deleted: bool)

  /** The fields an edit may replace; clearing an instant is `Some(None)`. */
  datatype Patch = Patch(status: Option<Status>, startsAt: Option<Option<int>>, endsAt: Option<Option<int>>,
                         priceCents: Option<int>, components: Option<seq<Component>>)

  /** One SKU as the catalogue and the promotions price it right now. */
  datatype Sku = Sku(sellable: bool, regularCents: int, effectiveCents: int)

  type Catalog = map<int, Sku>

  function Or<T>(o: Option<T>, other: T): T {
    match o
    case Some(x) => x
    case None => other
  }

  function Merge(f: Form, p: Patch): Form {
    Form(Or(p.status, f.status), Or(p.startsAt, f.startsAt), Or(p.endsAt, f.endsAt), Or(p.priceCents, f.priceCents),
      Or(p.components, f.components))
  }

  // --- Validation --------------------------------------------------------------------------

  predicate EndAfterStart(f: Form) {
    f.startsAt.Some? && f.endsAt.Some? ==> f.startsAt.value < f.endsAt.value
  }

  /** As many existing, sellable SKUs as components: none is missing, none repeated. */
  predicate SkusSellable(f: Form, catalog: Catalog) {
    && |Variants(Candidate(0, f))| == |f.components|
    && forall i :: 0 <= i < |f.components| ==>
      f.components[i].variantID in catalog && catalog[f.components[i].variantID].sellable
  }

  function PricedItems(components: seq<Component>, catalog: Catalog, effective: bool): seq<BundleMath.Item>
    requires forall i :: 0 <= i < |components| ==> components[i].variantID in catalog
  {
    seq(|components|, i requires 0 <= i < |components| =>
      var sku := catalog[components[i].variantID];
      BundleMath.Item(0, components[i].quantity, if effective then sku.effectiveCents else sku.regularCents))
  }

  /** The price completes a saving at regular and at current prices. */
  predicate PriceAllowed(f: Form, catalog: Catalog)
    requires f.components != [] && SkusSellable(f, catalog)
  {
    && BundleMath.InBounds(f.priceCents, PricedItems(f.components, catalog, false))
    && BundleMath.InBounds(f.priceCents, PricedItems(f.components, catalog, true))
  }

  predicate SharesSku(a: Form, b: Form) {
    exists i, j ::
      0 <= i < |a.components| && 0 <= j < |b.components| && a.components[i].variantID == b.components[j].variantID
  }

  /** The window test of the conflict query, on the other row's columns. */
  predicate WindowMeets(f: Form, other: Form) {
    && (f.endsAt.Some? ==> other.startsAt.None? || other.startsAt.value < f.endsAt.value)
    && (f.startsAt.Some? ==> other.endsAt.None? || other.endsAt.value > f.startsAt.value)
  }

  predicate ConflictsWith(f: Form, row: Row) {
    !row.deleted && row.form.status == Active && SharesSku(f, row.form) && WindowMeets(f, row.form)
  }

  predicate Conflicting(f: Form, rows: map<int, Row>, exclude: Option<int>) {
    exists id :: id in rows && Some(id) != exclude && ConflictsWith(f, rows[id])
  }

  function Validate(f: Form, rows: map<int, Row>, exclude: Option<int>, catalog: Catalog): Option<Rejection>
    requires f.components != []
  {
    if !EndAfterStart(f) then Some(Validation)
    else if !SkusSellable(f, catalog) then Some(Validation)
    else if !PriceAllowed(f, catalog) then Some(Validation)
    else if f.status == Active && Conflicting(f, rows, exclude) then Some(Conflict)
    else None
  }

  // --- The operations, each one transaction under the lock -----------------------------------

  /** What the form schema lets through: two to twenty components, each SKU once, 1 to 999 units. */
  predicate SchemaOk(components: seq<Component>) {
    && 2 <= |components| <= 20
    && (forall i, j :: 0 <= i < j < |components| ==> components[i].variantID != components[j].variantID)
    && forall i :: 0 <= i < |components| ==> 1 <= components[i].quantity <= 999
  }

  predicate FormOk(f: Form) { SchemaOk(f.components) && f.priceCents > 0 }

  predicate PatchOk(p: Patch) {
    && (p.components.Some? ==> SchemaOk(p.components.value))
    && (p.priceCents.Some? ==> p.priceCents.value > 0)
  }

  datatype Step =
    | Create(id: int, form: Form, catalog: Catalog)
    | Update(id: int, patch: Patch, catalog: Catalog)
    | Archive(id: int)

  datatype Outcome = Done | Refused(why: Rejection)

  function AfterCreate(rows: map<int, Row>, id: int, form: Form, catalog: Catalog): (map<int, Row>, Outcome) {
    if !FormOk(form) then (rows, Refused(Validation))
    else if id in rows then (rows, Refused(Conflict))
    else
      match Validate(form, rows, None, catalog)
      case Some(why) => (rows, Refused(why))
      case None => (rows[id := Row(form, false)], Done)
  }

  function AfterUpdate(rows: map<int, Row>, id: int, patch: Patch, catalog: Catalog): (map<int, Row>, Outcome) {
    if !PatchOk(patch) then (rows, Refused(Validation))
    else if id !in rows || rows[id].deleted then (rows, Refused(NotFound))
    else
      var merged := Merge(rows[id].form, patch);
      if merged.components == [] then (rows, Refused(Validation))
      else
        match Validate(merged, rows, Some(id), catalog)
        case Some(why) => (rows, Refused(why))
        case None => (rows[id := Row(merged, false)], Done)
  }

  function AfterArchive(rows: map<int, Row>, id: int): (map<int, Row>, Outcome) {
    if id !in rows || rows[id].deleted then (rows, Refused(NotFound))
    else (rows[id := Row(rows[id].form.(status := Ended, components := []), true)], Done)
  }

  function After(rows: map<int, Row>, step: Step): (map<int, Row>, Outcome) {
    match step
    case Create(id, form, catalog) => AfterCreate(rows, id, form, catalog)
    case Update(id, patch, catalog) => AfterUpdate(rows, id, patch, catalog)
    case Archive(id) => AfterArchive(rows, id)
  }

  /** The bundle table. */
  class BundleTable {
    var rows: map<int, Row>

    constructor ()
      ensures rows == map[]
    {
      rows := map[];
    }

    method CreateBundle(id: int, form: Form, catalog: Catalog) returns (r: Outcome)
      modifies this
      ensures (rows, r) == AfterCreate(old(rows), id, form, catalog)
    {
      if !FormOk(form) { return Refused(Validation); }
      if id in rows { return Refused(Conflict); }
      var rejection := Validate(form, rows, None, catalog);
      if rejection.Some? { return Refused(rejection.value); }
      rows := rows[id := Row(form, false)];
      r := Done;
    }

    method UpdateBundle(id: int, patch: Patch, catalog: Catalog) returns (r: Outcome)
      modifies this
      ensures (rows, r) == AfterUpdate(old(rows), id, patch, catalog)
      ensures r != Done ==> rows == old(rows)
      ensures r == Done ==>
        && id in old(rows) && id in rows && rows == old(rows)[id := rows[id]]
        && FieldsPatched(old(rows)[id].form, patch, rows[id].form)
    {
      if !PatchOk(patch) { return Refused(Validation); }
      if id !in rows || rows[id].deleted { return Refused(NotFound); }
      var merged := Merge(rows[id].form, patch);
      if merged.components == [] { return Refused(Validation); }
      var rejection := Validate(merged, rows, Some(id), catalog);
      if rejection.Some? { return Refused(rejection.value); }
      rows := rows[id := Row(merged, false)];
      r := Done;
    }

    method DeleteBundle(id: int) returns (r: Outcome)
      modifies this
      ensures (rows, r) == AfterArchive(old(rows), id)
    {
      if id !in rows || rows[id].deleted { return Refused(NotFound); }
      var row := rows[id];
      rows := rows[id := Row(row.form.(status := Ended), true)];
      rows := rows[id := Row(rows[id].form.(components := []), true)];
      assert rows == old(rows)[id := Row(row.form.(status := Ended, components := []), true)];
      r := Done;
    }
  }

  // --- When two windows meet -------------------------------------------------------------------

  predicate InWindow(f: Form, at: int) {
    (f.startsAt.None? || f.startsAt.value <= at) && (f.endsAt.None? || f.endsAt.value > at)
  }

  /** The query's column tests say exactly that some instant lies in both windows. */
  lemma WindowTestIsOverlap(f: Form, other: Form)
    requires EndAfterStart(f) && EndAfterStart(other)
    ensures WindowMeets(f, other) <==> exists at :: InWindow(f, at) && InWindow(other, at)
    ensures WindowMeets(f, other) <==> WindowMeets(other, f)
  {
    if WindowMeets(f, other) {
      var a := match f.startsAt case Some(s) => s case None => LatestBefore(f, other);
      var b := match other.startsAt case Some(s) => s case None => LatestBefore(f, other);
      assert InWindow(f, Max(a, b)) && InWindow(other, Max(a, b));
    }
  }

  /** An instant before both ends. */
  function LatestBefore(f: Form, other: Form): (at: int)
    ensures f.endsAt.Some? ==> at < f.endsAt.value
    ensures other.endsAt.Some? ==> at < other.endsAt.value
  {
    match (f.endsAt, other.endsAt)
    case (Some(a), Some(b)) => Min(a, b) - 1
    case (Some(a), None) => a - 1
    case (None, Some(b)) => b - 1
    case (None, None) => 0
  }

  // --- Every run ---------------------------------------------------------------------------------

  function Run(rows: map<int, Row>, steps: seq<Step>): map<int, Row>
    decreases |steps|
  {
    if steps == [] then rows else Run(After(rows, steps[0]).0, steps[1..])
  }

  ghost predicate RowOk(row: Row) {
    !row.deleted ==> SchemaOk(row.form.components) && EndAfterStart(row.form)
  }

  ghost predicate Apart(a: Form, b: Form) {
    SharesSku(a, b) ==> !exists at :: InWindow(a, at) && InWindow(b, at)
  }

  ghost predicate Live(row: Row) { !row.deleted && row.form.status == Active }

  ghost predicate Scheduled(rows: map<int, Row>) {
    && (forall id :: id in rows ==> RowOk(rows[id]))
    && forall i, j :: i in rows && j in rows && i != j && Live(rows[i]) && Live(rows[j]) ==>
      Apart(rows[i].form, rows[j].form)
  }

  lemma SharesSkuSymmetric(a: Form, b: Form)
    requires SharesSku(a, b)
    ensures SharesSku(b, a)
  {
    var i, j :|
      0 <= i < |a.components| && 0 <= j < |b.components| && a.components[i].variantID == b.components[j].variantID;
    assert b.components[j].variantID == a.components[i].variantID;
  }

  /** A recipe that passed validation fits beside all the others. */
  lemma AcceptedFits(rows: map<int, Row>, id: int, f: Form)
    requires Scheduled(rows) && SchemaOk(f.components) && EndAfterStart(f)
    requires f.status == Active ==> !Conflicting(f, rows, Some(id))
    ensures Scheduled(rows[id := Row(f, false)])
  {
    var after := rows[id := Row(f, false)];
    forall j | j in after && j != id && Live(after[j]) && Live(after[id])
      ensures Apart(f, after[j].form) && Apart(after[j].form, f)
    {
      assert !ConflictsWith(f, rows[j]);
      WindowTestIsOverlap(f, rows[j].form);
      if SharesSku(after[j].form, f) { SharesSkuSymmetric(after[j].form, f); }
    }
  }

  lemma StepKeepsSchedule(rows: map<int, Row>, step: Step)
    requires Scheduled(rows)
    ensures Scheduled(After(rows, step).0)
  {
    match step
    case Create(id, form, catalog) =>
      if After(rows, step).1 == Done {
        assert form.status == Active ==> !Conflicting(form, rows, None);
        AcceptedFits(rows, id, form);
      }
    case Update(id, patch, catalog) =>
      if After(rows, step).1 == Done {
        assert RowOk(rows[id]);
        AcceptedFits(rows, id, Merge(rows[id].form, patch));
      }
    case Archive(id) =>
  }

  /** In every state reachable by create, edit and archive, live active recipes that share a
      SKU have no instant in common. */
  lemma {:induction false} EveryRunStaysScheduled(rows: map<int, Row>, steps: seq<Step>)
    requires Scheduled(rows)
    ensures Scheduled(Run(rows, steps))
    decreases |steps|
  {
    if steps != [] {
      StepKeepsSchedule(rows, steps[0]);
      EveryRunStaysScheduled(After(rows, steps[0]).0, steps[1..]);
    }
  }

  /** An active recipe is turned away for its schedule exactly when some other live active
      recipe with one of its SKUs has an instant in common with it. */
  lemma ConflictIsOverlap(rows: map<int, Row>, f: Form, exclude: Option<int>)
    requires Scheduled(rows) && EndAfterStart(f)
    ensures Conflicting(f, rows, exclude) <==>
      exists id :: id in rows && Some(id) != exclude && Live(rows[id]) && !Apart(f, rows[id].form)
  {
    forall id | id in rows && Live(rows[id]) ensures ConflictsWith(f, rows[id]) <==> !Apart(f, rows[id].form) {
      WindowTestIsOverlap(f, rows[id].form);
    }
    if Conflicting(f, rows, exclude) {
      var id :| id in rows && Some(id) != exclude && ConflictsWith(f, rows[id]);
      assert Live(rows[id]) && !Apart(f, rows[id].form);
    }
  }

  /** The checks that look at the recipe alone. */
  predicate Allowed(f: Form, catalog: Catalog) {
    f.components != [] && EndAfterStart(f) && SkusSellable(f, catalog) && PriceAllowed(f, catalog)
  }

  /** The recipe shares no instant with any other live active one that uses one of its SKUs. */
  ghost predicate FitsSchedule(rows: map<int, Row>, f: Form, self: Option<int>) {
    f.status == Active ==> forall id :: id in rows && Some(id) != self && Live(rows[id]) ==> Apart(f, rows[id].form)
  }

  /** Exactly which new recipes are stored. */
  lemma CreateAccepted(rows: map<int, Row>, id: int, f: Form, catalog: Catalog)
    requires Scheduled(rows) && id !in rows
    ensures After(rows, Create(id, f, catalog)).1 == Done <==>
      FormOk(f) && Allowed(f, catalog) && FitsSchedule(rows, f, None)
    ensures After(rows, Create(id, f, catalog)).1 == Done ==>
      After(rows, Create(id, f, catalog)).0 == rows[id := Row(f, false)]
    ensures After(rows, Create(id, f, catalog)).1 != Done ==> After(rows, Create(id, f, catalog)).0 == rows
  {
    if EndAfterStart(f) { ConflictIsOverlap(rows, f, None); }
  }

  /** Exactly which edits go through: a recipe is never in its own way. */
  lemma EditAccepted(rows: map<int, Row>, id: int, patch: Patch, catalog: Catalog)
    requires Scheduled(rows) && id in rows && !rows[id].deleted && PatchOk(patch)
    ensures var merged, after := Merge(rows[id].form, patch), After(rows, Update(id, patch, catalog));
      && (after.1 == Done <==> Allowed(merged, catalog) && FitsSchedule(rows, merged, Some(id)))
      && after.0 == (if after.1 == Done then rows[id := Row(merged, false)] else rows)
      && FieldsPatched(rows[id].form, patch, merged)
  {
    var merged := Merge(rows[id].form, patch);
    assert RowOk(rows[id]);
    if EndAfterStart(merged) { ConflictIsOverlap(rows, merged, Some(id)); }
  }

  // --- What pricing reads ----------------------------------------------------------------------------

  function Candidate(id: int, f: Form): BundleCandidate { BundleCandidate(id, f.priceCents, f.components) }

  predicate AllSellable(components: seq<Component>, catalog: Catalog) {
    forall i :: 0 <= i < |components| ==>
      components[i].variantID in catalog && catalog[components[i].variantID].sellable
  }

  predicate IsActive(row: Row, at: int, catalog: Catalog) {
    row.form.status == Active && !row.deleted && InWindow(row.form, at) && AllSellable(row.form.components, catalog)
  }

  /** The filtered read, in whatever order the database lists the rows. */
  function ActiveBundles(rows: map<int, Row>, order: seq<int>, at: int, catalog: Catalog): seq<BundleCandidate> {
    if order == [] then []
    else
      var id, rest := order[0], ActiveBundles(rows, order[1..], at, catalog);
      if id in rows && IsActive(rows[id], at, catalog) then [Candidate(id, rows[id].form)] + rest else rest
  }

  ghost predicate Listing(rows: map<int, Row>, order: seq<int>) {
    Distinct(order) && forall id :: id in rows <==> id in order
  }

  lemma {:induction false} ActiveAre(rows: map<int, Row>, order: seq<int>, at: int, catalog: Catalog,
                                     b: BundleCandidate)
    ensures b in ActiveBundles(rows, order, at, catalog) <==>
      b.id in order && b.id in rows && IsActive(rows[b.id], at, catalog) && b == Candidate(b.id, rows[b.id].form)
  {
    if order != [] {
      assert order == [order[0]] + order[1..];
      ActiveAre(rows, order[1..], at, catalog, b);
    }
  }

  /** Exactly the live active recipes whose window contains the instant and whose SKUs sell. */
  lemma ActiveBundlesComplete(rows: map<int, Row>, order: seq<int>, at: int, catalog: Catalog, id: int)
    requires Listing(rows, order)
    ensures (exists b :: b in ActiveBundles(rows, order, at, catalog) && b.id == id)
      <==> id in rows && IsActive(rows[id], at, catalog)
  {
    if b :| b in ActiveBundles(rows, order, at, catalog) && b.id == id {
      ActiveAre(rows, order, at, catalog, b);
    }
    if id in rows {
      ActiveAre(rows, order, at, catalog, Candidate(id, rows[id].form));
    }
  }

  lemma CommonVariant(a: Form, b: Form, v: int)
    requires v in VariantsOf(a.components) && v in VariantsOf(b.components)
    ensures SharesSku(a, b)
  {
    var c :| c in a.components && c.variantID == v;
    var d :| d in b.components && d.variantID == v;
    var k :| 0 <= k < |a.components| && a.components[k] == c;
    var l :| 0 <= l < |b.components| && b.components[l] == d;
    assert a.components[k].variantID == b.components[l].variantID;
  }

  lemma TwoActiveApart(rows: map<int, Row>, i: int, j: int, at: int, catalog: Catalog)
    requires Scheduled(rows) && i in rows && j in rows && i != j
    requires IsActive(rows[i], at, catalog) && IsActive(rows[j], at, catalog)
    ensures Variants(Candidate(i, rows[i].form)) !! Variants(Candidate(j, rows[j].form))
  {
    var a, b := rows[i].form, rows[j].form;
    assert InWindow(a, at) && InWindow(b, at);
    assert Apart(a, b);
    if v :| v in Variants(Candidate(i, a)) && v in Variants(Candidate(j, b)) {
      CommonVariant(a, b, v);
      assert false;
    }
  }

  lemma {:induction false} ActiveDisjoint(rows: map<int, Row>, order: seq<int>, at: int, catalog: Catalog)
    requires Scheduled(rows) && Distinct(order)
    ensures Disjoint(ActiveBundles(rows, order, at, catalog))
    ensures Recipes(ActiveBundles(rows, order, at, catalog))
  {
    if order != [] {
      var rest := ActiveBundles(rows, order[1..], at, catalog);
      assert forall k :: 0 <= k < |order[1..]| ==> order[1..][k] == order[k + 1];
      ActiveDisjoint(rows, order[1..], at, catalog);
      if order[0] in rows && IsActive(rows[order[0]], at, catalog) {
        var first := Candidate(order[0], rows[order[0]].form);
        RecipeOfRow(rows, order[0]);
        forall k | 0 <= k < |rest| ensures Variants(first) !! Variants(rest[k]) {
          ActiveAre(rows, order[1..], at, catalog, rest[k]);
          TwoActiveApart(rows, order[0], rest[k].id, at, catalog);
        }
      }
    }
  }

  lemma RecipeOfRow(rows: map<int, Row>, id: int)
    requires Scheduled(rows) && id in rows && !rows[id].deleted
    ensures Recipe(Candidate(id, rows[id].form))
  {
    assert RowOk(rows[id]);
  }

  /** In every reachable state, at every instant, the recipes offered to pricing are pairwise
      SKU-disjoint and well formed. */
  lemma ReachableBundlesDisjoint(steps: seq<Step>, order: seq<int>, at: int, catalog: Catalog)
    requires Distinct(order)
    ensures Disjoint(ActiveBundles(Run(map[], steps), order, at, catalog))
    ensures Recipes(ActiveBundles(Run(map[], steps), order, at, catalog))
  {
    EveryRunStaysScheduled(map[], steps);
    ActiveDisjoint(Run(map[], steps), order, at, catalog);
  }

  lemma {:induction false} SameListing(rows: map<int, Row>, a: seq<int>, b: seq<int>, at: int, catalog: Catalog)
    requires Permuted(a, b)
    ensures Permuted(ActiveBundles(rows, a, at, catalog), ActiveBundles(rows, b, at, catalog))
  {
    SameElements(a, b);
    if a != [] {
      var j := Removal(a, b);
      SameListing(rows, a[1..], b[..j] + b[j + 1..], at, catalog);
      ActiveAppend(rows, b[..j], b[j + 1..], at, catalog);
      ActiveAppend(rows, b[..j], b[j..], at, catalog);
      assert b == b[..j] + b[j..] && b[j..][1..] == b[j + 1..];
    }
  }

  lemma {:induction false} ActiveAppend(rows: map<int, Row>, a: seq<int>, b: seq<int>, at: int, catalog: Catalog)
    ensures ActiveBundles(rows, a + b, at, catalog)
      == ActiveBundles(rows, a, at, catalog) + ActiveBundles(rows, b, at, catalog)
  {
    if a == [] {
      assert a + b == b;
    } else {
      assert (a + b)[1..] == a[1..] + b;
      ActiveAppend(rows, a[1..], b, at, catalog);
    }
  }

  /** So pricing charges every cart the same whatever order the database lists the bundles
      in, and charges the least that any choice of recipes would. */
  lemma ReachablePricingIsOptimal(steps: seq<Step>, a: seq<int>, b: seq<int>, at: int, catalog: Catalog,
                                  lines: seq<Line>, rules: seq<ComboRule>)
    requires Distinct(a) && Distinct(b) && Permuted(a, b) && Cart(lines)
    ensures var rows := Run(map[], steps);
      Subtotal(ActiveBundles(rows, a, at, catalog), lines, rules)
        == Subtotal(ActiveBundles(rows, b, at, catalog), lines, rules)
    ensures var offered := ActiveBundles(Run(map[], steps), a, at, catalog);
      Recipes(offered) && forall ns :: FeasibleChoices(offered, lines, ns) ==>
        Subtotal(offered, lines, rules) <= OrdinarySubtotal(lines, rules) - ChoicesSaving(offered, lines, rules, ns)
  {
    var rows := Run(map[], steps);
    ReachableBundlesDisjoint(steps, a, at, catalog);
    ReachableBundlesDisjoint(steps, b, at, catalog);
    SameListing(rows, a, b, at, catalog);
    SubtotalOrderIndependent(ActiveBundles(rows, a, at, catalog), ActiveBundles(rows, b, at, catalog), lines, rules);
    SubtotalIsOptimal(ActiveBundles(rows, a, at, catalog), lines, rules);
  }

  // --- The operations by what they leave ------------------------------------------------------

  /** What one SKU costs at regular or at current prices. */
  function CentsNow(catalog: Catalog, variantID: int, effective: bool): int {
    if variantID !in catalog then 0
    else if effective then catalog[variantID].effectiveCents
    else catalog[variantID].regularCents
  }

  /** What the whole recipe costs separately. */
  function SeparateNow(f: Form, catalog: Catalog, effective: bool): int {
    Sum(seq(|f.components|, i requires 0 <= i < |f.components| =>
      f.components[i].quantity * CentsNow(catalog, f.components[i].variantID, effective)))
  }

  /** The bundle price saves on the whole recipe and exceeds it short of any one unit. */
  ghost predicate PriceStands(f: Form, catalog: Catalog, effective: bool) {
    && f.priceCents < SeparateNow(f, catalog, effective)
    && forall i :: 0 <= i < |f.components| ==>
      SeparateNow(f, catalog, effective) - CentsNow(catalog, f.components[i].variantID, effective) < f.priceCents
  }

  /** The form on its own: its window is not empty, its SKUs sell, and its price stands at regular
      and at current prices. */
  ghost predicate FormStands(f: Form, catalog: Catalog) {
    && (f.startsAt.Some? && f.endsAt.Some? ==> f.startsAt.value < f.endsAt.value)
    && (forall i :: 0 <= i < |f.components| ==>
      f.components[i].variantID in catalog && catalog[f.components[i].variantID].sellable)
    && PriceStands(f, catalog, false) && PriceStands(f, catalog, true)
  }

  /** An instant from the start on and before the end, where there is one. */
  ghost predicate Within(f: Form, at: int) {
    (f.startsAt.Some? ==> f.startsAt.value <= at) && (f.endsAt.Some? ==> at < f.endsAt.value)
  }

  /** Another recipe in force over one of the SKUs at some instant of the form's window. */
  ghost predicate Clashes(f: Form, row: Row) {
    && !row.deleted && row.form.status == Active
    && (exists i, j :: 0 <= i < |f.components| && 0 <= j < |row.form.components|
          && f.components[i].variantID == row.form.components[j].variantID)
    && exists at :: Within(f, at) && Within(row.form, at)
  }

  ghost predicate Clear(f: Form, rows: map<int, Row>, self: Option<int>) {
    f.status == Active ==> forall id :: id in rows && Some(id) != self ==> !Clashes(f, rows[id])
  }

  lemma PriceMeans(f: Form, catalog: Catalog, effective: bool)
    requires f.components != [] && forall i :: 0 <= i < |f.components| ==> f.components[i].variantID in catalog
    ensures BundleMath.InBounds(f.priceCents, PricedItems(f.components, catalog, effective))
      <==> PriceStands(f, catalog, effective)
  {
    var items := PricedItems(f.components, catalog, effective);
    BundleMath.InBoundsMeans(f.priceCents, items);
    assert Map(BundleMath.FullTerm(), items) == seq(|f.components|, i requires 0 <= i < |f.components| =>
      f.components[i].quantity * CentsNow(catalog, f.components[i].variantID, effective));
    forall i | 0 <= i < |items| ensures items[i].price == CentsNow(catalog, f.components[i].variantID, effective) {}
  }

  lemma DistinctVariants(components: seq<Component>)
    requires SchemaOk(components)
    ensures |VariantsOf(components)| == |components|
  {
    var v := Map((c: Component) => c.variantID, components);
    DistinctCount(v);
    assert VariantsOf(components) == Elements(v) by {
      forall x ensures x in VariantsOf(components) <==> x in Elements(v) {
        if x in VariantsOf(components) {
          var c :| c in components && c.variantID == x;
          var i :| 0 <= i < |components| && components[i] == c;
          assert v[i] == x;
        }
        if x in v {
          var i :| 0 <= i < |v| && v[i] == x;
          assert components[i] in components;
        }
      }
    }
  }

  lemma AllowedMeans(f: Form, catalog: Catalog)
    requires SchemaOk(f.components)
    ensures Allowed(f, catalog) <==> FormStands(f, catalog)
  {
    DistinctVariants(f.components);
    if forall i :: 0 <= i < |f.components| ==> f.components[i].variantID in catalog {
      PriceMeans(f, catalog, false);
      PriceMeans(f, catalog, true);
    }
  }

  lemma ClashMeans(f: Form, row: Row)
    ensures Live(row) && !Apart(f, row.form) <==> Clashes(f, row)
  {
    if Live(row) && !Apart(f, row.form) {
      var at :| InWindow(f, at) && InWindow(row.form, at);
      assert Within(f, at) && Within(row.form, at);
    }
    if Clashes(f, row) {
      var at :| Within(f, at) && Within(row.form, at);
      assert InWindow(f, at) && InWindow(row.form, at);
    }
  }

  lemma ClearMeans(f: Form, rows: map<int, Row>, self: Option<int>)
    ensures FitsSchedule(rows, f, self) <==> Clear(f, rows, self)
  {
    forall id | id in rows ensures Live(rows[id]) && !Apart(f, rows[id].form) <==> Clashes(f, rows[id]) {
      ClashMeans(f, rows[id]);
    }
  }

  /** Creation: what is stored, and which of the two refusals otherwise. */
  lemma CreateMeans(rows: map<int, Row>, id: int, f: Form, catalog: Catalog)
    requires Scheduled(rows) && id !in rows && SchemaOk(f.components) && f.priceCents > 0
    ensures After(rows, Create(id, f, catalog)) ==
      if !FormStands(f, catalog) then (rows, Refused(Validation))
      else if !Clear(f, rows, None) then (rows, Refused(Conflict))
      else (rows[id := Row(f, false)], Done)
  {
    AllowedMeans(f, catalog);
    ClearMeans(f, rows, None);
    if EndAfterStart(f) { ConflictIsOverlap(rows, f, None); }
  }

  /** The patch's value where it has one, the stored one otherwise. */
  ghost predicate Patched<T(!new)>(patch: Option<T>, stored: T, after: T) {
    after == if patch.Some? then patch.value else stored
  }

  /** The row an edit leaves: every field patched or kept, cleared instants included. */
  ghost predicate FieldsPatched(stored: Form, patch: Patch, after: Form) {
    && Patched(patch.status, stored.status, after.status)
    && Patched(patch.startsAt, stored.startsAt, after.startsAt) && Patched(patch.endsAt, stored.endsAt, after.endsAt)
    && Patched(patch.priceCents, stored.priceCents, after.priceCents)
    && Patched(patch.components, stored.components, after.components)
  }

  /** Editing: the stored row with every field patched or kept, if that form stands and clashes
      with no other recipe; no other row changes, and a refusal changes nothing. */
  lemma EditMeans(rows: map<int, Row>, id: int, patch: Patch, catalog: Catalog, f: Form)
    requires Scheduled(rows) && id in rows && !rows[id].deleted && PatchOk(patch)
    requires FieldsPatched(rows[id].form, patch, f)
    ensures After(rows, Update(id, patch, catalog)) ==
      if !FormStands(f, catalog) then (rows, Refused(Validation))
      else if !Clear(f, rows, Some(id)) then (rows, Refused(Conflict))
      else (rows[id := Row(f, false)], Done)
  {
    assert f == Merge(rows[id].form, patch);
    assert RowOk(rows[id]);
    AllowedMeans(f, catalog);
    ClearMeans(f, rows, Some(id));
    if EndAfterStart(f) { ConflictIsOverlap(rows, f, Some(id)); }
  }

  /** Unknown and archived recipes can be neither edited nor archived; archiving ends a live one,
      drops its components and keeps the rest of its row. */
  lemma ArchiveMeans(rows: map<int, Row>, id: int, patch: Patch, catalog: Catalog)
    requires PatchOk(patch)
    ensures id !in rows || rows[id].deleted ==>
      && After(rows, Archive(id)) == (rows, Refused(NotFound))
      && After(rows, Update(id, patch, catalog)) == (rows, Refused(NotFound))
    ensures id in rows && !rows[id].deleted ==>
      var f := rows[id].form;
      After(rows, Archive(id)) == (rows[id := Row(Form(Ended, f.startsAt, f.endsAt, f.priceCents, []), true)], Done)
  {
  }

  /** What pricing reads at an instant: of the listed rows exactly the live active ones whose window
      holds it and whose SKUs all sell, with their price and components. */
  lemma ActiveMeans(rows: map<int, Row>, order: seq<int>, at: int, catalog: Catalog, b: BundleCandidate)
    ensures b in ActiveBundles(rows, order, at, catalog) <==>
      && b.id in order && b.id in rows && !rows[b.id].deleted && rows[b.id].form.status == Active
      && Within(rows[b.id].form, at)
      && (forall i :: 0 <= i < |b.components| ==>
        b.components[i].variantID in catalog && catalog[b.components[i].variantID].sellable)
      && b.priceCents == rows[b.id].form.priceCents && b.components == rows[b.id].form.components
  {
    ActiveAre(rows, order, at, catalog, b);
  }
}
