/** Proportional integer allocation (backend/src/lib/allocate-cents.ts). */
module AllocateCents {
  import opened Common
  import opened LargestRemainder

  function Positions(n: nat): (r: seq<int>)
    ensures Distinct(r)
  {
    seq(n, i => i)
  }

  predicate AllNonNegative(weights: seq<int>) {
    forall i :: 0 <= i < |weights| ==> 0 <= weights[i]
  }

  /** An all-zero weight list is split evenly. */
  function Denominator(weights: seq<int>): int {
    if Sum(weights) != 0 then Sum(weights) else |weights|
  }

  function Numerators(total: int, weights: seq<int>): seq<int> {
    seq(|weights|, i requires 0 <= i < |weights| => total * (if Sum(weights) != 0 then weights[i] else 1))
  }

  lemma NumeratorsAreQuotas(total: int, weights: seq<int>)
    requires 0 <= total && AllNonNegative(weights) && weights != []
    ensures Quotas(total, Numerators(total, weights), Denominator(weights), Positions(|weights|))
  {
    SumNonNegative(weights);
    var nums := Numerators(total, weights);
    if Sum(weights) != 0 {
      SumScale(nums, weights, total);
      forall i | 0 <= i < |nums| ensures 0 <= nums[i] { MulOrder(0, total, weights[i]); }
    } else {
      SumFill(|weights|, total);
      assert nums == Fill(|weights|, total);
    }
  }

  /** What the splitter answers, rejections included. */
  function Allocate(total: int, weights: seq<int>): Result<seq<int>> {
    if total < 0 || !AllNonNegative(weights) then Err(InvalidMoney)
    else if total == 0 then Ok(Fill(|weights|, 0))
    else if weights == [] then Err(NothingToAllocate)
    else
      NumeratorsAreQuotas(total, weights);
      Ok(Shares(total, Numerators(total, weights), Denominator(weights), Positions(|weights|)))
  }

  /** The in-place loop: one more cent at each of the first positions of the ranking. */
  method BumpRanked(amounts: array<int>, parts: seq<Part>, ranked: seq<Part>, remainder: nat)
    requires amounts.Length == |parts| && Sorted(ranked) && Permuted(ranked, parts) && remainder <= |ranked|
    requires forall i :: 0 <= i < |parts| ==> parts[i].key == i
    modifies amounts
    ensures forall i :: 0 <= i < amounts.Length ==>
      amounts[i] == old(amounts[i]) + (if parts[i] in Winners(ranked, remainder) then 1 else 0)
  {
    SameElements(ranked, parts);
    forall k | 0 <= k < |ranked| ensures 0 <= ranked[k].key < |parts| && parts[ranked[k].key] == ranked[k] {
      assert ranked[k] in parts;
    }
    for i := 0 to remainder
      invariant forall j :: 0 <= j < amounts.Length ==>
        amounts[j] == old(amounts[j]) + (if parts[j] in ranked[..i] then 1 else 0)
    {
      var at := ranked[i].key;
      assert parts[at] !in ranked[..i];
      amounts[at] := amounts[at] + 1;
      assert ranked[..i + 1] == ranked[..i] + [ranked[i]];
    }
  }

  method AllocateCents(total: int, weights: seq<int>) returns (r: Result<seq<int>>)
    ensures r == Allocate(total, weights)
  {
    if total < 0 || !AllNonNegative(weights) { return Err(InvalidMoney); }
    if total == 0 { return Ok(Fill(|weights|, 0)); }
    if weights == [] { return Err(NothingToAllocate); }
    NumeratorsAreQuotas(total, weights);
    var nums, den := Numerators(total, weights), Denominator(weights);
    var floors, parts := Floors(nums, den), Parts(nums, den, Positions(|weights|));
    RankingReady(total, nums, den, Positions(|weights|));
    var cents := Distribute(floors, parts, total - Sum(floors));
    r := Ok(cents);
  }

  method Distribute(floors: seq<int>, parts: seq<Part>, remainder: nat) returns (cents: seq<int>)
    requires |floors| == |parts| && forall i :: 0 <= i < |parts| ==> parts[i].key == i
    requires remainder <= |Ranked(parts)|
    ensures cents == TopUp(floors, Bonus(parts, Winners(Ranked(parts), remainder)))
  {
    var amounts := new int[|floors|](i requires 0 <= i < |floors| => floors[i]);
    RankedSorted(parts);
    BumpRanked(amounts, parts, Ranked(parts), remainder);
    cents := amounts[..];
  }

  /** A money split is exact: the shares sum to the total, none is negative. */
  lemma AllocationExact(total: int, weights: seq<int>)
    requires Allocate(total, weights).Ok?
    ensures var shares := Allocate(total, weights).value;
      |shares| == |weights| && Sum(shares) == total && NonNegative(shares)
  {
    if total == 0 {
      SumFill(|weights|, 0);
    } else {
      NumeratorsAreQuotas(total, weights);
      var nums, den, keys := Numerators(total, weights), Denominator(weights), Positions(|weights|);
      SharesSum(total, nums, den, keys);
      SharesNonNegative(total, nums, den, keys);
    }
  }

  /** Exactly when the splitter refuses. */
  lemma AllocationRefusal(total: int, weights: seq<int>)
    ensures Allocate(total, weights).Err? <==>
      total < 0 || (exists i :: 0 <= i < |weights| && weights[i] < 0) || (total > 0 && weights == [])
  {
  }

  /** `share` is `num / den` rounded down or up, and exact whenever `den` divides `num`. */
  ghost predicate RoundsQuota(num: int, den: int, share: int) {
    && (share - 1) * den < num < (share + 1) * den
    && (num % den == 0 ==> share * den == num)
  }

  lemma RoundedQuota(num: int, den: int, share: int)
    requires den > 0 && (share == num / den || (share == num / den + 1 && num % den != 0))
    ensures RoundsQuota(num, den, share)
  {
    var floor := num / den;
    assert num == floor * den + num % den;
    assert (share - 1) * den == share * den - den && (share + 1) * den == share * den + den;
    assert (floor + 1) * den == floor * den + den;
  }

  lemma DenominatorPositive(weights: seq<int>)
    requires AllNonNegative(weights) && weights != []
    ensures Denominator(weights) > 0
  {
    SumNonNegative(weights);
  }

  /** Each share is its exact quota rounded down or up, and an exact quota is never topped up.
      The quota is `total * weight / sum`, or an even part when nothing weighs anything. */
  lemma AllocationRounds(total: int, weights: seq<int>, i: int)
    requires Allocate(total, weights).Ok? && 0 <= i < |weights|
    ensures RoundsQuota(Numerators(total, weights)[i], Denominator(weights), Allocate(total, weights).value[i])
  {
    DenominatorPositive(weights);
    if total == 0 {
      assert Numerators(total, weights)[i] == 0;
    } else {
      NumeratorsAreQuotas(total, weights);
      SharesRound(total, Numerators(total, weights), Denominator(weights), Positions(|weights|), i);
    }
    RoundedQuota(Numerators(total, weights)[i], Denominator(weights), Allocate(total, weights).value[i]);
  }

  /** A heavier unit never receives less, and among equals the earlier one does not. */
  lemma AllocationMonotone(total: int, weights: seq<int>, i: int, j: int)
    requires Allocate(total, weights).Ok? && 0 <= i < |weights| && 0 <= j < |weights|
    requires weights[i] > weights[j] || (weights[i] == weights[j] && i <= j)
    ensures Allocate(total, weights).value[i] >= Allocate(total, weights).value[j]
  {
    if total > 0 && i != j {
      NumeratorsAreQuotas(total, weights);
      var nums, den, keys := Numerators(total, weights), Denominator(weights), Positions(|weights|);
      SumNonNegative(weights);
      if weights[i] > weights[j] {
        assert nums[i] == total * weights[i] && nums[j] == total * weights[j];
        MulOrder(weights[j] + 1, weights[i], total);
        assert (weights[j] + 1) * total == weights[j] * total + total;
      }
      SharesMonotone(total, nums, den, keys, i, j);
    }
  }

  lemma RoundsCap(total: int, weight: int, sum: int, share: int)
    requires 0 <= weight && 0 <= total <= sum
    requires RoundsQuota(total * weight, sum, share)
    ensures share <= weight
  {
    MulOrder(total, sum, weight);
    CancelFactor(share - 1, weight, sum);
  }

  /** No share exceeds its weight when the total does not exceed the weights: a coupon
      never makes a unit price negative, a bundle never raises one. */
  lemma AllocationCapped(total: int, weights: seq<int>, i: int)
    requires Allocate(total, weights).Ok? && 0 <= i < |weights| && total <= Sum(weights)
    ensures 0 <= Allocate(total, weights).value[i] <= weights[i]
  {
    AllocationExact(total, weights);
    if total > 0 {
      AllocationRounds(total, weights, i);
      assert Numerators(total, weights)[i] == total * weights[i];
      RoundsCap(total, weights[i], Sum(weights), Allocate(total, weights).value[i]);
    }
  }

  // --- The answer by what it gives ---------------------------------------------------------

  /** The split the comment promises: by weight, or evenly where nothing weighs anything, and of
      equal remainders the earlier entry first. */
  ghost predicate SplitsProRata(total: int, weights: seq<int>, shares: seq<int>) {
    var even := Sum(weights) == 0;
    LargestRemainderSplit(total,
      seq(|weights|, i requires 0 <= i < |weights| => if even then total else total * weights[i]),
      if even then |weights| else Sum(weights),
      seq(|weights|, i => i), shares)
  }

  lemma NumeratorsSpelledOut(total: int, weights: seq<int>)
    ensures Numerators(total, weights) ==
      seq(|weights|, i requires 0 <= i < |weights| => if Sum(weights) == 0 then total else total * weights[i])
  {
  }

  lemma SharesAreProRata(total: int, weights: seq<int>)
    requires 0 < total && AllNonNegative(weights) && weights != []
    ensures Allocate(total, weights).Ok? && SplitsProRata(total, weights, Allocate(total, weights).value)
  {
    NumeratorsAreQuotas(total, weights);
    SharesSplit(total, Numerators(total, weights), Denominator(weights), Positions(|weights|));
    NumeratorsSpelledOut(total, weights);
  }

  lemma NothingIsProRata(weights: seq<int>)
    requires AllNonNegative(weights)
    ensures SplitsProRata(0, weights, Fill(|weights|, 0))
  {
    SumFill(|weights|, 0);
    if weights != [] { DenominatorPositive(weights); }
    var even := Sum(weights) == 0;
    var den := if even then |weights| else Sum(weights);
    forall i | 0 <= i < |weights| ensures den > 0 && (if even then 0 else 0 * weights[i]) == 0 {}
  }

  /** The splitter answers with the one pro-rata split, and with nothing else. */
  lemma AllocationIsProRata(total: int, weights: seq<int>, shares: seq<int>)
    requires total >= 0 && AllNonNegative(weights)
    ensures Allocate(total, weights) == Ok(shares) <==> SplitsProRata(total, weights, shares)
  {
    if total == 0 {
      NothingIsProRata(weights);
    } else if weights != [] {
      SharesAreProRata(total, weights);
    }
    if SplitsProRata(total, weights, shares) && Allocate(total, weights).Ok? {
      OneProRataSplit(total, weights, shares, Allocate(total, weights).value);
    }
  }

  lemma AllocatedProRata(total: int, weights: seq<int>)
    requires Allocate(total, weights).Ok?
    ensures total >= 0 && AllNonNegative(weights) && SplitsProRata(total, weights, Allocate(total, weights).value)
  {
    AllocationIsProRata(total, weights, Allocate(total, weights).value);
  }

  lemma OneProRataSplit(total: int, weights: seq<int>, a: seq<int>, b: seq<int>)
    requires SplitsProRata(total, weights, a) && SplitsProRata(total, weights, b)
    ensures a == b
  {
    var even := Sum(weights) == 0;
    SplitUnique(total, seq(|weights|, i requires 0 <= i < |weights| => if even then total else total * weights[i]),
      if even then |weights| else Sum(weights), seq(|weights|, i => i), a, b);
  }
}
