/** Largest-remainder rounding, the rule behind both money splitters
    (backend/src/lib/allocate-cents.ts, backend/src/lib/refund-allocation.ts).
    Every exact quota `nums[i] / den` is floored, and the cents lost by flooring
    go one each to the parts with the largest remainders, ties to the smaller key. */
module LargestRemainder {
  import opened Common

  /** `key` breaks ties: the input position for one splitter, the line id for the other. */
  datatype Part = Part(key: int, remainder: int)

  predicate Before(a: Part, b: Part) {
    a.remainder > b.remainder || (a.remainder == b.remainder && a.key < b.key)
  }

  predicate Sorted(s: seq<Part>) {
    forall i, j :: 0 <= i < j < |s| ==> Before(s[i], s[j])
  }

  ghost predicate DistinctKeys(s: seq<Part>) {
    forall i, j :: 0 <= i < j < |s| ==> s[i].key != s[j].key
  }

  function Insert(p: Part, s: seq<Part>): (r: seq<Part>)
    ensures multiset(r) == multiset{p} + multiset(s)
  {
    if s == [] || Before(p, s[0]) then [p] + s
    else
      assert s == [s[0]] + s[1..];
      [s[0]] + Insert(p, s[1..])
  }

  /** Array.prototype.sort under the comparator above. */
  function Ranked(s: seq<Part>): (r: seq<Part>)
    ensures multiset(r) == multiset(s)
  {
    if s == [] then []
    else
      assert s == [s[0]] + s[1..];
      Insert(s[0], Ranked(s[1..]))
  }

  lemma {:induction false} InsertSorted(p: Part, s: seq<Part>)
    requires Sorted(s)
    requires forall q :: q in s ==> q.key != p.key
    ensures Sorted(Insert(p, s))
  {
    if s != [] && !Before(p, s[0]) {
      InsertSorted(p, s[1..]);
      var r := Insert(p, s[1..]);
      SameElements(r, [p] + s[1..]);
      forall j | 0 <= j < |r| ensures Before(s[0], r[j]) {
        assert r[j] in [p] + s[1..];
      }
    }
  }

  lemma {:induction false} RankedSorted(s: seq<Part>)
    requires DistinctKeys(s)
    ensures Sorted(Ranked(s))
  {
    if s != [] {
      RankedSorted(s[1..]);
      SameElements(Ranked(s[1..]), s[1..]);
      InsertSorted(s[0], Ranked(s[1..]));
    }
  }

  /** The comparator is total on distinct keys, so the ranking does not depend on
      the order in which the parts arrive, nor on the sorting algorithm. */
  lemma {:induction false} SortedUnique(a: seq<Part>, b: seq<Part>)
    requires Sorted(a) && Sorted(b) && Permuted(a, b)
    ensures a == b
  {
    SameElements(a, b);
    if a != [] {
      assert a[0] in b && b[0] in a;
      assert a == [a[0]] + a[1..] && b == [b[0]] + b[1..];
      assert a[0] == b[0];
      assert multiset(a[1..]) == multiset(a) - multiset{a[0]};
      assert multiset(b[1..]) == multiset(b) - multiset{b[0]};
      SortedUnique(a[1..], b[1..]);
    }
  }

  lemma RankingUnique(a: seq<Part>, b: seq<Part>)
    requires DistinctKeys(a) && DistinctKeys(b) && Permuted(a, b)
    ensures Ranked(a) == Ranked(b)
  {
    RankedSorted(a);
    RankedSorted(b);
    SortedUnique(Ranked(a), Ranked(b));
  }

  function Parts(nums: seq<int>, den: int, keys: seq<int>): (r: seq<Part>)
    requires den > 0 && |nums| == |keys|
    ensures |r| == |nums| && forall i :: 0 <= i < |r| ==> r[i].key == keys[i]
  {
    if nums == [] then [] else [Part(keys[0], nums[0] % den)] + Parts(nums[1..], den, keys[1..])
  }

  function Floors(nums: seq<int>, den: int): (r: seq<int>)
    requires den > 0
    ensures |r| == |nums|
  {
    if nums == [] then [] else [nums[0] / den] + Floors(nums[1..], den)
  }

  /** Both splits of a quota, position by position. */
  lemma {:induction false} QuotaAt(nums: seq<int>, den: int, keys: seq<int>, i: int)
    requires den > 0 && |nums| == |keys| && 0 <= i < |nums|
    ensures Floors(nums, den)[i] == nums[i] / den
    ensures Parts(nums, den, keys)[i] == Part(keys[i], nums[i] % den)
  {
    if i > 0 { QuotaAt(nums[1..], den, keys[1..], i - 1); }
  }

  lemma RemainderRange(nums: seq<int>, den: int, keys: seq<int>)
    requires den > 0 && |nums| == |keys|
    ensures forall i :: 0 <= i < |nums| ==> 0 <= Parts(nums, den, keys)[i].remainder < den
  {
    forall i | 0 <= i < |nums| ensures 0 <= Parts(nums, den, keys)[i].remainder < den {
      QuotaAt(nums, den, keys, i);
    }
  }

  /** The parts that receive one extra cent when `k` cents are left over. */
  function Winners(ranked: seq<Part>, k: int): set<Part>
    requires 0 <= k <= |ranked|
  {
    Elements(ranked[..k])
  }

  function Bonus(parts: seq<Part>, winners: set<Part>): seq<int> {
    seq(|parts|, i requires 0 <= i < |parts| => if parts[i] in winners then 1 else 0)
  }

  /** A split of `total` over exact quotas `nums[i] / den`. */
  ghost predicate Quotas(total: int, nums: seq<int>, den: int, keys: seq<int>) {
    && den > 0 && |nums| == |keys| > 0
    && NonNegative(nums) && Sum(nums) == total * den
    && Distinct(keys)
  }

  function Leftover(total: int, nums: seq<int>, den: int): int
    requires den > 0
  {
    total - Sum(Floors(nums, den))
  }

  function Remainders(s: seq<Part>): seq<int> {
    seq(|s|, i requires 0 <= i < |s| => s[i].remainder)
  }

  lemma {:induction false} LeftoverIsRemainders(nums: seq<int>, den: int, keys: seq<int>)
    requires den > 0 && |nums| == |keys|
    ensures Sum(nums) == den * Sum(Floors(nums, den)) + Sum(Remainders(Parts(nums, den, keys)))
  {
    if nums != [] {
      LeftoverIsRemainders(nums[1..], den, keys[1..]);
      assert Remainders(Parts(nums, den, keys))[1..] == Remainders(Parts(nums[1..], den, keys[1..]));
      var f, g := nums[0] / den, Sum(Floors(nums[1..], den));
      assert den * (f + g) == den * f + den * g;
    }
  }

  lemma {:induction false} RemaindersBound(s: seq<Part>, den: int)
    requires forall i :: 0 <= i < |s| ==> 0 <= s[i].remainder < den
    ensures 0 <= Sum(Remainders(s)) <= |s| * (den - 1)
  {
    if s != [] {
      assert Remainders(s)[1..] == Remainders(s[1..]);
      RemaindersBound(s[1..], den);
      assert |s| * (den - 1) == (|s| - 1) * (den - 1) + (den - 1);
    }
  }

  lemma LeftoverArithmetic(total: int, floors: int, remainders: int, n: int, den: int)
    requires den > 0 && n > 0 && 0 <= remainders <= n * (den - 1)
    requires total * den == den * floors + remainders
    ensures 0 <= total - floors < n && remainders == (total - floors) * den
  {
    var k := total - floors;
    assert k * den == remainders;
    assert n * den == n * (den - 1) + n;
    if k >= n { MulOrder(n, k, den); }
    if k < 0 { MulOrder(k, -1, den); }
  }

  lemma DivModOrder(a: int, b: int, den: int)
    requires den > 0 && a >= b
    ensures a / den >= b / den
    ensures a / den == b / den ==> a % den - b % den == a - b
  {
    var p, q := a / den, b / den;
    assert a == den * p + a % den && b == den * q + b % den;
    if p < q { MulOrder(p, q - 1, den); }
  }

  /** There are fewer cents left over than parts, and none is owed. */
  lemma LeftoverRange(total: int, nums: seq<int>, den: int, keys: seq<int>)
    requires Quotas(total, nums, den, keys)
    ensures 0 <= Leftover(total, nums, den) < |nums|
    ensures Sum(Remainders(Parts(nums, den, keys))) == Leftover(total, nums, den) * den
  {
    LeftoverIsRemainders(nums, den, keys);
    var parts := Parts(nums, den, keys);
    RemainderRange(nums, den, keys);
    RemaindersBound(parts, den);
    LeftoverArithmetic(total, Sum(Floors(nums, den)), Sum(Remainders(parts)), |nums|, den);
  }

  function TopUp(floors: seq<int>, bonus: seq<int>): seq<int>
    requires |floors| == |bonus|
  {
    seq(|floors|, i requires 0 <= i < |floors| => floors[i] + bonus[i])
  }

  /** The split itself: floors plus one cent for each of the top-ranked parts. */
  function Shares(total: int, nums: seq<int>, den: int, keys: seq<int>): seq<int>
    requires Quotas(total, nums, den, keys)
  {
    RankingReady(total, nums, den, keys);
    var parts := Parts(nums, den, keys);
    TopUp(Floors(nums, den), Bonus(parts, Winners(Ranked(parts), Leftover(total, nums, den))))
  }

  lemma RankingReady(total: int, nums: seq<int>, den: int, keys: seq<int>)
    requires Quotas(total, nums, den, keys)
    ensures var ranked := Ranked(Parts(nums, den, keys));
      |ranked| == |nums| && Sorted(ranked) && 0 <= Leftover(total, nums, den) < |ranked|
  {
    LeftoverRange(total, nums, den, keys);
    RankedSorted(Parts(nums, den, keys));
    SameElements(Ranked(Parts(nums, den, keys)), Parts(nums, den, keys));
  }

  lemma {:induction false} BonusSum(parts: seq<Part>, winners: set<Part>)
    requires Distinct(parts)
    ensures Sum(Bonus(parts, winners)) == |winners * Elements(parts)|
  {
    if parts == [] {
      assert winners * Elements(parts) == {};
    } else {
      BonusSum(parts[1..], winners);
      assert Bonus(parts, winners)[1..] == Bonus(parts[1..], winners);
      var rest := winners * Elements(parts[1..]);
      if parts[0] in winners {
        assert winners * Elements(parts) == {parts[0]} + rest;
      } else {
        assert winners * Elements(parts) == rest;
      }
    }
  }

  /** Nothing is lost and nothing is invented: the shares sum to the total. */
  lemma SharesSum(total: int, nums: seq<int>, den: int, keys: seq<int>)
    requires Quotas(total, nums, den, keys)
    ensures Sum(Shares(total, nums, den, keys)) == total
  {
    LeftoverRange(total, nums, den, keys);
    var parts := Parts(nums, den, keys);
    var k := Leftover(total, nums, den);
    var ranked := Ranked(parts);
    RankedSorted(parts);
    SameElements(ranked, parts);
    var w := Winners(ranked, k);
    assert Distinct(ranked[..k]);
    DistinctCount(ranked[..k]);
    assert w * Elements(parts) == w;
    BonusSum(parts, w);
    SumPlus(Shares(total, nums, den, keys), Floors(nums, den), Bonus(parts, w));
  }

  lemma {:induction false} RemaindersInsert(p: Part, s: seq<Part>)
    ensures Sum(Remainders(Insert(p, s))) == p.remainder + Sum(Remainders(s))
  {
    if s == [] || Before(p, s[0]) {
      assert Remainders([p] + s)[1..] == Remainders(s);
    } else {
      RemaindersInsert(p, s[1..]);
      var tail := Insert(p, s[1..]);
      assert Remainders([s[0]] + tail)[1..] == Remainders(tail);
      assert Remainders(s)[1..] == Remainders(s[1..]);
    }
  }

  lemma {:induction false} RemaindersRanked(s: seq<Part>)
    ensures Sum(Remainders(Ranked(s))) == Sum(Remainders(s))
  {
    if s != [] {
      RemaindersRanked(s[1..]);
      RemaindersInsert(s[0], Ranked(s[1..]));
      assert Remainders(s)[1..] == Remainders(s[1..]);
    }
  }

  lemma TooFewCents(m: int, k: int, den: int)
    requires 0 <= m < k && den > 0
    ensures m * (den - 1) < k * den
  {
    MulOrder(m, k - 1, den);
    assert m * (den - 1) == m * den - m;
    assert k * den == (k - 1) * den + den;
  }

  lemma WinnerHasRemainder(ranked: seq<Part>, den: int, k: int, m: int)
    requires Sorted(ranked) && forall i :: 0 <= i < |ranked| ==> 0 <= ranked[i].remainder < den
    requires Sum(Remainders(ranked)) == k * den && 0 <= m < k && m < |ranked|
    ensures ranked[m].remainder > 0
  {
    if ranked[m].remainder == 0 {
      assert Remainders(ranked) == Remainders(ranked[..m]) + Remainders(ranked[m..]);
      SumAppend(Remainders(ranked[..m]), Remainders(ranked[m..]));
      RemaindersBound(ranked[..m], den);
      forall i | 0 <= i < |Remainders(ranked[m..])| ensures Remainders(ranked[m..])[i] == 0 {
        if i > 0 { assert Before(ranked[m], ranked[m + i]); }
      }
      SumZero(Remainders(ranked[m..]));
      TooFewCents(m, k, den);
      assert false;
    }
  }

  /** A part whose quota is exact never ranks among the winners. */
  lemma WinnersHaveRemainder(total: int, nums: seq<int>, den: int, keys: seq<int>, m: int)
    requires Quotas(total, nums, den, keys)
    requires 0 <= m < Leftover(total, nums, den)
    ensures m < |Ranked(Parts(nums, den, keys))| && Ranked(Parts(nums, den, keys))[m].remainder > 0
  {
    var parts := Parts(nums, den, keys);
    RankingReady(total, nums, den, keys);
    LeftoverRange(total, nums, den, keys);
    SameElements(Ranked(parts), parts);
    RemainderRange(nums, den, keys);
    RemaindersRanked(parts);
    forall i | 0 <= i < |Ranked(parts)| ensures 0 <= Ranked(parts)[i].remainder < den {
      assert Ranked(parts)[i] in parts;
    }
    WinnerHasRemainder(Ranked(parts), den, Leftover(total, nums, den), m);
  }

  /** Every share is the floor or the ceiling of its exact quota, and an exact
      quota is paid exactly. */
  lemma SharesRound(total: int, nums: seq<int>, den: int, keys: seq<int>, i: int)
    requires Quotas(total, nums, den, keys) && 0 <= i < |nums|
    ensures Shares(total, nums, den, keys)[i] == nums[i] / den || Shares(total, nums, den, keys)[i] == nums[i] / den + 1
    ensures nums[i] % den == 0 ==> Shares(total, nums, den, keys)[i] == nums[i] / den
  {
    QuotaAt(nums, den, keys, i);
    LeftoverRange(total, nums, den, keys);
    var parts := Parts(nums, den, keys);
    var k := Leftover(total, nums, den);
    SameElements(Ranked(parts), parts);
    if parts[i] in Winners(Ranked(parts), k) {
      var m :| 0 <= m < k && Ranked(parts)[m] == parts[i];
      WinnersHaveRemainder(total, nums, den, keys, m);
    }
  }

  lemma SharesNonNegative(total: int, nums: seq<int>, den: int, keys: seq<int>)
    requires Quotas(total, nums, den, keys)
    ensures NonNegative(Shares(total, nums, den, keys))
  {
    var shares := Shares(total, nums, den, keys);
    forall i | 0 <= i < |shares| ensures 0 <= shares[i] {
      SharesRound(total, nums, den, keys, i);
      DivModOrder(nums[i], 0, den);
    }
  }

  /** A larger quota never receives less, and of two equal quotas the smaller key
      receives no less. */
  lemma SharesMonotone(total: int, nums: seq<int>, den: int, keys: seq<int>, i: int, j: int)
    requires Quotas(total, nums, den, keys) && 0 <= i < |nums| && 0 <= j < |nums|
    requires nums[i] > nums[j] || (nums[i] == nums[j] && keys[i] < keys[j])
    ensures Shares(total, nums, den, keys)[i] >= Shares(total, nums, den, keys)[j]
  {
    LeftoverRange(total, nums, den, keys);
    SharesRound(total, nums, den, keys, i);
    SharesRound(total, nums, den, keys, j);
    var parts := Parts(nums, den, keys);
    var k := Leftover(total, nums, den);
    var ranked := Ranked(parts);
    SameElements(ranked, parts);
    DivModOrder(nums[i], nums[j], den);
    QuotaAt(nums, den, keys, i);
    QuotaAt(nums, den, keys, j);
    if nums[i] / den == nums[j] / den && parts[j] in Winners(ranked, k) {
      assert Before(parts[i], parts[j]);
      RankedSorted(parts);
      var m :| 0 <= m < k && ranked[m] == parts[j];
      assert parts[i] in ranked;
      var l :| 0 <= l < |ranked| && ranked[l] == parts[i];
      if l > m { assert false; }
      assert ranked[..k][l] == parts[i];
    }
  }

  // --- The split by what it gives, not by how it is made ---------------------------------

  ghost predicate Topped(num: int, den: int, share: int)
    requires den > 0
  {
    share == num / den + 1
  }

  /** One entry goes before another when cents run out: larger remainder, then smaller key. */
  ghost predicate Sooner(num1: int, key1: int, num2: int, key2: int, den: int)
    requires den > 0
  {
    num1 % den > num2 % den || (num1 % den == num2 % den && key1 < key2)
  }

  /** The shares sum to the total, each is its quota rounded down or up, an exact quota is paid
      exactly, and whoever got the extra cent goes before everyone who did not. */
  ghost predicate LargestRemainderSplit(total: int, nums: seq<int>, den: int, keys: seq<int>, shares: seq<int>) {
    && |shares| == |nums| == |keys| && Sum(shares) == total && (nums != [] ==> den > 0)
    && (forall i :: 0 <= i < |nums| ==>
      && (shares[i] == nums[i] / den || Topped(nums[i], den, shares[i]))
      && (nums[i] % den == 0 ==> shares[i] == nums[i] / den))
    && forall i, j :: 0 <= i < |nums| && 0 <= j < |nums| ==>
      Topped(nums[i], den, shares[i]) && !Topped(nums[j], den, shares[j]) ==>
        Sooner(nums[i], keys[i], nums[j], keys[j], den)
  }

  lemma WinnerIsSooner(ranked: seq<Part>, k: int, p: Part, q: Part)
    requires Sorted(ranked) && 0 <= k <= |ranked| && q in ranked
    requires p in Winners(ranked, k) && q !in Winners(ranked, k)
    ensures Before(p, q)
  {
    var m :| 0 <= m < k && ranked[m] == p;
    var l :| 0 <= l < |ranked| && ranked[l] == q;
    assert forall x :: 0 <= x < k ==> ranked[..k][x] == ranked[x];
  }

  lemma ShareAt(total: int, nums: seq<int>, den: int, keys: seq<int>, i: int)
    requires Quotas(total, nums, den, keys) && 0 <= i < |nums|
    ensures 0 <= Leftover(total, nums, den) <= |Ranked(Parts(nums, den, keys))|
    ensures Parts(nums, den, keys)[i] == Part(keys[i], nums[i] % den)
    ensures Topped(nums[i], den, Shares(total, nums, den, keys)[i])
      <==> Parts(nums, den, keys)[i] in Winners(Ranked(Parts(nums, den, keys)), Leftover(total, nums, den))
  {
    RankingReady(total, nums, den, keys);
    QuotaAt(nums, den, keys, i);
  }

  lemma ToppedSooner(total: int, nums: seq<int>, den: int, keys: seq<int>, i: int, j: int)
    requires Quotas(total, nums, den, keys) && 0 <= i < |nums| && 0 <= j < |nums|
    requires Topped(nums[i], den, Shares(total, nums, den, keys)[i])
    requires !Topped(nums[j], den, Shares(total, nums, den, keys)[j])
    ensures Sooner(nums[i], keys[i], nums[j], keys[j], den)
  {
    var parts := Parts(nums, den, keys);
    RankingReady(total, nums, den, keys);
    SameElements(Ranked(parts), parts);
    ShareAt(total, nums, den, keys, i);
    ShareAt(total, nums, den, keys, j);
    assert parts[j] in Ranked(parts);
    WinnerIsSooner(Ranked(parts), Leftover(total, nums, den), parts[i], parts[j]);
  }

  lemma SharesSplit(total: int, nums: seq<int>, den: int, keys: seq<int>)
    requires Quotas(total, nums, den, keys)
    ensures LargestRemainderSplit(total, nums, den, keys, Shares(total, nums, den, keys))
  {
    var shares := Shares(total, nums, den, keys);
    SharesSum(total, nums, den, keys);
    forall i | 0 <= i < |nums|
      ensures shares[i] == nums[i] / den || Topped(nums[i], den, shares[i])
      ensures nums[i] % den == 0 ==> shares[i] == nums[i] / den
    {
      SharesRound(total, nums, den, keys, i);
    }
    forall i, j |
      0 <= i < |nums| && 0 <= j < |nums| && Topped(nums[i], den, shares[i]) && !Topped(nums[j], den, shares[j])
      ensures Sooner(nums[i], keys[i], nums[j], keys[j], den)
    {
      ToppedSooner(total, nums, den, keys, i, j);
    }
  }

  lemma {:induction false} UnequalSums(a: seq<int>, b: seq<int>) returns (i: nat)
    requires |a| == |b| && a != b && Sum(a) == Sum(b)
    ensures i < |a| && a[i] > b[i]
  {
    if forall k :: 0 <= k < |a| ==> a[k] <= b[k] { StrictSum(a, b); }
    i :| 0 <= i < |a| && a[i] > b[i];
  }

  lemma {:induction false} StrictSum(a: seq<int>, b: seq<int>)
    requires |a| == |b| && a != b && forall k :: 0 <= k < |a| ==> a[k] <= b[k]
    ensures Sum(a) < Sum(b)
  {
    if a[0] == b[0] {
      assert a == [a[0]] + a[1..] && b == [b[0]] + b[1..];
      StrictSum(a[1..], b[1..]);
    } else {
      SumAtMost(a[1..], b[1..]);
    }
  }

  lemma SplitOrders(total: int, nums: seq<int>, den: int, keys: seq<int>, shares: seq<int>, i: int, j: int)
    requires LargestRemainderSplit(total, nums, den, keys, shares)
    requires den > 0 && 0 <= i < |nums| && 0 <= j < |nums|
    ensures Topped(nums[i], den, shares[i]) && !Topped(nums[j], den, shares[j])
      ==> Sooner(nums[i], keys[i], nums[j], keys[j], den)
  {
  }

  lemma LargerIsTopped(total: int, nums: seq<int>, den: int, keys: seq<int>, a: seq<int>, b: seq<int>, i: int)
    requires LargestRemainderSplit(total, nums, den, keys, a) && LargestRemainderSplit(total, nums, den, keys, b)
    requires 0 <= i < |nums| && a[i] > b[i]
    ensures den > 0 && Topped(nums[i], den, a[i]) && !Topped(nums[i], den, b[i])
  {
  }

  /** There is one such split, so the description leaves nothing open. */
  lemma SplitUnique(total: int, nums: seq<int>, den: int, keys: seq<int>, a: seq<int>, b: seq<int>)
    requires LargestRemainderSplit(total, nums, den, keys, a) && LargestRemainderSplit(total, nums, den, keys, b)
    ensures a == b
  {
    if a != b {
      var i := UnequalSums(a, b);
      var j := UnequalSums(b, a);
      LargerIsTopped(total, nums, den, keys, a, b, i);
      LargerIsTopped(total, nums, den, keys, b, a, j);
      SplitOrders(total, nums, den, keys, a, i, j);
      SplitOrders(total, nums, den, keys, b, j, i);
      assert false;
    }
  }
}
