/** Vocabulary shared by every component: results that may carry a rejection,
    optional values, and sums over sequences of cents. */
module Common {

  datatype Option<+T> = None | Some(value: T)

  /** The exceptions the services throw, reduced to their kind. */
  datatype Rejection =
    | InvalidMoney
    | NothingToAllocate
    | CouponTooLarge
    | BundlesExcludeCoupons
    | InvalidSnapshot
    | Unreconciled
    | InvalidQuantity
    | Conflict
    | Validation
    | NotFound

  datatype Result<+T> = Ok(value: T) | Err(why: Rejection)

  function Min(a: int, b: int): int { if a <= b then a else b }

  function Max(a: int, b: int): int { if a <= b then b else a }

  /** A product by repeated addition, which keeps nonlinear arithmetic out of proofs that do not need it. */
  function Times(n: nat, q: int): int {
    if n == 0 then 0 else Times(n - 1, q) + q
  }

  lemma {:induction false} TimesIs(n: nat, q: int)
    ensures Times(n, q) == n * q
  {
    if n > 0 {
      TimesIs(n - 1, q);
      assert n * q == (n - 1) * q + q;
    }
  }

  lemma MulOrder(a: int, b: int, c: int)
    requires a <= b && 0 <= c
    ensures a * c <= b * c
  {
    assert (b - a) * c >= 0;
  }

  lemma CancelFactor(a: int, b: int, c: int)
    requires a * c < b * c && 0 <= c
    ensures a < b
  {
    if b <= a { MulOrder(b, a, c); }
  }

  function Sum(s: seq<int>): int {
    if s == [] then 0 else s[0] + Sum(s[1..])
  }

  ghost predicate NonNegative(s: seq<int>) {
    forall i :: 0 <= i < |s| ==> 0 <= s[i]
  }

  predicate Distinct<T(==)>(s: seq<T>) {
    forall i, j :: 0 <= i < j < |s| ==> s[i] != s[j]
  }

  function Fill<T>(n: nat, x: T): seq<T> { seq(n, _ => x) }

  lemma {:induction false} SumAppend(a: seq<int>, b: seq<int>)
    ensures Sum(a + b) == Sum(a) + Sum(b)
  {
    if a == [] {
      assert a + b == b;
    } else {
      assert (a + b)[1..] == a[1..] + b;
      SumAppend(a[1..], b);
    }
  }

  lemma {:induction false} SumFill(n: nat, x: int)
    ensures Sum(Fill(n, x)) == n * x
  {
    if n > 0 {
      assert Fill(n, x)[1..] == Fill(n - 1, x);
      SumFill(n - 1, x);
      assert n * x == (n - 1) * x + x;
    }
  }

  /** A pointwise split of a sequence splits its sum. */
  lemma {:induction false} SumPlus(a: seq<int>, b: seq<int>, c: seq<int>)
    requires |a| == |b| == |c|
    requires forall i :: 0 <= i < |a| ==> a[i] == b[i] + c[i]
    ensures Sum(a) == Sum(b) + Sum(c)
  {
    if a != [] { SumPlus(a[1..], b[1..], c[1..]); }
  }

  lemma {:induction false} SumScale(a: seq<int>, b: seq<int>, factor: int)
    requires |a| == |b|
    requires forall i :: 0 <= i < |a| ==> a[i] == factor * b[i]
    ensures Sum(a) == factor * Sum(b)
  {
    if a != [] {
      SumScale(a[1..], b[1..], factor);
      assert factor * Sum(b) == factor * b[0] + factor * Sum(b[1..]);
    }
  }

  lemma {:induction false} SumAtMost(a: seq<int>, b: seq<int>)
    requires |a| == |b|
    requires forall i :: 0 <= i < |a| ==> a[i] <= b[i]
    ensures Sum(a) <= Sum(b)
  {
    if a != [] { SumAtMost(a[1..], b[1..]); }
  }

  lemma {:induction false} SumNonNegative(a: seq<int>)
    requires NonNegative(a)
    ensures 0 <= Sum(a)
    ensures forall i :: 0 <= i < |a| ==> a[i] <= Sum(a)
  {
    if a != [] {
      SumNonNegative(a[1..]);
      forall i | 0 <= i < |a| ensures a[i] <= Sum(a) {
        if i > 0 { assert a[i] == a[1..][i - 1]; }
      }
    }
  }

  lemma {:induction false} SumUpdate(a: seq<int>, i: int, x: int)
    requires 0 <= i < |a|
    ensures Sum(a[i := x]) == Sum(a) - a[i] + x
  {
    if i > 0 {
      assert a[i := x][1..] == a[1..][i - 1 := x];
      SumUpdate(a[1..], i - 1, x);
    } else {
      assert a[i := x][1..] == a[1..];
    }
  }

  /** All the elements are zero exactly when a nonnegative sum is. */
  lemma {:induction false} SumZero(a: seq<int>)
    requires NonNegative(a)
    ensures Sum(a) == 0 <==> forall i :: 0 <= i < |a| ==> a[i] == 0
  {
    if a != [] {
      SumZero(a[1..]);
      SumNonNegative(a[1..]);
      assert (forall i :: 0 <= i < |a| ==> a[i] == 0) ==> forall i :: 0 <= i < |a[1..]| ==> a[1..][i] == 0;
      if Sum(a) == 0 {
        forall i | 0 <= i < |a| ensures a[i] == 0 {
          if i > 0 { assert a[i] == a[1..][i - 1]; }
        }
      }
    }
  }

  /** The elements of a sequence, as a set. */
  function Elements<T>(s: seq<T>): set<T> { set x | x in s }

  lemma {:induction false} DistinctCount<T>(s: seq<T>)
    requires Distinct(s)
    ensures |Elements(s)| == |s|
  {
    if s != [] {
      assert Elements(s) == {s[0]} + Elements(s[1..]);
      DistinctCount(s[1..]);
    }
  }

  function Map<T, U>(f: T -> U, s: seq<T>): (r: seq<U>)
    ensures |r| == |s|
  {
    seq(|s|, i requires 0 <= i < |s| => f(s[i]))
  }

  /** Same elements, each as often. */
  ghost predicate Permuted<T>(a: seq<T>, b: seq<T>) { multiset(a) == multiset(b) }

  lemma SameElements<T>(a: seq<T>, b: seq<T>)
    requires Permuted(a, b)
    ensures |a| == |b|
    ensures forall x :: x in a <==> x in b
  {
    assert |multiset(a)| == |a| && |multiset(b)| == |b|;
    forall x ensures x in a <==> x in b {
      assert x in a <==> x in multiset(a);
      assert x in b <==> x in multiset(b);
    }
  }

  lemma Without<T>(s: seq<T>, j: nat)
    requires j < |s|
    ensures multiset(s[..j] + s[j + 1..]) == multiset(s) - multiset{s[j]}
  {
    assert s == s[..j] + [s[j]] + s[j + 1..];
  }

  /** Where the first element of `a` sits in its permutation `b`. */
  lemma Removal<T>(a: seq<T>, b: seq<T>) returns (j: nat)
    requires Permuted(a, b) && a != []
    ensures j < |b| && b[j] == a[0] && Permuted(a[1..], b[..j] + b[j + 1..])
  {
    SameElements(a, b);
    assert a[0] in b;
    j :| 0 <= j < |b| && b[j] == a[0];
    Without(a, 0);
    Without(b, j);
    assert a[..0] + a[1..] == a[1..];
  }

  lemma {:induction false} MapPermuted<T, U>(f: T -> U, a: seq<T>, b: seq<T>)
    requires Permuted(a, b)
    ensures Permuted(Map(f, a), Map(f, b))
  {
    SameElements(a, b);
    if a != [] {
      var j := Removal(a, b);
      var c := b[..j] + b[j + 1..];
      MapPermuted(f, a[1..], c);
      assert Map(f, a) == [f(a[0])] + Map(f, a[1..]);
      assert Map(f, b) == Map(f, b[..j]) + [f(b[j])] + Map(f, b[j + 1..]);
      assert Map(f, c) == Map(f, b[..j]) + Map(f, b[j + 1..]);
    }
  }

  lemma {:induction false} SumPermuted(a: seq<int>, b: seq<int>)
    requires Permuted(a, b)
    ensures Sum(a) == Sum(b)
  {
    SameElements(a, b);
    if a != [] {
      var j := Removal(a, b);
      SumPermuted(a[1..], b[..j] + b[j + 1..]);
      SumAppend(b[..j], b[j + 1..]);
      SumAppend(b[..j], b[j..]);
      assert b == b[..j] + b[j..] && b[j..][1..] == b[j + 1..];
    }
  }

  lemma DistinctPermuted<T>(a: seq<T>, b: seq<T>)
    requires Permuted(a, b) && Distinct(a)
    ensures Distinct(b)
  {
    forall i, j | 0 <= i < j < |b| ensures b[i] != b[j] {
      if b[i] == b[j] {
        assert b == b[..j] + b[j..] && b[i] in b[..j] && b[i] in b[j..];
        assert multiset(b)[b[i]] >= 2;
        MultiplicityAtMostOne(a, b[i]);
        assert false;
      }
    }
  }

  lemma {:induction false} MultiplicityAtMostOne<T>(a: seq<T>, x: T)
    requires Distinct(a)
    ensures multiset(a)[x] <= 1
  {
    if a != [] {
      assert a == [a[0]] + a[1..];
      MultiplicityAtMostOne(a[1..], x);
      if x == a[0] {
        assert x !in a[1..];
      }
    }
  }
}
