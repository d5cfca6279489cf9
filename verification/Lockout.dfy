/** The lockout shared by both sign-in doors (backend/src/modules/auth/auth.service.ts:228-324,
    backend/src/modules/auth/admin-auth.service.ts:82-140). Attempts on one account are serialized. */
module Lockout {
  import opened Common

  const LOCK_THRESHOLD := 5
  const LOCK_MS := 15 * 60_000
  const ADMIN_LOCK_THRESHOLD := 5
  const ADMIN_LOCK_MS := 30 * 60_000

  /** What the row says of the account besides the counter. */
  datatype Facts = Facts(privileged: bool, active: bool, hasPassword: bool, emailVerified: bool)

  datatype Counter = Counter(failed: nat, lockedUntil: Option<int>)

  datatype Outcome =
    Success | InvalidCredentials | LockedOut | PrivilegedDenied | EmailUnverified | AccountBlocked | NotAdmin

  /** One attempt on the account; `passwordValid` is what the hash comparison said. */
  datatype Attempt = Attempt(adminDoor: bool, at: int, facts: Facts, passwordValid: bool)

  predicate Locked(c: Counter, now: int) { c.lockedUntil.Some? && c.lockedUntil.value > now }

  function Failed(c: Counter, now: int, threshold: nat, lockMs: int): Counter {
    Counter(c.failed + 1, if c.failed + 1 >= threshold then Some(now + lockMs) else None)
  }

  const CLEAR := Counter(0, None)

  function AtCustomerDoor(c: Counter, a: Attempt): (Counter, Outcome) {
    var loginable := a.facts.active && a.facts.hasPassword;
    var valid := a.facts.hasPassword && a.passwordValid;
    if a.facts.privileged then (c, PrivilegedDenied)
    else if Locked(c, a.at) then (c, LockedOut)
    else if valid && !a.facts.active then (c, AccountBlocked)
    else if !loginable then (c, InvalidCredentials)
    else if !valid then (Failed(c, a.at, LOCK_THRESHOLD, LOCK_MS), InvalidCredentials)
    else if !a.facts.emailVerified then (c, EmailUnverified)
    else (CLEAR, Success)
  }

  function AtAdminDoor(c: Counter, a: Attempt): (Counter, Outcome) {
    var loginable := a.facts.active && a.facts.hasPassword;
    if Locked(c, a.at) then (c, LockedOut)
    else if !loginable then (c, InvalidCredentials)
    else if !a.passwordValid then (Failed(c, a.at, ADMIN_LOCK_THRESHOLD, ADMIN_LOCK_MS), InvalidCredentials)
    else if !a.facts.privileged then (CLEAR, NotAdmin)
    else (CLEAR, Success)
  }

  function Try(c: Counter, a: Attempt): (Counter, Outcome) {
    if a.adminDoor then AtAdminDoor(c, a) else AtCustomerDoor(c, a)
  }

  /** The user row's two lockout columns. */
  class Account {
    var failedLoginAttempts: nat
    var lockedUntil: Option<int>

    function Columns(): Counter
      reads this
    {
      Counter(failedLoginAttempts, lockedUntil)
    }

    method ClearLockState()
      modifies this
      ensures Columns() == CLEAR
    {
      if failedLoginAttempts > 0 || lockedUntil.Some? {
        failedLoginAttempts, lockedUntil := 0, None;
      }
    }

    method CountFailure(now: int, threshold: nat, lockMs: int)
      modifies this
      ensures Columns() == Failed(old(Columns()), now, threshold, lockMs)
    {
      failedLoginAttempts := failedLoginAttempts + 1;
      lockedUntil := if failedLoginAttempts >= threshold then Some(now + lockMs) else None;
    }

    method Login(a: Attempt) returns (r: Outcome)
      modifies this
      ensures (Columns(), r) == AtCustomerDoor(old(Columns()), a)
      ensures old(lockedUntil).Some? && old(lockedUntil).value > a.at ==>
        r in {LockedOut, PrivilegedDenied} && Columns() == old(Columns())
    {
      var loginable := a.facts.active && a.facts.hasPassword;
      var passwordValid := a.facts.hasPassword && a.passwordValid;
      if a.facts.privileged { return PrivilegedDenied; }
      if lockedUntil.Some? && lockedUntil.value > a.at { return LockedOut; }
      if passwordValid && !a.facts.active { return AccountBlocked; }
      if !loginable || !passwordValid {
        if loginable { CountFailure(a.at, LOCK_THRESHOLD, LOCK_MS); }
        return InvalidCredentials;
      }
      if !a.facts.emailVerified { return EmailUnverified; }
      ClearLockState();
      r := Success;
    }

    method AdminLogin(a: Attempt) returns (r: Outcome)
      modifies this
      ensures (Columns(), r) == AtAdminDoor(old(Columns()), a)
      ensures old(lockedUntil).Some? && old(lockedUntil).value > a.at ==>
        r == LockedOut && Columns() == old(Columns())
    {
      var loginable := a.facts.active && a.facts.hasPassword;
      if lockedUntil.Some? && lockedUntil.value > a.at { return LockedOut; }
      if !loginable || !a.passwordValid {
        if loginable { CountFailure(a.at, ADMIN_LOCK_THRESHOLD, ADMIN_LOCK_MS); }
        return InvalidCredentials;
      }
      ClearLockState();
      r := if a.facts.privileged then Success else NotAdmin;
    }
  }

  // --- Runs of attempts ------------------------------------------------------------------------

  predicate Advances(c: Counter, a: Attempt) { Try(c, a).0.failed == c.failed + 1 }

  function After(c: Counter, attempts: seq<Attempt>): Counter {
    if attempts == [] then c else Try(After(c, attempts[..|attempts| - 1]), attempts[|attempts| - 1]).0
  }

  /** How many attempts advance the failure counter. */
  function Advancing(c: Counter, attempts: seq<Attempt>): nat {
    if attempts == [] then 0
    else
      var earlier, last := attempts[..|attempts| - 1], attempts[|attempts| - 1];
      Advancing(c, earlier) + if Advances(After(c, earlier), last) then 1 else 0
  }

  /** No attempt succeeds or presents the right password at the wrong door. */
  ghost predicate NoneClears(c: Counter, attempts: seq<Attempt>) {
    forall i :: 0 <= i < |attempts| ==> Try(After(c, attempts[..i]), attempts[i]).1 !in {Success, NotAdmin}
  }

  /** In order of time, all within `length` milliseconds of `start`. */
  ghost predicate WithinSpan(attempts: seq<Attempt>, start: int, length: int) {
    && (forall i :: 0 <= i < |attempts| ==> start <= attempts[i].at <= start + length)
    && forall i, j :: 0 <= i < j < |attempts| ==> attempts[i].at <= attempts[j].at
  }

  /** An attempt advances the counter exactly when no lock stands and a wrong password is
      offered for a usable account; the customer door also turns privileged accounts away. */
  lemma AdvancesWhen(c: Counter, a: Attempt)
    ensures Advances(c, a) <==>
      && !Locked(c, a.at) && a.facts.active && a.facts.hasPassword && !a.passwordValid
      && (a.facts.privileged ==> a.adminDoor)
  {
  }

  /** The counter has kept pace, and from the fifth advance on it locks for a quarter of an hour. */
  ghost predicate Paced(c: Counter, n: nat, start: int) {
    && c.failed >= n
    && (n >= LOCK_THRESHOLD ==>
      c.lockedUntil.Some? && c.lockedUntil.value >= start + (n - LOCK_THRESHOLD + 1) * LOCK_MS)
  }

  lemma OneAttemptPaced(c: Counter, a: Attempt, n: nat, start: int)
    requires Paced(c, n, start) && a.at >= start && Try(c, a).1 !in {Success, NotAdmin}
    ensures Paced(Try(c, a).0, if Advances(c, a) then n + 1 else n, start)
    ensures Advances(c, a) && n >= LOCK_THRESHOLD ==> a.at >= start + (n - LOCK_THRESHOLD + 1) * LOCK_MS
  {
    AdvancesWhen(c, a);
    if Advances(c, a) {
      assert (n + 1 - LOCK_THRESHOLD + 1) * LOCK_MS == (n - LOCK_THRESHOLD + 1) * LOCK_MS + LOCK_MS;
    }
  }

  /** `n` advances fit in the span: five, and one more a quarter of an hour. */
  ghost predicate Affordable(n: nat, length: int) { n > LOCK_THRESHOLD ==> (n - LOCK_THRESHOLD) * LOCK_MS <= length }

  lemma OneAttemptWithin(c: Counter, a: Attempt, n: nat, start: int, length: int)
    requires Paced(c, n, start) && start <= a.at <= start + length && Try(c, a).1 !in {Success, NotAdmin}
    requires Affordable(n, length)
    ensures var m := if Advances(c, a) then n + 1 else n;
      Paced(Try(c, a).0, m, start) && Affordable(m, length)
  {
    OneAttemptPaced(c, a, n, start);
  }

  lemma EarlierSpan(c: Counter, attempts: seq<Attempt>, start: int, length: int)
    requires WithinSpan(attempts, start, length) && NoneClears(c, attempts) && attempts != []
    ensures var earlier, last := attempts[..|attempts| - 1], attempts[|attempts| - 1];
      && WithinSpan(earlier, start, length) && NoneClears(c, earlier)
      && start <= last.at <= start + length && Try(After(c, earlier), last).1 !in {Success, NotAdmin}
  {
    var k := |attempts| - 1;
    var earlier := attempts[..k];
    assert Try(After(c, attempts[..k]), attempts[k]).1 !in {Success, NotAdmin};
    forall i | 0 <= i < k ensures Try(After(c, earlier[..i]), earlier[i]).1 !in {Success, NotAdmin} {
      assert earlier[..i] == attempts[..i];
    }
  }

  lemma {:induction false} RunPaced(c: Counter, attempts: seq<Attempt>, start: int, length: int)
    requires WithinSpan(attempts, start, length) && NoneClears(c, attempts)
    ensures Paced(After(c, attempts), Advancing(c, attempts), start)
    ensures Affordable(Advancing(c, attempts), length)
  {
    if attempts != [] {
      EarlierSpan(c, attempts, start, length);
      var earlier, last := attempts[..|attempts| - 1], attempts[|attempts| - 1];
      RunPaced(c, earlier, start, length);
      OneAttemptWithin(After(c, earlier), last, Advancing(c, earlier), start, length);
    }
  }

  /** In any span, across both doors, at most five attempts and one more per quarter of an
      hour advance the counter, whatever state the account was in. */
  lemma GuessRateBounded(c: Counter, attempts: seq<Attempt>, start: int, length: nat)
    requires WithinSpan(attempts, start, length) && NoneClears(c, attempts)
    ensures Advancing(c, attempts) <= LOCK_THRESHOLD + length / LOCK_MS
  {
    RunPaced(c, attempts, start, length);
    FloorAtLeast(Advancing(c, attempts) - LOCK_THRESHOLD, length);
  }

  lemma FloorAtLeast(k: int, length: nat)
    requires k > 0 ==> k * LOCK_MS <= length
    ensures k <= length / LOCK_MS
  {
  }

  // --- Every attempt, door by door -------------------------------------------------------------

  /** What a wrong password does to the counter: one more, and from the fifth on a lock of so many minutes. */
  ghost predicate CountedOnce(c: Counter, d: Counter, at: int, minutes: int) {
    d.failed == c.failed + 1 && d.lockedUntil == if c.failed >= 4 then Some(at + minutes * 60_000) else None
  }

  /** The customer door: each outcome exactly when, and what is left of the counter. */
  lemma CustomerDoorMeans(c: Counter, a: Attempt)
    ensures var (d, r) := AtCustomerDoor(c, a);
      var locked := c.lockedUntil.Some? && c.lockedUntil.value > a.at;
      var right := a.facts.hasPassword && a.passwordValid;
      && (r == PrivilegedDenied <==> a.facts.privileged)
      && (r == LockedOut <==> !a.facts.privileged && locked)
      && (r == AccountBlocked <==> !a.facts.privileged && !locked && right && !a.facts.active)
      && (r == EmailUnverified
          <==> !a.facts.privileged && !locked && right && a.facts.active && !a.facts.emailVerified)
      && (r == Success <==> !a.facts.privileged && !locked && right && a.facts.active && a.facts.emailVerified)
      && (r == InvalidCredentials <==> !a.facts.privileged && !locked && !right)
      && (r == Success ==> d == Counter(0, None))
      && (r == InvalidCredentials && a.facts.active && a.facts.hasPassword ==> CountedOnce(c, d, a.at, 15))
      && (r != Success && !(r == InvalidCredentials && a.facts.active && a.facts.hasPassword) ==> d == c)
  {
  }

  /** The admin door likewise; a right password of a customer clears the counter and is refused. */
  lemma AdminDoorMeans(c: Counter, a: Attempt)
    ensures var (d, r) := AtAdminDoor(c, a);
      var locked := c.lockedUntil.Some? && c.lockedUntil.value > a.at;
      var usable := a.facts.active && a.facts.hasPassword;
      && (r == LockedOut <==> locked)
      && (r == Success <==> !locked && usable && a.passwordValid && a.facts.privileged)
      && (r == NotAdmin <==> !locked && usable && a.passwordValid && !a.facts.privileged)
      && (r == InvalidCredentials <==> !locked && !(usable && a.passwordValid))
      && (r in {Success, NotAdmin} ==> d == Counter(0, None))
      && (r == InvalidCredentials && usable ==> CountedOnce(c, d, a.at, 30))
      && (r == LockedOut || (r == InvalidCredentials && !usable) ==> d == c)
  {
  }

  /** While a lock stands nothing gets in at either door, right passwords included, and the counter
      stays as it is: so the lock ends when it was to end, whatever is tried meanwhile. */
  lemma {:induction false} LockHolds(c: Counter, attempts: seq<Attempt>)
    requires c.lockedUntil.Some? && forall i :: 0 <= i < |attempts| ==> attempts[i].at < c.lockedUntil.value
    ensures After(c, attempts) == c
    ensures forall i :: 0 <= i < |attempts| ==>
      Try(After(c, attempts[..i]), attempts[i]) in {(c, LockedOut), (c, PrivilegedDenied)}
  {
    if attempts != [] {
      var last := |attempts| - 1;
      LockHolds(c, attempts[..last]);
      forall i | 0 <= i < |attempts|
        ensures Try(After(c, attempts[..i]), attempts[i]) in {(c, LockedOut), (c, PrivilegedDenied)}
      {
        assert i < last ==> attempts[..last][..i] == attempts[..i] && attempts[..last][i] == attempts[i];
      }
    }
  }

  /** From a cleared account, five wrong passwords at one door lock it for a quarter of an hour, or
      for half of one; fewer do not. */
  lemma {:induction false} FifthFailureLocks(attempts: seq<Attempt>, admin: bool)
    requires |attempts| <= 5
    requires forall i :: 0 <= i < |attempts| ==>
      && attempts[i].adminDoor == admin && !attempts[i].passwordValid
      && attempts[i].facts.active && attempts[i].facts.hasPassword && (attempts[i].facts.privileged ==> admin)
    ensures After(Counter(0, None), attempts) == Counter(|attempts|,
      if |attempts| == 5 then Some(attempts[4].at + (if admin then 1_800_000 else 900_000)) else None)
  {
    if attempts != [] { FifthFailureLocks(attempts[..|attempts| - 1], admin); }
  }

  // --- The bound is reached --------------------------------------------------------------------

  /** When guess number `i` is made: five at once, then one the moment each lock runs out. */
  function GuessTime(start: int, i: nat): int {
    if i < LOCK_THRESHOLD then start else start + (i - LOCK_THRESHOLD + 1) * LOCK_MS
  }

  function Guesses(start: int, n: nat): (r: seq<Attempt>)
    ensures |r| == n && forall i :: 0 <= i < n ==>
      r[i] == Attempt(false, GuessTime(start, i), Facts(false, true, true, true), false)
  {
    seq(n, i requires 0 <= i < n => Attempt(false, GuessTime(start, i), Facts(false, true, true, true), false))
  }

  lemma {:induction false} EveryGuessCounts(start: int, n: nat)
    ensures Advancing(CLEAR, Guesses(start, n)) == n
    ensures After(CLEAR, Guesses(start, n))
      == Counter(n, if n < LOCK_THRESHOLD then None else Some(GuessTime(start, n)))
  {
    if n > 0 {
      EveryGuessCounts(start, n - 1);
      assert Guesses(start, n)[..n - 1] == Guesses(start, n - 1);
    }
  }

  lemma GuessesInSpan(start: int, length: nat, i: nat)
    requires i < LOCK_THRESHOLD + length / LOCK_MS
    ensures start <= GuessTime(start, i) <= start + length
  {
    assert LOCK_MS * (length / LOCK_MS) <= length;
  }

  /** No smaller bound holds: for every length some run of that span attains it. */
  lemma BoundIsTight(start: int, length: nat)
    ensures var attempts := Guesses(start, LOCK_THRESHOLD + length / LOCK_MS);
      WithinSpan(attempts, start, length) && Advancing(CLEAR, attempts) == LOCK_THRESHOLD + length / LOCK_MS
  {
    var n := LOCK_THRESHOLD + length / LOCK_MS;
    var attempts := Guesses(start, n);
    EveryGuessCounts(start, n);
    forall i | 0 <= i < n ensures start <= attempts[i].at <= start + length { GuessesInSpan(start, length, i); }
  }
}
