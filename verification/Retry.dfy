// The retry loop of contracts/swap-arbitrage: a failed route is offered half as much, until an
// offer below the limit has failed too.

module Retry {
  import opened Wrappers
  import opened FixedPoint

  const LIMIT_MINIMUM: nat := 10_000_000_000

  // What attempt number k, offering so much, leaves in the contract's balance, if it goes through.
  type Route = (nat, nat) -> Option<nat>

  datatype Outcome = Filled(attempt: nat, offer: nat, balance: nat) | Exhausted(attempts: nat)

  // The replies to the route messages, starting with attempt k.
  function Retried(k: nat, offer: nat, route: Route): Outcome
    decreases offer
  {
    match route(k, offer)
    case Some(balance) => Filled(k, offer, balance)
    case None =>
      if offer < LIMIT_MINIMUM then Exhausted(k + 1)
      else Retried(k + 1, offer / 2, route)
  }

  // What attempt k offers of a prepared amount.
  function Offered(amount: nat, k: nat): nat {
    if k == 0 then amount else Offered(amount / 2, k - 1)
  }

  // The attempt after which the contract gives up.
  function LastAttempt(amount: nat): nat {
    if amount < LIMIT_MINIMUM then 0 else 1 + LastAttempt(amount / 2)
  }

  function Pow2(k: nat): (p: nat)
    ensures p > 0
  {
    if k == 0 then 1 else 2 * Pow2(k - 1)
  }

  // Halving k times is one division by the k-th power of two.
  lemma {:induction false} OfferedIsQuotient(amount: nat, k: nat)
    ensures Offered(amount, k) == amount / Pow2(k)
  {
    if k > 0 {
      OfferedIsQuotient(amount / 2, k - 1);
      HalfThenDivide(amount, Pow2(k - 1));
    }
  }

  lemma HalfThenDivide(amount: nat, p: nat)
    requires p != 0
    ensures amount / 2 / p == amount / (2 * p)
  {
    var q := amount / 2 / p;
    FloorBounds(amount / 2, p);
    assert 2 * p * q == 2 * (p * q);
    FloorAtLeast(amount, 2 * p, q);
    FloorAtMost(amount, 2 * p, q);
  }

  // It is the first one that offers less than the limit.
  lemma {:induction false} LastAttemptIsLeast(amount: nat)
    ensures Offered(amount, LastAttempt(amount)) < 10_000_000_000
    ensures forall k :: 0 <= k < LastAttempt(amount) ==> 10_000_000_000 <= Offered(amount, k)
  {
    if amount >= LIMIT_MINIMUM {
      LastAttemptIsLeast(amount / 2);
      forall k | 0 < k < LastAttempt(amount)
        ensures LIMIT_MINIMUM <= Offered(amount, k)
      {
        assert Offered(amount, k) == Offered(amount / 2, k - 1);
      }
    }
  }

  lemma {:induction false} RetriedFrom(k: nat, amount: nat, route: Route)
    ensures var last := LastAttempt(amount);
            match Retried(k, amount, route)
            case Filled(j, offer, balance) =>
              && k <= j <= k + last
              && offer == Offered(amount, j - k) && route(j, offer) == Some(balance)
              && forall i :: 0 <= i < j - k ==> route(k + i, Offered(amount, i)).None?
            case Exhausted(n) =>
              && n == k + last + 1
              && forall i :: 0 <= i <= last ==> route(k + i, Offered(amount, i)).None?
    decreases amount
  {
    if route(k, amount).None? && amount >= LIMIT_MINIMUM {
      RetriedFrom(k + 1, amount / 2, route);
      var r := Retried(k + 1, amount / 2, route);
      var bound := if r.Filled? then r.attempt - k else LastAttempt(amount) + 1;
      forall i | 0 <= i < bound
        ensures route(k + i, Offered(amount, i)).None?
      {
        if i > 0 {
          assert Offered(amount / 2, i - 1) == Offered(amount, i);
          assert route(k + 1 + (i - 1), Offered(amount / 2, i - 1)).None?;
        }
      }
    }
  }

  // The loop stops with the first attempt that goes through, each one offering half of the one
  // before; it gives up exactly when every attempt up to the first offer
  // below the limit fails, and then it has made one more than the index of that attempt.
  lemma RetryOutcome(amount: nat, route: Route)
    ensures var last, r := LastAttempt(amount), Retried(0, amount, route);
            && (r.Exhausted? <==> forall i :: 0 <= i <= last ==> route(i, Offered(amount, i)).None?)
            && (r.Exhausted? ==> r.attempts == last + 1)
            && (r.Filled? ==>
                  && r.attempt <= last
                  && r.offer == Offered(amount, r.attempt) && route(r.attempt, r.offer) == Some(r.balance)
                  && forall i :: 0 <= i < r.attempt ==> route(i, Offered(amount, i)).None?)
  {
    RetriedFrom(0, amount, route);
    var r := Retried(0, amount, route);
    if r.Filled? {
      assert route(r.attempt, Offered(amount, r.attempt)).Some?;
    }
  }

  // One of the attempts, up to the first offer below the limit, goes through.
  ghost predicate SomeAttemptFills(amount: nat, route: Route) {
    exists k :: 0 <= k <= LastAttempt(amount) && route(k, Offered(amount, k)).Some?
  }

  lemma FillsExactlyWhen(amount: nat, route: Route)
    ensures Retried(0, amount, route).Filled? <==> SomeAttemptFills(amount, route)
  {
    RetryOutcome(amount, route);
    var r := Retried(0, amount, route);
    if r.Filled? {
      assert route(r.attempt, Offered(amount, r.attempt)).Some?;
    } else {
      forall k | 0 <= k <= LastAttempt(amount)
        ensures route(k, Offered(amount, k)).None?
      {}
    }
  }

  // ---- how often, and how little

  lemma {:induction false} LastAttemptBound(amount: nat, n: nat)
    requires amount < LIMIT_MINIMUM * Pow2(n)
    ensures LastAttempt(amount) <= n
  {
    if n > 0 && amount >= LIMIT_MINIMUM {
      assert amount / 2 < LIMIT_MINIMUM * Pow2(n - 1);
      LastAttemptBound(amount / 2, n - 1);
    }
  }

  lemma {:induction false} LastAttemptReaches(amount: nat, n: nat)
    requires LIMIT_MINIMUM * Pow2(n) <= amount
    ensures n < LastAttempt(amount)
  {
    if n > 0 {
      assert LIMIT_MINIMUM * Pow2(n - 1) <= amount / 2;
      LastAttemptReaches(amount / 2, n - 1);
    }
  }

  lemma {:induction false} Pow2Sum(j: nat, k: nat, p: nat, q: nat)
    requires Pow2(j) == p && Pow2(k) == q
    ensures Pow2(j + k) == p * q
  {
    if j > 0 {
      Pow2Sum(j - 1, k, Pow2(j - 1), q);
      assert 2 * (Pow2(j - 1) * q) == 2 * Pow2(j - 1) * q;
    }
  }

  lemma Doubled(k: nat, p: nat)
    requires Pow2(k) == p
    ensures Pow2(k + k) == p * p
  {
    Pow2Sum(k, k, p, p);
  }

  lemma Pow2Of32(k: nat)
    requires k == 32
    ensures Pow2(k) == 0x1_00000000 && Pow2(k - 2) == 0x40000000
  {
    var one := k - 31;
    assert Pow2(one) == 2;
    Doubled(one, 2);
    Doubled(one + one, 4);
    Doubled(4 * one, 0x10);
    Doubled(8 * one, 0x100);
    Doubled(16 * one, 0x10000);
    assert Pow2(k) == 2 * Pow2(k - 1) == 4 * Pow2(k - 2);
  }

  lemma Pow2Of94(k: nat)
    requires k == 32
    ensures Pow2(k + k + (k - 2)) == 0x40000000_00000000_00000000
  {
    Pow2Of32(k);
    Doubled(k, 0x1_00000000);
    Pow2Sum(k + k, k - 2, 0x1_00000000_00000000, 0x40000000);
  }

  // A 128-bit amount is tried at most 96 times, and the largest one can be.
  lemma AtMostNinetySixAttempts(amount: nat)
    requires amount < 0x1_00000000_00000000_00000000_00000000
    ensures LastAttempt(amount) <= 95
    ensures LastAttempt(0xFFFFFFFF_FFFFFFFF_FFFFFFFF_FFFFFFFF) == 95
  {
    var largest := 0xFFFFFFFF_FFFFFFFF_FFFFFFFF_FFFFFFFF;
    Pow2Of94(32);
    assert Pow2(95) == 2 * Pow2(94);
    LastAttemptBound(amount, 95);
    LastAttemptBound(largest, 95);
    LastAttemptReaches(largest, 94);
  }

  lemma {:induction false} OfferedHalves(amount: nat, k: nat)
    ensures Offered(amount, k + 1) == Offered(amount, k) / 2
  {
    if k > 0 {
      OfferedHalves(amount / 2, k - 1);
    }
  }

  // Nothing below half the limit is ever offered of an amount that reaches the limit.
  lemma NoTinyOffers(amount: nat, k: nat)
    requires 10_000_000_000 <= amount && k <= LastAttempt(amount)
    ensures 5_000_000_000 <= Offered(amount, k)
  {
    LastAttemptIsLeast(amount);
    if k > 0 {
      OfferedHalves(amount, k - 1);
    }
  }
}
