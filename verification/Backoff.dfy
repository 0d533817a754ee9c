/** The retry schedule. */
module Backoff {
  import opened Base

  function Pow2(n: nat): nat { if n == 0 then 1 else 2 * Pow2(n - 1) }

  /** What `calculate_backoff_delay` returns when `random.randint(0, jitter)` draws `drawn`. */
  function Delay(retryCount: nat, baseDelay: nat, cap: nat, jitter: nat, drawn: nat): nat {
    var plain := baseDelay * Pow2(Max(retryCount - 1, 0));
    var delay := if jitter > 0 then plain + drawn else plain;
    if cap > 0 then Min(delay, cap) else delay
  }

  /** `calculate_backoff_delay`, with its draw as an argument: the doubled base plus the draw, cut off at the cap if
      there is one. */
  method CalculateBackoffDelay(retryCount: nat, baseDelay: nat, cap: nat, jitter: nat, drawn: nat) returns (delay: nat)
    requires drawn <= jitter
    ensures delay == Delay(retryCount, baseDelay, cap, jitter, drawn)
    ensures var plain := baseDelay * Pow2(Max(retryCount - 1, 0));
            delay == if cap > 0 && plain + drawn > cap then cap else plain + drawn
    ensures retryCount <= 1 && cap == 0 ==> baseDelay <= delay <= baseDelay + jitter
    ensures retryCount == 2 && cap == 0 ==> 2 * baseDelay <= delay <= 2 * baseDelay + jitter
  {
    var power := 1;
    var i := 0;
    while i < retryCount - 1
      invariant 0 <= i <= Max(retryCount - 1, 0)
      invariant power == Pow2(i)
    {
      power := 2 * power;
      i := i + 1;
    }
    assert Pow2(0) == 1 && Pow2(1) == 2;
    delay := baseDelay * power;
    if jitter > 0 {
      delay := delay + drawn;
    }
    if cap > 0 {
      delay := Min(delay, cap);
    }
  }

  /** Over all draws: a delay is never below the doubled base, nor above it plus the jitter, both cut off at the
      cap. */
  lemma DelayBounds(retryCount: nat, baseDelay: nat, cap: nat, jitter: nat, drawn: nat)
    requires drawn <= jitter
    ensures var plain := baseDelay * Pow2(Max(retryCount - 1, 0));
            var delay := Delay(retryCount, baseDelay, cap, jitter, drawn);
            && (cap == 0 ==> plain <= delay <= plain + jitter)
            && (cap > 0 ==> Min(plain, cap) <= delay <= Min(plain + jitter, cap))
  {
  }

  /** The delays scheduled after failures 1, 2, ... with the given draws. */
  function Total(baseDelay: nat, cap: nat, jitter: nat, draws: seq<nat>): nat {
    if draws == [] then 0
    else
      var last := |draws| - 1;
      Total(baseDelay, cap, jitter, draws[..last]) + Delay(|draws|, baseDelay, cap, jitter, draws[last])
  }

  predicate Drawn(draws: seq<nat>, jitter: nat) { forall i :: 0 <= i < |draws| ==> draws[i] <= jitter }

  /** The doubled bases of failures 1 to n, each cut off at the cap. */
  function Least(baseDelay: nat, cap: nat, n: nat): nat {
    if n == 0 then 0 else Least(baseDelay, cap, n - 1) + Min(baseDelay * Pow2(n - 1), cap)
  }

  lemma Step(baseDelay: nat, p: int, n: nat, jitter: nat, cap: nat)
    ensures baseDelay * (2 * p - 1) == baseDelay * (p - 1) + baseDelay * p
    ensures n * jitter == (n - 1) * jitter + jitter
    ensures n * cap == (n - 1) * cap + cap
  {
  }

  /** The total delay over a run of failures. */
  lemma {:induction false} TotalBounds(baseDelay: nat, cap: nat, jitter: nat, draws: seq<nat>)
    requires Drawn(draws, jitter)
    ensures var n := |draws|; var t := Total(baseDelay, cap, jitter, draws);
            && (cap == 0 ==> baseDelay * (Pow2(n) - 1) <= t <= baseDelay * (Pow2(n) - 1) + n * jitter)
            && (cap > 0 ==> Least(baseDelay, cap, n) <= t <= n * cap)
  {
    var n := |draws|;
    if n > 0 {
      TotalBounds(baseDelay, cap, jitter, draws[..n - 1]);
      Step(baseDelay, Pow2(n - 1), n, jitter, cap);
      DelayBounds(n, baseDelay, cap, jitter, draws[n - 1]);
    }
  }

  /** As long as the doubled bases stay below the cap, the cap takes nothing away from the lower bound. */
  lemma {:induction false} LeastIsUncapped(baseDelay: nat, cap: nat, n: nat)
    requires n > 0 ==> baseDelay * Pow2(n - 1) <= cap
    ensures Least(baseDelay, cap, n) == baseDelay * (Pow2(n) - 1)
  {
    if n > 0 {
      Step(baseDelay, Pow2(n - 1), n, 0, cap);
      if n > 1 {
        assert Pow2(n - 1) == 2 * Pow2(n - 2);
        assert baseDelay * (2 * Pow2(n - 2)) == baseDelay * Pow2(n - 2) + baseDelay * Pow2(n - 2);
      }
      LeastIsUncapped(baseDelay, cap, n - 1);
    }
  }

  lemma {:induction false} Pow2Positive(n: nat)
    ensures Pow2(n) >= 1
  {
    if n > 0 { Pow2Positive(n - 1); }
  }

  predicate Grows(baseDelay: nat, cap: nat, jitter: nat, r: nat, d: nat, d': nat) {
    Delay(r, baseDelay, cap, jitter, d) <= Delay(r + 1, baseDelay, cap, jitter, d')
  }

  /** Without a cap, successive delays never shrink for any draws exactly when the base delay is at
      least the jitter. */
  lemma NeverShrinksIff(baseDelay: nat, jitter: nat)
    ensures (forall r: nat, d: nat, d': nat :: r >= 1 && d <= jitter && d' <= jitter
               ==> Grows(baseDelay, 0, jitter, r, d, d'))
            <==> baseDelay >= jitter
  {
    if baseDelay < jitter {
      assert Pow2(0) == 1 && Pow2(1) == 2;
      assert Delay(1, baseDelay, 0, jitter, jitter) == baseDelay + jitter;
      assert Delay(2, baseDelay, 0, jitter, 0) == baseDelay * 2;
      assert !Grows(baseDelay, 0, jitter, 1, jitter, 0);
    } else {
      forall r: nat, d: nat, d': nat | r >= 1 && d <= jitter && d' <= jitter
        ensures Grows(baseDelay, 0, jitter, r, d, d')
      {
        NeverShrinks(r, baseDelay, 0, jitter, d, d');
      }
    }
  }

  /** With or without a cap, a base delay of at least the jitter is enough. */
  lemma NeverShrinks(r: nat, baseDelay: nat, cap: nat, jitter: nat, d: nat, d': nat)
    requires r >= 1 && d <= jitter && d' <= jitter && baseDelay >= jitter
    ensures Grows(baseDelay, cap, jitter, r, d, d')
  {
    var p := Pow2(r - 1);
    Pow2Positive(r - 1);
    assert Pow2(r) == 2 * p;
    assert baseDelay * (2 * p) == baseDelay * p + baseDelay * p;
    assert baseDelay * p >= baseDelay;
  }
}
