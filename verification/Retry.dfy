/** Retry budget and backoff, `pubsub/server/retry.py`. */
module Retry {
  import opened Types

  datatype Policy = Policy(maxAttempts: int, base: real, capExponent: int)

  predicate Exhausted(p: Policy, attempt: int) {
    attempt >= p.maxAttempts
  }

  // ---- Chains of redeliveries --------------------------------------------------------------

  /** The delivery `_delayed` makes of a delivery that failed. */
  function Redelivered(d: Delivery, id: nat): Delivery {
    d.(id := id, attempt := d.attempt + 1)
  }

  /** What `_to_dlq` records when `schedule` finds the budget spent. */
  function DeadLetter(d: Delivery): DlqEntry {
    DlqEntry(d.message, d.subscription, d.attempt + 1)
  }

  /** The successive deliveries of one message to one subscription: `schedule` let each of them sleep,
      and the next is its redelivery. */
  predicate IsChain(p: Policy, chain: seq<Delivery>) {
    chain != [] && chain[0].attempt == 1 && forall i | 0 <= i < |chain| - 1 :: Retries(p, chain[i], chain[i + 1])
  }

  predicate Retries(p: Policy, d: Delivery, e: Delivery) {
    !Exhausted(p, d.attempt + 1) && e == Redelivered(d, e.id)
  }

  /** Attempts count 1, 2, 3, ... for the same message and subscription; only attempts below the budget
      are redelivered. */
  lemma {:induction false} ChainAttempts(p: Policy, chain: seq<Delivery>)
    requires IsChain(p, chain)
    ensures forall i | 0 <= i < |chain| ::
      && chain[i].attempt == i + 1
      && chain[i].message == chain[0].message && chain[i].subscription == chain[0].subscription
      && chain[i].root == chain[0].root
      && (i > 0 ==> chain[i].attempt < p.maxAttempts)
    decreases |chain|
  {
    if |chain| > 1 {
      var shorter := chain[..|chain| - 1];
      ChainAttempts(p, shorter);
      assert Retries(p, chain[|chain| - 2], chain[|chain| - 2 + 1]);
    }
  }

  function Max(a: int, b: int): int {
    if a < b then b else a
  }

  /** A chain is finite, and when `schedule` dead-letters its last delivery the recorded number of
      attempts is the budget, or 2 for a smaller budget. */
  lemma ChainEnds(p: Policy, chain: seq<Delivery>)
    requires IsChain(p, chain)
    ensures |chain| <= Max(1, p.maxAttempts - 1)
    ensures Exhausted(p, chain[|chain| - 1].attempt + 1) <==> |chain| == Max(1, p.maxAttempts - 1)
    ensures Exhausted(p, chain[|chain| - 1].attempt + 1) ==>
      DeadLetter(chain[|chain| - 1]) == DlqEntry(chain[0].message, chain[0].subscription, Max(2, p.maxAttempts))
  {
    ChainAttempts(p, chain);
    assert chain[|chain| - 1].attempt == |chain|;
  }

  // ---- Backoff -----------------------------------------------------------------------------

  /** `base * 2**e`, by doubling or halving `base`. */
  function Scaled(base: real, e: int): real
    decreases if e < 0 then -e else e
  {
    if e == 0 then base else if e > 0 then 2.0 * Scaled(base, e - 1) else Scaled(base, e + 1) / 2.0
  }

  function Exponent(attempt: int, cap: int): int {
    var clamped := if attempt < 0 then 0 else attempt;
    if clamped < cap then clamped else cap
  }

  lemma Product(x: real, y: real)
    requires x >= 0.0 && y >= 0.0
    ensures x * y >= 0.0
  {
  }

  lemma ScaleDown(draw: real, x: real)
    requires 0.0 <= draw <= 1.0 && x >= 0.0
    ensures 0.0 <= draw * x <= x
  {
    Product(draw, x);
    Product(1.0 - draw, x);
    assert (1.0 - draw) * x == x - draw * x;
  }

  /** A draw from [0, 1] scaled to [0, ceiling]. */
  function Jitter(draw: real, ceiling: real): (sleep: real)
    ensures 0.0 <= draw <= 1.0 && ceiling >= 0.0 ==> 0.0 <= sleep <= ceiling
    ensures draw == 1.0 ==> sleep == ceiling
  {
    if 0.0 <= draw <= 1.0 && ceiling >= 0.0 then
      ScaleDown(draw, ceiling);
      draw * ceiling
    else
      draw * ceiling
  }

  /** `full_jitter_backoff` with the random draw as a parameter. */
  function FullJitterBackoff(attempt: int, base: real, cap: int, draw: real): real {
    Jitter(draw, Scaled(base, Exponent(attempt, cap)))
  }

  function Backoff(p: Policy, attempt: int, draw: real): real {
    FullJitterBackoff(attempt, p.base, p.capExponent, draw)
  }

  predicate Draws(draws: seq<real>) {
    forall i | 0 <= i < |draws| :: 0.0 <= draws[i] <= 1.0
  }

  /** Time slept before the redeliveries at attempts `from`, `from + 1`, ..., one draw each. */
  function Slept(p: Policy, from: int, draws: seq<real>): real
    decreases |draws|
  {
    if draws == [] then 0.0 else Backoff(p, from, draws[0]) + Slept(p, from + 1, draws[1..])
  }

  lemma {:induction false} ScaledPositive(base: real, e: int)
    requires base >= 0.0
    ensures Scaled(base, e) >= 0.0
    decreases if e < 0 then -e else e
  {
    if e > 0 {
      ScaledPositive(base, e - 1);
    } else if e < 0 {
      ScaledPositive(base, e + 1);
    }
  }

  lemma {:induction false} ScaledGrows(base: real, a: int, b: int)
    requires base >= 0.0 && a <= b
    ensures 0.0 <= Scaled(base, a) <= Scaled(base, b)
    decreases b - a
  {
    ScaledPositive(base, a);
    if a < b {
      ScaledGrows(base, a, b - 1);
      assert b <= 0 ==> Scaled(base, b - 1) == Scaled(base, b) / 2.0;
    }
  }

  /** One sleep is never negative and never longer than the capped exponential. */
  lemma BackoffBounds(p: Policy, attempt: int, draw: real)
    requires p.base >= 0.0 && 0.0 <= draw <= 1.0
    ensures 0.0 <= Backoff(p, attempt, draw) <= Scaled(p.base, Exponent(attempt, p.capExponent))
    ensures Backoff(p, attempt, draw) <= Scaled(p.base, p.capExponent)
  {
    ScaledGrows(p.base, Exponent(attempt, p.capExponent), p.capExponent);
  }

  /** A sleep is the draw times the ceiling, which is the sleep at draw 1. */
  lemma BackoffIsLinear(p: Policy, attempt: int, draw: real, other: real)
    ensures Backoff(p, attempt, draw) == draw * Backoff(p, attempt, 1.0)
    ensures Backoff(p, attempt, draw) + Backoff(p, attempt, other) == Backoff(p, attempt, draw + other)
  {
    var ceiling := Scaled(p.base, Exponent(attempt, p.capExponent));
    assert draw * ceiling + other * ceiling == (draw + other) * ceiling;
  }

  /** The ceiling is `base` for attempt 0 and below, doubles with each attempt up to the cap, and stays the
      same from there on. A negative cap halves it that many times. */
  lemma CeilingDoublesUpToCap(p: Policy, attempt: int)
    ensures p.capExponent >= 0 && attempt <= 0 ==> Backoff(p, attempt, 1.0) == p.base
    ensures 0 < attempt <= p.capExponent ==> Backoff(p, attempt, 1.0) == 2.0 * Backoff(p, attempt - 1, 1.0)
    ensures attempt >= p.capExponent >= 0 ==> Backoff(p, attempt, 1.0) == Backoff(p, p.capExponent, 1.0)
    ensures p.capExponent < 0 ==> Scaled(Backoff(p, attempt, 1.0), -p.capExponent) == p.base
  {
    if p.capExponent < 0 {
      HalvedThenDoubled(p.base, -p.capExponent);
    }
  }

  lemma {:induction false} HalvedThenDoubled(base: real, n: nat)
    ensures Scaled(Scaled(base, 0 - n), n) == base
  {
    if n > 0 {
      HalvedThenDoubled(base, n - 1);
      ScaledHalf(Scaled(base, 1 - n), n - 1);
    }
  }

  lemma {:induction false} ScaledHalf(x: real, n: nat)
    ensures 2.0 * Scaled(x / 2.0, n) == Scaled(x, n)
  {
    if n > 0 {
      ScaledHalf(x, n - 1);
    }
  }

  /** While the exponent is not capped, the sleeps sum to at most a geometric series. */
  lemma {:induction false} SleptBelowCap(p: Policy, from: nat, draws: seq<real>)
    requires p.base >= 0.0 && Draws(draws) && from + |draws| <= p.capExponent + 1
    ensures Slept(p, from, draws) <= Scaled(p.base, from + |draws|) - Scaled(p.base, from)
    decreases |draws|
  {
    if draws != [] {
      BackoffBounds(p, from, draws[0]);
      SleptBelowCap(p, from + 1, draws[1..]);
    }
  }

  /** `n` times `x`. */
  function Times(n: nat, x: real): real {
    if n == 0 then 0.0 else Times(n - 1, x) + x
  }

  lemma {:induction false} SleptPerStep(p: Policy, from: int, draws: seq<real>)
    requires p.base >= 0.0 && Draws(draws)
    ensures Slept(p, from, draws) <= Times(|draws|, Scaled(p.base, p.capExponent))
    decreases |draws|
  {
    if draws != [] {
      BackoffBounds(p, from, draws[0]);
      SleptPerStep(p, from + 1, draws[1..]);
    }
  }

  /** All sleeps of one whole chain, for a budget within the cap: `base * (2**max_attempts - 4)`. */
  lemma TotalBackoff(p: Policy, draws: seq<real>)
    requires p.base >= 0.0 && Draws(draws)
    requires 2 <= p.maxAttempts <= p.capExponent + 1 && |draws| == p.maxAttempts - 2
    ensures Slept(p, 2, draws) <= Scaled(p.base, p.maxAttempts) - 4.0 * p.base
  {
    SleptBelowCap(p, 2, draws);
    assert Scaled(p.base, 1) == 2.0 * p.base;
  }

  /** The bound is attained: with every draw at 1 the chain sleeps exactly that long. */
  lemma {:induction false} TotalBackoffIsTight(p: Policy, from: nat, draws: seq<real>)
    requires (forall i | 0 <= i < |draws| :: draws[i] == 1.0) && from + |draws| <= p.capExponent + 1
    ensures Slept(p, from, draws) == Scaled(p.base, from + |draws|) - Scaled(p.base, from)
    decreases |draws|
  {
    if draws != [] {
      TotalBackoffIsTight(p, from + 1, draws[1..]);
    }
  }

  lemma {:induction false} SleptSplit(p: Policy, from: int, a: seq<real>, b: seq<real>)
    ensures Slept(p, from, a + b) == Slept(p, from, a) + Slept(p, from + |a|, b)
    decreases |a|
  {
    if a == [] {
      assert a + b == b;
    } else {
      assert (a + b)[1..] == a[1..] + b;
      SleptSplit(p, from + 1, a[1..], b);
    }
  }

  /** A larger budget adds at most `base * 2**cap` for each attempt past the cap. */
  lemma TotalBackoffPastCap(p: Policy, draws: seq<real>)
    requires p.base >= 0.0 && Draws(draws)
    requires 1 <= p.capExponent < p.maxAttempts && |draws| == p.maxAttempts - 2
    ensures Slept(p, 2, draws) <=
      Scaled(p.base, p.capExponent + 1) - 4.0 * p.base
      + Times(p.maxAttempts - 1 - p.capExponent, Scaled(p.base, p.capExponent))
  {
    var n := p.capExponent - 1;
    SleptSplit(p, 2, draws[..n], draws[n..]);
    assert draws == draws[..n] + draws[n..];
    SleptBelowCap(p, 2, draws[..n]);
    SleptPerStep(p, 2 + n, draws[n..]);
    assert Scaled(p.base, 1) == 2.0 * p.base;
  }
}
