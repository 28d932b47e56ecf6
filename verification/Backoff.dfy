/** Exponential backoff with a random part, in nanoseconds, kept within a maximum. */
module Backoff {
  const MILLISECOND: nat := 1_000_000
  const INT64: nat := 0x8000_0000_0000_0000

  function Pow(b: nat, n: nat): nat {
    if n == 0 then 1 else b * Pow(b, n - 1)
  }

  function Min(a: nat, b: nat): nat {
    if a <= b then a else b
  }

  /** The delay after `n` calls, before the random part. */
  function Base(initial: nat, factor: nat, max: nat, n: nat): nat {
    Min(initial * Pow(factor, n), max)
  }

  /** The next base delay, as it is computed: multiplied only if that stays within the maximum. */
  function Grow(delay: nat, factor: nat, max: nat): nat
    requires factor > 0
  {
    if delay <= max / factor then delay * factor else max
  }

  /** The result for a base delay and a random part. */
  function Jittered(delay: nat, max: nat, r: nat): nat {
    if max as int - r as int >= delay then delay + r else max
  }

  lemma MulMonotone(a: nat, b: nat, c: nat)
    requires a <= b
    ensures a * c <= b * c
  {
  }

  lemma GrowIsCapped(delay: nat, factor: nat, max: nat)
    requires factor > 0 && delay <= max
    ensures Grow(delay, factor, max) == Min(delay * factor, max)
  {
    var q := max / factor;
    assert max == factor * q + max % factor;
    if delay <= q {
      MulMonotone(delay, q, factor);
    } else {
      MulMonotone(q + 1, delay, factor);
    }
  }

  lemma Reassociate(a: nat, b: nat, c: nat)
    ensures a * (b * c) == (a * c) * b
  {
  }

  /** Growing step by step under the cap gives the capped power. */
  lemma BaseGrows(initial: nat, factor: nat, max: nat, n: nat)
    requires factor > 0 && initial <= max
    ensures Grow(Base(initial, factor, max, n), factor, max) == Base(initial, factor, max, n + 1)
  {
    var whole := initial * Pow(factor, n);
    var delay := Base(initial, factor, max, n);
    GrowIsCapped(delay, factor, max);
    assert initial * Pow(factor, n + 1) == whole * factor by {
      Reassociate(initial, factor, Pow(factor, n));
    }
    MulMonotone(1, factor, whole);
    MulMonotone(1, factor, max);
  }

  lemma JitterBounds(delay: nat, max: nat, r: nat)
    requires delay <= max && r <= delay
    ensures delay <= Jittered(delay, max, r) <= Min(2 * delay, max)
  {
  }

  /** With a factor of at least two no result is smaller than the one before it, whatever the random
      parts. */
  lemma ResultsNeverDecrease(initial: nat, factor: nat, max: nat, n: nat, r: nat, s: nat)
    requires factor >= 2 && initial <= max
    requires r <= Base(initial, factor, max, n) && s <= Base(initial, factor, max, n + 1)
    ensures Jittered(Base(initial, factor, max, n), max, r) <= Jittered(Base(initial, factor, max, n + 1), max, s)
  {
    var delay := Base(initial, factor, max, n);
    BaseGrows(initial, factor, max, n);
    GrowIsCapped(delay, factor, max);
    MulMonotone(2, factor, delay);
    JitterBounds(delay, max, r);
    JitterBounds(Base(initial, factor, max, n + 1), max, s);
  }

  class ExponentialBackoff {
    const initialDelay: nat
    const retryFactor: nat
    const maxDelay: nat
    const maxDelayDividedByFactor: nat
    var nextDelay: nat

    /** Calls since the last reset. */
    ghost var calls: nat

    ghost predicate Valid()
      reads this
    {
      && 0 < retryFactor && initialDelay <= maxDelay < INT64
      && maxDelayDividedByFactor == maxDelay / retryFactor
      && nextDelay == Base(initialDelay, retryFactor, maxDelay, calls)
    }

    constructor (initial: nat, factor: nat, max: nat)
      requires 0 < factor && initial <= max < INT64
      ensures Valid() && calls == 0 && initialDelay == initial && retryFactor == factor && maxDelay == max
    {
      initialDelay, retryFactor, maxDelay, maxDelayDividedByFactor := initial, factor, max, max / factor;
      nextDelay, calls := initial, 0;
    }

    /** `pick` is the random number of milliseconds, drawn up to the base delay. No value computed on
        the way exceeds the maximum, so none overflows. */
    method GetNext(pick: nat) returns (result: nat)
      requires Valid() && pick <= nextDelay / MILLISECOND
      modifies this
      ensures Valid() && calls == old(calls) + 1
      ensures old(nextDelay) <= result <= Min(2 * old(nextDelay), maxDelay)
      ensures result == Jittered(old(nextDelay), maxDelay, pick * MILLISECOND)
      ensures var drawn := old(nextDelay) + pick * MILLISECOND;
        result == if drawn <= maxDelay then drawn else maxDelay
    {
      var r := pick * MILLISECOND;
      assert r <= nextDelay;
      JitterBounds(nextDelay, maxDelay, r);
      BaseGrows(initialDelay, retryFactor, maxDelay, calls);
      if maxDelay - r >= nextDelay {
        result := nextDelay + r;
      } else {
        result := maxDelay;
      }
      if nextDelay <= maxDelayDividedByFactor {
        GrowIsCapped(nextDelay, retryFactor, maxDelay);
        assert nextDelay * retryFactor <= maxDelay;
        nextDelay := nextDelay * retryFactor;
      } else {
        nextDelay := maxDelay;
      }
      calls := calls + 1;
    }

    method Reset()
      requires Valid()
      modifies this
      ensures Valid() && calls == 0 && nextDelay == initialDelay
    {
      nextDelay := initialDelay;
      calls := 0;
    }
  }
}
