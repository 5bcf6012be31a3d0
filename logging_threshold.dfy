/** The diagnostic threshold on the size of the batch cache
    (numBatchesLoggingThreshold of simpleProjectOp): it starts at 128 and doubles each time an insertion makes
    the cache size equal to it. Its value is therefore a function of the cache
    size alone, given here by ThresholdAt. */
module LoggingThreshold {

  const InitialThreshold: nat := 128

  function Pow2(k: nat): (r: nat)
    ensures r >= 1
  {
    if k == 0 then 1 else 2 * Pow2(k - 1)
  }

  /** The threshold reached from t by doubling while it does not exceed n. */
  function Grow(t: nat, n: nat): nat
    requires t > 0
    decreases n - t
  {
    if n < t then t else Grow(2 * t, n)
  }

  /** The threshold in force while the cache holds n entries. */
  function ThresholdAt(n: nat): nat
  {
    Grow(InitialThreshold, n)
  }

  /** The threshold always exceeds the cache size. */
  lemma {:induction false} GrowExceeds(t: nat, n: nat)
    requires t > 0
    ensures Grow(t, n) > n
    decreases n - t
  {
    if n >= t {
      GrowExceeds(2 * t, n);
    }
  }

  /** The threshold is always t times a power of two. */
  lemma {:induction false} GrowShape(t: nat, n: nat) returns (k: nat)
    requires t > 0
    ensures Grow(t, n) == t * Pow2(k)
    decreases n - t
  {
    if n < t {
      k := 0;
    } else {
      var j := GrowShape(2 * t, n);
      k := j + 1;
      assert t * Pow2(k) == (2 * t) * Pow2(j);
    }
  }

  /** One insertion: the threshold doubles exactly when the new size equals
      the old threshold, and is unchanged otherwise. */
  lemma {:induction false} GrowStep(t: nat, n: nat)
    requires t > 0
    ensures Grow(t, n + 1) == if n + 1 == Grow(t, n) then 2 * Grow(t, n) else Grow(t, n)
    decreases n - t
  {
    if n >= t {
      GrowStep(2 * t, n);
    }
  }

  /** Growing to size t * 2^k - 1 leaves the threshold at exactly t * 2^k. */
  lemma {:induction false} GrowBelowPower(t: nat, k: nat)
    requires t > 0
    ensures Grow(t, t * Pow2(k) - 1) == t * Pow2(k)
    decreases k
  {
    if k > 0 {
      assert t * Pow2(k) == (2 * t) * Pow2(k - 1);
      GrowBelowPower(2 * t, k - 1);
    }
  }

  /** The threshold is crossed (and the diagnostic logged) by the insertion
      that brings the cache to size n + 1 exactly when n + 1 is one of
      128, 256, 512, ... */
  lemma CrossedExactlyAtPowers(n: nat)
    ensures n + 1 == ThresholdAt(n) <==> exists k: nat :: n + 1 == InitialThreshold * Pow2(k)
  {
    if n + 1 == ThresholdAt(n) {
      var k := GrowShape(InitialThreshold, n);
      assert n + 1 == InitialThreshold * Pow2(k);
    }
    if exists k: nat :: n + 1 == InitialThreshold * Pow2(k) {
      var k: nat :| n + 1 == InitialThreshold * Pow2(k);
      GrowBelowPower(InitialThreshold, k);
    }
  }
}
