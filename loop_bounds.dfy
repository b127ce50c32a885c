/**
 * The version counter of `buildVersion`'s loop in Java's 32-bit `int`
 * arithmetic.
 *
 * As written, `for (int v = actualVersion + 1; v <= targetVersion; v++)`
 * never leaves through its guard when the target is `Integer.MAX_VALUE`:
 * after `v == MAX_VALUE` the increment wraps to `MIN_VALUE`, which is again
 * `<= targetVersion`. From a database already at `MAX_VALUE` the first
 * `v` is `MIN_VALUE`, so even an upgrade to the current version invokes the
 * builder. Counting with the guard first (`v < targetVersion`, then `v++`)
 * never wraps and visits exactly actual+1..target; the model's loop, whose
 * counter is unbounded, visits the same versions.
 */
module LoopBounds {
  import opened UpgradeProperties

  const IntMin: int := -0x8000_0000
  const IntMax: int := 0x7fff_ffff

  /** Java's `int` result of an integer computation: reduced modulo 2^32 into IntMin..IntMax. */
  function Wrap32(x: int): (r: int)
    ensures IntMin <= r <= IntMax
    ensures IntMin <= x <= IntMax ==> r == x
    ensures (r - x) % 0x1_0000_0000 == 0
  {
    (x - IntMin) % 0x1_0000_0000 + IntMin
  }

  /**
   * The first `fuel` values of `v` for which the loop as written runs its
   * body, starting from `v`: the guard `v <= target`, then `v++` in 32 bits.
   */
  function VisitedAsWritten(v: int, target: int, fuel: nat): seq<int>
    decreases fuel
  {
    if fuel == 0 || v > target then [] else [v] + VisitedAsWritten(Wrap32(v + 1), target, fuel - 1)
  }

  /** Below `Integer.MAX_VALUE` the loop as written visits exactly v..target. */
  lemma {:induction false} AsWrittenAgreesBelowMax(v: int, target: int, fuel: nat)
    requires IntMin <= v && target < IntMax
    requires fuel > target - v
    ensures VisitedAsWritten(v, target, fuel) == Range(v, target)
    decreases fuel
  {
    if v <= target {
      AsWrittenAgreesBelowMax(v + 1, target, fuel - 1);
    }
  }

  /** With target `Integer.MAX_VALUE` the guard never stops the loop: every iteration runs the body. */
  lemma {:induction false} AsWrittenNeverStopsAtMax(v: int, fuel: nat)
    requires IntMin <= v <= IntMax
    ensures |VisitedAsWritten(v, IntMax, fuel)| == fuel
    decreases fuel
  {
    if fuel > 0 {
      AsWrittenNeverStopsAtMax(Wrap32(v + 1), fuel - 1);
    }
  }

  /** From version `MAX_VALUE - 1` to `MAX_VALUE` the builder is invoked for `MAX_VALUE` and then for `MIN_VALUE`. */
  lemma AsWrittenPassesMax()
    ensures VisitedAsWritten(Wrap32(IntMax - 1 + 1), IntMax, 2) == [IntMax, IntMin]
  {
  }

  /** From version `MAX_VALUE` to `MAX_VALUE` the loop still runs, for version `MIN_VALUE`. */
  lemma AsWrittenRebuildsAtMax()
    ensures VisitedAsWritten(Wrap32(IntMax + 1), IntMax, 1) == [IntMin]
  {
  }

  /**
   * The loop with the guard tested before the increment:
   * `for (int v = actualVersion; v < targetVersion; ) { v++; ... }`;
   * `v + 1` cannot wrap because `v < targetVersion <= MAX_VALUE`.
   */
  function VisitedCorrected(last: int, target: int): seq<int>
    requires IntMin <= last && target <= IntMax
    decreases target - last
  {
    if last >= target then []
    else
      var v := Wrap32(last + 1);
      [v] + VisitedCorrected(v, target)
  }

  /** The corrected loop visits exactly actual+1..target for every pair of Java ints, and nothing when they are equal. */
  lemma {:induction false} CorrectedVisitsRange(actual: int, target: int)
    requires IntMin <= actual && target <= IntMax
    ensures VisitedCorrected(actual, target) == Range(actual + 1, target)
    decreases target - actual
  {
    if actual < target {
      CorrectedVisitsRange(actual + 1, target);
    }
  }
}
