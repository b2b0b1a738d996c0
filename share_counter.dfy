/**
 * The share counter: each share click advances `shareCount` by one, clamped
 * at the quota, and reaching the quota triggers the redirect.
 */
module ShareCounter {

  /** Number of shares that unlocks the redirect. */
  const ShareQuota: int := 5

  /** `Math.min(prev + 1, 5)`. */
  function NextShareCount(prev: int): (n: int)
    ensures n <= ShareQuota
    ensures prev < ShareQuota ==> n == prev + 1
    ensures prev >= ShareQuota ==> n == ShareQuota
  {
    if prev + 1 < ShareQuota then prev + 1 else ShareQuota
  }

  /** The redirect effect's test, `shareCount >= 5`. */
  predicate ReachedQuota(count: int): (b: bool)
    ensures count <= ShareQuota ==> (b <==> count == ShareQuota)
  {
    count >= ShareQuota
  }

  /** The redirect effect runs at mount and whenever the count changes; it
      navigates when the new count has reached the quota. */
  predicate Redirects(prev: int, next: int): (b: bool)
    ensures 0 <= prev <= ShareQuota && next == NextShareCount(prev) ==> (b <==> prev == ShareQuota - 1)
  {
    next != prev && ReachedQuota(next)
  }

  /** The count after `k` clicks starting from `start`. */
  function CountAfter(start: int, k: nat): int
  {
    if k == 0 then start else NextShareCount(CountAfter(start, k - 1))
  }

  function Min(a: int, b: int): int
  {
    if a <= b then a else b
  }

  /** From a count in range, `k` clicks give `min(start + k, 5)`. */
  lemma {:induction false} CountAfterClicks(start: int, k: nat)
    requires 0 <= start <= ShareQuota
    ensures CountAfter(start, k) == Min(start + k, ShareQuota)
  {
    if k > 0 {
      CountAfterClicks(start, k - 1);
    }
  }

  /** Clicking once more before `k` clicks is the same as `k + 1` clicks. */
  lemma {:induction false} CountAfterShift(start: int, k: nat)
    ensures CountAfter(NextShareCount(start), k) == CountAfter(start, k + 1)
  {
    if k > 0 {
      CountAfterShift(start, k - 1);
    }
  }

  /** Starting from 0, `k` clicks give `min(k, 5)`. */
  lemma ClicksFromZero(k: nat)
    ensures CountAfter(0, k) == Min(k, ShareQuota)
  {
    CountAfterClicks(0, k);
  }

  /** A click keeps the count in [0, 5] and never lowers it. */
  lemma ClickBoundedAndMonotone(prev: int)
    requires 0 <= prev <= ShareQuota
    ensures prev <= NextShareCount(prev) <= ShareQuota
    ensures NextShareCount(prev) == prev <==> prev == ShareQuota
  {
  }
}
