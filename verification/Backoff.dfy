/** Delays between reconnection attempts: capped powers of two. */
module Backoff {

  function Pow2(n: nat): (p: nat)
    ensures p >= 1
  {
    if n == 0 then 1 else 2 * Pow2(n - 1)
  }

  /** The delay before an attempt, given the attempt counter after its increment. */
  function Delay(attempts: nat, cap: nat): nat {
    if Pow2(attempts) < cap then Pow2(attempts) else cap
  }

  /** The delays of `count` attempts in a row when `attempts` were already counted. */
  function Delays(attempts: nat, count: nat, cap: nat): (delays: seq<int>)
    ensures |delays| == count
    ensures forall i :: 0 <= i < count ==> delays[i] == Delay(attempts + i + 1, cap)
  {
    seq<int>(count, i requires 0 <= i < count => Delay(attempts + i + 1, cap))
  }

  function Sum(delays: seq<int>): int {
    if delays == [] then 0 else Sum(delays[..|delays| - 1]) + delays[|delays| - 1]
  }

  lemma {:induction false} Pow2Grows(i: nat, j: nat)
    requires i <= j
    ensures Pow2(i) <= Pow2(j)
    ensures i < j ==> Pow2(i) < Pow2(j)
    decreases j - i
  {
    if i < j {
      Pow2Grows(i, j - 1);
    }
  }

  lemma {:induction false} DelaysNext(attempts: nat, count: nat, cap: nat)
    ensures Delays(attempts, count + 1, cap) == Delays(attempts, count, cap) + [Delay(attempts + count + 1, cap)]
  {
  }

  /** Delays never shrink during an outage and stay within [1, cap]. */
  lemma {:induction false} DelaysGrowWithinCap(attempts: nat, count: nat, cap: nat)
    requires cap >= 1
    ensures forall i, j :: 0 <= i <= j < count ==>
              1 <= Delays(attempts, count, cap)[i] <= Delays(attempts, count, cap)[j] <= cap
  {
    forall i, j | 0 <= i <= j < count
      ensures 1 <= Delays(attempts, count, cap)[i] <= Delays(attempts, count, cap)[j] <= cap
    {
      Pow2Grows(attempts + i + 1, attempts + j + 1);
    }
  }

  lemma {:induction false} SumNext(attempts: nat, count: nat, cap: nat)
    ensures Sum(Delays(attempts, count + 1, cap))
            == Sum(Delays(attempts, count, cap)) + Delay(attempts + count + 1, cap)
  {
    assert Delays(attempts, count + 1, cap)[..count] == Delays(attempts, count, cap);
  }

  /** While the powers stay below the cap, the delays double. */
  lemma {:induction false} DoublingLength(n: nat, k: nat, cap: nat)
    requires Pow2(k) <= cap && n <= k
    ensures Sum(Delays(0, n, cap)) == Pow2(n + 1) - 2
  {
    if n > 0 {
      DoublingLength(n - 1, k, cap);
      SumNext(0, n - 1, cap);
      Pow2Grows(n, k);
    }
  }

  /** The length of an outage of `n` attempts that starts with a fresh counter,
      where 2^k is the largest power of two within the cap. */
  lemma {:induction false} OutageLength(n: nat, k: nat, cap: nat)
    requires Pow2(k) <= cap < Pow2(k + 1)
    ensures Sum(Delays(0, n, cap)) ==
            Pow2((if n < k then n else k) + 1) - 2 + (if n <= k then 0 else n - k) * cap
  {
    if n <= k {
      DoublingLength(n, k, cap);
    } else {
      OutageLength(n - 1, k, cap);
      SumNext(0, n - 1, cap);
      Pow2Grows(k + 1, n);
      assert (n - k) * cap == (n - 1 - k) * cap + cap;
    }
  }
}
