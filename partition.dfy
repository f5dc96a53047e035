/** Even division of a total over a number of workers (`per_thread_amount` in
    src/main.rs) and the start offsets the spawning loops of `hackathon` derive
    from it. */
module Partition {

  /** The share of `total` that worker `threadIdx` gets out of `threads`
      workers: the quotient, plus one unit of the remainder for each of the
      first `total % threads` workers. */
  function PerThreadAmount(threadIdx: nat, total: nat, threads: nat): nat
    requires threads >= 1
  {
    total / threads + (if threadIdx < total % threads then 1 else 0)
  }

  /** The value of `start_idx` when worker `k` is created: the amounts of
      workers `0 .. k-1` added up. */
  function Offset(k: nat, total: nat, threads: nat): nat
    requires threads >= 1
  {
    if k == 0 then 0 else Offset(k - 1, total, threads) + PerThreadAmount(k - 1, total, threads)
  }

  /** Closed form of the offsets: `k` quotients plus the remainder units
      handed out so far. */
  lemma {:induction false} OffsetClosedForm(k: nat, total: nat, threads: nat)
    requires threads >= 1
    ensures Offset(k, total, threads)
            == k * (total / threads) + (if k < total % threads then k else total % threads)
  {
    if k > 0 {
      OffsetClosedForm(k - 1, total, threads);
      assert k * (total / threads) == (k - 1) * (total / threads) + total / threads;
    }
  }

  /** The amounts of all workers add up to exactly `total`, so the
      `assert_eq!(start_idx, total)` after each spawning loop holds. */
  lemma OffsetCoversTotal(total: nat, threads: nat)
    requires threads >= 1
    ensures Offset(threads, total, threads) == total
  {
    OffsetClosedForm(threads, total, threads);
  }

  /** Lower-indexed workers get at least as much as higher-indexed ones, and
      never more than one unit more. */
  lemma AmountsBalanced(i: nat, j: nat, total: nat, threads: nat)
    requires threads >= 1 && i <= j
    ensures PerThreadAmount(j, total, threads) <= PerThreadAmount(i, total, threads)
    ensures PerThreadAmount(i, total, threads) <= PerThreadAmount(j, total, threads) + 1
  {
  }

  /** Every worker gets at least one unit when there are at least as many
      units as workers. */
  lemma AmountPositive(i: nat, total: nat, threads: nat)
    requires 1 <= threads <= total
    ensures PerThreadAmount(i, total, threads) >= 1
  {
  }

  lemma {:induction false} OffsetMonotone(i: nat, j: nat, total: nat, threads: nat)
    requires threads >= 1 && i <= j
    ensures Offset(i, total, threads) <= Offset(j, total, threads)
    decreases j
  {
    if i < j {
      OffsetMonotone(i, j - 1, total, threads);
    }
  }

  /** The range `[Offset(i), Offset(i) + amount(i))` of worker `i` ends at or
      before the start of every later worker's range: the ranges are pairwise
      disjoint. */
  lemma RangesDisjoint(i: nat, j: nat, total: nat, threads: nat)
    requires threads >= 1 && i < j
    ensures Offset(i, total, threads) + PerThreadAmount(i, total, threads) <= Offset(j, total, threads)
  {
    OffsetMonotone(i + 1, j, total, threads);
  }

  /** Every worker's range lies inside `[0, total)`. */
  lemma RangeWithinTotal(i: nat, total: nat, threads: nat)
    requires 1 <= threads && i < threads
    ensures Offset(i, total, threads) + PerThreadAmount(i, total, threads) <= total
  {
    RangesDisjoint(i, threads, total, threads);
    OffsetCoversTotal(total, threads);
  }

  /** The worker, searched upward from `k`, whose range holds index `g`:
      together the ranges cover `[0, total)`. */
  ghost function OwnerFrom(k: nat, g: nat, total: nat, threads: nat): (i: nat)
    requires 1 <= threads && k < threads
    requires Offset(k, total, threads) <= g < total
    ensures k <= i < threads
    ensures Offset(i, total, threads) <= g < Offset(i, total, threads) + PerThreadAmount(i, total, threads)
    decreases threads - k
  {
    if g < Offset(k, total, threads) + PerThreadAmount(k, total, threads) then k
    else
      OffsetCoversTotal(total, threads);
      OwnerFrom(k + 1, g, total, threads)
  }

  /** Each index below `total` belongs to exactly one worker's range. */
  lemma OwnerUnique(g: nat, total: nat, threads: nat, j: nat)
    requires 1 <= threads && g < total && j < threads
    requires Offset(j, total, threads) <= g < Offset(j, total, threads) + PerThreadAmount(j, total, threads)
    ensures OwnerFrom(0, g, total, threads) == j
  {
    var i := OwnerFrom(0, g, total, threads);
    if i < j {
      RangesDisjoint(i, j, total, threads);
    } else if j < i {
      RangesDisjoint(j, i, total, threads);
    }
  }
}
