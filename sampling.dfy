/** Python's `random.sample(population, k)`: `k` items drawn from `k` distinct positions of the
    population. The distribution is not modelled; each draw is a nondeterministic choice among
    the positions not drawn yet. */
module Sampling {

  /** No position is listed twice. */
  ghost predicate Distinct(idx: seq<int>) {
    forall i, j :: 0 <= i < j < |idx| ==> idx[i] != idx[j]
  }

  /** `batch[j]` is the item at position `idx[j]` of `population`, and the positions are distinct. */
  ghost predicate DrawnAt<T>(batch: seq<T>, population: seq<T>, idx: seq<int>) {
    && |idx| == |batch|
    && Distinct(idx)
    && (forall j :: 0 <= j < |idx| ==> 0 <= idx[j] < |population| && batch[j] == population[idx[j]])
  }

  /** `batch` can be obtained by drawing without replacement from `population`. */
  ghost predicate IsSample<T>(batch: seq<T>, population: seq<T>) {
    exists idx :: DrawnAt(batch, population, idx)
  }

  /** The positions `0 .. n-1`, in order. */
  function Positions(n: nat): (s: seq<int>)
    ensures |s| == n && forall i :: 0 <= i < n ==> s[i] == i
  {
    seq(n, i => i)
  }

  /** Draws `k` items from distinct positions of `population`. `random.sample` raises
      `ValueError` when `k` is negative or larger than the population; callers check that. */
  method Sample<T>(population: seq<T>, k: int) returns (batch: seq<T>)
    requires 0 <= k <= |population|
    ensures |batch| == k
    ensures IsSample(batch, population)
  {
    var avail := Positions(|population|);
    ghost var idx: seq<int> := [];
    batch := [];
    while |batch| < k
      invariant |batch| == |idx| <= k
      invariant DrawnAt(batch, population, idx)
      invariant Distinct(avail)
      invariant forall a :: 0 <= a < |avail| ==> 0 <= avail[a] < |population|
      invariant forall a, j :: 0 <= a < |avail| && 0 <= j < |idx| ==> avail[a] != idx[j]
      invariant |avail| == |population| - |idx|
      decreases k - |batch|
    {
      var p :| 0 <= p < |avail|;
      var i := avail[p];
      avail := avail[..p] + avail[p + 1..];
      idx := idx + [i];
      batch := batch + [population[i]];
    }
  }

  /** Every drawn item is an item of the population. */
  lemma SampleMembers<T>(batch: seq<T>, population: seq<T>)
    requires IsSample(batch, population)
    ensures forall x :: x in batch ==> x in population
  {
    var idx :| DrawnAt(batch, population, idx);
    forall x | x in batch ensures x in population {
      var j :| 0 <= j < |batch| && batch[j] == x;
      assert population[idx[j]] == x;
    }
  }

  /** A sample of a population without repeated items has no repeated items. */
  lemma SampleOfDistinctIsDistinct<T>(batch: seq<T>, population: seq<T>)
    requires IsSample(batch, population)
    requires forall i, j :: 0 <= i < j < |population| ==> population[i] != population[j]
    ensures forall i, j :: 0 <= i < j < |batch| ==> batch[i] != batch[j]
  {
    var idx :| DrawnAt(batch, population, idx);
    forall i, j | 0 <= i < j < |batch| ensures batch[i] != batch[j] {
      assert idx[i] != idx[j];
      if idx[i] < idx[j] {
        assert population[idx[i]] != population[idx[j]];
      } else {
        assert population[idx[j]] != population[idx[i]];
      }
    }
  }
}
