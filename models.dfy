/** Lloyd-style k-means clustering. Distances are compared through their squares
    (`SqDist`): `sqrt` is monotone, so the nearest centroid, the smallest shift and the
    threshold test `shift <= 0.001` come out the same as on `vector_distance`. */
module Models {
  import opened Util

  /** `THRESHOLD_CHANGE` (0.001), squared. */
  const ThresholdSq: real := 0.000001
  /** The initial `min_ds` (1000), squared. */
  const InitialMinShiftSq: real := 1000000.0

  // ---------------------------------------------------------------------------
  // Assignment

  /** Centroid `k` is the one the assignment loop picks for `x`: none is nearer,
      and every centroid before it is strictly farther, so the lowest index wins ties. */
  predicate IsNearest(x: seq<real>, cs: seq<seq<real>>, k: nat): (b: bool)
    requires AllOfDimension(cs, |x|)
    ensures b ==> k < |cs| && forall j :: 0 <= j < |cs| && SqDist(x, cs[j]) == SqDist(x, cs[k]) ==> k <= j
    ensures |cs| == 1 ==> (b <==> k == 0)
  {
    k < |cs| &&
    (forall j :: 0 <= j < |cs| ==> SqDist(x, cs[k]) <= SqDist(x, cs[j])) &&
    (forall j :: 0 <= j < k ==> SqDist(x, cs[k]) < SqDist(x, cs[j]))
  }

  /** The centroid nearest to `x`, the lowest index among equally near ones. */
  function Nearest(x: seq<real>, cs: seq<seq<real>>): (k: nat)
    requires |cs| >= 1 && AllOfDimension(cs, |x|)
    ensures IsNearest(x, cs, k)
    decreases |cs|
  {
    if |cs| == 1 then 0
    else
      var k := Nearest(x, cs[..|cs| - 1]);
      if SqDist(x, cs[|cs| - 1]) < SqDist(x, cs[k]) then |cs| - 1 else k
  }

  /** At most one centroid is the nearest in this sense. */
  lemma {:induction false} NearestIsUnique(x: seq<real>, cs: seq<seq<real>>, a: nat, b: nat)
    requires AllOfDimension(cs, |x|)
    requires IsNearest(x, cs, a) && IsNearest(x, cs, b)
    ensures a == b
  {
    // Both are nearest, so they are equally near; a strictly nearer earlier index is then impossible.
    assert SqDist(x, cs[a]) <= SqDist(x, cs[b]);
    assert SqDist(x, cs[b]) <= SqDist(x, cs[a]);
  }

  /** The cluster of every point. */
  function Assign(data: seq<seq<real>>, cs: seq<seq<real>>, d: nat): (alloc: seq<nat>)
    requires |cs| >= 1 && AllOfDimension(data, d) && AllOfDimension(cs, d)
    ensures |alloc| == |data|
    ensures forall i :: 0 <= i < |data| ==> alloc[i] < |cs|
  {
    seq(|data|, i requires 0 <= i < |data| => Nearest(data[i], cs))
  }

  /** The assignment loop: overwrites `allocated_clusters[i]` with the nearest centroid of point `i`. */
  method AssignClusters(data: seq<seq<real>>, cs: seq<seq<real>>, d: nat, clusterOf: seq<nat>) returns (alloc: seq<nat>)
    requires |cs| >= 1 && AllOfDimension(data, d) && AllOfDimension(cs, d)
    requires |clusterOf| == |data|
    ensures |alloc| == |data|
    ensures forall i :: 0 <= i < |data| ==> IsNearest(data[i], cs, alloc[i])
    ensures alloc == Assign(data, cs, d)
  {
    alloc := clusterOf;
    for i := 0 to |data|
      invariant |alloc| == |data|
      invariant forall r :: 0 <= r < i ==> IsNearest(data[r], cs, alloc[r])
    {
      var x := data[i];
      var closest: nat := 0;
      var bestDist := 0.0;
      for j := 0 to |cs|
        invariant closest <= j && (j > 0 ==> closest < j && bestDist == SqDist(x, cs[closest]))
        invariant forall c :: 0 <= c < j ==> bestDist <= SqDist(x, cs[c])
        invariant forall c :: 0 <= c < closest ==> bestDist < SqDist(x, cs[c])
      {
        var dist := SqDist(x, cs[j]);
        // `best_dist` starts at `f64::MAX`, so the first centroid is always taken.
        if j == 0 || dist < bestDist {
          closest := j;
          bestDist := dist;
        }
      }
      alloc := alloc[i := closest];
    }
    forall i | 0 <= i < |data|
      ensures alloc[i] == Assign(data, cs, d)[i]
    {
      NearestIsUnique(data[i], cs, alloc[i], Nearest(data[i], cs));
    }
  }

  // ---------------------------------------------------------------------------
  // Per-cluster sums and counts

  /** How many of the first `n` points are in cluster `c`. */
  function CountUpTo(alloc: seq<nat>, c: nat, n: nat): (count: nat)
    requires n <= |alloc|
    ensures count <= n
  {
    if n == 0 then 0 else CountUpTo(alloc, c, n - 1) + (if alloc[n - 1] == c then 1 else 0)
  }

  /** Elementwise sum of those of the first `n` points that are in cluster `c`. */
  function SumUpTo(data: seq<seq<real>>, alloc: seq<nat>, c: nat, d: nat, n: nat): (sum: seq<real>)
    requires n <= |alloc| == |data| && AllOfDimension(data, d)
    ensures |sum| == d
  {
    if n == 0 then Zeros(d)
    else
      var rest := SumUpTo(data, alloc, c, d, n - 1);
      if alloc[n - 1] == c then Add(rest, data[n - 1]) else rest
  }

  /** Counts of clusters `0..k` of the first `n` points, added up. */
  function TotalCount(alloc: seq<nat>, k: nat, n: nat): nat
    requires n <= |alloc|
  {
    if k == 0 then 0 else TotalCount(alloc, k - 1, n) + CountUpTo(alloc, k - 1, n)
  }

  /** The first `k` entries of `counts`, added up. */
  function SumPrefix(counts: seq<nat>, k: nat): nat
    requires k <= |counts|
  {
    if k == 0 then 0 else SumPrefix(counts, k - 1) + counts[k - 1]
  }

  /** One more point adds one to the total exactly when its cluster is among `0..k`. */
  lemma {:induction false} TotalCountStep(alloc: seq<nat>, k: nat, n: nat)
    requires 0 < n <= |alloc|
    ensures TotalCount(alloc, k, n) == TotalCount(alloc, k, n - 1) + (if alloc[n - 1] < k then 1 else 0)
  {
    if k > 0 {
      TotalCountStep(alloc, k - 1, n);
    }
  }

  /** Every point lies in exactly one of the `k` clusters, so the counts add up to the number of points. */
  lemma {:induction false} CountsAddUpToPoints(alloc: seq<nat>, k: nat, n: nat)
    requires n <= |alloc|
    requires forall i :: 0 <= i < |alloc| ==> alloc[i] < k
    ensures TotalCount(alloc, k, n) == n
  {
    if n == 0 {
      ZeroPointsZeroCount(alloc, k);
    } else {
      CountsAddUpToPoints(alloc, k, n - 1);
      TotalCountStep(alloc, k, n);
    }
  }

  lemma {:induction false} ZeroPointsZeroCount(alloc: seq<nat>, k: nat)
    ensures TotalCount(alloc, k, 0) == 0
  {
    if k > 0 {
      ZeroPointsZeroCount(alloc, k - 1);
    }
  }

  lemma {:induction false} SumPrefixOfCounts(counts: seq<nat>, alloc: seq<nat>, k: nat)
    requires k <= |counts|
    requires forall c :: 0 <= c < k ==> counts[c] == CountUpTo(alloc, c, |alloc|)
    ensures SumPrefix(counts, k) == TotalCount(alloc, k, |alloc|)
  {
    if k > 0 {
      SumPrefixOfCounts(counts, alloc, k - 1);
    }
  }

  /** A cluster with no points has the zero vector as its sum. */
  lemma {:induction false} EmptyClusterSum(data: seq<seq<real>>, alloc: seq<nat>, c: nat, d: nat, n: nat)
    requires n <= |alloc| == |data| && AllOfDimension(data, d)
    requires CountUpTo(alloc, c, n) == 0
    ensures SumUpTo(data, alloc, c, d, n) == Zeros(d)
  {
    if n > 0 {
      EmptyClusterSum(data, alloc, c, d, n - 1);
    }
  }

  /** The wipe loop: every scratch sum becomes the zero vector and every counter zero. */
  method ResetScratch(sums: seq<seq<real>>, counts: seq<nat>, d: nat) returns (sums': seq<seq<real>>, counts': seq<nat>)
    requires |sums| == |counts|
    ensures |sums'| == |sums| && |counts'| == |counts|
    ensures forall c :: 0 <= c < |sums'| ==> sums'[c] == Zeros(d) && counts'[c] == 0
  {
    sums', counts' := sums, counts;
    for i := 0 to |sums|
      invariant |sums'| == |sums| && |counts'| == |counts|
      invariant forall c :: 0 <= c < i ==> sums'[c] == Zeros(d) && counts'[c] == 0
    {
      sums' := sums'[i := Zeros(d)];
      counts' := counts'[i := 0];
    }
  }

  /** The accumulation loop: adds each point to the sum and the counter of its cluster. */
  method Accumulate(data: seq<seq<real>>, alloc: seq<nat>, d: nat, sums: seq<seq<real>>, counts: seq<nat>)
    returns (sums': seq<seq<real>>, counts': seq<nat>)
    requires AllOfDimension(data, d) && |alloc| == |data|
    requires |sums| == |counts| && forall i :: 0 <= i < |alloc| ==> alloc[i] < |sums|
    requires forall c :: 0 <= c < |sums| ==> sums[c] == Zeros(d) && counts[c] == 0
    ensures |sums'| == |sums| && |counts'| == |counts|
    ensures forall c :: 0 <= c < |sums| ==>
              counts'[c] == CountUpTo(alloc, c, |data|) && sums'[c] == SumUpTo(data, alloc, c, d, |data|)
    ensures SumPrefix(counts', |counts'|) == |data|
  {
    sums', counts' := sums, counts;
    for i := 0 to |data|
      invariant |sums'| == |sums| && |counts'| == |counts|
      invariant forall c :: 0 <= c < |sums| ==>
                  counts'[c] == CountUpTo(alloc, c, i) && sums'[c] == SumUpTo(data, alloc, c, d, i)
    {
      var clusterId := alloc[i];
      counts' := counts'[clusterId := counts'[clusterId] + 1];
      sums' := sums'[clusterId := Add(sums'[clusterId], data[i])];
    }
    SumPrefixOfCounts(counts', alloc, |counts'|);
    CountsAddUpToPoints(alloc, |counts'|, |alloc|);
  }

  // ---------------------------------------------------------------------------
  // Averaging and copy-back

  /** The new position of one centroid: the mean of its points or, if it has none, where it was. */
  function NewCentroid(sum: seq<real>, count: nat, previous: seq<real>): (r: seq<real>)
    ensures count == 0 ==> r == previous
    ensures count > 0 ==> |r| == |sum| && forall j :: 0 <= j < |sum| ==> r[j] * (count as real) == sum[j]
  {
    if count == 0 then previous else seq(|sum|, j requires 0 <= j < |sum| => sum[j] / (count as real))
  }

  /** The dividing loop: each scratch sum becomes its cluster's mean; a cluster with no
      points takes its old centroid instead of dividing by zero. */
  method Average(sums: seq<seq<real>>, counts: seq<nat>, cs: seq<seq<real>>) returns (means: seq<seq<real>>)
    requires |sums| == |counts| == |cs|
    ensures |means| == |sums|
    ensures forall c :: 0 <= c < |sums| ==> means[c] == NewCentroid(sums[c], counts[c], cs[c])
    ensures forall c :: 0 <= c < |sums| && counts[c] > 0 ==>
              |means[c]| == |sums[c]| && forall j :: 0 <= j < |sums[c]| ==> means[c][j] == sums[c][j] / (counts[c] as real)
    ensures forall c :: 0 <= c < |sums| && counts[c] == 0 ==> means[c] == cs[c]
  {
    means := sums;
    for i := 0 to |sums|
      invariant |means| == |sums|
      invariant forall c :: 0 <= c < i ==> means[c] == NewCentroid(sums[c], counts[c], cs[c])
      invariant forall c :: i <= c < |sums| ==> means[c] == sums[c]
    {
      if counts[i] == 0 {
        means := means[i := cs[i]];
      } else {
        var row := means[i];
        for j := 0 to |row|
          invariant |row| == |sums[i]|
          invariant forall k :: 0 <= k < j ==> row[k] == sums[i][k] / (counts[i] as real)
          invariant forall k :: j <= k < |row| ==> row[k] == sums[i][k]
        {
          row := row[j := row[j] / (counts[i] as real)];
        }
        means := means[i := row];
      }
    }
  }

  /** `min_ds` folded over the first `m` centroid shifts. */
  function MinShiftUpTo(minDs: real, cs: seq<seq<real>>, means: seq<seq<real>>, m: nat): (r: real)
    requires m <= |cs| == |means| && forall c :: 0 <= c < |cs| ==> |cs[c]| == |means[c]|
    ensures r <= minDs
  {
    if m == 0 then minDs else Min(MinShiftUpTo(minDs, cs, means, m - 1), SqDist(cs[m - 1], means[m - 1]))
  }

  /** The folded `min_ds` is the smallest of the starting value and the first `m` shifts:
      no shift is smaller, and it is either the starting value or one of the shifts. */
  lemma {:induction false} MinShiftIsSmallest(minDs: real, cs: seq<seq<real>>, means: seq<seq<real>>, m: nat)
    requires m <= |cs| == |means| && forall c :: 0 <= c < |cs| ==> |cs[c]| == |means[c]|
    ensures forall c :: 0 <= c < m ==> MinShiftUpTo(minDs, cs, means, m) <= SqDist(cs[c], means[c])
    ensures MinShiftUpTo(minDs, cs, means, m) == minDs ||
            exists c :: 0 <= c < m && MinShiftUpTo(minDs, cs, means, m) == SqDist(cs[c], means[c])
  {
    if m > 0 {
      MinShiftIsSmallest(minDs, cs, means, m - 1);
    }
  }

  /** The copy-back loop: moves every centroid to its new position and lowers `min_ds`
      to the smallest shift seen (never raising it). */
  method CopyBack(cs: seq<seq<real>>, means: seq<seq<real>>, minDs: real) returns (cs': seq<seq<real>>, minDs': real)
    requires |cs| == |means| && forall c :: 0 <= c < |cs| ==> |cs[c]| == |means[c]|
    ensures cs' == means
    ensures minDs' == MinShiftUpTo(minDs, cs, means, |cs|)
  {
    cs', minDs' := cs, minDs;
    for i := 0 to |cs|
      invariant |cs'| == |cs|
      invariant forall c :: 0 <= c < i ==> cs'[c] == means[c]
      invariant forall c :: i <= c < |cs| ==> cs'[c] == cs[c]
      invariant minDs' == MinShiftUpTo(minDs, cs, means, i)
    {
      var ds := SqDist(cs'[i], means[i]);
      minDs' := Min(minDs', ds);
      cs' := cs'[i := means[i]];
    }
  }

  // ---------------------------------------------------------------------------
  // The training loop as a function

  /** The new positions of the first `m` centroids under the assignment `alloc`. */
  function Means(data: seq<seq<real>>, alloc: seq<nat>, cs: seq<seq<real>>, d: nat, m: nat): (means: seq<seq<real>>)
    requires m <= |cs| && |alloc| == |data| && AllOfDimension(data, d) && AllOfDimension(cs, d)
    ensures |means| == m && AllOfDimension(means, d)
  {
    if m == 0 then []
    else
      Means(data, alloc, cs, d, m - 1) +
        [NewCentroid(SumUpTo(data, alloc, m - 1, d, |data|), CountUpTo(alloc, m - 1, |data|), cs[m - 1])]
  }

  /** Centroid `c` moves to the mean of its points, or stays put when it has none. */
  lemma {:induction false} MeansAt(data: seq<seq<real>>, alloc: seq<nat>, cs: seq<seq<real>>, d: nat, m: nat, c: nat)
    requires m <= |cs| && |alloc| == |data| && AllOfDimension(data, d) && AllOfDimension(cs, d)
    requires c < m
    ensures Means(data, alloc, cs, d, m)[c] ==
              NewCentroid(SumUpTo(data, alloc, c, d, |data|), CountUpTo(alloc, c, |data|), cs[c])
    decreases m
  {
    if c < m - 1 {
      MeansAt(data, alloc, cs, d, m - 1, c);
    }
  }

  /** The centroids after one assignment-and-averaging pass. */
  function Step(data: seq<seq<real>>, cs: seq<seq<real>>, d: nat): (next: seq<seq<real>>)
    requires |cs| >= 1 && AllOfDimension(data, d) && AllOfDimension(cs, d)
    ensures |next| == |cs| && AllOfDimension(next, d)
  {
    Means(data, Assign(data, cs, d), cs, d, |cs|)
  }

  /** One pass of the body of `fit`'s loop: clear the scratch sums and counts, assign every
      point to its nearest centroid, accumulate, average, and copy the means back. */
  method Pass(data: seq<seq<real>>, cs: seq<seq<real>>, d: nat, minDs: real,
              clusterOf: seq<nat>, sums: seq<seq<real>>, counts: seq<nat>)
    returns (cs': seq<seq<real>>, minDs': real, clusterOf': seq<nat>, sums': seq<seq<real>>, counts': seq<nat>)
    requires |cs| >= 1 && AllOfDimension(data, d) && AllOfDimension(cs, d)
    requires |clusterOf| == |data| && |sums| == |cs| && |counts| == |cs|
    ensures cs' == Step(data, cs, d)
    ensures minDs' == MinShiftUpTo(minDs, cs, cs', |cs|)
    ensures |clusterOf'| == |data| && |sums'| == |cs| && |counts'| == |cs|
  {
    sums', counts' := ResetScratch(sums, counts, d);
    clusterOf' := AssignClusters(data, cs, d, clusterOf);
    sums', counts' := Accumulate(data, clusterOf', d, sums', counts');
    var means := Average(sums', counts', cs);
    forall c | 0 <= c < |cs|
      ensures means[c] == Step(data, cs, d)[c]
    {
      MeansAt(data, clusterOf', cs, d, |cs|, c);
    }
    assert means == Step(data, cs, d);
    cs', minDs' := CopyBack(cs, means, minDs);
  }

  /** The `loop` of `fit` from the seeded centroids, allowed at most `fuel` passes, with its
      `min_ds` starting at 1000 (squared here) and its scratch buffers allocated once. */
  method Lloyd(data: seq<seq<real>>, seed: seq<seq<real>>, d: nat, fuel: nat)
    returns (cs: seq<seq<real>>, converged: bool)
    requires |seed| >= 1 && AllOfDimension(data, d) && AllOfDimension(seed, d)
    ensures var r := Run(data, seed, d, InitialMinShiftSq, fuel);
            cs == r.centroids && converged == r.converged
  {
    var k := |seed|;
    cs := seed;
    var minDs := InitialMinShiftSq;
    var clusterOf: seq<nat> := seq(|data|, _ => 0);
    var sums: seq<seq<real>> := seq(k, _ => Zeros(d));
    var counts: seq<nat> := seq(k, _ => 0);

    ghost var result := Run(data, seed, d, InitialMinShiftSq, fuel);
    var left := fuel;
    converged := false;
    while left > 0 && !converged
      invariant |cs| == k && AllOfDimension(cs, d)
      invariant |clusterOf| == |data| && |sums| == k && |counts| == k
      invariant result == if converged then RunResult(cs, minDs, true) else Run(data, cs, d, minDs, left)
      decreases left
    {
      ghost var before, beforeDs, beforeLeft := cs, minDs, left;
      cs, minDs, clusterOf, sums, counts := Pass(data, cs, d, minDs, clusterOf, sums, counts);
      converged := minDs <= ThresholdSq;
      left := left - 1;
      RunOnePass(data, before, d, beforeDs, beforeLeft, left, cs, minDs);
    }
  }

  datatype RunResult = RunResult(centroids: seq<seq<real>>, minShift: real, converged: bool)

  /** The `loop` of `fit`, allowed at most `fuel` passes: after each pass `min_ds` takes the
      smallest shift so far, and the loop stops once it is at most the threshold. */
  function Run(data: seq<seq<real>>, cs: seq<seq<real>>, d: nat, minDs: real, fuel: nat): (r: RunResult)
    requires |cs| >= 1 && AllOfDimension(data, d) && AllOfDimension(cs, d)
    ensures |r.centroids| == |cs| && AllOfDimension(r.centroids, d)
    ensures r.minShift <= minDs
    ensures minDs > ThresholdSq ==> (r.converged <==> r.minShift <= ThresholdSq)
    decreases fuel
  {
    if fuel == 0 then RunResult(cs, minDs, false)
    else
      var next := Step(data, cs, d);
      var m := MinShiftUpTo(minDs, cs, next, |cs|);
      if m <= ThresholdSq then RunResult(next, m, true) else Run(data, next, d, m, fuel - 1)
  }

  /** One unfolding of `Run`: a pass to `next` with smallest shift `m` either stops the loop
      or leaves `fuel - 1` passes from `next`. */
  lemma {:induction false} RunOnePass(data: seq<seq<real>>, cs: seq<seq<real>>, d: nat, minDs: real, fuel: nat, rest: nat,
                   next: seq<seq<real>>, m: real)
    requires |cs| >= 1 && AllOfDimension(data, d) && AllOfDimension(cs, d) && fuel == rest + 1
    requires next == Step(data, cs, d) && m == MinShiftUpTo(minDs, cs, next, |cs|)
    ensures Run(data, cs, d, minDs, fuel) ==
              if m <= ThresholdSq then RunResult(next, m, true) else Run(data, next, d, m, rest)
  {
    assert fuel - 1 == rest;
  }

  /** Because the smallest shift decides, a pass that leaves some cluster empty (so that
      its centroid stays put) ends the loop at once with `min_ds` zero. */
  lemma {:induction false} EmptyClusterStopsRun(data: seq<seq<real>>, cs: seq<seq<real>>, d: nat, minDs: real, fuel: nat, c: nat)
    requires |cs| >= 1 && AllOfDimension(data, d) && AllOfDimension(cs, d)
    requires minDs >= 0.0 && fuel >= 1
    requires c < |cs| && CountUpTo(Assign(data, cs, d), c, |data|) == 0
    ensures Run(data, cs, d, minDs, fuel) == RunResult(Step(data, cs, d), 0.0, true)
  {
    var next := Step(data, cs, d);
    MeansAt(data, Assign(data, cs, d), cs, d, |cs|, c);
    assert next[c] == cs[c];
    SqDistSelf(cs[c]);
    var m := MinShiftUpTo(minDs, cs, next, |cs|);
    MinShiftIsSmallest(minDs, cs, next, |cs|);
    assert m <= 0.0;
  }

  // ---------------------------------------------------------------------------
  // The model

  /** How `fit` ends. `InsufficientData` is the failed assertion that there are at least as
      many points as clusters; `NoClusters` is the out-of-range counter update that a model
      with no clusters reaches on its first point. */
  datatype FitOutcome = Converged | FuelExhausted | InsufficientData | NoClusters

  class KMeansClustering {
    var dimensions: nat
    var clusters: nat
    var centroids: seq<seq<real>>

    /** A model with no centroids yet. */
    constructor (dimensions: nat, clusters: nat)
      ensures this.dimensions == dimensions && this.clusters == clusters && centroids == []
    {
      this.dimensions := dimensions;
      this.clusters := clusters;
      centroids := [];
    }

    /** `fit`: refuses fewer points than clusters and otherwise seeds the centroids with
        the first `clusters` points, then runs the assignment-and-averaging loop (here at most
        `fuel` passes) until the smallest centroid shift so far is at most the threshold. */
    method Fit(data: seq<seq<real>>, fuel: nat) returns (outcome: FitOutcome)
      requires 1 <= clusters <= |data| ==> AllOfDimension(data, dimensions)
      modifies this`centroids
      ensures clusters > |data| ==> outcome == InsufficientData && centroids == old(centroids)
      ensures clusters == 0 ==> centroids == [] && outcome == (if data == [] then FuelExhausted else NoClusters)
      ensures 1 <= clusters <= |data| ==>
                var r := Run(data, data[..clusters], dimensions, InitialMinShiftSq, fuel);
                centroids == r.centroids && outcome == (if r.converged then Converged else FuelExhausted)
      ensures clusters <= |data| ==> |centroids| == clusters && AllOfDimension(centroids, dimensions)
    {
      if clusters > |data| {
        return InsufficientData;
      }
      var k, d := clusters, dimensions;

      centroids := [];
      for i := 0 to k
        invariant centroids == data[..i]
      {
        centroids := centroids + [data[i]];
      }
      if k == 0 {
        // No centroid to compare against: every point gets cluster 0, whose counter does
        // not exist; with no points the shift never drops and the loop never ends.
        return if data == [] then FuelExhausted else NoClusters;
      }
      var converged;
      centroids, converged := Lloyd(data, centroids, d, fuel);
      outcome := if converged then Converged else FuelExhausted;
    }
  }
}
