/** Peak latency histogram: a ring of the last samples with incremental bucket counts. */
module Histogram {
  import opened Sequences

  /** First bucket whose limit is not below val; values above every limit fall into
      the last bucket. */
  function BucketFrom(limits: seq<int>, val: int, i: nat): (idx: nat)
    requires i <= |limits| && |limits| > 0
    ensures idx < |limits|
    decreases |limits| - i
  {
    if i == |limits| then |limits| - 1
    else if val <= limits[i] then i
    else BucketFrom(limits, val, i + 1)
  }

  function Bucket(limits: seq<int>, val: int): (idx: nat)
    requires |limits| > 0
    ensures idx < |limits|
  {
    BucketFrom(limits, val, 0)
  }

  /** Every earlier limit is below val; idx's own limit is not, unless idx is the last. */
  predicate IsBucketOf(limits: seq<int>, val: int, idx: nat)
  {
    && idx < |limits| && (forall j :: 0 <= j < idx ==> limits[j] < val)
    && (val <= limits[idx] || idx == |limits| - 1)
  }

  lemma {:induction false} FirstBucketFrom(limits: seq<int>, val: int, i: nat)
    requires i <= |limits| && |limits| > 0 && forall j :: 0 <= j < i ==> limits[j] < val
    ensures IsBucketOf(limits, val, BucketFrom(limits, val, i))
    decreases |limits| - i
  {
    if i < |limits| && limits[i] < val {
      FirstBucketFrom(limits, val, i + 1);
    }
  }

  lemma BucketIsFirst(limits: seq<int>, val: int, idx: nat)
    requires |limits| > 0
    ensures idx == Bucket(limits, val) <==> IsBucketOf(limits, val, idx)
  {
    FirstBucketFrom(limits, val, 0);
  }

  lemma {:induction false} BucketFromMonotone(limits: seq<int>, x: int, y: int, i: nat)
    requires i <= |limits| && |limits| > 0 && x <= y
    ensures BucketFrom(limits, x, i) <= BucketFrom(limits, y, i)
    ensures i < |limits| ==> BucketFrom(limits, x, i) >= i
    decreases |limits| - i
  {
    if i < |limits| {
      BucketFromMonotone(limits, x, y, i + 1);
      BucketFromMonotone(limits, y, y, i + 1);
    }
  }

  /** How many samples fall into bucket b. */
  function InBucket(limits: seq<int>, samples: seq<int>, b: int): nat
    requires |limits| > 0
  {
    if |samples| == 0 then 0
    else InBucket(limits, samples[..|samples| - 1], b) + if Bucket(limits, samples[|samples| - 1]) == b then 1 else 0
  }

  /** How many samples fall into one of the buckets 0..b. */
  function UpTo(limits: seq<int>, samples: seq<int>, b: int): nat
    requires |limits| > 0
  {
    if |samples| == 0 then 0
    else UpTo(limits, samples[..|samples| - 1], b) + if Bucket(limits, samples[|samples| - 1]) <= b then 1 else 0
  }

  lemma {:induction false} InBucketConcat(limits: seq<int>, xs: seq<int>, ys: seq<int>, b: int)
    requires |limits| > 0
    ensures InBucket(limits, xs + ys, b) == InBucket(limits, xs, b) + InBucket(limits, ys, b)
  {
    if |ys| == 0 {
      assert xs + ys == xs;
    } else {
      var n := |ys| - 1;
      InBucketConcat(limits, xs, ys[..n], b);
      assert (xs + ys)[..|xs| + n] == xs + ys[..n];
    }
  }

  lemma {:induction false} UpToStep(limits: seq<int>, samples: seq<int>, b: nat)
    requires |limits| > 0
    ensures UpTo(limits, samples, b) == UpTo(limits, samples, b - 1) + InBucket(limits, samples, b)
    ensures UpTo(limits, samples, -1) == 0
    ensures UpTo(limits, samples, |limits| - 1) == |samples|
  {
    if |samples| > 0 {
      UpToStep(limits, samples[..|samples| - 1], b);
    }
  }

  lemma {:induction false} UpToConcat(limits: seq<int>, xs: seq<int>, ys: seq<int>, b: int)
    requires |limits| > 0
    ensures UpTo(limits, xs + ys, b) == UpTo(limits, xs, b) + UpTo(limits, ys, b)
  {
    if |ys| == 0 {
      assert xs + ys == xs;
    } else {
      var n := |ys| - 1;
      UpToConcat(limits, xs, ys[..n], b);
      assert (xs + ys)[..|xs| + n] == xs + ys[..n];
    }
  }

  lemma UpToPick(limits: seq<int>, xs: seq<int>, k: nat, b: int)
    requires |limits| > 0 && k < |xs|
    ensures multiset(xs) - multiset{xs[k]} == multiset(xs[..k] + xs[k + 1..])
    ensures UpTo(limits, xs, b)
         == UpTo(limits, xs[..k] + xs[k + 1..], b) + if Bucket(limits, xs[k]) <= b then 1 else 0
  {
    assert xs == xs[..k] + [xs[k]] + xs[k + 1..];
    UpToConcat(limits, xs[..k], xs[k + 1..], b);
    UpToConcat(limits, xs[..k] + [xs[k]], xs[k + 1..], b);
    UpToConcat(limits, xs[..k], [xs[k]], b);
  }

  lemma {:induction false} UpToPermutation(limits: seq<int>, xs: seq<int>, ys: seq<int>, b: int)
    requires |limits| > 0 && multiset(xs) == multiset(ys)
    ensures UpTo(limits, xs, b) == UpTo(limits, ys, b)
    decreases |xs|
  {
    if |xs| == 0 {
      assert |multiset(ys)| == 0;
    } else {
      assert xs[0] in multiset(ys);
      var k :| 0 <= k < |ys| && ys[k] == xs[0];
      UpToPick(limits, xs, 0, b);
      UpToPick(limits, ys, k, b);
      UpToPermutation(limits, xs[..0] + xs[1..], ys[..k] + ys[k + 1..], b);
    }
  }

  predicate Ascending(s: seq<int>) { forall i, j :: 0 <= i < j < |s| ==> s[i] <= s[j] }

  /** For samples in ascending order, at least k of them fall into buckets 0..b exactly
      when the k-th smallest does. */
  lemma {:induction false} SortedRank(limits: seq<int>, sorted: seq<int>, k: nat, b: int)
    requires |limits| > 0 && Ascending(sorted) && 0 < k <= |sorted|
    ensures UpTo(limits, sorted, b) >= k <==> Bucket(limits, sorted[k - 1]) <= b
  {
    var n := |sorted| - 1;
    if k <= n {
      SortedRank(limits, sorted[..n], k, b);
      BucketFromMonotone(limits, sorted[k - 1], sorted[n], 0);
    } else if Bucket(limits, sorted[n]) <= b {
      AllUpTo(limits, sorted, b);
    } else {
      UpToAtMost(limits, sorted[..n], b);
    }
  }

  lemma {:induction false} AllUpTo(limits: seq<int>, sorted: seq<int>, b: int)
    requires |limits| > 0 && Ascending(sorted)
    requires |sorted| > 0 ==> Bucket(limits, sorted[|sorted| - 1]) <= b
    ensures UpTo(limits, sorted, b) == |sorted|
  {
    if |sorted| > 1 {
      BucketFromMonotone(limits, sorted[|sorted| - 2], sorted[|sorted| - 1], 0);
      AllUpTo(limits, sorted[..|sorted| - 1], b);
    }
  }

  lemma {:induction false} UpToAtMost(limits: seq<int>, samples: seq<int>, b: int)
    requires |limits| > 0
    ensures UpTo(limits, samples, b) <= |samples|
  {
    if |samples| > 0 {
      UpToAtMost(limits, samples[..|samples| - 1], b);
    }
  }

  /** The 1-based rank the source computes for a percentage: the ceiling of pct% of n. */
  function Rank(n: nat, pct: nat): nat { (n * pct + 99) / 100 }

  lemma RankIsCeiling(n: nat, pct: nat)
    requires n > 0 && 0 < pct <= 100
    ensures 0 < Rank(n, pct) <= n
    ensures 100 * Rank(n, pct) >= n * pct > 100 * (Rank(n, pct) - 1)
  {
  }

  lemma RanksOrdered(n: nat)
    requires n > 0
    ensures 0 < Rank(n, 95) <= Rank(n, 98) <= n
  {
  }

  function Insert(s: seq<int>, x: int): (r: seq<int>)
    ensures |r| == |s| + 1
  {
    if |s| == 0 then [x]
    else if x <= s[0] then [x] + s
    else [s[0]] + Insert(s[1..], x)
  }

  /** The samples in ascending order. */
  function Sort(s: seq<int>): (r: seq<int>)
    ensures |r| == |s|
  {
    if |s| == 0 then [] else Insert(Sort(s[..|s| - 1]), s[|s| - 1])
  }

  lemma ConsAscending(x: int, s: seq<int>)
    requires Ascending(s) && (|s| > 0 ==> x <= s[0])
    ensures Ascending([x] + s)
  {
    forall i, j | 0 <= i < j < |[x] + s| ensures ([x] + s)[i] <= ([x] + s)[j] {
      assert ([x] + s)[j] == s[j - 1];
    }
  }

  lemma {:induction false} InsertSorts(s: seq<int>, x: int)
    requires Ascending(s)
    ensures Ascending(Insert(s, x))
    ensures |s| > 0 && x > s[0] ==> Insert(s, x)[0] == s[0]
  {
    if |s| == 0 {
    } else if x <= s[0] {
      ConsAscending(x, s);
    } else {
      InsertSorts(s[1..], x);
      ConsAscending(s[0], Insert(s[1..], x));
    }
  }

  lemma {:induction false} InsertKeeps(s: seq<int>, x: int)
    ensures multiset(Insert(s, x)) == multiset(s) + multiset{x}
  {
    if |s| > 0 && x > s[0] {
      InsertKeeps(s[1..], x);
      assert s == [s[0]] + s[1..];
    }
  }

  lemma {:induction false} SortSorts(s: seq<int>)
    ensures Ascending(Sort(s)) && multiset(Sort(s)) == multiset(s)
  {
    if |s| > 0 {
      SortSorts(s[..|s| - 1]);
      InsertSorts(Sort(s[..|s| - 1]), s[|s| - 1]);
      InsertKeeps(Sort(s[..|s| - 1]), s[|s| - 1]);
      assert s == s[..|s| - 1] + [s[|s| - 1]];
    }
  }

  /** The bucket limit of the k-th smallest sample. */
  function OrderStatistic(limits: seq<int>, samples: seq<int>, k: nat): int
    requires |limits| > 0 && 0 < k <= |samples|
  {
    limits[Bucket(limits, Sort(samples)[k - 1])]
  }

  /** The first bucket whose running count reaches the rank holds the order statistic. */
  lemma FirstBucketReachingRank(limits: seq<int>, samples: seq<int>, k: nat, b: nat)
    requires |limits| > 0 && b < |limits| && 0 < k <= |samples|
    requires UpTo(limits, samples, b) >= k && UpTo(limits, samples, b - 1) < k
    ensures OrderStatistic(limits, samples, k) == limits[b]
  {
    var sorted := Sort(samples);
    SortSorts(samples);
    UpToPermutation(limits, sorted, samples, b);
    UpToPermutation(limits, sorted, samples, b - 1);
    SortedRank(limits, sorted, k, b);
    SortedRank(limits, sorted, k, b - 1);
  }

  /** With ascending limits a higher rank never reads a smaller limit. */
  lemma OrderStatisticMonotone(limits: seq<int>, samples: seq<int>, j: nat, k: nat)
    requires |limits| > 0 && Ascending(limits) && 0 < j <= k <= |samples|
    ensures OrderStatistic(limits, samples, j) <= OrderStatistic(limits, samples, k)
  {
    SortSorts(samples);
    BucketFromMonotone(limits, Sort(samples)[j - 1], Sort(samples)[k - 1], 0);
  }

  // ----- the sliding window ---------------------------------------------------------

  lemma SlideCounts(limits: seq<int>, window: seq<int>, val: int, b: int)
    requires |limits| > 0
    ensures InBucket(limits, window + [val], b)
         == InBucket(limits, window, b) + (if Bucket(limits, val) == b then 1 else 0)
    ensures |window| > 0 ==>
              InBucket(limits, window[1..] + [val], b)
              == InBucket(limits, window, b) - (if Bucket(limits, window[0]) == b then 1 else 0)
                 + (if Bucket(limits, val) == b then 1 else 0)
  {
    InBucketConcat(limits, window, [val], b);
    InBucketConcat(limits, [], [val], b);
    assert InBucket(limits, [val], b) == if Bucket(limits, val) == b then 1 else 0;
    if |window| > 0 {
      assert window == [window[0]] + window[1..];
      InBucketConcat(limits, [window[0]], window[1..], b);
      InBucketConcat(limits, window[1..], [val], b);
    }
  }

  /** Progress of Snapshot's scan: idx is -1 until the first bucket reaching the target. */
  ghost predicate FoundAt(limits: seq<int>, samples: seq<int>, target: nat, scanned: nat, idx: int)
    requires |limits| > 0
  {
    && -1 <= idx < scanned
    && (idx == -1 ==> UpTo(limits, samples, scanned - 1) < target)
    && (idx != -1 ==> UpTo(limits, samples, idx - 1) < target <= UpTo(limits, samples, idx))
  }

  /** A completed scan always finds its bucket. */
  lemma ScanFinds(limits: seq<int>, samples: seq<int>, target: nat, idx: int)
    requires |limits| > 0 && 0 < target <= |samples|
    requires FoundAt(limits, samples, target, |limits|, idx)
    ensures 0 <= idx < |limits| && limits[idx] == OrderStatistic(limits, samples, target)
  {
    UpToStep(limits, samples, 0);
    FirstBucketReachingRank(limits, samples, target, idx);
  }

  lemma BothFound(limits: seq<int>, samples: seq<int>, j: nat, k: nat, idxJ: int, idxK: int)
    requires |limits| > 0 && 0 < j <= k <= |samples|
    requires FoundAt(limits, samples, j, |limits|, idxJ) && FoundAt(limits, samples, k, |limits|, idxK)
    ensures 0 <= idxJ < |limits| && limits[idxJ] == OrderStatistic(limits, samples, j)
    ensures 0 <= idxK < |limits| && limits[idxK] == OrderStatistic(limits, samples, k)
    ensures Ascending(limits) ==> limits[idxJ] <= limits[idxK]
  {
    ScanFinds(limits, samples, j, idxJ);
    ScanFinds(limits, samples, k, idxK);
    if Ascending(limits) {
      OrderStatisticMonotone(limits, samples, j, k);
    }
  }

  lemma NextSlot(head: nat, size: nat)
    requires head < size
    ensures (head + 1) % size == if head + 1 == size then 0 else head + 1
  {
  }

  /** Overwriting the oldest slot of a full ring and stepping over it. */
  lemma RingOverwrite(ring: seq<int>, head: nat, val: int)
    requires head < |ring|
    ensures var ring' := ring[head := val];
            var head' := if head + 1 == |ring| then 0 else head + 1;
            ring'[head'..] + ring'[..head'] == (ring[head..] + ring[..head])[1..] + [val]
  {
  }

  class PeakHistogram {
    const limits: seq<int>
    const buckets: array<int>
    const buffer: array<int>
    var head: nat
    var cur: nat
    /** Everything observed since construction or the last Reset. */
    ghost var history: seq<int>

    /** What holds between calls whichever way head is advanced. */
    ghost predicate Consistent()
      reads this, buckets, buffer
    {
      && buckets != buffer && |limits| > 0 && buckets.Length == |limits| && buffer.Length > 0
      && cur <= buffer.Length && head <= buffer.Length
      && (cur < buffer.Length ==> head == cur)
      && (forall b :: 0 <= b < |limits| ==> buckets[b] == InBucket(limits, Window(), b))
    }

    /** The retained samples, read from the oldest slot. */
    ghost function Window(): (w: seq<int>)
      reads this, buffer
      requires cur <= buffer.Length && head <= buffer.Length
      ensures |w| == cur
    {
      if cur < buffer.Length then buffer[..cur] else buffer[head..] + buffer[..head]
    }

    ghost predicate Valid()
      reads this, buckets, buffer
    {
      && Consistent() && head < buffer.Length
      && Window() == Suffix(history, buffer.Length)
    }

    constructor (maxSamples: nat, limits: seq<int>)
      requires maxSamples > 0 && |limits| > 0
      ensures Valid() && AsWritten() && history == [] && buffer.Length == maxSamples && this.limits == limits
      ensures fresh(buckets) && fresh(buffer)
    {
      this.limits := limits;
      buckets := new int[|limits|](_ => 0);
      buffer := new int[maxSamples](_ => 0);
      head, cur, history := 0, 0, [];
    }

    method BucketIndex(val: int) returns (idx: nat)
      requires |limits| > 0
      ensures IsBucketOf(limits, val, idx) && idx == Bucket(limits, val)
    {
      BucketIsFirst(limits, val, |limits| - 1);
      for i := 0 to |limits|
        invariant forall j :: 0 <= j < i ==> limits[j] < val
      {
        if val <= limits[i] {
          BucketIsFirst(limits, val, i);
          return i;
        }
      }
      return |limits| - 1;
    }

    /** Observe with the head wrapping to 0 when the buffer fills, as the ring branch
        assumes. */
    method Observe(val: int)
      requires Valid()
      modifies this, buckets, buffer
      ensures Valid() && history == old(history) + [val]
    {
      SuffixSnoc(history, buffer.Length, val);
      if cur < buffer.Length {
        Fill(val);
        if head == buffer.Length {
          ghost var filled := Window();
          head := 0;
          assert Window() == filled;
        }
      } else {
        Overwrite(val);
      }
    }

    /** Observe exactly as the source has it: filling the last slot leaves head one past
        the end. ok == false is the index-out-of-range panic of the next call. */
    method ObserveAsWritten(val: int) returns (ok: bool)
      requires Consistent()
      modifies this, buckets, buffer
      ensures Consistent()
      ensures ok <==> old(cur) < buffer.Length || old(head) < buffer.Length
      ensures ok ==> history == old(history) + [val]
      ensures !ok ==> unchanged(this) && unchanged(buckets) && unchanged(buffer)
      ensures old(AsWritten()) ==> AsWritten() && (ok <==> |old(history)| < buffer.Length)
    {
      if cur < buffer.Length {
        Fill(val);
        ok := true;
      } else if head < buffer.Length {
        Overwrite(val);
        ok := true;
      } else {
        ok := false;
      }
    }

    /** The states the source's own Observe and Reset reach. */
    ghost predicate AsWritten()
      reads this, buckets, buffer
    {
      Consistent() && head == cur && Window() == history
    }

    method Fill(val: int)
      requires Consistent() && cur < buffer.Length
      modifies this, buckets, buffer
      ensures Consistent() && cur == old(cur) + 1 && head == old(head) + 1
      ensures Window() == old(Window()) + [val] && history == old(history) + [val]
    {
      var idx := BucketIndex(val);
      ghost var before := Window();
      forall b {
        SlideCounts(limits, before, val, b);
      }
      buffer[head] := val;
      buckets[idx] := buckets[idx] + 1;
      head, cur := head + 1, cur + 1;
      history := history + [val];
      assert Window() == before + [val];
    }

    /** One value leaves the counts and another enters. */
    method Recount(oldVal: int, val: int)
      requires |limits| == buckets.Length && |limits| > 0
      modifies buckets
      ensures forall b :: 0 <= b < |limits| ==>
                buckets[b] == old(buckets[b]) - (if Bucket(limits, oldVal) == b then 1 else 0)
                              + (if Bucket(limits, val) == b then 1 else 0)
    {
      var idx := BucketIndex(val);
      var oldIdx := BucketIndex(oldVal);
      buckets[oldIdx] := buckets[oldIdx] - 1;
      buckets[idx] := buckets[idx] + 1;
    }

    method Overwrite(val: int)
      requires Consistent() && cur == buffer.Length && head < buffer.Length
      modifies this, buckets, buffer
      ensures Consistent() && cur == old(cur) && head < buffer.Length
      ensures Window() == old(Window())[1..] + [val] && history == old(history) + [val]
    {
      ghost var before := Window();
      forall b {
        SlideCounts(limits, before, val, b);
      }
      assert buffer[head] == before[0];
      Recount(buffer[head], val);
      RingOverwrite(buffer[..], head, val);
      ghost var ring := buffer[..][head := val];
      buffer[head] := val;
      assert buffer[..] == ring;
      NextSlot(head, buffer.Length);
      head := (head + 1) % buffer.Length;
      history := history + [val];
      assert Window() == ring[head..] + ring[..head];
    }

    /** The two results are order statistics at the 95% and 98% ranks, whatever their
        names in the source say. */
    method Snapshot() returns (first: int, second: int)
      requires Consistent()
      ensures cur == 0 ==> first == 0 && second == 0
      ensures cur > 0 ==>
                && 0 < Rank(cur, 95) <= Rank(cur, 98) <= cur
                && first == OrderStatistic(limits, Window(), Rank(cur, 95))
                && second == OrderStatistic(limits, Window(), Rank(cur, 98))
                && (Ascending(limits) ==> first <= second)
    {
      first, second := 0, 0;
      var total := cur;
      if total == 0 {
        return;
      }
      var p95Target := (total * 95 + 99) / 100;
      var p98Target := (total * 98 + 99) / 100;
      RanksOrdered(cur);
      assert p95Target == Rank(cur, 95) && p98Target == Rank(cur, 98);
      ghost var window := Window();
      var p95Idx, p98Idx := Scan(p95Target, p98Target);
      BothFound(limits, window, p95Target, p98Target, p95Idx, p98Idx);
      if p95Idx != -1 {
        first := limits[p95Idx];
      }
      if p98Idx != -1 {
        second := limits[p98Idx];
      }
    }

    /** Snapshot's single pass over the running bucket counts. */
    method Scan(p95Target: nat, p98Target: nat) returns (p95Idx: int, p98Idx: int)
      requires Consistent()
      ensures FoundAt(limits, Window(), p95Target, |limits|, p95Idx)
      ensures FoundAt(limits, Window(), p98Target, |limits|, p98Idx)
      requires p95Target > 0 && p98Target > 0
    {
      var sum := 0;
      p95Idx, p98Idx := -1, -1;
      UpToStep(limits, Window(), 0);
      for i := 0 to buckets.Length
        invariant sum == UpTo(limits, Window(), i - 1)
        invariant FoundAt(limits, Window(), p95Target, i, p95Idx)
        invariant FoundAt(limits, Window(), p98Target, i, p98Idx)
      {
        UpToStep(limits, Window(), i);
        sum := sum + buckets[i];
        if p95Idx == -1 && sum >= p95Target {
          p95Idx := i;
        }
        if p98Idx == -1 && sum >= p98Target {
          p98Idx := i;
        }
      }
    }

    method Reset()
      requires Consistent()
      modifies this, buckets
      ensures Valid() && AsWritten() && history == []
    {
      for i := 0 to buckets.Length
        invariant forall b :: 0 <= b < i ==> buckets[b] == 0
      {
        buckets[i] := 0;
      }
      head, cur, history := 0, 0, [];
    }

    /** Bucket counts are never negative and add up to the retained samples. */
    lemma BucketsAddUp()
      requires Consistent()
      ensures forall b :: 0 <= b < |limits| ==> buckets[b] >= 0
      ensures SumTo(buckets[..], buckets.Length) == cur
    {
      SumIsUpTo(limits, Window(), buckets[..], |limits|);
      UpToStep(limits, Window(), 0);
    }
  }

  function SumTo(counts: seq<int>, n: nat): int
    requires n <= |counts|
  {
    if n == 0 then 0 else SumTo(counts, n - 1) + counts[n - 1]
  }

  lemma {:induction false} SumIsUpTo(limits: seq<int>, samples: seq<int>, counts: seq<int>, n: nat)
    requires n <= |limits| == |counts| && |limits| > 0
    requires forall b :: 0 <= b < |limits| ==> counts[b] == InBucket(limits, samples, b)
    ensures SumTo(counts, n) == UpTo(limits, samples, n - 1)
  {
    UpToStep(limits, samples, 0);
    if n > 0 {
      SumIsUpTo(limits, samples, counts, n - 1);
      UpToStep(limits, samples, n - 1);
    }
  }

  /** The smallest run of the source's own Observe that panics: one slot, two samples. */
  method SecondSamplePanics() returns (first: bool, second: bool)
    ensures first && !second
  {
    var h := new PeakHistogram(1, [10]);
    first := h.ObserveAsWritten(3);
    second := h.ObserveAsWritten(4);
  }
}
