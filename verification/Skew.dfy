/** R7: what a skew finding means, and when summing equal replicas preserves it. The size-factor test scales
    up to an integer division; the byte gate in front of it scales outright. */
module Skew {
  import opened Seqs
  import opened Types
  import opened Helpers
  import opened Rules
  import opened Detectors
  import opened Sorting

  /** R7's size test on partition sizes in any order. */
  predicate Skewed(factor: real, sizes: seq<int>) { SortedSkewed(factor, Ascending(sizes)) }

  /** R7's decision and its evidence (median and maximum of the ascending sizes) depend on the
      multiset of sizes and not on the order the partitions come in. */
  lemma OnlySizesMatter(factor: real, a: seq<int>, b: seq<int>)
    requires multiset(a) == multiset(b)
    ensures Ascending(a) == Ascending(b) && Skewed(factor, a) == Skewed(factor, b)
  {
    AscendingIsOrderFree(a, b);
  }

  // ---- Meaning ----

  function Small(factor: real, max: int): int -> bool {
    (x: int) => factor * x as real < max as real
  }

  function Counts(p: int -> bool): int -> int {
    (x: int) => if p(x) then 1 else 0
  }

  lemma {:induction false} FilterSize(p: int -> bool, s: seq<int>)
    ensures |Filter(p, s)| == SumI(Counts(p), s)
  {
    if s != [] {
      FilterSize(p, s[..|s| - 1]);
    }
  }

  lemma FilterSizePermutes(p: int -> bool, a: seq<int>, b: seq<int>)
    requires multiset(a) == multiset(b)
    ensures |Filter(p, a)| == |Filter(p, b)|
  {
    FilterSize(p, a);
    FilterSize(p, b);
    SumIPermutation(Counts(p), a, b);
  }

  lemma FilterKeepsPrefix(p: int -> bool, s: seq<int>, k: nat)
    requires k <= |s| && forall i :: 0 <= i < k ==> p(s[i])
    ensures |Filter(p, s)| >= k
  {
    assert s == s[..k] + s[k..];
    FilterAppend(p, s[..k], s[k..]);
    FilterAll(p, s[..k]);
  }

  /** The half of the sizes below the middle is at most the median. */
  lemma LowerHalfBelowMedian(sizes: seq<int>, i: nat)
    requires forall i, j :: 0 <= i < j < |sizes| ==> sizes[i] <= sizes[j]
    requires 2 * i < |sizes|
    ensures sizes[i] <= Median(sizes)
  {
    var n := |sizes|;
    if n % 2 == 0 {
      assert sizes[n / 2 - 1] <= sizes[n / 2];
      assert i < n / 2 - 1 ==> sizes[i] <= sizes[n / 2 - 1];
    } else {
      assert i < n / 2 ==> sizes[i] <= sizes[n / 2];
    }
  }

  lemma LowerHalfIsSmall(factor: real, asc: seq<int>, i: nat)
    requires factor >= 0.0 && SortedSkewed(factor, asc) && 2 * i < |asc|
    requires forall i, j :: 0 <= i < j < |asc| ==> asc[i] <= asc[j]
    ensures Small(factor, asc[|asc| - 1])(asc[i])
  {
    LowerHalfBelowMedian(asc, i);
    hide Median;
    Scaling(factor, asc[i] as real, Median(asc) as real);
  }

  /** A flagged topic has a largest partition, and at least half of its partitions are smaller
      than that one by more than the skew factor. */
  lemma HalfAreFarBelowTheMax(factor: real, sizes: seq<int>) returns (max: int)
    requires factor >= 0.0 && Skewed(factor, sizes)
    ensures max in sizes && forall x :: x in sizes ==> x <= max
    ensures 2 * |Filter(Small(factor, max), sizes)| >= |sizes|
  {
    hide StableSort, Median, Small, Filter;
    var asc := Ascending(sizes);
    AscendingIsSorted(sizes);
    max := asc[|asc| - 1];
    LastIsMax(asc, sizes);
    var k := (|asc| + 1) / 2;
    forall i | 0 <= i < k
      ensures Small(factor, max)(asc[i])
    {
      LowerHalfIsSmall(factor, asc, i);
    }
    FilterKeepsPrefix(Small(factor, max), asc, k);
    FilterSizePermutes(Small(factor, max), asc, sizes);
  }

  lemma LastIsMax(asc: seq<int>, sizes: seq<int>)
    requires asc != [] && multiset(asc) == multiset(sizes)
    requires forall i, j :: 0 <= i < j < |asc| ==> asc[i] <= asc[j]
    ensures asc[|asc| - 1] in sizes && forall x :: x in sizes ==> x <= asc[|asc| - 1]
  {
    assert asc[|asc| - 1] in multiset(sizes);
    forall x | x in sizes
      ensures x <= asc[|asc| - 1]
    {
      assert x in multiset(asc);
    }
  }

  // ---- Scaling every partition by a replica count ----

  function Mul(k: int): int -> int { (x: int) => k * x }

  function Scaled(k: int, sizes: seq<int>): seq<int> { Map(Mul(k), sizes) }

  lemma SortingScales(k: int, sizes: seq<int>)
    requires k >= 1
    ensures Ascending(Scaled(k, sizes)) == Scaled(k, Ascending(sizes))
  {
    AscendingIsSorted(sizes);
    StableSortCorrect(IntLess, Scaled(k, sizes));
    SortPermutes(IntLess, Scaled(k, sizes));
    MapPermutation(Mul(k), Ascending(sizes), sizes);
    var a, b := Ascending(Scaled(k, sizes)), Scaled(k, Ascending(sizes));
    assert Sorted(IntLess, b) by {
      forall i, j | 0 <= i < j < |b|
        ensures !IntLess(b[j], b[i])
      {
        OrderScales(k, Ascending(sizes)[i], Ascending(sizes)[j]);
      }
    }
    hide StableSort;
    SortedPermutationsAgree(IntLess, a, b);
  }

  lemma OrderScales(k: int, x: int, y: int)
    requires k >= 1 && x <= y
    ensures k * x <= k * y
  {
  }

  /** Twice the median, before the integer division: the middle element doubled, or the middle pair. */
  function MiddleSum(asc: seq<int>): int
    requires asc != []
  {
    var n := |asc|;
    if n % 2 == 1 then 2 * asc[n / 2] else asc[n / 2 - 1] + asc[n / 2]
  }

  lemma MedianIsHalfTheMiddle(asc: seq<int>, k: int)
    requires asc != [] && k >= 1
    ensures Median(asc) == Half(MiddleSum(asc))
    ensures Median(Scaled(k, asc)) == Half(k * MiddleSum(asc))
  {
    var n := |asc|;
    if n % 2 == 1 {
      var m := asc[n / 2];
      assert k * (2 * m) == 2 * (k * m);
    } else {
      var a, b := asc[n / 2 - 1], asc[n / 2];
      assert k * (a + b) == k * a + k * b;
    }
  }

  /** The size test in terms of the maximum and the middle sum, at scale k. */
  predicate FlaggedAt(factor: real, max: int, sum: int, k: int) {
    Half(k * sum) > 0 && (k * max) as real > factor * Half(k * sum) as real
  }

  lemma SortedSkewedAtScale(factor: real, asc: seq<int>, k: int)
    requires asc != [] && k >= 1
    ensures SortedSkewed(factor, Scaled(k, asc)) == FlaggedAt(factor, asc[|asc| - 1], MiddleSum(asc), k)
  {
    MedianIsHalfTheMiddle(asc, k);
    assert Scaled(k, asc)[|asc| - 1] == k * asc[|asc| - 1];
    hide Half, MiddleSum, Median, Scaled;
  }

  lemma SkewedAtScale(factor: real, sizes: seq<int>, k: int)
    requires sizes != [] && k >= 1
    ensures var asc := Ascending(sizes);
            asc != [] && Skewed(factor, Scaled(k, sizes)) == FlaggedAt(factor, asc[|asc| - 1], MiddleSum(asc), k)
  {
    AscendingIsSorted(sizes);
    SortingScales(k, sizes);
    SortedSkewedAtScale(factor, Ascending(sizes), k);
    hide *;
  }

  /** When the integer division in the median can never change R7's mind, whatever the replica count:
      the middle sum is even (always so for an odd partition count) or not positive, or the maximum is
      not in the band that losing the half opens. */
  predicate ScaleProof(factor: real, max: int, sum: int) {
    || sum % 2 == 0
    || sum <= 0
    || (sum == 1 && 3.0 * max as real <= factor)
    || (sum >= 3 && !(factor * (sum / 2) as real < max as real && 2.0 * max as real <= factor * sum as real))
  }

  lemma EvenSumScales(factor: real, max: int, sum: int, k: int)
    requires k >= 1 && (sum % 2 == 0 || sum <= 0)
    ensures FlaggedAt(factor, max, sum, k) == FlaggedAt(factor, max, sum, 1)
  {
    if sum <= 0 {
      OrderScales(k, sum, 0);
    } else {
      var m := sum / 2;
      assert k * sum == 2 * (k * m);
      assert Half(k * sum) == k * m && Half(1 * sum) == m;
      OrderScales(k, 1, m);
      CancelScale(factor, max, m, k);
    }
  }

  lemma CancelScale(factor: real, max: int, m: int, k: int)
    requires k >= 1
    ensures (k * max) as real > factor * (k * m) as real <==> max as real > factor * m as real
  {
    var d, c := max as real - factor * m as real, k as real;
    assert (k * max) as real - factor * (k * m) as real == c * d;
    SignOfProduct(c, d);
  }

  lemma SignOfProduct(c: real, d: real)
    requires c > 0.0
    ensures c * d > 0.0 <==> d > 0.0
  {
  }

  /** An odd positive middle sum loses up to a half in the division, and more copies lose less of it. */
  lemma HalvesOfOdd(sum: int, k: int)
    requires k >= 1 && sum >= 1 && sum % 2 == 1
    ensures k * (sum / 2) <= Half(k * sum) && 2 * Half(k * sum) <= k * sum
    ensures sum == 1 && k >= 2 ==> 3 * Half(k * sum) >= k
  {
    var m := sum / 2;
    assert k * sum == 2 * (k * m) + k;
  }

  /** Below the band: not flagged once, never flagged. */
  lemma BelowTheBand(factor: real, max: int, sum: int, k: int)
    requires factor >= 0.0 && k >= 1 && sum >= 3 && sum % 2 == 1
    requires max as real <= factor * (sum / 2) as real
    ensures !FlaggedAt(factor, max, sum, k)
  {
    var m, half := sum / 2, Half(k * sum);
    HalvesOfOdd(sum, k);
    hide Half;
    Scaling(factor, (k * m) as real, half as real);
    CancelScale(factor, max, m, k);
  }

  /** Above the band: flagged once, always flagged. */
  lemma AboveTheBand(factor: real, max: int, sum: int, k: int)
    requires factor >= 0.0 && k >= 1 && sum >= 3 && sum % 2 == 1
    requires 2.0 * max as real > factor * sum as real
    ensures FlaggedAt(factor, max, sum, k)
  {
    var half := Half(k * sum);
    HalvesOfOdd(sum, k);
    OrderScales(sum / 2, 1, k);
    assert half > 0;
    hide Half;
    Scaling(factor, (2 * half) as real, (k * sum) as real);
    assert (2 * max) as real > factor * sum as real;
    CancelScale(factor, 2 * max, sum, k);
    assert k * (2 * max) == 2 * (k * max);
    assert factor * (2 * half) as real == 2.0 * (factor * half as real);
  }

  /** A middle sum of one is a zero median, but not once it is scaled. */
  lemma SmallestMiddle(factor: real, max: int, k: int)
    requires factor >= 0.0 && k >= 2 && 3.0 * max as real <= factor
    ensures !FlaggedAt(factor, max, 1, k)
  {
    var half := Half(k * 1);
    HalvesOfOdd(1, k);
    hide Half;
    Scaling(factor, k as real, (3 * half) as real);
    CancelScale(factor, 3 * max, 1, k);
    assert k * (3 * max) == 3 * (k * max);
    OneThird(factor, k * max, half);
  }

  lemma OneThird(factor: real, a: int, h: int)
    requires (3 * a) as real <= factor * (3 * h) as real
    ensures a as real <= factor * h as real
  {
  }

  lemma ScaleProofSuffices(factor: real, max: int, sum: int, k: int)
    requires factor >= 0.0 && k >= 1 && ScaleProof(factor, max, sum)
    ensures FlaggedAt(factor, max, sum, k) == FlaggedAt(factor, max, sum, 1)
  {
    if sum % 2 == 0 || sum <= 0 {
      EvenSumScales(factor, max, sum, k);
    } else if sum == 1 {
      if k > 1 {
        SmallestMiddle(factor, max, k);
      }
    } else if 2.0 * max as real > factor * sum as real {
      AboveTheBand(factor, max, sum, k);
      AboveTheBand(factor, max, sum, 1);
    } else {
      BelowTheBand(factor, max, sum, k);
      BelowTheBand(factor, max, sum, 1);
    }
  }

  /** In the band, two copies unflag the topic; with a middle sum of one, three copies flag it. */
  lemma ScaleProofIsNeeded(factor: real, max: int, sum: int)
    requires factor >= 0.0 && !ScaleProof(factor, max, sum)
    ensures FlaggedAt(factor, max, sum, if sum == 1 then 3 else 2) != FlaggedAt(factor, max, sum, 1)
  {
    if sum == 1 {
      assert Half(1 * 1) == 0 && Half(3 * 1) == 1;
    } else {
      assert Half(1 * sum) == sum / 2 && Half(2 * sum) == sum;
    }
  }

  /** The size-factor test gives one answer at every replica count exactly when the sizes are scale-proof. So
      summing equal replicas preserves the distribution for odd counts and even middle sums, and otherwise
      outside the band only. */
  lemma SkewSurvivesReplicationIff(factor: real, sizes: seq<int>)
    requires factor >= 0.0 && sizes != []
    ensures var asc := Ascending(sizes);
            asc != [] &&
            ((forall k :: k >= 1 ==> Skewed(factor, Scaled(k, sizes)) == Skewed(factor, sizes))
             <==> ScaleProof(factor, asc[|asc| - 1], MiddleSum(asc)))
  {
    SkewedAtScale(factor, sizes, 1);
    ScaledOnce(sizes);
    hide Skewed, Ascending, MiddleSum, FlaggedAt, ScaleProof, Scaled;
    var asc := Ascending(sizes);
    var max, sum := asc[|asc| - 1], MiddleSum(asc);
    if ScaleProof(factor, max, sum) {
      forall k | k >= 1
        ensures Skewed(factor, Scaled(k, sizes)) == Skewed(factor, sizes)
      {
        SkewedAtScale(factor, sizes, k);
        ScaleProofSuffices(factor, max, sum, k);
      }
    } else {
      SkewedAtScale(factor, sizes, if sum == 1 then 3 else 2);
      ScaleProofIsNeeded(factor, max, sum);
    }
  }

  lemma ScaledOnce(sizes: seq<int>)
    ensures Scaled(1, sizes) == sizes
  {
    assert forall x :: Mul(1)(x) == x;
  }

  // ---- The whole decision: the byte gate scales too ----

  /** The topic as collected when every partition has k copies of these sizes. */
  function Replicated(t: Topic, sizes: seq<int>, k: int): Topic {
    t.(partitionBytes := Scaled(k, sizes), retainedBytes := k * SumI(Itself, sizes))
  }

  lemma DecisionAtScale(cfg: R7Config, t: Topic, sizes: seq<int>, k: int)
    requires sizes != [] && k >= 1
    ensures var asc := Ascending(sizes);
            asc != [] &&
            (R7Fires(cfg, Replicated(t, sizes, k))
             <==> |sizes| >= cfg.minPartitions && k * SumI(Itself, sizes) >= cfg.minTopicBytes
                  && FlaggedAt(cfg.skewFactor, asc[|asc| - 1], MiddleSum(asc), k))
  {
    SkewedAtScale(cfg.skewFactor, sizes, k);
    hide Ascending, MiddleSum, FlaggedAt, SortedSkewed;
  }

  /** The first odd replica count from k on. */
  function OddFrom(k: int): int { if k % 2 == 1 then k else k + 1 }

  /** The first replica count at which this many bytes a copy reach the minimum. */
  function FirstOver(min: int, bytes: int): int
    requires bytes > 0
  {
    if min <= bytes then 1 else (min + bytes - 1) / bytes
  }

  lemma FirstOverIsFirst(min: int, bytes: int, k: int)
    requires bytes > 0 && k >= 1
    ensures FirstOver(min, bytes) >= 1
    ensures k * bytes >= min <==> k >= FirstOver(min, bytes)
  {
    if min > bytes {
      var n := (min + bytes - 1) / bytes;
      assert (n - 1) * bytes < min <= n * bytes;
      if k >= n {
        OrderScales(bytes, n, k);
      } else {
        OrderScales(bytes, k, n - 1);
      }
    } else {
      OrderScales(bytes, 1, k);
    }
  }

  lemma MoreCopies(bytes: int, k: int)
    requires k >= 1
    ensures bytes >= 0 ==> k * bytes >= bytes
    ensures bytes <= 0 ==> k * bytes <= bytes
  {
    assert k * bytes - bytes == (k - 1) * bytes;
  }

  /** Whether some replica count from `first` on passes the size-factor test: the maximum is above the exact
      factor of the middle, or the lost half tips it at the first odd count. */
  predicate FlaggedFrom(factor: real, max: int, sum: int, first: int) {
    && sum > 0
    && (|| 2.0 * max as real > factor * sum as real
        || (sum % 2 == 1 && OddFrom(first) as real * (factor * sum as real - 2.0 * max as real) < factor))
  }

  /** The size-factor test with the division written out: odd counts of an odd middle sum lose a half. */
  lemma FlaggedAtExactly(factor: real, max: int, sum: int, k: int)
    requires factor >= 0.0 && k >= 2 && sum > 0
    ensures FlaggedAt(factor, max, sum, k)
            <==> if k % 2 == 1 && sum % 2 == 1
                 then k as real * (factor * sum as real - 2.0 * max as real) < factor
                 else 2.0 * max as real > factor * sum as real
  {
    var half := Half(k * sum);
    OrderScales(k, 1, sum);
    if k % 2 == 1 && sum % 2 == 1 {
      OddTimesOdd(k, sum);
      assert 2 * half == k * sum - 1 && half > 0;
      hide Half;
      OddCount(factor, max, sum, k, half);
    } else {
      EvenProduct(k, sum);
      assert 2 * half == k * sum && half > 0;
      hide Half;
      EvenCount(factor, max, sum, k, half);
    }
  }

  lemma OddTimesOdd(k: int, sum: int)
    requires k % 2 == 1 && sum % 2 == 1
    ensures (k * sum) % 2 == 1
  {
    var a, b := k / 2, sum / 2;
    assert k * sum == (2 * a + 1) * sum == 2 * (a * sum) + sum;
  }

  lemma EvenProduct(k: int, sum: int)
    requires k % 2 == 0 || sum % 2 == 0
    ensures (k * sum) % 2 == 0
  {
    if k % 2 == 0 {
      assert k * sum == 2 * (k / 2 * sum);
    } else {
      assert k * sum == 2 * (k * (sum / 2));
    }
  }

  lemma EvenCount(factor: real, max: int, sum: int, k: int, half: int)
    requires k >= 1 && 2 * half == k * sum
    ensures (k * max) as real > factor * half as real <==> 2.0 * max as real > factor * sum as real
  {
    CancelScale(factor, 2 * max, sum, k);
    assert k * (2 * max) == 2 * (k * max);
    assert factor * (2 * half) as real == 2.0 * (factor * half as real);
  }

  lemma OddCount(factor: real, max: int, sum: int, k: int, half: int)
    requires 2 * half == k * sum - 1
    ensures (k * max) as real > factor * half as real
            <==> k as real * (factor * sum as real - 2.0 * max as real) < factor
  {
    var c, s, h, m := k as real, sum as real, half as real, max as real;
    assert 2.0 * h == (k * sum) as real - 1.0 == c * s - 1.0;
    assert 2.0 * (factor * h) == factor * (2.0 * h) == factor * (c * s) - factor;
    assert c * (factor * s - 2.0 * m) == factor * (c * s) - 2.0 * (c * m);
    assert (k * max) as real == c * m;
  }

  lemma FlaggedFromIff(factor: real, max: int, sum: int, first: int)
    requires factor >= 0.0 && first >= 2
    ensures (exists k :: k >= first && FlaggedAt(factor, max, sum, k)) <==> FlaggedFrom(factor, max, sum, first)
  {
    hide FlaggedAt;
    var odd := OddFrom(first);
    if FlaggedFrom(factor, max, sum, first) {
      var even := if first % 2 == 0 then first else first + 1;
      FlaggedAtExactly(factor, max, sum, odd);
      FlaggedAtExactly(factor, max, sum, even);
    }
    forall k | k >= first && FlaggedAt(factor, max, sum, k)
      ensures FlaggedFrom(factor, max, sum, first)
    {
      if sum <= 0 {
        NoMiddle(factor, max, sum, k);
      } else {
        FlaggedAtExactly(factor, max, sum, k);
        var short := factor * sum as real - 2.0 * max as real;
        if short >= 0.0 {
          assert k >= odd;
          Scaling(short, odd as real, k as real);
        }
      }
    }
  }

  lemma NoMiddle(factor: real, max: int, sum: int, k: int)
    requires sum <= 0 && k >= 1
    ensures !FlaggedAt(factor, max, sum, k)
  {
    OrderScales(k, sum, 0);
  }

  /** A topic below R7's byte gate with one copy: some replica count gets it flagged exactly when it holds
      anything and its sizes pass the factor test from the first count over the gate on. */
  lemma ReplicationAddsAFlagIff(cfg: R7Config, t: Topic, sizes: seq<int>)
    requires cfg.skewFactor >= 0.0 && sizes != [] && |sizes| >= cfg.minPartitions
    requires SumI(Itself, sizes) < cfg.minTopicBytes
    ensures var asc, bytes := Ascending(sizes), SumI(Itself, sizes);
            asc != [] &&
            ((exists k :: k >= 1 && R7Fires(cfg, Replicated(t, sizes, k)))
             <==> bytes > 0 && FlaggedFrom(cfg.skewFactor, asc[|asc| - 1], MiddleSum(asc),
                                           FirstOver(cfg.minTopicBytes, bytes)))
  {
    DecisionAtScale(cfg, t, sizes, 1);
    hide R7Fires, Replicated, Ascending, MiddleSum, FlaggedAt, FlaggedFrom, FirstOver;
    var asc, bytes, min := Ascending(sizes), SumI(Itself, sizes), cfg.minTopicBytes;
    var max, sum := asc[|asc| - 1], MiddleSum(asc);
    forall k | k >= 1
      ensures R7Fires(cfg, Replicated(t, sizes, k)) <==> k * bytes >= min && FlaggedAt(cfg.skewFactor, max, sum, k)
      ensures bytes <= 0 ==> k * bytes < min
      ensures bytes > 0 ==> (k * bytes >= min <==> k >= FirstOver(min, bytes))
    {
      DecisionAtScale(cfg, t, sizes, k);
      if bytes > 0 {
        FirstOverIsFirst(min, bytes, k);
      } else {
        MoreCopies(bytes, k);
      }
    }
    if bytes > 0 {
      FirstOverIsFirst(min, bytes, 1);
      FlaggedFromIff(cfg.skewFactor, max, sum, FirstOver(min, bytes));
    }
  }

  /** When R7 gives one answer at every replica count. Above the byte gate the sizes must be scale-proof; below
      it, no count may reach the gate and flag the topic. */
  predicate SameAtEveryCount(cfg: R7Config, sizes: seq<int>)
    requires |Ascending(sizes)| == |sizes|
  {
    sizes != [] && |sizes| >= cfg.minPartitions ==>
      var asc, bytes := Ascending(sizes), SumI(Itself, sizes);
      var max, sum := asc[|asc| - 1], MiddleSum(asc);
      if bytes >= cfg.minTopicBytes then ScaleProof(cfg.skewFactor, max, sum)
      else bytes <= 0 || !FlaggedFrom(cfg.skewFactor, max, sum, FirstOver(cfg.minTopicBytes, bytes))
  }

  /** Above the byte gate the whole decision is the size-factor test. */
  lemma AboveTheGate(cfg: R7Config, t: Topic, sizes: seq<int>, k: int)
    requires sizes != [] && |sizes| >= cfg.minPartitions && k >= 1
    requires SumI(Itself, sizes) >= cfg.minTopicBytes && SumI(Itself, sizes) >= 0
    ensures R7Fires(cfg, Replicated(t, sizes, k)) == Skewed(cfg.skewFactor, Scaled(k, sizes))
  {
    MoreCopies(SumI(Itself, sizes), k);
    hide Ascending, SortedSkewed, SumI;
  }

  /** R7 decides alike at every replica count exactly under SameAtEveryCount. */
  lemma DecisionSurvivesReplicationIff(cfg: R7Config, t: Topic, sizes: seq<int>)
    requires cfg.skewFactor >= 0.0 && SumI(Itself, sizes) >= 0
    ensures |Ascending(sizes)| == |sizes|
    ensures (forall k :: k >= 1 ==> R7Fires(cfg, Replicated(t, sizes, k)) == R7Fires(cfg, Replicated(t, sizes, 1)))
            <==> SameAtEveryCount(cfg, sizes)
  {
    AscendingIsSorted(sizes);
    if sizes == [] || |sizes| < cfg.minPartitions {
      forall k
        ensures !R7Fires(cfg, Replicated(t, sizes, k))
      {
        TooFewPartitions(cfg, t, sizes, k);
      }
    } else if SumI(Itself, sizes) >= cfg.minTopicBytes {
      SkewSurvivesReplicationIff(cfg.skewFactor, sizes);
      ScaledOnce(sizes);
      hide R7Fires, Replicated, Ascending, MiddleSum, Skewed, ScaleProof, Scaled;
      forall k | k >= 1
        ensures R7Fires(cfg, Replicated(t, sizes, k)) == Skewed(cfg.skewFactor, Scaled(k, sizes))
      {
        AboveTheGate(cfg, t, sizes, k);
      }
      AboveTheGate(cfg, t, sizes, 1);
    } else {
      ReplicationAddsAFlagIff(cfg, t, sizes);
      DecisionAtScale(cfg, t, sizes, 1);
      hide R7Fires, Replicated, Ascending, MiddleSum, FlaggedFrom, FlaggedAt, FirstOver;
    }
  }

  lemma TooFewPartitions(cfg: R7Config, t: Topic, sizes: seq<int>, k: int)
    requires sizes == [] || |sizes| < cfg.minPartitions
    ensures !R7Fires(cfg, Replicated(t, sizes, k))
  {
    AscendingIsSorted(Scaled(k, sizes));
  }

  /** With one copy over the byte gate and a positive median, a flag at any replica count is a flag at one. */
  lemma ScalingNeverAddsAFlag(cfg: R7Config, t: Topic, sizes: seq<int>, k: int)
    requires cfg.skewFactor >= 0.0 && k >= 1 && Median(Ascending(sizes)) > 0
    requires SumI(Itself, sizes) >= cfg.minTopicBytes
    requires R7Fires(cfg, Replicated(t, sizes, k))
    ensures R7Fires(cfg, Replicated(t, sizes, 1))
  {
    hide *;
    MedianOfSome(sizes);
    DecisionAtScale(cfg, t, sizes, k);
    DecisionAtScale(cfg, t, sizes, 1);
    var asc := Ascending(sizes);
    MedianIsHalfTheMiddle(asc, 1);
    NeverAdded(cfg.skewFactor, asc[|asc| - 1], MiddleSum(asc), k);
  }

  lemma MedianOfSome(sizes: seq<int>)
    requires Median(Ascending(sizes)) > 0
    ensures sizes != []
  {
    AscendingIsSorted(sizes);
  }

  lemma NeverAdded(factor: real, max: int, sum: int, k: int)
    requires factor >= 0.0 && k >= 1 && Half(sum) > 0 && FlaggedAt(factor, max, sum, k)
    ensures FlaggedAt(factor, max, sum, 1)
  {
    if sum % 2 == 0 {
      EvenSumScales(factor, max, sum, k);
    } else if max as real <= factor * (sum / 2) as real {
      BelowTheBand(factor, max, sum, k);
    }
  }

  /** The converse fails under the default thresholds: one copy of a topic is flagged, two are not. */
  lemma ReplicationCanHideSkew(t: Topic, nonProd: string -> bool)
    ensures var cfg, sizes := DefaultThresholds(nonProd).r7, [400000000, 400000000, 400000001, 1200000001];
            R7Fires(cfg, Replicated(t, sizes, 1)) && !R7Fires(cfg, Replicated(t, sizes, 2))
  {
    var cfg, sizes := DefaultThresholds(nonProd).r7, [400000000, 400000000, 400000001, 1200000001];
    AlreadyAscending(sizes);
    DecisionAtScale(cfg, t, sizes, 1);
    DecisionAtScale(cfg, t, sizes, 2);
    SumOfFour(sizes);
    hide StableSort, Scaled, Replicated, R7Fires, SumI;
    assert MiddleSum(sizes) == 800000001;
    assert Half(1 * 800000001) == 400000000 && Half(2 * 800000001) == 800000001;
  }

  /** And below the byte gate a second copy adds a flag. */
  lemma ReplicationCanRaiseSkew(t: Topic, nonProd: string -> bool)
    ensures var cfg, sizes := DefaultThresholds(nonProd).r7, [1, 1, 600000000];
            !R7Fires(cfg, Replicated(t, sizes, 1)) && R7Fires(cfg, Replicated(t, sizes, 2))
  {
    var cfg, sizes := DefaultThresholds(nonProd).r7, [1, 1, 600000000];
    AlreadyAscending(sizes);
    DecisionAtScale(cfg, t, sizes, 1);
    DecisionAtScale(cfg, t, sizes, 2);
    SumOfThree(sizes);
    hide StableSort, Scaled, Replicated, R7Fires, SumI;
    assert MiddleSum(sizes) == 2;
    assert Half(2 * 2) == 2;
  }

  lemma SumOfThree(s: seq<int>)
    requires |s| == 3
    ensures SumI(Itself, s) == s[0] + s[1] + s[2]
  {
    var two := s[..2];
    assert SumI(Itself, s) == SumI(Itself, two) + s[2];
    assert two[..1][..0] == [];
    assert SumI(Itself, two[..1]) == SumI(Itself, two[..1][..0]) + s[0];
  }

  lemma SumOfFour(s: seq<int>)
    requires |s| == 4
    ensures SumI(Itself, s) == s[0] + s[1] + s[2] + s[3]
  {
    SumOfThree(s[..3]);
  }

  lemma AlreadyAscending(sizes: seq<int>)
    requires forall i, j :: 0 <= i < j < |sizes| ==> sizes[i] <= sizes[j]
    ensures Ascending(sizes) == sizes
  {
    SortPermutes(IntLess, sizes);
    StableSortCorrect(IntLess, sizes);
    hide StableSort;
    SortedPermutationsAgree(IntLess, Ascending(sizes), sizes);
  }
}
