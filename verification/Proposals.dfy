/** What R3 and R4 propose: exactly when they fire, and that the proposal is the right one. */
module Proposals {
  import opened Types
  import opened Helpers
  import opened Rules

  /** R3's gates as one reads them: a large topic with a known lag, its retention infinite or above both the
      floor and the multiple of the lag, and something saved by the projection. */
  predicate R3Reduced(cfg: R3Config, rate: real, t: Topic) {
    && t.retainedBytes >= cfg.minRetainedBytes
    && t.maxConsumerLagMs >= 0
    && (t.retentionMs < 0
        || (t.retentionMs as real > Horizon(cfg, t) && t.retentionMs > cfg.minFloorMs))
    && ProjectedBytes(cfg, rate, t) < t.retainedBytes as real
  }

  lemma R3FiresWhenReduced(cfg: R3Config, rate: real, t: Topic)
    requires cfg.lagMultiplier >= 2.0
    ensures R3Fires(cfg, rate, t) <==> R3Reduced(cfg, rate, t)
  {
    SavedIffProjectedLess(cfg, rate, t);
    if t.maxConsumerLagMs >= 0 {
      Scaling(t.maxConsumerLagMs as real, 2.0, cfg.lagMultiplier);
    }
    assert t.maxConsumerLagMs >= 0 ==> Horizon(cfg, t) >= 2.0 * t.maxConsumerLagMs as real;
    hide SavedGB, ProjectedBytes, Horizon;
  }

  lemma NothingArrives(cfg: R3Config, t: Topic)
    requires t.retainedBytes > 0
    ensures ProjectedBytes(cfg, 0.0, t) == 0.0
  {
    assert 0.0 * ProposedRetention(cfg, t) as real / 1000.0 == 0.0;
  }

  lemma HorizonBelowTwice(cfg: R3Config, t: Topic)
    requires cfg.lagMultiplier < 2.0 && t.maxConsumerLagMs > 0
    ensures Horizon(cfg, t) < 2.0 * t.maxConsumerLagMs as real
  {
    var spare, lag := 2.0 - cfg.lagMultiplier, t.maxConsumerLagMs as real;
    assert spare * lag > 0.0;
    assert spare * lag == 2.0 * lag - Horizon(cfg, t);
  }

  /** Retention of exactly twice the lag: above a smaller multiple, but no shorter proposal exists. */
  lemma TwiceTheLag(cfg: R3Config) returns (t: Topic)
    requires cfg.lagMultiplier < 2.0
    ensures R3Reduced(cfg, 0.0, t) && !R3Fires(cfg, 0.0, t)
  {
    hide *;
    var lag := IntegerFrom(cfg.minFloorMs);
    var bytes := IntegerFrom(cfg.minRetainedBytes);
    t := Topic("t", 1, 1, 2 * lag, "", "", bytes, 0.0, 0.0, "", [], 0, 0, lag, 0);
    NothingShorter(cfg, t);
  }

  lemma IntegerFrom(x: int) returns (n: int)
    ensures n >= x && n >= 1
  {
    n := if x < 1 then 1 else x;
  }

  lemma NothingShorter(cfg: R3Config, t: Topic)
    requires cfg.lagMultiplier < 2.0 && t.retainedBytes >= cfg.minRetainedBytes && t.retainedBytes > 0
    requires t.maxConsumerLagMs > 0 && t.maxConsumerLagMs >= cfg.minFloorMs
    requires t.retentionMs == 2 * t.maxConsumerLagMs
    ensures R3Reduced(cfg, 0.0, t) && !R3Fires(cfg, 0.0, t)
  {
    hide ProjectedBytes, Horizon;
    NothingArrives(cfg, t);
    HorizonBelowTwice(cfg, t);
  }

  /** R3 fires exactly under the reduced gates, on every topic and at every rate, if and only if the
      multiplier is at least two. The default is four. */
  lemma R3ReductionHoldsIff(cfg: R3Config)
    ensures (forall rate: real, t: Topic :: R3Fires(cfg, rate, t) <==> R3Reduced(cfg, rate, t))
            <==> cfg.lagMultiplier >= 2.0
  {
    hide R3Fires, R3Reduced;
    if cfg.lagMultiplier >= 2.0 {
      forall rate: real, t: Topic
        ensures R3Fires(cfg, rate, t) <==> R3Reduced(cfg, rate, t)
      {
        R3FiresWhenReduced(cfg, rate, t);
      }
    } else {
      var t := TwiceTheLag(cfg);
    }
  }

  lemma SavedIffProjectedLess(cfg: R3Config, rate: real, t: Topic)
    ensures SavedGB(cfg, rate, t) > 0.0 <==> ProjectedBytes(cfg, rate, t) < t.retainedBytes as real
  {
    hide ProjectedBytes;
  }

  /** The proposal leaves at least the floor and twice the observed lag, shortens any finite retention,
      and splits the retained bytes into what stays and what is saved. */
  lemma R3ProposalIsSafe(cfg: R3Config, rate: real, t: Topic)
    requires R3Fires(cfg, rate, t)
    ensures ProposedRetention(cfg, t) >= cfg.minFloorMs && ProposedRetention(cfg, t) >= 2 * t.maxConsumerLagMs
    ensures t.retentionMs >= 0 ==> ProposedRetention(cfg, t) < t.retentionMs
    ensures SavedGB(cfg, rate, t) * 1000000000.0 + ProjectedBytes(cfg, rate, t) == t.retainedBytes as real
    ensures rate >= 0.0 && t.retainedBytes >= 0 ==> 0.0 < SavedGB(cfg, rate, t) <= GB(t.retainedBytes)
    ensures forall r: real :: !R3Fires(cfg, r, t.(retentionMs := ProposedRetention(cfg, t)))
  {
    var kept := rate * ProposedRetention(cfg, t) as real / 1000.0;
    if rate >= 0.0 {
      assert rate * ProposedRetention(cfg, t) as real >= 0.0;
    }
  }

  // ---- R4 ----

  lemma CeilOfQuotient(b: real, target: real, k: int)
    requires target > 0.0
    ensures Ceil(b / target) <= k <==> b <= k as real * target
  {
    var q := b / target;
    assert q * target == b;
    if q <= k as real {
      assert q * target <= k as real * target;
    } else {
      assert q * target > k as real * target;
    }
  }

  /** The proposal is the least partition count, from the minimum up, whose combined target rate
      carries the topic's ingest. */
  lemma R4ProposesTheLeast(cfg: R4Config, t: Topic, k: int)
    requires cfg.targetBytesPerPart > 0.0
    ensures var n := ProposedPartitions(cfg, t);
            && n >= cfg.minPartitions && t.bytesInPerSec <= n as real * cfg.targetBytesPerPart
            && (k >= cfg.minPartitions && t.bytesInPerSec <= k as real * cfg.targetBytesPerPart ==> n <= k)
  {
    CeilOfQuotient(t.bytesInPerSec, cfg.targetBytesPerPart, ProposedPartitions(cfg, t));
    CeilOfQuotient(t.bytesInPerSec, cfg.targetBytesPerPart, k);
    hide Ceil;
  }

  predicate PassesR4Gates(cfg: R4Config, t: Topic) {
    t.partitions > cfg.minPartitions && PerPartitionRate(t) < cfg.maxBytesPerPartSec
  }

  lemma RateBelow(cfg: R4Config, t: Topic)
    requires cfg.minPartitions >= 0 && PassesR4Gates(cfg, t)
    ensures t.bytesInPerSec < cfg.maxBytesPerPartSec * t.partitions as real
  {
    var q, p := t.bytesInPerSec / t.partitions as real, t.partitions as real;
    assert q * p == t.bytesInPerSec;
    assert q * p < cfg.maxBytesPerPartSec * p;
  }

  /** max * (min + 1) <= target * min carries over to every larger partition count. */
  lemma MoreRoomAbove(max: real, target: real, min: int, p: int)
    requires min >= 0 && max > 0.0 && target > 0.0 && p > min
    requires max * (min + 1) as real <= target * min as real
    ensures max * p as real <= target * (p - 1) as real
  {
    var d := (p - min - 1) as real;
    if max > target {
      Scaling((min + 1) as real, target, max);
    }
    assert max * d <= target * d;
    assert max * p as real == max * (min + 1) as real + max * d;
    assert target * (p - 1) as real == target * min as real + target * d;
  }

  /** A topic at the smallest partition count that passes R4's first gate, with this ingest. */
  function Smallest(cfg: R4Config, rate: real): Topic {
    Topic("t", cfg.minPartitions + 1, 1, -1, "", "", 0, rate, 0.0, "", [], 0, 0, -1, 0)
  }

  lemma WitnessRate(max: real, target: real, min: int) returns (rate: real)
    requires min >= 0 && target > 0.0 && max * (min + 1) as real > target * min as real
    ensures target * min as real < rate && rate / (min + 1) as real < max
  {
    var p, high, low := (min + 1) as real, max * (min + 1) as real, target * min as real;
    rate := (high + low) / 2.0;
    var q := rate / p;
    assert q * p == rate < max * p;
    if q >= max {
      Scaling(p, max, q);
    }
  }

  /** The guard that skips a topic when the proposal is no smaller is dead code exactly when
      max * (min + 1) <= target * min. The default thresholds are on that side. */
  lemma R4GuardIsDeadIff(cfg: R4Config)
    requires cfg.minPartitions >= 0 && cfg.maxBytesPerPartSec > 0.0 && cfg.targetBytesPerPart > 0.0
    ensures (forall t :: PassesR4Gates(cfg, t) ==> ProposedPartitions(cfg, t) < t.partitions)
            <==> cfg.maxBytesPerPartSec * (cfg.minPartitions + 1) as real
                 <= cfg.targetBytesPerPart * cfg.minPartitions as real
  {
    var min, max, target := cfg.minPartitions, cfg.maxBytesPerPartSec, cfg.targetBytesPerPart;
    if max * (min + 1) as real <= target * min as real {
      forall t | PassesR4Gates(cfg, t)
        ensures ProposedPartitions(cfg, t) < t.partitions
      {
        GatesImplySmaller(cfg, t);
      }
    } else {
      GuardReached(cfg);
    }
  }

  lemma GatesImplySmaller(cfg: R4Config, t: Topic)
    requires cfg.minPartitions >= 0 && cfg.maxBytesPerPartSec > 0.0 && cfg.targetBytesPerPart > 0.0
    requires cfg.maxBytesPerPartSec * (cfg.minPartitions + 1) as real
             <= cfg.targetBytesPerPart * cfg.minPartitions as real
    requires PassesR4Gates(cfg, t)
    ensures ProposedPartitions(cfg, t) < t.partitions
  {
    RateBelow(cfg, t);
    MoreRoomAbove(cfg.maxBytesPerPartSec, cfg.targetBytesPerPart, cfg.minPartitions, t.partitions);
    CeilOfQuotient(t.bytesInPerSec, cfg.targetBytesPerPart, t.partitions - 1);
    hide Ceil;
  }

  lemma GuardReached(cfg: R4Config)
    requires cfg.minPartitions >= 0 && cfg.targetBytesPerPart > 0.0
    requires cfg.maxBytesPerPartSec * (cfg.minPartitions + 1) as real
             > cfg.targetBytesPerPart * cfg.minPartitions as real
    ensures exists t :: PassesR4Gates(cfg, t) && ProposedPartitions(cfg, t) >= t.partitions
  {
    var rate := WitnessRate(cfg.maxBytesPerPartSec, cfg.targetBytesPerPart, cfg.minPartitions);
    var t := Smallest(cfg, rate);
    CeilOfQuotient(rate, cfg.targetBytesPerPart, cfg.minPartitions);
    assert PassesR4Gates(cfg, t);
    assert ProposedPartitions(cfg, t) >= t.partitions;
  }

  lemma DefaultR4GuardIsDead(nonProd: string -> bool)
    ensures forall t :: PassesR4Gates(DefaultThresholds(nonProd).r4, t)
                        ==> ProposedPartitions(DefaultThresholds(nonProd).r4, t) < t.partitions
  {
    R4GuardIsDeadIff(DefaultThresholds(nonProd).r4);
  }
}
