/** Which topics and groups a report has a line for, in the fields of the snapshot and the thresholds alone:
    the gates, the ranking and the lookups together, from the input to the reported keys. */
module Verdicts {
  import opened Seqs
  import opened Types
  import opened Helpers
  import opened Cost
  import opened Rules
  import opened Detectors
  import opened Engine
  import opened Sorting
  import opened Members
  import opened Budget
  import opened Proposals

  /** Topic names being distinct, a key stands in the report exactly when its rule is on and flags its topic. */
  lemma KeyOfTopic(s: Snapshot, cm: CostModel, cfg: RuleConfig, r: RuleId, t: Topic)
    requires DistinctTopics(s.topics) && t in s.topics && r != R2
    ensures Key(r, t.name) in Keys(s, cm, cfg) <==> On(cfg, r) && Flags(r, cfg.thresholds, s.groups, t)
  {
    hide Keys, Flags;
    KeysAreFlagged(s, cm, cfg);
    assert forall u :: u in s.topics && u.name == t.name ==> u == t;
  }

  // ---- Names ----

  lemma SuffixMeans(name: string, suffix: string)
    ensures HasSuffix(name, suffix) <==> exists rest: string :: name == rest + suffix
  {
    if HasSuffix(name, suffix) {
      assert name == name[..|name| - |suffix|] + suffix;
    }
  }

  /** A matching suffix is found exactly when the name ends in a listed one before which no empty one stands. */
  lemma {:induction false} SuffixFoundIff(name: string, suffixes: seq<string>)
    ensures FirstSuffix(name, suffixes) != ""
            <==> exists i, rest: string :: 0 <= i < |suffixes| && name == rest + suffixes[i] && "" !in suffixes[..i + 1]
  {
    if suffixes != [] {
      SuffixFoundIff(name, suffixes[1..]);
      hide FirstSuffix;
      OneMoreSuffix(name, suffixes);
    }
  }

  lemma OneMoreSuffix(name: string, suffixes: seq<string>)
    requires suffixes != []
    requires FirstSuffix(name, suffixes[1..]) != ""
             <==> exists i, rest: string ::
                    0 <= i < |suffixes[1..]| && name == rest + suffixes[1..][i] && "" !in suffixes[1..][..i + 1]
    ensures FirstSuffix(name, suffixes) != ""
            <==> exists i, rest: string :: 0 <= i < |suffixes| && name == rest + suffixes[i] && "" !in suffixes[..i + 1]
  {
    SuffixMeans(name, suffixes[0]);
    hide HasSuffix;
    var tail := suffixes[1..];
    assert forall i :: 0 <= i < |tail| ==>
      tail[i] == suffixes[i + 1] && suffixes[..i + 2] == [suffixes[0]] + tail[..i + 1];
    if suffixes[0] != "" && FirstSuffix(name, tail) != "" {
      var i, rest: string :| 0 <= i < |tail| && name == rest + tail[i] && "" !in tail[..i + 1];
      assert name == rest + suffixes[i + 1] && "" !in suffixes[..i + 2];
    }
    if i, rest: string :| 0 <= i < |suffixes| && name == rest + suffixes[i] && "" !in suffixes[..i + 1] {
      assert suffixes[0] in suffixes[..i + 1];
      if i > 0 {
        assert name == rest + tail[i - 1] && suffixes[..i + 1] == [suffixes[0]] + tail[..i];
      }
    }
  }

  /** A topic is owned exactly when its name is a listed, non-empty group id and something after it. */
  lemma OwnedIff(topic: string, groups: seq<ConsumerGrp>)
    ensures Owned(topic, groups)
            <==> exists g, rest: string :: g in groups && g.groupId != "" && topic == g.groupId + rest
  {
    if Owned(topic, groups) {
      var g :| g in groups && g.groupId != "" && g.groupId <= topic;
      assert topic == g.groupId + topic[|g.groupId|..];
    }
  }

  // ---- R1, R2 ----

  /** A topic is reported dead exactly when nothing much comes in, nobody consumes it, enough is retained, and its
      name is not that of a Streams changelog or repartition topic. */
  lemma DeadTopicIff(s: Snapshot, cm: CostModel, cfg: RuleConfig, t: Topic)
    requires DistinctTopics(s.topics) && t in s.topics
    ensures Key(R1, t.name) in Keys(s, cm, cfg)
            <==> && R1 !in cfg.disabled
                 && t.bytesInPerSec <= cfg.thresholds.r1.maxBytesInPerSec
                 && t.activeConsumers <= 0
                 && t.retainedBytes >= cfg.thresholds.r1.minRetainedBytes
                 && !(exists rest: string :: t.name == rest + "-changelog")
                 && !(exists rest: string :: t.name == rest + "-repartition")
  {
    KeyOfTopic(s, cm, cfg, R1, t);
    StreamsInternalMeans(t.name);
    SuffixMeans(t.name, "-changelog");
    SuffixMeans(t.name, "-repartition");
    hide Keys, StreamsInternal, HasSuffix;
  }

  /** A group is reported as a zombie exactly when it is empty and its last commit is known and old enough. */
  lemma ZombieGroupIff(s: Snapshot, cm: CostModel, cfg: RuleConfig, g: ConsumerGrp)
    requires Distinct(s) && g in s.groups
    ensures Key(R2, g.groupId) in Keys(s, cm, cfg)
            <==> && R2 !in cfg.disabled && g.state == "empty"
                 && g.lastCommitAgeDays >= cfg.thresholds.r2.minEmptyDays && g.lastCommitAgeDays >= 0
  {
    hide Keys;
    KeysAreFlagged(s, cm, cfg);
    assert forall h :: h in s.groups && h.groupId == g.groupId ==> h == g;
  }

  // ---- R3, R4 ----

  /** R3 reports a topic exactly when it is large, its lag is known, its retention is infinite or above both the
      multiple of the lag and the proposal, and at its present rate less would arrive within the proposed
      retention than it holds. The proposal is the floor or twice the lag, whichever is longer. */
  lemma RetentionIff(s: Snapshot, cm: CostModel, cfg: RuleConfig, t: Topic) returns (ms: int)
    requires DistinctTopics(s.topics) && t in s.topics
    ensures var floor, twice := cfg.thresholds.r3.minFloorMs, 2 * t.maxConsumerLagMs;
            ms >= floor && ms >= twice && (ms == floor || ms == twice)
    ensures Key(R3, t.name) in Keys(s, cm, cfg)
            <==> && R3 !in cfg.disabled
                 && t.retainedBytes >= cfg.thresholds.r3.minRetainedBytes
                 && t.maxConsumerLagMs >= 0
                 && (t.retentionMs < 0
                     || (t.retentionMs > ms
                         && t.retentionMs as real > cfg.thresholds.r3.lagMultiplier * t.maxConsumerLagMs as real))
                 && t.bytesInPerSec * ms as real < 1000.0 * t.retainedBytes as real
  {
    var r3 := cfg.thresholds.r3;
    ms := ProposedRetention(r3, t);
    KeyOfTopic(s, cm, cfg, R3, t);
    assert RateOf([t], t.name) == t.bytesInPerSec;
    SavedIffProjectedLess(r3, t.bytesInPerSec, t);
    hide Keys, SavedGB;
  }

  /** R4 reports a topic exactly when it has more partitions than the minimum, they carry less than the ceiling
      between them, and one fewer of them would carry the ingest at the target rate. */
  lemma PartitionsIff(s: Snapshot, cm: CostModel, cfg: RuleConfig, t: Topic)
    requires DistinctTopics(s.topics) && t in s.topics
    requires cfg.thresholds.r4.targetBytesPerPart > 0.0
    ensures Key(R4, t.name) in Keys(s, cm, cfg)
            <==> && R4 !in cfg.disabled
                 && t.partitions > cfg.thresholds.r4.minPartitions
                 && (if t.partitions > 0
                     then t.bytesInPerSec < cfg.thresholds.r4.maxBytesPerPartSec * t.partitions as real
                     else cfg.thresholds.r4.maxBytesPerPartSec > 0.0)
                 && t.bytesInPerSec <= cfg.thresholds.r4.targetBytesPerPart * (t.partitions - 1) as real
  {
    var r4 := cfg.thresholds.r4;
    KeyOfTopic(s, cm, cfg, R4, t);
    CeilOfQuotient(t.bytesInPerSec, r4.targetBytesPerPart, t.partitions - 1);
    if t.partitions > 0 {
      QuotientBelow(t.bytesInPerSec, t.partitions as real, r4.maxBytesPerPartSec);
    }
    hide Keys, Ceil;
  }

  lemma QuotientBelow(b: real, p: real, max: real)
    requires p > 0.0
    ensures b / p < max <==> b < max * p
  {
    var q := b / p;
    assert q * p == b;
    ProductBelow(q, p, max);
  }

  lemma ProductBelow(q: real, p: real, max: real)
    requires p > 0.0
    ensures q < max <==> q * p < max * p
  {
    if q < max {
      Scaling(p, q, max);
    } else {
      Scaling(p, max, q);
    }
  }

  // ---- R5, R6 ----

  /** R5 reports a topic exactly when enough comes in and its codec is one of the four that compress nothing. */
  lemma CompressionIff(s: Snapshot, cm: CostModel, cfg: RuleConfig, t: Topic)
    requires DistinctTopics(s.topics) && t in s.topics
    ensures Key(R5, t.name) in Keys(s, cm, cfg)
            <==> && R5 !in cfg.disabled
                 && t.bytesInPerSec >= cfg.thresholds.r5.minBytesInPerSec
                 && (t.compressionType == "" || t.compressionType == "none"
                     || t.compressionType == "uncompressed" || t.compressionType == "producer")
  {
    KeyOfTopic(s, cm, cfg, R5, t);
    hide Keys;
  }

  /** R6 reports a topic exactly when its name matches the pattern there is, and it has at least the trigger's and
      more than the proposal's replicas. */
  lemma ReplicationIff(s: Snapshot, cm: CostModel, cfg: RuleConfig, t: Topic)
    requires DistinctTopics(s.topics) && t in s.topics
    ensures Key(R6, t.name) in Keys(s, cm, cfg)
            <==> && R6 !in cfg.disabled
                 && t.replicationFactor >= cfg.thresholds.r6.triggerRF
                 && t.replicationFactor > cfg.thresholds.r6.proposedRF
                 && (exists p :: cfg.thresholds.r6.namePattern == Some(p) && p(t.name))
  {
    KeyOfTopic(s, cm, cfg, R6, t);
    hide Keys;
    var pattern := cfg.thresholds.r6.namePattern;
    assert pattern.Some? ==> pattern == Some(pattern.value);
  }

  // ---- R7 ----

  /** The integer middle of ascending sizes. */
  function Middle(sizes: seq<int>): int
    requires sizes != []
  {
    var n := |sizes|;
    if n % 2 == 1 then sizes[n / 2] else (sizes[n / 2 - 1] + sizes[n / 2]) / 2
  }

  /** R7 reports a topic exactly when it has enough partitions and bytes and, its sizes listed in ascending order,
      the last is above the factor times a positive middle. */
  lemma SkewIff(s: Snapshot, cm: CostModel, cfg: RuleConfig, t: Topic, sizes: seq<int>)
    requires DistinctTopics(s.topics) && t in s.topics
    requires multiset(sizes) == multiset(t.partitionBytes)
    requires forall i, j :: 0 <= i < j < |sizes| ==> sizes[i] <= sizes[j]
    ensures Key(R7, t.name) in Keys(s, cm, cfg)
            <==> && R7 !in cfg.disabled
                 && |sizes| >= cfg.thresholds.r7.minPartitions
                 && t.retainedBytes >= cfg.thresholds.r7.minTopicBytes
                 && sizes != [] && Middle(sizes) > 0
                 && sizes[|sizes| - 1] as real > cfg.thresholds.r7.skewFactor * Middle(sizes) as real
  {
    KeyOfTopic(s, cm, cfg, R7, t);
    VerdictOnAscending(cfg.thresholds.r7, t, sizes);
    MiddleIsMedian(cfg.thresholds.r7.skewFactor, sizes);
    hide Keys, SortedSkewed, R7Fires;
  }

  lemma VerdictOnAscending(cfg: R7Config, t: Topic, sizes: seq<int>)
    requires multiset(sizes) == multiset(t.partitionBytes)
    requires forall i, j :: 0 <= i < j < |sizes| ==> sizes[i] <= sizes[j]
    ensures R7Fires(cfg, t)
            <==> |sizes| >= cfg.minPartitions && t.retainedBytes >= cfg.minTopicBytes
                 && SortedSkewed(cfg.skewFactor, sizes)
  {
    AscendingIsThis(t.partitionBytes, sizes);
    assert |sizes| == |multiset(sizes)| == |multiset(t.partitionBytes)| == |t.partitionBytes|;
    hide StableSort, SortedSkewed;
  }

  lemma MiddleIsMedian(factor: real, sizes: seq<int>)
    ensures SortedSkewed(factor, sizes)
            <==> sizes != [] && Middle(sizes) > 0
                 && sizes[|sizes| - 1] as real > factor * Middle(sizes) as real
  {
    if sizes != [] && |sizes| % 2 == 0 {
      HalfIsFloor(sizes[|sizes| / 2 - 1] + sizes[|sizes| / 2]);
    }
    hide Half;
  }

  lemma HalfIsFloor(x: int)
    ensures x >= 0 ==> Half(x) == x / 2
    ensures x < 0 ==> Half(x) <= 0 && x / 2 <= 0
  {
  }

  lemma AscendingIsThis(xs: seq<int>, sizes: seq<int>)
    requires multiset(sizes) == multiset(xs)
    requires forall i, j :: 0 <= i < j < |sizes| ==> sizes[i] <= sizes[j]
    ensures StableSort(IntLess, xs) == sizes
  {
    AscendingIsSorted(xs);
    hide StableSort;
    SortedPermutationsAgree(IntLess, StableSort(IntLess, xs), sizes);
  }

  // ---- R8 ----

  /** R8 reports a topic exactly when its name ends in a listed suffix before which no empty one stands, enough is
      retained, and its name is not a listed group id and something after it. */
  lemma OrphanIff(s: Snapshot, cm: CostModel, cfg: RuleConfig, t: Topic)
    requires DistinctTopics(s.topics) && t in s.topics
    ensures Key(R8, t.name) in Keys(s, cm, cfg)
            <==> && R8 !in cfg.disabled
                 && (exists i, rest: string ::
                       0 <= i < |cfg.thresholds.r8.suffixes| && t.name == rest + cfg.thresholds.r8.suffixes[i] &&
                       "" !in cfg.thresholds.r8.suffixes[..i + 1])
                 && t.retainedBytes >= cfg.thresholds.r8.minRetainedBytes
                 && !(exists g, rest: string :: g in s.groups && g.groupId != "" && t.name == g.groupId + rest)
  {
    KeyOfTopic(s, cm, cfg, R8, t);
    SuffixFoundIff(t.name, cfg.thresholds.r8.suffixes);
    OwnedIff(t.name, s.groups);
    hide Keys, FirstSuffix, Owned;
  }

  /** The changelog of a running application is never reported, whatever the suffixes and thresholds: any listed
      group with a non-empty id keeps every topic named after it out of R8. */
  lemma RunningAppKeepsItsTopics(s: Snapshot, cm: CostModel, cfg: RuleConfig, g: ConsumerGrp, rest: string)
    requires DistinctTopics(s.topics) && g in s.groups && g.groupId != ""
    ensures Key(R8, g.groupId + rest) !in Keys(s, cm, cfg)
  {
    hide Keys;
    KeysAreFlagged(s, cm, cfg);
    OwnedIff(g.groupId + rest, s.groups);
    hide Owned, FirstSuffix;
  }

  // ---- The defaults, in numbers ----

  lemma Defaults(nonProd: string -> bool)
    ensures var th := DefaultThresholds(nonProd);
            && th.r1 == R1Config(1.0, 1073741824) && th.r2 == R2Config(30)
            && th.r3 == R3Config(4.0, 5368709120, 86400000)
            && th.r4.minPartitions == 12 && th.r4.maxBytesPerPartSec == 1024.0 && th.r4.targetBytesPerPart == 1048576.0
            && th.r5.minBytesInPerSec == 1048576.0 && th.r6 == R6Config(Some(nonProd), 3, 2)
            && th.r7 == R7Config(3.0, 1073741824, 3)
            && th.r8.minRetainedBytes == 268435456 && th.r8.suffixes == ["-changelog", "-repartition"]
  {
  }

  /** What the default thresholds ask of a topic, rule by rule, on a report with every rule on. R4's condition on the
      target rate follows from the ceiling, and R6's on the proposal from the trigger; neither shows here. */
  lemma DefaultVerdicts(s: Snapshot, cm: CostModel, nonProd: string -> bool, t: Topic, sizes: seq<int>)
    requires DistinctTopics(s.topics) && t in s.topics
    requires multiset(sizes) == multiset(t.partitionBytes)
    requires forall i, j :: 0 <= i < j < |sizes| ==> sizes[i] <= sizes[j]
    ensures var keys := Keys(s, cm, RuleConfig({}, DefaultThresholds(nonProd)));
            var streams := (exists rest: string :: t.name == rest + "-changelog")
                           || (exists rest: string :: t.name == rest + "-repartition");
            && (Key(R1, t.name) in keys
                <==> t.bytesInPerSec <= 1.0 && t.activeConsumers <= 0 && t.retainedBytes >= 1073741824 && !streams)
            && (Key(R4, t.name) in keys <==> t.partitions > 12 && t.bytesInPerSec < 1024.0 * t.partitions as real)
            && (Key(R5, t.name) in keys
                <==> t.bytesInPerSec >= 1048576.0 && t.compressionType in {"", "none", "uncompressed", "producer"})
            && (Key(R6, t.name) in keys <==> t.replicationFactor >= 3 && nonProd(t.name))
            && (Key(R7, t.name) in keys
                <==> |sizes| >= 3 && t.retainedBytes >= 1073741824 && Middle(sizes) > 0
                     && sizes[|sizes| - 1] > 3 * Middle(sizes))
            && (Key(R8, t.name) in keys
                <==> streams && t.retainedBytes >= 268435456
                     && !(exists g, rest: string :: g in s.groups && g.groupId != "" && t.name == g.groupId + rest))
  {
    hide *;
    var cfg := RuleConfig({}, DefaultThresholds(nonProd));
    Defaults(nonProd);
    DeadTopicIff(s, cm, cfg, t);
    PartitionsIff(s, cm, cfg, t);
    CompressionIff(s, cm, cfg, t);
    ReplicationIff(s, cm, cfg, t);
    SkewIff(s, cm, cfg, t, sizes);
    OrphanIff(s, cm, cfg, t);
    OneOfTwoSuffixes(t.name);
  }

  lemma OneOfTwoSuffixes(name: string)
    ensures var suffixes := ["-changelog", "-repartition"];
            (exists i, rest: string :: 0 <= i < |suffixes| && name == rest + suffixes[i] && "" !in suffixes[..i + 1])
            <==> (exists rest: string :: name == rest + "-changelog")
                 || (exists rest: string :: name == rest + "-repartition")
  {
    var suffixes := ["-changelog", "-repartition"];
    if rest: string :| name == rest + "-changelog" {
      assert name == rest + suffixes[0] && "" !in suffixes[..1];
    }
    if rest: string :| name == rest + "-repartition" {
      assert name == rest + suffixes[1] && "" !in suffixes[..2];
    }
  }

  /** And of a topic's retention, and of a group. */
  lemma DefaultVerdictsByAge(s: Snapshot, cm: CostModel, nonProd: string -> bool, t: Topic, g: ConsumerGrp)
    requires Distinct(s) && t in s.topics && g in s.groups
    ensures var keys, lag := Keys(s, cm, RuleConfig({}, DefaultThresholds(nonProd))), t.maxConsumerLagMs;
            var ms := if 86400000 > 2 * lag then 86400000 else 2 * lag;
            && (Key(R2, g.groupId) in keys <==> g.state == "empty" && g.lastCommitAgeDays >= 30)
            && (Key(R3, t.name) in keys
                <==> t.retainedBytes >= 5368709120 && lag >= 0
                     && (t.retentionMs < 0 || (t.retentionMs > 86400000 && t.retentionMs > 4 * lag))
                     && t.bytesInPerSec * ms as real < 1000.0 * t.retainedBytes as real)
  {
    assert DistinctTopics(s.topics);
    hide *;
    var cfg := RuleConfig({}, DefaultThresholds(nonProd));
    Defaults(nonProd);
    ZombieGroupIff(s, cm, cfg, g);
    var ms := RetentionIff(s, cm, cfg, t);
  }
}
