/** What each detector returns, and the detectors' own loops. */
module Detectors {
  import opened Seqs
  import opened Types
  import opened Helpers
  import opened Cost
  import opened Rules
  import opened Sorting

  predicate R7Fires(cfg: R7Config, t: Topic) {
    && |t.partitionBytes| >= cfg.minPartitions
    && t.retainedBytes >= cfg.minTopicBytes
    && SortedSkewed(cfg.skewFactor, StableSort(IntLess, t.partitionBytes))
  }

  /** Whether a rule about topics flags t. */
  predicate Fires(r: RuleId, th: Thresholds, topics: seq<Topic>, groups: seq<ConsumerGrp>, t: Topic) {
    match r
    case R1 => R1Fires(th.r1, t)
    case R2 => false
    case R3 => R3Fires(th.r3, RateOf(topics, t.name), t)
    case R4 => R4Fires(th.r4, t)
    case R5 => R5Fires(th.r5, t)
    case R6 => R6Fires(th.r6, t)
    case R7 => R7Fires(th.r7, t)
    case R8 => R8Fires(th.r8, groups, t)
  }

  /** The exact saving of a flagged topic, before rounding. */
  function ExactSaving(r: RuleId, ctx: Ctx, t: Topic): real {
    match r
    case R1 => TopicGB(t) * ctx.prices.storageEURPerGBMo
    case R2 => 0.0
    case R3 => SavedGB(ctx.th.r3, RateOf(ctx.snap.topics, t.name), t) * ctx.prices.storageEURPerGBMo
    case R4 => PartitionPrice(ctx) * (t.partitions - ProposedPartitions(ctx.th.r4, t)) as real
    case R5 =>
      MonthlyGB(t.bytesInPerSec) * ctx.th.r5.assumedRatio
      * (ctx.prices.storageEURPerGBMo + ctx.prices.networkEURPerGB)
    case R6 =>
      if t.replicationFactor == 0 then 0.0
      else
        TopicGB(t) * ((t.replicationFactor - ctx.th.r6.proposedRF) as real / t.replicationFactor as real)
        * ctx.prices.storageEURPerGBMo
    case R7 => 0.0
    case R8 => TopicGB(t) * ctx.prices.storageEURPerGBMo
  }

  function SeverityOf(r: RuleId, t: Topic): Severity {
    match r
    case R1 | R7 | R8 => SeverityForBytes(t.retainedBytes)
    case R3 | R5 | R6 => Warning
    case R4 => Plan
    case R2 => Info
  }

  function ConfidenceOf(r: RuleId): Confidence {
    match r
    case R1 | R5 => Low
    case R3 | R4 | R6 | R8 => Medium
    case R2 | R7 => High
  }

  function FixOf(r: RuleId, th: Thresholds, t: Topic): Fix {
    match r
    case R1 | R8 => DeleteTopic(t.name)
    case R3 => SetRetention(t.name, ProposedRetention(th.r3, t))
    case R4 => SetPartitions(t.name, ProposedPartitions(th.r4, t))
    case R5 => SetCompression(t.name, "zstd")
    case R6 => SetReplication(t.name, th.r6.proposedRF)
    case R2 | R7 => Investigate(t.name)
  }

  function TopicFinding(r: RuleId, ctx: Ctx, t: Topic): Finding {
    Finding(r, SeverityOf(r, t), Key(r, t.name), Round2(ExactSaving(r, ctx, t)), ConfidenceOf(r),
            FixOf(r, ctx.th, t), r.R3? || r.R5?)
  }

  function GroupFinding(g: ConsumerGrp): Finding {
    Finding(R2, Info, Key(R2, g.groupId), 0.0, High, DeleteGroup(g.groupId), false)
  }

  predicate FiresIn(r: RuleId, ctx: Ctx, t: Topic) {
    Fires(r, ctx.th, ctx.snap.topics, ctx.snap.groups, t)
  }

  function OverTopics(r: RuleId, ctx: Ctx, ts: seq<Topic>): seq<Finding> {
    if ts == [] then []
    else
      var t, found := ts[|ts| - 1], OverTopics(r, ctx, ts[..|ts| - 1]);
      if FiresIn(r, ctx, t) then found + [TopicFinding(r, ctx, t)] else found
  }

  function OverGroups(ctx: Ctx, gs: seq<ConsumerGrp>): seq<Finding> {
    if gs == [] then []
    else
      var g, found := gs[|gs| - 1], OverGroups(ctx, gs[..|gs| - 1]);
      if R2Fires(ctx.th.r2, g) then found + [GroupFinding(g)] else found
  }

  /** All findings of one rule, in snapshot order. */
  function Detect(r: RuleId, ctx: Ctx): seq<Finding> {
    if r.R2? then OverGroups(ctx, ctx.snap.groups) else OverTopics(r, ctx, ctx.snap.topics)
  }

  // ---- The loops ----

  method MatchSuffix(name: string, suffixes: seq<string>) returns (r: string)
    ensures r == FirstSuffix(name, suffixes)
    ensures r != "" ==> r in suffixes && HasSuffix(name, r)
  {
    for i := 0 to |suffixes|
      invariant FirstSuffix(name, suffixes) == FirstSuffix(name, suffixes[i..])
    {
      if HasSuffix(name, suffixes[i]) {
        return suffixes[i];
      }
      assert suffixes[i..][1..] == suffixes[i + 1..];
    }
    return "";
  }

  method HasOwningApp(topic: string, groups: seq<ConsumerGrp>) returns (owned: bool)
    ensures owned == Owned(topic, groups)
  {
    for i := 0 to |groups|
      invariant forall g <- groups[..i] :: !(g.groupId != "" && g.groupId <= topic)
    {
      if groups[i].groupId != "" && groups[i].groupId <= topic {
        return true;
      }
    }
    assert groups[..|groups|] == groups;
    return false;
  }

  method LookupBytesInPerSec(topics: seq<Topic>, name: string) returns (rate: real)
    ensures rate == RateOf(topics, name)
  {
    for i := 0 to |topics|
      invariant RateOf(topics, name) == RateOf(topics[i..], name)
    {
      if topics[i].name == name {
        return topics[i].bytesInPerSec;
      }
      assert topics[i..][1..] == topics[i + 1..];
    }
    return 0.0;
  }

  /** The loop bodies below append to `out` what OverTopics appends for the same topic. */
  lemma OneMore(r: RuleId, ctx: Ctx, i: nat)
    requires i < |ctx.snap.topics|
    ensures var ts := ctx.snap.topics;
            OverTopics(r, ctx, ts[..i + 1])
            == if FiresIn(r, ctx, ts[i]) then OverTopics(r, ctx, ts[..i]) + [TopicFinding(r, ctx, ts[i])]
               else OverTopics(r, ctx, ts[..i])
  {
    assert ctx.snap.topics[..i + 1][..i] == ctx.snap.topics[..i];
  }

  // What a verdict and a finding come to, one rule at a time. `eur` is the figure before rounding.

  lemma VerdictR1(ctx: Ctx, t: Topic)
    ensures FiresIn(R1, ctx, t) == R1Fires(ctx.th.r1, t)
  {
    hide R1Fires;
  }

  lemma FindingR1(ctx: Ctx, t: Topic, eur: real)
    requires eur == GB(t.retainedBytes) * ctx.prices.storageEURPerGBMo
    ensures TopicFinding(R1, ctx, t)
            == Finding(R1, SeverityForBytes(t.retainedBytes), Key(R1, t.name), Round2(eur), Low,
                       DeleteTopic(t.name), false)
  {
    assert eur == ExactSaving(R1, ctx, t);
    hide Round2, ExactSaving;
  }

  lemma VerdictR3(ctx: Ctx, t: Topic)
    ensures FiresIn(R3, ctx, t) == R3Fires(ctx.th.r3, RateOf(ctx.snap.topics, t.name), t)
  {
    hide R3Fires, RateOf, SavedGB, ProposedRetention;
  }

  lemma FindingR3(ctx: Ctx, t: Topic, eur: real)
    requires eur == SavedGB(ctx.th.r3, RateOf(ctx.snap.topics, t.name), t) * ctx.prices.storageEURPerGBMo
    ensures TopicFinding(R3, ctx, t)
            == Finding(R3, Warning, Key(R3, t.name), Round2(eur), Medium,
                       SetRetention(t.name, ProposedRetention(ctx.th.r3, t)), true)
  {
    assert eur == ExactSaving(R3, ctx, t);
    hide Round2, ExactSaving;
  }

  lemma VerdictR4(ctx: Ctx, t: Topic)
    ensures FiresIn(R4, ctx, t) == R4Fires(ctx.th.r4, t)
  {
    hide R4Fires, PartitionPrice, ProposedPartitions;
  }

  lemma FindingR4(ctx: Ctx, t: Topic, eur: real)
    requires eur == PartitionPrice(ctx) * (t.partitions - ProposedPartitions(ctx.th.r4, t)) as real
    ensures TopicFinding(R4, ctx, t)
            == Finding(R4, Plan, Key(R4, t.name), Round2(eur), Medium,
                       SetPartitions(t.name, ProposedPartitions(ctx.th.r4, t)), false)
  {
    hide PartitionPrice, ProposedPartitions;
    assert eur == ExactSaving(R4, ctx, t);
    hide Round2, ExactSaving;
  }

  lemma VerdictR5(ctx: Ctx, t: Topic)
    ensures FiresIn(R5, ctx, t) == R5Fires(ctx.th.r5, t)
  {
    hide R5Fires, MonthlyGB;
  }

  lemma FindingR5(ctx: Ctx, t: Topic, eur: real)
    requires eur == MonthlyGB(t.bytesInPerSec) * ctx.th.r5.assumedRatio
                    * (ctx.prices.storageEURPerGBMo + ctx.prices.networkEURPerGB)
    ensures TopicFinding(R5, ctx, t)
            == Finding(R5, Warning, Key(R5, t.name), Round2(eur), Low, SetCompression(t.name, "zstd"), true)
  {
    assert eur == ExactSaving(R5, ctx, t);
    hide Round2, ExactSaving;
  }

  lemma VerdictR6(ctx: Ctx, t: Topic)
    ensures FiresIn(R6, ctx, t) == R6Fires(ctx.th.r6, t)
  {
    hide R6Fires;
  }

  lemma FindingR6(ctx: Ctx, t: Topic, eur: real)
    requires t.replicationFactor != 0
    requires eur == GB(t.retainedBytes)
                    * ((t.replicationFactor - ctx.th.r6.proposedRF) as real / t.replicationFactor as real)
                    * ctx.prices.storageEURPerGBMo
    ensures TopicFinding(R6, ctx, t)
            == Finding(R6, Warning, Key(R6, t.name), Round2(eur), Medium,
                       SetReplication(t.name, ctx.th.r6.proposedRF), false)
  {
    assert eur == ExactSaving(R6, ctx, t);
    hide Round2, ExactSaving;
  }

  lemma VerdictR7(ctx: Ctx, t: Topic)
    ensures FiresIn(R7, ctx, t) == R7Fires(ctx.th.r7, t)
  {
    hide R7Fires;
  }

  lemma FindingR7(ctx: Ctx, t: Topic)
    ensures TopicFinding(R7, ctx, t)
            == Finding(R7, SeverityForBytes(t.retainedBytes), Key(R7, t.name), 0.0, High, Investigate(t.name), false)
  {
    assert ExactSaving(R7, ctx, t) == 0.0;
    Round2Exact(0.0);
    hide Round2, ExactSaving;
  }

  lemma VerdictR8(ctx: Ctx, t: Topic)
    ensures FiresIn(R8, ctx, t) == R8Fires(ctx.th.r8, ctx.snap.groups, t)
  {
    hide R8Fires;
  }

  lemma FindingR8(ctx: Ctx, t: Topic, eur: real)
    requires eur == GB(t.retainedBytes) * ctx.prices.storageEURPerGBMo
    ensures TopicFinding(R8, ctx, t)
            == Finding(R8, SeverityForBytes(t.retainedBytes), Key(R8, t.name), Round2(eur), Medium,
                       DeleteTopic(t.name), false)
  {
    assert eur == ExactSaving(R8, ctx, t);
    hide Round2, ExactSaving;
  }

  method EvalR1(ctx: Ctx) returns (out: seq<Finding>)
    ensures out == Detect(R1, ctx)
  {
    hide FiresIn, TopicFinding, Round2, FirstSuffix;
    var cfg, ts := ctx.th.r1, ctx.snap.topics;
    out := [];
    for i := 0 to |ts|
      invariant out == OverTopics(R1, ctx, ts[..i])
    {
      var t := ts[i];
      OneMore(R1, ctx, i);
      VerdictR1(ctx, t);
      var suffix := MatchSuffix(t.name, STREAMS_SUFFIXES);
      if suffix != "" {
        continue;
      }
      if t.bytesInPerSec > cfg.maxBytesInPerSec {
        continue;
      }
      if t.activeConsumers > 0 {
        continue;
      }
      if t.retainedBytes < cfg.minRetainedBytes {
        continue;
      }
      var eur := GB(t.retainedBytes) * ctx.prices.storageEURPerGBMo;
      var f := Finding(R1, SeverityForBytes(t.retainedBytes), Key(R1, t.name), Round2(eur), Low,
                       DeleteTopic(t.name), false);
      FindingR1(ctx, t, eur);
      out := out + [f];
    }
    assert ts[..|ts|] == ts;
  }

  method EvalR2(ctx: Ctx) returns (out: seq<Finding>)
    ensures out == Detect(R2, ctx)
  {
    var cfg, gs := ctx.th.r2, ctx.snap.groups;
    out := [];
    for i := 0 to |gs|
      invariant out == OverGroups(ctx, gs[..i])
    {
      assert gs[..i + 1][..i] == gs[..i];
      var g := gs[i];
      if g.state != "empty" {
        continue;
      }
      if g.lastCommitAgeDays < 0 {
        continue;
      }
      if g.lastCommitAgeDays < cfg.minEmptyDays {
        continue;
      }
      out := out + [Finding(R2, Info, Key(R2, g.groupId), 0.0, High, DeleteGroup(g.groupId), false)];
    }
    assert gs[..|gs|] == gs;
  }

  /** The projection of R3: what the topic would hold at the proposed retention, and what that saves. */
  method RetentionSaving(ctx: Ctx, t: Topic, proposed: int) returns (savedGB: real)
    requires proposed == ProposedRetention(ctx.th.r3, t)
    ensures savedGB == SavedGB(ctx.th.r3, RateOf(ctx.snap.topics, t.name), t)
  {
    var rate := LookupBytesInPerSec(ctx.snap.topics, t.name);
    var projected := MinR(rate * proposed as real / 1000.0, t.retainedBytes as real);
    savedGB := (t.retainedBytes as real - projected) / 1000000000.0;
  }

  method EvalR3(ctx: Ctx) returns (out: seq<Finding>)
    ensures out == Detect(R3, ctx)
  {
    hide FiresIn, TopicFinding, Round2, RateOf, SavedGB;
    var cfg, ts := ctx.th.r3, ctx.snap.topics;
    out := [];
    for i := 0 to |ts|
      invariant out == OverTopics(R3, ctx, ts[..i])
    {
      var t := ts[i];
      OneMore(R3, ctx, i);
      VerdictR3(ctx, t);
      if t.retainedBytes < cfg.minRetainedBytes {
        continue;
      }
      if t.maxConsumerLagMs < 0 {
        continue;
      }
      if t.retentionMs >= 0 && t.retentionMs as real <= cfg.lagMultiplier * t.maxConsumerLagMs as real {
        continue;
      }
      var proposed := MaxI(cfg.minFloorMs, 2 * t.maxConsumerLagMs);
      if t.retentionMs >= 0 && proposed >= t.retentionMs {
        continue;
      }
      var savedGB := RetentionSaving(ctx, t, proposed);
      if savedGB <= 0.0 {
        continue;
      }
      var eur := savedGB * ctx.prices.storageEURPerGBMo;
      var f := Finding(R3, Warning, Key(R3, t.name), Round2(eur), Medium,
                       SetRetention(t.name, proposed), true);
      FindingR3(ctx, t, eur);
      out := out + [f];
    }
    assert ts[..|ts|] == ts;
  }

  /** R4's first loop. */
  method TotalPartitions(ts: seq<Topic>) returns (totalParts: int)
    ensures totalParts == SumI(TopicPartitions, ts)
  {
    totalParts := 0;
    for i := 0 to |ts|
      invariant totalParts == SumI(TopicPartitions, ts[..i])
    {
      assert ts[..i + 1][..i] == ts[..i];
      totalParts := totalParts + ts[i].partitions;
    }
    assert ts[..|ts|] == ts;
  }

  method EvalR4(ctx: Ctx) returns (out: seq<Finding>)
    ensures out == Detect(R4, ctx)
  {
    hide FiresIn, TopicFinding, Round2, PartitionPrice, Ceil;
    var cfg, ts := ctx.th.r4, ctx.snap.topics;
    var totalParts := TotalPartitions(ts);
    out := [];
    for i := 0 to |ts|
      invariant out == OverTopics(R4, ctx, ts[..i])
    {
      var t := ts[i];
      OneMore(R4, ctx, i);
      VerdictR4(ctx, t);
      if t.partitions <= cfg.minPartitions {
        continue;
      }
      var perPart := 0.0;
      if t.partitions > 0 {
        perPart := t.bytesInPerSec / t.partitions as real;
      }
      if perPart >= cfg.maxBytesPerPartSec {
        continue;
      }
      var proposed := MaxI(cfg.minPartitions, Ceil(t.bytesInPerSec / cfg.targetBytesPerPart));
      if proposed >= t.partitions {
        continue;
      }
      var removed := t.partitions - proposed;
      var eur := PriceRemoved(ctx, totalParts, removed);
      var f := Finding(R4, Plan, Key(R4, t.name), Round2(eur), Medium,
                       SetPartitions(t.name, proposed), false);
      FindingR4(ctx, t, eur);
      out := out + [f];
    }
    assert ts[..|ts|] == ts;
  }

  /** The pricing branch of R4, with its nested sum over the cluster. */
  method PriceRemoved(ctx: Ctx, totalParts: int, removed: int) returns (eur: real)
    requires totalParts == SumI(TopicPartitions, ctx.snap.topics)
    ensures eur == PartitionPrice(ctx) * removed as real
  {
    if ctx.snap.cluster.provider == "confluent" && ctx.th.r4.confluentPerPartitionEURMo > 0.0 {
      eur := removed as real * ctx.th.r4.confluentPerPartitionEURMo;
    } else {
      var perPartCost := 0.0;
      if totalParts > 0 {
        var ts, clusterGB := ctx.snap.topics, 0.0;
        for i := 0 to |ts|
          invariant clusterGB == SumR(TopicGB, ts[..i])
        {
          assert ts[..i + 1][..i] == ts[..i];
          clusterGB := clusterGB + GB(ts[i].retainedBytes);
        }
        assert ts[..|ts|] == ts;
        perPartCost := 0.20 * (clusterGB * ctx.prices.storageEURPerGBMo) / totalParts as real;
      }
      eur := perPartCost * removed as real;
    }
  }

  method EvalR5(ctx: Ctx) returns (out: seq<Finding>)
    ensures out == Detect(R5, ctx)
  {
    hide FiresIn, TopicFinding, Round2, MonthlyGB;
    var cfg, ts := ctx.th.r5, ctx.snap.topics;
    out := [];
    for i := 0 to |ts|
      invariant out == OverTopics(R5, ctx, ts[..i])
    {
      var t := ts[i];
      OneMore(R5, ctx, i);
      VerdictR5(ctx, t);
      if t.bytesInPerSec < cfg.minBytesInPerSec {
        continue;
      }
      if t.compressionType !in UNCOMPRESSED {
        continue;
      }
      var savedGB := MonthlyGB(t.bytesInPerSec) * cfg.assumedRatio;
      var eur := savedGB * (ctx.prices.storageEURPerGBMo + ctx.prices.networkEURPerGB);
      var f := Finding(R5, Warning, Key(R5, t.name), Round2(eur), Low,
                       SetCompression(t.name, "zstd"), true);
      FindingR5(ctx, t, eur);
      out := out + [f];
    }
    assert ts[..|ts|] == ts;
  }

  /** R6 divides by the factor of a topic it flags; a zero factor passes its gates only when both the
      trigger and the proposal lie below it. */
  ghost predicate NoZeroFactor(ctx: Ctx) {
    forall t :: t in ctx.snap.topics && R6Fires(ctx.th.r6, t) ==> t.replicationFactor != 0
  }

  /** R7 takes the last size of a topic that is big enough; without a minimum count there may be none. */
  ghost predicate NoEmptySizes(ctx: Ctx) {
    forall t :: t in ctx.snap.topics && t.retainedBytes >= ctx.th.r7.minTopicBytes && t.partitionBytes == []
                ==> ctx.th.r7.minPartitions > 0
  }

  method EvalR6(ctx: Ctx) returns (out: seq<Finding>)
    requires NoZeroFactor(ctx)
    ensures out == Detect(R6, ctx)
  {
    hide FiresIn, TopicFinding, Round2;
    var cfg, ts := ctx.th.r6, ctx.snap.topics;
    out := [];
    for i := 0 to |ts|
      invariant out == OverTopics(R6, ctx, ts[..i])
    {
      var t := ts[i];
      OneMore(R6, ctx, i);
      VerdictR6(ctx, t);
      if t.replicationFactor < cfg.triggerRF || cfg.proposedRF >= t.replicationFactor {
        continue;
      }
      if cfg.namePattern.None? || !cfg.namePattern.value(t.name) {
        continue;
      }
      assert R6Fires(cfg, t);
      var frac := (t.replicationFactor - cfg.proposedRF) as real / t.replicationFactor as real;
      var eur := GB(t.retainedBytes) * frac * ctx.prices.storageEURPerGBMo;
      var f := Finding(R6, Warning, Key(R6, t.name), Round2(eur), Medium,
                       SetReplication(t.name, cfg.proposedRF), false);
      FindingR6(ctx, t, eur);
      out := out + [f];
    }
    assert ts[..|ts|] == ts;
  }

  method SortedCopy(xs: seq<int>) returns (sizes: array<int>)
    ensures fresh(sizes) && sizes.Length == |xs| && sizes[..] == StableSort(IntLess, xs)
  {
    sizes := new int[|xs|](k requires 0 <= k < |xs| => xs[k]);
    assert sizes[..] == xs;
    SortInPlace(sizes, IntLess);
  }

  method EvalR7(ctx: Ctx) returns (out: seq<Finding>)
    requires NoEmptySizes(ctx)
    ensures out == Detect(R7, ctx)
  {
    hide FiresIn, TopicFinding, Round2, StableSort, Median;
    var cfg, ts := ctx.th.r7, ctx.snap.topics;
    out := [];
    for i := 0 to |ts|
      invariant out == OverTopics(R7, ctx, ts[..i])
    {
      var t := ts[i];
      OneMore(R7, ctx, i);
      VerdictR7(ctx, t);
      if |t.partitionBytes| < cfg.minPartitions || t.retainedBytes < cfg.minTopicBytes {
        continue;
      }
      var sizes := SortedCopy(t.partitionBytes);
      var med := Median(sizes[..]);
      var maxP := sizes[sizes.Length - 1];
      if med <= 0 || maxP as real <= cfg.skewFactor * med as real {
        continue;
      }
      var f := Finding(R7, SeverityForBytes(t.retainedBytes), Key(R7, t.name), 0.0, High,
                       Investigate(t.name), false);
      FindingR7(ctx, t);
      out := out + [f];
    }
    assert ts[..|ts|] == ts;
  }

  method EvalR8(ctx: Ctx) returns (out: seq<Finding>)
    ensures out == Detect(R8, ctx)
  {
    hide FiresIn, TopicFinding, Round2, FirstSuffix, Owned;
    var cfg, ts := ctx.th.r8, ctx.snap.topics;
    out := [];
    for i := 0 to |ts|
      invariant out == OverTopics(R8, ctx, ts[..i])
    {
      var t := ts[i];
      OneMore(R8, ctx, i);
      VerdictR8(ctx, t);
      var suffix := MatchSuffix(t.name, cfg.suffixes);
      if suffix == "" {
        continue;
      }
      if t.retainedBytes < cfg.minRetainedBytes {
        continue;
      }
      var owned := HasOwningApp(t.name, ctx.snap.groups);
      if owned {
        continue;
      }
      var eur := GB(t.retainedBytes) * ctx.prices.storageEURPerGBMo;
      var f := Finding(R8, SeverityForBytes(t.retainedBytes), Key(R8, t.name), Round2(eur), Medium,
                       DeleteTopic(t.name), false);
      FindingR8(ctx, t, eur);
      out := out + [f];
    }
    assert ts[..|ts|] == ts;
  }
}
