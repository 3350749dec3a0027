/** Collected snapshots through the rules engine. */
module Pipeline {
  import opened Seqs
  import opened Types
  import opened Cost
  import opened Rules
  import opened Detectors
  import opened Engine
  import opened Members
  import opened Budget
  import opened Folds
  import opened Collect
  import opened Edits
  import opened Convergence
  import opened Sorting

  ghost predicate SaneData(d: ClusterData) {
    && (forall info :: info in d.topics ==> info.partitions >= 0)
    && forall name, pid, i :: name in d.logDirs && pid in d.logDirs[name] && 0 <= i < |d.logDirs[name][pid]|
                              ==> d.logDirs[name][pid][i] >= 0
  }

  lemma {:induction false} SumNonNegative(xs: seq<int>)
    requires forall i :: 0 <= i < |xs| ==> xs[i] >= 0
    ensures SumI(Itself, xs) >= 0
  {
    if xs != [] {
      SumNonNegative(xs[..|xs| - 1]);
    }
  }

  function Zero(k: int): int { 0 }

  lemma {:induction false} SumOverZero(keys: set<int>)
    ensures SumOver(Zero, keys) == 0
  {
    if keys != {} {
      SomeKey(keys);
      var k :| k in keys;
      SumOverTakes(Zero, keys, k);
      SumOverZero(keys - {k});
    }
  }

  lemma RetainedNonNegative(d: ClusterData, name: string)
    requires SaneData(d)
    ensures var parts := At(d.logDirs, name); SumOver(ReplicaSum(parts), parts.Keys) >= 0
  {
    var parts := At(d.logDirs, name);
    forall pid | pid in parts.Keys
      ensures Zero(pid) <= ReplicaSum(parts)(pid)
    {
      SumNonNegative(parts[pid]);
    }
    SumOverLe(Zero, ReplicaSum(parts), parts.Keys);
    SumOverZero(parts.Keys);
  }

  lemma CollectedTopic(snap: Snapshot, d: ClusterData, opts: Options, t: Topic)
    requires BuiltFrom(snap, d, opts) && t in snap.topics
    ensures t.maxConsumerLagMs == -1 && t.bytesInPerSec >= 0.0
    ensures opts.windowSecs <= 0.0 ==> t.bytesInPerSec == 0.0
    ensures SaneData(d) ==> t.retainedBytes >= 0 && t.partitions >= 0
  {
    hide SomeEarliest, IsLatest, AscendingKeys, SaneData;
    var info :| info in Kept(d, opts) && Maps(t, info, d, opts);
    var parts, start, end0 := At(d.logDirs, info.name), At(d.startOff, info.name), At(d.endOff, info.name);
    RateBalances(SumOver(ReplicaSum(parts), parts.Keys), Held(start, end0), Produced(end0, At(d.endOff2, info.name)),
                 opts.windowSecs);
    hide Rate;
    if SaneData(d) {
      RetainedNonNegative(d, info.name);
      TopicIsCounted(d, info);
    }
  }

  lemma TopicIsCounted(d: ClusterData, info: TopicInfo)
    requires SaneData(d) && info in d.topics
    ensures info.partitions >= 0
  {
  }

  /** A live scan never reports a zombie group or a retention finding, whatever the thresholds: the collector
      knows neither commit ages nor lag times. A single-shot scan reports no compression finding either. */
  lemma {:induction false} QuietRules(snap: Snapshot, d: ClusterData, opts: Options, cm: CostModel, cfg: RuleConfig)
    requires BuiltFrom(snap, d, opts)
    ensures forall f :: f in Report([snap], cm, cfg) ==> f.rule != R2 && f.rule != R3
    ensures opts.windowSecs <= 0.0 && cfg.thresholds.r5.minBytesInPerSec > 0.0
            ==> forall f :: f in Report([snap], cm, cfg) ==> f.rule != R5
  {
    hide Report, BuiltFrom;
    forall f | f in Report([snap], cm, cfg)
      ensures f.rule != R2 && f.rule != R3
      ensures opts.windowSecs <= 0.0 && cfg.thresholds.r5.minBytesInPerSec > 0.0 ==> f.rule != R5
    {
      InReport(snap, cm, cfg, f);
      QuietFinding(snap, d, opts, Context(snap, cm, cfg), f);
    }
  }

  lemma NoZombies(snap: Snapshot, d: ClusterData, opts: Options, th: Thresholds, g: ConsumerGrp)
    requires BuiltFrom(snap, d, opts) && g in snap.groups
    ensures !R2Fires(th.r2, g)
  {
  }

  lemma QuietTopic(snap: Snapshot, d: ClusterData, opts: Options, ctx: Ctx, r: RuleId, t: Topic)
    requires BuiltFrom(snap, d, opts) && t in snap.topics && FiresIn(r, ctx, t)
    ensures r != R2 && r != R3
    ensures opts.windowSecs <= 0.0 && ctx.th.r5.minBytesInPerSec > 0.0 ==> r != R5
  {
    hide BuiltFrom, RateOf, SavedGB, StableSort, Owned, FirstSuffix;
    CollectedTopic(snap, d, opts, t);
  }

  lemma QuietFinding(snap: Snapshot, d: ClusterData, opts: Options, ctx: Ctx, f: Finding)
    requires BuiltFrom(snap, d, opts) && ctx.snap == snap && f in Detect(f.rule, ctx)
    ensures f.rule != R2 && f.rule != R3
    ensures opts.windowSecs <= 0.0 && ctx.th.r5.minBytesInPerSec > 0.0 ==> f.rule != R5
  {
    hide BuiltFrom, OverTopics, OverGroups, FiresIn, R2Fires, TopicFinding, GroupFinding;
    if f.rule == R2 {
      InOverGroups(ctx, snap.groups, f);
      var g :| g in snap.groups && R2Fires(ctx.th.r2, g);
      NoZombies(snap, d, opts, ctx.th, g);
    } else {
      InOverTopics(f.rule, ctx, snap.topics, f);
      var t :| t in snap.topics && FiresIn(f.rule, ctx, t);
      QuietTopic(snap, d, opts, ctx, f.rule, t);
    }
  }

  lemma NoRetentionCharge(ctx: Ctx)
    requires forall t :: t in ctx.snap.topics ==> t.maxConsumerLagMs < 0
    ensures ExactTotal(R3, ctx) == 0.0
  {
    var zero := (t: Topic) => 0.0;
    forall t | t in ctx.snap.topics
      ensures Charged(R3, ctx)(t) == 0.0 * zero(t)
    {
    }
    SumRScale(Charged(R3, ctx), zero, 0.0, ctx.snap.topics);
  }

  lemma CollectedTopics(snap: Snapshot, d: ClusterData, opts: Options)
    requires BuiltFrom(snap, d, opts) && SaneData(d)
    ensures SaneTopics(snap.topics) && forall t :: t in snap.topics ==> t.maxConsumerLagMs < 0
  {
    hide BuiltFrom, SaneData;
    forall t | t in snap.topics
      ensures t.retainedBytes >= 0 && t.partitions >= 0 && t.bytesInPerSec >= 0.0 && t.maxConsumerLagMs < 0
    {
      CollectedTopic(snap, d, opts, t);
    }
  }

  /** The budget of a live scan whose topics have at most `most` replicas: 2.2 - 2 / most storage bills under
      the default proposal of two replicas, with amortized partitions. */
  lemma LiveBudgetUpToFactor(snap: Snapshot, d: ClusterData, opts: Options, cm: CostModel, cfg: RuleConfig, most: int)
    requires BuiltFrom(snap, d, opts) && SaneData(d)
    requires PlainThresholds(cfg.thresholds) && EffectiveWeights(cm).storage >= 0.0
    requires forall t :: t in snap.topics ==> t.replicationFactor <= most
    ensures var out, ctx := Filter(NotFrom(R5), Report([snap], cm, cfg)), Context(snap, cm, cfg);
            var share := SpareShare(cfg.thresholds.r6.proposedRF, most);
            && SumR(Saving, out) <= (1.0 + share) * StorageBill(ctx) + PartitionCap(ctx) + 0.005 * |out| as real
            && (!PricedByConfluent(ctx)
                ==> SumR(Saving, out) <= (1.2 + share) * StorageBill(ctx) + 0.005 * |out| as real)
  {
    hide *;
    var ctx, share := Context(snap, cm, cfg), SpareShare(cfg.thresholds.r6.proposedRF, most);
    CollectedTopics(snap, d, opts);
    assert [] + [snap] == [snap];
    ReportWithinParts([], snap, cm, cfg);
    BillNonNegative(ctx);
    NoRetentionCharge(ctx);
    PlainFactor(cfg.thresholds);
    ReplicationWithinShare(ctx, most);
    AmortizedCap(ctx);
    PieceWithinTotal(ctx, cfg, R3);
    PieceWithinTotal(ctx, cfg, R6);
    var out := Filter(NotFrom(R5), Report([snap], cm, cfg));
    PartsOfBill(SumR(Saving, out), StorageBill(ctx), PartitionCap(ctx), ExactPiece(ctx, cfg, R3),
                ExactPiece(ctx, cfg, R6), share, 0.005 * |out| as real);
  }

  /** The budget of a live scan is two storage bills plus the price of the cluster's partitions, plus half a cent
      a finding: 2.2 storage bills unless Confluent prices partitions. For a single-shot scan with default
      thresholds it covers the whole report. */
  lemma LiveScanBudget(snap: Snapshot, d: ClusterData, opts: Options, cm: CostModel, cfg: RuleConfig)
    requires BuiltFrom(snap, d, opts) && SaneData(d)
    requires PlainThresholds(cfg.thresholds) && EffectiveWeights(cm).storage >= 0.0
    ensures var out, ctx := Filter(NotFrom(R5), Report([snap], cm, cfg)), Context(snap, cm, cfg);
            && SumR(Saving, out) <= 2.0 * StorageBill(ctx) + PartitionCap(ctx) + 0.005 * |out| as real
            && (!PricedByConfluent(ctx) ==> SumR(Saving, out) <= 2.2 * StorageBill(ctx) + 0.005 * |out| as real)
    ensures opts.windowSecs <= 0.0 && cfg.thresholds.r5.minBytesInPerSec > 0.0
            ==> Filter(NotFrom(R5), Report([snap], cm, cfg)) == Report([snap], cm, cfg)
  {
    hide *;
    var most := MostReplicas(snap.topics);
    var ctx, share := Context(snap, cm, cfg), SpareShare(cfg.thresholds.r6.proposedRF, most);
    LiveBudgetUpToFactor(snap, d, opts, cm, cfg, most);
    CollectedTopics(snap, d, opts);
    ReportWithinParts([], snap, cm, cfg);
    BillNonNegative(ctx);
    var out := Filter(NotFrom(R5), Report([snap], cm, cfg));
    ShareAtMostOne(SumR(Saving, out), 1.0, share, StorageBill(ctx), PartitionCap(ctx) + 0.005 * |out| as real);
    ShareAtMostOne(SumR(Saving, out), 1.2, share, StorageBill(ctx), 0.005 * |out| as real);
    NothingFromR5(snap, d, opts, cm, cfg);
  }

  lemma NothingFromR5(snap: Snapshot, d: ClusterData, opts: Options, cm: CostModel, cfg: RuleConfig)
    requires BuiltFrom(snap, d, opts)
    ensures opts.windowSecs <= 0.0 && cfg.thresholds.r5.minBytesInPerSec > 0.0
            ==> Filter(NotFrom(R5), Report([snap], cm, cfg)) == Report([snap], cm, cfg)
  {
    hide BuiltFrom, Report;
    QuietRules(snap, d, opts, cm, cfg);
    if opts.windowSecs <= 0.0 && cfg.thresholds.r5.minBytesInPerSec > 0.0 {
      FilterAll(NotFrom(R5), Report([snap], cm, cfg));
    }
  }

  // ---- Two scans of one cluster ----

  /** Whatever order Go visited its maps in, the report is the same. */
  lemma ScansReportAlike(a: Snapshot, b: Snapshot, d: ClusterData, opts: Options, cm: CostModel, cfg: RuleConfig)
    requires BuiltFrom(a, d, opts) && BuiltFrom(b, d, opts) && NoDup(Map(InfoName, Kept(d, opts)))
    ensures Report([a], cm, cfg) == Report([b], cm, cfg)
  {
    hide *;
    BuildsAgree(a, b, d, opts);
    EarliestOffsetUnread(a, cm, cfg);
    EarliestOffsetUnread(b, cm, cfg);
  }

  /** A scan of a cluster with distinct names and ids is a snapshot the cleanup theorems speak of. */
  lemma ScanIsDistinct(snap: Snapshot, d: ClusterData, opts: Options)
    requires BuiltFrom(snap, d, opts) && NoDup(Map(InfoName, Kept(d, opts))) && DistinctIds(d.groups)
    ensures Distinct(snap)
  {
    NamesStayDistinct(snap, d, opts);
    assert forall i :: 0 <= i < |d.groups| ==> snap.groups[i].groupId == d.groups[i].groupId;
  }

  lemma CleaningUnoffset(cfg: RuleConfig, s: Snapshot)
    ensures Cleaned(cfg, Unoffsets(s)) == Unoffsets(Cleaned(cfg, s))
  {
    var groups := FinalGroups(cfg, s);
    var stays, tuned := StaysTopic(cfg, groups), Tuned(cfg);
    forall t: Topic
      ensures stays(Unoffset(t)) == stays(t) && tuned(Unoffset(t)) == Unoffset(tuned(t))
    {
      UnoffsetCleansAlike(cfg, groups, t);
    }
    hide StaysTopic, Tuned, Unoffset;
    FilterOfMap(stays, stays, Unoffset, s.topics);
    var kept := Filter(stays, s.topics);
    assert Map(tuned, Map(Unoffset, kept)) == Map(Unoffset, Map(tuned, kept));
  }

  lemma FlagsUnoffset(r: RuleId, th: Thresholds, groups: seq<ConsumerGrp>, t: Topic)
    ensures Flags(r, th, groups, Unoffset(t)) == Flags(r, th, groups, t)
  {
    hide StableSort, Owned, FirstSuffix;
    assert RateOf([t], t.name) == t.bytesInPerSec == RateOf([Unoffset(t)], t.name);
  }

  lemma UnoffsetCleansAlike(cfg: RuleConfig, groups: seq<ConsumerGrp>, t: Topic)
    ensures StaysTopic(cfg, groups)(Unoffset(t)) == StaysTopic(cfg, groups)(t)
    ensures Tuned(cfg)(Unoffset(t)) == Unoffset(Tuned(cfg)(t))
  {
    var th := cfg.thresholds;
    FlagsUnoffset(R1, th, groups, t);
    FlagsUnoffset(R8, th, groups, t);
    FlagsUnoffset(R3, th, [], t);
    FlagsUnoffset(R4, th, [], t);
    FlagsUnoffset(R5, th, [], t);
    FlagsUnoffset(R6, th, [], t);
    hide Flags;
  }

  /** Complete cleanups of two scans of one cluster end alike, up to the earliest offsets, whatever order Go
      visited its maps in and whatever order the fixes were applied in. */
  lemma ScansCleanAlike(d: ClusterData, opts: Options, cm: CostModel, cfg: RuleConfig,
                        runA: seq<Snapshot>, runB: seq<Snapshot>)
    requires NoDup(Map(InfoName, Kept(d, opts))) && DistinctIds(d.groups)
    requires IsRun(cm, cfg, runA) && BuiltFrom(runA[0], d, opts) && Settled(cm, cfg, runA[|runA| - 1])
    requires IsRun(cm, cfg, runB) && BuiltFrom(runB[0], d, opts) && Settled(cm, cfg, runB[|runB| - 1])
    ensures Unoffsets(runA[|runA| - 1]) == Unoffsets(runB[|runB| - 1])
  {
    hide BuiltFrom, Settled, Cleaned, Unoffsets;
    ScanIsDistinct(runA[0], d, opts);
    ScanIsDistinct(runB[0], d, opts);
    CleanupIsConfluent(cm, cfg, runA);
    CleanupIsConfluent(cm, cfg, runB);
    BuildsAgree(runA[0], runB[0], d, opts);
    CleaningUnoffset(cfg, runA[0]);
    CleaningUnoffset(cfg, runB[0]);
  }

  lemma ScanTopicWeight(snap: Snapshot, d: ClusterData, opts: Options, cfg: RuleConfig, t: Topic)
    requires BuiltFrom(snap, d, opts) && t in snap.topics
    ensures Weight(cfg)(t) <= 4
  {
    hide BuiltFrom, RateOf;
    CollectedTopic(snap, d, opts, t);
    assert !Due(cfg, R3, t);
    hide Due;
  }

  lemma ScanWeight(snap: Snapshot, d: ClusterData, opts: Options, cfg: RuleConfig)
    requires BuiltFrom(snap, d, opts)
    ensures FinalGroups(cfg, snap) == snap.groups
    ensures SumI(Weight(cfg), snap.topics) <= 4 * |snap.topics|
  {
    hide BuiltFrom, Weight, R2Fires;
    forall g | g in snap.groups
      ensures StaysGroup(cfg)(g)
    {
      NoZombies(snap, d, opts, cfg.thresholds, g);
    }
    FilterAll(StaysGroup(cfg), snap.groups);
    forall t | t in snap.topics
      ensures Weight(cfg)(t) <= 4
    {
      ScanTopicWeight(snap, d, opts, cfg, t);
    }
    SumAtMost(Weight(cfg), 4, snap.topics);
  }

  /** The cleanup of a live scan takes at most four fixes a topic: no group is deleted, no retention changed. */
  lemma ScanCleanupIsShort(d: ClusterData, opts: Options, cm: CostModel, cfg: RuleConfig, run: seq<Snapshot>)
    requires NoDup(Map(InfoName, Kept(d, opts))) && DistinctIds(d.groups)
    requires IsRun(cm, cfg, run) && BuiltFrom(run[0], d, opts)
    ensures |run| - 1 <= 4 * |run[0].topics|
  {
    var last := run[|run| - 1];
    ScanIsDistinct(run[0], d, opts);
    RunsTerminate(cm, cfg, run);
    ScanWeight(run[0], d, opts, cfg);
    assert |FinalGroups(cfg, last)| <= |last.groups|;
    assert Cleaned(cfg, last).groups == Cleaned(cfg, run[0]).groups == run[0].groups;
    WeightNonNegative(cfg, last.topics);
    hide BuiltFrom, IsRun, Cleaned;
  }

  lemma {:induction false} WeightNonNegative(cfg: RuleConfig, ts: seq<Topic>)
    ensures SumI(Weight(cfg), ts) >= 0
  {
    if ts != [] {
      WeightNonNegative(cfg, ts[..|ts| - 1]);
    }
  }
}
