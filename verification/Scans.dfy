/** What a live scan reports, in terms of what the Kafka reader returned: the collector, the detectors and the
    ranking together. */
module Scans {
  import opened Seqs
  import opened Types
  import opened Cost
  import opened Rules
  import opened Engine
  import opened Members
  import opened Folds
  import opened Collect
  import opened Verdicts
  import Pipeline

  /** A topic of the cluster that makes it into the scan. */
  ghost predicate Scanned(info: TopicInfo, d: ClusterData, opts: Options) {
    info in d.topics && (opts.includeInternal || (!info.isInternal && !("__" <= info.name)))
  }

  /** The bytes of all replicas of a topic on disk. */
  ghost function DiskBytes(d: ClusterData, name: string): int {
    var parts := At(d.logDirs, name);
    SumI(Itself, AllReplicas(Reading(parts.Keys), parts))
  }

  /** Some order in which to read the partitions. */
  ghost function Reading(keys: set<int>): (order: seq<int>)
    ensures forall i :: 0 <= i < |order| ==> order[i] in keys
    ensures Enumerates(order, keys)
  {
    assert forall i :: 0 <= i < |Listing(keys)| ==> Listing(keys)[i] in Listing(keys);
    Listing(keys)
  }

  /** A live group that has committed offsets on the topic. */
  ghost predicate HasLiveConsumer(d: ClusterData, name: string) {
    exists g :: g in d.groups && g.state != "empty" && g.state != "dead" && g.state != ""
                && g.groupId in d.committed && name in d.committed[g.groupId]
  }

  lemma {:induction false} NobodyConsumes(groups: seq<GroupInfo>, committed: map<string, set<string>>, topic: string)
    ensures Consumers(groups, committed, topic) <= 0
            <==> forall g :: g in groups ==> !Consumes(g, committed, topic)
  {
    hide Consumes;
    if groups != [] {
      assert groups == groups[..|groups| - 1] + [groups[|groups| - 1]];
      NobodyConsumes(groups[..|groups| - 1], committed, topic);
    }
  }

  lemma ConsumersIff(d: ClusterData, name: string)
    ensures Consumers(d.groups, d.committed, name) <= 0 <==> !HasLiveConsumer(d, name)
  {
    NobodyConsumes(d.groups, d.committed, name);
    forall g | g in d.groups
      ensures Consumes(g, d.committed, name)
              <==> g.state != "empty" && g.state != "dead" && g.state != ""
                   && g.groupId in d.committed && name in d.committed[g.groupId]
    {
      ConsumesMeans(g, d.committed, name);
    }
    hide Consumes, Consumers;
  }

  /** The topic of the snapshot that stands for a topic of the cluster. Its figures are the reader's; settings that
      are absent read as infinite retention, the producer's codec and deletion. */
  lemma ScannedTopic(snap: Snapshot, d: ClusterData, opts: Options, info: TopicInfo) returns (t: Topic)
    requires BuiltFrom(snap, d, opts) && NoDup(Map(InfoName, Kept(d, opts))) && Scanned(info, d, opts)
    ensures DistinctTopics(snap.topics) && t in snap.topics && t.name == info.name
    ensures t.partitions == info.partitions && t.replicationFactor == info.replicationFactor
    ensures t.retainedBytes == DiskBytes(d, info.name)
    ensures t.activeConsumers <= 0 <==> !HasLiveConsumer(d, info.name)
    ensures t.bytesInPerSec == Ingest(info, d, opts) && t.bytesOutPerSec == 0.0
    ensures var parts := At(d.logDirs, info.name); t.partitionBytes == Map(ReplicaSum(parts), AscendingKeys(parts.Keys))
    ensures var unset := info.name !in d.configs;
            && t.retentionMs == (if unset || d.configs[info.name].retentionMs == None then -1
                                 else d.configs[info.name].retentionMs.value)
            && t.compressionType == (if unset || d.configs[info.name].compressionType == None
                                        || d.configs[info.name].compressionType == Some("") then "producer"
                                     else d.configs[info.name].compressionType.value)
            && t.cleanupPolicy == (if unset || d.configs[info.name].cleanupPolicy == None
                                      || d.configs[info.name].cleanupPolicy == Some("") then "delete"
                                   else d.configs[info.name].cleanupPolicy.value)
  {
    NamesStayDistinct(snap, d, opts);
    var i := TopicOf(snap, d, opts, info);
    t := snap.topics[i];
    ConsumersIff(d, info.name);
    TotalIsOverAllReplicas(At(d.logDirs, info.name), Reading(At(d.logDirs, info.name).Keys));
    hide BuiltFrom, SomeEarliest, IsLatest, AscendingKeys, Ingest, Consumers, HasLiveConsumer, AllReplicas;
  }

  /** The rest of the snapshot: every group as listed, its commit age unknown; every broker; the cluster as named in
      the options, a self-hosted one by default. */
  lemma ScannedCluster(snap: Snapshot, d: ClusterData, opts: Options)
    requires BuiltFrom(snap, d, opts)
    ensures |snap.groups| == |d.groups| && |snap.brokers| == |d.brokers|
    ensures forall i :: 0 <= i < |d.groups| ==>
      snap.groups[i] == ConsumerGrp(d.groups[i].groupId, d.groups[i].state, -1)
    ensures forall i :: 0 <= i < |d.brokers| ==> snap.brokers[i] == Broker(d.brokers[i], 0)
    ensures snap.cluster.provider == (if opts.provider == "" then "self" else opts.provider)
    ensures snap.cluster.name == (if opts.clusterName == "" then "kafka-cluster" else opts.clusterName)
  {
  }

  /** A scan without a sample window sees no traffic. With one, the estimate of a topic balances: bytes in over the
      window are to the bytes on disk as the records between the two end probes are to those between start and first
      end, partition by partition. */
  lemma ScannedRate(d: ClusterData, opts: Options, info: TopicInfo, order: seq<int>, held: seq<int>, produced: seq<int>)
    requires var start, end0, end1 := At(d.startOff, info.name), At(d.endOff, info.name), At(d.endOff2, info.name);
             && Enumerates(order, end0.Keys) && |held| == |produced| == |order|
             && forall i :: 0 <= i < |order| ==>
                  && order[i] in end0 && ShowsHeld(held[i], order[i], start, end0)
                  && ShowsProduced(produced[i], order[i], end0, end1)
    ensures var rate, window, bytes := Ingest(info, d, opts), opts.windowSecs, DiskBytes(d, info.name);
            var records, delta := SumI(Itself, held), SumI(Itself, produced);
            && rate >= 0.0
            && (rate == 0.0 <==> window <= 0.0 || records <= 0 || delta <= 0 || bytes <= 0)
            && (rate != 0.0 ==> rate * window * records as real == bytes as real * delta as real)
  {
    hide *;
    IngestIsRate(d, opts, info);
    EstimateBalances(DiskBytes(d, info.name), At(d.startOff, info.name), At(d.endOff, info.name),
                     At(d.endOff2, info.name), opts.windowSecs, order, held, produced);
  }

  lemma IngestIsRate(d: ClusterData, opts: Options, info: TopicInfo)
    ensures var start, end0, end1 := At(d.startOff, info.name), At(d.endOff, info.name), At(d.endOff2, info.name);
            Ingest(info, d, opts)
            == Rate(DiskBytes(d, info.name), Held(start, end0), Produced(end0, end1), opts.windowSecs)
  {
    var parts := At(d.logDirs, info.name);
    TotalIsOverAllReplicas(parts, Reading(parts.Keys));
    hide Held, Produced, AllReplicas, SumOver, SumI;
  }

  /** A scan calls a topic dead exactly when it is no Streams topic, holds enough on disk in all its replicas, shows
      next to no growth, and no live group has committed on it. */
  lemma ScanFindsDeadTopicIff(snap: Snapshot, d: ClusterData, opts: Options, cm: CostModel, cfg: RuleConfig,
                              info: TopicInfo)
    requires BuiltFrom(snap, d, opts) && NoDup(Map(InfoName, Kept(d, opts))) && Scanned(info, d, opts)
    ensures Key(R1, info.name) in Keys(snap, cm, cfg)
            <==> && R1 !in cfg.disabled
                 && !(exists rest: string :: info.name == rest + "-changelog")
                 && !(exists rest: string :: info.name == rest + "-repartition")
                 && DiskBytes(d, info.name) >= cfg.thresholds.r1.minRetainedBytes
                 && Ingest(info, d, opts) <= cfg.thresholds.r1.maxBytesInPerSec
                 && !HasLiveConsumer(d, info.name)
  {
    hide *;
    var t := ScannedTopic(snap, d, opts, info);
    DeadTopicIff(snap, cm, cfg, t);
  }

  /** A scan calls an internal topic orphaned exactly when its name ends in a listed suffix, its replicas hold
      enough, and no group the cluster still lists, live or not, has an id its name goes on from. */
  lemma ScanFindsOrphanIff(snap: Snapshot, d: ClusterData, opts: Options, cm: CostModel, cfg: RuleConfig,
                           info: TopicInfo)
    requires BuiltFrom(snap, d, opts) && NoDup(Map(InfoName, Kept(d, opts))) && Scanned(info, d, opts)
    ensures Key(R8, info.name) in Keys(snap, cm, cfg)
            <==> && R8 !in cfg.disabled
                 && (exists i, rest: string ::
                       0 <= i < |cfg.thresholds.r8.suffixes| && info.name == rest + cfg.thresholds.r8.suffixes[i] &&
                       "" !in cfg.thresholds.r8.suffixes[..i + 1])
                 && DiskBytes(d, info.name) >= cfg.thresholds.r8.minRetainedBytes
                 && !(exists g, rest: string :: g in d.groups && g.groupId != "" && info.name == g.groupId + rest)
  {
    var t := ScannedTopic(snap, d, opts, info);
    OrphanIff(snap, cm, cfg, t);
    GroupsAreListed(snap, d, opts, info.name);
    hide *;
  }

  lemma GroupsAreListed(snap: Snapshot, d: ClusterData, opts: Options, name: string)
    requires BuiltFrom(snap, d, opts)
    ensures (exists g, rest: string :: g in snap.groups && g.groupId != "" && name == g.groupId + rest)
            <==> (exists g, rest: string :: g in d.groups && g.groupId != "" && name == g.groupId + rest)
  {
    assert snap.groups == Map(MapGroup(), d.groups);
    hide BuiltFrom;
    if g, rest: string :| g in snap.groups && g.groupId != "" && name == g.groupId + rest {
      var i :| 0 <= i < |snap.groups| && snap.groups[i] == g;
      assert d.groups[i] in d.groups && name == d.groups[i].groupId + rest;
    }
    if g, rest: string :| g in d.groups && g.groupId != "" && name == g.groupId + rest {
      var i :| 0 <= i < |d.groups| && d.groups[i] == g;
      assert snap.groups[i] in snap.groups && name == snap.groups[i].groupId + rest;
    }
  }

  /** A scan asks for compression exactly when enough comes in and the codec is unset, empty or one of the three
      that compress nothing. */
  lemma ScanFindsUncompressedIff(snap: Snapshot, d: ClusterData, opts: Options, cm: CostModel, cfg: RuleConfig,
                                 info: TopicInfo)
    requires BuiltFrom(snap, d, opts) && NoDup(Map(InfoName, Kept(d, opts))) && Scanned(info, d, opts)
    ensures Key(R5, info.name) in Keys(snap, cm, cfg)
            <==> && R5 !in cfg.disabled
                 && Ingest(info, d, opts) >= cfg.thresholds.r5.minBytesInPerSec
                 && (info.name !in d.configs || d.configs[info.name].compressionType == None
                     || d.configs[info.name].compressionType.value
                        in {"", "none", "uncompressed", "producer"})
  {
    var t := ScannedTopic(snap, d, opts, info);
    CompressionIff(snap, cm, cfg, t);
    hide *;
  }

  /** A scan finds too many partitions, or replicas, exactly by the counts the cluster reports. */
  lemma ScanFindsCountsIff(snap: Snapshot, d: ClusterData, opts: Options, cm: CostModel, cfg: RuleConfig,
                           info: TopicInfo)
    requires BuiltFrom(snap, d, opts) && NoDup(Map(InfoName, Kept(d, opts))) && Scanned(info, d, opts)
    requires cfg.thresholds.r4.targetBytesPerPart > 0.0
    ensures Key(R4, info.name) in Keys(snap, cm, cfg)
            <==> && R4 !in cfg.disabled
                 && info.partitions > cfg.thresholds.r4.minPartitions
                 && (if info.partitions > 0
                     then Ingest(info, d, opts) < cfg.thresholds.r4.maxBytesPerPartSec * info.partitions as real
                     else cfg.thresholds.r4.maxBytesPerPartSec > 0.0)
                 && Ingest(info, d, opts) <= cfg.thresholds.r4.targetBytesPerPart * (info.partitions - 1) as real
    ensures Key(R6, info.name) in Keys(snap, cm, cfg)
            <==> && R6 !in cfg.disabled
                 && info.replicationFactor >= cfg.thresholds.r6.triggerRF
                 && info.replicationFactor > cfg.thresholds.r6.proposedRF
                 && (exists p :: cfg.thresholds.r6.namePattern == Some(p) && p(info.name))
  {
    hide *;
    var t := ScannedTopic(snap, d, opts, info);
    PartitionsIff(snap, cm, cfg, t);
    ReplicationIff(snap, cm, cfg, t);
  }

  /** Nothing else is reported: a line of a scan is about a scanned topic. */
  lemma OnlyScannedIsReported(snap: Snapshot, d: ClusterData, opts: Options, cm: CostModel, cfg: RuleConfig, k: Key)
    requires BuiltFrom(snap, d, opts) && NoDup(Map(InfoName, Kept(d, opts))) && k in Keys(snap, cm, cfg)
    ensures exists info :: Scanned(info, d, opts) && info.name == k.name
  {
    NamesStayDistinct(snap, d, opts);
    Pipeline.QuietRules(snap, d, opts, cm, cfg);
    hide Report, Flags, Maps;
    var f :| f in Report([snap], cm, cfg) && f.key == k;
    var t := TopicBehind(snap, cm, cfg, f);
    var info :| info in Kept(d, opts) && Maps(t, info, d, opts);
    NameKept(t, info, d, opts);
  }
}
