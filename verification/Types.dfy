/** Snapshots, findings and thresholds. float64 is `real`, int and int64 are `int`. */
module Types {
  import opened Seqs

  datatype RuleId = R1 | R2 | R3 | R4 | R5 | R6 | R7 | R8 {
    /** The order of the id strings "R1" < ... < "R8". */
    function Rank(): int {
      match this
      case R1 => 1 case R2 => 2 case R3 => 3 case R4 => 4
      case R5 => 5 case R6 => 6 case R7 => 7 case R8 => 8
    }
  }

  datatype Topic = Topic(
    name: string,
    partitions: int,
    replicationFactor: int,
    retentionMs: int,
    compressionType: string,
    cleanupPolicy: string,
    retainedBytes: int,
    bytesInPerSec: real,
    bytesOutPerSec: real,
    throughputSource: string,
    partitionBytes: seq<int>,
    earliestOffset: int,
    latestOffset: int,
    maxConsumerLagMs: int,
    activeConsumers: int)

  /** `state` is the group state already trimmed and lower-cased. */
  datatype ConsumerGrp = ConsumerGrp(groupId: string, state: string, lastCommitAgeDays: int)

  datatype Broker = Broker(id: int, logDirBytes: int)

  datatype ClusterInfo = ClusterInfo(name: string, provider: string)

  datatype Snapshot = Snapshot(
    cluster: ClusterInfo,
    topics: seq<Topic>,
    groups: seq<ConsumerGrp>,
    brokers: seq<Broker>)

  datatype Severity = Info | Warning | Critical | Plan

  datatype Confidence = Low | Medium | High

  /** The resource key "Rn:name"; ids have one length, so the pair determines the string. */
  datatype Key = Key(rule: RuleId, name: string)

  /** What the remediation changes on the cluster. */
  datatype Fix =
    | DeleteTopic(topic: string)
    | DeleteGroup(group: string)
    | SetRetention(topic: string, ms: int)
    | SetPartitions(topic: string, partitions: int)
    | SetCompression(topic: string, codec: string)
    | SetReplication(topic: string, factor: int)
    | Investigate(topic: string)

  datatype Finding = Finding(
    rule: RuleId,
    severity: Severity,
    key: Key,
    saving: real,
    confidence: Confidence,
    fix: Fix,
    oneClick: bool)

  // Go divides by this threshold; zero is not a usable value.
  type NonZero = r: real | r != 0.0 witness 1.0

  datatype R1Config = R1Config(maxBytesInPerSec: real, minRetainedBytes: int)
  datatype R2Config = R2Config(minEmptyDays: int)
  datatype R3Config = R3Config(lagMultiplier: real, minRetainedBytes: int, minFloorMs: int)
  datatype R4Config = R4Config(
    minPartitions: int,
    maxBytesPerPartSec: real,
    targetBytesPerPart: NonZero,
    confluentPerPartitionEURMo: real)
  datatype R5Config = R5Config(minBytesInPerSec: real, assumedRatio: real)
  datatype R6Config = R6Config(namePattern: Option<string -> bool>, triggerRF: int, proposedRF: int)
  datatype R7Config = R7Config(skewFactor: real, minTopicBytes: int, minPartitions: int)
  datatype R8Config = R8Config(minRetainedBytes: int, suffixes: seq<string>)

  datatype Thresholds = Thresholds(
    r1: R1Config, r2: R2Config, r3: R3Config, r4: R4Config,
    r5: R5Config, r6: R6Config, r7: R7Config, r8: R8Config)

  /** The ids that map to true in the Disabled table, and the per-rule thresholds. */
  datatype RuleConfig = RuleConfig(disabled: set<RuleId>, thresholds: Thresholds)

  const GIB: int := 1073741824
  const DAY_MS: int := 24 * 60 * 60 * 1000
  const STREAMS_SUFFIXES: seq<string> := ["-changelog", "-repartition"]

  /** The default thresholds; `nonProd` is what the R6 name pattern matches. */
  function DefaultThresholds(nonProd: string -> bool): Thresholds {
    Thresholds(
      R1Config(1.0, GIB),
      R2Config(30),
      R3Config(4.0, 5 * GIB, DAY_MS),
      R4Config(12, 1024.0, 1048576.0, 0.5),
      R5Config(1048576.0, 0.65),
      R6Config(Some(nonProd), 3, 2),
      R7Config(3.0, GIB, 3),
      R8Config(GIB / 4, STREAMS_SUFFIXES))
  }

  ghost predicate DistinctTopics(ts: seq<Topic>) {
    forall i, j :: 0 <= i < j < |ts| ==> ts[i].name != ts[j].name
  }

  ghost predicate DistinctGroups(gs: seq<ConsumerGrp>) {
    forall i, j :: 0 <= i < j < |gs| ==> gs[i].groupId != gs[j].groupId
  }

  /** Kafka names topics and groups uniquely. */
  ghost predicate Distinct(s: Snapshot) {
    DistinctTopics(s.topics) && DistinctGroups(s.groups)
  }
}
