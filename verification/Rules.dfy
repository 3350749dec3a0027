/** The eight detectors as values: when each fires, what it saves, what it proposes. */
module Rules {
  import opened Seqs
  import opened Types
  import opened Helpers
  import opened Cost

  /** What every detector is handed. The Disabled table stays with Evaluate. */
  datatype Ctx = Ctx(snap: Snapshot, prices: UnitPrices, th: Thresholds)

  // ---- Names ----

  predicate HasSuffix(name: string, suffix: string) {
    |suffix| <= |name| && name[|name| - |suffix|..] == suffix
  }

  /** The first listed suffix that the name ends in, "" when there is none. */
  function FirstSuffix(name: string, suffixes: seq<string>): string {
    if suffixes == [] then ""
    else if HasSuffix(name, suffixes[0]) then suffixes[0]
    else FirstSuffix(name, suffixes[1..])
  }

  predicate StreamsInternal(name: string) {
    FirstSuffix(name, STREAMS_SUFFIXES) != ""
  }

  predicate Owned(topic: string, groups: seq<ConsumerGrp>) {
    exists g <- groups :: g.groupId != "" && g.groupId <= topic
  }

  /** The ingest rate of the first topic with this name. */
  function RateOf(topics: seq<Topic>, name: string): real {
    if topics == [] then 0.0
    else if topics[0].name == name then topics[0].bytesInPerSec
    else RateOf(topics[1..], name)
  }

  // ---- R1, R2 ----

  predicate R1Fires(cfg: R1Config, t: Topic) {
    && !StreamsInternal(t.name)
    && t.bytesInPerSec <= cfg.maxBytesInPerSec
    && t.activeConsumers <= 0
    && t.retainedBytes >= cfg.minRetainedBytes
  }

  predicate R2Fires(cfg: R2Config, g: ConsumerGrp) {
    && g.state == "empty"
    && g.lastCommitAgeDays >= 0
    && g.lastCommitAgeDays >= cfg.minEmptyDays
  }

  // ---- R3 ----

  function ProposedRetention(cfg: R3Config, t: Topic): int {
    MaxI(cfg.minFloorMs, 2 * t.maxConsumerLagMs)
  }

  function ProjectedBytes(cfg: R3Config, rate: real, t: Topic): real {
    MinR(rate * ProposedRetention(cfg, t) as real / 1000.0, t.retainedBytes as real)
  }

  function SavedGB(cfg: R3Config, rate: real, t: Topic): real {
    (t.retainedBytes as real - ProjectedBytes(cfg, rate, t)) / 1000000000.0
  }

  /** The multiple of the lag that retention must exceed. */
  function Horizon(cfg: R3Config, t: Topic): real {
    cfg.lagMultiplier * t.maxConsumerLagMs as real
  }

  predicate R3Fires(cfg: R3Config, rate: real, t: Topic) {
    && t.retainedBytes >= cfg.minRetainedBytes
    && t.maxConsumerLagMs >= 0
    && !(t.retentionMs >= 0 && t.retentionMs as real <= Horizon(cfg, t))
    && !(t.retentionMs >= 0 && ProposedRetention(cfg, t) >= t.retentionMs)
    && SavedGB(cfg, rate, t) > 0.0
  }

  // ---- R4 ----

  function PerPartitionRate(t: Topic): real {
    if t.partitions > 0 then t.bytesInPerSec / t.partitions as real else 0.0
  }

  function ProposedPartitions(cfg: R4Config, t: Topic): int {
    MaxI(cfg.minPartitions, Ceil(t.bytesInPerSec / cfg.targetBytesPerPart))
  }

  predicate R4Fires(cfg: R4Config, t: Topic) {
    && t.partitions > cfg.minPartitions
    && PerPartitionRate(t) < cfg.maxBytesPerPartSec
    && ProposedPartitions(cfg, t) < t.partitions
  }

  function TopicGB(t: Topic): real { GB(t.retainedBytes) }
  function TopicBytes(t: Topic): int { t.retainedBytes }
  function TopicPartitions(t: Topic): int { t.partitions }

  /** 20% of the storage-priced cluster, spread over all partitions. */
  function PerPartitionCost(ctx: Ctx): real {
    var totalParts := SumI(TopicPartitions, ctx.snap.topics);
    if totalParts > 0
    then 0.20 * (SumR(TopicGB, ctx.snap.topics) * ctx.prices.storageEURPerGBMo) / totalParts as real
    else 0.0
  }

  predicate PricedByConfluent(ctx: Ctx) {
    ctx.snap.cluster.provider == "confluent" && ctx.th.r4.confluentPerPartitionEURMo > 0.0
  }

  function PartitionPrice(ctx: Ctx): real {
    if PricedByConfluent(ctx) then ctx.th.r4.confluentPerPartitionEURMo else PerPartitionCost(ctx)
  }

  // ---- R5, R6 ----

  const UNCOMPRESSED: set<string> := {"", "none", "uncompressed", "producer"}

  predicate R5Fires(cfg: R5Config, t: Topic) {
    t.bytesInPerSec >= cfg.minBytesInPerSec && t.compressionType in UNCOMPRESSED
  }

  predicate R6Fires(cfg: R6Config, t: Topic) {
    && t.replicationFactor >= cfg.triggerRF
    && cfg.proposedRF < t.replicationFactor
    && cfg.namePattern.Some?
    && cfg.namePattern.value(t.name)
  }

  // ---- R7 ----

  function Median(sorted: seq<int>): int {
    var n := |sorted|;
    if n == 0 then 0
    else if n % 2 == 1 then sorted[n / 2]
    else Half(sorted[n / 2 - 1] + sorted[n / 2])
  }

  /** The test on sizes in ascending order. */
  predicate SortedSkewed(factor: real, sizes: seq<int>) {
    sizes != [] && Median(sizes) > 0 && sizes[|sizes| - 1] as real > factor * Median(sizes) as real
  }

  // ---- R8 ----

  predicate R8Fires(cfg: R8Config, groups: seq<ConsumerGrp>, t: Topic) {
    && FirstSuffix(t.name, cfg.suffixes) != ""
    && t.retainedBytes >= cfg.minRetainedBytes
    && !Owned(t.name, groups)
  }

  function SeverityForBytes(b: int): Severity {
    if b >= 100 * GIB then Critical else if b >= 10 * GIB then Warning else Info
  }
}
