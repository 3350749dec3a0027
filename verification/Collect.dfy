/** internal/collect: the mapping from cluster metadata to a snapshot. */
module Collect {
  import opened Seqs
  import opened Types
  import opened Sorting
  import opened Folds
  import Invariance
  import Detectors
  import Edits
  import Skew

  datatype TopicInfo = TopicInfo(
    name: string,
    isInternal: bool,
    partitions: int,
    replicationFactor: int,
    replicas: map<int, seq<int>>)

  /** `retentionMs` is the parsed value, None when absent or not a number. */
  datatype TopicConfig = TopicConfig(
    retentionMs: Option<int>,
    compressionType: Option<string>,
    cleanupPolicy: Option<string>)

  /** What the reader returns; `endOff2` is the second END-offset probe. */
  datatype ClusterData = ClusterData(
    brokers: seq<int>,
    topics: seq<TopicInfo>,
    configs: map<string, TopicConfig>,
    logDirs: map<string, map<int, seq<int>>>,
    startOff: map<string, map<int, int>>,
    endOff: map<string, map<int, int>>,
    endOff2: map<string, map<int, int>>,
    groups: seq<GroupInfo>,
    committed: map<string, set<string>>)

  /** What the reader's topics look like: one entry a name, one replica list a partition, the factor the longest
      of those lists, and no log-dir size that belongs to no replica. */
  ghost predicate Coherent(d: ClusterData) {
    && (forall i, j :: 0 <= i < j < |d.topics| ==> d.topics[i].name != d.topics[j].name)
    && forall info :: info in d.topics ==> CoherentTopic(info, At(d.logDirs, info.name))
  }

  ghost predicate CoherentTopic(info: TopicInfo, dirs: map<int, seq<int>>) {
    && info.partitions == |info.replicas|
    && IsLongest(info.replicationFactor, info.replicas)
    && forall pid :: pid in dirs ==> pid in info.replicas && |dirs[pid]| <= |info.replicas[pid]|
  }

  ghost predicate IsLongest(factor: int, replicas: map<int, seq<int>>) {
    && factor >= 0
    && (forall pid :: pid in replicas ==> |replicas[pid]| <= factor)
    && (factor == 0 || exists pid :: pid in replicas && |replicas[pid]| == factor)
  }

  datatype Options = Options(clusterName: string, provider: string, windowSecs: real, includeInternal: bool)

  const NO_CONFIG: TopicConfig := TopicConfig(None, None, None)

  function At<V>(m: map<string, map<int, V>>, name: string): map<int, V> {
    if name in m then m[name] else map[]
  }

  function ConfigOf(d: ClusterData, name: string): TopicConfig {
    if name in d.configs then d.configs[name] else NO_CONFIG
  }

  function RetentionOf(v: Option<int>): int { if v.Some? then v.value else -1 }

  function StrOr(v: Option<string>, default: string): string {
    if v.None? || v.value == "" then default else v.value
  }

  function KeepsTopic(opts: Options): TopicInfo -> bool {
    (t: TopicInfo) => opts.includeInternal || !(t.isInternal || "__" <= t.name)
  }

  /** The topics that make it into the snapshot, in reader order. */
  function Kept(d: ClusterData, opts: Options): seq<TopicInfo> {
    Filter(KeepsTopic(opts), d.topics)
  }

  ghost function Ingest(info: TopicInfo, d: ClusterData, opts: Options): real {
    var parts, start, end0 := At(d.logDirs, info.name), At(d.startOff, info.name), At(d.endOff, info.name);
    if opts.windowSecs > 0.0
    then Rate(SumOver(ReplicaSum(parts), parts.Keys), Held(start, end0), Produced(end0, At(d.endOff2, info.name)),
              opts.windowSecs)
    else 0.0
  }

  /** The snapshot topic of one reader topic. Only the earliest offset depends on the order in which Go
      visits the partitions. */
  ghost predicate Maps(t: Topic, info: TopicInfo, d: ClusterData, opts: Options) {
    var parts, cfg := At(d.logDirs, info.name), ConfigOf(d, info.name);
    && t.name == info.name
    && t.partitions == info.partitions
    && t.replicationFactor == info.replicationFactor
    && t.retentionMs == RetentionOf(cfg.retentionMs)
    && t.compressionType == StrOr(cfg.compressionType, "producer")
    && t.cleanupPolicy == StrOr(cfg.cleanupPolicy, "delete")
    && t.retainedBytes == SumOver(ReplicaSum(parts), parts.Keys)
    && t.partitionBytes == Map(ReplicaSum(parts), AscendingKeys(parts.Keys))
    && SomeEarliest(t.earliestOffset, info.replicas.Keys, At(d.startOff, info.name))
    && IsLatest(t.latestOffset, info.replicas.Keys, At(d.endOff, info.name))
    && t.maxConsumerLagMs == -1
    && t.activeConsumers == Consumers(d.groups, d.committed, info.name)
    && t.bytesInPerSec == Ingest(info, d, opts)
    && t.bytesOutPerSec == 0.0
    && t.throughputSource == if opts.windowSecs > 0.0 then "estimated" else "none"
  }

  method MapTopic(info: TopicInfo, d: ClusterData, opts: Options, activeByTopic: map<string, int>)
    returns (t: Topic)
    requires forall topic :: Count(activeByTopic, topic) == Consumers(d.groups, d.committed, topic)
    ensures Maps(t, info, d, opts)
  {
    var cfg, parts, start, end0 :=
      ConfigOf(d, info.name), At(d.logDirs, info.name), At(d.startOff, info.name), At(d.endOff, info.name);
    var retained := SumReplicaBytes(parts);
    var earliest, latest := OffsetSpan(info.replicas, start, end0);
    var sizes := PerPartitionBytes(parts);
    var rate, source := 0.0, "none";
    if opts.windowSecs > 0.0 {
      rate := EstimateBytesInPerSec(retained, start, end0, At(d.endOff2, info.name), opts.windowSecs);
      source := "estimated";
    }
    t := Topic(info.name, info.partitions, info.replicationFactor, RetentionOf(cfg.retentionMs),
               StrOr(cfg.compressionType, "producer"), StrOr(cfg.cleanupPolicy, "delete"), retained,
               rate, 0.0, source, sizes, earliest, latest, -1, Count(activeByTopic, info.name));
  }

  method DropInternal(topics: seq<TopicInfo>, opts: Options) returns (out: seq<TopicInfo>)
    ensures out == Filter(KeepsTopic(opts), topics)
  {
    if opts.includeInternal {
      FilterAll(KeepsTopic(opts), topics);
      return topics;
    }
    out := [];
    for i := 0 to |topics|
      invariant out == Filter(KeepsTopic(opts), topics[..i])
    {
      assert topics[..i + 1] == topics[..i] + [topics[i]];
      FilterSnoc(KeepsTopic(opts), topics[..i], topics[i]);
      if topics[i].isInternal || "__" <= topics[i].name {
        continue;
      }
      out := out + [topics[i]];
    }
    assert topics[..|topics|] == topics;
  }

  // ---- Order by name ----

  /** Go compares strings byte by byte; UTF-8 keeps code point order. */
  predicate StrLess(a: string, b: string) {
    if b == "" then false
    else if a == "" then true
    else if a[0] != b[0] then a[0] < b[0]
    else StrLess(a[1..], b[1..])
  }

  predicate NameLess(a: Topic, b: Topic) { StrLess(a.name, b.name) }

  lemma {:induction false} StrLessAsymmetric(a: string, b: string)
    ensures StrLess(a, b) ==> !StrLess(b, a)
  {
    if a != "" && b != "" {
      StrLessAsymmetric(a[1..], b[1..]);
    }
  }

  lemma {:induction false} StrLessCotransitive(a: string, b: string, c: string)
    ensures StrLess(a, c) ==> StrLess(a, b) || StrLess(b, c)
  {
    if a != "" && b != "" && c != "" {
      StrLessCotransitive(a[1..], b[1..], c[1..]);
    }
  }

  lemma NameOrder()
    ensures StrictWeakOrder(NameLess)
  {
    hide StrLess;
    forall x: Topic, y: Topic
      ensures NameLess(x, y) ==> !NameLess(y, x)
    {
      StrLessAsymmetric(x.name, y.name);
    }
    forall x: Topic, y: Topic, z: Topic
      ensures NameLess(x, z) ==> NameLess(x, y) || NameLess(y, z)
    {
      StrLessCotransitive(x.name, y.name, z.name);
    }
  }

  // ---- Build ----

  function MapGroup(): GroupInfo -> ConsumerGrp {
    (g: GroupInfo) => ConsumerGrp(g.groupId, g.state, -1)
  }

  function MapBroker(): int -> Broker {
    (id: int) => Broker(id, 0)
  }

  function InfoName(t: TopicInfo): string { t.name }

  ghost predicate ComesFrom(t: Topic, kept: seq<TopicInfo>, d: ClusterData, opts: Options) {
    exists info :: info in kept && Maps(t, info, d, opts)
  }

  function ClusterOf(opts: Options): ClusterInfo {
    ClusterInfo(if opts.clusterName != "" then opts.clusterName else "kafka-cluster",
                if opts.provider == "" then "self" else opts.provider)
  }

  ghost predicate BuiltFrom(snap: Snapshot, d: ClusterData, opts: Options) {
    && snap.cluster == ClusterOf(opts)
    && snap.groups == Map(MapGroup(), d.groups)
    && snap.brokers == Map(MapBroker(), d.brokers)
    && Sorted(NameLess, snap.topics)
    && multiset(Map(Invariance.NameOf, snap.topics)) == multiset(Map(InfoName, Kept(d, opts)))
    && forall t :: t in snap.topics ==> ComesFrom(t, Kept(d, opts), d, opts)
  }

  method MapTopics(kept: seq<TopicInfo>, d: ClusterData, opts: Options, activeByTopic: map<string, int>)
    returns (topics: seq<Topic>)
    requires forall topic :: Count(activeByTopic, topic) == Consumers(d.groups, d.committed, topic)
    ensures Map(Invariance.NameOf, topics) == Map(InfoName, kept)
    ensures forall t :: t in topics ==> ComesFrom(t, kept, d, opts)
  {
    hide Maps;
    topics := [];
    for i := 0 to |kept|
      invariant Map(Invariance.NameOf, topics) == Map(InfoName, kept[..i])
      invariant forall t :: t in topics ==> ComesFrom(t, kept, d, opts)
    {
      var t := MapTopic(kept[i], d, opts, activeByTopic);
      NameKept(t, kept[i], d, opts);
      MapSnoc(Invariance.NameOf, topics, t);
      MapStep(InfoName, kept, i);
      topics := topics + [t];
    }
    assert kept[..|kept|] == kept;
  }

  lemma NameKept(t: Topic, info: TopicInfo, d: ClusterData, opts: Options)
    requires Maps(t, info, d, opts)
    ensures t.name == info.name
  {
  }

  method SortTopics(topics: seq<Topic>) returns (sorted: seq<Topic>)
    ensures Sorted(NameLess, sorted) && multiset(sorted) == multiset(topics)
  {
    var a := new Topic[|topics|](i requires 0 <= i < |topics| => topics[i]);
    assert a[..] == topics;
    SortInPlace(a, NameLess);
    sorted := a[..];
    NameOrder();
    StableSortCorrect(NameLess, topics);
    SortPermutes(NameLess, topics);
  }

  /** Build, given what the reader returned. */
  method Build(d: ClusterData, opts: Options) returns (snap: Snapshot)
    ensures BuiltFrom(snap, d, opts)
  {
    hide ComesFrom, NameLess, ClusterOf;
    var kept := DropInternal(d.topics, opts);
    var activeByTopic := ActiveConsumers(d.groups, d.committed);
    var topics := MapTopics(kept, d, opts, activeByTopic);
    var sorted := SortTopics(topics);
    MapPermutation(Invariance.NameOf, topics, sorted);
    assert forall t :: t in sorted ==> t in multiset(topics);
    snap := Snapshot(ClusterOf(opts), sorted, Map(MapGroup(), d.groups), Map(MapBroker(), d.brokers));
  }

  // ---- What every built snapshot satisfies ----

  /** A topic's retained bytes are the sum of its partition sizes. */
  lemma BytesAreConserved(snap: Snapshot, d: ClusterData, opts: Options, t: Topic)
    requires BuiltFrom(snap, d, opts) && t in snap.topics
    ensures t.retainedBytes == SumI(Itself, t.partitionBytes)
  {
    hide SomeEarliest, IsLatest;
    var info :| info in Kept(d, opts) && Maps(t, info, d, opts);
    PartitionsCarryAllBytes(At(d.logDirs, info.name));
  }

  /** Names are distinct in the snapshot when they are in the cluster. */
  lemma NamesStayDistinct(snap: Snapshot, d: ClusterData, opts: Options)
    requires BuiltFrom(snap, d, opts) && NoDup(Map(InfoName, Kept(d, opts)))
    ensures DistinctTopics(snap.topics)
  {
    NoDupPermutation(Map(InfoName, Kept(d, opts)), Map(Invariance.NameOf, snap.topics));
    forall i, j | 0 <= i < j < |snap.topics|
      ensures snap.topics[i].name != snap.topics[j].name
    {
      assert Map(Invariance.NameOf, snap.topics)[i] != Map(Invariance.NameOf, snap.topics)[j];
    }
  }

  // ---- One result for one cluster, whatever order Go visits its maps in ----

  lemma {:induction false} StrLessTotal(a: string, b: string)
    ensures Tied(StrLess, a, b) ==> a == b
  {
    if a != "" && b != "" && a[0] == b[0] {
      StrLessTotal(a[1..], b[1..]);
      assert a == [a[0]] + a[1..] && b == [b[0]] + b[1..];
    }
  }

  lemma NamesSorted(topics: seq<Topic>)
    requires Sorted(NameLess, topics)
    ensures Sorted(StrLess, Map(Invariance.NameOf, topics))
  {
    hide StrLess;
    forall i, j | 0 <= i < j < |topics|
      ensures !StrLess(topics[j].name, topics[i].name)
    {
      assert !NameLess(topics[j], topics[i]);
    }
  }

  lemma SameNames(a: Snapshot, b: Snapshot, d: ClusterData, opts: Options)
    requires BuiltFrom(a, d, opts) && BuiltFrom(b, d, opts)
    ensures Map(Invariance.NameOf, a.topics) == Map(Invariance.NameOf, b.topics)
  {
    NamesSorted(a.topics);
    NamesSorted(b.topics);
    hide StrLess, ComesFrom;
    forall x, y
      ensures Tied(StrLess, x, y) ==> x == y
    {
      StrLessTotal(x, y);
    }
    SortedPermutationsAgree(StrLess, Map(Invariance.NameOf, a.topics), Map(Invariance.NameOf, b.topics));
  }

  lemma SameNameSameInfo(kept: seq<TopicInfo>, a: TopicInfo, b: TopicInfo)
    requires NoDup(Map(InfoName, kept)) && a in kept && b in kept && a.name == b.name
    ensures a == b
  {
    var i :| 0 <= i < |kept| && kept[i] == a;
    var j :| 0 <= j < |kept| && kept[j] == b;
    assert Map(InfoName, kept)[i] == Map(InfoName, kept)[j];
  }

  lemma OneMapping(t: Topic, u: Topic, info: TopicInfo, d: ClusterData, opts: Options)
    requires Maps(t, info, d, opts) && Maps(u, info, d, opts)
    ensures Edits.Unoffset(t) == Edits.Unoffset(u)
    ensures SettledStarts(info.replicas.Keys, At(d.startOff, info.name)) ==> t == u
  {
    var keys, start := info.replicas.Keys, At(d.startOff, info.name);
    if SettledStarts(keys, start) {
      EarliestIsOrderFreeIff(keys, start);
    }
    hide SettledStarts, AscendingKeys, Ingest;
  }

  /** Offset data of the whole cluster for which no earliest offset depends on the visiting order. */
  ghost predicate AllSettled(d: ClusterData, opts: Options) {
    forall info :: info in Kept(d, opts) ==> SettledStarts(info.replicas.Keys, At(d.startOff, info.name))
  }

  /** Two results of Build for the same cluster differ in earliest offsets at most, and not even there when the
      offset data is settled. */
  lemma BuildsAgree(a: Snapshot, b: Snapshot, d: ClusterData, opts: Options)
    requires BuiltFrom(a, d, opts) && BuiltFrom(b, d, opts) && NoDup(Map(InfoName, Kept(d, opts)))
    ensures Edits.Unoffsets(a) == Edits.Unoffsets(b)
    ensures AllSettled(d, opts) ==> a == b
  {
    SameNames(a, b, d, opts);
    assert |a.topics| == |Map(Invariance.NameOf, a.topics)| == |b.topics|;
    hide Maps, SettledStarts, ClusterOf, Edits.Unoffset;
    forall i | 0 <= i < |a.topics|
      ensures Edits.Unoffset(a.topics[i]) == Edits.Unoffset(b.topics[i])
      ensures AllSettled(d, opts) ==> a.topics[i] == b.topics[i]
    {
      var t, u := a.topics[i], b.topics[i];
      assert Map(Invariance.NameOf, a.topics)[i] == Map(Invariance.NameOf, b.topics)[i];
      assert t in a.topics && u in b.topics;
      var info :| info in Kept(d, opts) && Maps(t, info, d, opts);
      var info' :| info' in Kept(d, opts) && Maps(u, info', d, opts);
      NameKept(t, info, d, opts);
      NameKept(u, info', d, opts);
      SameNameSameInfo(Kept(d, opts), info, info');
      OneMapping(t, u, info, d, opts);
    }
  }

  /** The same snapshot with another earliest offset that some visiting order yields. */
  lemma OtherEarliest(a: Snapshot, d: ClusterData, opts: Options, i: nat, info: TopicInfo, x: int) returns (b: Snapshot)
    requires BuiltFrom(a, d, opts) && i < |a.topics| && info in Kept(d, opts)
    requires Maps(a.topics[i], info, d, opts) && SomeEarliest(x, info.replicas.Keys, At(d.startOff, info.name))
    ensures BuiltFrom(b, d, opts) && b.topics == a.topics[i := a.topics[i].(earliestOffset := x)]
  {
    var t := a.topics[i].(earliestOffset := x);
    b := a.(topics := a.topics[i := t]);
    assert Maps(t, info, d, opts);
    hide Maps, SomeEarliest, StrLess, ClusterOf;
    assert ComesFrom(t, Kept(d, opts), d, opts);
    assert Map(Invariance.NameOf, b.topics) == Map(Invariance.NameOf, a.topics);
    NamesSorted(a.topics);
    forall j, k | 0 <= j < k < |b.topics|
      ensures !NameLess(b.topics[k], b.topics[j])
    {
      assert !NameLess(a.topics[k], a.topics[j]);
    }
  }

  lemma TwoEarliest(keys: set<int>, start: map<int, int>, x: int) returns (y: int)
    requires !SettledStarts(keys, start)
    ensures SomeEarliest(y, keys, start) && y != x
  {
    EarliestIsOrderFreeIff(keys, start);
    var p, q :| Enumerates(p, keys) && Enumerates(q, keys) && EarliestOver(p, start) != EarliestOver(q, start);
    y := if EarliestOver(p, start) == x then EarliestOver(q, start) else EarliestOver(p, start);
  }

  lemma TopicOf(a: Snapshot, d: ClusterData, opts: Options, info: TopicInfo) returns (i: nat)
    requires BuiltFrom(a, d, opts) && NoDup(Map(InfoName, Kept(d, opts))) && info in Kept(d, opts)
    ensures i < |a.topics| && Maps(a.topics[i], info, d, opts)
  {
    var kept := Kept(d, opts);
    var j :| 0 <= j < |kept| && kept[j] == info;
    assert Map(InfoName, kept)[j] == info.name;
    assert info.name in multiset(Map(Invariance.NameOf, a.topics));
    i :| 0 <= i < |a.topics| && Map(Invariance.NameOf, a.topics)[i] == info.name;
    hide Maps;
    assert a.topics[i] in a.topics;
    var other :| other in kept && Maps(a.topics[i], other, d, opts);
    NameKept(a.topics[i], other, d, opts);
    SameNameSameInfo(kept, info, other);
  }

  /** Build has one possible result exactly when the offset data of every kept topic is settled. */
  lemma BuildIsDeterministicIff(a: Snapshot, d: ClusterData, opts: Options)
    requires BuiltFrom(a, d, opts) && NoDup(Map(InfoName, Kept(d, opts)))
    ensures (forall b :: BuiltFrom(b, d, opts) ==> b == a) <==> AllSettled(d, opts)
  {
    hide BuiltFrom, Maps, SettledStarts, SomeEarliest;
    if AllSettled(d, opts) {
      forall b | BuiltFrom(b, d, opts)
        ensures b == a
      {
        BuildsAgree(a, b, d, opts);
      }
    } else {
      var info :| info in Kept(d, opts) && !SettledStarts(info.replicas.Keys, At(d.startOff, info.name));
      var i := TopicOf(a, d, opts, info);
      var y := TwoEarliest(info.replicas.Keys, At(d.startOff, info.name), a.topics[i].earliestOffset);
      var b := OtherEarliest(a, d, opts, i, info, y);
      assert b.topics[i] != a.topics[i];
    }
  }

  // ---- Equal replicas ----

  function Copies(size: int, k: nat): seq<int> { seq(k, i => size) }

  /** Log-dir data in which every partition has k replicas of the same size. */
  function Replicas(sizes: map<int, int>, k: nat): map<int, seq<int>> {
    map pid | pid in sizes :: Copies(sizes[pid], k)
  }

  lemma {:induction false} SumOfCopies(size: int, k: nat)
    ensures SumI(Itself, Copies(size, k)) == k * size
  {
    if k > 0 {
      assert Copies(size, k)[..k - 1] == Copies(size, k - 1);
      SumOfCopies(size, k - 1);
    }
  }

  function SizeOf(sizes: map<int, int>): int -> int {
    (pid: int) => if pid in sizes then sizes[pid] else 0
  }

  /** One copy of each partition, in order of id. */
  ghost function OneCopy(sizes: map<int, int>): seq<int> {
    Map(SizeOf(sizes), AscendingKeys(sizes.Keys))
  }

  /** A topic as the collector measures it from these log dirs. */
  ghost function Measured(t: Topic, parts: map<int, seq<int>>): Topic {
    t.(partitionBytes := Map(ReplicaSum(parts), AscendingKeys(parts.Keys)),
       retainedBytes := SumOver(ReplicaSum(parts), parts.Keys))
  }

  lemma CollectedIsMeasured(t: Topic, info: TopicInfo, d: ClusterData, opts: Options)
    requires Maps(t, info, d, opts)
    ensures t == Measured(t, At(d.logDirs, info.name))
  {
    hide SomeEarliest, IsLatest, AscendingKeys;
  }

  lemma EqualReplicasScale(sizes: map<int, int>, k: nat)
    ensures var parts := Replicas(sizes, k);
            Map(ReplicaSum(parts), AscendingKeys(parts.Keys)) == Skew.Scaled(k, OneCopy(sizes))
  {
    var parts := Replicas(sizes, k);
    assert parts.Keys == sizes.Keys;
    AscendingKeysAreTheKeys(sizes.Keys);
    var pids := AscendingKeys(sizes.Keys);
    hide AscendingKeys;
    forall i | 0 <= i < |pids|
      ensures ReplicaSum(parts)(pids[i]) == k * SizeOf(sizes)(pids[i])
    {
      assert pids[i] in sizes.Keys;
      SumOfCopies(sizes[pids[i]], k);
    }
  }

  lemma {:induction false} ScaledSum(k: int, sizes: seq<int>)
    ensures SumI(Itself, Skew.Scaled(k, sizes)) == k * SumI(Itself, sizes)
  {
    if sizes != [] {
      assert Skew.Scaled(k, sizes)[..|sizes| - 1] == Skew.Scaled(k, sizes[..|sizes| - 1]);
      ScaledSum(k, sizes[..|sizes| - 1]);
    }
  }

  /** With k equal replicas everywhere the collector's sizes and total are k times those of one copy. */
  lemma ReplicasMultiply(t: Topic, sizes: map<int, int>, k: nat)
    ensures Measured(t, Replicas(sizes, k)) == Skew.Replicated(t, OneCopy(sizes), k)
  {
    EqualReplicasScale(sizes, k);
    PartitionsCarryAllBytes(Replicas(sizes, k));
    ScaledSum(k, OneCopy(sizes));
    hide OneCopy, Skew.Scaled, AscendingKeys, Replicas;
  }

  /** R7 looks at nothing but the sizes and the retained bytes. */
  lemma SameMeasureSameVerdict(cfg: R7Config, t: Topic, u: Topic)
    requires t.partitionBytes == u.partitionBytes && t.retainedBytes == u.retainedBytes
    ensures Detectors.R7Fires(cfg, t) == Detectors.R7Fires(cfg, u)
  {
  }

  /** What R7 says of a topic that Build returns, when every partition has k equal replicas. */
  lemma CollectedVerdict(cfg: R7Config, snap: Snapshot, d: ClusterData, opts: Options, t: Topic,
                         sizes: map<int, int>, k: nat, u: Topic)
    requires BuiltFrom(snap, d, opts) && t in snap.topics && At(d.logDirs, t.name) == Replicas(sizes, k)
    ensures Detectors.R7Fires(cfg, t) == Detectors.R7Fires(cfg, Skew.Replicated(u, OneCopy(sizes), k))
  {
    hide Maps;
    var info :| info in Kept(d, opts) && Maps(t, info, d, opts);
    NameKept(t, info, d, opts);
    CollectedIsMeasured(t, info, d, opts);
    ReplicasMultiply(t, sizes, k);
    SameMeasureSameVerdict(cfg, t, Skew.Replicated(u, OneCopy(sizes), k));
    hide Detectors.R7Fires, OneCopy, Measured;
  }

  /** Scans of one cluster that differ in the number k of equal replicas of a topic's partitions: R7 gives the
      collected topic one verdict at every k exactly under SameAtEveryCount of its single-copy sizes. */
  lemma CollectedVerdictIff(cfg: R7Config, opts: Options, sizes: map<int, int>, data: nat -> ClusterData,
                            snaps: nat -> Snapshot, topics: nat -> Topic)
    requires cfg.skewFactor >= 0.0 && SumI(Itself, OneCopy(sizes)) >= 0
    requires forall k: nat :: k >= 1 ==>
      BuiltFrom(snaps(k), data(k), opts) && topics(k) in snaps(k).topics &&
      At(data(k).logDirs, topics(k).name) == Replicas(sizes, k)
    ensures |Ascending(OneCopy(sizes))| == |OneCopy(sizes)|
    ensures (forall k: nat :: k >= 1 ==> Detectors.R7Fires(cfg, topics(k)) == Detectors.R7Fires(cfg, topics(1)))
            <==> Skew.SameAtEveryCount(cfg, OneCopy(sizes))
  {
    hide *;
    var one, u := OneCopy(sizes), topics(1);
    Skew.DecisionSurvivesReplicationIff(cfg, u, one);
    forall k: nat | k >= 1
      ensures Detectors.R7Fires(cfg, topics(k)) == Detectors.R7Fires(cfg, Skew.Replicated(u, one, k))
    {
      CollectedVerdict(cfg, snaps(k), data(k), opts, topics(k), sizes, k, u);
    }
    forall k: int | k >= 1
      ensures Detectors.R7Fires(cfg, Skew.Replicated(u, one, k)) == Detectors.R7Fires(cfg, topics(k))
    {
    }
  }
}
