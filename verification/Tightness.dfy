/** The savings budgets cannot be improved: 3.2 storage bills in general, 2.2 for a live scan, and less by
    2 / most when no topic has more than `most` replicas. */
module Tightness {
  import opened Seqs
  import opened Types
  import opened Cost
  import opened Rules
  import opened Detectors
  import opened Engine
  import opened Budget
  import opened Folds
  import opened Collect
  import Helpers
  import Invariance
  import Skew
  import Pipeline
  import Sorting

  /** A dead, over-partitioned non-production topic: n partitions, `copies` times 10 GB in each. With a known
      lag of zero it is over-retained too. */
  datatype Recipe = Recipe(n: nat, copies: nat, rf: int, lag: int, brokers: seq<Broker>) {
    predicate Greedy() { n > 12 && copies >= 1 && -1 <= lag <= 0 }

    function Topic(): Topic {
      Types.Topic("dev.a", n, rf, -1, "producer", "delete", copies * (n * TEN_GB), 0.0, 0.0, "none",
                  Copies(copies * TEN_GB, n), 0, 0, lag, 0)
    }

    function Snapshot(): Snapshot {
      Types.Snapshot(ClusterInfo("demo", "self"), [Topic()], [], brokers)
    }

    /** The storage bill in euros at ten cents a GB. */
    function Bill(): real { (copies * n) as real }
  }

  const TEN_GB: int := 10000000000

  /** Ten cents a GB. */
  const TEN_CENTS: CostModel := CostModel("self", 0.0, 0.1, 0.01, DEFAULT_WEIGHTS)

  function Defaults(nonProd: string -> bool): RuleConfig {
    RuleConfig({}, DefaultThresholds(nonProd))
  }

  /** A product kept folded, so that the steps around it are linear. */
  function Product(a: real, b: real): real { a * b }

  lemma GreedyName()
    ensures !StreamsInternal("dev.a")
  {
    assert STREAMS_SUFFIXES[1..] == ["-repartition"];
  }

  lemma SumOfOne<T>(f: T -> real, x: T)
    ensures SumR(f, [x]) == f(x)
  {
    assert [x][..0] == [];
  }

  lemma GreedyVolume(g: Recipe)
    ensures TopicGB(g.Topic()) == 10.0 * g.Bill()
  {
    assert g.copies * (g.n * TEN_GB) == TEN_GB * (g.copies * g.n);
  }

  lemma GreedyBill(g: Recipe, nonProd: string -> bool)
    ensures var ctx := Context(g.Snapshot(), TEN_CENTS, Defaults(nonProd));
            && ctx.snap == g.Snapshot() && ctx.th == DefaultThresholds(nonProd)
            && ctx.prices.storageEURPerGBMo == 0.1 && StorageBill(ctx) == g.Bill()
  {
    GreedyVolume(g);
    SumOfOne(TopicGB, g.Topic());
    hide TopicGB;
  }

  lemma GreedyIsLarge(g: Recipe)
    requires g.Greedy()
    ensures g.copies * (g.n * TEN_GB) >= 13 * TEN_GB && g.Bill() >= g.copies as real >= 1.0
  {
    assert g.copies * (g.n * TEN_GB) >= g.n * TEN_GB;
    assert g.copies * g.n >= g.copies;
  }

  lemma GreedyIsDead(g: Recipe, nonProd: string -> bool)
    requires g.Greedy()
    ensures R1Fires(DefaultThresholds(nonProd).r1, g.Topic())
  {
    GreedyName();
    GreedyIsLarge(g);
    hide StreamsInternal;
  }

  lemma GreedyIsOverRetained(g: Recipe, nonProd: string -> bool)
    requires g.Greedy()
    ensures var cfg := DefaultThresholds(nonProd).r3;
            SavedGB(cfg, 0.0, g.Topic()) == 10.0 * g.Bill() && (R3Fires(cfg, 0.0, g.Topic()) <==> g.lag == 0)
  {
    GreedyIsLarge(g);
    GreedyVolume(g);
    assert ProjectedBytes(DefaultThresholds(nonProd).r3, 0.0, g.Topic()) == 0.0;
    hide ProjectedBytes;
  }

  lemma GreedyDeletion(g: Recipe, nonProd: string -> bool)
    requires g.Greedy()
    ensures ExactTotal(R1, Context(g.Snapshot(), TEN_CENTS, Defaults(nonProd))) == g.Bill()
  {
    var ctx, t := Context(g.Snapshot(), TEN_CENTS, Defaults(nonProd)), g.Topic();
    GreedyBill(g, nonProd);
    GreedyVolume(g);
    GreedyIsDead(g, nonProd);
    SumOfOne(Charged(R1, ctx), t);
    hide Context, TopicGB, R1Fires, SumR, StorageBill;
  }

  lemma GreedyRetention(g: Recipe, nonProd: string -> bool)
    requires g.Greedy()
    ensures ExactTotal(R3, Context(g.Snapshot(), TEN_CENTS, Defaults(nonProd)))
            == if g.lag == 0 then g.Bill() else 0.0
  {
    var ctx, t := Context(g.Snapshot(), TEN_CENTS, Defaults(nonProd)), g.Topic();
    GreedyBill(g, nonProd);
    GreedyIsOverRetained(g, nonProd);
    assert RateOf([t], t.name) == 0.0;
    SumOfOne(Charged(R3, ctx), t);
    hide Context, R3Fires, SavedGB, RateOf, SumR, StorageBill;
  }

  lemma FifthOfBill(copies: nat, n: nat)
    requires n > 0
    ensures 0.20 * (copies * n) as real / n as real == 0.2 * copies as real
  {
    assert (copies * n) as real == copies as real * n as real;
  }

  lemma GreedyPartitionPrice(g: Recipe, nonProd: string -> bool)
    requires g.Greedy()
    ensures PartitionPrice(Context(g.Snapshot(), TEN_CENTS, Defaults(nonProd))) == 0.2 * g.copies as real
  {
    var ctx, t := Context(g.Snapshot(), TEN_CENTS, Defaults(nonProd)), g.Topic();
    GreedyBill(g, nonProd);
    assert [t][..0] == [] && SumI(TopicPartitions, [t]) == g.n;
    assert SumR(TopicGB, [t]) * 0.1 == g.Bill();
    FifthOfBill(g.copies, g.n);
    hide Context, SumI, SumR;
  }

  lemma GreedyPartitions(g: Recipe, nonProd: string -> bool)
    requires g.Greedy()
    ensures ExactTotal(R4, Context(g.Snapshot(), TEN_CENTS, Defaults(nonProd)))
            == 0.2 * g.Bill() - 2.4 * g.copies as real
  {
    var ctx, t := Context(g.Snapshot(), TEN_CENTS, Defaults(nonProd)), g.Topic();
    GreedyBill(g, nonProd);
    GreedyPartitionPrice(g, nonProd);
    assert PerPartitionRate(t) == 0.0 && ProposedPartitions(ctx.th.r4, t) == 12;
    SumOfOne(Charged(R4, ctx), t);
    RemovalCharge(ctx, t);
    hide Context, PartitionPrice, PerPartitionRate, ProposedPartitions, SumR, Charged;
    assert 0.2 * g.copies as real * (g.n - 12) as real
           == 0.2 * (g.copies as real * g.n as real) - 2.4 * g.copies as real;
    assert (g.copies * g.n) as real == g.copies as real * g.n as real;
  }

  lemma GreedyReplicas(g: Recipe, nonProd: string -> bool)
    requires g.Greedy() && nonProd("dev.a")
    ensures ExactTotal(R6, Context(g.Snapshot(), TEN_CENTS, Defaults(nonProd)))
            == Product(SpareShare(2, g.rf), g.Bill())
  {
    var ctx, t := Context(g.Snapshot(), TEN_CENTS, Defaults(nonProd)), g.Topic();
    GreedyBill(g, nonProd);
    GreedyVolume(g);
    SumOfOne(Charged(R6, ctx), t);
    SpareCharge(ctx, t);
    assert R6Fires(ctx.th.r6, t) <==> g.rf > 2;
    hide Context, R6Fires, SumR, Charged, TopicGB;
  }

  lemma {:induction false} AtMostOnePerTopic(r: RuleId, ctx: Ctx, ts: seq<Topic>)
    ensures |OverTopics(r, ctx, ts)| <= |ts|
  {
    hide FiresIn;
    if ts != [] {
      AtMostOnePerTopic(r, ctx, ts[..|ts| - 1]);
    }
  }

  lemma {:induction false} AtMostOneEach(ctx: Ctx, cfg: RuleConfig, n: nat)
    requires n <= |REGISTRY| && |ctx.snap.topics| == 1 && ctx.snap.groups == []
    ensures |Collected(ctx, cfg, true, REGISTRY[..n])| <= n
  {
    if n > 0 {
      assert REGISTRY[..n][..n - 1] == REGISTRY[..n - 1];
      AtMostOneEach(ctx, cfg, n - 1);
      AtMostOnePerTopic(REGISTRY[n - 1].id, ctx, ctx.snap.topics);
      hide OverTopics;
    }
  }

  lemma AtMostEight(s: Snapshot, cm: CostModel, cfg: RuleConfig)
    requires |s.topics| == 1 && s.groups == []
    ensures |Report([s], cm, cfg)| <= 8
  {
    var raw := Unranked([s], cm, cfg);
    assert REGISTRY[..8] == REGISTRY;
    AtMostOneEach(Context(s, cm, cfg), cfg, 8);
    Sorting.SortPermutes(RanksBefore, raw);
    assert |multiset(Report([s], cm, cfg))| == |Report([s], cm, cfg)| && |multiset(raw)| == |raw|;
  }

  /** What the greedy cluster is told it can save: its bill this many times over, less 2.4 euros a copy. */
  function Limit(rf: int, lag: int): real { (if lag == 0 then 2.2 else 1.2) + SpareShare(2, rf) }

  lemma GreedyTotal(g: Recipe, nonProd: string -> bool)
    requires g.Greedy() && nonProd("dev.a")
    ensures var s, cfg := g.Snapshot(), Disable(Defaults(nonProd), R5);
            |Report([s], TEN_CENTS, cfg)| <= 8 &&
            SumR(Saving, Report([s], TEN_CENTS, cfg))
            >= Product(Limit(g.rf, g.lag), g.Bill()) - 2.4 * g.copies as real - 0.04
  {
    hide *;
    var s, cfg := g.Snapshot(), Disable(Defaults(nonProd), R5);
    var ctx := Context(s, TEN_CENTS, Defaults(nonProd));
    DisabledContext(s, nonProd);
    GreedyQualifies(g, nonProd);
    GreedyDeletion(g, nonProd);
    GreedyRetention(g, nonProd);
    GreedyPartitions(g, nonProd);
    GreedyReplicas(g, nonProd);
    DeletionsWithinBill(ctx);
    SkewIsFree(ctx);
    ExactUnrolled(ctx, cfg);
    DefaultPieces(ctx, nonProd);
    AtMostEight(s, TEN_CENTS, cfg);
    TotalNearExact(s, TEN_CENTS, cfg);
    AddUp(g.rf, g.lag, g.Bill());
  }

  lemma DisabledContext(s: Snapshot, nonProd: string -> bool)
    ensures Context(s, TEN_CENTS, Disable(Defaults(nonProd), R5)) == Context(s, TEN_CENTS, Defaults(nonProd))
  {
  }

  lemma DefaultPieces(ctx: Ctx, nonProd: string -> bool)
    ensures var cfg := Disable(Defaults(nonProd), R5);
            && ExactPiece(ctx, cfg, R5) == 0.0 && ExactPiece(ctx, cfg, R2) == 0.0
            && forall r :: r != R5 ==> ExactPiece(ctx, cfg, r) == ExactTotal(r, ctx)
  {
  }

  lemma AddUp(rf: int, lag: int, bill: real)
    ensures Product(Limit(rf, lag), bill)
            == bill + (if lag == 0 then bill else 0.0) + 0.2 * bill + Product(SpareShare(2, rf), bill)
  {
    hide SpareShare;
  }

  lemma GreedyQualifies(g: Recipe, nonProd: string -> bool)
    ensures var s := g.Snapshot();
            && SaneTopics(s.topics) && s.cluster.provider != "confluent" && |s.topics| == 1 && s.groups == []
            && (forall t :: t in s.topics ==> t.replicationFactor == g.rf)
            && Context(s, TEN_CENTS, Defaults(nonProd)).snap == s
            && Context(s, TEN_CENTS, Defaults(nonProd)).th == Defaults(nonProd).thresholds
            && Context(s, TEN_CENTS, Defaults(nonProd)).prices.storageEURPerGBMo == 0.1
    ensures EffectiveWeights(TEN_CENTS).storage >= 0.0 && PlainThresholds(Defaults(nonProd).thresholds)
  {
    StreamsInternalMeans("-changelog");
    StreamsInternalMeans("-repartition");
    assert STREAMS_SUFFIXES[1..] == ["-repartition"];
    assert ["-repartition"][1..] == [];
    assert g.copies * (g.n * TEN_GB) >= 0;
  }

  /** Large enough clusters get as close to the limit as one likes. */
  lemma GreedyExceeds(c: real, copies: nat, rf: int, lag: int, brokers: seq<Broker>, nonProd: string -> bool)
    returns (g: Recipe)
    requires c < Limit(rf, lag) && copies >= 1 && -1 <= lag <= 0 && nonProd("dev.a")
    ensures g.Greedy() && g.copies == copies && g.rf == rf && g.lag == lag && g.brokers == brokers
    ensures var s, cfg := g.Snapshot(), Defaults(nonProd);
            var out := Filter(NotFrom(R5), Report([s], TEN_CENTS, cfg));
            SumR(Saving, out) > c * StorageBill(Context(s, TEN_CENTS, cfg)) + 0.005 * |out| as real
  {
    hide *;
    var n := Enough(Limit(rf, lag) - c);
    g := MakeRecipe(n, copies, rf, lag, brokers);
    var s, cfg := g.Snapshot(), Defaults(nonProd);
    GreedyBill(g, nonProd);
    GreedyTotal(g, nonProd);
    DisablingIsFiltering([s], TEN_CENTS, cfg, R5);
    var out := Filter(NotFrom(R5), Report([s], TEN_CENTS, cfg));
    Exceeds(Limit(rf, lag), c, g, SumR(Saving, out), |out|);
  }

  lemma MakeRecipe(n: nat, copies: nat, rf: int, lag: int, brokers: seq<Broker>) returns (g: Recipe)
    requires n > 12 && copies >= 1 && -1 <= lag <= 0
    ensures g.Greedy() && g == Recipe(n, copies, rf, lag, brokers)
  {
    g := Recipe(n, copies, rf, lag, brokers);
  }

  lemma Exceeds(limit: real, c: real, g: Recipe, total: real, findings: nat)
    requires Product(limit - c, g.n as real) > 3.0 && g.copies >= 1 && findings <= 8
    requires total >= Product(limit, g.Bill()) - 2.4 * g.copies as real - 0.04
    ensures total > c * g.Bill() + 0.005 * findings as real
  {
    var gap, n, copies := limit - c, g.n as real, g.copies as real;
    Helpers.Scaling(copies, 3.0, Product(gap, n));
    assert g.Bill() == copies * n;
    assert Product(gap, g.Bill()) == copies * Product(gap, n);
    assert Product(gap, g.Bill()) == Product(limit, g.Bill()) - c * g.Bill();
    hide Product;
  }

  lemma Enough(gap: real) returns (n: nat)
    requires gap > 0.0
    ensures n > 12 && Product(gap, n as real) > 3.0
  {
    hide Product;
    var q := Quotient(3.0, gap);
    n := IntegerAbove(q);
    ProductGrows(gap, q, n as real);
  }

  lemma Quotient(a: real, b: real) returns (q: real)
    requires b > 0.0
    ensures Product(b, q) == a
  {
    q := a / b;
  }

  lemma ProductGrows(a: real, x: real, y: real)
    requires a > 0.0 && x < y
    ensures Product(a, x) < Product(a, y)
  {
    Helpers.Scaling(a, x, y);
  }

  lemma IntegerAbove(x: real) returns (n: nat)
    ensures n > 12 && n as real > x
  {
    n := if x < 0.0 then 13 else x.Floor + 13;
  }

  lemma LimitsAre(rf: int)
    ensures Limit(rf, 0) == 2.2 + SpareShare(2, rf) && Limit(rf, -1) == 1.2 + SpareShare(2, rf)
  {
  }

  /** With at most `most` replicas a topic, no factor below the one of BudgetUpToFactor bounds the report. */
  lemma BudgetUpToFactorIsTight(c: real, most: int, nonProd: string -> bool) returns (s: Snapshot, cm: CostModel)
    requires c < 2.2 + SpareShare(2, most) && nonProd("dev.a")
    ensures SaneTopics(s.topics) && EffectiveWeights(cm).storage >= 0.0 && s.cluster.provider != "confluent"
    ensures forall t :: t in s.topics ==> t.replicationFactor <= most
    ensures var cfg := Defaults(nonProd);
            var out := Filter(NotFrom(R5), Report([s], cm, cfg));
            PlainThresholds(cfg.thresholds) &&
            SumR(Saving, out) > c * StorageBill(Context(s, cm, cfg)) + 0.005 * |out| as real
  {
    hide *;
    LimitsAre(most);
    var g := GreedyExceeds(c, 1, most, 0, [], nonProd);
    s, cm := g.Snapshot(), TEN_CENTS;
    GreedyQualifies(g, nonProd);
  }

  /** Enough replicas leave almost nothing that must stay. */
  lemma ManyReplicas(gap: real) returns (rf: int)
    requires gap > 0.0
    ensures rf > 12 && SpareShare(2, rf) > 1.0 - gap
  {
    rf := Enough(gap);
    AlmostAll(gap, rf);
  }

  lemma AlmostAll(gap: real, rf: int)
    requires rf > 12 && Product(gap, rf as real) > 3.0
    ensures SpareShare(2, rf) > 1.0 - gap
  {
    hide Product;
    var share := FractionOf(rf - 2, rf);
    assert share == SpareShare(2, rf);
    hide SpareShare;
    MoreThanRest(share, gap, rf as real);
  }

  lemma MoreThanRest(share: real, gap: real, x: real)
    requires x > 0.0 && share * x == x - 2.0 && Product(gap, x) > 3.0
    ensures share > 1.0 - gap
  {
    assert (1.0 - gap) * x == x - Product(gap, x);
    hide Product;
    if share <= 1.0 - gap {
      Helpers.Scaling(x, share, 1.0 - gap);
    }
  }

  /** For every factor below 3.2, some cluster that meets the conditions of SavingsBudget gets a
      report claiming more: a single topic can be billed as dead, over-retained, over-partitioned
      and over-replicated at once. */
  lemma BudgetIsTight(c: real, nonProd: string -> bool) returns (s: Snapshot, cm: CostModel)
    requires c < 3.2 && nonProd("dev.a")
    ensures SaneTopics(s.topics) && EffectiveWeights(cm).storage >= 0.0 && s.cluster.provider != "confluent"
    ensures var cfg := Defaults(nonProd);
            var out := Filter(NotFrom(R5), Report([s], cm, cfg));
            PlainThresholds(cfg.thresholds) &&
            SumR(Saving, out) > c * StorageBill(Context(s, cm, cfg)) + 0.005 * |out| as real
  {
    hide *;
    var most := ManyReplicas(3.2 - c);
    s, cm := BudgetUpToFactorIsTight(c, most, nonProd);
  }

  // ---- Live scans ----

  const ONE_SHOT: Options := Options("demo", "self", 0.0, false)

  function Numbers(n: nat): seq<int> { seq(n, i => i) }

  /** Partitions 0 to n - 1, each with this. */
  function EachOf<T>(n: nat, x: T): map<int, T> { map pid | pid in Numbers(n) :: x }

  function GreedyInfo(n: nat, most: nat): TopicInfo {
    TopicInfo("dev.a", false, n, most, EachOf(n, Numbers(most)))
  }

  /** A cluster of `most` brokers, each holding a 10 GB replica of every partition of the greedy topic. */
  function GreedyData(n: nat, most: nat): ClusterData {
    ClusterData(Numbers(most), [GreedyInfo(n, most)], map[], map["dev.a" := Replicas(EachOf(n, TEN_GB), most)],
                map[], map[], map[], [], map[])
  }

  /** The recipe of what the collector makes of it. */
  function Scanned(n: nat, most: nat): Recipe {
    Recipe(n, most, most, -1, Map(MapBroker(), Numbers(most)))
  }

  lemma EachHasAKey<T>(n: nat, x: T)
    ensures Enumerates(Numbers(n), EachOf(n, x).Keys) && |EachOf(n, x)| == n
  {
    EnumerationSize(Numbers(n), EachOf(n, x).Keys);
    assert |EachOf(n, x)| == |EachOf(n, x).Keys|;
  }

  lemma GreedyIsCoherent(n: nat, most: nat)
    requires n > 0 && most > 0
    ensures Coherent(GreedyData(n, most)) && GreedyData(n, most).topics != []
  {
    var d, info := GreedyData(n, most), GreedyInfo(n, most);
    EachHasAKey(n, Numbers(most));
    assert Numbers(n)[0] == 0 && 0 in Numbers(n);
    assert 0 in info.replicas && |info.replicas[0]| == most;
    assert At(d.logDirs, info.name) == Replicas(EachOf(n, TEN_GB), most);
    assert CoherentTopic(info, At(d.logDirs, info.name));
    hide CoherentTopic;
  }

  lemma OneCopyOfEach(n: nat)
    ensures OneCopy(EachOf(n, TEN_GB)) == Copies(TEN_GB, n)
  {
    var keys := EachOf(n, TEN_GB).Keys;
    EachHasAKey(n, TEN_GB);
    AscendingKeysAreTheKeys(keys);
    EnumerationSize(AscendingKeys(keys), keys);
    hide AscendingKeys;
    forall i | 0 <= i < n
      ensures SizeOf(EachOf(n, TEN_GB))(AscendingKeys(keys)[i]) == TEN_GB
    {
      assert AscendingKeys(keys)[i] in keys;
    }
  }

  /** The collector measures the greedy topic. */
  lemma GreedyIsMeasured(n: nat, most: nat)
    ensures Scanned(n, most).Topic() == Measured(Scanned(n, most).Topic(), Replicas(EachOf(n, TEN_GB), most))
  {
    var t := Scanned(n, most).Topic();
    ReplicasMultiply(t, EachOf(n, TEN_GB), most);
    OneCopyOfEach(n);
    SumOfCopies(TEN_GB, n);
    assert Skew.Scaled(most, Copies(TEN_GB, n)) == Copies(most * TEN_GB, n);
    hide Measured, OneCopy;
  }

  lemma NoStarts(keys: set<int>)
    ensures SomeEarliest(0, keys, map[]) && IsLatest(0, keys, map[])
  {
    var order := Listing(keys);
    if order != [] {
      EarliestExactly(order, keys, map[]);
    }
    assert EarliestOver(order, map[]) == 0;
  }

  lemma GreedyIsMapped(n: nat, most: nat)
    ensures Maps(Scanned(n, most).Topic(), GreedyInfo(n, most), GreedyData(n, most), ONE_SHOT)
  {
    GreedyIsMeasured(n, most);
    NoStarts(GreedyInfo(n, most).replicas.Keys);
    hide AscendingKeys, SomeEarliest, IsLatest, Replicas, EachOf, Copies;
  }

  lemma GreedyIsKept(n: nat, most: nat)
    ensures Kept(GreedyData(n, most), ONE_SHOT) == [GreedyInfo(n, most)]
  {
    NotInternal();
    FilterAll(KeepsTopic(ONE_SHOT), [GreedyInfo(n, most)]);
  }

  lemma NotInternal()
    ensures !("__" <= "dev.a")
  {
    assert "__"[0] != "dev.a"[0];
  }

  lemma GreedyIsBuilt(n: nat, most: nat)
    ensures BuiltFrom(Scanned(n, most).Snapshot(), GreedyData(n, most), ONE_SHOT)
  {
    GreedyIsMapped(n, most);
    GreedyIsKept(n, most);
    hide Maps, Kept, EachOf, Replicas, Copies, Numbers;
    var d, info, s := GreedyData(n, most), GreedyInfo(n, most), Scanned(n, most).Snapshot();
    assert ComesFrom(Scanned(n, most).Topic(), [info], d, ONE_SHOT);
    assert Map(Invariance.NameOf, s.topics) == ["dev.a"] == Map(InfoName, [info]);
    hide ComesFrom, StrLess;
    assert s.groups == Map(MapGroup(), d.groups) == [];
  }

  lemma GreedyDataIsSane(n: nat, most: nat)
    ensures Pipeline.SaneData(GreedyData(n, most))
  {
  }

  /** With at most `most` replicas a topic, no factor below the one of LiveBudgetUpToFactor bounds the scans of
      clusters as the reader reports them. */
  lemma LiveBudgetUpToFactorIsTight(c: real, most: nat, nonProd: string -> bool)
    returns (snap: Snapshot, d: ClusterData, cm: CostModel)
    requires c < 1.2 + SpareShare(2, most) && most >= 1 && nonProd("dev.a")
    ensures BuiltFrom(snap, d, ONE_SHOT) && Coherent(d) && Pipeline.SaneData(d)
    ensures snap.cluster.provider != "confluent" && EffectiveWeights(cm).storage >= 0.0
    ensures forall t :: t in snap.topics ==> t.replicationFactor <= most
    ensures var cfg := Defaults(nonProd);
            var out := Report([snap], cm, cfg);
            PlainThresholds(cfg.thresholds) &&
            SumR(Saving, out) > c * StorageBill(Context(snap, cm, cfg)) + 0.005 * |out| as real
  {
    hide *;
    LimitsAre(most);
    var g := GreedyExceeds(c, most, most, -1, Map(MapBroker(), Numbers(most)), nonProd);
    RecipeOfScan(g, most);
    snap, d, cm := g.Snapshot(), GreedyData(g.n, most), TEN_CENTS;
    GreedyQualifies(g, nonProd);
    GreedyIsBuilt(g.n, most);
    GreedyIsCoherent(g.n, most);
    GreedyDataIsSane(g.n, most);
    SingleShotDefaults(nonProd);
    Pipeline.NothingFromR5(snap, d, ONE_SHOT, cm, Defaults(nonProd));
  }

  lemma RecipeOfScan(g: Recipe, most: nat)
    requires g.Greedy() && g.copies == most && g.rf == most && g.lag == -1
    requires g.brokers == Map(MapBroker(), Numbers(most))
    ensures g == Scanned(g.n, most) && g.n > 0
  {
  }

  lemma SingleShotDefaults(nonProd: string -> bool)
    ensures ONE_SHOT.windowSecs <= 0.0 && Defaults(nonProd).thresholds.r5.minBytesInPerSec > 0.0
  {
  }

  /** No factor below 2.2 bounds the scans of clusters as the reader reports them. */
  lemma LiveBudgetIsTight(c: real, nonProd: string -> bool)
    returns (snap: Snapshot, d: ClusterData, cm: CostModel)
    requires c < 2.2 && nonProd("dev.a")
    ensures BuiltFrom(snap, d, ONE_SHOT) && Coherent(d) && Pipeline.SaneData(d)
    ensures snap.cluster.provider != "confluent" && EffectiveWeights(cm).storage >= 0.0
    ensures var cfg := Defaults(nonProd);
            var out := Report([snap], cm, cfg);
            PlainThresholds(cfg.thresholds) &&
            SumR(Saving, out) > c * StorageBill(Context(snap, cm, cfg)) + 0.005 * |out| as real
  {
    hide *;
    var most := ManyReplicas(2.2 - c);
    snap, d, cm := LiveBudgetUpToFactorIsTight(c, most, nonProd);
  }

  // ---- R5 ----

  /** One uncompressed MB a second, nothing retained. */
  const STREAMING: Snapshot := Snapshot(
    ClusterInfo("demo", "self"),
    [Topic("events", 1, 1, -1, "none", "delete", 0, 1048576.0, 0.0, "metrics", [], 0, 0, -1, 1)], [], [])

  lemma StreamingCharge(nonProd: string -> bool)
    ensures var ctx := Context(STREAMING, TEN_CENTS, Defaults(nonProd));
            StorageBill(ctx) == 0.0 && ExactTotal(R5, ctx) > 100.0
  {
    var ctx, t := Context(STREAMING, TEN_CENTS, Defaults(nonProd)), STREAMING.topics[0];
    SumOfOne(TopicGB, t);
    SumOfOne(Charged(R5, ctx), t);
    assert FiresIn(R5, ctx, t);
    assert MonthlyGB(1048576.0) > 2700.0;
  }

  lemma ExactAtLeastR5(ctx: Ctx, cfg: RuleConfig)
    requires SaneTopics(ctx.snap.topics) && PlainThresholds(ctx.th) && ctx.prices.storageEURPerGBMo >= 0.0
    requires cfg.disabled == {}
    ensures ExactUpTo(ctx, cfg, 8) >= ExactTotal(R5, ctx)
  {
    ExactUnrolled(ctx, cfg);
    DeletionsWithinBill(ctx);
    RetentionWithinBill(ctx);
    ReplicationWithinBill(ctx);
    PartitionsWithinCap(ctx);
    SkewIsFree(ctx);
    assert ExactTotal(R2, ctx) == 0.0;
    hide ExactTotal, ExactUpTo, StorageBill, PartitionCap;
  }

  lemma StreamingQualifies(nonProd: string -> bool)
    ensures SaneTopics(STREAMING.topics)
    ensures Context(STREAMING, TEN_CENTS, Defaults(nonProd)).prices.storageEURPerGBMo >= 0.0
    ensures Context(STREAMING, TEN_CENTS, Defaults(nonProd)).th == Defaults(nonProd).thresholds
    ensures Context(STREAMING, TEN_CENTS, Defaults(nonProd)).snap == STREAMING
    ensures |STREAMING.topics| == 1 && STREAMING.groups == [] && Defaults(nonProd).disabled == {}
  {
  }

  /** R5 is outside the budget for a reason: its saving is not a part of any multiple of the storage bill. */
  lemma R5HasNoStorageBound(c: real, nonProd: string -> bool)
    ensures var cfg := Defaults(nonProd);
            var out := Report([STREAMING], TEN_CENTS, cfg);
            SaneTopics(STREAMING.topics) &&
            SumR(Saving, out) > c * StorageBill(Context(STREAMING, TEN_CENTS, cfg)) + 0.005 * |out| as real
  {
    hide *;
    var cfg := Defaults(nonProd);
    StreamingCharge(nonProd);
    StreamingQualifies(nonProd);
    GreedyQualifies(Recipe(13, 1, 2, 0, []), nonProd);
    ExactAtLeastR5(Context(STREAMING, TEN_CENTS, cfg), cfg);
    AtMostEight(STREAMING, TEN_CENTS, cfg);
    TotalNearExact(STREAMING, TEN_CENTS, cfg);
  }
}
