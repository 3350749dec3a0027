/** How much the report can claim. Several rules price the same retained bytes, so the total
    can exceed what the storage costs; this is by how much. */
module Budget {
  import opened Seqs
  import opened Types
  import opened Helpers
  import opened Cost
  import opened Rules
  import opened Detectors
  import opened Engine
  import opened Sorting
  import opened Members

  /** What the retained data costs per month at the resolved storage price. */
  function StorageBill(ctx: Ctx): real {
    SumR(TopicGB, ctx.snap.topics) * ctx.prices.storageEURPerGBMo
  }

  /** What rule r charges a topic, unrounded. */
  function Charged(r: RuleId, ctx: Ctx): Topic -> real {
    (t: Topic) => if FiresIn(r, ctx, t) then ExactSaving(r, ctx, t) else 0.0
  }

  function ExactTotal(r: RuleId, ctx: Ctx): real {
    if r == R2 then 0.0 else SumR(Charged(r, ctx), ctx.snap.topics)
  }

  ghost predicate SaneTopics(ts: seq<Topic>) {
    forall t :: t in ts ==> t.retainedBytes >= 0 && t.partitions >= 0 && t.bytesInPerSec >= 0.0
  }

  /** Every suffix R8 can return is one R1 leaves alone; matching stops at an empty suffix. */
  predicate OnlyStreams(suffixes: seq<string>) {
    suffixes == [] || suffixes[0] == "" || (StreamsInternal(suffixes[0]) && OnlyStreams(suffixes[1..]))
  }

  /** R8 keeps to Streams topics, and no proposal is negative. The defaults satisfy this. */
  predicate PlainThresholds(th: Thresholds) {
    th.r4.minPartitions >= 0 && th.r6.proposedRF >= 0 && OnlyStreams(th.r8.suffixes)
  }

  // ---- Rounding ----

  lemma {:induction false} RoundingPerFinding(r: RuleId, ctx: Ctx, ts: seq<Topic>)
    ensures var found := OverTopics(r, ctx, ts);
            SumR(Charged(r, ctx), ts) - 0.005 * |found| as real <= SumR(Saving, found)
            <= SumR(Charged(r, ctx), ts) + 0.005 * |found| as real
  {
    hide FiresIn, ExactSaving, Round2;
    if ts != [] {
      var init, t := ts[..|ts| - 1], ts[|ts| - 1];
      RoundingPerFinding(r, ctx, init);
      Round2Exact(ExactSaving(r, ctx, t));
      if FiresIn(r, ctx, t) {
        assert OverTopics(r, ctx, ts)[..|OverTopics(r, ctx, init)|] == OverTopics(r, ctx, init);
      }
    }
  }

  lemma {:induction false} GroupFindingsAreFree(ctx: Ctx, gs: seq<ConsumerGrp>)
    ensures SumR(Saving, OverGroups(ctx, gs)) == 0.0
  {
    if gs != [] {
      var init := gs[..|gs| - 1];
      GroupFindingsAreFree(ctx, init);
      if R2Fires(ctx.th.r2, gs[|gs| - 1]) {
        assert OverGroups(ctx, gs)[..|OverGroups(ctx, init)|] == OverGroups(ctx, init);
      }
    }
  }

  function ExactPiece(ctx: Ctx, cfg: RuleConfig, r: RuleId): real {
    if On(cfg, r) then ExactTotal(r, ctx) else 0.0
  }

  function ExactUpTo(ctx: Ctx, cfg: RuleConfig, n: nat): real
    requires n <= |REGISTRY|
  {
    if n == 0 then 0.0 else ExactUpTo(ctx, cfg, n - 1) + ExactPiece(ctx, cfg, REGISTRY[n - 1].id)
  }

  lemma PieceNearExact(ctx: Ctx, cfg: RuleConfig, r: Rule)
    requires r.staticCapable
    ensures var found := Piece(ctx, cfg, true, r);
            ExactPiece(ctx, cfg, r.id) - 0.005 * |found| as real <= SumR(Saving, found)
            <= ExactPiece(ctx, cfg, r.id) + 0.005 * |found| as real
  {
    RoundingPerFinding(r.id, ctx, ctx.snap.topics);
    GroupFindingsAreFree(ctx, ctx.snap.groups);
    hide OverTopics, OverGroups, Charged;
  }

  lemma {:induction false} CollectedNearExact(ctx: Ctx, cfg: RuleConfig, n: nat)
    requires n <= |REGISTRY|
    ensures var found := Collected(ctx, cfg, true, REGISTRY[..n]);
            ExactUpTo(ctx, cfg, n) - 0.005 * |found| as real <= SumR(Saving, found)
            <= ExactUpTo(ctx, cfg, n) + 0.005 * |found| as real
  {
    hide Piece, ExactPiece;
    if n > 0 {
      assert REGISTRY[..n][..n - 1] == REGISTRY[..n - 1];
      CollectedNearExact(ctx, cfg, n - 1);
      PieceNearExact(ctx, cfg, REGISTRY[n - 1]);
      SumRAppend(Saving, Collected(ctx, cfg, true, REGISTRY[..n - 1]), Piece(ctx, cfg, true, REGISTRY[n - 1]));
    }
  }

  /** A report's total is the exact total of its enabled rules, within half a cent per finding. */
  lemma TotalNearExact(s: Snapshot, cm: CostModel, cfg: RuleConfig)
    ensures var out, ctx := Report([s], cm, cfg), Context(s, cm, cfg);
            ExactUpTo(ctx, cfg, 8) - 0.005 * |out| as real <= SumR(Saving, out)
            <= ExactUpTo(ctx, cfg, 8) + 0.005 * |out| as real
  {
    hide Collected, ExactUpTo, Context;
    assert REGISTRY[..8] == REGISTRY;
    CollectedNearExact(Context(s, cm, cfg), cfg, 8);
    var raw := Unranked([s], cm, cfg);
    SortPermutes(RanksBefore, raw);
    SumRPermutation(Saving, Report([s], cm, cfg), raw);
    assert |multiset(raw)| == |raw| && |multiset(Report([s], cm, cfg))| == |Report([s], cm, cfg)|;
  }

  lemma ExactUnrolled(ctx: Ctx, cfg: RuleConfig)
    ensures ExactUpTo(ctx, cfg, 8)
            == ExactPiece(ctx, cfg, R1) + ExactPiece(ctx, cfg, R2) + ExactPiece(ctx, cfg, R3)
               + ExactPiece(ctx, cfg, R4) + ExactPiece(ctx, cfg, R5) + ExactPiece(ctx, cfg, R6)
               + ExactPiece(ctx, cfg, R7) + ExactPiece(ctx, cfg, R8)
  {
    hide ExactPiece;
    assert ExactUpTo(ctx, cfg, 1) == ExactPiece(ctx, cfg, R1);
    assert ExactUpTo(ctx, cfg, 2) == ExactUpTo(ctx, cfg, 1) + ExactPiece(ctx, cfg, R2);
    assert ExactUpTo(ctx, cfg, 4) == ExactUpTo(ctx, cfg, 2) + ExactPiece(ctx, cfg, R3) + ExactPiece(ctx, cfg, R4);
    assert ExactUpTo(ctx, cfg, 6) == ExactUpTo(ctx, cfg, 4) + ExactPiece(ctx, cfg, R5) + ExactPiece(ctx, cfg, R6);
  }

  // ---- Caps ----

  /** A topic's own slice of the storage bill. */
  function Slice(ctx: Ctx): Topic -> real {
    (t: Topic) => ctx.prices.storageEURPerGBMo * TopicGB(t)
  }

  lemma SlicesMakeTheBill(ctx: Ctx)
    ensures SumR(Slice(ctx), ctx.snap.topics) == StorageBill(ctx)
  {
    SumRScale(Slice(ctx), TopicGB, ctx.prices.storageEURPerGBMo, ctx.snap.topics);
  }

  lemma StreamsInternalMeans(name: string)
    ensures StreamsInternal(name) <==> HasSuffix(name, "-changelog") || HasSuffix(name, "-repartition")
  {
    var last := ["-repartition"];
    assert STREAMS_SUFFIXES[1..] == last && last[1..] == [];
    assert FirstSuffix(name, last) == if HasSuffix(name, last[0]) then last[0] else "";
    assert STREAMS_SUFFIXES[0] == "-changelog";
  }

  lemma SuffixOfSuffix(name: string, x: string, y: string)
    requires HasSuffix(name, x) && HasSuffix(x, y)
    ensures HasSuffix(name, y)
  {
    assert name[|name| - |y|..] == name[|name| - |x|..][|x| - |y|..];
  }

  lemma StreamsInherited(name: string, x: string)
    requires HasSuffix(name, x) && StreamsInternal(x)
    ensures StreamsInternal(name)
  {
    StreamsInternalMeans(name);
    StreamsInternalMeans(x);
    if HasSuffix(x, "-changelog") {
      SuffixOfSuffix(name, x, "-changelog");
    } else {
      SuffixOfSuffix(name, x, "-repartition");
    }
  }

  lemma {:induction false} MatchedNamesAreStreams(name: string, suffixes: seq<string>)
    requires OnlyStreams(suffixes) && FirstSuffix(name, suffixes) != ""
    ensures StreamsInternal(name)
  {
    hide StreamsInternal, HasSuffix;
    if HasSuffix(name, suffixes[0]) {
      StreamsInherited(name, suffixes[0]);
    } else if suffixes[0] == "" {
      EmptyIsASuffix(name);
    } else {
      MatchedNamesAreStreams(name, suffixes[1..]);
    }
  }

  lemma EmptyIsASuffix(name: string)
    ensures HasSuffix(name, "")
  {
  }

  /** A listed suffix that is not Streams-internal, taken as a topic name, matches and R1 does not skip it. */
  lemma {:induction false} StrayName(suffixes: seq<string>) returns (name: string)
    requires !OnlyStreams(suffixes)
    ensures FirstSuffix(name, suffixes) != "" && !StreamsInternal(name)
  {
    hide StreamsInternal;
    if !StreamsInternal(suffixes[0]) {
      name := suffixes[0];
      assert HasSuffix(name, name);
    } else {
      name := StrayName(suffixes[1..]);
      if HasSuffix(name, suffixes[0]) {
        StreamsInherited(name, suffixes[0]);
      }
    }
  }

  /** R1 and R8 can never bill one topic, in any cluster, exactly when R8's suffixes are Streams suffixes. */
  lemma DisjointIffOnlyStreams(r1: R1Config, r8: R8Config)
    ensures (forall t, groups :: !(R1Fires(r1, t) && R8Fires(r8, groups, t))) <==> OnlyStreams(r8.suffixes)
  {
    hide StreamsInternal, FirstSuffix;
    if OnlyStreams(r8.suffixes) {
      forall t, groups | R8Fires(r8, groups, t)
        ensures !R1Fires(r1, t)
      {
        MatchedNamesAreStreams(t.name, r8.suffixes);
      }
    } else {
      var name := StrayName(r8.suffixes);
      var bytes := MaxI(r1.minRetainedBytes, r8.minRetainedBytes);
      var t := Topic(name, 1, 1, -1, "", "", bytes, r1.maxBytesInPerSec, 0.0, "", [], 0, 0, -1, 0);
      assert R1Fires(r1, t) && R8Fires(r8, [], t);
    }
  }

  lemma R1AndR8AreDisjoint(ctx: Ctx, t: Topic)
    requires PlainThresholds(ctx.th)
    ensures !(FiresIn(R1, ctx, t) && FiresIn(R8, ctx, t))
  {
    DisjointIffOnlyStreams(ctx.th.r1, ctx.th.r8);
    hide R1Fires, R8Fires, OnlyStreams;
  }

  lemma DeletionsWithinBill(ctx: Ctx)
    requires SaneTopics(ctx.snap.topics) && PlainThresholds(ctx.th) && ctx.prices.storageEURPerGBMo >= 0.0
    ensures ExactTotal(R1, ctx) + ExactTotal(R8, ctx) <= StorageBill(ctx)
    ensures ExactTotal(R1, ctx) >= 0.0 && ExactTotal(R8, ctx) >= 0.0
  {
    var ts, r1, r8 := ctx.snap.topics, Charged(R1, ctx), Charged(R8, ctx);
    var both, none := (t: Topic) => r1(t) + r8(t), (t: Topic) => 0.0;
    forall t | t in ts
      ensures 0.0 <= r1(t) && 0.0 <= r8(t) && both(t) <= Slice(ctx)(t)
    {
      R1AndR8AreDisjoint(ctx, t);
      assert ctx.prices.storageEURPerGBMo * TopicGB(t) >= 0.0;
    }
    hide Charged, Slice;
    SumRAdd(r1, r8, both, ts);
    SumRLe(both, Slice(ctx), ts);
    SlicesMakeTheBill(ctx);
    SumRNonNegative(r1, ts);
    SumRNonNegative(r8, ts);
  }

  lemma {:induction false} SumRNonNegative(f: Topic -> real, ts: seq<Topic>)
    requires forall t :: t in ts ==> f(t) >= 0.0
    ensures SumR(f, ts) >= 0.0
  {
    if ts != [] {
      assert ts[|ts| - 1] in ts;
      SumRNonNegative(f, ts[..|ts| - 1]);
    }
  }

  lemma {:induction false} RateNonNegative(ts: seq<Topic>, name: string)
    requires SaneTopics(ts)
    ensures RateOf(ts, name) >= 0.0
  {
    if ts != [] {
      assert ts == [ts[0]] + ts[1..];
      assert ts[0] in ts;
      RateNonNegative(ts[1..], name);
    }
  }

  lemma SavedWithinRetained(cfg: R3Config, rate: real, t: Topic)
    requires rate >= 0.0 && t.retainedBytes >= 0 && t.maxConsumerLagMs >= 0
    ensures SavedGB(cfg, rate, t) <= TopicGB(t)
  {
    var ms := ProposedRetention(cfg, t);
    assert rate * ms as real >= 0.0;
  }

  lemma RetentionWithinBill(ctx: Ctx)
    requires SaneTopics(ctx.snap.topics) && ctx.prices.storageEURPerGBMo >= 0.0
    ensures 0.0 <= ExactTotal(R3, ctx) <= StorageBill(ctx)
  {
    var ts := ctx.snap.topics;
    forall t | t in ts
      ensures 0.0 <= Charged(R3, ctx)(t) <= Slice(ctx)(t)
    {
      var price, rate := ctx.prices.storageEURPerGBMo, RateOf(ts, t.name);
      RateNonNegative(ts, t.name);
      hide RateOf;
      if FiresIn(R3, ctx, t) {
        SavedWithinRetained(ctx.th.r3, rate, t);
        Scaling(price, 0.0, SavedGB(ctx.th.r3, rate, t));
        Scaling(price, SavedGB(ctx.th.r3, rate, t), TopicGB(t));
      } else {
        Scaling(price, 0.0, TopicGB(t));
      }
    }
    hide Charged, Slice;
    SumRLe(Charged(R3, ctx), Slice(ctx), ts);
    SumRNonNegative(Charged(R3, ctx), ts);
    SlicesMakeTheBill(ctx);
  }

  /** The part of a topic's storage that going down to the proposed factor saves at most, when no topic has
      more replicas than this. */
  function SpareShare(proposed: int, most: int): (share: real)
    ensures 0.0 <= share <= 1.0
  {
    if 0 <= proposed < most then (most - proposed) as real / most as real else 0.0
  }

  lemma SpareShareGrows(proposed: int, rf: int, most: int)
    requires 0 <= proposed < rf <= most
    ensures SpareShare(proposed, rf) <= SpareShare(proposed, most)
  {
    var u := FractionOf(rf - proposed, rf);
    var v := FractionOf(most - proposed, most);
    FractionGrows(u, v, rf as real, (most - rf) as real, proposed as real);
  }

  lemma FractionGrows(u: real, v: real, x: real, d: real, p: real)
    requires 0.0 < x && 0.0 <= d && u * x == x - p && v * (x + d) == x + d - p && v <= 1.0
    ensures u <= v
  {
    Scaling(d, v, 1.0);
    assert v * x + v * d == x + d - p;
    assert v * x >= x - p;
    Unscaled(x, u, v);
  }

  lemma FractionOf(part: int, whole: int) returns (q: real)
    requires 0 <= part <= whole && whole > 0
    ensures q == part as real / whole as real && q * whole as real == part as real && q <= 1.0
  {
    q := part as real / whole as real;
  }

  lemma SpareCharge(ctx: Ctx, t: Topic)
    requires ctx.th.r6.proposedRF >= 0
    ensures Charged(R6, ctx)(t)
            == if R6Fires(ctx.th.r6, t)
               then TopicGB(t) * SpareShare(ctx.th.r6.proposedRF, t.replicationFactor) * ctx.prices.storageEURPerGBMo
               else 0.0
  {
  }

  lemma SpareChargeWithin(ctx: Ctx, t: Topic, most: int)
    requires t.retainedBytes >= 0 && t.replicationFactor <= most
    requires ctx.th.r6.proposedRF >= 0 && ctx.prices.storageEURPerGBMo >= 0.0
    ensures 0.0 <= Charged(R6, ctx)(t) <= SpareShare(ctx.th.r6.proposedRF, most) * Slice(ctx)(t)
  {
    var gb, price, share := TopicGB(t), ctx.prices.storageEURPerGBMo, SpareShare(ctx.th.r6.proposedRF, most);
    SpareCharge(ctx, t);
    assert Slice(ctx)(t) == price * gb;
    Scaling(price, 0.0, gb);
    if R6Fires(ctx.th.r6, t) {
      var own := SpareShare(ctx.th.r6.proposedRF, t.replicationFactor);
      SpareShareGrows(ctx.th.r6.proposedRF, t.replicationFactor, most);
      hide *;
      Scaling(price * gb, 0.0, own);
      Scaling(price * gb, own, share);
      assert gb * own * price == price * gb * own;
    } else {
      hide *;
      Scaling(price * gb, 0.0, share);
    }
  }

  function PartOf(share: real, f: Topic -> real): Topic -> real {
    (t: Topic) => share * f(t)
  }

  /** R6's unrounded savings, when no topic has more than `most` replicas. */
  lemma ReplicationWithinShare(ctx: Ctx, most: int)
    requires SaneTopics(ctx.snap.topics) && ctx.th.r6.proposedRF >= 0 && ctx.prices.storageEURPerGBMo >= 0.0
    requires forall t :: t in ctx.snap.topics ==> t.replicationFactor <= most
    ensures 0.0 <= ExactTotal(R6, ctx) <= SpareShare(ctx.th.r6.proposedRF, most) * StorageBill(ctx)
  {
    var ts, share := ctx.snap.topics, SpareShare(ctx.th.r6.proposedRF, most);
    var slices := PartOf(share, Slice(ctx));
    hide Charged, Slice, SpareShare, StorageBill;
    forall t | t in ts
      ensures 0.0 <= Charged(R6, ctx)(t) <= slices(t)
    {
      SpareChargeWithin(ctx, t, most);
    }
    SumRLe(Charged(R6, ctx), slices, ts);
    SumRNonNegative(Charged(R6, ctx), ts);
    SumRScale(slices, Slice(ctx), share, ts);
    SlicesMakeTheBill(ctx);
  }

  lemma {:induction false} MostReplicas(ts: seq<Topic>) returns (most: int)
    ensures forall t :: t in ts ==> t.replicationFactor <= most
  {
    if ts == [] {
      most := 0;
    } else {
      var init, last := ts[..|ts| - 1], ts[|ts| - 1];
      assert ts == init + [last];
      most := MostReplicas(init);
      most := MaxI(most, last.replicationFactor);
    }
  }

  lemma BillNonNegative(ctx: Ctx)
    requires SaneTopics(ctx.snap.topics) && ctx.prices.storageEURPerGBMo >= 0.0
    ensures StorageBill(ctx) >= 0.0
  {
    SumRNonNegative(TopicGB, ctx.snap.topics);
    Scaling(ctx.prices.storageEURPerGBMo, 0.0, SumR(TopicGB, ctx.snap.topics));
  }

  lemma ReplicationWithinBill(ctx: Ctx)
    requires SaneTopics(ctx.snap.topics) && ctx.th.r6.proposedRF >= 0 && ctx.prices.storageEURPerGBMo >= 0.0
    ensures 0.0 <= ExactTotal(R6, ctx) <= StorageBill(ctx)
  {
    var most := MostReplicas(ctx.snap.topics);
    ReplicationWithinShare(ctx, most);
    BillNonNegative(ctx);
    hide SaneTopics, StorageBill, ExactTotal;
    Scaling(StorageBill(ctx), SpareShare(ctx.th.r6.proposedRF, most), 1.0);
  }

  function RealPartitions(t: Topic): real { t.partitions as real }

  lemma {:induction false} PartitionsAsReal(ts: seq<Topic>)
    ensures SumR(RealPartitions, ts) == SumI(TopicPartitions, ts) as real
  {
    if ts != [] {
      PartitionsAsReal(ts[..|ts| - 1]);
    }
  }

  /** The price of every partition in the cluster; R4 cannot claim more. */
  function PartitionCap(ctx: Ctx): real {
    PartitionPrice(ctx) * SumI(TopicPartitions, ctx.snap.topics) as real
  }

  function PartitionSlice(ctx: Ctx): Topic -> real {
    (t: Topic) => PartitionPrice(ctx) * RealPartitions(t)
  }

  lemma PartitionSlicesMakeTheCap(ctx: Ctx)
    ensures SumR(PartitionSlice(ctx), ctx.snap.topics) == PartitionCap(ctx)
  {
    hide PartitionPrice;
    PartitionsAsReal(ctx.snap.topics);
    SumRScale(PartitionSlice(ctx), RealPartitions, PartitionPrice(ctx), ctx.snap.topics);
  }

  lemma SharedOut(amount: real, total: real)
    requires total > 0.0 && amount >= 0.0
    ensures amount / total >= 0.0 && amount / total * total == amount
  {
  }

  /** Without Confluent's price a partition costs its part of a fifth of the storage bill. */
  lemma AmortizedCap(ctx: Ctx)
    requires SaneTopics(ctx.snap.topics) && ctx.prices.storageEURPerGBMo >= 0.0
    ensures PartitionPrice(ctx) >= 0.0
    ensures !PricedByConfluent(ctx) ==> PartitionCap(ctx) <= 0.2 * StorageBill(ctx)
  {
    var ts := ctx.snap.topics;
    BillNonNegative(ctx);
    if SumI(TopicPartitions, ts) > 0 {
      SharedOut(0.2 * StorageBill(ctx), SumI(TopicPartitions, ts) as real);
    }
  }

  lemma RemovalCharge(ctx: Ctx, t: Topic)
    ensures Charged(R4, ctx)(t)
            == if R4Fires(ctx.th.r4, t)
               then PartitionPrice(ctx) * (t.partitions - ProposedPartitions(ctx.th.r4, t)) as real
               else 0.0
  {
    hide R4Fires, ProposedPartitions, PartitionPrice;
  }

  lemma RemovalWithinSlice(ctx: Ctx, t: Topic)
    requires t.partitions >= 0 && ctx.th.r4.minPartitions >= 0 && PartitionPrice(ctx) >= 0.0
    ensures 0.0 <= Charged(R4, ctx)(t) <= PartitionSlice(ctx)(t)
  {
    hide *;
    RemovalCharge(ctx, t);
    SliceOfPartitions(ctx, t);
    if R4Fires(ctx.th.r4, t) {
      ProposalBelow(ctx.th.r4, t);
      var removed := (t.partitions - ProposedPartitions(ctx.th.r4, t)) as real;
      Scaling(PartitionPrice(ctx), 0.0, removed);
      Scaling(PartitionPrice(ctx), removed, t.partitions as real);
    } else {
      Scaling(PartitionPrice(ctx), 0.0, t.partitions as real);
    }
  }

  lemma SliceOfPartitions(ctx: Ctx, t: Topic)
    ensures PartitionSlice(ctx)(t) == PartitionPrice(ctx) * t.partitions as real
  {
    hide PartitionPrice;
  }

  lemma ProposalBelow(cfg: R4Config, t: Topic)
    requires cfg.minPartitions >= 0 && R4Fires(cfg, t)
    ensures 0 <= ProposedPartitions(cfg, t) < t.partitions
  {
  }

  lemma PartitionsWithinCap(ctx: Ctx)
    requires SaneTopics(ctx.snap.topics) && ctx.th.r4.minPartitions >= 0 && ctx.prices.storageEURPerGBMo >= 0.0
    ensures 0.0 <= ExactTotal(R4, ctx) <= PartitionCap(ctx)
  {
    var ts := ctx.snap.topics;
    AmortizedCap(ctx);
    PartitionSlicesMakeTheCap(ctx);
    hide Charged, PartitionSlice, PartitionPrice, PartitionCap, StorageBill;
    forall t | t in ts
      ensures 0.0 <= Charged(R4, ctx)(t) <= PartitionSlice(ctx)(t)
    {
      RemovalWithinSlice(ctx, t);
    }
    SumRLe(Charged(R4, ctx), PartitionSlice(ctx), ts);
    SumRNonNegative(Charged(R4, ctx), ts);
  }

  lemma SkewIsFree(ctx: Ctx)
    ensures ExactTotal(R7, ctx) == 0.0
  {
    var zero := (t: Topic) => 0.0;
    assert forall t :: Charged(R7, ctx)(t) == 0.0 * zero(t);
    SumRScale(Charged(R7, ctx), zero, 0.0, ctx.snap.topics);
  }

  // ---- The budget ----

  /** The exact totals of everything but R5, against the storage bill and the partition cap. */
  lemma ExactBudget(ctx: Ctx, cfg: RuleConfig)
    requires SaneTopics(ctx.snap.topics) && PlainThresholds(ctx.th) && ctx.prices.storageEURPerGBMo >= 0.0
    requires !On(cfg, R5)
    ensures ExactUpTo(ctx, cfg, 8)
            <= StorageBill(ctx) + PartitionCap(ctx) + ExactPiece(ctx, cfg, R3) + ExactPiece(ctx, cfg, R6)
  {
    ExactUnrolled(ctx, cfg);
    DeletionsWithinBill(ctx);
    RetentionWithinBill(ctx);
    ReplicationWithinBill(ctx);
    PartitionsWithinCap(ctx);
    SkewIsFree(ctx);
    assert ExactTotal(R2, ctx) == 0.0;
    hide ExactTotal, StorageBill, PartitionCap, ExactUpTo;
  }

  /** The report without R5 against what its parts may claim. */
  lemma ReportWithinParts(past: seq<Snapshot>, s: Snapshot, cm: CostModel, cfg: RuleConfig)
    requires SaneTopics(s.topics) && PlainThresholds(cfg.thresholds) && EffectiveWeights(cm).storage >= 0.0
    ensures var out, ctx := Filter(NotFrom(R5), Report(past + [s], cm, cfg)), Context(s, cm, cfg);
            && SumR(Saving, out)
               <= StorageBill(ctx) + PartitionCap(ctx) + ExactPiece(ctx, cfg, R3) + ExactPiece(ctx, cfg, R6)
                  + 0.005 * |out| as real
            && ctx.snap == s && ctx.th == cfg.thresholds && ctx.prices.storageEURPerGBMo >= 0.0
  {
    var cfg', ctx := Disable(cfg, R5), Context(s, cm, cfg);
    hide Report, ExactUpTo, ExactTotal, Resolve, SumI, SumR;
    assert (past + [s])[|past + [s]| - 1] == s;
    OnlyLatestMatters(past + [s], cm, cfg);
    DisablingIsFiltering([s], cm, cfg, R5);
    PricesNonNegative(cm, SumI(TopicBytes, s.topics));
    assert Context(s, cm, cfg') == ctx;
    assert ExactPiece(ctx, cfg', R3) == ExactPiece(ctx, cfg, R3);
    assert ExactPiece(ctx, cfg', R6) == ExactPiece(ctx, cfg, R6);
    hide ExactPiece, StorageBill, PartitionCap;
    TotalNearExact(s, cm, cfg');
    ExactBudget(ctx, cfg');
  }

  lemma PartsOfBill(total: real, bill: real, cap: real, r3: real, r6: real, share: real, slack: real)
    requires total <= bill + cap + r3 + r6 + slack && r3 <= bill && r6 <= share * bill
    ensures total <= (2.0 + share) * bill + cap + slack
    ensures cap <= 0.2 * bill ==> total <= (2.2 + share) * bill + slack
    ensures r3 <= 0.0 ==> total <= (1.0 + share) * bill + cap + slack
    ensures r3 <= 0.0 && cap <= 0.2 * bill ==> total <= (1.2 + share) * bill + slack
  {
    assert (2.0 + share) * bill == 2.0 * bill + share * bill;
  }

  lemma PieceWithinTotal(ctx: Ctx, cfg: RuleConfig, r: RuleId)
    requires ExactTotal(r, ctx) >= 0.0
    ensures 0.0 <= ExactPiece(ctx, cfg, r) <= ExactTotal(r, ctx)
  {
    hide ExactTotal;
  }

  /** With at most `most` replicas a topic the budget is smaller: under the default proposal of two replicas,
      3.2 - 2 / most storage bills. */
  lemma BudgetUpToFactor(past: seq<Snapshot>, s: Snapshot, cm: CostModel, cfg: RuleConfig, most: int)
    requires SaneTopics(s.topics) && PlainThresholds(cfg.thresholds) && EffectiveWeights(cm).storage >= 0.0
    requires forall t :: t in s.topics ==> t.replicationFactor <= most
    ensures var out, ctx := Filter(NotFrom(R5), Report(past + [s], cm, cfg)), Context(s, cm, cfg);
            var share := SpareShare(cfg.thresholds.r6.proposedRF, most);
            && SumR(Saving, out) <= (2.0 + share) * StorageBill(ctx) + PartitionCap(ctx) + 0.005 * |out| as real
            && (!PricedByConfluent(ctx)
                ==> SumR(Saving, out) <= (2.2 + share) * StorageBill(ctx) + 0.005 * |out| as real)
  {
    hide *;
    var ctx, share := Context(s, cm, cfg), SpareShare(cfg.thresholds.r6.proposedRF, most);
    ReportWithinParts(past, s, cm, cfg);
    RetentionWithinBill(ctx);
    PlainFactor(cfg.thresholds);
    ReplicationWithinShare(ctx, most);
    AmortizedCap(ctx);
    PieceWithinTotal(ctx, cfg, R3);
    PieceWithinTotal(ctx, cfg, R6);
    var out := Filter(NotFrom(R5), Report(past + [s], cm, cfg));
    PartsOfBill(SumR(Saving, out), StorageBill(ctx), PartitionCap(ctx), ExactPiece(ctx, cfg, R3),
                ExactPiece(ctx, cfg, R6), share, 0.005 * |out| as real);
  }

  lemma ShareAtMostOne(total: real, times: real, share: real, bill: real, rest: real)
    requires bill >= 0.0 && share <= 1.0
    ensures total <= (times + share) * bill + rest ==> total <= (times + 1.0) * bill + rest
  {
    Scaling(bill, times + share, times + 1.0);
  }

  lemma PlainFactor(th: Thresholds)
    requires PlainThresholds(th)
    ensures th.r6.proposedRF >= 0
  {
  }

  /** The report without R5 claims at most three times the storage bill plus the price of the cluster's
      partitions, plus half a cent a finding: 3.2 times the bill unless Confluent prices partitions.
      R5 prices ingest, not retained bytes, and has no such bound. */
  lemma SavingsBudget(past: seq<Snapshot>, s: Snapshot, cm: CostModel, cfg: RuleConfig)
    requires SaneTopics(s.topics) && PlainThresholds(cfg.thresholds) && EffectiveWeights(cm).storage >= 0.0
    ensures var out, ctx := Filter(NotFrom(R5), Report(past + [s], cm, cfg)), Context(s, cm, cfg);
            && SumR(Saving, out) <= 3.0 * StorageBill(ctx) + PartitionCap(ctx) + 0.005 * |out| as real
            && (!PricedByConfluent(ctx) ==> SumR(Saving, out) <= 3.2 * StorageBill(ctx) + 0.005 * |out| as real)
  {
    hide *;
    var most := MostReplicas(s.topics);
    var ctx, share := Context(s, cm, cfg), SpareShare(cfg.thresholds.r6.proposedRF, most);
    BudgetUpToFactor(past, s, cm, cfg, most);
    ReportWithinParts(past, s, cm, cfg);
    BillNonNegative(ctx);
    var out := Filter(NotFrom(R5), Report(past + [s], cm, cfg));
    ShareAtMostOne(SumR(Saving, out), 2.0, share, StorageBill(ctx), PartitionCap(ctx) + 0.005 * |out| as real);
    ShareAtMostOne(SumR(Saving, out), 2.2, share, StorageBill(ctx), 0.005 * |out| as real);
  }

  lemma {:induction false} BytesAsGB(ts: seq<Topic>)
    ensures SumR(TopicGB, ts) == GB(SumI(TopicBytes, ts))
  {
    if ts != [] {
      BytesAsGB(ts[..|ts| - 1]);
    }
  }

  /** With a bill, retained bytes and no configured price, the storage bill is exactly the storage share of the
      monthly cost. */
  lemma DerivedStorageBill(s: Snapshot, cm: CostModel, cfg: RuleConfig)
    requires cm.storageEURPerGBMo <= 0.0 && cm.monthlyCostEUR > 0.0 && SumI(TopicBytes, s.topics) > 0
    ensures StorageBill(Context(s, cm, cfg)) == cm.monthlyCostEUR * EffectiveWeights(cm).storage
  {
    BytesAsGB(s.topics);
    DerivedPriceRecoversStoragePart(cm, SumI(TopicBytes, s.topics));
  }
}
