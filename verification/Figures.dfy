/** What each line of a report claims and proposes, in the fields of the snapshot, the cost model and the
    thresholds: the euros before rounding, and the change. */
module Figures {
  import opened Seqs
  import opened Types
  import opened Helpers
  import opened Cost
  import opened Rules
  import opened Detectors
  import opened Engine
  import opened Members
  import opened Budget
  import opened Proposals
  import Invariance

  /** The resolved prices of a snapshot. */
  function StoragePrice(s: Snapshot, cm: CostModel): real {
    Resolve(cm, SumI(TopicBytes, s.topics)).storageEURPerGBMo
  }

  function NetworkPrice(s: Snapshot, cm: CostModel): real {
    Resolve(cm, SumI(TopicBytes, s.topics)).networkEURPerGB
  }

  /** The topic of a finding and the euros it rounds. */
  lemma Behind(s: Snapshot, cm: CostModel, cfg: RuleConfig, f: Finding) returns (t: Topic, e: real)
    requires DistinctTopics(s.topics) && f in Report([s], cm, cfg) && f.rule != R2
    ensures t in s.topics && f.key == Key(f.rule, t.name) && f.saving == Round2(e)
    ensures e == ExactSaving(f.rule, Context(s, cm, cfg), t) && f.fix == FixOf(f.rule, cfg.thresholds, t)
    ensures Flags(f.rule, cfg.thresholds, s.groups, t) && RateOf(s.topics, t.name) == t.bytesInPerSec
  {
    hide Report, Resolve, ExactSaving, Round2, Flags, RateOf;
    t := TopicBehind(s, cm, cfg, f);
    e := ExactSaving(f.rule, Context(s, cm, cfg), t);
    Invariance.RateOfDistinct(s.topics, t);
  }

  lemma PricesOf(s: Snapshot, cm: CostModel, cfg: RuleConfig)
    ensures var ctx := Context(s, cm, cfg);
            && ctx.snap == s && ctx.th == cfg.thresholds
            && ctx.prices.storageEURPerGBMo == StoragePrice(s, cm)
            && ctx.prices.networkEURPerGB == NetworkPrice(s, cm)
  {
    hide Resolve;
  }

  /** A dead or orphaned topic claims its retained GB at the storage price, and is to be deleted. */
  lemma DeletionFigure(s: Snapshot, cm: CostModel, cfg: RuleConfig, f: Finding) returns (t: Topic, e: real)
    requires DistinctTopics(s.topics) && f in Report([s], cm, cfg) && (f.rule == R1 || f.rule == R8)
    ensures t in s.topics && f.key == Key(f.rule, t.name) && f.saving == Round2(e) && f.fix == DeleteTopic(t.name)
    ensures e * 1000000000.0 == t.retainedBytes as real * StoragePrice(s, cm)
  {
    hide *;
    t, e := Behind(s, cm, cfg, f);
    PricesOf(s, cm, cfg);
    ChargeOfDeletion(f.rule, Context(s, cm, cfg), t, e);
  }

  lemma ChargeOfDeletion(r: RuleId, ctx: Ctx, t: Topic, e: real)
    requires (r == R1 || r == R8) && e == ExactSaving(r, ctx, t)
    ensures FixOf(r, ctx.th, t) == DeleteTopic(t.name)
    ensures e * 1000000000.0 == t.retainedBytes as real * ctx.prices.storageEURPerGBMo
  {
  }

  /** R3 claims what would not have arrived within the proposed retention, at the storage price. The proposal is
      the floor or twice the lag, whichever is longer, and shorter than any finite retention. */
  lemma RetentionFigure(s: Snapshot, cm: CostModel, cfg: RuleConfig, f: Finding) returns (t: Topic, e: real, ms: int)
    requires DistinctTopics(s.topics) && f in Report([s], cm, cfg) && f.rule == R3
    ensures t in s.topics && f.key == Key(R3, t.name) && f.saving == Round2(e) && f.fix == SetRetention(t.name, ms)
    ensures var floor, twice := cfg.thresholds.r3.minFloorMs, 2 * t.maxConsumerLagMs;
            ms >= floor && ms >= twice && (ms == floor || ms == twice) && (t.retentionMs >= 0 ==> ms < t.retentionMs)
    ensures e * 1000000000000.0
            == (1000.0 * t.retainedBytes as real - t.bytesInPerSec * ms as real) * StoragePrice(s, cm)
  {
    hide *;
    t, e := Behind(s, cm, cfg, f);
    ms := ProposedRetention(cfg.thresholds.r3, t);
    PricesOf(s, cm, cfg);
    ChargeR3(Context(s, cm, cfg), t, e);
  }

  lemma ChargeR3(ctx: Ctx, t: Topic, e: real)
    requires Flags(R3, ctx.th, ctx.snap.groups, t) && RateOf(ctx.snap.topics, t.name) == t.bytesInPerSec
    requires e == ExactSaving(R3, ctx, t)
    ensures var ms, floor, twice := ProposedRetention(ctx.th.r3, t), ctx.th.r3.minFloorMs, 2 * t.maxConsumerLagMs;
            && FixOf(R3, ctx.th, t) == SetRetention(t.name, ms)
            && ms >= floor && ms >= twice && (ms == floor || ms == twice) && (t.retentionMs >= 0 ==> ms < t.retentionMs)
            && e * 1000000000000.0
               == (1000.0 * t.retainedBytes as real - t.bytesInPerSec * ms as real) * ctx.prices.storageEURPerGBMo
  {
    var saved, price := SavedGB(ctx.th.r3, t.bytesInPerSec, t), ctx.prices.storageEURPerGBMo;
    assert RateOf([t], t.name) == t.bytesInPerSec;
    SavedIffProjectedLess(ctx.th.r3, t.bytesInPerSec, t);
    assert e == saved * price;
    hide RateOf, ExactSaving;
    SavedExactly(ctx.th.r3, t.bytesInPerSec, t);
    hide SavedGB, ProjectedBytes;
    assert saved * price * 1000000000000.0 == (saved * 1000000000000.0) * price;
  }

  lemma SavedExactly(cfg: R3Config, rate: real, t: Topic)
    requires ProjectedBytes(cfg, rate, t) < t.retainedBytes as real
    ensures SavedGB(cfg, rate, t) * 1000000000000.0
            == 1000.0 * t.retainedBytes as real - rate * ProposedRetention(cfg, t) as real
  {
    hide ProposedRetention;
  }

  /** R4 proposes the least partition count, from the minimum up, that carries the ingest, and claims the
      partitions beyond it: at Confluent's price, or at their part of a fifth of what the cluster's GB cost. */
  lemma PartitionsFigure(s: Snapshot, cm: CostModel, cfg: RuleConfig, f: Finding) returns (t: Topic, e: real, n: int)
    requires DistinctTopics(s.topics) && f in Report([s], cm, cfg) && f.rule == R4
    ensures t in s.topics && f.key == Key(R4, t.name) && f.saving == Round2(e) && f.fix == SetPartitions(t.name, n)
    ensures cfg.thresholds.r4.minPartitions <= n < t.partitions
    ensures var target := cfg.thresholds.r4.targetBytesPerPart;
            target > 0.0
            ==> t.bytesInPerSec <= n as real * target
                && (n == cfg.thresholds.r4.minPartitions || t.bytesInPerSec > (n - 1) as real * target)
    ensures var removed, parts, list := (t.partitions - n) as real, SumI(TopicPartitions, s.topics),
                                        cfg.thresholds.r4.confluentPerPartitionEURMo;
            if s.cluster.provider == "confluent" && list > 0.0 then e == removed * list
            else if parts > 0 then
              e * parts as real * 1000000000.0
              == 0.2 * SumI(TopicBytes, s.topics) as real * StoragePrice(s, cm) * removed
            else e == 0.0
  {
    hide *;
    t, e := Behind(s, cm, cfg, f);
    n := ProposedPartitions(cfg.thresholds.r4, t);
    PricesOf(s, cm, cfg);
    var ctx := Context(s, cm, cfg);
    ChargeR4(ctx, t, e);
    PriceOfOne(ctx);
    Removed(PartitionPrice(ctx), SumI(TopicPartitions, s.topics) as real,
            0.2 * SumI(TopicBytes, s.topics) as real * StoragePrice(s, cm), (t.partitions - n) as real);
  }

  lemma ChargeR4(ctx: Ctx, t: Topic, e: real)
    requires Flags(R4, ctx.th, ctx.snap.groups, t) && e == ExactSaving(R4, ctx, t)
    ensures var n, cfg, target := ProposedPartitions(ctx.th.r4, t), ctx.th.r4, ctx.th.r4.targetBytesPerPart;
            && FixOf(R4, ctx.th, t) == SetPartitions(t.name, n)
            && cfg.minPartitions <= n < t.partitions
            && (target > 0.0
                ==> t.bytesInPerSec <= n as real * target
                    && (n == cfg.minPartitions || t.bytesInPerSec > (n - 1) as real * target))
            && e == PartitionPrice(ctx) * (t.partitions - n) as real
  {
    hide PartitionPrice, Ceil;
    var n, cfg := ProposedPartitions(ctx.th.r4, t), ctx.th.r4;
    assert R4Fires(cfg, t);
    if cfg.targetBytesPerPart > 0.0 {
      R4ProposesTheLeast(cfg, t, n - 1);
    }
  }

  lemma PriceOfOne(ctx: Ctx)
    ensures var price, parts, list := PartitionPrice(ctx), SumI(TopicPartitions, ctx.snap.topics),
                                      ctx.th.r4.confluentPerPartitionEURMo;
            if ctx.snap.cluster.provider == "confluent" && list > 0.0 then price == list
            else if parts > 0 then
              price * parts as real * 1000000000.0
              == 0.2 * SumI(TopicBytes, ctx.snap.topics) as real * ctx.prices.storageEURPerGBMo
            else price == 0.0
  {
    BytesAsGB(ctx.snap.topics);
    var parts := SumI(TopicPartitions, ctx.snap.topics);
    var total := 0.20 * (GB(SumI(TopicBytes, ctx.snap.topics)) * ctx.prices.storageEURPerGBMo);
    if parts > 0 {
      assert total / parts as real * parts as real == total;
    }
  }

  lemma Removed(price: real, parts: real, whole: real, removed: real)
    ensures price * parts * 1000000000.0 == whole
            ==> price * removed * parts * 1000000000.0 == whole * removed
  {
    assert price * removed * parts * 1000000000.0 == price * parts * 1000000000.0 * removed;
  }

  /** R5 claims the assumed part of a month's ingest, once at the storage and once at the network price. */
  lemma CompressionFigure(s: Snapshot, cm: CostModel, cfg: RuleConfig, f: Finding) returns (t: Topic, e: real)
    requires DistinctTopics(s.topics) && f in Report([s], cm, cfg) && f.rule == R5
    ensures t in s.topics && f.key == Key(R5, t.name) && f.saving == Round2(e)
    ensures f.fix == SetCompression(t.name, "zstd")
    ensures var monthOfBytes := t.bytesInPerSec * 2592000.0;
            e * 1000000000.0
            == monthOfBytes * cfg.thresholds.r5.assumedRatio * (StoragePrice(s, cm) + NetworkPrice(s, cm))
  {
    hide *;
    t, e := Behind(s, cm, cfg, f);
    PricesOf(s, cm, cfg);
    ChargeR5(Context(s, cm, cfg), t, e);
  }

  lemma ChargeR5(ctx: Ctx, t: Topic, e: real)
    requires e == ExactSaving(R5, ctx, t)
    ensures FixOf(R5, ctx.th, t) == SetCompression(t.name, "zstd")
    ensures var monthOfBytes := t.bytesInPerSec * 2592000.0;
            e * 1000000000.0
            == monthOfBytes * ctx.th.r5.assumedRatio * (ctx.prices.storageEURPerGBMo + ctx.prices.networkEURPerGB)
  {
    var gb, ratio := MonthlyGB(t.bytesInPerSec), ctx.th.r5.assumedRatio;
    var price := ctx.prices.storageEURPerGBMo + ctx.prices.networkEURPerGB;
    assert gb * 1000000000.0 == t.bytesInPerSec * 2592000.0;
    assert e == gb * ratio * price by {
      hide MonthlyGB;
    }
    hide MonthlyGB, ExactSaving, FixOf;
    GBOut(gb, ratio, price);
  }

  lemma GBOut(gb: real, ratio: real, price: real)
    ensures gb * ratio * price * 1000000000.0 == gb * 1000000000.0 * ratio * price
  {
  }

  /** R6 claims the bytes of the replicas beyond the proposed factor, at the storage price. */
  lemma ReplicationFigure(s: Snapshot, cm: CostModel, cfg: RuleConfig, f: Finding) returns (t: Topic, e: real)
    requires DistinctTopics(s.topics) && f in Report([s], cm, cfg) && f.rule == R6
    ensures t in s.topics && f.key == Key(R6, t.name) && f.saving == Round2(e)
    ensures f.fix == SetReplication(t.name, cfg.thresholds.r6.proposedRF)
    ensures t.replicationFactor != 0
            ==> e * t.replicationFactor as real * 1000000000.0
                == t.retainedBytes as real * (t.replicationFactor - cfg.thresholds.r6.proposedRF) as real
                   * StoragePrice(s, cm)
  {
    hide *;
    t, e := Behind(s, cm, cfg, f);
    PricesOf(s, cm, cfg);
    ChargeR6(Context(s, cm, cfg), t, e);
  }

  lemma ChargeR6(ctx: Ctx, t: Topic, e: real)
    requires e == ExactSaving(R6, ctx, t)
    ensures FixOf(R6, ctx.th, t) == SetReplication(t.name, ctx.th.r6.proposedRF)
    ensures t.replicationFactor != 0
            ==> e * t.replicationFactor as real * 1000000000.0
                == t.retainedBytes as real * (t.replicationFactor - ctx.th.r6.proposedRF) as real
                   * ctx.prices.storageEURPerGBMo
  {
    if t.replicationFactor != 0 {
      var rf, spare := t.replicationFactor as real, (t.replicationFactor - ctx.th.r6.proposedRF) as real;
      var gb, q, price := TopicGB(t), spare / rf, ctx.prices.storageEURPerGBMo;
      assert q * rf == spare && gb * 1000000000.0 == t.retainedBytes as real;
      assert e == gb * q * price;
      hide TopicGB, ExactSaving;
      assert gb * q * price * rf * 1000000000.0 == gb * 1000000000.0 * (q * rf) * price;
    }
  }

  /** Zombie groups and skewed topics are worth no euros. No line that can be applied with one click deletes,
      repartitions or moves anything, and none but R4's asks for a plan. */
  lemma {:induction false} FreeAndOneClick(s: Snapshot, cm: CostModel, cfg: RuleConfig, f: Finding)
    requires DistinctTopics(s.topics) && f in Report([s], cm, cfg)
    ensures f.rule == R2 || f.rule == R7 ==> f.saving == 0.0
    ensures f.rule == R2 ==> f.fix == DeleteGroup(f.key.name)
    ensures f.rule == R7 ==> f.fix == Investigate(f.key.name)
    ensures f.oneClick <==> f.fix.SetRetention? || f.fix.SetCompression?
    ensures f.severity == Plan <==> f.fix.SetPartitions?
    ensures f.rule == R2 ==> f.severity == Info
    ensures f.rule == R3 || f.rule == R5 || f.rule == R6 ==> f.severity == Warning
    ensures f.confidence == High <==> f.rule == R2 || f.rule == R7
    ensures f.confidence == Low <==> f.rule == R1 || f.rule == R5
  {
    hide Report, Context, Flags, Round2;
    if f.rule == R2 {
      var g := GroupBehind(s, cm, cfg, f);
    } else {
      var t := TopicBehind(s, cm, cfg, f);
      Round2Exact(0.0);
      hide ProposedRetention, ProposedPartitions;
    }
  }

  /** How urgent a dead, skewed or orphaned topic is goes by its bytes: critical from 100 GiB, a warning from 10. */
  lemma SeverityByBytes(s: Snapshot, cm: CostModel, cfg: RuleConfig, f: Finding) returns (t: Topic)
    requires DistinctTopics(s.topics) && f in Report([s], cm, cfg) && (f.rule == R1 || f.rule == R7 || f.rule == R8)
    ensures t in s.topics && f.key == Key(f.rule, t.name)
    ensures f.severity == Critical <==> t.retainedBytes >= 107374182400
    ensures f.severity == Warning <==> 10737418240 <= t.retainedBytes < 107374182400
    ensures f.severity == Info <==> t.retainedBytes < 10737418240
  {
    hide Report, Context, Flags, Round2, ExactSaving;
    t := TopicBehind(s, cm, cfg, f);
  }

  /** Under the defaults R5 takes 65 percent of a month's ingest for saved, and Confluent's partition costs 50 cents. */
  lemma DefaultFigures(s: Snapshot, cm: CostModel, cfg: RuleConfig, nonProd: string -> bool, f: Finding)
      returns (t: Topic, e: real)
    requires cfg.thresholds == DefaultThresholds(nonProd) && s.cluster.provider == "confluent"
    requires DistinctTopics(s.topics) && f in Report([s], cm, cfg) && (f.rule == R4 || f.rule == R5)
    ensures t in s.topics && f.key == Key(f.rule, t.name) && f.saving == Round2(e)
    ensures f.rule == R4 ==> f.fix.SetPartitions? && e == 0.5 * (t.partitions - f.fix.partitions) as real
    ensures f.rule == R5
            ==> e * 1000000000.0
                == t.bytesInPerSec * 2592000.0 * 0.65 * (StoragePrice(s, cm) + NetworkPrice(s, cm))
  {
    hide *;
    DefaultPrices(nonProd);
    if f.rule == R4 {
      var n: int;
      t, e, n := PartitionsFigure(s, cm, cfg, f);
    } else {
      t, e := CompressionFigure(s, cm, cfg, f);
    }
  }

  lemma DefaultPrices(nonProd: string -> bool)
    ensures DefaultThresholds(nonProd).r4.confluentPerPartitionEURMo == 0.5
    ensures DefaultThresholds(nonProd).r5.assumedRatio == 0.65
  {
  }

  // ---- Under a monthly bill ----

  lemma PotOverBytes(s: Snapshot, cm: CostModel)
    requires cm.storageEURPerGBMo <= 0.0 && cm.monthlyCostEUR > 0.0 && SumI(TopicBytes, s.topics) > 0
    ensures StoragePrice(s, cm) * SumI(TopicBytes, s.topics) as real
            == cm.monthlyCostEUR * EffectiveWeights(cm).storage * 1000000000.0
  {
    DerivedPriceRecoversStoragePart(cm, SumI(TopicBytes, s.topics));
    hide SumI, Resolve;
  }

  lemma ShareOfPot(e: real, scale: real, volume: real, price: real, bytes: real, pot: real)
    requires e * scale == volume * price && price * bytes == pot * 1000000000.0
    ensures e * bytes * scale == pot * volume * 1000000000.0
  {
    assert e * bytes * scale == volume * (price * bytes);
  }

  /** With a monthly bill and no configured price, every line of R1, R3, R6 and R8 claims a share of the storage
      part of the bill, and an amortized line of R4 a share of a fifth of it: the bytes it would free over the
      bytes there are, or the partitions it would remove over the partitions there are. */
  lemma FigureIsShareOfBill(s: Snapshot, cm: CostModel, cfg: RuleConfig, f: Finding) returns (t: Topic, e: real)
    requires DistinctTopics(s.topics) && f in Report([s], cm, cfg) && f.rule != R2
    requires cm.storageEURPerGBMo <= 0.0 && cm.monthlyCostEUR > 0.0 && SumI(TopicBytes, s.topics) > 0
    ensures t in s.topics && f.key == Key(f.rule, t.name) && f.saving == Round2(e)
    ensures var pot := cm.monthlyCostEUR * EffectiveWeights(cm).storage;
            var bytes, parts := SumI(TopicBytes, s.topics) as real, SumI(TopicPartitions, s.topics);
            match f.fix
            case DeleteTopic(_) => e * bytes == pot * t.retainedBytes as real
            case SetRetention(_, ms) =>
              e * bytes * 1000.0 == pot * (1000.0 * t.retainedBytes as real - t.bytesInPerSec * ms as real)
            case SetReplication(_, rf) =>
              t.replicationFactor != 0
              ==> e * bytes * t.replicationFactor as real
                  == pot * (t.retainedBytes as real * (t.replicationFactor - rf) as real)
            case SetPartitions(_, n) =>
              parts > 0 && !(s.cluster.provider == "confluent" && cfg.thresholds.r4.confluentPerPartitionEURMo > 0.0)
              ==> e * parts as real == 0.2 * pot * (t.partitions - n) as real
            case _ => true
  {
    hide *;
    PotOverBytes(s, cm);
    var pot, price := cm.monthlyCostEUR * EffectiveWeights(cm).storage, StoragePrice(s, cm);
    var bytes := SumI(TopicBytes, s.topics) as real;
    match f.rule {
      case R1 | R8 =>
        t, e := DeletionFigure(s, cm, cfg, f);
        ShareOfPot(e, 1000000000.0, t.retainedBytes as real, price, bytes, pot);
      case R3 =>
        var ms: int;
        t, e, ms := RetentionFigure(s, cm, cfg, f);
        var kept := t.bytesInPerSec * ms as real;
        ShareOfPot(e, 1000000000000.0, 1000.0 * t.retainedBytes as real - kept, price, bytes, pot);
      case R6 =>
        t, e := ReplicationFigure(s, cm, cfg, f);
        if t.replicationFactor != 0 {
          ReplicasOfPot(e, t.replicationFactor, cfg.thresholds.r6.proposedRF, t.retainedBytes as real, price, bytes,
                        pot);
        }
      case R4 =>
        var n: int;
        t, e, n := PartitionsFigure(s, cm, cfg, f);
        PartitionsOfPot(e, SumI(TopicPartitions, s.topics) as real, bytes, price, pot, (t.partitions - n) as real);
      case R5 =>
        t, e := CompressionFigure(s, cm, cfg, f);
      case R7 =>
        t, e := Behind(s, cm, cfg, f);
        FreeAndOneClick(s, cm, cfg, f);
    }
  }

  lemma ReplicasOfPot(e: real, rf: int, proposed: int, retained: real, price: real, bytes: real, pot: real)
    requires e * rf as real * 1000000000.0 == retained * (rf - proposed) as real * price
    requires price * bytes == pot * 1000000000.0
    ensures e * bytes * rf as real == pot * (retained * (rf - proposed) as real)
  {
    ShareOfPot(e * rf as real, 1000000000.0, retained * (rf - proposed) as real, price, bytes, pot);
    assert e * rf as real * bytes == e * bytes * rf as real;
  }

  lemma PartitionsOfPot(e: real, parts: real, bytes: real, price: real, pot: real, removed: real)
    requires price * bytes == pot * 1000000000.0
    ensures e * parts * 1000000000.0 == 0.2 * bytes * price * removed ==> e * parts == 0.2 * pot * removed
  {
    assert 0.2 * bytes * price * removed == 0.2 * (price * bytes) * removed;
  }
}
