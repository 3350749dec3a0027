/** The report after a deletion: what the other findings claim once a topic or a group is gone. */
module Deletions {
  import opened Seqs
  import opened Types
  import opened Helpers
  import opened Cost
  import opened Rules
  import opened Detectors
  import opened Engine
  import opened Members
  import opened Edits
  import opened Cleanup
  import opened Budget
  import Aftermath
  import Invariance

  /** The bill is spread over the retained bytes: there are both, and no price is configured. */
  predicate BillIsSpread(cm: CostModel, s: Snapshot) {
    cm.storageEURPerGBMo <= 0.0 && cm.monthlyCostEUR > 0.0 && TotalBytes(s) > 0
  }

  function TotalBytes(s: Snapshot): int { SumI(TopicBytes, s.topics) }

  function Without(name: string, s: Snapshot): Snapshot { Apply(DeleteTopic(name), s) }

  /** Findings about anything but the topic of this name. */
  function Elsewhere(name: string): Finding -> bool {
    (f: Finding) => f.rule == R2 || f.key.name != name
  }

  lemma {:induction false} RateAfterDeletion(ts: seq<Topic>, name: string, other: string)
    requires other != name
    ensures RateOf(Filter(NotTopic(name), ts), other) == RateOf(ts, other)
  {
    if ts != [] {
      assert ts == [ts[0]] + ts[1..];
      FilterAppend(NotTopic(name), [ts[0]], ts[1..]);
      RateAfterDeletion(ts[1..], name, other);
      FirstKept(ts[0], name);
      var rest := Filter(NotTopic(name), ts[1..]);
      assert ([ts[0]] + rest)[1..] == rest && [] + rest == rest;
    }
  }

  lemma FirstKept(t: Topic, name: string)
    ensures Filter(NotTopic(name), [t]) == if t.name != name then [t] else []
  {
    FilterSnoc(NotTopic(name), [], t);
    assert [] + [t] == [t];
  }

  /** A finding of R1 or R8 proposes to delete the topic it names. */
  lemma DeletionBehind(s: Snapshot, cm: CostModel, cfg: RuleConfig, f: Finding)
    requires Distinct(s) && f in Report([s], cm, cfg) && (f.rule == R1 || f.rule == R8)
    ensures Apply(f.fix, s) == Without(f.key.name, s)
  {
    hide Report, TopicFlagged, Resolve;
    var t0 := TopicBehind(s, cm, cfg, f);
  }

  lemma DetectsElsewhere(s: Snapshot, cm: CostModel, cfg: RuleConfig, name: string, r: RuleId)
    requires Context(Without(name, s), cm, cfg).prices == Context(s, cm, cfg).prices && r != R4
    ensures DetectsFiltered(s, Without(name, s), cm, cfg, Elsewhere(name), r)
  {
    var s', p, keep := Without(name, s), Elsewhere(name), NotTopic(name);
    var c, d := Context(s, cm, cfg), Context(s', cm, cfg);
    assert c.th == d.th && c.snap == s && d.snap == s' && s'.groups == s.groups;
    assert s'.topics == Filter(keep, s.topics);
    hide Context, Without;
    if r == R2 {
      Invariance.SameGroupFindings(c, d, s.groups);
      GroupRuleIds(c, s.groups);
      FilterAll(p, OverGroups(c, s.groups));
    } else {
      forall t | t in s.topics
        ensures p(TopicFinding(r, c, t)) == keep(t)
        ensures keep(t) ==> KeepsVerdict(r, c, d, Unchanged, p, t)
      {
        StaysElsewhere(r, c, d, name, t);
      }
      hide Elsewhere, NotTopic, KeepsVerdict, TopicFinding;
      OverKept(r, c, d, keep, p, s.topics);
    }
  }

  lemma StaysElsewhere(r: RuleId, c: Ctx, d: Ctx, name: string, t: Topic)
    requires c.th == d.th && c.prices == d.prices && c.snap.groups == d.snap.groups && r != R4 && r != R2
    requires d.snap.topics == Filter(NotTopic(name), c.snap.topics)
    ensures Elsewhere(name)(TopicFinding(r, c, t)) == NotTopic(name)(t)
    ensures NotTopic(name)(t) ==> KeepsVerdict(r, c, d, Unchanged, Elsewhere(name), t)
  {
    assert TopicFinding(r, c, t).rule == r && TopicFinding(r, c, t).key == Key(r, t.name);
    hide TopicFinding, FiresIn, RateOf;
    if t.name != name {
      RateAfterDeletion(c.snap.topics, name, t.name);
      Invariance.SameCharge(r, c, d, t, t);
    }
  }

  /** As long as the storage price is not derived from what is retained, an R1 or R8 remediation takes the
      topic's own lines out and leaves every other line as it stood, R4's aside. */
  lemma DeletionFiltersReport(s: Snapshot, cm: CostModel, cfg: RuleConfig, f: Finding)
    requires Distinct(s) && f in Report([s], cm, cfg) && (f.rule == R1 || f.rule == R8)
    requires !BillIsSpread(cm, s) && !BillIsSpread(cm, Apply(f.fix, s))
    ensures Filter(NotFrom(R4), Report([Apply(f.fix, s)], cm, cfg))
            == Filter(Elsewhere(f.key.name), Filter(NotFrom(R4), Report([s], cm, cfg)))
  {
    DeletionBehind(s, cm, cfg, f);
    SamePrices(s, Apply(f.fix, s), cm, cfg);
    hide *;
    var off, s' := Disable(cfg, R4), Apply(f.fix, s);
    SameContext(s, cm, cfg, R4);
    SameContext(s', cm, cfg, R4);
    forall r | On(off, r)
      ensures DetectsFiltered(s, s', cm, off, Elsewhere(f.key.name), r)
    {
      OnMeansNot(cfg, R4, r);
      DetectsElsewhere(s, cm, off, f.key.name, r);
    }
    ReportFiltered(s, s', cm, off, Elsewhere(f.key.name));
    DisablingIsFiltering([s], cm, cfg, R4);
    DisablingIsFiltering([s'], cm, cfg, R4);
  }

  lemma OnMeansNot(cfg: RuleConfig, k: RuleId, r: RuleId)
    requires On(Disable(cfg, k), r)
    ensures r != k && On(cfg, r)
  {
  }

  lemma SameContext(s: Snapshot, cm: CostModel, cfg: RuleConfig, k: RuleId)
    ensures Context(s, cm, Disable(cfg, k)) == Context(s, cm, cfg)
  {
  }

  lemma SamePrices(s: Snapshot, s': Snapshot, cm: CostModel, cfg: RuleConfig)
    requires !BillIsSpread(cm, s) && !BillIsSpread(cm, s')
    ensures Context(s', cm, cfg).prices == Context(s, cm, cfg).prices
  {
    hide SumI;
  }

  // ---- A derived price ----

  /** The GB a rule bills a topic for. */
  function BilledGB(r: RuleId, ctx: Ctx, t: Topic): real {
    match r
    case R1 => TopicGB(t)
    case R8 => TopicGB(t)
    case R3 => SavedGB(ctx.th.r3, RateOf(ctx.snap.topics, t.name), t)
    case R6 =>
      if t.replicationFactor == 0 then 0.0
      else TopicGB(t) * ((t.replicationFactor - ctx.th.r6.proposedRF) as real / t.replicationFactor as real)
    case _ => 0.0
  }

  predicate BillsStorage(r: RuleId) { r.R1? || r.R3? || r.R6? || r.R8? }

  lemma ChargeIsVolume(r: RuleId, ctx: Ctx, t: Topic)
    requires BillsStorage(r)
    ensures ExactSaving(r, ctx, t) == BilledGB(r, ctx, t) * ctx.prices.storageEURPerGBMo
  {
    hide TopicGB, SavedGB, RateOf;
  }

  /** y is x at another share of the same whole: before bytes then, after bytes now. */
  predicate Respreads(x: real, before: int, y: real, after: int) { y * after as real == x * before as real }

  lemma SameBilledGB(r: RuleId, c: Ctx, d: Ctx, name: string, t: Topic)
    requires c.th == d.th && d.snap.topics == Filter(NotTopic(name), c.snap.topics) && t.name != name
    ensures BilledGB(r, d, t) == BilledGB(r, c, t)
  {
    RateAfterDeletion(c.snap.topics, name, t.name);
    hide RateOf, SavedGB, TopicGB;
  }

  /** A derived price spreads one bill over the bytes there are. A deletion that leaves some leaves the storage
      bill as it was, so what R1, R3, R6 and R8 claim on the other topics grows, all in one proportion: bytes
      before over bytes after. */
  lemma DeletionRescalesStorage(s: Snapshot, cm: CostModel, cfg: RuleConfig, f: Finding, r: RuleId, t: Topic)
    requires Distinct(s) && f in Report([s], cm, cfg) && (f.rule == R1 || f.rule == R8)
    requires BillIsSpread(cm, s) && BillIsSpread(cm, Apply(f.fix, s))
    requires BillsStorage(r) && t.name != f.key.name
    ensures var c, d := Context(s, cm, cfg), Context(Apply(f.fix, s), cm, cfg);
            && StorageBill(d) == StorageBill(c)
            && (FiresIn(r, d, t) <==> FiresIn(r, c, t))
            && Respreads(ExactSaving(r, c, t), TotalBytes(s), ExactSaving(r, d, t), TotalBytes(Apply(f.fix, s)))
  {
    hide *;
    DeletionBehind(s, cm, cfg, f);
    RescaledStorage(s, Apply(f.fix, s), cm, cfg, f.key.name, r, t);
  }

  lemma FiresElsewhere(r: RuleId, c: Ctx, d: Ctx, name: string, t: Topic)
    requires c.th == d.th && c.snap.groups == d.snap.groups
    requires d.snap.topics == Filter(NotTopic(name), c.snap.topics) && t.name != name
    ensures FiresIn(r, d, t) == FiresIn(r, c, t)
  {
    RateAfterDeletion(c.snap.topics, name, t.name);
    hide RateOf;
  }

  lemma RescaledStorage(s: Snapshot, s': Snapshot, cm: CostModel, cfg: RuleConfig, name: string, r: RuleId, t: Topic)
    requires s' == Without(name, s) && BillsStorage(r) && t.name != name
    requires BillIsSpread(cm, s) && BillIsSpread(cm, s')
    ensures var c, d := Context(s, cm, cfg), Context(s', cm, cfg);
            && StorageBill(d) == StorageBill(c)
            && (FiresIn(r, d, t) <==> FiresIn(r, c, t))
            && Respreads(ExactSaving(r, c, t), TotalBytes(s), ExactSaving(r, d, t), TotalBytes(s'))
  {
    hide *;
    SpreadStorageBill(s, cm, cfg);
    SpreadStorageBill(s', cm, cfg);
    ContextOf(s, cm, cfg);
    ContextOf(s', cm, cfg);
    DeletedSnapshot(s, name);
    SameWhole(s, s', cm, cfg);
    FiresElsewhere(r, Context(s, cm, cfg), Context(s', cm, cfg), name, t);
    RescaledSaving(r, Context(s, cm, cfg), Context(s', cm, cfg), name, t);
  }

  lemma SameWhole(s: Snapshot, s': Snapshot, cm: CostModel, cfg: RuleConfig)
    requires BillIsSpread(cm, s) && BillIsSpread(cm, s')
    ensures Respreads(Context(s, cm, cfg).prices.storageEURPerGBMo, TotalBytes(s),
                      Context(s', cm, cfg).prices.storageEURPerGBMo, TotalBytes(s'))
  {
    WholePriceOfBytes(s, cm, cfg);
    WholePriceOfBytes(s', cm, cfg);
    hide Context, TotalBytes;
  }

  lemma DeletedSnapshot(s: Snapshot, name: string)
    ensures Without(name, s) == s.(topics := Filter(NotTopic(name), s.topics))
  {
  }

  lemma ContextOf(s: Snapshot, cm: CostModel, cfg: RuleConfig)
    ensures Context(s, cm, cfg).snap == s && Context(s, cm, cfg).th == cfg.thresholds
  {
    hide Resolve;
  }

  lemma SpreadStorageBill(s: Snapshot, cm: CostModel, cfg: RuleConfig)
    requires BillIsSpread(cm, s)
    ensures StorageBill(Context(s, cm, cfg)) == cm.monthlyCostEUR * EffectiveWeights(cm).storage
  {
    hide StorageBill, Context;
    DerivedStorageBill(s, cm, cfg);
  }

  lemma RescaledSaving(r: RuleId, c: Ctx, d: Ctx, name: string, t: Topic)
    requires BillsStorage(r) && t.name != name
    requires c.th == d.th && d.snap.topics == Filter(NotTopic(name), c.snap.topics)
    requires Respreads(c.prices.storageEURPerGBMo, TotalBytes(c.snap), d.prices.storageEURPerGBMo, TotalBytes(d.snap))
    ensures Respreads(ExactSaving(r, c, t), TotalBytes(c.snap), ExactSaving(r, d, t), TotalBytes(d.snap))
  {
    hide *;
    SameBilledGB(r, c, d, name, t);
    ChargeIsVolume(r, c, t);
    ChargeIsVolume(r, d, t);
    TimesVolume(BilledGB(r, c, t), c.prices.storageEURPerGBMo, TotalBytes(c.snap), d.prices.storageEURPerGBMo,
                TotalBytes(d.snap), ExactSaving(r, c, t), ExactSaving(r, d, t));
  }

  lemma TimesVolume(gb: real, p: real, before: int, q: real, after: int, x: real, y: real)
    requires Respreads(p, before, q, after) && x == gb * p && y == gb * q
    ensures Respreads(x, before, y, after)
  {
    assert gb * q * after as real == gb * (q * after as real);
    assert gb * p * before as real == gb * (p * before as real);
  }

  /** The price of all the bytes, in billionths: the storage part of the bill. */
  lemma WholePriceOfBytes(s: Snapshot, cm: CostModel, cfg: RuleConfig)
    requires BillIsSpread(cm, s)
    ensures Respreads(cm.monthlyCostEUR * EffectiveWeights(cm).storage, 1000000000,
                      Context(s, cm, cfg).prices.storageEURPerGBMo, TotalBytes(s))
  {
    DerivedPriceRecoversStoragePart(cm, TotalBytes(s));
    hide SumI, Resolve;
  }

  // ---- A group ----

  lemma GroupDeletionBehind(s: Snapshot, cm: CostModel, cfg: RuleConfig, f: Finding)
    requires f in Report([s], cm, cfg) && f.rule == R2
    ensures f.fix == DeleteGroup(f.key.name) && f.key.rule == R2
  {
    hide Report, GroupFlagged;
    var g0 := GroupBehind(s, cm, cfg, f);
  }

  lemma DetectsWithoutGroup(s: Snapshot, cm: CostModel, cfg: RuleConfig, id: string, r: RuleId)
    requires r != R8
    ensures DetectsFiltered(s, Apply(DeleteGroup(id), s), cm, cfg, Aftermath.NotKey(Key(R2, id)), r)
  {
    var s', p := Apply(DeleteGroup(id), s), Aftermath.NotKey(Key(R2, id));
    var c, d := Context(s, cm, cfg), Context(s', cm, cfg);
    assert c == Ctx(s, d.prices, d.th) && d.snap == s' && s'.topics == s.topics && s'.cluster == s.cluster;
    assert s'.groups == Filter(NotGroup(id), s.groups);
    hide Context;
    if r == R2 {
      OverKeptGroups(c, d, NotGroup(id), p, s.groups);
    } else {
      SamePartitionPriceHere(c, d);
      forall t | t in s.topics
        ensures KeepsVerdict(r, c, d, Unchanged, p, t)
      {
        assert TopicFinding(r, c, t).key == Key(r, t.name);
        Invariance.SameCharge(r, c, d, t, t);
        hide TopicFinding, FiresIn;
      }
      hide KeepsVerdict;
      OverEdited(r, c, d, Unchanged, p, s.topics);
      assert Map(Unchanged, s.topics) == s.topics;
    }
  }

  lemma SamePartitionPriceHere(c: Ctx, d: Ctx)
    requires c.th == d.th && c.prices == d.prices
    requires c.snap.topics == d.snap.topics && c.snap.cluster == d.snap.cluster
    ensures PartitionPrice(c) == PartitionPrice(d)
  {
    hide SumI, SumR;
  }

  /** An R2 remediation takes its own line out and leaves every other as it stood, R8's aside. */
  lemma GroupDeletionFiltersReport(s: Snapshot, cm: CostModel, cfg: RuleConfig, f: Finding)
    requires f in Report([s], cm, cfg) && f.rule == R2
    ensures Filter(NotFrom(R8), Report([Apply(f.fix, s)], cm, cfg))
            == Filter(Aftermath.NotKey(f.key), Filter(NotFrom(R8), Report([s], cm, cfg)))
  {
    hide *;
    GroupDeletionBehind(s, cm, cfg, f);
    var off, s' := Disable(cfg, R8), Apply(f.fix, s);
    assert f.key == Key(R2, f.key.name);
    forall r | On(off, r)
      ensures DetectsFiltered(s, s', cm, off, Aftermath.NotKey(f.key), r)
    {
      OnMeansNot(cfg, R8, r);
      DetectsWithoutGroup(s, cm, off, f.key.name, r);
    }
    ReportFiltered(s, s', cm, off, Aftermath.NotKey(f.key));
    DisablingIsFiltering([s], cm, cfg, R8);
    DisablingIsFiltering([s'], cm, cfg, R8);
  }
}
