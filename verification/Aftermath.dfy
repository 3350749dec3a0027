/** The report after one configuration fix: which findings and figures stay as they were. */
module Aftermath {
  import opened Seqs
  import opened Types
  import opened Helpers
  import opened Cost
  import opened Rules
  import opened Detectors
  import opened Engine
  import opened Members
  import opened Edits
  import opened Cleanup
  import Invariance

  function NotKey(k: Key): Finding -> bool { (f: Finding) => f.key != k }

  lemma FixBehind(s: Snapshot, cm: CostModel, cfg: RuleConfig, f: Finding) returns (t0: Topic)
    requires Distinct(s) && f in Report([s], cm, cfg) && f.rule != R2
    ensures TopicFlagged(s, cfg, f.rule, t0)
    ensures f.fix == FixOf(f.rule, cfg.thresholds, t0) && f.key == Key(f.rule, t0.name)
  {
    hide Report, Resolve, FixOf, TopicFlagged;
    t0 := TopicBehind(s, cm, cfg, f);
  }

  lemma EditKeepsRates(fix: Fix, s: Snapshot, name: string)
    requires Apply(fix, s).topics == Map(EditTopic(fix), s.topics)
    ensures RateOf(Apply(fix, s).topics, name) == RateOf(s.topics, name)
  {
    SameRates(EditTopic(fix), s.topics, name);
  }

  /** The figures of a rule read of these four fields only the one its own fix changes, if any. */
  lemma ChargedAlike(q: RuleId, c: Ctx, d: Ctx, a: Topic, b: Topic)
    requires c.th == d.th && c.prices == d.prices
    requires RateOf(c.snap.topics, a.name) == RateOf(d.snap.topics, a.name)
    requires b == a.(retentionMs := b.retentionMs, partitions := b.partitions,
                     compressionType := b.compressionType, replicationFactor := b.replicationFactor)
    requires q == R4 ==> b.partitions == a.partitions && PartitionPrice(c) == PartitionPrice(d)
    requires q == R6 ==> b.replicationFactor == a.replicationFactor
    ensures TopicFinding(q, d, b) == TopicFinding(q, c, a)
  {
    hide PartitionPrice, RateOf;
    assert ExactSaving(q, d, b) == ExactSaving(q, c, a);
    assert FixOf(q, d.th, b) == FixOf(q, c.th, a) && SeverityOf(q, b) == SeverityOf(q, a);
    hide ExactSaving, FixOf, SeverityOf, Round2;
  }

  lemma FixedFields(r: RuleId, th: Thresholds, t: Topic)
    requires ConfigRule(r)
    ensures var b := Fixed(r, th, t);
            && b == t.(retentionMs := b.retentionMs, partitions := b.partitions,
                       compressionType := b.compressionType, replicationFactor := b.replicationFactor)
            && (r != R4 ==> b.partitions == t.partitions)
            && (r != R6 ==> b.replicationFactor == t.replicationFactor)
  {
  }

  /** What a detector reads of the cluster beside the topic it looks at, R4's partition price aside. */
  ghost predicate SameBackground(c: Ctx, d: Ctx, name: string) {
    && c.th == d.th && c.prices == d.prices && c.snap.groups == d.snap.groups
    && RateOf(c.snap.topics, name) == RateOf(d.snap.topics, name)
  }

  lemma FixKeepsBackground(s: Snapshot, cm: CostModel, cfg: RuleConfig, r: RuleId, t0: Topic, name: string)
    requires ConfigRule(r)
    ensures SameBackground(Context(s, cm, cfg), Context(Apply(FixOf(r, cfg.thresholds, t0), s), cm, cfg), name)
    ensures Context(s, cm, cfg).th == cfg.thresholds && Context(s, cm, cfg).snap == s
  {
    var fix := FixOf(r, cfg.thresholds, t0);
    ConfigFixEdits(s, r, cfg.thresholds, t0);
    hide Apply, FixOf, Resolve;
    EditKeepsRates(fix, s, name);
    EditKeepsBytes(fix);
    hide EditTopic;
    SameBytes(s, Apply(fix, s), cm, cfg, EditTopic(fix));
  }

  /** Another topic's verdict. */
  lemma OtherTopicsVerdict(q: RuleId, c: Ctx, d: Ctx, g: Topic -> Topic, k: Key, t: Topic)
    requires g(t) == t && k.name != t.name && SameBackground(c, d, t.name)
    requires q == R4 ==> PartitionPrice(c) == PartitionPrice(d)
    ensures KeepsVerdict(q, c, d, g, NotKey(k), t)
  {
    assert TopicFinding(q, c, t).key == Key(q, t.name);
    hide PartitionPrice, TopicFinding, RateOf, FiresIn;
    Invariance.SameCharge(q, c, d, t, t);
  }

  /** Another rule's verdict on the fixed topic. */
  lemma OtherRulesVerdict(r: RuleId, q: RuleId, c: Ctx, d: Ctx, g: Topic -> Topic, t: Topic)
    requires ConfigRule(r) && q != r && g(t) == Fixed(r, c.th, t) && SameBackground(c, d, t.name)
    requires q == R4 ==> PartitionPrice(c) == PartitionPrice(d)
    requires FiresIn(q, d, g(t)) <==> FiresIn(q, c, t)
    ensures KeepsVerdict(q, c, d, g, NotKey(Key(r, t.name)), t)
  {
    assert TopicFinding(q, c, t).key == Key(q, t.name);
    FixedFields(r, c.th, t);
    hide PartitionPrice, TopicFinding, RateOf, FiresIn, Fixed;
    ChargedAlike(q, c, d, t, g(t));
  }

  lemma FixKeepsVerdict(s: Snapshot, cm: CostModel, cfg: RuleConfig, r: RuleId, t0: Topic, q: RuleId, t: Topic)
    requires Distinct(s) && TopicFlagged(s, cfg, r, t0) && ConfigRule(r) && t in s.topics
    requires q == R4 ==> PartitionPrice(Context(Apply(FixOf(r, cfg.thresholds, t0), s), cm, cfg))
                         == PartitionPrice(Context(s, cm, cfg))
    ensures var fix := FixOf(r, cfg.thresholds, t0);
            KeepsVerdict(q, Context(s, cm, cfg), Context(Apply(fix, s), cm, cfg), EditTopic(fix),
                         NotKey(Key(r, t0.name)), t)
  {
    FlaggedIsListed(s, cfg, r, t0);
    hide *;
    var fix := FixOf(r, cfg.thresholds, t0);
    var c, d := Context(s, cm, cfg), Context(Apply(fix, s), cm, cfg);
    FixKeepsBackground(s, cm, cfg, r, t0, t.name);
    OnlyOneTopicEdited(s, r, cfg.thresholds, t0, t);
    if t != t0 {
      if t.name == t0.name {
        SameNameSameTopic(s, t, t0);
      }
      OtherTopicsVerdict(q, c, d, EditTopic(fix), Key(r, t0.name), t);
    } else {
      VerdictAfterFix(s, cm, cfg, r, q, t0);
      if q != r {
        OtherRulesVerdict(r, q, c, d, EditTopic(fix), t);
      } else {
        OwnVerdict(q, c, d, EditTopic(fix), t);
      }
    }
  }

  lemma FlaggedIsListed(s: Snapshot, cfg: RuleConfig, r: RuleId, t0: Topic)
    requires Distinct(s) && TopicFlagged(s, cfg, r, t0)
    ensures DistinctTopics(s.topics) && t0 in s.topics
  {
  }

  /** The rule whose fix it was. */
  lemma OwnVerdict(r: RuleId, c: Ctx, d: Ctx, g: Topic -> Topic, t: Topic)
    requires !FiresIn(r, d, g(t))
    ensures KeepsVerdict(r, c, d, g, NotKey(Key(r, t.name)), t)
  {
    assert TopicFinding(r, c, t).key == Key(r, t.name);
    hide TopicFinding, FiresIn;
  }

  lemma VerdictAfterFix(s: Snapshot, cm: CostModel, cfg: RuleConfig, r: RuleId, q: RuleId, t0: Topic)
    requires Distinct(s) && TopicFlagged(s, cfg, r, t0) && ConfigRule(r)
    ensures var fix := FixOf(r, cfg.thresholds, t0);
            FiresIn(q, Context(Apply(fix, s), cm, cfg), Fixed(r, cfg.thresholds, t0))
            <==> FiresIn(q, Context(s, cm, cfg), t0) && q != r
  {
    hide Fires, Apply, FixOf, Fixed, TopicFlagged, Resolve;
    FixedVerdicts(s, Apply(FixOf(r, cfg.thresholds, t0), s), cfg, r, q, t0);
  }

  lemma EditKeepsBytes(fix: Fix)
    ensures forall t :: EditTopic(fix)(t).retainedBytes == t.retainedBytes
  {
  }

  lemma FixedVerdicts(s: Snapshot, s': Snapshot, cfg: RuleConfig, r: RuleId, q: RuleId, t0: Topic)
    requires Distinct(s) && TopicFlagged(s, cfg, r, t0) && ConfigRule(r)
    requires s' == Apply(FixOf(r, cfg.thresholds, t0), s)
    ensures Fires(q, cfg.thresholds, s'.topics, s'.groups, Fixed(r, cfg.thresholds, t0))
            <==> Fires(q, cfg.thresholds, s.topics, s.groups, t0) && q != r
  {
    var th, fix := cfg.thresholds, FixOf(r, cfg.thresholds, t0);
    ApplyKeepsDistinct(fix, s);
    OnlyOneTopicEdited(s, r, th, t0, t0);
    var i :| 0 <= i < |s.topics| && s.topics[i] == t0;
    assert s'.topics == Map(EditTopic(fix), s.topics) && s'.topics[i] == Fixed(r, th, t0);
    FlagsAlone(q, th, s, t0);
    FlagsAlone(q, th, s', Fixed(r, th, t0));
    FixSettlesRule(r, q, th, s.groups, t0);
    hide Fires, Flags;
  }

  lemma FixKeepsPartitionPrice(s: Snapshot, cm: CostModel, cfg: RuleConfig, r: RuleId, t0: Topic)
    requires ConfigRule(r) && (r == R4 ==> PricedByConfluent(Context(s, cm, cfg)))
    ensures PartitionPrice(Context(Apply(FixOf(r, cfg.thresholds, t0), s), cm, cfg))
            == PartitionPrice(Context(s, cm, cfg))
  {
    var fix := FixOf(r, cfg.thresholds, t0);
    ConfigFixEdits(s, r, cfg.thresholds, t0);
    hide Apply, Resolve;
    if r != R4 {
      hide PartitionPrice;
      SamePartitionPrice(s, Apply(fix, s), cm, cfg, EditTopic(fix));
    } else {
      hide PerPartitionCost;
    }
  }

  lemma GroupsKeepTheirKeys(k: Key)
    requires k.rule != R2
    ensures forall g: ConsumerGrp :: NotKey(k)(GroupFinding(g))
  {
  }

  /** Applying an R3, R5 or R6 remediation takes its finding out of the report and leaves every other as it
      stood, savings and order included: no other figure reads retention, codec or replication factor. The same
      holds for R4 where Confluent's price per partition applies. */
  lemma ConfigFixFiltersReport(s: Snapshot, cm: CostModel, cfg: RuleConfig, f: Finding)
    requires Distinct(s) && f in Report([s], cm, cfg) && ConfigRule(f.rule)
    requires f.rule == R4 ==> PricedByConfluent(Context(s, cm, cfg))
    ensures Report([Apply(f.fix, s)], cm, cfg) == Filter(NotKey(f.key), Report([s], cm, cfg))
  {
    assert f.rule != R2;
    hide *;
    var t0 := FixBehind(s, cm, cfg, f);
    var s', g := Apply(f.fix, s), EditTopic(f.fix);
    ConfigFixEdits(s, f.rule, cfg.thresholds, t0);
    FixKeepsPartitionPrice(s, cm, cfg, f.rule, t0);
    forall r, t | t in s.topics
      ensures KeepsVerdict(r, Context(s, cm, cfg), Context(s', cm, cfg), g, NotKey(f.key), t)
    {
      FixKeepsVerdict(s, cm, cfg, f.rule, t0, r, t);
    }
    GroupsKeepTheirKeys(f.key);
    HarmlessEverywhere(s, s', cm, cfg, g, NotKey(f.key));
    ReportOfEdited(s, s', cm, cfg, g, NotKey(f.key));
  }

  lemma HarmlessEverywhere(s: Snapshot, s': Snapshot, cm: CostModel, cfg: RuleConfig, g: Topic -> Topic,
                           p: Finding -> bool)
    requires forall r, t :: t in s.topics ==> KeepsVerdict(r, Context(s, cm, cfg), Context(s', cm, cfg), g, p, t)
    ensures forall r :: Harmless(s, s', cm, cfg, g, p, r)
  {
    hide KeepsVerdict, Context;
  }

  // ---- R4 under amortized pricing ----

  /** An R4 remediation leaves every finding of the other rules as it stood. */
  lemma PartitionFixTouchesOnlyR4(s: Snapshot, cm: CostModel, cfg: RuleConfig, f: Finding)
    requires Distinct(s) && f in Report([s], cm, cfg) && f.rule == R4
    ensures Filter(NotFrom(R4), Report([Apply(f.fix, s)], cm, cfg)) == Filter(NotFrom(R4), Report([s], cm, cfg))
  {
    var t0 := FixBehind(s, cm, cfg, f);
    var off, s', g := Disable(cfg, R4), Apply(f.fix, s), EditTopic(f.fix);
    assert s'.topics == Map(g, s.topics) && s'.groups == s.groups;
    assert Context(s, cm, off) == Context(s, cm, cfg) && Context(s', cm, off) == Context(s', cm, cfg);
    hide Report, Context, Apply, TopicFlagged, EditTopic, KeepsVerdict;
    DisablingIsFiltering([s], cm, cfg, R4);
    DisablingIsFiltering([s'], cm, cfg, R4);
    FilterAll(NotFrom(R4), Report([s], cm, off));
    forall r, t | On(off, r) && t in s.topics
      ensures KeepsVerdict(r, Context(s, cm, off), Context(s', cm, off), g, NotFrom(R4), t)
    {
      OthersKeepVerdict(s, cm, cfg, t0, r, t);
    }
    ReportOfEdited(s, s', cm, off, g, NotFrom(R4));
  }

  lemma OthersKeepVerdict(s: Snapshot, cm: CostModel, cfg: RuleConfig, t0: Topic, r: RuleId, t: Topic)
    requires Distinct(s) && TopicFlagged(s, cfg, R4, t0) && t in s.topics && r != R4
    ensures var fix := FixOf(R4, cfg.thresholds, t0);
            KeepsVerdict(r, Context(s, cm, cfg), Context(Apply(fix, s), cm, cfg), EditTopic(fix), NotFrom(R4), t)
  {
    FixKeepsVerdict(s, cm, cfg, R4, t0, r, t);
    var c := Context(s, cm, cfg);
    assert TopicFinding(r, c, t).rule == r && TopicFinding(r, c, t).key == Key(r, t.name);
    hide Context, Apply, FiresIn, EditTopic, TopicFinding, TopicFlagged, FixOf;
  }

  /** Without Confluent's price a fifth of the storage bill is spread over the partitions there are. An R4
      remediation leaves fewer, so what the other R4 findings claim grows, all in one proportion. */
  lemma PartitionFixRescalesR4(s: Snapshot, cm: CostModel, cfg: RuleConfig, f: Finding, t: Topic)
    requires Distinct(s) && f in Report([s], cm, cfg) && f.rule == R4 && !PricedByConfluent(Context(s, cm, cfg))
    requires t in s.topics && t.name != f.key.name && SumI(TopicPartitions, Apply(f.fix, s).topics) > 0
    ensures t in Apply(f.fix, s).topics
    ensures var before, after := SumI(TopicPartitions, s.topics), SumI(TopicPartitions, Apply(f.fix, s).topics);
            var x, y := ExactSaving(R4, Context(s, cm, cfg), t), ExactSaving(R4, Context(Apply(f.fix, s), cm, cfg), t);
            after < before && y * after as real == x * before as real && (x > 0.0 ==> y > x)
  {
    hide *;
    var t0 := FixBehind(s, cm, cfg, f);
    UntouchedByEdit(s, f.fix, t0, t, cfg.thresholds);
    FewerPartitions(s, cfg, t0);
    EditKeepsBytes(f.fix);
    RespreadBetween(s, Apply(f.fix, s), cm, cfg, EditTopic(f.fix), t);
  }

  lemma RespreadBetween(s: Snapshot, s': Snapshot, cm: CostModel, cfg: RuleConfig, g: Topic -> Topic, t: Topic)
    requires s'.topics == Map(g, s.topics) && s'.cluster == s.cluster && !PricedByConfluent(Context(s, cm, cfg))
    requires forall x :: g(x).retainedBytes == x.retainedBytes
    requires 0 < SumI(TopicPartitions, s'.topics) < SumI(TopicPartitions, s.topics)
    ensures var before, after := SumI(TopicPartitions, s.topics), SumI(TopicPartitions, s'.topics);
            var x, y := ExactSaving(R4, Context(s, cm, cfg), t), ExactSaving(R4, Context(s', cm, cfg), t);
            y * after as real == x * before as real && (x > 0.0 ==> y > x)
  {
    SameBytes(s, s', cm, cfg, g);
    hide SumI, SumR, Resolve, ExactSaving;
    Respread(Context(s, cm, cfg), Context(s', cm, cfg), t);
  }

  lemma UntouchedByEdit(s: Snapshot, fix: Fix, t0: Topic, t: Topic, th: Thresholds)
    requires t in s.topics && t.name != t0.name && fix == FixOf(R4, th, t0)
    ensures t in Apply(fix, s).topics && Apply(fix, s).topics == Map(EditTopic(fix), s.topics)
    ensures Apply(fix, s).cluster == s.cluster
  {
    var i :| 0 <= i < |s.topics| && s.topics[i] == t;
    assert EditTopic(fix)(t) == t && Apply(fix, s).topics[i] == t;
  }

  lemma FewerPartitions(s: Snapshot, cfg: RuleConfig, t0: Topic)
    requires Distinct(s) && TopicFlagged(s, cfg, R4, t0)
    ensures SumI(TopicPartitions, Apply(FixOf(R4, cfg.thresholds, t0), s).topics) < SumI(TopicPartitions, s.topics)
  {
    var g := EditTopic(FixOf(R4, cfg.thresholds, t0));
    assert g(t0) == t0.(partitions := ProposedPartitions(cfg.thresholds.r4, t0));
    assert TopicPartitions(g(t0)) < TopicPartitions(t0);
    forall t | t in s.topics
      ensures TopicPartitions(g(t)) <= TopicPartitions(t)
    {
      OnlyOneTopicEdited(s, R4, cfg.thresholds, t0, t);
    }
    SumOfMap(TopicPartitions, g, s.topics);
  }

  lemma Respread(c: Ctx, d: Ctx, t: Topic)
    requires c.th == d.th && c.prices == d.prices && c.snap.cluster == d.snap.cluster && !PricedByConfluent(c)
    requires SumR(TopicGB, d.snap.topics) == SumR(TopicGB, c.snap.topics)
    requires 0 < SumI(TopicPartitions, d.snap.topics) < SumI(TopicPartitions, c.snap.topics)
    ensures var x, y := ExactSaving(R4, c, t), ExactSaving(R4, d, t);
            && y * SumI(TopicPartitions, d.snap.topics) as real == x * SumI(TopicPartitions, c.snap.topics) as real
            && (x > 0.0 ==> y > x)
  {
    SameWhole(c, d);
    RemovalSaving(c, t);
    RemovalSaving(d, t);
    hide *;
    SpreadOver(PartitionPrice(c), PartitionPrice(d), SumI(TopicPartitions, c.snap.topics) as real,
               SumI(TopicPartitions, d.snap.topics) as real,
               (t.partitions - ProposedPartitions(c.th.r4, t)) as real);
  }

  lemma WholePrice(c: Ctx)
    requires !PricedByConfluent(c) && SumI(TopicPartitions, c.snap.topics) > 0
    ensures PartitionPrice(c) * SumI(TopicPartitions, c.snap.topics) as real
            == 0.20 * (SumR(TopicGB, c.snap.topics) * c.prices.storageEURPerGBMo)
  {
    hide SumI, SumR;
  }

  lemma SameWhole(c: Ctx, d: Ctx)
    requires c.th == d.th && c.prices == d.prices && c.snap.cluster == d.snap.cluster && !PricedByConfluent(c)
    requires SumR(TopicGB, d.snap.topics) == SumR(TopicGB, c.snap.topics)
    requires 0 < SumI(TopicPartitions, d.snap.topics) && 0 < SumI(TopicPartitions, c.snap.topics)
    ensures PartitionPrice(c) * SumI(TopicPartitions, c.snap.topics) as real
            == PartitionPrice(d) * SumI(TopicPartitions, d.snap.topics) as real
  {
    WholePrice(c);
    WholePrice(d);
    hide SumI, SumR, PartitionPrice;
  }

  lemma RemovalSaving(c: Ctx, t: Topic)
    ensures ExactSaving(R4, c, t) == PartitionPrice(c) * (t.partitions - ProposedPartitions(c.th.r4, t)) as real
  {
    hide PartitionPrice, ProposedPartitions;
  }

  lemma SpreadOver(p: real, q: real, before: real, after: real, part: real)
    requires 0.0 < after < before && p * before == q * after
    ensures q * part * after == p * part * before
    ensures p * part > 0.0 ==> q * part > p * part
  {
    var x, y := p * part, q * part;
    assert x * before == p * before * part && y * after == q * after * part;
    if x > 0.0 && y <= x {
      Scaling(after, y, x);
      Scaling(x, after, before);
    }
  }
}
