/** Reports of a snapshot whose topics are rewritten one by one: when every verdict either stays as it was,
    figure for figure, or goes away, the new report is the old one filtered. */
module Edits {
  import opened Seqs
  import opened Types
  import opened Cost
  import opened Rules
  import opened Detectors
  import opened Engine
  import opened Sorting
  import opened Members
  import Invariance

  /** Rewriting t as g(t) keeps rule r's finding on it when p keeps that finding, and loses it otherwise. */
  ghost predicate KeepsVerdict(r: RuleId, c: Ctx, d: Ctx, g: Topic -> Topic, p: Finding -> bool, t: Topic) {
    && (FiresIn(r, d, g(t)) <==> FiresIn(r, c, t) && p(TopicFinding(r, c, t)))
    && (FiresIn(r, d, g(t)) ==> TopicFinding(r, d, g(t)) == TopicFinding(r, c, t))
  }

  lemma {:induction false} OverEdited(r: RuleId, c: Ctx, d: Ctx, g: Topic -> Topic, p: Finding -> bool, ts: seq<Topic>)
    requires forall t :: t in ts ==> KeepsVerdict(r, c, d, g, p, t)
    ensures OverTopics(r, d, Map(g, ts)) == Filter(p, OverTopics(r, c, ts))
  {
    if ts != [] {
      var init, t := ts[..|ts| - 1], ts[|ts| - 1];
      assert t in ts;
      OverEdited(r, c, d, g, p, init);
      assert Map(g, ts)[..|ts| - 1] == Map(g, init);
      FilterSnoc(p, OverTopics(r, c, init), TopicFinding(r, c, t));
      hide FiresIn, TopicFinding, Filter;
    }
  }

  ghost predicate Harmless(s: Snapshot, s': Snapshot, cm: CostModel, cfg: RuleConfig, g: Topic -> Topic,
                           p: Finding -> bool, r: RuleId)
  {
    forall t :: t in s.topics ==> KeepsVerdict(r, Context(s, cm, cfg), Context(s', cm, cfg), g, p, t)
  }

  /** Detector by detector, the findings on s' are those on s that p keeps. */
  ghost predicate DetectsFiltered(s: Snapshot, s': Snapshot, cm: CostModel, cfg: RuleConfig, p: Finding -> bool,
                                  r: RuleId)
  {
    Detect(r, Context(s', cm, cfg)) == Filter(p, Detect(r, Context(s, cm, cfg)))
  }

  lemma {:induction false} CollectedFiltered(s: Snapshot, s': Snapshot, cm: CostModel, cfg: RuleConfig,
                                             p: Finding -> bool, rules: seq<Rule>)
    requires forall r :: On(cfg, r) ==> DetectsFiltered(s, s', cm, cfg, p, r)
    ensures Collected(Context(s', cm, cfg), cfg, true, rules)
            == Filter(p, Collected(Context(s, cm, cfg), cfg, true, rules))
  {
    hide Context, Detect;
    if rules != [] {
      var init, r := rules[..|rules| - 1], rules[|rules| - 1];
      CollectedFiltered(s, s', cm, cfg, p, init);
      assert On(cfg, r.id) ==> DetectsFiltered(s, s', cm, cfg, p, r.id);
      assert Piece(Context(s', cm, cfg), cfg, true, r) == Filter(p, Piece(Context(s, cm, cfg), cfg, true, r));
      FilterAppend(p, Collected(Context(s, cm, cfg), cfg, true, init), Piece(Context(s, cm, cfg), cfg, true, r));
    }
  }

  /** Then so is the report. */
  lemma ReportFiltered(s: Snapshot, s': Snapshot, cm: CostModel, cfg: RuleConfig, p: Finding -> bool)
    requires forall r :: On(cfg, r) ==> DetectsFiltered(s, s', cm, cfg, p, r)
    ensures Report([s'], cm, cfg) == Filter(p, Report([s], cm, cfg))
  {
    hide Context, DetectsFiltered, Collected, StableSort;
    RankingOrders();
    CollectedFiltered(s, s', cm, cfg, p, REGISTRY);
    SortCommutesWithFilter(RanksBefore, p, Unranked([s], cm, cfg));
  }

  lemma EditedDetects(s: Snapshot, s': Snapshot, cm: CostModel, cfg: RuleConfig, g: Topic -> Topic,
                      p: Finding -> bool, r: RuleId)
    requires s'.topics == Map(g, s.topics) && s'.groups == s.groups
    requires forall gr: ConsumerGrp :: p(GroupFinding(gr))
    requires Harmless(s, s', cm, cfg, g, p, r)
    ensures DetectsFiltered(s, s', cm, cfg, p, r)
  {
    var c, d := Context(s, cm, cfg), Context(s', cm, cfg);
    if r != R2 {
      OverEdited(r, c, d, g, p, s.topics);
    }
    Invariance.SameGroupFindings(c, d, s.groups);
    forall f | f in OverGroups(c, s.groups)
      ensures p(f)
    {
      InOverGroups(c, s.groups, f);
    }
    FilterAll(p, OverGroups(c, s.groups));
    hide OverTopics, OverGroups, KeepsVerdict;
  }

  lemma ReportOfEdited(s: Snapshot, s': Snapshot, cm: CostModel, cfg: RuleConfig, g: Topic -> Topic,
                       p: Finding -> bool)
    requires s'.topics == Map(g, s.topics) && s'.groups == s.groups
    requires forall gr: ConsumerGrp :: p(GroupFinding(gr))
    requires forall r :: On(cfg, r) ==> Harmless(s, s', cm, cfg, g, p, r)
    ensures Report([s'], cm, cfg) == Filter(p, Report([s], cm, cfg))
  {
    hide *;
    forall r | On(cfg, r)
      ensures DetectsFiltered(s, s', cm, cfg, p, r)
    {
      EditedDetects(s, s', cm, cfg, g, p, r);
    }
    ReportFiltered(s, s', cm, cfg, p);
  }

  // ---- Topics and groups taken out ----

  /** Without the topics that keep drops, rule r finds what p keeps. */
  lemma {:induction false} OverKept(r: RuleId, c: Ctx, d: Ctx, keep: Topic -> bool, p: Finding -> bool,
                                    ts: seq<Topic>)
    requires forall t :: t in ts && keep(t) ==> KeepsVerdict(r, c, d, Unchanged, p, t) && p(TopicFinding(r, c, t))
    requires forall t :: t in ts && !keep(t) ==> !p(TopicFinding(r, c, t))
    ensures OverTopics(r, d, Filter(keep, ts)) == Filter(p, OverTopics(r, c, ts))
  {
    if ts != [] {
      hide FiresIn, TopicFinding, OverTopics;
      var init, t := ts[..|ts| - 1], ts[|ts| - 1];
      assert ts == init + [t] && t in ts;
      OverKept(r, c, d, keep, p, init);
      FilterSnoc(keep, init, t);
      FilterSnoc(p, OverTopics(r, c, init), TopicFinding(r, c, t));
      OverSnoc(r, c, init, t);
      OverSnoc(r, d, Filter(keep, init), t);
      hide Filter;
    } else {
      assert OverTopics(r, d, []) == [] == OverTopics(r, c, []);
    }
  }

  lemma OverSnoc(r: RuleId, c: Ctx, init: seq<Topic>, t: Topic)
    ensures OverTopics(r, c, init + [t])
            == if FiresIn(r, c, t) then OverTopics(r, c, init) + [TopicFinding(r, c, t)] else OverTopics(r, c, init)
  {
    hide FiresIn, TopicFinding;
    assert (init + [t])[..|init|] == init;
  }

  function Unchanged(t: Topic): Topic { t }

  lemma {:induction false} OverKeptGroups(c: Ctx, d: Ctx, keep: ConsumerGrp -> bool, p: Finding -> bool,
                                          gs: seq<ConsumerGrp>)
    requires c.th == d.th && forall g :: g in gs ==> p(GroupFinding(g)) == keep(g)
    ensures OverGroups(d, Filter(keep, gs)) == Filter(p, OverGroups(c, gs))
  {
    if gs != [] {
      var init, g := gs[..|gs| - 1], gs[|gs| - 1];
      assert gs == init + [g] && g in gs;
      OverKeptGroups(c, d, keep, p, init);
      FilterSnoc(keep, init, g);
      FilterSnoc(p, OverGroups(c, init), GroupFinding(g));
      hide R2Fires, GroupFinding, Filter;
      assert (Filter(keep, init) + [g])[..|Filter(keep, init)|] == Filter(keep, init);
    }
  }

  // ---- The cluster-wide figures ----

  lemma SameBytes(s: Snapshot, s': Snapshot, cm: CostModel, cfg: RuleConfig, g: Topic -> Topic)
    requires s'.topics == Map(g, s.topics)
    requires forall t :: t in s.topics ==> g(t).retainedBytes == t.retainedBytes
    ensures Context(s', cm, cfg).prices == Context(s, cm, cfg).prices
    ensures SumR(TopicGB, s'.topics) == SumR(TopicGB, s.topics)
  {
    SumIOfMap(TopicBytes, g, TopicBytes, s.topics);
    SumROfMap(TopicGB, g, TopicGB, s.topics);
    hide *;
    SamePrices(s, s', cm, cfg);
  }

  lemma SamePrices(s: Snapshot, s': Snapshot, cm: CostModel, cfg: RuleConfig)
    requires SumI(TopicBytes, s'.topics) == SumI(TopicBytes, s.topics)
    ensures Context(s', cm, cfg).prices == Context(s, cm, cfg).prices
  {
    hide Resolve, SumI;
  }

  /** A partition costs the same as long as every topic keeps its bytes and its partition count. */
  lemma SamePartitionPrice(s: Snapshot, s': Snapshot, cm: CostModel, cfg: RuleConfig, g: Topic -> Topic)
    requires s'.topics == Map(g, s.topics) && s'.cluster == s.cluster
    requires forall t :: t in s.topics ==> g(t).retainedBytes == t.retainedBytes && g(t).partitions == t.partitions
    ensures PartitionPrice(Context(s', cm, cfg)) == PartitionPrice(Context(s, cm, cfg))
  {
    SameBytes(s, s', cm, cfg, g);
    SumIOfMap(TopicPartitions, g, TopicPartitions, s.topics);
    SamePerPartition(Context(s, cm, cfg), Context(s', cm, cfg));
    hide SumI, SumR, PerPartitionCost, Resolve;
  }

  lemma SamePerPartition(c: Ctx, d: Ctx)
    requires SumI(TopicPartitions, c.snap.topics) == SumI(TopicPartitions, d.snap.topics)
    requires SumR(TopicGB, c.snap.topics) == SumR(TopicGB, d.snap.topics)
    requires c.prices == d.prices
    ensures PerPartitionCost(c) == PerPartitionCost(d)
  {
    hide SumI, SumR;
  }

  lemma {:induction false} SameRates(g: Topic -> Topic, ts: seq<Topic>, name: string)
    requires forall t :: t in ts ==> g(t).name == t.name && g(t).bytesInPerSec == t.bytesInPerSec
    ensures RateOf(Map(g, ts), name) == RateOf(ts, name)
  {
    if ts != [] {
      assert ts == [ts[0]] + ts[1..] && ts[0] in ts;
      assert Map(g, ts)[1..] == Map(g, ts[1..]);
      SameRates(g, ts[1..], name);
    }
  }

  // ---- The earliest offset ----

  function Unoffset(t: Topic): Topic { t.(earliestOffset := 0) }

  function Unoffsets(s: Snapshot): Snapshot { s.(topics := Map(Unoffset, s.topics)) }

  function Anything(f: Finding): bool { true }

  /** No rule reads the earliest offset. */
  lemma EarliestOffsetUnread(s: Snapshot, cm: CostModel, cfg: RuleConfig)
    ensures Report([Unoffsets(s)], cm, cfg) == Report([s], cm, cfg)
  {
    var s' := Unoffsets(s);
    SameBytes(s, s', cm, cfg, Unoffset);
    SamePartitionPrice(s, s', cm, cfg, Unoffset);
    var c, d := Context(s, cm, cfg), Context(s', cm, cfg);
    assert c.th == d.th && c.snap == s && d.snap == s';
    hide Context, PartitionPrice, FiresIn, TopicFinding;
    forall r | On(cfg, r)
      ensures Harmless(s, s', cm, cfg, Unoffset, Anything, r)
    {
      forall t | t in s.topics
        ensures KeepsVerdict(r, c, d, Unoffset, Anything, t)
      {
        SameRates(Unoffset, s.topics, t.name);
        Invariance.SameCharge(r, c, d, t, Unoffset(t));
      }
    }
    hide Report, Unoffsets, Harmless;
    ReportOfEdited(s, s', cm, cfg, Unoffset, Anything);
    FilterAll(Anything, Report([s], cm, cfg));
  }
}
