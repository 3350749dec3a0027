/** What is in a report: one finding for each enabled rule and each thing it flags. */
module Members {
  import opened Types
  import opened Cost
  import opened Rules
  import opened Detectors
  import opened Engine
  import opened Sorting
  import Invariance

  predicate On(cfg: RuleConfig, r: RuleId) { r !in cfg.disabled }

  /** Whether a rule flags t in a cluster whose topic names are distinct. */
  predicate Flags(r: RuleId, th: Thresholds, groups: seq<ConsumerGrp>, t: Topic) {
    Fires(r, th, [t], groups, t)
  }

  lemma FlagsAlone(r: RuleId, th: Thresholds, s: Snapshot, t: Topic)
    requires DistinctTopics(s.topics) && t in s.topics
    ensures Fires(r, th, s.topics, s.groups, t) == Flags(r, th, s.groups, t)
  {
    Invariance.RateOfDistinct(s.topics, t);
    Invariance.RateOfDistinct([t], t);
    hide RateOf;
  }

  lemma {:induction false} InOverTopics(r: RuleId, ctx: Ctx, ts: seq<Topic>, f: Finding)
    ensures f in OverTopics(r, ctx, ts) <==> exists t :: t in ts && FiresIn(r, ctx, t) && f == TopicFinding(r, ctx, t)
  {
    hide FiresIn, TopicFinding;
    if ts != [] {
      var init, last := ts[..|ts| - 1], ts[|ts| - 1];
      assert ts == init + [last];
      InOverTopics(r, ctx, init, f);
    }
  }

  lemma {:induction false} InOverGroups(ctx: Ctx, gs: seq<ConsumerGrp>, f: Finding)
    ensures f in OverGroups(ctx, gs) <==> exists g :: g in gs && R2Fires(ctx.th.r2, g) && f == GroupFinding(g)
  {
    hide R2Fires, GroupFinding;
    if gs != [] {
      var init, last := gs[..|gs| - 1], gs[|gs| - 1];
      assert gs == init + [last];
      InOverGroups(ctx, init, f);
    }
  }

  lemma {:induction false} InCollected(ctx: Ctx, cfg: RuleConfig, n: nat, f: Finding)
    requires n <= |REGISTRY|
    ensures f in Collected(ctx, cfg, true, REGISTRY[..n])
            <==> f.rule.Rank() <= n && On(cfg, f.rule) && f in Detect(f.rule, ctx)
  {
    if n > 0 {
      assert REGISTRY[..n][..n - 1] == REGISTRY[..n - 1];
      var r := REGISTRY[n - 1];
      assert r.id.Rank() == n && (f.rule.Rank() == n <==> f.rule == r.id);
      InCollected(ctx, cfg, n - 1, f);
      DetectRuleIds(r.id, ctx);
      hide Detect;
    }
  }

  lemma InReport(s: Snapshot, cm: CostModel, cfg: RuleConfig, f: Finding)
    ensures f in Report([s], cm, cfg) <==> On(cfg, f.rule) && f in Detect(f.rule, Context(s, cm, cfg))
  {
    hide Collected, Detect;
    var raw := Unranked([s], cm, cfg);
    assert REGISTRY[..8] == REGISTRY;
    InCollected(Context(s, cm, cfg), cfg, 8, f);
    SortPermutes(RanksBefore, raw);
    assert f in Report([s], cm, cfg) <==> f in multiset(Report([s], cm, cfg));
    assert f in raw <==> f in multiset(raw);
  }

  ghost predicate TopicFlagged(s: Snapshot, cfg: RuleConfig, r: RuleId, t: Topic) {
    t in s.topics && On(cfg, r) && Flags(r, cfg.thresholds, s.groups, t)
  }

  ghost predicate GroupFlagged(s: Snapshot, cfg: RuleConfig, g: ConsumerGrp) {
    g in s.groups && On(cfg, R2) && R2Fires(cfg.thresholds.r2, g)
  }

  /** A finding names a flagged topic, or for R2 a flagged group. */
  lemma TopicBehind(s: Snapshot, cm: CostModel, cfg: RuleConfig, f: Finding) returns (t: Topic)
    requires DistinctTopics(s.topics) && f in Report([s], cm, cfg) && f.rule != R2
    ensures TopicFlagged(s, cfg, f.rule, t) && f == TopicFinding(f.rule, Context(s, cm, cfg), t)
  {
    hide OverTopics, Flags;
    InReport(s, cm, cfg, f);
    var ctx := Context(s, cm, cfg);
    InOverTopics(f.rule, ctx, s.topics, f);
    t :| t in s.topics && FiresIn(f.rule, ctx, t) && f == TopicFinding(f.rule, ctx, t);
    FlagsAlone(f.rule, cfg.thresholds, s, t);
  }

  lemma GroupBehind(s: Snapshot, cm: CostModel, cfg: RuleConfig, f: Finding) returns (g: ConsumerGrp)
    requires f in Report([s], cm, cfg) && f.rule == R2
    ensures GroupFlagged(s, cfg, g) && f == GroupFinding(g)
  {
    hide OverGroups, R2Fires;
    InReport(s, cm, cfg, f);
    var ctx := Context(s, cm, cfg);
    InOverGroups(ctx, s.groups, f);
    g :| g in s.groups && R2Fires(ctx.th.r2, g) && f == GroupFinding(g);
  }

  lemma FlaggedTopicIsReported(s: Snapshot, cm: CostModel, cfg: RuleConfig, r: RuleId, t: Topic)
    requires DistinctTopics(s.topics) && TopicFlagged(s, cfg, r, t)
    ensures TopicFinding(r, Context(s, cm, cfg), t) in Report([s], cm, cfg)
  {
    assert r != R2;
    hide OverTopics, Flags;
    var ctx := Context(s, cm, cfg);
    var f := TopicFinding(r, ctx, t);
    FlagsAlone(r, cfg.thresholds, s, t);
    InReport(s, cm, cfg, f);
    InOverTopics(r, ctx, s.topics, f);
  }

  lemma FlaggedGroupIsReported(s: Snapshot, cm: CostModel, cfg: RuleConfig, g: ConsumerGrp)
    requires GroupFlagged(s, cfg, g)
    ensures GroupFinding(g) in Report([s], cm, cfg)
  {
    hide OverGroups, R2Fires;
    var ctx := Context(s, cm, cfg);
    InReport(s, cm, cfg, GroupFinding(g));
    InOverGroups(ctx, s.groups, GroupFinding(g));
  }

  // ---- Keys ----

  /** The resource keys a report carries. */
  ghost function Keys(s: Snapshot, cm: CostModel, cfg: RuleConfig): set<Key> {
    set f | f in Report([s], cm, cfg) :: f.key
  }

  ghost predicate KeyFlagged(s: Snapshot, cfg: RuleConfig, k: Key) {
    if k.rule == R2 then exists g :: GroupFlagged(s, cfg, g) && g.groupId == k.name
    else exists t :: TopicFlagged(s, cfg, k.rule, t) && t.name == k.name
  }

  /** The reported keys are exactly those of the flagged topics and groups. */
  lemma KeysAreFlagged(s: Snapshot, cm: CostModel, cfg: RuleConfig)
    requires DistinctTopics(s.topics)
    ensures forall k :: k in Keys(s, cm, cfg) <==> KeyFlagged(s, cfg, k)
  {
    hide Report, TopicFlagged, GroupFlagged, Context;
    forall k
      ensures k in Keys(s, cm, cfg) <==> KeyFlagged(s, cfg, k)
    {
      if k in Keys(s, cm, cfg) {
        var f :| f in Report([s], cm, cfg) && f.key == k;
        if f.rule == R2 {
          var g := GroupBehind(s, cm, cfg, f);
        } else {
          var t := TopicBehind(s, cm, cfg, f);
        }
      }
      if KeyFlagged(s, cfg, k) {
        if k.rule == R2 {
          var g :| GroupFlagged(s, cfg, g) && g.groupId == k.name;
          FlaggedGroupIsReported(s, cm, cfg, g);
          assert GroupFinding(g).key == k;
        } else {
          var t :| TopicFlagged(s, cfg, k.rule, t) && t.name == k.name;
          FlaggedTopicIsReported(s, cm, cfg, k.rule, t);
          assert TopicFinding(k.rule, Context(s, cm, cfg), t).key == k;
        }
      }
    }
  }
}
