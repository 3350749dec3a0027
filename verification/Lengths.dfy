/** How long a cleanup can be: the step bound is met exactly, and under the defaults it cannot be improved. */
module Lengths {
  import opened Seqs
  import opened Types
  import opened Cost
  import opened Rules
  import opened Detectors
  import opened Engine
  import opened Members
  import opened Cleanup
  import opened Convergence

  // ---- Sums in which one topic changes ----

  lemma {:induction false} SumWithoutName(f: Topic -> int, h: Topic -> int, name: string, ts: seq<Topic>)
    requires forall t :: t in ts ==> t.name != name && h(t) == f(t)
    ensures SumI(h, ts) == SumI(f, ts)
  {
    if ts != [] {
      assert ts[|ts| - 1] in ts;
      SumWithoutName(f, h, name, ts[..|ts| - 1]);
    }
  }

  /** h is f except on the one topic t0. */
  lemma {:induction false} SumLess(f: Topic -> int, h: Topic -> int, t0: Topic, ts: seq<Topic>)
    requires DistinctTopics(ts) && t0 in ts
    requires forall t :: t in ts && t.name != t0.name ==> h(t) == f(t)
    ensures SumI(h, ts) == SumI(f, ts) - f(t0) + h(t0)
  {
    var init, last := ts[..|ts| - 1], ts[|ts| - 1];
    assert ts == init + [last] && last in ts;
    if last == t0 {
      SumWithoutName(f, h, t0.name, init);
    } else {
      assert t0 in init;
      var i :| 0 <= i < |init| && init[i] == t0;
      assert ts[i] == t0 && ts[|ts| - 1] == last;
      SumLess(f, h, t0, init);
    }
  }

  function IfKept(keep: Topic -> bool, f: Topic -> int): Topic -> int {
    (t: Topic) => if keep(t) then f(t) else 0
  }

  lemma {:induction false} SumOfKept(f: Topic -> int, keep: Topic -> bool, ts: seq<Topic>)
    ensures SumI(f, Filter(keep, ts)) == SumI(IfKept(keep, f), ts)
  {
    if ts != [] {
      var init, last := ts[..|ts| - 1], ts[|ts| - 1];
      assert ts == init + [last];
      SumOfKept(f, keep, init);
      FilterSnoc(keep, init, last);
      SumISnoc(f, Filter(keep, init), last);
      SumISnoc(IfKept(keep, f), init, last);
      assert IfKept(keep, f)(last) == if keep(last) then f(last) else 0;
      hide *;
    }
  }

  lemma {:induction false} OneGroupLess(g0: ConsumerGrp, gs: seq<ConsumerGrp>)
    requires DistinctGroups(gs) && g0 in gs
    ensures |Filter(NotGroup(g0.groupId), gs)| == |gs| - 1
  {
    var keep, init, last := NotGroup(g0.groupId), gs[..|gs| - 1], gs[|gs| - 1];
    assert gs == init + [last];
    FilterSnoc(keep, init, last);
    forall g | g in init
      ensures g.groupId != last.groupId
    {
      var i :| 0 <= i < |init| && init[i] == g;
      assert gs[i] == g && gs[|gs| - 1] == last;
    }
    hide Filter;
    if last == g0 {
      FilterAll(keep, init);
    } else {
      assert g0 in init;
      OneGroupLess(g0, init);
    }
  }

  // ---- Steps of one ----

  lemma ConfigStepIsOne(cfg: RuleConfig, s: Snapshot, r: RuleId, t0: Topic)
    requires DistinctTopics(s.topics) && TopicFlagged(s, cfg, r, t0) && ConfigRule(r)
    ensures Measure(cfg, Apply(FixOf(r, cfg.thresholds, t0), s)) == Measure(cfg, s) - 1
  {
    var edit, weight := EditTopic(FixOf(r, cfg.thresholds, t0)), Weight(cfg);
    ConfigFixEdits(s, r, cfg.thresholds, t0);
    DueWhenFlagged(s, cfg, r, t0);
    FixedWeighsLess(cfg, r, t0);
    hide Flags, Due, Weight, EditTopic, Apply, FixOf, TopicFlagged;
    var h := (t: Topic) => weight(edit(t));
    forall t | t in s.topics
      ensures t != t0 ==> h(t) == weight(t)
      ensures h(t0) == weight(t0) - 1
    {
      OnlyOneTopicEdited(s, r, cfg.thresholds, t0, t);
      OnlyOneTopicEdited(s, r, cfg.thresholds, t0, t0);
    }
    SumIOfMap(weight, edit, h, s.topics);
    SumLess(weight, h, t0, s.topics);
  }

  lemma DeletionStepIs(cfg: RuleConfig, s: Snapshot, t0: Topic)
    requires DistinctTopics(s.topics) && t0 in s.topics
    ensures Measure(cfg, Apply(DeleteTopic(t0.name), s)) == Measure(cfg, s) - Weight(cfg)(t0)
  {
    var keep, weight := NotTopic(t0.name), Weight(cfg);
    hide Weight;
    SumOfKept(weight, keep, s.topics);
    SumLess(weight, IfKept(keep, weight), t0, s.topics);
  }

  lemma GroupStepIsOne(cfg: RuleConfig, s: Snapshot, g0: ConsumerGrp)
    requires DistinctGroups(s.groups) && g0 in s.groups
    ensures Measure(cfg, Apply(DeleteGroup(g0.groupId), s)) == Measure(cfg, s) - 1
  {
    hide Weight, SumI;
    OneGroupLess(g0, s.groups);
  }

  /** No configuration fix is left to apply. */
  ghost predicate Configured(cm: CostModel, cfg: RuleConfig, s: Snapshot) {
    forall f :: f in Report([s], cm, cfg) ==> !ConfigRule(f.rule)
  }

  lemma DueIsReported(cm: CostModel, cfg: RuleConfig, s: Snapshot, r: RuleId, t: Topic)
    requires Distinct(s) && t in s.topics && ConfigRule(r) && Due(cfg, r, t)
    ensures !Configured(cm, cfg, s)
  {
    GroupsMatterToR8Only(r, cfg.thresholds, s.groups, t);
    hide Flags, Report, Resolve, FixOf, SeverityOf, ExactSaving;
    FlaggedTopicIsReported(s, cm, cfg, r, t);
    assert TopicFinding(r, Context(s, cm, cfg), t).rule == r;
  }

  lemma ConfiguredWeighsOne(cm: CostModel, cfg: RuleConfig, s: Snapshot, t: Topic)
    requires Distinct(s) && Configured(cm, cfg, s) && t in s.topics
    ensures Weight(cfg)(t) == 1
  {
    hide Due, Configured;
    forall r | ConfigRule(r)
      ensures !Due(cfg, r, t)
    {
      if Due(cfg, r, t) {
        DueIsReported(cm, cfg, s, r, t);
      }
    }
  }

  /** A configuration fix, or, when none is left, any fix: either lowers the measure by exactly one. */
  lemma StepIsOne(cm: CostModel, cfg: RuleConfig, s: Snapshot, f: Finding)
    requires Distinct(s) && f in Report([s], cm, cfg) && f.rule != R7
    requires ConfigRule(f.rule) || Configured(cm, cfg, s)
    ensures Measure(cfg, Apply(f.fix, s)) == Measure(cfg, s) - 1
  {
    hide Report, Measure, Apply, Weight, Flags, Configured;
    if f.rule == R2 {
      var g0 := GroupBehind(s, cm, cfg, f);
      GroupStepIsOne(cfg, s, g0);
    } else {
      var t0 := TopicBehind(s, cm, cfg, f);
      if ConfigRule(f.rule) {
        ConfigStepIsOne(cfg, s, f.rule, t0);
      } else {
        ConfiguredWeighsOne(cm, cfg, s, t0);
        DeletionStepIs(cfg, s, t0);
      }
    }
  }

  /** Configuration fixes first, deletions after: a complete cleanup with as many steps as the measure drops, and
      by RunsTerminate no run has more. */
  lemma {:induction false} LongestCleanup(cm: CostModel, cfg: RuleConfig, s: Snapshot)
    returns (run: seq<Snapshot>)
    requires Distinct(s)
    ensures IsRun(cm, cfg, run) && run[0] == s && run[|run| - 1] == Cleaned(cfg, s)
    ensures |run| - 1 == Measure(cfg, s) - Measure(cfg, Cleaned(cfg, s))
    decreases Measure(cfg, s)
  {
    hide Report, Cleaned, Apply, Measure;
    MeasureBound(cfg, s);
    if Settled(cm, cfg, s) {
      SettledIsFixed(cm, cfg, s);
      run := [s];
    } else {
      var f := NextFix(cm, cfg, s);
      var s' := Apply(f.fix, s);
      ApplyKeepsDistinct(f.fix, s);
      StepKeepsEnd(cm, cfg, s, f);
      StepIsOne(cm, cfg, s, f);
      MeasureBound(cfg, s');
      var rest := LongestCleanup(cm, cfg, s');
      assert Step(cm, cfg, s, s');
      run := [s] + rest;
    }
  }

  lemma NextFix(cm: CostModel, cfg: RuleConfig, s: Snapshot) returns (f: Finding)
    requires !Settled(cm, cfg, s)
    ensures f in Report([s], cm, cfg) && f.rule != R7 && (ConfigRule(f.rule) || Configured(cm, cfg, s))
  {
    hide Report;
    if Configured(cm, cfg, s) {
      f :| f in Report([s], cm, cfg) && f.rule != R7;
    } else {
      f :| f in Report([s], cm, cfg) && ConfigRule(f.rule);
    }
  }

  // ---- The bound is attained ----

  function Xs(k: nat): string { seq(k, i => 'x') }

  function WorstName(k: nat): string { "dev." + Xs(k) + "-changelog" }

  /** An unowned changelog that every configuration rule flags: a terabyte that is kept for ever, uncompressed,
      over-partitioned and over-replicated. R6's default name pattern matches the leading "dev." of its name. */
  function Worst(k: nat): Topic {
    Topic(WorstName(k), 2048, 3, -1, "none", "compact", 1000000000000, 1048576.0, 0.0, "metrics", [], 0, 0, 0, 0)
  }

  function Zombie(k: nat): ConsumerGrp { ConsumerGrp("g" + Xs(k), "empty", 30) }

  function WorstCluster(topics: nat, groups: nat): Snapshot {
    Snapshot(ClusterInfo("demo", "self"), seq(topics, k requires 0 <= k => Worst(k)),
             seq(groups, k requires 0 <= k => Zombie(k)), [])
  }

  lemma WorstIsDistinct(topics: nat, groups: nat)
    ensures Distinct(WorstCluster(topics, groups))
  {
    forall i: nat, j: nat | i < j
      ensures WorstName(i) != WorstName(j) && Zombie(i).groupId != Zombie(j).groupId
    {
      assert |WorstName(i)| < |WorstName(j)| && |"g" + Xs(i)| < |"g" + Xs(j)|;
    }
  }

  lemma WorstIsFlagged(k: nat, nonProd: string -> bool)
    requires nonProd(WorstName(k))
    ensures var th, t := DefaultThresholds(nonProd), Worst(k);
            Flags(R3, th, [], t) && Flags(R4, th, [], t) && Flags(R5, th, [], t) && Flags(R6, th, [], t)
  {
    var th, t := DefaultThresholds(nonProd), Worst(k);
    assert RateOf([t], t.name) == 1048576.0;
    assert ProposedRetention(th.r3, t) == DAY_MS;
    assert ProjectedBytes(th.r3, 1048576.0, t) < 1000000000000.0;
    assert R3Fires(th.r3, 1048576.0, t);
    assert PerPartitionRate(t) == 512.0 && ProposedPartitions(th.r4, t) == 12;
  }

  lemma WorstIsDeleted(k: nat, nonProd: string -> bool)
    ensures Flags(R8, DefaultThresholds(nonProd), [], Worst(k))
  {
    var name := WorstName(k);
    assert name[|name| - |"-changelog"|..] == "-changelog";
    assert HasSuffix(name, STREAMS_SUFFIXES[0]);
    assert STREAMS_SUFFIXES[0] == "-changelog" != "";
    assert FirstSuffix(name, STREAMS_SUFFIXES) == "-changelog";
  }

  lemma {:induction false} SumOfSame(f: Topic -> int, c: int, ts: seq<Topic>)
    requires forall t :: t in ts ==> f(t) == c
    ensures SumI(f, ts) == c * |ts|
  {
    if ts != [] {
      assert ts[|ts| - 1] in ts;
      SumOfSame(f, c, ts[..|ts| - 1]);
    }
  }

  lemma WorstMeasures(topics: nat, groups: nat, nonProd: string -> bool)
    requires forall k: nat :: nonProd(WorstName(k))
    ensures Measure(RuleConfig({}, DefaultThresholds(nonProd)), WorstCluster(topics, groups)) == 5 * topics + groups
  {
    var cfg, s := RuleConfig({}, DefaultThresholds(nonProd)), WorstCluster(topics, groups);
    forall t | t in s.topics
      ensures Weight(cfg)(t) == 5
    {
      var k: nat :| k < topics && s.topics[k] == t;
      WorstIsFlagged(k, nonProd);
      hide Flags, Worst;
    }
    hide Weight, Worst;
    SumOfSame(Weight(cfg), 5, s.topics);
  }

  lemma NothingRemains(topics: nat, groups: nat, nonProd: string -> bool)
    ensures var end := Cleaned(RuleConfig({}, DefaultThresholds(nonProd)), WorstCluster(topics, groups));
            end.topics == [] && end.groups == []
  {
    var cfg, s := RuleConfig({}, DefaultThresholds(nonProd)), WorstCluster(topics, groups);
    forall g | g in s.groups
      ensures !StaysGroup(cfg)(g)
    {
    }
    FilterNone(StaysGroup(cfg), s.groups);
    forall t | t in s.topics
      ensures !StaysTopic(cfg, [])(t)
    {
      var k: nat :| k < topics && s.topics[k] == t;
      WorstIsDeleted(k, nonProd);
      hide Flags, Worst;
    }
    hide StaysTopic, Tuned, Worst;
    FilterNone(StaysTopic(cfg, []), s.topics);
  }

  /** Under the defaults there is, for any number of topics and groups, a cluster with a cleanup of five steps a
      topic and one a group. */
  lemma StepBoundIsAttained(topics: nat, groups: nat, cm: CostModel, nonProd: string -> bool)
    returns (run: seq<Snapshot>)
    requires forall k: nat :: nonProd(WorstName(k))
    ensures IsRun(cm, RuleConfig({}, DefaultThresholds(nonProd)), run) && Distinct(run[0])
    ensures |run[0].topics| == topics && |run[0].groups| == groups
    ensures |run| - 1 == 5 * topics + groups
  {
    hide Cleaned, IsRun, Worst;
    var cfg, s := RuleConfig({}, DefaultThresholds(nonProd)), WorstCluster(topics, groups);
    WorstIsDistinct(topics, groups);
    run := LongestCleanup(cm, cfg, s);
    WorstMeasures(topics, groups, nonProd);
    NothingRemains(topics, groups, nonProd);
    assert Measure(cfg, Cleaned(cfg, s)) == 0;
  }
}
