/** Every cleanup ends, within a bound known beforehand, and all cleanups of a cluster
    end in the same place whatever order the fixes are applied in. */
module Convergence {
  import opened Seqs
  import opened Types
  import opened Cost
  import opened Rules
  import opened Detectors
  import opened Engine
  import opened Members
  import opened Cleanup

  /** One cleanup step: apply the fix of any reported finding that has one. */
  ghost predicate Step(cm: CostModel, cfg: RuleConfig, s: Snapshot, s': Snapshot) {
    exists f :: f in Report([s], cm, cfg) && f.rule != R7 && s' == Apply(f.fix, s)
  }

  ghost predicate IsRun(cm: CostModel, cfg: RuleConfig, run: seq<Snapshot>) {
    |run| > 0 && forall i :: 0 <= i < |run| - 1 ==> Step(cm, cfg, run[i], run[i + 1])
  }

  /** Nothing left but skew findings, which propose no change. */
  ghost predicate Settled(cm: CostModel, cfg: RuleConfig, s: Snapshot) {
    forall f :: f in Report([s], cm, cfg) ==> f.rule == R7
  }

  // ---- The end state, computed in one pass ----

  function StaysGroup(cfg: RuleConfig): ConsumerGrp -> bool {
    (g: ConsumerGrp) => !(On(cfg, R2) && R2Fires(cfg.thresholds.r2, g))
  }

  function StaysTopic(cfg: RuleConfig, groups: seq<ConsumerGrp>): Topic -> bool {
    (t: Topic) =>
      !(On(cfg, R1) && Flags(R1, cfg.thresholds, groups, t)) && !(On(cfg, R8) && Flags(R8, cfg.thresholds, groups, t))
  }

  predicate Due(cfg: RuleConfig, r: RuleId, t: Topic) {
    On(cfg, r) && Flags(r, cfg.thresholds, [], t)
  }

  function Tuned(cfg: RuleConfig): Topic -> Topic {
    (t: Topic) => t.(
      retentionMs := if Due(cfg, R3, t) then ProposedRetention(cfg.thresholds.r3, t) else t.retentionMs,
      partitions := if Due(cfg, R4, t) then ProposedPartitions(cfg.thresholds.r4, t) else t.partitions,
      compressionType := if Due(cfg, R5, t) then "zstd" else t.compressionType,
      replicationFactor := if Due(cfg, R6, t) then cfg.thresholds.r6.proposedRF else t.replicationFactor)
  }

  function FinalGroups(cfg: RuleConfig, s: Snapshot): seq<ConsumerGrp> {
    Filter(StaysGroup(cfg), s.groups)
  }

  function Cleaned(cfg: RuleConfig, s: Snapshot): Snapshot {
    var groups := FinalGroups(cfg, s);
    s.(groups := groups, topics := Map(Tuned(cfg), Filter(StaysTopic(cfg, groups), s.topics)))
  }

  // ---- A step does not change where the cleanup ends ----

  /** Only R8 looks at the groups. */
  lemma GroupsMatterToR8Only(r: RuleId, th: Thresholds, groups: seq<ConsumerGrp>, t: Topic)
    requires r != R8
    ensures Flags(r, th, groups, t) == Flags(r, th, [], t)
  {
    hide RateOf, R7Fires;
  }

  lemma FixedStillDue(cfg: RuleConfig, r: RuleId, q: RuleId, t: Topic)
    requires ConfigRule(r) && ConfigRule(q) && Due(cfg, r, t)
    ensures Due(cfg, q, Fixed(r, cfg.thresholds, t)) <==> q != r && Due(cfg, q, t)
  {
    FixSettlesRule(r, q, cfg.thresholds, [], t);
    hide Flags, Fixed;
  }

  lemma FixedIsTuned(cfg: RuleConfig, r: RuleId, t: Topic)
    requires ConfigRule(r) && Due(cfg, r, t)
    ensures Tuned(cfg)(Fixed(r, cfg.thresholds, t)) == Tuned(cfg)(t)
  {
    FixedStillDue(cfg, r, R3, t);
    FixedStillDue(cfg, r, R4, t);
    FixedStillDue(cfg, r, R5, t);
    FixedStillDue(cfg, r, R6, t);
    hide Due;
  }

  lemma FixedStays(cfg: RuleConfig, r: RuleId, groups: seq<ConsumerGrp>, t: Topic)
    requires ConfigRule(r) && Due(cfg, r, t)
    ensures StaysTopic(cfg, groups)(Fixed(r, cfg.thresholds, t)) == StaysTopic(cfg, groups)(t)
  {
    GroupsMatterToR8Only(r, cfg.thresholds, groups, t);
    FixSettlesRule(r, R1, cfg.thresholds, groups, t);
    FixSettlesRule(r, R8, cfg.thresholds, groups, t);
    hide Flags, Fixed;
  }

  lemma DueWhenFlagged(s: Snapshot, cfg: RuleConfig, r: RuleId, t: Topic)
    requires TopicFlagged(s, cfg, r, t) && r != R8
    ensures t in s.topics && Due(cfg, r, t)
  {
    GroupsMatterToR8Only(r, cfg.thresholds, s.groups, t);
    hide Flags;
  }

  lemma EditedEndsAlike(cfg: RuleConfig, s: Snapshot, r: RuleId, t0: Topic, groups: seq<ConsumerGrp>, t: Topic)
    requires DistinctTopics(s.topics) && TopicFlagged(s, cfg, r, t0) && ConfigRule(r) && t in s.topics
    ensures var edit := EditTopic(FixOf(r, cfg.thresholds, t0));
            && StaysTopic(cfg, groups)(edit(t)) == StaysTopic(cfg, groups)(t)
            && Tuned(cfg)(edit(t)) == Tuned(cfg)(t)
  {
    assert r != R8;
    hide *;
    DueWhenFlagged(s, cfg, r, t0);
    OnlyOneTopicEdited(s, r, cfg.thresholds, t0, t);
    FixedStays(cfg, r, groups, t0);
    FixedIsTuned(cfg, r, t0);
  }

  lemma ConfigStepKeepsEnd(cfg: RuleConfig, s: Snapshot, r: RuleId, t0: Topic)
    requires DistinctTopics(s.topics) && TopicFlagged(s, cfg, r, t0) && ConfigRule(r)
    ensures Cleaned(cfg, Apply(FixOf(r, cfg.thresholds, t0), s)) == Cleaned(cfg, s)
  {
    var edit, groups := EditTopic(FixOf(r, cfg.thresholds, t0)), FinalGroups(cfg, s);
    ConfigFixEdits(s, r, cfg.thresholds, t0);
    hide Apply, FixOf, EditTopic, TopicFlagged, StaysTopic, Tuned;
    forall t | t in s.topics
      ensures StaysTopic(cfg, groups)(edit(t)) == StaysTopic(cfg, groups)(t) && Tuned(cfg)(edit(t)) == Tuned(cfg)(t)
    {
      EditedEndsAlike(cfg, s, r, t0, groups, t);
    }
    RewritingUnseen(StaysTopic(cfg, groups), Tuned(cfg), edit, s.topics);
  }

  lemma RewritingUnseen(stays: Topic -> bool, tuned: Topic -> Topic, edit: Topic -> Topic, ts: seq<Topic>)
    requires forall t :: t in ts ==> stays(edit(t)) == stays(t) && tuned(edit(t)) == tuned(t)
    ensures Map(tuned, Filter(stays, Map(edit, ts))) == Map(tuned, Filter(stays, ts))
  {
    FilterOfMap(stays, stays, edit, ts);
    assert Map(tuned, Map(edit, Filter(stays, ts))) == Map(tuned, Filter(stays, ts));
  }

  lemma DeletedTopicDoesNotStay(cfg: RuleConfig, s: Snapshot, r: RuleId, t0: Topic)
    requires TopicFlagged(s, cfg, r, t0) && (r == R1 || r == R8)
    ensures !StaysTopic(cfg, FinalGroups(cfg, s))(t0)
  {
    var groups := FinalGroups(cfg, s);
    if r == R1 {
      GroupsMatterToR8Only(R1, cfg.thresholds, s.groups, t0);
      GroupsMatterToR8Only(R1, cfg.thresholds, groups, t0);
    } else if Owned(t0.name, groups) {
      FewerGroupsOwnLess(t0.name, s.groups, StaysGroup(cfg));
    }
    hide Owned, FirstSuffix;
  }

  lemma DeletionStepKeepsEnd(cfg: RuleConfig, s: Snapshot, r: RuleId, t0: Topic)
    requires DistinctTopics(s.topics) && TopicFlagged(s, cfg, r, t0) && (r == R1 || r == R8)
    ensures Cleaned(cfg, Apply(DeleteTopic(t0.name), s)) == Cleaned(cfg, s)
  {
    var stays := StaysTopic(cfg, FinalGroups(cfg, s));
    DeletedTopicDoesNotStay(cfg, s, r, t0);
    hide Flags, StaysTopic;
    forall t | t in s.topics
      ensures stays(t) == (stays(t) && NotTopic(t0.name)(t))
    {
      if t.name == t0.name {
        SameNameSameTopic(s, t, t0);
      }
    }
    FilterBoth(stays, NotTopic(t0.name), stays, s.topics);
  }

  lemma GroupStepKeepsEnd(cfg: RuleConfig, s: Snapshot, g0: ConsumerGrp)
    requires DistinctGroups(s.groups) && GroupFlagged(s, cfg, g0)
    ensures Cleaned(cfg, Apply(DeleteGroup(g0.groupId), s)) == Cleaned(cfg, s)
  {
    var stays := StaysGroup(cfg);
    forall g | g in s.groups
      ensures stays(g) == (stays(g) && NotGroup(g0.groupId)(g))
    {
      if g.groupId == g0.groupId {
        SameIdSameGroup(s, g, g0);
      }
    }
    FilterBoth(stays, NotGroup(g0.groupId), stays, s.groups);
  }

  lemma StepKeepsEnd(cm: CostModel, cfg: RuleConfig, s: Snapshot, f: Finding)
    requires Distinct(s) && f in Report([s], cm, cfg) && f.rule != R7
    ensures Cleaned(cfg, Apply(f.fix, s)) == Cleaned(cfg, s)
  {
    hide Report, Cleaned, Apply, TopicFlagged, GroupFlagged;
    if f.rule == R2 {
      var g0 := GroupBehind(s, cm, cfg, f);
      GroupStepKeepsEnd(cfg, s, g0);
    } else {
      var t0 := TopicBehind(s, cm, cfg, f);
      if ConfigRule(f.rule) {
        ConfigStepKeepsEnd(cfg, s, f.rule, t0);
      } else {
        DeletionStepKeepsEnd(cfg, s, f.rule, t0);
      }
    }
  }

  // ---- Settled clusters are exactly the fixed points ----

  lemma NothingDueNothingTuned(cfg: RuleConfig, t: Topic)
    ensures Tuned(cfg)(t) == t <==> !Due(cfg, R3, t) && !Due(cfg, R4, t) && !Due(cfg, R5, t) && !Due(cfg, R6, t)
  {
  }

  lemma NotFlaggedWhenSettled(cm: CostModel, cfg: RuleConfig, s: Snapshot, r: RuleId, t: Topic)
    requires Distinct(s) && Settled(cm, cfg, s) && r != R7
    ensures !TopicFlagged(s, cfg, r, t)
  {
    hide Report, Flags;
    if TopicFlagged(s, cfg, r, t) {
      FlaggedTopicIsReported(s, cm, cfg, r, t);
    }
  }

  lemma SettledTopic(cm: CostModel, cfg: RuleConfig, s: Snapshot, t: Topic)
    requires Distinct(s) && Settled(cm, cfg, s) && t in s.topics
    ensures StaysTopic(cfg, s.groups)(t) && Tuned(cfg)(t) == t
  {
    NothingDueNothingTuned(cfg, t);
    hide Flags, Tuned, Settled;
    forall r | r != R7
      ensures !TopicFlagged(s, cfg, r, t)
      ensures r != R8 ==> Flags(r, cfg.thresholds, s.groups, t) == Flags(r, cfg.thresholds, [], t)
    {
      NotFlaggedWhenSettled(cm, cfg, s, r, t);
      if r != R8 {
        GroupsMatterToR8Only(r, cfg.thresholds, s.groups, t);
      }
    }
    assert !TopicFlagged(s, cfg, R1, t) && !TopicFlagged(s, cfg, R8, t);
    assert !TopicFlagged(s, cfg, R3, t) && !TopicFlagged(s, cfg, R4, t);
    assert !TopicFlagged(s, cfg, R5, t) && !TopicFlagged(s, cfg, R6, t);
  }

  lemma SettledIsFixed(cm: CostModel, cfg: RuleConfig, s: Snapshot)
    requires Distinct(s) && Settled(cm, cfg, s)
    ensures Cleaned(cfg, s) == s
  {
    hide Report, Tuned, StaysTopic;
    forall g | g in s.groups
      ensures StaysGroup(cfg)(g)
    {
      if GroupFlagged(s, cfg, g) {
        FlaggedGroupIsReported(s, cm, cfg, g);
      }
    }
    FilterAll(StaysGroup(cfg), s.groups);
    forall t | t in s.topics
      ensures StaysTopic(cfg, s.groups)(t) && Tuned(cfg)(t) == t
    {
      SettledTopic(cm, cfg, s, t);
    }
    FilterAll(StaysTopic(cfg, s.groups), s.topics);
    assert Map(Tuned(cfg), s.topics) == s.topics;
  }

  // ---- The measure ----

  function One(b: bool): int { if b then 1 else 0 }

  function Weight(cfg: RuleConfig): Topic -> int {
    (t: Topic) => 1 + One(Due(cfg, R3, t)) + One(Due(cfg, R4, t)) + One(Due(cfg, R5, t)) + One(Due(cfg, R6, t))
  }

  /** Groups, plus topics, plus configuration fixes outstanding. Deleting a group may orphan topics
      and so add findings, but those only remove topics already counted. */
  function Measure(cfg: RuleConfig, s: Snapshot): int {
    |s.groups| + SumI(Weight(cfg), s.topics)
  }

  lemma MeasureBound(cfg: RuleConfig, s: Snapshot)
    ensures 0 <= Measure(cfg, s) <= 5 * |s.topics| + |s.groups|
  {
    SumAtMost(Weight(cfg), 5, s.topics);
    var none := (t: Topic) => 0;
    SumILe(none, Weight(cfg), s.topics);
    SumOfZero(none, s.topics);
  }

  lemma {:induction false} SumOfZero(f: Topic -> int, ts: seq<Topic>)
    requires forall t :: f(t) == 0
    ensures SumI(f, ts) == 0
  {
    if ts != [] {
      SumOfZero(f, ts[..|ts| - 1]);
    }
  }

  lemma FixedWeighsLess(cfg: RuleConfig, r: RuleId, t: Topic)
    requires ConfigRule(r) && Due(cfg, r, t)
    ensures Weight(cfg)(Fixed(r, cfg.thresholds, t)) == Weight(cfg)(t) - 1
  {
    FixedStillDue(cfg, r, R3, t);
    FixedStillDue(cfg, r, R4, t);
    FixedStillDue(cfg, r, R5, t);
    FixedStillDue(cfg, r, R6, t);
    hide Due, Fixed;
  }

  lemma ConfigStepDecreases(cfg: RuleConfig, s: Snapshot, r: RuleId, t0: Topic)
    requires DistinctTopics(s.topics) && TopicFlagged(s, cfg, r, t0) && ConfigRule(r)
    ensures Measure(cfg, Apply(FixOf(r, cfg.thresholds, t0), s)) < Measure(cfg, s)
  {
    var edit, weight := EditTopic(FixOf(r, cfg.thresholds, t0)), Weight(cfg);
    assert Apply(FixOf(r, cfg.thresholds, t0), s).topics == Map(edit, s.topics);
    GroupsMatterToR8Only(r, cfg.thresholds, s.groups, t0);
    FixedWeighsLess(cfg, r, t0);
    hide Flags, Weight;
    forall t | t in s.topics
      ensures weight(edit(t)) <= weight(t)
    {
      OnlyOneTopicEdited(s, r, cfg.thresholds, t0, t);
    }
    OnlyOneTopicEdited(s, r, cfg.thresholds, t0, t0);
    SumOfMap(weight, edit, s.topics);
  }

  lemma StepDecreases(cm: CostModel, cfg: RuleConfig, s: Snapshot, f: Finding)
    requires Distinct(s) && f in Report([s], cm, cfg) && f.rule != R7
    ensures Measure(cfg, Apply(f.fix, s)) < Measure(cfg, s)
  {
    hide Report, Flags;
    if f.rule == R2 {
      var g0 := GroupBehind(s, cm, cfg, f);
      FilterIsShorter(NotGroup(g0.groupId), s.groups, g0);
    } else {
      var t0 := TopicBehind(s, cm, cfg, f);
      if ConfigRule(f.rule) {
        hide Measure, Apply;
        ConfigStepDecreases(cfg, s, f.rule, t0);
      } else {
        assert f.fix == DeleteTopic(t0.name) && !NotTopic(t0.name)(t0);
        SumOfFilter(Weight(cfg), NotTopic(t0.name), s.topics);
      }
    }
  }

  // ---- Runs ----

  /** No run is longer than five steps per topic and one per group, and no run strays:
      every snapshot on it has the same end state. */
  lemma {:induction false} RunsTerminate(cm: CostModel, cfg: RuleConfig, run: seq<Snapshot>)
    requires IsRun(cm, cfg, run) && Distinct(run[0])
    ensures Distinct(run[|run| - 1])
    ensures |run| - 1 <= Measure(cfg, run[0]) - Measure(cfg, run[|run| - 1])
    ensures |run| - 1 <= 5 * |run[0].topics| + |run[0].groups|
    ensures Cleaned(cfg, run[|run| - 1]) == Cleaned(cfg, run[0])
    decreases |run|
  {
    hide Report, Cleaned, Apply, Measure;
    MeasureBound(cfg, run[0]);
    MeasureBound(cfg, run[|run| - 1]);
    if |run| > 1 {
      assert Step(cm, cfg, run[0], run[1]);
      var f :| f in Report([run[0]], cm, cfg) && f.rule != R7 && run[1] == Apply(f.fix, run[0]);
      ApplyKeepsDistinct(f.fix, run[0]);
      StepKeepsEnd(cm, cfg, run[0], f);
      StepDecreases(cm, cfg, run[0], f);
      RunsTerminate(cm, cfg, run[1..]);
    }
  }

  /** Confluence: a run that can go no further has reached the computed end state, so any two
      complete cleanups of one cluster agree. */
  lemma CleanupIsConfluent(cm: CostModel, cfg: RuleConfig, run: seq<Snapshot>)
    requires IsRun(cm, cfg, run) && Distinct(run[0]) && Settled(cm, cfg, run[|run| - 1])
    ensures run[|run| - 1] == Cleaned(cfg, run[0])
  {
    hide Cleaned, Settled;
    RunsTerminate(cm, cfg, run);
    SettledIsFixed(cm, cfg, run[|run| - 1]);
  }

  /** A complete cleanup exists from every cluster; its end has nothing but R7 findings. */
  lemma {:induction false} CleanupCompletes(cm: CostModel, cfg: RuleConfig, s: Snapshot)
    returns (run: seq<Snapshot>)
    requires Distinct(s)
    ensures IsRun(cm, cfg, run) && run[0] == s && run[|run| - 1] == Cleaned(cfg, s)
    ensures Settled(cm, cfg, Cleaned(cfg, s))
    decreases Measure(cfg, s)
  {
    hide Report, Cleaned, Apply, Measure;
    MeasureBound(cfg, s);
    if Settled(cm, cfg, s) {
      SettledIsFixed(cm, cfg, s);
      run := [s];
    } else {
      var f :| f in Report([s], cm, cfg) && f.rule != R7;
      var s' := Apply(f.fix, s);
      ApplyKeepsDistinct(f.fix, s);
      StepKeepsEnd(cm, cfg, s, f);
      StepDecreases(cm, cfg, s, f);
      MeasureBound(cfg, s');
      var rest := CleanupCompletes(cm, cfg, s');
      assert Step(cm, cfg, s, s');
      run := [s] + rest;
    }
  }

  /** A cluster is settled exactly when cleaning it changes nothing. */
  lemma SettledIffFixed(cm: CostModel, cfg: RuleConfig, s: Snapshot)
    requires Distinct(s)
    ensures Settled(cm, cfg, s) <==> Cleaned(cfg, s) == s
  {
    if Settled(cm, cfg, s) {
      SettledIsFixed(cm, cfg, s);
    } else if Cleaned(cfg, s) == s {
      var run := CleanupCompletes(cm, cfg, s);
    }
  }
}
