/** The report does not depend on the order in which a snapshot lists its topics. */
module Invariance {
  import opened Seqs
  import opened Types
  import opened Cost
  import opened Rules
  import opened Detectors
  import opened Engine
  import opened Sorting

  lemma {:induction false} RateOfDistinct(ts: seq<Topic>, t: Topic)
    requires DistinctTopics(ts) && t in ts
    ensures RateOf(ts, t.name) == t.bytesInPerSec
  {
    if ts[0].name != t.name {
      assert ts == [ts[0]] + ts[1..];
      RateOfDistinct(ts[1..], t);
    } else {
      var i :| 0 <= i < |ts| && ts[i] == t;
      assert i == 0;
    }
  }

  function NameOf(t: Topic): string { t.name }

  lemma DistinctIsOrderFree(a: seq<Topic>, b: seq<Topic>)
    requires multiset(a) == multiset(b) && DistinctTopics(a)
    ensures DistinctTopics(b)
  {
    MapPermutation(NameOf, a, b);
    assert NoDup(Map(NameOf, a));
    NoDupPermutation(Map(NameOf, a), Map(NameOf, b));
    forall i, j | 0 <= i < j < |b|
      ensures b[i].name != b[j].name
    {
      assert Map(NameOf, b)[i] != Map(NameOf, b)[j];
    }
  }

  lemma {:induction false} OverTopicsAppend(r: RuleId, ctx: Ctx, a: seq<Topic>, b: seq<Topic>)
    ensures OverTopics(r, ctx, a + b) == OverTopics(r, ctx, a) + OverTopics(r, ctx, b)
    decreases b
  {
    hide FiresIn, TopicFinding;
    if b == [] {
      assert a + b == a;
    } else {
      assert (a + b)[..|a + b| - 1] == a + b[..|b| - 1];
      OverTopicsAppend(r, ctx, a, b[..|b| - 1]);
    }
  }

  /** Two contexts that judge every listed topic alike. */
  ghost predicate Agree(r: RuleId, c: Ctx, d: Ctx, ts: seq<Topic>) {
    forall t :: t in ts ==> FiresIn(r, c, t) == FiresIn(r, d, t) && TopicFinding(r, c, t) == TopicFinding(r, d, t)
  }

  lemma {:induction false} OverPermutedTopics(r: RuleId, c: Ctx, d: Ctx, a: seq<Topic>, b: seq<Topic>)
    requires multiset(a) == multiset(b) && Agree(r, c, d, a)
    ensures multiset(OverTopics(r, c, a)) == multiset(OverTopics(r, d, b))
    decreases |a|
  {
    if a == [] {
      assert |multiset(b)| == 0;
    } else {
      hide OverTopics, Agree;
      var k := LastInPermutation(a, b);
      var init, last, pre, post := a[..|a| - 1], a[|a| - 1], b[..k], b[k + 1..];
      AgreeOnFewer(r, c, d, a, init);
      OverPermutedTopics(r, c, d, init, pre + post);
      OneTopicTakenOut(r, d, pre, last, post);
      assert a == init + [last];
      OverTopicsAppend(r, c, init, [last]);
      OneTopicAlike(r, c, d, a, last);
    }
  }

  lemma AgreeOnFewer(r: RuleId, c: Ctx, d: Ctx, ts: seq<Topic>, fewer: seq<Topic>)
    requires Agree(r, c, d, ts) && fewer <= ts
    ensures Agree(r, c, d, fewer)
  {
  }

  lemma OneTopicTakenOut(r: RuleId, d: Ctx, pre: seq<Topic>, x: Topic, post: seq<Topic>)
    ensures multiset(OverTopics(r, d, pre + [x] + post))
            == multiset(OverTopics(r, d, pre + post)) + multiset(OverTopics(r, d, [x]))
  {
    OverTopicsAppend(r, d, pre, post);
    OverTopicsAppend(r, d, pre, [x]);
    OverTopicsAppend(r, d, pre + [x], post);
    hide OverTopics;
  }

  lemma OneTopicAlike(r: RuleId, c: Ctx, d: Ctx, ts: seq<Topic>, x: Topic)
    requires Agree(r, c, d, ts) && x in ts
    ensures OverTopics(r, c, [x]) == OverTopics(r, d, [x])
  {
    hide FiresIn, TopicFinding;
    assert OverTopics(r, c, []) == [] == OverTopics(r, d, []);
    assert [x][..0] == [];
  }

  /** The same cluster with its topics listed in another order. */
  ghost predicate Reordered(s: Snapshot, s': Snapshot) {
    multiset(s.topics) == multiset(s'.topics) && s' == s.(topics := s'.topics)
  }

  lemma ReorderedContextsAgree(r: RuleId, s: Snapshot, s': Snapshot, cm: CostModel, cfg: RuleConfig)
    requires Reordered(s, s') && DistinctTopics(s.topics)
    ensures Context(s', cm, cfg).prices == Context(s, cm, cfg).prices
    ensures Agree(r, Context(s, cm, cfg), Context(s', cm, cfg), s.topics)
  {
    hide Resolve;
    var c, d := Context(s, cm, cfg), Context(s', cm, cfg);
    SumIPermutation(TopicBytes, s.topics, s'.topics);
    SumIPermutation(TopicPartitions, s.topics, s'.topics);
    SumRPermutation(TopicGB, s.topics, s'.topics);
    assert PartitionPrice(c) == PartitionPrice(d);
    hide PartitionPrice;
    DistinctIsOrderFree(s.topics, s'.topics);
    forall t | t in s.topics
      ensures FiresIn(r, c, t) == FiresIn(r, d, t) && TopicFinding(r, c, t) == TopicFinding(r, d, t)
    {
      assert t in multiset(s'.topics);
      RateOfDistinct(s.topics, t);
      RateOfDistinct(s'.topics, t);
      SameCharge(r, c, d, t, t);
    }
  }

  /** A verdict depends on the rest of the cluster through these figures only, and not on the earliest offset. */
  lemma SameCharge(r: RuleId, c: Ctx, d: Ctx, a: Topic, b: Topic)
    requires c.prices == d.prices && c.th == d.th && (r == R8 ==> c.snap.groups == d.snap.groups)
    requires RateOf(c.snap.topics, a.name) == RateOf(d.snap.topics, b.name)
    requires r == R4 ==> PartitionPrice(c) == PartitionPrice(d)
    requires b == a.(earliestOffset := b.earliestOffset)
    ensures FiresIn(r, d, b) == FiresIn(r, c, a) && TopicFinding(r, d, b) == TopicFinding(r, c, a)
  {
    hide PartitionPrice, RateOf, StableSort, Owned, FirstSuffix;
    assert ExactSaving(r, c, a) == ExactSaving(r, d, b);
  }

  lemma {:induction false} CollectedOfReordered(s: Snapshot, s': Snapshot, cm: CostModel, cfg: RuleConfig,
                                                rules: seq<Rule>)
    requires Reordered(s, s') && DistinctTopics(s.topics)
    ensures multiset(Collected(Context(s, cm, cfg), cfg, true, rules))
            == multiset(Collected(Context(s', cm, cfg), cfg, true, rules))
  {
    hide Context, OverTopics, Agree;
    if rules != [] {
      var r := rules[|rules| - 1];
      CollectedOfReordered(s, s', cm, cfg, rules[..|rules| - 1]);
      PieceOfReordered(s, s', cm, cfg, r);
    }
  }

  lemma PieceOfReordered(s: Snapshot, s': Snapshot, cm: CostModel, cfg: RuleConfig, r: Rule)
    requires Reordered(s, s') && DistinctTopics(s.topics)
    ensures multiset(Piece(Context(s, cm, cfg), cfg, true, r)) == multiset(Piece(Context(s', cm, cfg), cfg, true, r))
  {
    hide Agree;
    var c, d := Context(s, cm, cfg), Context(s', cm, cfg);
    ReorderedContextsAgree(r.id, s, s', cm, cfg);
    OverPermutedTopics(r.id, c, d, s.topics, s'.topics);
    SameGroupFindings(c, d, s.groups);
  }

  lemma {:induction false} SameGroupFindings(c: Ctx, d: Ctx, gs: seq<ConsumerGrp>)
    requires c.th == d.th
    ensures OverGroups(c, gs) == OverGroups(d, gs)
  {
    if gs != [] {
      SameGroupFindings(c, d, gs[..|gs| - 1]);
    }
  }

  /** A report line as the ranking sees it. */
  datatype Line = Line(saving: real, rule: RuleId)

  function LineOf(f: Finding): Line { Line(f.saving, f.rule) }

  predicate LineBefore(a: Line, b: Line) {
    if a.saving != b.saving then a.saving > b.saving else a.rule.Rank() < b.rule.Rank()
  }

  lemma LinesSorted(out: seq<Finding>)
    requires Sorted(RanksBefore, out)
    ensures Sorted(LineBefore, Map(LineOf, out))
  {
    forall i, j | 0 <= i < j < |out|
      ensures !LineBefore(LineOf(out[j]), LineOf(out[i]))
    {
      assert !RanksBefore(out[j], out[i]);
    }
  }

  /** Relisting the topics leaves the findings, the total and the sequence of (saving, rule)
      lines as they were; only findings that tie on both may swap. */
  lemma TopicOrderIrrelevant(past: seq<Snapshot>, s: Snapshot, s': Snapshot, cm: CostModel, cfg: RuleConfig)
    requires Reordered(s, s') && DistinctTopics(s.topics)
    ensures var out, out' := Report(past + [s], cm, cfg), Report(past + [s'], cm, cfg);
            && multiset(out) == multiset(out')
            && SumR(Saving, out) == SumR(Saving, out')
            && Map(LineOf, out) == Map(LineOf, out')
  {
    hide Collected, StableSort, Context;
    OnlyLatestMatters(past + [s], cm, cfg);
    OnlyLatestMatters(past + [s'], cm, cfg);
    CollectedOfReordered(s, s', cm, cfg, REGISTRY);
    RankingOrders();
    var raw, raw' := Unranked([s], cm, cfg), Unranked([s'], cm, cfg);
    var out, out' := Report([s], cm, cfg), Report([s'], cm, cfg);
    SortPermutes(RanksBefore, raw);
    SortPermutes(RanksBefore, raw');
    StableSortCorrect(RanksBefore, raw);
    StableSortCorrect(RanksBefore, raw');
    SumRPermutation(Saving, out, out');
    MapPermutation(LineOf, out, out');
    LinesSorted(out);
    LinesSorted(out');
    LinesTieOnlyWhenEqual();
    SortedPermutationsAgree(LineBefore, Map(LineOf, out), Map(LineOf, out'));
  }

  lemma LinesTieOnlyWhenEqual()
    ensures forall x, y :: Tied(LineBefore, x, y) ==> x == y
  {
  }
}
