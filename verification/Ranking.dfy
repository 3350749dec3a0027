/** The order of the lines of a report: larger savings first, then rule id, then the order of the snapshot. */
module Ranking {
  import opened Seqs
  import opened Types
  import opened Cost
  import opened Rules
  import opened Helpers
  import opened Detectors
  import opened Engine
  import opened Sorting
  import Invariance

  function IdOf(g: ConsumerGrp): string { g.groupId }

  /** What a rule looks at, in the order of the snapshot: groups for R2, topics for the others. */
  function Names(s: Snapshot, r: RuleId): seq<string> {
    if r == R2 then Map(IdOf, s.groups) else Map(Invariance.NameOf, s.topics)
  }

  /** The first place of the name in the list. */
  function Place(names: seq<string>, name: string): nat {
    if names == [] || names[0] == name then 0 else 1 + Place(names[1..], name)
  }

  lemma {:induction false} PlaceOfDistinct(names: seq<string>, k: nat)
    requires NoDup(names) && k < |names|
    ensures Place(names, names[k]) == k
  {
    if k > 0 {
      assert names[0] != names[k];
      PlaceOfDistinct(names[1..], k - 1);
    }
  }

  lemma NamesAreDistinct(s: Snapshot, r: RuleId)
    requires Distinct(s)
    ensures NoDup(Names(s, r))
  {
  }

  function EarlierPlace(s: Snapshot): (Finding, Finding) -> bool {
    (a: Finding, b: Finding) =>
      a.rule == b.rule && Place(Names(s, a.rule), a.key.name) < Place(Names(s, b.rule), b.key.name)
  }

  lemma {:induction false} TopicsInPlace(s: Snapshot, r: RuleId, ctx: Ctx, n: nat)
    requires Distinct(s) && ctx.snap == s && n <= |s.topics| && r != R2
    ensures Sorted(EarlierPlace(s), OverTopics(r, ctx, s.topics[..n]))
    ensures forall f :: f in OverTopics(r, ctx, s.topics[..n]) ==> f.rule == r && Place(Names(s, r), f.key.name) < n
  {
    if n > 0 {
      hide FiresIn, OverTopics, Place, Round2, ExactSaving, FixOf;
      TopicsInPlace(s, r, ctx, n - 1);
      OneMore(r, ctx, n - 1);
      var t, before := s.topics[n - 1], OverTopics(r, ctx, s.topics[..n - 1]);
      PlaceOfTopic(s, r, n - 1);
      assert TopicFinding(r, ctx, t).rule == r && TopicFinding(r, ctx, t).key.name == t.name;
      hide TopicFinding, Names;
      JoinInPlace(s, before, [TopicFinding(r, ctx, t)]);
    }
  }

  lemma PlaceOfTopic(s: Snapshot, r: RuleId, k: nat)
    requires Distinct(s) && k < |s.topics| && r != R2
    ensures Place(Names(s, r), s.topics[k].name) == k
  {
    NamesAreDistinct(s, r);
    PlaceOfDistinct(Names(s, r), k);
  }

  /** Findings that come in place, each before or of another rule than those that follow. */
  lemma JoinInPlace(s: Snapshot, before: seq<Finding>, more: seq<Finding>)
    requires Sorted(EarlierPlace(s), before) && Sorted(EarlierPlace(s), more)
    requires forall f, g :: f in before && g in more ==> !EarlierPlace(s)(g, f)
    ensures Sorted(EarlierPlace(s), before + more)
  {
    hide EarlierPlace;
    var all := before + more;
    forall i, j | 0 <= i < j < |all|
      ensures !EarlierPlace(s)(all[j], all[i])
    {
      assert i < |before| ==> all[i] == before[i] && before[i] in before;
      assert j >= |before| ==> all[j] == more[j - |before|] && more[j - |before|] in more;
      assert i >= |before| ==> all[i] == more[i - |before|];
    }
  }

  lemma {:induction false} GroupsInPlace(s: Snapshot, ctx: Ctx, n: nat)
    requires Distinct(s) && ctx.snap == s && n <= |s.groups|
    ensures Sorted(EarlierPlace(s), OverGroups(ctx, s.groups[..n]))
    ensures forall f :: f in OverGroups(ctx, s.groups[..n]) ==> f.rule == R2 && Place(Names(s, R2), f.key.name) < n
  {
    if n > 0 {
      GroupsInPlace(s, ctx, n - 1);
      assert s.groups[..n][..n - 1] == s.groups[..n - 1];
      NamesAreDistinct(s, R2);
      PlaceOfDistinct(Names(s, R2), n - 1);
      assert Names(s, R2)[n - 1] == s.groups[n - 1].groupId;
      hide R2Fires, Names, Place;
      var g, before := s.groups[n - 1], OverGroups(ctx, s.groups[..n - 1]);
      JoinInPlace(s, before, [GroupFinding(g)]);
    }
  }

  lemma DetectsInPlace(s: Snapshot, r: RuleId, ctx: Ctx)
    requires Distinct(s) && ctx.snap == s
    ensures Sorted(EarlierPlace(s), Detect(r, ctx))
  {
    hide OverTopics, OverGroups, EarlierPlace;
    assert s.topics[..|s.topics|] == s.topics && s.groups[..|s.groups|] == s.groups;
    if r == R2 {
      GroupsInPlace(s, ctx, |s.groups|);
    } else {
      TopicsInPlace(s, r, ctx, |s.topics|);
    }
  }

  lemma {:induction false} CollectedInPlace(s: Snapshot, ctx: Ctx, cfg: RuleConfig, n: nat)
    requires Distinct(s) && ctx.snap == s && n <= |REGISTRY|
    ensures Sorted(EarlierPlace(s), Collected(ctx, cfg, true, REGISTRY[..n]))
    ensures forall f :: f in Collected(ctx, cfg, true, REGISTRY[..n]) ==> f.rule.Rank() <= n
  {
    if n > 0 {
      var r := REGISTRY[n - 1];
      assert REGISTRY[..n][..n - 1] == REGISTRY[..n - 1] && r.id.Rank() == n;
      CollectedInPlace(s, ctx, cfg, n - 1);
      DetectsInPlace(s, r.id, ctx);
      DetectRuleIds(r.id, ctx);
      hide Detect, Place, Names;
      JoinInPlace(s, Collected(ctx, cfg, true, REGISTRY[..n - 1]), Piece(ctx, cfg, true, r));
    }
  }

  /** What a sorted selection says of two elements of the whole. */
  lemma {:induction false} SelectedInOrder<T(!new)>(less: (T, T) -> bool, p: T -> bool, s: seq<T>, i: nat, j: nat)
    requires Sorted(less, Filter(p, s)) && i < j < |s| && p(s[i]) && p(s[j])
    ensures !less(s[j], s[i])
  {
    var init, last := s[..|s| - 1], s[|s| - 1];
    assert s == init + [last];
    FilterSnoc(p, init, last);
    if j == |s| - 1 {
      assert init[i] in init && s[i] in Filter(p, init);
      var k :| 0 <= k < |Filter(p, init)| && Filter(p, init)[k] == s[i];
      assert Filter(p, s)[k] == s[i] && Filter(p, s)[|Filter(p, s)| - 1] == last;
    } else {
      assert forall k :: 0 <= k < |Filter(p, init)| ==> Filter(p, init)[k] == Filter(p, s)[k];
      SelectedInOrder(less, p, init, i, j);
    }
  }

  lemma TiesKeepPlace(s: Snapshot, cm: CostModel, cfg: RuleConfig, i: nat, j: nat)
    requires Distinct(s) && i < j < |Report([s], cm, cfg)|
    requires var out := Report([s], cm, cfg); out[i].saving == out[j].saving && out[i].rule == out[j].rule
    ensures var out := Report([s], cm, cfg); !EarlierPlace(s)(out[j], out[i])
  {
    var out, raw := Report([s], cm, cfg), Unranked([s], cm, cfg);
    assert REGISTRY[..8] == REGISTRY;
    CollectedInPlace(s, Context(s, cm, cfg), cfg, 8);
    assert Sorted(EarlierPlace(s), raw);
    ReportIsTheStableRanking([s], cm, cfg, out);
    var p := TiedWith(RanksBefore, out[i]);
    hide Collected, EarlierPlace, Report, Unranked;
    FilterKeepsSorted(EarlierPlace(s), p, raw);
    SelectedInOrder(EarlierPlace(s), p, out, i, j);
  }

  /** Of two lines the earlier saves at least as much; if they save the same, its rule is not the later one; and if
      the rule is the same, its topic or group is not listed after the other's in the snapshot. */
  lemma LinesInOrder(s: Snapshot, cm: CostModel, cfg: RuleConfig, i: nat, j: nat, p: nat, q: nat)
    requires Distinct(s) && i < j < |Report([s], cm, cfg)|
    requires var out := Report([s], cm, cfg);
             p < |Names(s, out[i].rule)| && Names(s, out[i].rule)[p] == out[i].key.name &&
             q < |Names(s, out[j].rule)| && Names(s, out[j].rule)[q] == out[j].key.name
    ensures var a, b := Report([s], cm, cfg)[i], Report([s], cm, cfg)[j];
            && a.saving >= b.saving
            && (a.saving == b.saving ==> a.rule.Rank() <= b.rule.Rank())
            && (a.saving == b.saving && a.rule == b.rule ==> p <= q)
  {
    var out := Report([s], cm, cfg);
    ReportIsTheStableRanking([s], cm, cfg, out);
    assert !RanksBefore(out[j], out[i]);
    if out[i].saving == out[j].saving && out[i].rule == out[j].rule {
      TiesKeepPlace(s, cm, cfg, i, j);
      NamesAreDistinct(s, out[i].rule);
      PlaceOfDistinct(Names(s, out[i].rule), p);
      PlaceOfDistinct(Names(s, out[j].rule), q);
      hide Names, Report, Place;
    }
  }
}
