/** Applying one remediation and re-evaluating: which keys leave the report and which appear. */
module Cleanup {
  import opened Seqs
  import opened Types
  import opened Cost
  import opened Rules
  import opened Detectors
  import opened Engine
  import opened Sorting
  import opened Members

  // ---- Fixes ----

  function EditTopic(fix: Fix): Topic -> Topic {
    (t: Topic) =>
      match fix
      case SetRetention(n, ms) => if t.name == n then t.(retentionMs := ms) else t
      case SetPartitions(n, k) => if t.name == n then t.(partitions := k) else t
      case SetCompression(n, codec) => if t.name == n then t.(compressionType := codec) else t
      case SetReplication(n, rf) => if t.name == n then t.(replicationFactor := rf) else t
      case _ => t
  }

  function NotTopic(name: string): Topic -> bool { (t: Topic) => t.name != name }

  function NotGroup(id: string): ConsumerGrp -> bool { (g: ConsumerGrp) => g.groupId != id }

  /** The cluster after the remediation, as a change of configuration or a deletion. */
  function Apply(fix: Fix, s: Snapshot): Snapshot {
    match fix
    case DeleteTopic(n) => s.(topics := Filter(NotTopic(n), s.topics))
    case DeleteGroup(id) => s.(groups := Filter(NotGroup(id), s.groups))
    case _ => s.(topics := Map(EditTopic(fix), s.topics))
  }

  predicate ConfigRule(r: RuleId) { r.R3? || r.R4? || r.R5? || r.R6? }

  /** The flagged topic with its own fix applied. */
  function Fixed(r: RuleId, th: Thresholds, t: Topic): Topic {
    EditTopic(FixOf(r, th, t))(t)
  }

  /** A configuration fix settles its own rule on the topic and disturbs no other. */
  lemma FixSettlesRule(r: RuleId, q: RuleId, th: Thresholds, groups: seq<ConsumerGrp>, t: Topic)
    requires ConfigRule(r) && Flags(r, th, groups, t)
    ensures Flags(q, th, groups, Fixed(r, th, t)) <==> q != r && Flags(q, th, groups, t)
  {
    hide StableSort, Owned, FirstSuffix;
    var t' := Fixed(r, th, t);
    assert RateOf([t], t.name) == t.bytesInPerSec;
    assert RateOf([t'], t'.name) == t.bytesInPerSec;
    match r
    case R3 => assert t' == t.(retentionMs := ProposedRetention(th.r3, t));
    case R4 => assert t' == t.(partitions := ProposedPartitions(th.r4, t));
    case R5 => assert t' == t.(compressionType := "zstd");
    case R6 => assert t' == t.(replicationFactor := th.r6.proposedRF);
  }

  // ---- Names stay distinct ----

  predicate SameName(a: Topic, b: Topic) { a.name == b.name }
  predicate SameGroup(a: ConsumerGrp, b: ConsumerGrp) { a.groupId == b.groupId }

  lemma ApplyKeepsDistinct(fix: Fix, s: Snapshot)
    requires Distinct(s)
    ensures Distinct(Apply(fix, s))
  {
    assert Sorted(SameName, s.topics) && Sorted(SameGroup, s.groups);
    match fix
    case DeleteTopic(n) => FilterKeepsSorted(SameName, NotTopic(n), s.topics);
    case DeleteGroup(id) => FilterKeepsSorted(SameGroup, NotGroup(id), s.groups);
    case _ => assert forall t :: EditTopic(fix)(t).name == t.name;
  }

  lemma SameNameSameTopic(s: Snapshot, a: Topic, b: Topic)
    requires DistinctTopics(s.topics) && a in s.topics && b in s.topics && a.name == b.name
    ensures a == b
  {
  }

  lemma SameIdSameGroup(s: Snapshot, a: ConsumerGrp, b: ConsumerGrp)
    requires DistinctGroups(s.groups) && a in s.groups && b in s.groups && a.groupId == b.groupId
    ensures a == b
  {
  }

  // ---- What a fix does to the set of findings ----

  /** The fix of t0 leaves every other topic of the snapshot as it was. */
  lemma OnlyOneTopicEdited(s: Snapshot, r: RuleId, th: Thresholds, t0: Topic, t: Topic)
    requires DistinctTopics(s.topics) && t0 in s.topics && t in s.topics && ConfigRule(r)
    ensures EditTopic(FixOf(r, th, t0))(t) == if t == t0 then Fixed(r, th, t0) else t
    ensures Fixed(r, th, t0).name == t0.name
  {
    if t.name == t0.name {
      SameNameSameTopic(s, t, t0);
    }
  }

  lemma ConfigFixEdits(s: Snapshot, r: RuleId, th: Thresholds, t0: Topic)
    requires ConfigRule(r)
    ensures var fix := FixOf(r, th, t0);
            Apply(fix, s) == s.(topics := Map(EditTopic(fix), s.topics))
  {
  }

  /** Topic by topic: the fix takes the flag of its own rule off its own topic, and that is all. */
  lemma ConfigFixOnTopic(s: Snapshot, cfg: RuleConfig, r: RuleId, t0: Topic, q: RuleId, t: Topic)
    requires DistinctTopics(s.topics) && TopicFlagged(s, cfg, r, t0) && ConfigRule(r) && t in s.topics
    ensures var fix := FixOf(r, cfg.thresholds, t0);
            && EditTopic(fix)(t).name == t.name
            && (TopicFlagged(Apply(fix, s), cfg, q, EditTopic(fix)(t))
                <==> TopicFlagged(s, cfg, q, t) && !(t == t0 && q == r))
  {
    var fix := FixOf(r, cfg.thresholds, t0);
    var i :| 0 <= i < |s.topics| && s.topics[i] == t;
    ConfigFixEdits(s, r, cfg.thresholds, t0);
    OnlyOneTopicEdited(s, r, cfg.thresholds, t0, t);
    FixSettlesRule(r, q, cfg.thresholds, s.groups, t0);
    hide Flags, Apply, EditTopic, FixOf, Fixed;
    assert Apply(fix, s).topics[i] == EditTopic(fix)(t);
  }

  lemma FlagsLeft(s: Snapshot, cfg: RuleConfig, r: RuleId, t0: Topic, k: Key)
    requires DistinctTopics(s.topics) && TopicFlagged(s, cfg, r, t0) && ConfigRule(r) && k.rule != R2
    requires KeyFlagged(Apply(FixOf(r, cfg.thresholds, t0), s), cfg, k)
    ensures KeyFlagged(s, cfg, k) && k != Key(r, t0.name)
  {
    var fix := FixOf(r, cfg.thresholds, t0);
    ConfigFixEdits(s, r, cfg.thresholds, t0);
    hide Flags, Apply, EditTopic, FixOf;
    var t' :| TopicFlagged(Apply(fix, s), cfg, k.rule, t') && t'.name == k.name;
    var i :| 0 <= i < |s.topics| && EditTopic(fix)(s.topics[i]) == t';
    var t := s.topics[i];
    ConfigFixOnTopic(s, cfg, r, t0, k.rule, t);
    if t.name == t0.name {
      SameNameSameTopic(s, t, t0);
    }
  }

  lemma FlagsStay(s: Snapshot, cfg: RuleConfig, r: RuleId, t0: Topic, k: Key)
    requires DistinctTopics(s.topics) && TopicFlagged(s, cfg, r, t0) && ConfigRule(r) && k.rule != R2
    requires KeyFlagged(s, cfg, k) && k != Key(r, t0.name)
    ensures KeyFlagged(Apply(FixOf(r, cfg.thresholds, t0), s), cfg, k)
  {
    hide Flags, Apply, EditTopic, FixOf;
    var t :| TopicFlagged(s, cfg, k.rule, t) && t.name == k.name;
    ConfigFixOnTopic(s, cfg, r, t0, k.rule, t);
  }

  lemma GroupFlagsStay(s: Snapshot, s': Snapshot, cfg: RuleConfig, k: Key)
    requires s'.groups == s.groups && k.rule == R2
    ensures KeyFlagged(s', cfg, k) <==> KeyFlagged(s, cfg, k)
  {
    assert forall g :: GroupFlagged(s', cfg, g) <==> GroupFlagged(s, cfg, g);
  }

  lemma ConfigFixOnFlags(s: Snapshot, cfg: RuleConfig, r: RuleId, t0: Topic, k: Key)
    requires DistinctTopics(s.topics) && TopicFlagged(s, cfg, r, t0) && ConfigRule(r)
    ensures KeyFlagged(Apply(FixOf(r, cfg.thresholds, t0), s), cfg, k)
            <==> KeyFlagged(s, cfg, k) && k != Key(r, t0.name)
  {
    ConfigFixEdits(s, r, cfg.thresholds, t0);
    hide TopicFlagged, KeyFlagged, Apply, FixOf;
    var s' := Apply(FixOf(r, cfg.thresholds, t0), s);
    if k.rule == R2 {
      GroupFlagsStay(s, s', cfg, k);
    } else {
      if KeyFlagged(s', cfg, k) {
        FlagsLeft(s, cfg, r, t0, k);
      }
      if KeyFlagged(s, cfg, k) && k != Key(r, t0.name) {
        FlagsStay(s, cfg, r, t0, k);
      }
    }
  }

  /** Applying an R3, R4, R5 or R6 remediation removes that finding's key and no other,
      and brings no new one. */
  lemma ConfigFixRemovesItsKey(s: Snapshot, cm: CostModel, cfg: RuleConfig, f: Finding)
    requires Distinct(s) && f in Report([s], cm, cfg) && ConfigRule(f.rule)
    ensures Keys(Apply(f.fix, s), cm, cfg) == Keys(s, cm, cfg) - {f.key}
  {
    var t0 := TopicBehind(s, cm, cfg, f);
    ApplyKeepsDistinct(f.fix, s);
    var s' := Apply(f.fix, s);
    assert s' == Apply(FixOf(f.rule, cfg.thresholds, t0), s) && f.key == Key(f.rule, t0.name);
    hide Apply, Report, KeyFlagged, Keys;
    KeysAreFlagged(s, cm, cfg);
    KeysAreFlagged(s', cm, cfg);
    forall k
      ensures k in Keys(s', cm, cfg) <==> k in Keys(s, cm, cfg) - {f.key}
    {
      ConfigFixOnFlags(s, cfg, f.rule, t0, k);
    }
  }

  lemma DeletionOnFlags(s: Snapshot, cfg: RuleConfig, name: string, k: Key)
    ensures KeyFlagged(Apply(DeleteTopic(name), s), cfg, k)
            <==> KeyFlagged(s, cfg, k) && (k.rule == R2 || k.name != name)
  {
    hide Flags;
    var s' := Apply(DeleteTopic(name), s);
    if k.rule == R2 {
      assert forall g :: GroupFlagged(s', cfg, g) <==> GroupFlagged(s, cfg, g);
    } else {
      assert forall t :: TopicFlagged(s', cfg, k.rule, t) <==> TopicFlagged(s, cfg, k.rule, t) && t.name != name;
    }
  }

  /** Applying an R1 or R8 remediation removes the keys of that topic and leaves every other key. */
  lemma DeletionRemovesTopicKeys(s: Snapshot, cm: CostModel, cfg: RuleConfig, f: Finding)
    requires Distinct(s) && f in Report([s], cm, cfg) && (f.rule == R1 || f.rule == R8)
    ensures Keys(Apply(f.fix, s), cm, cfg)
            == set k | k in Keys(s, cm, cfg) && (k.rule == R2 || k.name != f.key.name)
  {
    var t0 := TopicBehind(s, cm, cfg, f);
    ApplyKeepsDistinct(f.fix, s);
    var s' := Apply(f.fix, s);
    assert f.fix == DeleteTopic(f.key.name);
    hide Apply, Report, KeyFlagged, Keys;
    KeysAreFlagged(s, cm, cfg);
    KeysAreFlagged(s', cm, cfg);
    forall k
      ensures k in Keys(s', cm, cfg) <==> k in Keys(s, cm, cfg) && (k.rule == R2 || k.name != f.key.name)
    {
      DeletionOnFlags(s, cfg, f.key.name, k);
    }
  }

  /** The group's id starts the topic's name, and that of no other listed group with an id does. */
  ghost predicate OnlyOwner(id: string, topic: string, groups: seq<ConsumerGrp>) {
    && id != "" && id <= topic
    && (exists g :: g in groups && g.groupId == id)
    && forall g :: g in groups && g.groupId != "" && g.groupId <= topic ==> g.groupId == id
  }

  /** The internal topics that lose their last owner with this group. */
  ghost predicate Orphaned(s: Snapshot, cfg: RuleConfig, id: string, k: Key) {
    && k.rule == R8 && On(cfg, R8)
    && exists t :: t in s.topics && t.name == k.name && FirstSuffix(t.name, cfg.thresholds.r8.suffixes) != ""
         && t.retainedBytes >= cfg.thresholds.r8.minRetainedBytes && OnlyOwner(id, t.name, s.groups)
  }

  lemma OnlyOwnerMeans(id: string, topic: string, groups: seq<ConsumerGrp>)
    ensures OnlyOwner(id, topic, groups) <==> Owned(topic, groups) && !Owned(topic, Filter(NotGroup(id), groups))
  {
    var rest := Filter(NotGroup(id), groups);
    assert forall g :: g in rest <==> g in groups && g.groupId != id;
    if Owned(topic, groups) && !Owned(topic, rest) {
      var g :| g in groups && g.groupId != "" && g.groupId <= topic;
      assert g !in rest;
    }
  }

  lemma FewerGroupsOwnLess(topic: string, groups: seq<ConsumerGrp>, p: ConsumerGrp -> bool)
    requires Owned(topic, Filter(p, groups))
    ensures Owned(topic, groups)
  {
    var g :| g in Filter(p, groups) && g.groupId != "" && g.groupId <= topic;
    assert g in groups;
  }

  lemma GroupDeletionOnTopicFlags(s: Snapshot, cfg: RuleConfig, id: string, r: RuleId, t: Topic)
    ensures TopicFlagged(Apply(DeleteGroup(id), s), cfg, r, t)
            <==> TopicFlagged(s, cfg, r, t)
                 || (r == R8 && On(cfg, R8) && t in s.topics
                     && FirstSuffix(t.name, cfg.thresholds.r8.suffixes) != ""
                     && t.retainedBytes >= cfg.thresholds.r8.minRetainedBytes && OnlyOwner(id, t.name, s.groups))
  {
    OnlyOwnerMeans(id, t.name, s.groups);
    hide RateOf, StableSort, Owned, OnlyOwner, FirstSuffix;
    var rest := Filter(NotGroup(id), s.groups);
    if Owned(t.name, rest) {
      FewerGroupsOwnLess(t.name, s.groups, NotGroup(id));
    }
  }

  lemma GroupDeletionOnFlags(s: Snapshot, cfg: RuleConfig, id: string, k: Key)
    ensures KeyFlagged(Apply(DeleteGroup(id), s), cfg, k)
            <==> (KeyFlagged(s, cfg, k) && k != Key(R2, id)) || Orphaned(s, cfg, id, k)
  {
    var s' := Apply(DeleteGroup(id), s);
    hide Flags, FirstSuffix, OnlyOwner, R2Fires;
    if k.rule == R2 {
      assert forall g :: GroupFlagged(s', cfg, g) <==> GroupFlagged(s, cfg, g) && g.groupId != id;
    } else {
      forall t
        ensures TopicFlagged(s', cfg, k.rule, t)
                <==> TopicFlagged(s, cfg, k.rule, t)
                     || (k.rule == R8 && On(cfg, R8) && t in s.topics
                         && FirstSuffix(t.name, cfg.thresholds.r8.suffixes) != ""
                         && t.retainedBytes >= cfg.thresholds.r8.minRetainedBytes && OnlyOwner(id, t.name, s.groups))
      {
        GroupDeletionOnTopicFlags(s, cfg, id, k.rule, t);
      }
    }
  }

  /** Applying an R2 remediation removes its own key, keeps every other, and adds exactly the R8
      keys of the internal topics the deleted group was the last to own. */
  lemma GroupDeletionMayOrphan(s: Snapshot, cm: CostModel, cfg: RuleConfig, f: Finding)
    requires Distinct(s) && f in Report([s], cm, cfg) && f.rule == R2
    ensures forall k :: k in Keys(Apply(f.fix, s), cm, cfg)
                        <==> (k in Keys(s, cm, cfg) && k != f.key) || Orphaned(s, cfg, f.key.name, k)
  {
    var g0 := GroupBehind(s, cm, cfg, f);
    ApplyKeepsDistinct(f.fix, s);
    var s' := Apply(f.fix, s);
    assert f.fix == DeleteGroup(f.key.name) && f.key == Key(R2, f.key.name);
    hide Apply, Report, KeyFlagged, Keys, Orphaned;
    KeysAreFlagged(s, cm, cfg);
    KeysAreFlagged(s', cm, cfg);
    forall k
      ensures k in Keys(s', cm, cfg) <==> (k in Keys(s, cm, cfg) && k != f.key) || Orphaned(s, cfg, f.key.name, k)
    {
      GroupDeletionOnFlags(s, cfg, f.key.name, k);
    }
  }
}
