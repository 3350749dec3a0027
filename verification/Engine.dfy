/** Evaluate: prices, the enabled detectors in registry order, the ranking. */
module Engine {
  import opened Seqs
  import opened Types
  import opened Cost
  import opened Rules
  import opened Detectors
  import opened Sorting

  datatype Rule = Rule(id: RuleId, staticCapable: bool)

  const REGISTRY: seq<Rule> := [
    Rule(R1, true), Rule(R2, true), Rule(R3, true), Rule(R4, true),
    Rule(R5, true), Rule(R6, true), Rule(R7, true), Rule(R8, true)]

  /** Larger saving first, then rule id. */
  predicate RanksBefore(a: Finding, b: Finding) {
    if a.saving != b.saving then a.saving > b.saving else a.rule.Rank() < b.rule.Rank()
  }

  predicate SavesMore(a: Finding, b: Finding) { a.saving > b.saving }

  predicate EarlierRule(a: Finding, b: Finding) { a.rule.Rank() < b.rule.Rank() }

  function Saving(f: Finding): real { f.saving }

  function Context(snap: Snapshot, cm: CostModel, cfg: RuleConfig): Ctx {
    Ctx(snap, Resolve(cm, SumI(TopicBytes, snap.topics)), cfg.thresholds)
  }

  predicate Runs(cfg: RuleConfig, staticOnly: bool, r: Rule) {
    r.id !in cfg.disabled && (staticOnly ==> r.staticCapable)
  }

  function Piece(ctx: Ctx, cfg: RuleConfig, staticOnly: bool, r: Rule): seq<Finding> {
    if Runs(cfg, staticOnly, r) then Detect(r.id, ctx) else []
  }

  /** The concatenated detector outputs, before ranking. */
  function Collected(ctx: Ctx, cfg: RuleConfig, staticOnly: bool, rules: seq<Rule>): seq<Finding> {
    if rules == [] then []
    else Collected(ctx, cfg, staticOnly, rules[..|rules| - 1]) + Piece(ctx, cfg, staticOnly, rules[|rules| - 1])
  }

  function Unranked(history: seq<Snapshot>, cm: CostModel, cfg: RuleConfig): seq<Finding> {
    if history == [] then []
    else Collected(Context(history[|history| - 1], cm, cfg), cfg, |history| <= 1, REGISTRY)
  }

  function Report(history: seq<Snapshot>, cm: CostModel, cfg: RuleConfig): seq<Finding> {
    StableSort(RanksBefore, Unranked(history, cm, cfg))
  }

  // ---- The entry point ----

  /** No enabled rule divides by zero or indexes an empty list on this snapshot. */
  ghost predicate Computable(snap: Snapshot, cm: CostModel, cfg: RuleConfig) {
    var ctx := Context(snap, cm, cfg);
    (R6 !in cfg.disabled ==> NoZeroFactor(ctx)) && (R7 !in cfg.disabled ==> NoEmptySizes(ctx))
  }

  method RunDetector(r: RuleId, ctx: Ctx) returns (out: seq<Finding>)
    requires (r == R6 ==> NoZeroFactor(ctx)) && (r == R7 ==> NoEmptySizes(ctx))
    ensures out == Detect(r, ctx)
  {
    match r
    case R1 => out := EvalR1(ctx);
    case R2 => out := EvalR2(ctx);
    case R3 => out := EvalR3(ctx);
    case R4 => out := EvalR4(ctx);
    case R5 => out := EvalR5(ctx);
    case R6 => out := EvalR6(ctx);
    case R7 => out := EvalR7(ctx);
    case R8 => out := EvalR8(ctx);
  }

  /** The first loop of Evaluate. */
  method TotalRetained(ts: seq<Topic>) returns (total: int)
    ensures total == SumI(TopicBytes, ts)
  {
    total := 0;
    for i := 0 to |ts|
      invariant total == SumI(TopicBytes, ts[..i])
    {
      assert ts[..i + 1][..i] == ts[..i];
      total := total + ts[i].retainedBytes;
    }
    assert ts[..|ts|] == ts;
  }

  /** The loop over the registry. */
  method RunRegistry(ctx: Ctx, cfg: RuleConfig, staticOnly: bool) returns (found: seq<Finding>)
    requires (R6 !in cfg.disabled ==> NoZeroFactor(ctx)) && (R7 !in cfg.disabled ==> NoEmptySizes(ctx))
    ensures found == Collected(ctx, cfg, staticOnly, REGISTRY)
  {
    hide Detect, NoZeroFactor, NoEmptySizes;
    found := [];
    for i := 0 to |REGISTRY|
      invariant found == Collected(ctx, cfg, staticOnly, REGISTRY[..i])
    {
      assert REGISTRY[..i + 1][..i] == REGISTRY[..i];
      var r := REGISTRY[i];
      if r.id in cfg.disabled {
        continue;
      }
      if staticOnly && !r.staticCapable {
        continue;
      }
      var more := RunDetector(r.id, ctx);
      found := found + more;
    }
    assert REGISTRY[..|REGISTRY|] == REGISTRY;
  }

  method Evaluate(history: seq<Snapshot>, cm: CostModel, cfg: RuleConfig) returns (out: seq<Finding>)
    requires history != [] ==> Computable(history[|history| - 1], cm, cfg)
    ensures out == Report(history, cm, cfg)
  {
    hide Collected, Resolve, NoZeroFactor, NoEmptySizes;
    if history == [] {
      return [];
    }
    var snap := history[|history| - 1];
    var totalRetained := TotalRetained(snap.topics);
    var ctx := Ctx(snap, Resolve(cm, totalRetained), cfg.thresholds);
    var staticOnly := |history| <= 1;
    var found := RunRegistry(ctx, cfg, staticOnly);
    var ranked := new Finding[|found|](k requires 0 <= k < |found| => found[k]);
    assert ranked[..] == found;
    SortInPlace(ranked, RanksBefore);
    out := ranked[..];
  }

  method TotalSavingsEUR(fs: seq<Finding>) returns (t: real)
    ensures t == SumR(Saving, fs)
  {
    t := 0.0;
    for i := 0 to |fs|
      invariant t == SumR(Saving, fs[..i])
    {
      assert fs[..i + 1][..i] == fs[..i];
      t := t + fs[i].saving;
    }
    assert fs[..|fs|] == fs;
  }

  // ---- The ranking ----

  lemma RankingOrders()
    ensures StrictWeakOrder(RanksBefore) && StrictWeakOrder(SavesMore) && StrictWeakOrder(EarlierRule)
  {
  }

  /** The report is an ordered, stable rearrangement of the detector outputs, and the only one:
      whatever a stable sort returns is this. */
  lemma ReportIsTheStableRanking(history: seq<Snapshot>, cm: CostModel, cfg: RuleConfig, out: seq<Finding>)
    ensures multiset(Report(history, cm, cfg)) == multiset(Unranked(history, cm, cfg))
    ensures out == Report(history, cm, cfg)
            <==> Sorted(RanksBefore, out) && Stable(RanksBefore, Unranked(history, cm, cfg), out)
  {
    hide Unranked;
    RankingOrders();
    var raw := Unranked(history, cm, cfg);
    SortPermutes(RanksBefore, raw);
    StableSortCorrect(RanksBefore, raw);
    if Sorted(RanksBefore, out) && Stable(RanksBefore, raw, out) {
      assert Stable(RanksBefore, Report(history, cm, cfg), out);
      StableSortUnique(RanksBefore, Report(history, cm, cfg), out);
    }
  }

  /** Every detector reports under its own id only. */
  lemma {:induction false} TopicRuleIds(r: RuleId, ctx: Ctx, ts: seq<Topic>)
    ensures forall f :: f in OverTopics(r, ctx, ts) ==> f.rule == r
  {
    hide FiresIn;
    if ts != [] {
      TopicRuleIds(r, ctx, ts[..|ts| - 1]);
    }
  }

  lemma {:induction false} GroupRuleIds(ctx: Ctx, gs: seq<ConsumerGrp>)
    ensures forall f :: f in OverGroups(ctx, gs) ==> f.rule == R2
  {
    if gs != [] {
      GroupRuleIds(ctx, gs[..|gs| - 1]);
    }
  }

  lemma DetectRuleIds(r: RuleId, ctx: Ctx)
    ensures forall f :: f in Detect(r, ctx) ==> f.rule == r
  {
    TopicRuleIds(r, ctx, ctx.snap.topics);
    GroupRuleIds(ctx, ctx.snap.groups);
  }

  lemma {:induction false} AllRulesAreStatic(ctx: Ctx, cfg: RuleConfig, n: nat)
    requires n <= |REGISTRY|
    ensures Collected(ctx, cfg, true, REGISTRY[..n]) == Collected(ctx, cfg, false, REGISTRY[..n])
  {
    if n > 0 {
      assert REGISTRY[..n][..n - 1] == REGISTRY[..n - 1];
      AllRulesAreStatic(ctx, cfg, n - 1);
    }
  }

  /** A longer history changes nothing: the report is that of the latest snapshot. */
  lemma OnlyLatestMatters(history: seq<Snapshot>, cm: CostModel, cfg: RuleConfig)
    requires history != []
    ensures Report(history, cm, cfg) == Report([history[|history| - 1]], cm, cfg)
  {
    hide Collected, StableSort;
    assert REGISTRY[..8] == REGISTRY;
    AllRulesAreStatic(Context(history[|history| - 1], cm, cfg), cfg, 8);
  }

  // ---- Disabling a rule ----

  function NotFrom(k: RuleId): Finding -> bool {
    (f: Finding) => f.rule != k
  }

  function Disable(cfg: RuleConfig, k: RuleId): RuleConfig {
    cfg.(disabled := cfg.disabled + {k})
  }

  lemma PieceWithout(ctx: Ctx, cfg: RuleConfig, k: RuleId, staticOnly: bool, r: Rule)
    ensures Piece(ctx, Disable(cfg, k), staticOnly, r) == Filter(NotFrom(k), Piece(ctx, cfg, staticOnly, r))
  {
    hide Detect;
    DetectRuleIds(r.id, ctx);
    var more := Piece(ctx, cfg, staticOnly, r);
    if r.id == k {
      FilterNone(NotFrom(k), more);
    } else {
      FilterAll(NotFrom(k), more);
    }
  }

  lemma {:induction false} CollectedWithout(ctx: Ctx, cfg: RuleConfig, k: RuleId, staticOnly: bool, rules: seq<Rule>)
    ensures Collected(ctx, Disable(cfg, k), staticOnly, rules)
            == Filter(NotFrom(k), Collected(ctx, cfg, staticOnly, rules))
  {
    hide Piece;
    if rules != [] {
      var r, init := rules[|rules| - 1], rules[..|rules| - 1];
      CollectedWithout(ctx, cfg, k, staticOnly, init);
      PieceWithout(ctx, cfg, k, staticOnly, r);
      FilterAppend(NotFrom(k), Collected(ctx, cfg, staticOnly, init), Piece(ctx, cfg, staticOnly, r));
    }
  }

  /** Disabling a rule removes its findings from the report and does nothing else. */
  lemma DisablingIsFiltering(history: seq<Snapshot>, cm: CostModel, cfg: RuleConfig, k: RuleId)
    ensures Report(history, cm, Disable(cfg, k)) == Filter(NotFrom(k), Report(history, cm, cfg))
  {
    hide Collected, StableSort;
    RankingOrders();
    if history != [] {
      var snap := history[|history| - 1];
      CollectedWithout(Context(snap, cm, cfg), cfg, k, |history| <= 1, REGISTRY);
      assert Context(snap, cm, Disable(cfg, k)) == Context(snap, cm, cfg);
    }
    SortCommutesWithFilter(RanksBefore, NotFrom(k), Unranked(history, cm, cfg));
  }

  // ---- The rule-id tie-break ----

  lemma {:induction false} CollectedInRuleOrder(ctx: Ctx, cfg: RuleConfig, staticOnly: bool, n: nat)
    requires n <= |REGISTRY|
    ensures Sorted(EarlierRule, Collected(ctx, cfg, staticOnly, REGISTRY[..n]))
    ensures forall f :: f in Collected(ctx, cfg, staticOnly, REGISTRY[..n]) ==> f.rule.Rank() <= n
  {
    hide Detect;
    if n > 0 {
      var init, r := REGISTRY[..n - 1], REGISTRY[n - 1];
      assert REGISTRY[..n][..n - 1] == init;
      assert r.id.Rank() == n;
      CollectedInRuleOrder(ctx, cfg, staticOnly, n - 1);
      DetectRuleIds(r.id, ctx);
      var before := Collected(ctx, cfg, staticOnly, init);
      var more := Piece(ctx, cfg, staticOnly, r);
      JoinInRuleOrder(before, more, n);
    }
  }

  lemma JoinInRuleOrder(before: seq<Finding>, more: seq<Finding>, n: int)
    requires Sorted(EarlierRule, before)
    requires forall f :: f in before ==> f.rule.Rank() <= n - 1
    requires forall f :: f in more ==> f.rule.Rank() == n
    ensures Sorted(EarlierRule, before + more)
    ensures forall f :: f in before + more ==> f.rule.Rank() <= n
  {
    var all := before + more;
    forall i, j | 0 <= i < j < |all|
      ensures !EarlierRule(all[j], all[i])
    {
      assert all[i] in before || all[i] in more;
      assert j >= |before| ==> all[j] in more;
    }
  }

  lemma OutputsInRuleOrder(history: seq<Snapshot>, cm: CostModel, cfg: RuleConfig)
    ensures Sorted(EarlierRule, Unranked(history, cm, cfg))
  {
    hide Collected, EarlierRule;
    if history != [] {
      assert REGISTRY[..8] == REGISTRY;
      CollectedInRuleOrder(Context(history[|history| - 1], cm, cfg), cfg, |history| <= 1, 8);
    }
  }

  lemma RankedBySaving(out: seq<Finding>)
    requires Sorted(RanksBefore, out)
    ensures Sorted(SavesMore, out)
  {
    forall i, j | 0 <= i < j < |out|
      ensures !SavesMore(out[j], out[i])
    {
      assert !RanksBefore(out[j], out[i]);
    }
  }

  /** The tie-break on rule id never decides: because the registry runs in id order, sorting on the
      saving alone, stably, gives the same report. So ties keep rule order, then snapshot order. */
  lemma TieBreakIsRegistryOrder(history: seq<Snapshot>, cm: CostModel, cfg: RuleConfig)
    ensures Report(history, cm, cfg) == StableSort(SavesMore, Unranked(history, cm, cfg))
  {
    hide Unranked, StableSort, RanksBefore, SavesMore, EarlierRule;
    RankingOrders();
    var raw, out := Unranked(history, cm, cfg), Report(history, cm, cfg);
    StableSortCorrect(RanksBefore, raw);
    StableSortCorrect(SavesMore, raw);
    OutputsInRuleOrder(history, cm, cfg);
    forall x
      ensures Filter(TiedWith(SavesMore, x), out) == Filter(TiedWith(SavesMore, x), raw)
    {
      SameSavingSameOrder(raw, out, x);
    }
    RankedBySaving(out);
    StableSortUnique(SavesMore, out, StableSort(SavesMore, raw));
  }

  lemma SameSavingSameOrder(raw: seq<Finding>, out: seq<Finding>, x: Finding)
    requires Sorted(EarlierRule, raw) && Sorted(RanksBefore, out) && Stable(RanksBefore, raw, out)
    ensures Filter(TiedWith(SavesMore, x), out) == Filter(TiedWith(SavesMore, x), raw)
  {
    RankingOrders();
    var p := TiedWith(SavesMore, x);
    var a, b := Filter(p, raw), Filter(p, out);
    FilterKeepsSorted(EarlierRule, p, raw);
    FilterKeepsSorted(RanksBefore, p, out);
    RankedTiesAreInRuleOrder(b, x);
    forall y
      ensures Filter(TiedWith(EarlierRule, y), b) == Filter(TiedWith(EarlierRule, y), a)
    {
      SameSavingSameRule(raw, out, x, y);
    }
    hide Filter;
    StableSortUnique(EarlierRule, a, b);
  }

  lemma RankedTiesAreInRuleOrder(b: seq<Finding>, x: Finding)
    requires Sorted(RanksBefore, b) && forall f :: f in b ==> f.saving == x.saving
    ensures Sorted(EarlierRule, b)
  {
    forall i, j | 0 <= i < j < |b|
      ensures !EarlierRule(b[j], b[i])
    {
      assert b[i] in b && b[j] in b;
      assert !RanksBefore(b[j], b[i]);
    }
  }

  lemma SameSavingSameRule(raw: seq<Finding>, out: seq<Finding>, x: Finding, y: Finding)
    requires Stable(RanksBefore, raw, out)
    ensures Filter(TiedWith(EarlierRule, y), Filter(TiedWith(SavesMore, x), out))
            == Filter(TiedWith(EarlierRule, y), Filter(TiedWith(SavesMore, x), raw))
  {
    hide Filter;
    var q := TiedWith(RanksBefore, y.(saving := x.saving));
    FilterBoth(TiedWith(EarlierRule, y), TiedWith(SavesMore, x), q, raw);
    FilterBoth(TiedWith(EarlierRule, y), TiedWith(SavesMore, x), q, out);
  }
}
