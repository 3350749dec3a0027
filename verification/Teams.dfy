/** The team rollup of `brod cost`: first-match classification, accumulation, shares. */
module Teams {
  import opened Seqs
  import opened Cost
  import opened Types
  import opened Helpers
  import opened Sorting
  import opened Rules
  import opened Invariance

  /** An ordered rule; `matches` is the compiled regular expression. */
  datatype TeamRule = TeamRule(matches: string -> bool, name: string)

  datatype SetResult = Added | BadFormat | BadRegex

  const UNASSIGNED: string := "unassigned"

  function FirstTeam(rules: seq<TeamRule>, topic: string): string {
    if rules == [] then UNASSIGNED
    else if rules[0].matches(topic) then rules[0].name
    else FirstTeam(rules[1..], topic)
  }

  /** The flag value split at its first '='; the regex part must not be empty. */
  function Split(v: string): (r: Option<(string, string)>)
    ensures r.Some? <==> '=' in v && v[0] != '='
    ensures r.Some? ==> v == r.value.0 + "=" + r.value.1 && '=' !in r.value.0 && r.value.0 != ""
  {
    var i := IndexOf(v, '=');
    if i <= 0 then None else
      assert v == v[..i] + [v[i]] + v[i + 1..];
      Some((v[..i], v[i + 1..]))
  }

  function IndexOf(v: string, c: char): (i: int)
    ensures -1 <= i < |v|
    ensures i == -1 <==> c !in v
    ensures i >= 0 ==> v[i] == c && c !in v[..i]
  {
    if v == "" then -1
    else if v[0] == c then 0
    else
      assert v == [v[0]] + v[1..];
      var i := IndexOf(v[1..], c);
      assert i >= 0 ==> v[..i + 1] == [v[0]] + v[1..][..i];
      if i < 0 then -1 else i + 1
  }

  class TeamFlags {
    var rules: seq<TeamRule>

    constructor ()
      ensures rules == []
    {
      rules := [];
    }

    /** One `--team regex=Team` flag: a usable one is appended, a bad one changes nothing. */
    method Set(v: string, compile: string -> Option<string -> bool>) returns (r: SetResult)
      modifies this
      ensures r == BadFormat <==> Split(v).None?
      ensures r == BadRegex <==> Split(v).Some? && compile(Split(v).value.0).None?
      ensures r == Added ==> rules == old(rules) + [TeamRule(compile(Split(v).value.0).value, Split(v).value.1)]
      ensures r != Added ==> rules == old(rules)
    {
      var i := IndexOf(v, '=');
      if i <= 0 {
        return BadFormat;
      }
      var re := compile(v[..i]);
      if re.None? {
        return BadRegex;
      }
      rules := rules + [TeamRule(re.value, v[i + 1..])];
      return Added;
    }

    method TeamFor(topic: string) returns (team: string)
      ensures team == FirstTeam(rules, topic)
    {
      for i := 0 to |rules|
        invariant FirstTeam(rules, topic) == FirstTeam(rules[i..], topic)
      {
        if rules[i].matches(topic) {
          return rules[i].name;
        }
        assert rules[i..][1..] == rules[i + 1..];
      }
      return UNASSIGNED;
    }
  }

  /** The first rule that matches decides; a topic no rule matches is unassigned. */
  lemma {:induction false} FirstMatchWins(rules: seq<TeamRule>, topic: string, i: nat)
    requires i <= |rules| && forall j :: 0 <= j < i ==> !rules[j].matches(topic)
    requires i < |rules| ==> rules[i].matches(topic)
    ensures FirstTeam(rules, topic) == if i < |rules| then rules[i].name else UNASSIGNED
  {
    if i > 0 {
      FirstMatchWins(rules[1..], topic, i - 1);
    }
  }

  // ---- Rollup as allocation ----

  function CostOfTeam(rules: seq<TeamRule>, team: string): TopicCost -> bool {
    (c: TopicCost) => FirstTeam(rules, c.name) == team
  }

  function InputOfTeam(rules: seq<TeamRule>, team: string): TopicCostInput -> bool {
    (t: TopicCostInput) => FirstTeam(rules, t.name) == team
  }

  function TeamSum(f: TopicCost -> real, rules: seq<TeamRule>, alloc: seq<TopicCost>, team: string): real {
    SumR(f, Filter(CostOfTeam(rules, team), alloc))
  }

  /** What a team is charged: the euros of its topics. */
  function TeamEUR(rules: seq<TeamRule>, alloc: seq<TopicCost>, team: string): real {
    TeamSum(EurOf, rules, alloc, team)
  }

  /** A team's topics melted into one. */
  function MergedTeam(rules: seq<TeamRule>, ts: seq<TopicCostInput>): string -> TopicCostInput {
    (team: string) => Merge(team, Filter(InputOfTeam(rules, team), ts))
  }

  function PerTeam(f: TopicCostInput -> real, rules: seq<TeamRule>, ts: seq<TopicCostInput>): string -> real {
    (team: string) => SumR(f, Filter(InputOfTeam(rules, team), ts))
  }

  function OnlyFor(team: string, x: real): string -> real {
    (t: string) => if t == team then x else 0.0
  }

  lemma {:induction false} SumOfAbsent(team: string, x: real, teams: seq<string>)
    requires team !in teams
    ensures SumR(OnlyFor(team, x), teams) == 0.0
  {
    if teams != [] {
      SumOfAbsent(team, x, teams[..|teams| - 1]);
    }
  }

  lemma {:induction false} SumOfPresent(team: string, x: real, teams: seq<string>)
    requires NoDup(teams) && team in teams
    ensures SumR(OnlyFor(team, x), teams) == x
  {
    var init, last := teams[..|teams| - 1], teams[|teams| - 1];
    assert teams == init + [last];
    if last == team {
      SumOfAbsent(team, x, init);
    } else {
      SumOfPresent(team, x, init);
    }
  }

  ghost predicate Covers(rules: seq<TeamRule>, teams: seq<string>, ts: seq<TopicCostInput>) {
    NoDup(teams) && forall t :: t in ts ==> FirstTeam(rules, t.name) in teams
  }

  /** Each topic is in exactly one team, so the teams' sums add up to the whole sum. */
  lemma {:induction false} TeamsPartitionSums(f: TopicCostInput -> real, rules: seq<TeamRule>, teams: seq<string>,
                                              ts: seq<TopicCostInput>)
    requires Covers(rules, teams, ts)
    ensures SumR(PerTeam(f, rules, ts), teams) == SumR(f, ts)
  {
    if ts == [] {
      NothingPerTeam(f, rules, teams);
    } else {
      hide PerTeam, OnlyFor, FirstTeam;
      var init, last := ts[..|ts| - 1], ts[|ts| - 1];
      assert ts == init + [last];
      var team := FirstTeam(rules, last.name);
      TeamsPartitionSums(f, rules, teams, init);
      SumOfPresent(team, f(last), teams);
      forall t | t in teams
        ensures PerTeam(f, rules, ts)(t) == PerTeam(f, rules, init)(t) + OnlyFor(team, f(last))(t)
      {
        PerTeamStep(f, rules, init, last, t);
      }
      SumRAdd(PerTeam(f, rules, init), OnlyFor(team, f(last)), PerTeam(f, rules, ts), teams);
    }
  }

  lemma NothingPerTeam(f: TopicCostInput -> real, rules: seq<TeamRule>, teams: seq<string>)
    ensures SumR(PerTeam(f, rules, []), teams) == 0.0
  {
    var zero := (t: string) => 0.0;
    SumRScale(PerTeam(f, rules, []), zero, 0.0, teams);
  }

  lemma PerTeamStep(f: TopicCostInput -> real, rules: seq<TeamRule>, init: seq<TopicCostInput>,
                    last: TopicCostInput, team: string)
    ensures PerTeam(f, rules, init + [last])(team)
            == PerTeam(f, rules, init)(team) + OnlyFor(FirstTeam(rules, last.name), f(last))(team)
  {
    FilterSnoc(InputOfTeam(rules, team), init, last);
    SumRAppend(f, Filter(InputOfTeam(rules, team), init), [last]);
    assert [last][..0] == [] && SumR(f, [last]) == f(last);
    hide FirstTeam, Filter;
  }

  function RealParts(t: TopicCostInput): real { t.partitions as real }

  lemma {:induction false} PartsAsReal(ts: seq<TopicCostInput>)
    ensures SumR(RealParts, ts) == SumI(PartitionsOf, ts) as real
  {
    if ts != [] {
      PartsAsReal(ts[..|ts| - 1]);
    }
  }

  lemma MergedTotals(rules: seq<TeamRule>, teams: seq<string>, ts: seq<TopicCostInput>)
    requires Covers(rules, teams, ts)
    ensures TotalsOf(Map(MergedTeam(rules, ts), teams)) == TotalsOf(ts)
  {
    var merged := MergedTeam(rules, ts);
    forall team
      ensures BytesOf(merged(team)) == PerTeam(BytesOf, rules, ts)(team)
      ensures ThroughputOf(merged(team)) == PerTeam(ThroughputOf, rules, ts)(team)
      ensures RealParts(merged(team)) == PerTeam(RealParts, rules, ts)(team)
    {
      MergeTotals(team, Filter(InputOfTeam(rules, team), ts));
      PartsAsReal(Filter(InputOfTeam(rules, team), ts));
    }
    hide MergedTeam, PerTeam;
    SumROfMap(BytesOf, merged, PerTeam(BytesOf, rules, ts), teams);
    SumROfMap(ThroughputOf, merged, PerTeam(ThroughputOf, rules, ts), teams);
    SumROfMap(RealParts, merged, PerTeam(RealParts, rules, ts), teams);
    TeamsPartitionSums(BytesOf, rules, teams, ts);
    TeamsPartitionSums(ThroughputOf, rules, teams, ts);
    TeamsPartitionSums(RealParts, rules, teams, ts);
    PartsAsReal(ts);
    PartsAsReal(Map(merged, teams));
  }

  /** For any ordered rules, what a team accumulates over its topics is what the cost model allocates
      to it when every team is handed in as a single topic with the summed drivers. */
  lemma RollupIsAllocation(m: CostModel, rules: seq<TeamRule>, teams: seq<string>, ts: seq<TopicCostInput>, i: nat)
    requires Covers(rules, teams, ts) && i < |teams|
    ensures Allocation(m, Map(MergedTeam(rules, ts), teams))[i].eur == TeamEUR(rules, Allocation(m, ts), teams[i])
  {
    var tot, team := TotalsOf(ts), teams[i];
    MergedTotals(rules, teams, ts);
    hide TotalsOf, WeightedShare;
    AllocationIsAdditive(m, tot, team, Filter(InputOfTeam(rules, team), ts));
    FilterOfMap(CostOfTeam(rules, team), InputOfTeam(rules, team), Entry(m, tot), ts);
    hide Entry;
  }

  function TeamSums(f: TopicCost -> real, rules: seq<TeamRule>, alloc: seq<TopicCost>): string -> real {
    (team: string) => TeamSum(f, rules, alloc, team)
  }

  /** What the teams make up of euros, or of GB, adds up to what the topics make up. */
  lemma {:induction false} TeamTotalsAddUp(f: TopicCost -> real, rules: seq<TeamRule>, teams: seq<string>,
                                           alloc: seq<TopicCost>)
    requires NoDup(teams) && forall c :: c in alloc ==> FirstTeam(rules, c.name) in teams
    ensures SumR(TeamSums(f, rules, alloc), teams) == SumR(f, alloc)
  {
    if alloc == [] {
      NothingOwed(f, rules, teams);
    } else {
      hide TeamSums, OnlyFor, FirstTeam;
      var init, last := alloc[..|alloc| - 1], alloc[|alloc| - 1];
      assert alloc == init + [last];
      var team := FirstTeam(rules, last.name);
      TeamTotalsAddUp(f, rules, teams, init);
      SumOfPresent(team, f(last), teams);
      forall t | t in teams
        ensures TeamSums(f, rules, alloc)(t) == TeamSums(f, rules, init)(t) + OnlyFor(team, f(last))(t)
      {
        TeamSumsStep(f, rules, init, last, t);
      }
      SumRAdd(TeamSums(f, rules, init), OnlyFor(team, f(last)), TeamSums(f, rules, alloc), teams);
    }
  }

  lemma NothingOwed(f: TopicCost -> real, rules: seq<TeamRule>, teams: seq<string>)
    ensures SumR(TeamSums(f, rules, []), teams) == 0.0
  {
    var zero := (t: string) => 0.0;
    SumRScale(TeamSums(f, rules, []), zero, 0.0, teams);
  }

  lemma TeamSumsStep(f: TopicCost -> real, rules: seq<TeamRule>, init: seq<TopicCost>, last: TopicCost, team: string)
    ensures TeamSums(f, rules, init + [last])(team)
            == TeamSums(f, rules, init)(team) + OnlyFor(FirstTeam(rules, last.name), f(last))(team)
  {
    TeamSumStep(f, rules, init, last, team);
    hide TeamSum, FirstTeam;
  }

  lemma TeamSumStep(f: TopicCost -> real, rules: seq<TeamRule>, init: seq<TopicCost>, last: TopicCost, team: string)
    ensures TeamSum(f, rules, init + [last], team)
            == TeamSum(f, rules, init, team) + if FirstTeam(rules, last.name) == team then f(last) else 0.0
  {
    FilterSnoc(CostOfTeam(rules, team), init, last);
    SumRAppend(f, Filter(CostOfTeam(rules, team), init), [last]);
    assert [last][..0] == [] && SumR(f, [last]) == f(last);
    hide FirstTeam, Filter;
  }

  // ---- The accumulation loops ----

  datatype Row = Row(name: string, eur: real, gb: real)

  function RowEUR(r: Row): real { r.eur }
  function RowName(r: Row): string { r.name }

  predicate MoreEUR(a: Row, b: Row) { a.eur > b.eur }
  predicate MoreGB(a: Row, b: Row) { a.gb > b.gb }

  function RowOrder(hasCost: bool): (Row, Row) -> bool {
    if hasCost then MoreEUR else MoreGB
  }

  lemma RowOrders(hasCost: bool)
    ensures StrictWeakOrder(RowOrder(hasCost))
  {
  }

  /** Retained GB by topic name; the last of several topics with one name wins. */
  function GBByTopic(topics: seq<Topic>): map<string, real> {
    if topics == [] then map[]
    else
      var t := topics[|topics| - 1];
      GBByTopic(topics[..|topics| - 1])[t.name := GB(t.retainedBytes)]
  }

  function Lookup(m: map<string, real>, k: string): real {
    if k in m then m[k] else 0.0
  }

  method CollectGB(topics: seq<Topic>) returns (gbByTopic: map<string, real>)
    ensures gbByTopic == GBByTopic(topics)
  {
    gbByTopic := map[];
    for i := 0 to |topics|
      invariant gbByTopic == GBByTopic(topics[..i])
    {
      assert topics[..i + 1][..i] == topics[..i];
      gbByTopic := gbByTopic[topics[i].name := GB(topics[i].retainedBytes)];
    }
    assert topics[..|topics|] == topics;
  }

  method SortRows(rows: seq<Row>, hasCost: bool) returns (sorted: seq<Row>)
    ensures Sorted(RowOrder(hasCost), sorted) && multiset(sorted) == multiset(rows)
  {
    var a := new Row[|rows|](i requires 0 <= i < |rows| => rows[i]);
    assert a[..] == rows;
    SortInPlace(a, RowOrder(hasCost));
    sorted := a[..];
    RowOrders(hasCost);
    StableSortCorrect(RowOrder(hasCost), rows);
    SortPermutes(RowOrder(hasCost), rows);
  }

  /** The share column. */
  method SharesOf(rows: seq<Row>, total: real) returns (shares: seq<real>)
    ensures shares == Map(ShareOf(total), rows)
    ensures forall i :: 0 <= i < |rows| ==>
      if total > 0.0 then shares[i] * total == 100.0 * rows[i].eur else shares[i] == 0.0
  {
    shares := [];
    for i := 0 to |rows|
      invariant shares == Map(ShareOf(total), rows[..i])
    {
      MapStep(ShareOf(total), rows, i);
      var share := 0.0;
      if total > 0.0 {
        share := 100.0 * rows[i].eur / total;
      }
      shares := shares + [share];
    }
    assert rows[..|rows|] == rows;
  }

  function ShareOf(total: real): Row -> real {
    (r: Row) => if total > 0.0 then 100.0 * r.eur / total else 0.0
  }

  function Percent(x: real): real { x }

  /** The shares of the rows that make up a positive total sum to one hundred. */
  lemma SharesSumToHundred(rows: seq<Row>, total: real)
    requires total > 0.0 && total == SumR(RowEUR, rows)
    ensures SumR(Percent, Map(ShareOf(total), rows)) == 100.0
  {
    hide ShareOf;
    var c := PercentPerEuro(total);
    SumROfMap(Percent, ShareOf(total), ShareOf(total), rows);
    SumRScale(ShareOf(total), RowEUR, c, rows);
  }

  lemma PercentPerEuro(total: real) returns (c: real)
    requires total > 0.0
    ensures c * total == 100.0
    ensures forall r: Row :: ShareOf(total)(r) == c * RowEUR(r)
  {
    c := 100.0 / total;
    forall r: Row
      ensures ShareOf(total)(r) == c * RowEUR(r)
    {
    }
  }

  function RowEntry(r: Row): (string, real) { (r.name, r.eur) }
  function CostEntry(c: TopicCost): (string, real) { (c.name, c.eur) }

  function TopicRow(gbByTopic: map<string, real>): TopicCost -> Row {
    (c: TopicCost) => Row(c.name, c.eur, Lookup(gbByTopic, c.name))
  }

  /** The per-topic table: one row per allocation, ordered by the driver shown. */
  method TopicTable(topics: seq<Topic>, alloc: seq<TopicCost>, hasCost: bool) returns (rows: seq<Row>, total: real)
    ensures total == SumR(EurOf, alloc)
    ensures Sorted(RowOrder(hasCost), rows) && multiset(rows) == multiset(Map(TopicRow(GBByTopic(topics)), alloc))
    ensures multiset(Map(RowEntry, rows)) == multiset(Map(CostEntry, alloc))
    ensures forall i, j :: 0 <= i < j < |rows| ==>
      if hasCost then rows[i].eur >= rows[j].eur else rows[i].gb >= rows[j].gb
    ensures DistinctTopics(topics) ==>
      forall r, t :: r in rows && t in topics && r.name == t.name ==> r.gb * 1000000000.0 == t.retainedBytes as real
    ensures ListsEachOnce(alloc, topics) ==> SumR(RowGB, rows) * 1000000000.0 == SumI(TopicBytes, topics) as real
  {
    var gbByTopic := CollectGB(topics);
    rows, total := [], 0.0;
    for i := 0 to |alloc|
      invariant total == SumR(EurOf, alloc[..i])
      invariant rows == Map(TopicRow(gbByTopic), alloc[..i])
    {
      assert alloc[..i + 1][..i] == alloc[..i];
      MapStep(TopicRow(gbByTopic), alloc, i);
      var c := alloc[i];
      rows := rows + [Row(c.name, c.eur, Lookup(gbByTopic, c.name))];
      total := total + c.eur;
    }
    assert alloc[..|alloc|] == alloc;
    ghost var listed := rows;
    rows := SortRows(rows, hasCost);
    TopicRowsShown(topics, alloc, hasCost, listed, rows);
  }

  lemma TopicRowsShown(topics: seq<Topic>, alloc: seq<TopicCost>, hasCost: bool, listed: seq<Row>, rows: seq<Row>)
    requires Sorted(RowOrder(hasCost), rows) && multiset(rows) == multiset(listed)
    requires listed == Map(TopicRow(GBByTopic(topics)), alloc)
    ensures multiset(Map(RowEntry, rows)) == multiset(Map(CostEntry, alloc))
    ensures forall i, j :: 0 <= i < j < |rows| ==>
      if hasCost then rows[i].eur >= rows[j].eur else rows[i].gb >= rows[j].gb
    ensures DistinctTopics(topics) ==>
      forall r, t :: r in rows && t in topics && r.name == t.name ==> r.gb * 1000000000.0 == t.retainedBytes as real
    ensures ListsEachOnce(alloc, topics) ==> SumR(RowGB, rows) * 1000000000.0 == SumI(TopicBytes, topics) as real
  {
    var gbByTopic := GBByTopic(topics);
    hide RowOrder, GBByTopic, Lookup;
    MapPermutation(RowEntry, listed, rows);
    assert Map(RowEntry, listed) == Map(CostEntry, alloc);
    forall i, j | 0 <= i < j < |rows|
      ensures if hasCost then rows[i].eur >= rows[j].eur else rows[i].gb >= rows[j].gb
    {
      LargestFirst(hasCost, rows, i, j);
    }
    if DistinctTopics(topics) {
      forall r, t | r in rows && t in topics && r.name == t.name
        ensures r.gb * 1000000000.0 == t.retainedBytes as real
      {
        assert r in multiset(listed);
        GBOfListed(topics, t);
      }
    }
    if ListsEachOnce(alloc, topics) {
      GBIsRetained([], alloc, topics, "");
      SumROfMap(RowGB, TopicRow(gbByTopic), GBOf(gbByTopic), alloc);
      SumRPermutation(RowGB, listed, rows);
    }
  }

  ghost function TeamsOf(rules: seq<TeamRule>, alloc: seq<TopicCost>): set<string> {
    set c | c in alloc :: FirstTeam(rules, c.name)
  }

  function GBOf(gbByTopic: map<string, real>): TopicCost -> real {
    (c: TopicCost) => Lookup(gbByTopic, c.name)
  }

  /** The accumulated map holds the sum of f over each team that has a topic, and nothing else. */
  ghost predicate Tallies(m: map<string, real>, f: TopicCost -> real, rules: seq<TeamRule>, alloc: seq<TopicCost>) {
    m.Keys == TeamsOf(rules, alloc) && forall team :: Lookup(m, team) == TeamSum(f, rules, alloc, team)
  }

  lemma TallyOfNothing(f: TopicCost -> real, rules: seq<TeamRule>)
    ensures Tallies(map[], f, rules, [])
  {
  }

  lemma TeamsOfMore(rules: seq<TeamRule>, init: seq<TopicCost>, last: TopicCost)
    ensures TeamsOf(rules, init + [last]) == TeamsOf(rules, init) + {FirstTeam(rules, last.name)}
  {
    hide FirstTeam;
    assert forall c :: c in init + [last] <==> c in init || c == last;
  }

  lemma LookupAfter(m: map<string, real>, k: string, x: real, q: string)
    ensures Lookup(m[k := x], q) == if q == k then x else Lookup(m, q)
  {
  }

  lemma TallyStep(m: map<string, real>, f: TopicCost -> real, rules: seq<TeamRule>, init: seq<TopicCost>,
                  last: TopicCost)
    requires Tallies(m, f, rules, init)
    ensures var team := FirstTeam(rules, last.name);
            Tallies(m[team := Lookup(m, team) + f(last)], f, rules, init + [last])
  {
    var team := FirstTeam(rules, last.name);
    var m' := m[team := Lookup(m, team) + f(last)];
    TeamsOfMore(rules, init, last);
    hide TeamSum, FirstTeam, TeamsOf, Lookup;
    forall q
      ensures Lookup(m', q) == TeamSum(f, rules, init + [last], q)
    {
      TeamSumStep(f, rules, init, last, q);
      LookupAfter(m, team, Lookup(m, team) + f(last), q);
    }
  }

  method Accumulate(flags: TeamFlags, alloc: seq<TopicCost>, gbByTopic: map<string, real>)
    returns (eurByTeam: map<string, real>, gbByTeam: map<string, real>)
    ensures Tallies(eurByTeam, EurOf, flags.rules, alloc)
    ensures Tallies(gbByTeam, GBOf(gbByTopic), flags.rules, alloc)
  {
    hide Tallies, FirstTeam, Lookup;
    eurByTeam, gbByTeam := map[], map[];
    TallyOfNothing(EurOf, flags.rules);
    TallyOfNothing(GBOf(gbByTopic), flags.rules);
    for i := 0 to |alloc|
      invariant Tallies(eurByTeam, EurOf, flags.rules, alloc[..i])
      invariant Tallies(gbByTeam, GBOf(gbByTopic), flags.rules, alloc[..i])
    {
      var c := alloc[i];
      assert alloc[..i + 1] == alloc[..i] + [c];
      TallyStep(eurByTeam, EurOf, flags.rules, alloc[..i], c);
      TallyStep(gbByTeam, GBOf(gbByTopic), flags.rules, alloc[..i], c);
      var team := flags.TeamFor(c.name);
      eurByTeam := eurByTeam[team := Lookup(eurByTeam, team) + c.eur];
      gbByTeam := gbByTeam[team := Lookup(gbByTeam, team) + Lookup(gbByTopic, c.name)];
    }
    assert alloc[..|alloc|] == alloc;
  }

  /** A team's line: its topics' euros and retained GB. */
  function TeamRow(rules: seq<TeamRule>, alloc: seq<TopicCost>, gbByTopic: map<string, real>): string -> Row {
    (team: string) => Row(team, TeamEUR(rules, alloc, team), TeamSum(GBOf(gbByTopic), rules, alloc, team))
  }

  /** One row for each team that has a topic, with that team's sums, in the order of the driver shown. */
  ghost predicate IsTeamTable(rows: seq<Row>, rules: seq<TeamRule>, alloc: seq<TopicCost>,
                              gbByTopic: map<string, real>, hasCost: bool)
  {
    && Sorted(RowOrder(hasCost), rows)
    && Enumerates(Map(RowName, rows), TeamsOf(rules, alloc))
    && forall r :: r in rows ==> r == TeamRow(rules, alloc, gbByTopic)(r.name)
  }

  /** The per-team table, for every order in which Go may visit the accumulated map: one row for each
      team that has a topic, holding that team's sums; the total is the topics' total. */
  method TeamTable(topics: seq<Topic>, alloc: seq<TopicCost>, flags: TeamFlags, hasCost: bool)
    returns (rows: seq<Row>, total: real)
    ensures total == SumR(EurOf, alloc) && total == SumR(RowEUR, rows)
    ensures IsTeamTable(rows, flags.rules, alloc, GBByTopic(topics), hasCost)
    ensures forall i, j :: 0 <= i < j < |rows| ==>
      if hasCost then rows[i].eur >= rows[j].eur else rows[i].gb >= rows[j].gb
    ensures ListsEachOnce(alloc, topics) ==>
      && SumR(RowGB, rows) * 1000000000.0 == SumI(TopicBytes, topics) as real
      && forall r :: r in rows ==>
           r.gb * 1000000000.0 == SumI(TopicBytes, Filter(TopicOfTeam(flags.rules, r.name), topics)) as real
  {
    var gbByTopic := CollectGB(topics);
    var eurByTeam, gbByTeam := Accumulate(flags, alloc, gbByTopic);
    var found;
    found, total := RowsOf(eurByTeam, gbByTeam);
    forall r | r in found
      ensures r == TeamRow(flags.rules, alloc, gbByTopic)(r.name)
    {
    }
    TableTotals(flags.rules, alloc, gbByTopic, found);
    hide TeamSum, FirstTeam, TeamRow;
    rows := SortRows(found, hasCost);
    SumRPermutation(RowEUR, found, rows);
    MapPermutation(RowName, found, rows);
    EnumeratesPermutation(Map(RowName, found), Map(RowName, rows), eurByTeam.Keys);
    assert forall r :: r in rows <==> r in multiset(found);
    TeamRowsShown(topics, alloc, flags.rules, hasCost, rows);
  }

  lemma TeamRowsShown(topics: seq<Topic>, alloc: seq<TopicCost>, rules: seq<TeamRule>, hasCost: bool, rows: seq<Row>)
    requires IsTeamTable(rows, rules, alloc, GBByTopic(topics), hasCost)
    ensures forall i, j :: 0 <= i < j < |rows| ==>
      if hasCost then rows[i].eur >= rows[j].eur else rows[i].gb >= rows[j].gb
    ensures ListsEachOnce(alloc, topics) ==>
      && SumR(RowGB, rows) * 1000000000.0 == SumI(TopicBytes, topics) as real
      && forall r :: r in rows ==>
           r.gb * 1000000000.0 == SumI(TopicBytes, Filter(TopicOfTeam(rules, r.name), topics)) as real
  {
    hide RowOrder, GBByTopic, TeamSum, TeamsOf, FirstTeam;
    forall i, j | 0 <= i < j < |rows|
      ensures if hasCost then rows[i].eur >= rows[j].eur else rows[i].gb >= rows[j].gb
    {
      LargestFirst(hasCost, rows, i, j);
    }
    if ListsEachOnce(alloc, topics) {
      TableTotals(rules, alloc, GBByTopic(topics), rows);
      GBIsRetained(rules, alloc, topics, "");
      forall r | r in rows
        ensures r.gb * 1000000000.0 == SumI(TopicBytes, Filter(TopicOfTeam(rules, r.name), topics)) as real
      {
        GBIsRetained(rules, alloc, topics, r.name);
      }
    }
  }

  /** The loop over the map of team sums. */
  method RowsOf(eurByTeam: map<string, real>, gbByTeam: map<string, real>) returns (rows: seq<Row>, total: real)
    requires gbByTeam.Keys == eurByTeam.Keys
    ensures Enumerates(Map(RowName, rows), eurByTeam.Keys)
    ensures forall r :: r in rows ==> r == Row(r.name, Lookup(eurByTeam, r.name), Lookup(gbByTeam, r.name))
    ensures total == SumR(RowEUR, rows)
  {
    rows, total := [], 0.0;
    var left := eurByTeam.Keys;
    while left != {}
      invariant left <= eurByTeam.Keys
      invariant total == SumR(RowEUR, rows)
      invariant forall r :: r in rows ==> r == Row(r.name, Lookup(eurByTeam, r.name), Lookup(gbByTeam, r.name))
      invariant Enumerates(Map(RowName, rows), eurByTeam.Keys - left)
      decreases left
    {
      var team :| team in left;
      var row := Row(team, eurByTeam[team], gbByTeam[team]);
      assert (rows + [row])[..|rows|] == rows;
      MapSnoc(RowName, rows, row);
      assert team !in Map(RowName, rows);
      rows := rows + [row];
      total := total + eurByTeam[team];
      left := left - {team};
    }
    assert eurByTeam.Keys - left == eurByTeam.Keys;
  }

  lemma TableTotals(rules: seq<TeamRule>, alloc: seq<TopicCost>, gbByTopic: map<string, real>, rows: seq<Row>)
    requires Enumerates(Map(RowName, rows), TeamsOf(rules, alloc))
    requires forall r :: r in rows ==> r == TeamRow(rules, alloc, gbByTopic)(r.name)
    ensures SumR(RowEUR, rows) == SumR(EurOf, alloc)
    ensures SumR(RowGB, rows) == SumR(GBOf(gbByTopic), alloc)
  {
    hide TeamSum, FirstTeam;
    TeamTotalsAddUp(EurOf, rules, Map(RowName, rows), alloc);
    SumROfMap(TeamSums(EurOf, rules, alloc), RowName, RowEUR, rows);
    TeamTotalsAddUp(GBOf(gbByTopic), rules, Map(RowName, rows), alloc);
    SumROfMap(TeamSums(GBOf(gbByTopic), rules, alloc), RowName, RowGB, rows);
  }

  /** Rows from the largest figure shown to the smallest: euros with a bill, GB without. */
  lemma LargestFirst(hasCost: bool, rows: seq<Row>, i: nat, j: nat)
    requires Sorted(RowOrder(hasCost), rows) && i < j < |rows|
    ensures if hasCost then rows[i].eur >= rows[j].eur else rows[i].gb >= rows[j].gb
  {
    assert !RowOrder(hasCost)(rows[j], rows[i]);
  }

  // ---- The GB column ----

  function CostName(c: TopicCost): string { c.name }

  function TopicOfTeam(rules: seq<TeamRule>, team: string): Topic -> bool {
    (t: Topic) => FirstTeam(rules, t.name) == team
  }

  /** The allocation has one entry for each topic, in any order. */
  ghost predicate ListsEachOnce(alloc: seq<TopicCost>, topics: seq<Topic>) {
    DistinctTopics(topics) && multiset(Map(CostName, alloc)) == multiset(Map(NameOf, topics))
  }

  lemma {:induction false} GBOfListed(topics: seq<Topic>, t: Topic)
    requires DistinctTopics(topics) && t in topics
    ensures Lookup(GBByTopic(topics), t.name) * 1000000000.0 == t.retainedBytes as real
  {
    var init, last := topics[..|topics| - 1], topics[|topics| - 1];
    assert topics == init + [last];
    if t != last {
      GBOfListed(init, t);
      assert last.name != t.name;
    }
  }

  function ByName(m: map<string, real>): string -> real { (name: string) => Lookup(m, name) }

  function Billionth(t: Topic): real { t.retainedBytes as real / 1000000000.0 }

  lemma {:induction false} BillionthsAddUp(ts: seq<Topic>)
    ensures SumR(Billionth, ts) * 1000000000.0 == SumI(TopicBytes, ts) as real
  {
    if ts != [] {
      BillionthsAddUp(ts[..|ts| - 1]);
    }
  }

  lemma GBOverList(gbByTopic: map<string, real>, cs: seq<TopicCost>, ts: seq<Topic>)
    requires multiset(Map(CostName, cs)) == multiset(Map(NameOf, ts))
    requires forall t :: t in ts ==> Lookup(gbByTopic, t.name) * 1000000000.0 == t.retainedBytes as real
    ensures SumR(GBOf(gbByTopic), cs) * 1000000000.0 == SumI(TopicBytes, ts) as real
  {
    SumROfMap(ByName(gbByTopic), CostName, GBOf(gbByTopic), cs);
    SumRPermutation(ByName(gbByTopic), Map(CostName, cs), Map(NameOf, ts));
    SumROfMap(ByName(gbByTopic), NameOf, Billionth, ts);
    BillionthsAddUp(ts);
    hide Lookup, SumR, SumI;
  }

  function InTeam(rules: seq<TeamRule>, team: string): string -> bool {
    (name: string) => FirstTeam(rules, name) == team
  }

  /** The GB column adds up to what the topics retain, and a team's figure is what the topics first matched to it
      retain. */
  lemma GBIsRetained(rules: seq<TeamRule>, alloc: seq<TopicCost>, topics: seq<Topic>, team: string)
    requires ListsEachOnce(alloc, topics)
    ensures SumR(GBOf(GBByTopic(topics)), alloc) * 1000000000.0 == SumI(TopicBytes, topics) as real
    ensures TeamSum(GBOf(GBByTopic(topics)), rules, alloc, team) * 1000000000.0
            == SumI(TopicBytes, Filter(TopicOfTeam(rules, team), topics)) as real
  {
    var gbByTopic := GBByTopic(topics);
    forall t | t in topics
      ensures Lookup(gbByTopic, t.name) * 1000000000.0 == t.retainedBytes as real
    {
      GBOfListed(topics, t);
    }
    hide Lookup, GBByTopic, FirstTeam;
    GBOverList(gbByTopic, alloc, topics);
    var cs, ts := Filter(CostOfTeam(rules, team), alloc), Filter(TopicOfTeam(rules, team), topics);
    FilterPermutation(InTeam(rules, team), Map(CostName, alloc), Map(NameOf, topics));
    FilterOfMap(InTeam(rules, team), CostOfTeam(rules, team), CostName, alloc);
    FilterOfMap(InTeam(rules, team), TopicOfTeam(rules, team), NameOf, topics);
    GBOverList(gbByTopic, cs, ts);
  }

  // ---- From a snapshot to the entries ----

  /** What `brod cost` hands to the allocation for a topic. */
  function InputOf(t: Topic): TopicCostInput {
    TopicCostInput(t.name, t.retainedBytes, t.bytesInPerSec, t.bytesOutPerSec, t.partitions)
  }

  method CostInputs(topics: seq<Topic>) returns (inputs: seq<TopicCostInput>)
    ensures inputs == Map(InputOf, topics)
  {
    inputs := [];
    for i := 0 to |topics|
      invariant inputs == Map(InputOf, topics[..i])
    {
      MapStep(InputOf, topics, i);
      var t := topics[i];
      inputs := inputs + [TopicCostInput(t.name, t.retainedBytes, t.bytesInPerSec, t.bytesOutPerSec, t.partitions)];
    }
    assert topics[..|topics|] == topics;
  }

  function TopicIn(t: Topic): real { t.bytesInPerSec }
  function TopicOut(t: Topic): real { t.bytesOutPerSec }

  /** The entry `brod cost` shows for a topic: its parts of the three pots, by the topic's own fields. */
  lemma TopicEntry(m: CostModel, topics: seq<Topic>, i: nat) returns (x: real, y: real, z: real)
    requires i < |topics| && m.monthlyCostEUR > 0.0
    ensures var entry, t := Allocation(m, Map(InputOf, topics))[i], topics[i];
            var bill, w := m.monthlyCostEUR, EffectiveWeights(m);
            && entry.name == t.name && entry.eur == x + y + z
            && Apportioned(x, bill * w.storage, t.retainedBytes as real, SumI(TopicBytes, topics) as real)
            && Apportioned(y, bill * w.throughput, t.bytesInPerSec + t.bytesOutPerSec,
                           SumR(TopicIn, topics) + SumR(TopicOut, topics))
            && Apportioned(z, bill * w.partition, t.partitions as real, SumI(TopicPartitions, topics) as real)
  {
    assert Map(InputOf, topics)[i] == InputOf(topics[i]);
    InputTotals(topics);
    hide Allocation, SumI, SumR, EffectiveWeights, Apportioned, Traffic;
    x, y, z := EntryByDrivers(m, Map(InputOf, topics), i);
  }

  lemma InputTotals(topics: seq<Topic>)
    ensures var inputs := Map(InputOf, topics);
            && SumI(RetainedOf, inputs) == SumI(TopicBytes, topics)
            && Traffic(inputs) == SumR(TopicIn, topics) + SumR(TopicOut, topics)
            && SumI(PartitionsOf, inputs) == SumI(TopicPartitions, topics)
  {
    SumIOfMap(RetainedOf, InputOf, TopicBytes, topics);
    SumROfMap(InOf, InputOf, TopicIn, topics);
    SumROfMap(OutOf, InputOf, TopicOut, topics);
    SumIOfMap(PartitionsOf, InputOf, TopicPartitions, topics);
    hide SumI, SumR;
  }

  /** The allocation of a snapshot has one entry for each of its topics. */
  lemma AllocationListsTopics(m: CostModel, topics: seq<Topic>)
    requires DistinctTopics(topics)
    ensures ListsEachOnce(Allocation(m, Map(InputOf, topics)), topics)
  {
    hide WeightedShare, TotalsOf;
    assert Map(CostName, Allocation(m, Map(InputOf, topics))) == Map(NameOf, topics);
  }

  // ---- When the row order is determined ----

  function Shown(hasCost: bool): Row -> real { if hasCost then RowEUR else RowGB }

  function RowGB(r: Row): real { r.gb }

  /** No two teams tie on the driver shown. */
  ghost predicate NoTies(rules: seq<TeamRule>, alloc: seq<TopicCost>, gbByTopic: map<string, real>, hasCost: bool) {
    forall p, q :: p in TeamsOf(rules, alloc) && q in TeamsOf(rules, alloc) && p != q ==>
      Shown(hasCost)(TeamRow(rules, alloc, gbByTopic)(p)) != Shown(hasCost)(TeamRow(rules, alloc, gbByTopic)(q))
  }

  lemma OrderIsByFigure(hasCost: bool, a: Row, b: Row)
    ensures RowOrder(hasCost)(a, b) <==> Shown(hasCost)(a) > Shown(hasCost)(b)
  {
  }

  ghost predicate Descending(f: Row -> real, rows: seq<Row>) {
    forall i, j :: 0 <= i < j < |rows| ==> f(rows[i]) >= f(rows[j])
  }

  lemma SortedIsDescending(hasCost: bool, rows: seq<Row>)
    ensures Sorted(RowOrder(hasCost), rows) <==> Descending(Shown(hasCost), rows)
  {
    forall i, j | 0 <= i < j < |rows|
      ensures RowOrder(hasCost)(rows[j], rows[i]) <==> Shown(hasCost)(rows[j]) > Shown(hasCost)(rows[i])
    {
      OrderIsByFigure(hasCost, rows[j], rows[i]);
    }
    hide Shown, RowOrder;
  }

  /** The rows of two tables of one rollup are the same rows. */
  lemma SameRows(a: seq<Row>, b: seq<Row>, rules: seq<TeamRule>, alloc: seq<TopicCost>, gbByTopic: map<string, real>,
                 hasCost: bool)
    requires IsTeamTable(a, rules, alloc, gbByTopic, hasCost) && IsTeamTable(b, rules, alloc, gbByTopic, hasCost)
    ensures multiset(a) == multiset(b)
  {
    var row, as_, bs := TeamRow(rules, alloc, gbByTopic), Map(RowName, a), Map(RowName, b);
    EnumerationsPermute(as_, bs, TeamsOf(rules, alloc));
    MapPermutation(row, as_, bs);
    hide TeamRow, Sorted;
    assert Map(row, as_) == a && Map(row, bs) == b;
  }

  ghost predicate Untied(f: Row -> real, rows: seq<Row>) {
    forall x, y :: x in rows && y in rows && x != y ==> f(x) != f(y)
  }

  lemma WithoutLastToo(f: Row -> real, rows: seq<Row>)
    requires rows != [] && Descending(f, rows)
    ensures Descending(f, rows[..|rows| - 1])
    ensures Untied(f, rows) ==> Untied(f, rows[..|rows| - 1])
  {
    assert rows == rows[..|rows| - 1] + [rows[|rows| - 1]];
  }

  lemma {:induction false} DescendingIsUnique(f: Row -> real, a: seq<Row>, b: seq<Row>)
    requires multiset(a) == multiset(b) && Untied(f, a) && Descending(f, a) && Descending(f, b)
    ensures a == b
    decreases |a|
  {
    assert |b| == |multiset(b)| == |multiset(a)| == |a|;
    if a != [] {
      SameLast(f, a, b);
      WithoutLast(a, b);
      WithoutLastToo(f, a);
      WithoutLastToo(f, b);
      hide Untied, Descending;
      var n := |a| - 1;
      DescendingIsUnique(f, a[..n], b[..n]);
      assert a == a[..n] + [a[n]] && b == b[..n] + [b[n]];
    }
  }

  lemma SameLast(f: Row -> real, a: seq<Row>, b: seq<Row>)
    requires a != [] && |a| == |b| && multiset(a) == multiset(b)
    requires Untied(f, a) && Descending(f, a) && Descending(f, b)
    ensures a[|a| - 1] == b[|b| - 1]
  {
    var n := |a| - 1;
    assert a[n] in multiset(b) && b[n] in multiset(a);
    var i :| 0 <= i < |b| && b[i] == a[n];
    var j :| 0 <= j < |a| && a[j] == b[n];
    assert f(a[j]) >= f(a[n]) && f(b[i]) >= f(b[n]);
    assert a[n] in a && a[j] in a;
  }

  function Swapped(rows: seq<Row>, i: nat, j: nat): seq<Row>
    requires i < |rows| && j < |rows|
  {
    rows[i := rows[j]][j := rows[i]]
  }

  lemma SwapKeepsDescending(f: Row -> real, rows: seq<Row>, i: nat, j: nat)
    requires i < |rows| && j < |rows| && f(rows[i]) == f(rows[j]) && Descending(f, rows)
    ensures Descending(f, Swapped(rows, i, j)) && multiset(Swapped(rows, i, j)) == multiset(rows)
  {
    var other := Swapped(rows, i, j);
    assert forall k :: 0 <= k < |rows| ==> f(other[k]) == f(rows[k]);
  }

  lemma RowOfTeam(rows: seq<Row>, rules: seq<TeamRule>, alloc: seq<TopicCost>, gbByTopic: map<string, real>,
                  hasCost: bool, team: string) returns (i: nat)
    requires IsTeamTable(rows, rules, alloc, gbByTopic, hasCost) && team in TeamsOf(rules, alloc)
    ensures i < |rows| && rows[i].name == team && rows[i] == TeamRow(rules, alloc, gbByTopic)(team)
  {
    hide TeamRow, RowOrder, TeamsOf;
    assert team in Map(RowName, rows);
    i :| 0 <= i < |rows| && Map(RowName, rows)[i] == team;
    assert rows[i] in rows;
  }

  lemma RelistedTable(rows: seq<Row>, other: seq<Row>, rules: seq<TeamRule>, alloc: seq<TopicCost>,
                      gbByTopic: map<string, real>, hasCost: bool)
    requires IsTeamTable(rows, rules, alloc, gbByTopic, hasCost) && multiset(other) == multiset(rows)
    requires Sorted(RowOrder(hasCost), other)
    ensures IsTeamTable(other, rules, alloc, gbByTopic, hasCost)
  {
    hide TeamRow, RowOrder, TeamsOf;
    MapPermutation(RowName, rows, other);
    EnumeratesPermutation(Map(RowName, rows), Map(RowName, other), TeamsOf(rules, alloc));
    forall r | r in other
      ensures r in rows
    {
      assert r in multiset(rows);
    }
  }

  /** Two teams that tie may stand in either order. */
  lemma SwapTied(rows: seq<Row>, rules: seq<TeamRule>, alloc: seq<TopicCost>, gbByTopic: map<string, real>,
                 hasCost: bool, p: string, q: string) returns (other: seq<Row>)
    requires IsTeamTable(rows, rules, alloc, gbByTopic, hasCost)
    requires p in TeamsOf(rules, alloc) && q in TeamsOf(rules, alloc) && p != q
    requires var row := TeamRow(rules, alloc, gbByTopic); Shown(hasCost)(row(p)) == Shown(hasCost)(row(q))
    ensures IsTeamTable(other, rules, alloc, gbByTopic, hasCost) && other != rows
  {
    var i := RowOfTeam(rows, rules, alloc, gbByTopic, hasCost, p);
    var j := RowOfTeam(rows, rules, alloc, gbByTopic, hasCost, q);
    other := Swapped(rows, i, j);
    assert other[i] != rows[i];
    hide TeamRow, RowOrder, Shown, TeamsOf, Swapped, Descending;
    SortedIsDescending(hasCost, rows);
    SwapKeepsDescending(Shown(hasCost), rows, i, j);
    SortedIsDescending(hasCost, other);
    RelistedTable(rows, other, rules, alloc, gbByTopic, hasCost);
  }

  /** The per-team table comes out in one order, whatever order Go visits the map in, exactly when no two teams
      tie on the driver shown. */
  lemma TeamOrderIsFixedIff(rows: seq<Row>, rules: seq<TeamRule>, alloc: seq<TopicCost>,
                            gbByTopic: map<string, real>, hasCost: bool)
    requires IsTeamTable(rows, rules, alloc, gbByTopic, hasCost)
    ensures (forall other :: IsTeamTable(other, rules, alloc, gbByTopic, hasCost) ==> other == rows)
            <==> NoTies(rules, alloc, gbByTopic, hasCost)
  {
    if NoTies(rules, alloc, gbByTopic, hasCost) {
      forall other | IsTeamTable(other, rules, alloc, gbByTopic, hasCost)
        ensures other == rows
      {
        SameRows(rows, other, rules, alloc, gbByTopic, hasCost);
        UntiedTablesAgree(rows, other, rules, alloc, gbByTopic, hasCost);
      }
    } else {
      hide IsTeamTable, TeamRow, Shown, TeamsOf;
      var p, q :| p in TeamsOf(rules, alloc) && q in TeamsOf(rules, alloc) && p != q &&
                  Shown(hasCost)(TeamRow(rules, alloc, gbByTopic)(p))
                  == Shown(hasCost)(TeamRow(rules, alloc, gbByTopic)(q));
      var other := SwapTied(rows, rules, alloc, gbByTopic, hasCost, p, q);
    }
  }

  lemma UntiedTablesAgree(a: seq<Row>, b: seq<Row>, rules: seq<TeamRule>, alloc: seq<TopicCost>,
                          gbByTopic: map<string, real>, hasCost: bool)
    requires NoTies(rules, alloc, gbByTopic, hasCost) && multiset(a) == multiset(b)
    requires IsTeamTable(a, rules, alloc, gbByTopic, hasCost) && IsTeamTable(b, rules, alloc, gbByTopic, hasCost)
    ensures a == b
  {
    hide TeamRow, RowOrder, Shown, TeamsOf, Descending;
    SortedIsDescending(hasCost, a);
    SortedIsDescending(hasCost, b);
    forall x, y | x in a && y in a && x != y
      ensures Shown(hasCost)(x) != Shown(hasCost)(y)
    {
      var i :| 0 <= i < |a| && a[i] == x;
      var j :| 0 <= j < |a| && a[j] == y;
      assert Map(RowName, a)[i] == x.name && Map(RowName, a)[j] == y.name;
      assert x.name in Map(RowName, a) && y.name in Map(RowName, a);
    }
    DescendingIsUnique(Shown(hasCost), a, b);
  }
}
