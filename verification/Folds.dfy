/** The collector's loops over Go maps. Go visits the keys in an unspecified order; each loop here
    takes an arbitrary remaining key, so what is proved holds for every order. */
module Folds {
  import opened Seqs
  import opened Helpers
  import opened Sorting

  // ---- Replica bytes ----

  /** A partition's on-disk size: the sum over its replicas. */
  function ReplicaSum(parts: map<int, seq<int>>): int -> int {
    (pid: int) => if pid in parts then SumI(Itself, parts[pid]) else 0
  }

  /** The partition ids, smallest first. */
  ghost function AscendingKeys(keys: set<int>): seq<int> {
    Ascending(Listing(keys))
  }

  lemma AscendingKeysAreTheKeys(keys: set<int>)
    ensures Enumerates(AscendingKeys(keys), keys)
    ensures forall i, j :: 0 <= i < j < |AscendingKeys(keys)| ==> AscendingKeys(keys)[i] < AscendingKeys(keys)[j]
  {
    AscendingIsSorted(Listing(keys));
    EnumeratesPermutation(Listing(keys), AscendingKeys(keys), keys);
    hide Ascending;
  }

  lemma EveryOrderSortsAlike(order: seq<int>, keys: set<int>)
    requires Enumerates(order, keys)
    ensures Ascending(order) == AscendingKeys(keys)
  {
    EnumerationsPermute(order, Listing(keys), keys);
    AscendingIsOrderFree(order, Listing(keys));
  }

  method SumOf(xs: seq<int>) returns (sum: int)
    ensures sum == SumI(Itself, xs)
  {
    sum := 0;
    for i := 0 to |xs|
      invariant sum == SumI(Itself, xs[..i])
    {
      assert xs[..i + 1][..i] == xs[..i];
      sum := sum + xs[i];
    }
    assert xs[..|xs|] == xs;
  }

  method SumReplicaBytes(parts: map<int, seq<int>>) returns (total: int)
    ensures total == SumOver(ReplicaSum(parts), parts.Keys)
  {
    total := 0;
    var left := parts.Keys;
    while left != {}
      invariant left <= parts.Keys
      invariant total + SumOver(ReplicaSum(parts), left) == SumOver(ReplicaSum(parts), parts.Keys)
      decreases left
    {
      SomeKey(left);
      var pid :| pid in left;
      SumOverTakes(ReplicaSum(parts), left, pid);
      var bytes := SumOf(parts[pid]);
      total := total + bytes;
      left := left - {pid};
    }
  }

  method PartitionIds(parts: map<int, seq<int>>) returns (pids: seq<int>)
    ensures pids == AscendingKeys(parts.Keys)
  {
    var found: seq<int>, left := [], parts.Keys;
    while left != {}
      invariant left <= parts.Keys && Enumerates(found, parts.Keys - left)
      decreases left
    {
      SomeKey(left);
      var pid :| pid in left;
      found := found + [pid];
      left := left - {pid};
    }
    assert parts.Keys - left == parts.Keys;
    EveryOrderSortsAlike(found, parts.Keys);
    var a := new int[|found|](i requires 0 <= i < |found| => found[i]);
    assert a[..] == found;
    SortInPlace(a, IntLess);
    pids := a[..];
  }

  method PerPartitionBytes(parts: map<int, seq<int>>) returns (out: seq<int>)
    ensures out == Map(ReplicaSum(parts), AscendingKeys(parts.Keys))
  {
    AscendingKeysAreTheKeys(parts.Keys);
    if |parts| == 0 {
      EnumerationSize(AscendingKeys(parts.Keys), parts.Keys);
      return [];
    }
    var pids := PartitionIds(parts);
    out := [];
    for i := 0 to |pids|
      invariant out == Map(ReplicaSum(parts), pids[..i])
    {
      MapStep(ReplicaSum(parts), pids, i);
      assert pids[i] in parts.Keys;
      var sum := SumOf(parts[pids[i]]);
      out := out + [sum];
    }
    assert pids[..|pids|] == pids;
  }

  /** Bytes are conserved: one entry a partition, in order of id, adding up to the topic's total. */
  lemma PartitionsCarryAllBytes(parts: map<int, seq<int>>)
    ensures var sizes := Map(ReplicaSum(parts), AscendingKeys(parts.Keys));
            |sizes| == |parts.Keys| && SumI(Itself, sizes) == SumOver(ReplicaSum(parts), parts.Keys)
  {
    var pids := AscendingKeys(parts.Keys);
    AscendingKeysAreTheKeys(parts.Keys);
    SumIOfMap(Itself, ReplicaSum(parts), ReplicaSum(parts), pids);
    SumOverEnumeration(ReplicaSum(parts), pids, parts.Keys);
    EnumerationSize(pids, parts.Keys);
  }

  /** Every replica size of these partitions, in one list. */
  function AllReplicas(order: seq<int>, parts: map<int, seq<int>>): seq<int>
    requires forall i :: 0 <= i < |order| ==> order[i] in parts
  {
    if order == [] then [] else AllReplicas(order[..|order| - 1], parts) + parts[order[|order| - 1]]
  }

  /** The total is over all replicas of all partitions, whichever order they are read in. */
  lemma TotalIsOverAllReplicas(parts: map<int, seq<int>>, order: seq<int>)
    requires Enumerates(order, parts.Keys)
    ensures forall i :: 0 <= i < |order| ==> order[i] in parts
    ensures SumOver(ReplicaSum(parts), parts.Keys) == SumI(Itself, AllReplicas(order, parts))
  {
    assert forall i :: 0 <= i < |order| ==> order[i] in order;
    SumOverEnumeration(ReplicaSum(parts), order, parts.Keys);
    SumOfAllReplicas(parts, order);
  }

  lemma {:induction false} SumOfAllReplicas(parts: map<int, seq<int>>, order: seq<int>)
    requires forall i :: 0 <= i < |order| ==> order[i] in parts
    ensures SumI(ReplicaSum(parts), order) == SumI(Itself, AllReplicas(order, parts))
  {
    if order != [] {
      var init, last := order[..|order| - 1], order[|order| - 1];
      assert order == init + [last];
      SumOfAllReplicas(parts, init);
      SumIAppend(Itself, AllReplicas(init, parts), parts[last]);
    }
  }

  // ---- Offset span ----

  /** The running earliest offset after visiting these partitions in this order. The first partition
      visited uses up the `first` flag whether or not it has a start offset. */
  function EarliestOver(order: seq<int>, start: map<int, int>): int {
    if order == [] then 0
    else
      var earliest, pid := EarliestOver(order[..|order| - 1], start), order[|order| - 1];
      if pid in start && (|order| == 1 || start[pid] < earliest) then start[pid] else earliest
  }

  function LatestOver(order: seq<int>, end: map<int, int>): int {
    if order == [] then 0
    else
      var latest, pid := LatestOver(order[..|order| - 1], end), order[|order| - 1];
      if pid in end && end[pid] > latest then end[pid] else latest
  }

  ghost predicate IsLatest(x: int, keys: set<int>, end: map<int, int>) {
    && x >= 0
    && (forall pid :: pid in keys && pid in end ==> end[pid] <= x)
    && (x == 0 || exists pid :: pid in keys && pid in end && end[pid] == x)
  }

  /** In every order the latest offset is the largest end offset, or zero if none is above zero. */
  lemma {:induction false} LatestIsMax(order: seq<int>, keys: set<int>, end: map<int, int>)
    requires Enumerates(order, keys)
    ensures IsLatest(LatestOver(order, end), keys, end)
  {
    if order != [] {
      var init, last := order[..|order| - 1], order[|order| - 1];
      assert order == init + [last];
      LatestIsMax(init, keys - {last}, end);
    }
  }

  /** An earliest offset that some visiting order yields. */
  ghost predicate SomeEarliest(x: int, keys: set<int>, start: map<int, int>) {
    exists order :: Enumerates(order, keys) && x == EarliestOver(order, start)
  }

  method OffsetSpan(replicas: map<int, seq<int>>, start: map<int, int>, end: map<int, int>)
    returns (earliest: int, latest: int)
    ensures SomeEarliest(earliest, replicas.Keys, start)
    ensures IsLatest(latest, replicas.Keys, end)
  {
    earliest, latest := 0, 0;
    var first, left := true, replicas.Keys;
    ghost var order: seq<int> := [];
    while left != {}
      invariant left <= replicas.Keys && Enumerates(order, replicas.Keys - left)
      invariant first <==> order == []
      invariant earliest == EarliestOver(order, start) && latest == LatestOver(order, end)
      decreases left
    {
      SomeKey(left);
      var pid :| pid in left;
      assert (order + [pid])[..|order|] == order;
      if pid in start {
        if first || start[pid] < earliest {
          earliest := start[pid];
        }
      }
      if pid in end {
        if end[pid] > latest {
          latest := end[pid];
        }
      }
      first := false;
      order := order + [pid];
      left := left - {pid};
    }
    assert replicas.Keys - left == replicas.Keys;
    LatestIsMax(order, replicas.Keys, end);
  }

  ghost predicate IsLeastStart(x: int, keys: set<int>, start: map<int, int>) {
    && (forall pid :: pid in keys && pid in start ==> x <= start[pid])
    && exists pid :: pid in keys && pid in start && start[pid] == x
  }

  /** What the earliest offset can be once the keys are visited, by whether the first one had a start. */
  ghost predicate EarliestIs(x: int, firstStarts: bool, keys: set<int>, start: map<int, int>) {
    if firstStarts then IsLeastStart(x, keys, start)
    else
      && x <= 0 && (forall pid :: pid in keys && pid in start ==> x <= start[pid])
      && (x == 0 || IsLeastStart(x, keys, start))
  }

  lemma OneMoreVisited(x: int, firstStarts: bool, keys: set<int>, start: map<int, int>, pid: int)
    requires EarliestIs(x, firstStarts, keys, start)
    ensures EarliestIs(if pid in start && start[pid] < x then start[pid] else x, firstStarts, keys + {pid}, start)
  {
  }

  lemma OneVisited(pid: int, start: map<int, int>)
    ensures EarliestIs(EarliestOver([pid], start), pid in start, {pid}, start)
  {
    assert [pid][..0] == [];
    assert EarliestOver([pid], start) == if pid in start then start[pid] else 0;
  }

  lemma NextVisited(init: seq<int>, pid: int, start: map<int, int>)
    requires init != []
    ensures var x := EarliestOver(init, start);
            EarliestOver(init + [pid], start) == if pid in start && start[pid] < x then start[pid] else x
  {
    assert (init + [pid])[..|init|] == init;
  }

  /** What the earliest offset is, order by order: the least start offset when the first partition visited
      has one; otherwise that or zero, whichever is smaller. */
  lemma {:induction false} EarliestExactly(order: seq<int>, keys: set<int>, start: map<int, int>)
    requires Enumerates(order, keys) && order != []
    ensures EarliestIs(EarliestOver(order, start), order[0] in start, keys, start)
  {
    hide EarliestIs, EarliestOver;
    EnumeratesInit(order, keys);
    var init, last := order[..|order| - 1], order[|order| - 1];
    if init == [] {
      OneVisited(last, start);
    } else {
      EarliestExactly(init, keys - {last}, start);
      OneMoreVisited(EarliestOver(init, start), order[0] in start, keys - {last}, start, last);
      NextVisited(init, last, start);
    }
  }

  ghost predicate OrderFree(keys: set<int>, start: map<int, int>) {
    forall a, b :: Enumerates(a, keys) && Enumerates(b, keys) ==> EarliestOver(a, start) == EarliestOver(b, start)
  }

  /** Offset data a caller can check: every partition has a start offset, or none has, or one is not positive. */
  ghost predicate SettledStarts(keys: set<int>, start: map<int, int>) {
    || keys - start.Keys == {}
    || keys * start.Keys == {}
    || exists pid :: pid in keys && pid in start && start[pid] <= 0
  }

  /** The earliest offset is independent of Go's visiting order exactly for such data; when a partition has
      no start offset and the others are all positive, the order decides between zero and the true minimum. */
  lemma EarliestIsOrderFreeIff(keys: set<int>, start: map<int, int>)
    ensures OrderFree(keys, start) <==> SettledStarts(keys, start)
  {
    if SettledStarts(keys, start) {
      forall a, b | Enumerates(a, keys) && Enumerates(b, keys)
        ensures EarliestOver(a, start) == EarliestOver(b, start)
      {
        SameEarliest(a, b, keys, start);
      }
    } else {
      SomeKey(keys * start.Keys);
      SomeKey(keys - start.Keys);
      var p :| p in keys * start.Keys;
      var q :| q in keys - start.Keys;
      VisitingFirstMatters(keys, start, p, q);
    }
  }

  ghost function StartingWith(first: int, keys: set<int>): (order: seq<int>)
    requires first in keys
    ensures Enumerates(order, keys) && order != [] && order[0] == first
  {
    [first] + Listing(keys - {first})
  }

  lemma VisitingFirstMatters(keys: set<int>, start: map<int, int>, p: int, q: int)
    requires p in keys && p in start && q in keys && q !in start
    requires forall pid :: pid in keys && pid in start ==> start[pid] > 0
    ensures !OrderFree(keys, start)
  {
    var a, b := StartingWith(p, keys), StartingWith(q, keys);
    EarliestExactly(a, keys, start);
    EarliestExactly(b, keys, start);
    assert EarliestOver(a, start) > 0 >= EarliestOver(b, start);
  }

  lemma SameEarliest(a: seq<int>, b: seq<int>, keys: set<int>, start: map<int, int>)
    requires Enumerates(a, keys) && Enumerates(b, keys) && SettledStarts(keys, start)
    ensures EarliestOver(a, start) == EarliestOver(b, start)
  {
    EnumerationSize(a, keys);
    EnumerationSize(b, keys);
    if a != [] {
      assert a[0] in keys && b[0] in keys;
      assert forall pid :: pid in keys && pid !in start ==> pid in keys - start.Keys;
      assert forall pid :: pid in keys && pid in start ==> pid in keys * start.Keys;
      EarliestExactly(a, keys, start);
      EarliestExactly(b, keys, start);
      hide EarliestOver;
    }
  }

  // ---- Active consumers ----

  datatype GroupInfo = GroupInfo(groupId: string, state: string)

  const INACTIVE: set<string> := {"empty", "dead", ""}

  predicate Live(g: GroupInfo) { g.state !in INACTIVE }

  function CommittedBy(committed: map<string, set<string>>, id: string): set<string> {
    if id in committed then committed[id] else {}
  }

  predicate Consumes(g: GroupInfo, committed: map<string, set<string>>, topic: string) {
    Live(g) && topic in CommittedBy(committed, g.groupId)
  }

  /** How many listed live groups have committed offsets on the topic. */
  function Consumers(groups: seq<GroupInfo>, committed: map<string, set<string>>, topic: string): nat {
    if groups == [] then 0
    else
      Consumers(groups[..|groups| - 1], committed, topic)
      + if Consumes(groups[|groups| - 1], committed, topic) then 1 else 0
  }

  function Count(m: map<string, int>, topic: string): int {
    if topic in m then m[topic] else 0
  }

  method ActiveConsumers(groups: seq<GroupInfo>, committed: map<string, set<string>>) returns (out: map<string, int>)
    ensures forall topic :: Count(out, topic) == Consumers(groups, committed, topic)
  {
    out := map[];
    for i := 0 to |groups|
      invariant forall topic :: Count(out, topic) == Consumers(groups[..i], committed, topic)
    {
      assert groups[..i + 1][..i] == groups[..i];
      var g := groups[i];
      if !Live(g) {
        continue;
      }
      out := CountTopics(out, CommittedBy(committed, g.groupId));
    }
    assert groups[..|groups|] == groups;
  }

  /** The inner loop: one more for every topic in the set, in any order. */
  method CountTopics(counts: map<string, int>, topics: set<string>) returns (out: map<string, int>)
    ensures forall topic :: Count(out, topic) == Count(counts, topic) + if topic in topics then 1 else 0
  {
    out := counts;
    var left := topics;
    while left != {}
      invariant left <= topics
      invariant forall topic :: Count(out, topic) == Count(counts, topic) + if topic in topics - left then 1 else 0
      decreases left
    {
      var topic :| topic in left;
      out := out[topic := Count(out, topic) + 1];
      left := left - {topic};
    }
  }

  ghost function LiveConsumers(groups: seq<GroupInfo>, committed: map<string, set<string>>, topic: string)
    : set<string>
  {
    set g | g in groups && g.state != "empty" && g.state != "dead" && g.state != ""
            && g.groupId in committed && topic in committed[g.groupId] :: g.groupId
  }

  ghost predicate DistinctIds(groups: seq<GroupInfo>) {
    forall i, j :: 0 <= i < j < |groups| ==> groups[i].groupId != groups[j].groupId
  }

  /** With distinct ids the count is the number of distinct live groups that committed on the topic. */
  lemma {:induction false} ConsumersAreDistinctGroups(groups: seq<GroupInfo>, committed: map<string, set<string>>,
                                                      topic: string)
    requires DistinctIds(groups)
    ensures Consumers(groups, committed, topic) == |LiveConsumers(groups, committed, topic)|
  {
    if groups != [] {
      hide Consumes;
      var init, last := groups[..|groups| - 1], groups[|groups| - 1];
      assert groups == init + [last];
      ConsumersAreDistinctGroups(init, committed, topic);
      OneMoreGroup(init, last, committed, topic);
      hide LiveConsumers;
      assert Consumers(groups, committed, topic)
             == Consumers(init, committed, topic) + if Consumes(last, committed, topic) then 1 else 0;
    }
  }

  lemma OneMoreGroup(init: seq<GroupInfo>, last: GroupInfo, committed: map<string, set<string>>, topic: string)
    requires DistinctIds(init + [last])
    ensures |LiveConsumers(init + [last], committed, topic)|
            == |LiveConsumers(init, committed, topic)| + if Consumes(last, committed, topic) then 1 else 0
  {
    LiveWithLast(init, last, committed, topic);
    LastIsNew(init, last, committed, topic);
    hide LiveConsumers, Consumes;
  }

  lemma LiveWithLast(init: seq<GroupInfo>, last: GroupInfo, committed: map<string, set<string>>, topic: string)
    ensures LiveConsumers(init + [last], committed, topic)
            == LiveConsumers(init, committed, topic)
               + if Consumes(last, committed, topic) then {last.groupId} else {}
  {
    assert forall g :: g in init + [last] <==> g in init || g == last;
    ConsumesMeans(last, committed, topic);
    hide Consumes;
  }

  lemma ConsumesMeans(g: GroupInfo, committed: map<string, set<string>>, topic: string)
    ensures Consumes(g, committed, topic)
            <==> g.state != "empty" && g.state != "dead" && g.state != ""
                 && g.groupId in committed && topic in committed[g.groupId]
  {
  }

  lemma LastIsNew(init: seq<GroupInfo>, last: GroupInfo, committed: map<string, set<string>>, topic: string)
    requires DistinctIds(init + [last])
    ensures last.groupId !in LiveConsumers(init, committed, topic)
  {
    forall g | g in init
      ensures g.groupId != last.groupId
    {
      var i :| 0 <= i < |init| && init[i] == g;
      assert (init + [last])[i] == g && (init + [last])[|init|] == last;
    }
  }

  // ---- Throughput estimate ----

  function Above(to: int, from: int): int { if to > from then to - from else 0 }

  function OffsetOf(m: map<int, int>, pid: int): int { if pid in m then m[pid] else 0 }

  /** Records a partition holds at the first probe. */
  function HeldIn(start: map<int, int>, end0: map<int, int>): int -> int {
    (pid: int) => Above(OffsetOf(end0, pid), OffsetOf(start, pid))
  }

  /** Records produced in the window; a partition missing from the second probe counts as none. */
  function ProducedIn(end0: map<int, int>, end1: map<int, int>): int -> int {
    (pid: int) => if pid in end1 then Above(end1[pid], OffsetOf(end0, pid)) else 0
  }

  ghost function Held(start: map<int, int>, end0: map<int, int>): int { SumOver(HeldIn(start, end0), end0.Keys) }

  ghost function Produced(end0: map<int, int>, end1: map<int, int>): int {
    SumOver(ProducedIn(end0, end1), end0.Keys)
  }

  function Rate(retained: int, records: int, delta: int, windowSecs: real): real {
    if windowSecs <= 0.0 || records <= 0 || delta <= 0 || retained <= 0 then 0.0
    else delta as real / windowSecs * (retained as real / records as real)
  }

  /** The loop over the partitions of the first probe. */
  method CountRecords(start: map<int, int>, end0: map<int, int>, end1: map<int, int>)
    returns (totalRecords: int, deltaRecords: int)
    ensures totalRecords == Held(start, end0) && deltaRecords == Produced(end0, end1)
  {
    totalRecords, deltaRecords := 0, 0;
    var left := end0.Keys;
    while left != {}
      invariant left <= end0.Keys
      invariant totalRecords + SumOver(HeldIn(start, end0), left) == Held(start, end0)
      invariant deltaRecords + SumOver(ProducedIn(end0, end1), left) == Produced(end0, end1)
      decreases left
    {
      SomeKey(left);
      var pid :| pid in left;
      SumOverTakes(HeldIn(start, end0), left, pid);
      SumOverTakes(ProducedIn(end0, end1), left, pid);
      var e0, s := end0[pid], OffsetOf(start, pid);
      if e0 > s {
        totalRecords := totalRecords + (e0 - s);
      }
      if pid in end1 && end1[pid] > e0 {
        deltaRecords := deltaRecords + (end1[pid] - e0);
      }
      left := left - {pid};
    }
  }

  method EstimateBytesInPerSec(retained: int, start: map<int, int>, end0: map<int, int>, end1: map<int, int>,
                               windowSecs: real) returns (rate: real)
    ensures rate == Rate(retained, Held(start, end0), Produced(end0, end1), windowSecs)
  {
    if windowSecs <= 0.0 {
      return 0.0;
    }
    var totalRecords, deltaRecords := CountRecords(start, end0, end1);
    if totalRecords <= 0 || deltaRecords <= 0 || retained <= 0 {
      return 0.0;
    }
    var avgRecordBytes := retained as real / totalRecords as real;
    rate := deltaRecords as real / windowSecs * avgRecordBytes;
  }

  /** The estimate balances: bytes in over the window are to the retained bytes as the records produced are to
      the records held. It is never negative, and zero only when a guard says it cannot be computed. */
  lemma RateBalances(retained: int, records: int, delta: int, windowSecs: real)
    ensures var rate := Rate(retained, records, delta, windowSecs);
            && rate >= 0.0
            && (rate == 0.0 <==> windowSecs <= 0.0 || records <= 0 || delta <= 0 || retained <= 0)
            && (rate != 0.0 ==> rate * windowSecs * records as real == retained as real * delta as real)
  {
    if !(windowSecs <= 0.0 || records <= 0 || delta <= 0 || retained <= 0) {
      Balance(delta as real, windowSecs, retained as real, records as real);
    }
  }

  lemma Balance(d: real, w: real, r: real, n: real)
    requires d > 0.0 && w > 0.0 && r > 0.0 && n > 0.0
    ensures d / w * (r / n) > 0.0 && d / w * (r / n) * w * n == r * d
  {
    var x, y := d / w, r / n;
    assert x > 0.0 && y > 0.0 && x * w == d && y * n == r;
    assert x * y > 0.0;
    assert x * y * w * n == (x * w) * (y * n);
  }

  lemma {:induction false} SumOverLe(f: int -> int, g: int -> int, keys: set<int>)
    requires forall k :: k in keys ==> f(k) <= g(k)
    ensures SumOver(f, keys) <= SumOver(g, keys)
    decreases keys
  {
    if keys != {} {
      SomeKey(keys);
      var k :| k in keys;
      SumOverTakes(f, keys, k);
      SumOverTakes(g, keys, k);
      SumOverLe(f, g, keys - {k});
    }
  }

  /** Later ends in the second probe never lower the estimate. */
  lemma RateIsMonotone(retained: int, start: map<int, int>, end0: map<int, int>, end1: map<int, int>,
                       later: map<int, int>, windowSecs: real)
    requires forall pid :: pid in end1 ==> pid in later && end1[pid] <= later[pid]
    ensures Rate(retained, Held(start, end0), Produced(end0, end1), windowSecs)
            <= Rate(retained, Held(start, end0), Produced(end0, later), windowSecs)
  {
    SumOverLe(ProducedIn(end0, end1), ProducedIn(end0, later), end0.Keys);
    MoreDeltaMoreRate(retained, Held(start, end0), Produced(end0, end1), Produced(end0, later), windowSecs);
  }

  lemma MoreDeltaMoreRate(retained: int, records: int, delta: int, more: int, windowSecs: real)
    requires delta <= more
    ensures Rate(retained, records, delta, windowSecs) <= Rate(retained, records, more, windowSecs)
  {
    RateBalances(retained, records, more, windowSecs);
    if !(windowSecs <= 0.0 || records <= 0 || delta <= 0 || retained <= 0) {
      var avg := retained as real / records as real;
      assert avg >= 0.0;
      assert delta as real / windowSecs <= more as real / windowSecs;
      Scaling(avg, delta as real / windowSecs, more as real / windowSecs);
    }
  }

  // ---- The estimate in terms of the offsets ----

  lemma {:induction false} SumByList(f: int -> int, order: seq<int>, values: seq<int>)
    requires |values| == |order| && forall i :: 0 <= i < |order| ==> f(order[i]) == values[i]
    ensures SumI(f, order) == SumI(Itself, values)
  {
    if order != [] {
      SumByList(f, order[..|order| - 1], values[..|order| - 1]);
    }
  }

  /** What the first probe shows of a partition: the records from its start offset, zero if there is none, to
      its end. */
  ghost predicate ShowsHeld(n: int, pid: int, start: map<int, int>, end0: map<int, int>)
    requires pid in end0
  {
    var from := if pid in start then start[pid] else 0;
    if end0[pid] > from then from + n == end0[pid] else n == 0
  }

  /** What the second probe adds: the records between the two ends, none for a partition it does not list. */
  ghost predicate ShowsProduced(n: int, pid: int, end0: map<int, int>, end1: map<int, int>)
    requires pid in end0
  {
    if pid in end1 && end1[pid] > end0[pid] then end0[pid] + n == end1[pid] else n == 0
  }

  /** The estimate balances: bytes in over the window are to the retained bytes as the records produced are to
      the records held, partition by partition of the first probe, in any order. It is never negative, and zero
      only when a guard says it cannot be computed. */
  lemma EstimateBalances(retained: int, start: map<int, int>, end0: map<int, int>, end1: map<int, int>,
                         windowSecs: real, order: seq<int>, held: seq<int>, produced: seq<int>)
    requires Enumerates(order, end0.Keys) && |held| == |produced| == |order|
    requires forall i :: 0 <= i < |order| ==>
      order[i] in end0 && ShowsHeld(held[i], order[i], start, end0) && ShowsProduced(produced[i], order[i], end0, end1)
    ensures var rate := Rate(retained, Held(start, end0), Produced(end0, end1), windowSecs);
            var records, delta := SumI(Itself, held), SumI(Itself, produced);
            && rate >= 0.0
            && (rate == 0.0 <==> windowSecs <= 0.0 || records <= 0 || delta <= 0 || retained <= 0)
            && (rate != 0.0 ==> rate * windowSecs * records as real == retained as real * delta as real)
  {
    hide *;
    HeldByList(start, end0, order, held);
    ProducedByList(end0, end1, order, produced);
    RateBalances(retained, SumI(Itself, held), SumI(Itself, produced), windowSecs);
  }

  lemma HeldByList(start: map<int, int>, end0: map<int, int>, order: seq<int>, held: seq<int>)
    requires Enumerates(order, end0.Keys) && |held| == |order|
    requires forall i :: 0 <= i < |order| ==> order[i] in end0 && ShowsHeld(held[i], order[i], start, end0)
    ensures Held(start, end0) == SumI(Itself, held)
  {
    SumOverEnumeration(HeldIn(start, end0), order, end0.Keys);
    SumByList(HeldIn(start, end0), order, held);
    hide SumOver, SumI;
  }

  lemma ProducedByList(end0: map<int, int>, end1: map<int, int>, order: seq<int>, produced: seq<int>)
    requires Enumerates(order, end0.Keys) && |produced| == |order|
    requires forall i :: 0 <= i < |order| ==> order[i] in end0 && ShowsProduced(produced[i], order[i], end0, end1)
    ensures Produced(end0, end1) == SumI(Itself, produced)
  {
    SumOverEnumeration(ProducedIn(end0, end1), order, end0.Keys);
    SumByList(ProducedIn(end0, end1), order, produced);
    hide SumOver, SumI;
  }

  function OffsetsOf(m: map<int, int>): int -> int { (pid: int) => OffsetOf(m, pid) }

  lemma {:induction false} SumOverDifference(f: int -> int, g: int -> int, h: int -> int, keys: set<int>)
    requires forall k :: k in keys ==> h(k) == f(k) - g(k)
    ensures SumOver(h, keys) == SumOver(f, keys) - SumOver(g, keys)
    decreases keys
  {
    if keys != {} {
      SomeKey(keys);
      var k :| k in keys;
      SumOverTakes(f, keys, k);
      SumOverTakes(g, keys, k);
      SumOverTakes(h, keys, k);
      SumOverDifference(f, g, h, keys - {k});
    }
  }

  /** Offsets that only grow: every partition has a start, and neither end lies before what comes before it. */
  ghost predicate Grows(start: map<int, int>, end0: map<int, int>, end1: map<int, int>) {
    forall pid :: pid in end0 ==> pid in start && pid in end1 && start[pid] <= end0[pid] <= end1[pid]
  }

  /** With complete offsets that only grow, the estimate is the rate at which the plain sums of the offsets move. */
  lemma RateOfPlainSums(retained: int, start: map<int, int>, end0: map<int, int>, end1: map<int, int>,
                        windowSecs: real)
    requires Grows(start, end0, end1) && windowSecs > 0.0 && retained >= 0
    ensures var rate := Rate(retained, Held(start, end0), Produced(end0, end1), windowSecs);
            var s, e, l := SumOver(OffsetsOf(start), end0.Keys), SumOver(OffsetsOf(end0), end0.Keys),
                           SumOver(OffsetsOf(end1), end0.Keys);
            && (e > s ==> rate * windowSecs * (e - s) as real == retained as real * (l - e) as real)
            && (e == s ==> rate == 0.0) && s <= e <= l
  {
    hide *;
    GrowthInSums(start, end0, end1);
    RateBalances(retained, Held(start, end0), Produced(end0, end1), windowSecs);
    assert 0.0 * windowSecs == 0.0;
  }

  lemma GrowthInSums(start: map<int, int>, end0: map<int, int>, end1: map<int, int>)
    requires Grows(start, end0, end1)
    ensures var s, e, l := SumOver(OffsetsOf(start), end0.Keys), SumOver(OffsetsOf(end0), end0.Keys),
                           SumOver(OffsetsOf(end1), end0.Keys);
            s <= e <= l && Held(start, end0) == e - s && Produced(end0, end1) == l - e
  {
    forall pid | pid in end0.Keys
      ensures HeldIn(start, end0)(pid) == OffsetsOf(end0)(pid) - OffsetsOf(start)(pid)
      ensures ProducedIn(end0, end1)(pid) == OffsetsOf(end1)(pid) - OffsetsOf(end0)(pid)
      ensures OffsetsOf(start)(pid) <= OffsetsOf(end0)(pid) <= OffsetsOf(end1)(pid)
    {
      GrowthAt(pid, start, end0, end1);
    }
    assert Held(start, end0) == SumOver(HeldIn(start, end0), end0.Keys);
    assert Produced(end0, end1) == SumOver(ProducedIn(end0, end1), end0.Keys);
    hide *;
    SumOverDifference(OffsetsOf(end0), OffsetsOf(start), HeldIn(start, end0), end0.Keys);
    SumOverDifference(OffsetsOf(end1), OffsetsOf(end0), ProducedIn(end0, end1), end0.Keys);
    SumOverLe(OffsetsOf(start), OffsetsOf(end0), end0.Keys);
    SumOverLe(OffsetsOf(end0), OffsetsOf(end1), end0.Keys);
  }

  lemma GrowthAt(pid: int, start: map<int, int>, end0: map<int, int>, end1: map<int, int>)
    requires pid in end0 && Grows(start, end0, end1)
    ensures HeldIn(start, end0)(pid) == OffsetsOf(end0)(pid) - OffsetsOf(start)(pid)
    ensures ProducedIn(end0, end1)(pid) == OffsetsOf(end1)(pid) - OffsetsOf(end0)(pid)
    ensures OffsetsOf(start)(pid) <= OffsetsOf(end0)(pid) <= OffsetsOf(end1)(pid)
  {
  }

  function Shifted(shift: int -> int, m: map<int, int>): map<int, int> {
    map pid | pid in m :: m[pid] + shift(pid)
  }

  /** Only distances between offsets count: renumbering the records of each partition that has a start offset
      leaves the estimate as it was. */
  lemma RenumberingIsUnseen(retained: int, start: map<int, int>, end0: map<int, int>, end1: map<int, int>,
                            windowSecs: real, shift: int -> int)
    requires forall pid :: pid in end0 && pid !in start ==> shift(pid) == 0
    ensures Rate(retained, Held(Shifted(shift, start), Shifted(shift, end0)),
                 Produced(Shifted(shift, end0), Shifted(shift, end1)), windowSecs)
            == Rate(retained, Held(start, end0), Produced(end0, end1), windowSecs)
  {
    var start', end0', end1' := Shifted(shift, start), Shifted(shift, end0), Shifted(shift, end1);
    assert end0'.Keys == end0.Keys;
    forall pid | pid in end0.Keys
      ensures HeldIn(start', end0')(pid) == HeldIn(start, end0)(pid)
      ensures ProducedIn(end0', end1')(pid) == ProducedIn(end0, end1)(pid)
    {
      RenumberedAt(pid, start, end0, end1, shift);
    }
    hide Shifted, HeldIn, ProducedIn, Rate, SumOver;
    SumOverAlike(HeldIn(start', end0'), HeldIn(start, end0), end0.Keys);
    SumOverAlike(ProducedIn(end0', end1'), ProducedIn(end0, end1), end0.Keys);
  }

  lemma SumOverAlike(f: int -> int, g: int -> int, keys: set<int>)
    requires forall k :: k in keys ==> f(k) == g(k)
    ensures SumOver(f, keys) == SumOver(g, keys)
  {
    SumOverLe(f, g, keys);
    SumOverLe(g, f, keys);
  }

  lemma RenumberedAt(pid: int, start: map<int, int>, end0: map<int, int>, end1: map<int, int>, shift: int -> int)
    requires pid in end0 && (pid !in start ==> shift(pid) == 0)
    ensures HeldIn(Shifted(shift, start), Shifted(shift, end0))(pid) == HeldIn(start, end0)(pid)
    ensures ProducedIn(Shifted(shift, end0), Shifted(shift, end1))(pid) == ProducedIn(end0, end1)(pid)
  {
  }
}
