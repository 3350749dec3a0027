/** internal/cost: unit prices and the split of the monthly bill. */
module Cost {
  import opened Seqs
  import opened Helpers

  datatype Weights = Weights(storage: real, throughput: real, partition: real)

  const DEFAULT_WEIGHTS: Weights := Weights(0.40, 0.40, 0.20)

  datatype CostModel = CostModel(
    provider: string,
    monthlyCostEUR: real,
    storageEURPerGBMo: real,
    networkEURPerGB: real,
    weights: Weights)

  datatype Basis = Configured | Derived | Assumed

  datatype UnitPrices = UnitPrices(
    storageEURPerGBMo: real,
    storageBasis: Basis,
    networkEURPerGB: real,
    networkBasis: Basis)

  const SECONDS_PER_MONTH: real := 2592000.0

  function EffectiveWeights(m: CostModel): Weights {
    if m.weights == Weights(0.0, 0.0, 0.0) then DEFAULT_WEIGHTS else m.weights
  }

  function ProviderPreset(provider: string): (real, real) {
    if provider == "confluent" then (0.12, 0.04)
    else if provider == "msk" then (0.11, 0.02)
    else (0.08, 0.01)
  }

  function Resolve(m: CostModel, totalRetainedBytes: int): UnitPrices {
    var preset := ProviderPreset(m.provider);
    var (storage, storageBasis) :=
      if m.storageEURPerGBMo > 0.0 then (m.storageEURPerGBMo, Configured)
      else if m.monthlyCostEUR > 0.0 && totalRetainedBytes > 0 then
        (m.monthlyCostEUR * EffectiveWeights(m).storage / GB(totalRetainedBytes), Derived)
      else (preset.0, Assumed);
    if m.networkEURPerGB > 0.0
    then UnitPrices(storage, storageBasis, m.networkEURPerGB, Configured)
    else UnitPrices(storage, storageBasis, preset.1, Assumed)
  }

  function MonthlyGB(bytesPerSec: real): real {
    bytesPerSec * SECONDS_PER_MONTH / 1000000000.0
  }

  datatype TopicCostInput = TopicCostInput(
    name: string,
    retainedBytes: int,
    bytesInPerSec: real,
    bytesOutPerSec: real,
    partitions: int)

  datatype AllocBasis = NoClusterCost | Allocated

  datatype TopicCost = TopicCost(name: string, eur: real, basis: AllocBasis)

  datatype Totals = Totals(bytes: real, throughput: real, partitions: int)

  function BytesOf(t: TopicCostInput): real { t.retainedBytes as real }
  function ThroughputOf(t: TopicCostInput): real { t.bytesInPerSec + t.bytesOutPerSec }
  function PartitionsOf(t: TopicCostInput): int { t.partitions }
  function EurOf(c: TopicCost): real { c.eur }

  function TotalsOf(ts: seq<TopicCostInput>): Totals {
    Totals(SumR(BytesOf, ts), SumR(ThroughputOf, ts), SumI(PartitionsOf, ts))
  }

  /** One driver's part of a share; a driver whose total is zero contributes nothing. */
  function Portion(w: real, part: real, total: real): real {
    if total > 0.0 then w * (part / total) else 0.0
  }

  function WeightedShare(w: Weights, t: TopicCostInput, tot: Totals): real {
    Portion(w.storage, BytesOf(t), tot.bytes)
    + Portion(w.throughput, ThroughputOf(t), tot.throughput)
    + Portion(w.partition, t.partitions as real, tot.partitions as real)
  }

  /** One allocated entry, given the cluster totals. */
  function Entry(m: CostModel, tot: Totals): TopicCostInput -> TopicCost {
    (t: TopicCostInput) =>
      if m.monthlyCostEUR <= 0.0 then TopicCost(t.name, 0.0, NoClusterCost)
      else TopicCost(t.name, m.monthlyCostEUR * WeightedShare(EffectiveWeights(m), t, tot), Allocated)
  }

  function Allocation(m: CostModel, ts: seq<TopicCostInput>): seq<TopicCost> {
    Map(Entry(m, TotalsOf(ts)), ts)
  }

  method ComputeShare(w: Weights, t: TopicCostInput, totBytes: real, totThru: real, totParts: int)
    returns (s: real)
    ensures s == WeightedShare(w, t, Totals(totBytes, totThru, totParts))
  {
    s := 0.0;
    if totBytes > 0.0 {
      s := s + w.storage * (t.retainedBytes as real / totBytes);
    }
    if totThru > 0.0 {
      s := s + w.throughput * ((t.bytesInPerSec + t.bytesOutPerSec) / totThru);
    }
    if totParts > 0 {
      s := s + w.partition * (t.partitions as real / totParts as real);
    }
  }

  method Allocate(m: CostModel, topics: seq<TopicCostInput>) returns (out: seq<TopicCost>)
    ensures out == Allocation(m, topics)
  {
    hide WeightedShare;
    var w := m.weights;
    if w == Weights(0.0, 0.0, 0.0) {
      w := DEFAULT_WEIGHTS;
    }
    var totBytes, totThru, totParts := 0.0, 0.0, 0;
    for i := 0 to |topics|
      invariant Totals(totBytes, totThru, totParts) == TotalsOf(topics[..i])
    {
      assert topics[..i + 1][..i] == topics[..i];
      totBytes := totBytes + topics[i].retainedBytes as real;
      totThru := totThru + (topics[i].bytesInPerSec + topics[i].bytesOutPerSec);
      totParts := totParts + topics[i].partitions;
    }
    assert topics[..|topics|] == topics;
    ghost var entry := Entry(m, TotalsOf(topics));
    out := [];
    for i := 0 to |topics|
      invariant out == Map(entry, topics[..i])
    {
      MapStep(entry, topics, i);
      var t := topics[i];
      if m.monthlyCostEUR <= 0.0 {
        out := out + [TopicCost(t.name, 0.0, NoClusterCost)];
        continue;
      }
      var share := ComputeShare(w, t, totBytes, totThru, totParts);
      assert entry(t) == TopicCost(t.name, m.monthlyCostEUR * share, Allocated);
      out := out + [TopicCost(t.name, m.monthlyCostEUR * share, Allocated)];
    }
  }

  // ---- Additivity ----

  /** Topics melted into one: every driver summed. */
  function Merge(name: string, ts: seq<TopicCostInput>): TopicCostInput
  {
    TopicCostInput(name, SumI(RetainedOf, ts), SumR(InOf, ts), SumR(OutOf, ts), SumI(PartitionsOf, ts))
  }

  function RetainedOf(t: TopicCostInput): int { t.retainedBytes }
  function InOf(t: TopicCostInput): real { t.bytesInPerSec }
  function OutOf(t: TopicCostInput): real { t.bytesOutPerSec }

  lemma {:induction false} MergeTotals(name: string, ts: seq<TopicCostInput>)
    ensures BytesOf(Merge(name, ts)) == TotalsOf(ts).bytes
    ensures ThroughputOf(Merge(name, ts)) == TotalsOf(ts).throughput
  {
    if ts != [] {
      MergeTotals(name, ts[..|ts| - 1]);
    }
  }

  lemma PortionAdds(w: real, a: real, b: real, total: real)
    ensures Portion(w, a + b, total) == Portion(w, a, total) + Portion(w, b, total)
  {
    if total > 0.0 {
      var x, y := a / total, b / total;
      assert (a + b) / total == x + y;
      assert w * (x + y) == w * x + w * y;
    }
  }

  lemma ShareOfSum(w: Weights, a: TopicCostInput, b: TopicCostInput, c: TopicCostInput, tot: Totals)
    requires BytesOf(c) == BytesOf(a) + BytesOf(b)
    requires ThroughputOf(c) == ThroughputOf(a) + ThroughputOf(b)
    requires c.partitions == a.partitions + b.partitions
    ensures WeightedShare(w, c, tot) == WeightedShare(w, a, tot) + WeightedShare(w, b, tot)
  {
    hide Portion;
    PortionAdds(w.storage, BytesOf(a), BytesOf(b), tot.bytes);
    PortionAdds(w.throughput, ThroughputOf(a), ThroughputOf(b), tot.throughput);
    PortionAdds(w.partition, a.partitions as real, b.partitions as real, tot.partitions as real);
  }

  lemma EntryOfSum(m: CostModel, a: TopicCostInput, b: TopicCostInput, c: TopicCostInput, tot: Totals)
    requires BytesOf(c) == BytesOf(a) + BytesOf(b)
    requires ThroughputOf(c) == ThroughputOf(a) + ThroughputOf(b)
    requires c.partitions == a.partitions + b.partitions
    ensures Entry(m, tot)(c).eur == Entry(m, tot)(a).eur + Entry(m, tot)(b).eur
  {
    hide WeightedShare;
    var w := EffectiveWeights(m);
    ShareOfSum(w, a, b, c, tot);
    var x, y := WeightedShare(w, a, tot), WeightedShare(w, b, tot);
    assert m.monthlyCostEUR * (x + y) == m.monthlyCostEUR * x + m.monthlyCostEUR * y;
  }

  lemma NothingCostsNothing(m: CostModel, tot: Totals, t: TopicCostInput)
    requires BytesOf(t) == 0.0 && ThroughputOf(t) == 0.0 && t.partitions == 0
    ensures Entry(m, tot)(t).eur == 0.0
  {
    assert WeightedShare(EffectiveWeights(m), t, tot) == 0.0;
  }

  /** The euros of several topics are the euros of the one topic they melt into. */
  lemma {:induction false} AllocationIsAdditive(m: CostModel, tot: Totals, name: string, ts: seq<TopicCostInput>)
    ensures SumR(EurOf, Map(Entry(m, tot), ts)) == Entry(m, tot)(Merge(name, ts)).eur
  {
    if ts != [] {
      var init, last := ts[..|ts| - 1], ts[|ts| - 1];
      AllocationIsAdditive(m, tot, name, init);
      assert Map(Entry(m, tot), ts)[..|ts| - 1] == Map(Entry(m, tot), init);
      MergeTotals(name, ts);
      MergeTotals(name, init);
      EntryOfSum(m, Merge(name, init), last, Merge(name, ts), tot);
    } else {
      NothingCostsNothing(m, tot, Merge(name, ts));
    }
  }

  // ---- Conservation ----

  ghost predicate NonNegative(t: TopicCostInput) {
    t.retainedBytes >= 0 && t.bytesInPerSec >= 0.0 && t.bytesOutPerSec >= 0.0 && t.partitions >= 0
  }

  /** The part of the bill that has a driver to hang on, by the raw totals of the drivers. */
  function Attributable(w: Weights, bytes: int, traffic: real, partitions: int): real {
    (if bytes > 0 then w.storage else 0.0)
    + (if traffic > 0.0 then w.throughput else 0.0)
    + (if partitions > 0 then w.partition else 0.0)
  }

  /** Traffic is what comes in and what goes out. */
  function Traffic(ts: seq<TopicCostInput>): real { SumR(InOf, ts) + SumR(OutOf, ts) }

  /** Nothing is invented and nothing is lost: the entries add up to the attributable part
      of the bill. The weight of a driver whose total is zero is not redistributed. */
  lemma BillIsConserved(m: CostModel, ts: seq<TopicCostInput>)
    requires m.monthlyCostEUR > 0.0
    ensures SumR(EurOf, Allocation(m, ts))
            == m.monthlyCostEUR
               * Attributable(EffectiveWeights(m), SumI(RetainedOf, ts), Traffic(ts), SumI(PartitionsOf, ts))
  {
    hide Entry, TotalsOf, Merge, Attributable, EffectiveWeights, SumR;
    AllocationIsAdditive(m, TotalsOf(ts), "", ts);
    EntryOfWhole(m, ts);
  }

  lemma EntryOfWhole(m: CostModel, ts: seq<TopicCostInput>)
    requires m.monthlyCostEUR > 0.0
    ensures Entry(m, TotalsOf(ts))(Merge("", ts)).eur
            == m.monthlyCostEUR
               * Attributable(EffectiveWeights(m), SumI(RetainedOf, ts), Traffic(ts), SumI(PartitionsOf, ts))
  {
    hide WeightedShare, Attributable, SumR, SumI;
    TotalsFromFields(ts);
    MergeTotals("", ts);
    WholeShare(EffectiveWeights(m), Merge("", ts), TotalsOf(ts), SumI(RetainedOf, ts));
  }

  lemma TotalsFromFields(ts: seq<TopicCostInput>)
    ensures TotalsOf(ts).bytes == SumI(RetainedOf, ts) as real
    ensures TotalsOf(ts).throughput == Traffic(ts)
    ensures TotalsOf(ts).partitions == SumI(PartitionsOf, ts)
  {
    hide SumR, SumI;
    MergeTotals("", ts);
  }

  lemma WholeShare(w: Weights, t: TopicCostInput, tot: Totals, bytes: int)
    requires BytesOf(t) == tot.bytes && ThroughputOf(t) == tot.throughput && t.partitions == tot.partitions
    requires tot.bytes == bytes as real
    ensures WeightedShare(w, t, tot) == Attributable(w, bytes, tot.throughput, tot.partitions)
  {
  }

  /** The whole bill is allocated exactly when every positively weighted driver is non-zero. */
  lemma WholeBillIff(m: CostModel, ts: seq<TopicCostInput>)
    requires m.monthlyCostEUR > 0.0
    requires var w := EffectiveWeights(m);
             w.storage >= 0.0 && w.throughput >= 0.0 && w.partition >= 0.0 &&
             w.storage + w.throughput + w.partition == 1.0
    ensures var w := EffectiveWeights(m);
            SumR(EurOf, Allocation(m, ts)) == m.monthlyCostEUR
            <==> (w.storage > 0.0 ==> SumI(RetainedOf, ts) > 0) && (w.throughput > 0.0 ==> Traffic(ts) > 0.0) &&
                 (w.partition > 0.0 ==> SumI(PartitionsOf, ts) > 0)
  {
    hide *;
    BillIsConserved(m, ts);
    var w := EffectiveWeights(m);
    AllAttributableIff(w, SumI(RetainedOf, ts), Traffic(ts), SumI(PartitionsOf, ts));
    PartOfBill(m.monthlyCostEUR, Attributable(w, SumI(RetainedOf, ts), Traffic(ts), SumI(PartitionsOf, ts)));
  }

  lemma AllAttributableIff(w: Weights, bytes: int, traffic: real, partitions: int)
    requires w.storage >= 0.0 && w.throughput >= 0.0 && w.partition >= 0.0
    requires w.storage + w.throughput + w.partition == 1.0
    ensures Attributable(w, bytes, traffic, partitions) <= 1.0
    ensures Attributable(w, bytes, traffic, partitions) == 1.0
            <==> (w.storage > 0.0 ==> bytes > 0) && (w.throughput > 0.0 ==> traffic > 0.0) &&
                 (w.partition > 0.0 ==> partitions > 0)
  {
  }

  lemma PartOfBill(bill: real, part: real)
    requires bill > 0.0 && part <= 1.0
    ensures bill * part == bill <==> part == 1.0
  {
    if part < 1.0 {
      Scaling(bill, part, 1.0);
    }
  }

  // ---- What one entry is made of ----

  /** `eur` is the part of `pot` that `part` has in `whole`; nothing when there is no whole. */
  ghost predicate Apportioned(eur: real, pot: real, part: real, whole: real) {
    if whole > 0.0 then eur * whole == pot * part else eur == 0.0
  }

  lemma PortionIsApportioned(bill: real, w: real, part: real, total: real)
    ensures Apportioned(bill * Portion(w, part, total), bill * w, part, total)
  {
    if total > 0.0 {
      var x := part / total;
      assert x * total == part;
      assert bill * (w * x) * total == bill * w * (x * total);
    } else {
      assert bill * 0.0 == 0.0;
    }
  }

  /** Each topic's entry is three parts: of the storage pot by its retained bytes, of the throughput pot by its
      traffic in both directions, of the partition pot by its partitions, each in proportion. */
  lemma EntryByDrivers(m: CostModel, ts: seq<TopicCostInput>, i: nat) returns (x: real, y: real, z: real)
    requires i < |ts| && m.monthlyCostEUR > 0.0
    ensures var t, bill, w := ts[i], m.monthlyCostEUR, EffectiveWeights(m);
            && Allocation(m, ts)[i].name == t.name && Allocation(m, ts)[i].eur == x + y + z
            && Apportioned(x, bill * w.storage, t.retainedBytes as real, SumI(RetainedOf, ts) as real)
            && Apportioned(y, bill * w.throughput, t.bytesInPerSec + t.bytesOutPerSec, Traffic(ts))
            && Apportioned(z, bill * w.partition, t.partitions as real, SumI(PartitionsOf, ts) as real)
  {
    hide Portion, SumI, SumR, TotalsOf;
    var t, tot, bill, w := ts[i], TotalsOf(ts), m.monthlyCostEUR, EffectiveWeights(m);
    TotalsFromFields(ts);
    var a, b, c := Portion(w.storage, BytesOf(t), tot.bytes), Portion(w.throughput, ThroughputOf(t), tot.throughput),
                   Portion(w.partition, t.partitions as real, tot.partitions as real);
    x, y, z := bill * a, bill * b, bill * c;
    PortionIsApportioned(bill, w.storage, BytesOf(t), tot.bytes);
    PortionIsApportioned(bill, w.throughput, ThroughputOf(t), tot.throughput);
    PortionIsApportioned(bill, w.partition, t.partitions as real, tot.partitions as real);
    hide Apportioned;
    assert bill * (a + b + c) == bill * a + bill * b + bill * c;
  }

  /** With traffic as the one weighted driver, a topic pays for its traffic both ways. */
  lemma TrafficAloneIsBilled(m: CostModel, ts: seq<TopicCostInput>, i: nat)
    requires i < |ts| && m.monthlyCostEUR > 0.0 && Traffic(ts) > 0.0
    requires m.weights.storage == 0.0 && m.weights.partition == 0.0 && m.weights.throughput != 0.0
    ensures Allocation(m, ts)[i].eur * Traffic(ts)
            == m.monthlyCostEUR * m.weights.throughput * (ts[i].bytesInPerSec + ts[i].bytesOutPerSec)
  {
    hide Allocation, Traffic, SumI;
    var x, y, z := EntryByDrivers(m, ts, i);
    assert x == 0.0 && z == 0.0;
  }

  /** Which way the traffic goes does not matter. */
  lemma DirectionIsUnread(m: CostModel, ts: seq<TopicCostInput>, us: seq<TopicCostInput>)
    requires |us| == |ts|
    requires forall i :: 0 <= i < |ts| ==>
      && us[i] == ts[i].(bytesInPerSec := us[i].bytesInPerSec, bytesOutPerSec := us[i].bytesOutPerSec)
      && us[i].bytesInPerSec + us[i].bytesOutPerSec == ts[i].bytesInPerSec + ts[i].bytesOutPerSec
    ensures Allocation(m, us) == Allocation(m, ts)
  {
    RedirectedTotals(ts, us);
    var entry := Entry(m, TotalsOf(ts));
    forall i | 0 <= i < |ts|
      ensures entry(us[i]) == entry(ts[i])
    {
    }
  }

  lemma {:induction false} RedirectedTotals(ts: seq<TopicCostInput>, us: seq<TopicCostInput>)
    requires |us| == |ts|
    requires forall i :: 0 <= i < |ts| ==>
      && us[i] == ts[i].(bytesInPerSec := us[i].bytesInPerSec, bytesOutPerSec := us[i].bytesOutPerSec)
      && us[i].bytesInPerSec + us[i].bytesOutPerSec == ts[i].bytesInPerSec + ts[i].bytesOutPerSec
    ensures TotalsOf(us) == TotalsOf(ts)
  {
    if ts != [] {
      RedirectedTotals(ts[..|ts| - 1], us[..|ts| - 1]);
    }
  }

  /** Weights left unset are 40/40/20, in the allocation and in the prices alike. */
  lemma UnsetWeightsAreTheDefault(m: CostModel, ts: seq<TopicCostInput>, totalRetainedBytes: int)
    ensures var unset, split := m.(weights := Weights(0.0, 0.0, 0.0)), m.(weights := Weights(0.4, 0.4, 0.2));
            && Allocation(unset, ts) == Allocation(split, ts)
            && Resolve(unset, totalRetainedBytes) == Resolve(split, totalRetainedBytes)
  {
    hide WeightedShare, TotalsOf;
    var unset, split := m.(weights := Weights(0.0, 0.0, 0.0)), m.(weights := Weights(0.4, 0.4, 0.2));
    assert forall t :: Entry(unset, TotalsOf(ts))(t) == Entry(split, TotalsOf(ts))(t);
  }

  lemma {:induction false} PartsBelowTotals(ts: seq<TopicCostInput>)
    requires forall t :: t in ts ==> NonNegative(t)
    ensures 0.0 <= TotalsOf(ts).bytes && 0.0 <= TotalsOf(ts).throughput && 0 <= TotalsOf(ts).partitions
    ensures forall t :: t in ts ==>
      BytesOf(t) <= TotalsOf(ts).bytes && ThroughputOf(t) <= TotalsOf(ts).throughput &&
      t.partitions <= TotalsOf(ts).partitions
  {
    if ts != [] {
      var init, last := ts[..|ts| - 1], ts[|ts| - 1];
      assert ts == init + [last];
      assert NonNegative(last);
      PartsBelowTotals(init);
      assert TotalsOf(ts).bytes == TotalsOf(init).bytes + BytesOf(last);
      assert TotalsOf(ts).throughput == TotalsOf(init).throughput + ThroughputOf(last);
      assert TotalsOf(ts).partitions == TotalsOf(init).partitions + last.partitions;
    }
  }

  lemma PortionBounds(w: real, part: real, total: real)
    requires w >= 0.0 && 0.0 <= part <= total
    ensures 0.0 <= Portion(w, part, total) <= w
  {
    if total > 0.0 {
      var x := part / total;
      assert 0.0 <= x <= 1.0;
      assert 0.0 <= w * x <= w;
    }
  }

  /** No topic is billed less than nothing or more than the bill. */
  lemma EntriesWithinBill(m: CostModel, ts: seq<TopicCostInput>, i: nat)
    requires i < |ts| && forall t :: t in ts ==> NonNegative(t)
    requires var w := EffectiveWeights(m);
             w.storage >= 0.0 && w.throughput >= 0.0 && w.partition >= 0.0 &&
             w.storage + w.throughput + w.partition <= 1.0
    ensures 0.0 <= Allocation(m, ts)[i].eur
    ensures m.monthlyCostEUR > 0.0 ==> Allocation(m, ts)[i].eur <= m.monthlyCostEUR
  {
    hide Portion;
    var w, tot, t := EffectiveWeights(m), TotalsOf(ts), ts[i];
    assert t in ts;
    PartsBelowTotals(ts);
    PortionBounds(w.storage, BytesOf(t), tot.bytes);
    PortionBounds(w.throughput, ThroughputOf(t), tot.throughput);
    PortionBounds(w.partition, t.partitions as real, tot.partitions as real);
    EntryWithin(m, tot, t);
  }

  lemma EntryWithin(m: CostModel, tot: Totals, t: TopicCostInput)
    requires 0.0 <= WeightedShare(EffectiveWeights(m), t, tot) <= 1.0
    ensures 0.0 <= Entry(m, tot)(t).eur
    ensures m.monthlyCostEUR > 0.0 ==> Entry(m, tot)(t).eur <= m.monthlyCostEUR
  {
    hide WeightedShare;
    if m.monthlyCostEUR > 0.0 {
      var share := WeightedShare(EffectiveWeights(m), t, tot);
      Scaling(m.monthlyCostEUR, 0.0, share);
      Scaling(m.monthlyCostEUR, share, 1.0);
    }
  }

  // ---- Where a price comes from ----

  /** With a bill, bytes to spread it over and no price configured, the price times the retained volume is the
      storage part of the bill. */
  lemma DerivedPriceRecoversStoragePart(m: CostModel, totalRetainedBytes: int)
    requires m.storageEURPerGBMo <= 0.0 && m.monthlyCostEUR > 0.0 && totalRetainedBytes > 0
    ensures Resolve(m, totalRetainedBytes).storageBasis == Derived
    ensures GB(totalRetainedBytes) * Resolve(m, totalRetainedBytes).storageEURPerGBMo
            == m.monthlyCostEUR * EffectiveWeights(m).storage
  {
  }

  /** A configured price stands, whatever the bill, the bytes and the provider. Without one, and without a bill or
      bytes to spread it over, the provider's list price does; so it does for the network, whatever the bill. */
  lemma UnderivedPrices(m: CostModel, totalRetainedBytes: int)
    ensures var up := Resolve(m, totalRetainedBytes);
            var list := if m.provider == "confluent" then (0.12, 0.04)
                        else if m.provider == "msk" then (0.11, 0.02) else (0.08, 0.01);
            && (m.storageEURPerGBMo > 0.0
                ==> up.storageEURPerGBMo == m.storageEURPerGBMo && up.storageBasis == Configured)
            && (m.storageEURPerGBMo <= 0.0 && (m.monthlyCostEUR <= 0.0 || totalRetainedBytes <= 0)
                ==> up.storageEURPerGBMo == list.0 && up.storageBasis == Assumed)
            && (m.networkEURPerGB > 0.0 ==> up.networkEURPerGB == m.networkEURPerGB && up.networkBasis == Configured)
            && (m.networkEURPerGB <= 0.0 ==> up.networkEURPerGB == list.1 && up.networkBasis == Assumed)
  {
  }

  lemma PricesNonNegative(m: CostModel, totalRetainedBytes: int)
    requires EffectiveWeights(m).storage >= 0.0
    ensures Resolve(m, totalRetainedBytes).storageEURPerGBMo >= 0.0
    ensures Resolve(m, totalRetainedBytes).networkEURPerGB > 0.0
  {
    var storage := m.monthlyCostEUR * EffectiveWeights(m).storage;
    if m.monthlyCostEUR > 0.0 && totalRetainedBytes > 0 {
      assert storage >= 0.0 && storage / GB(totalRetainedBytes) >= 0.0;
    }
  }
}
