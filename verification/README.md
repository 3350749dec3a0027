# brod: the euro figures, verified

A Dafny model of the pure core of `brod`, the read-only Kafka FinOps CLI, and proofs about it.

The core takes a metadata snapshot of a cluster and a cost model, runs eight waste detectors (R1–R8),
prices each finding in euros, and ranks them. Beside it stand the allocation of the monthly bill to topics
and teams, and the collector that turns raw cluster metadata into a snapshot.

What is proved, in one paragraph each:

- **Cleanups.** Applying any finding's remediation and re-evaluating is a step relation. A configuration fix
  removes its own key and nothing else. An R3, R5 or R6 fix leaves every other line of the report as it was; an
  R4 fix under amortized pricing raises the other R4 savings, all in one proportion. A topic deletion removes
  that topic's keys; under a derived price it raises what the storage rules claim elsewhere, all in one
  proportion, and otherwise it leaves every other line but R4's as it was. A group deletion may orphan internal
  topics, and exactly those appear. Every run ends within 5 steps per topic and one per group, a bound that the
  defaults attain for clusters of every size, and all complete runs of a cluster end in the same cluster, which
  a one-pass function computes.
- **Savings budget.** Several rules price the same bytes, so the report can claim more than the storage costs:
  at most 3.2 times as much (R5 and Confluent's partition price aside), and no smaller factor works. With at
  most m >= 2 replicas a topic it is 3.2 - 2/m under the default proposal, and that is the least factor too. R1
  and R8 stay apart exactly when R8's suffixes are Streams suffixes.
- **The report.** It is the only ordered and stable ranking of the detector outputs, from the largest saving down;
  disabling a rule is filtering; the rule-id tie-break never decides; the order of the topics in the snapshot does
  not matter. For each rule it is proved, in the fields of the snapshot and the thresholds alone, exactly which
  topics or groups get a line, what the line claims and what change it proposes. Under a monthly bill every storage
  line is a share of the storage part of the bill: the bytes it would free over the bytes there are.
- **The bill.** Each entry is three parts in proportion: of the storage pot by bytes, of the throughput pot by
  traffic both ways, of the partition pot by partitions. Allocation conserves the attributable part of the bill
  exactly, is additive, and the team rollup equals allocating to one melted topic per team. The GB column adds up to
  the retained bytes. The team table has one row order exactly when no two teams tie.
- **R3, R4, R7.** R3's gates reduce to the readable ones exactly for multipliers of two or more, and its
  proposal is safe. R4 proposes the least sufficient partition count, and one of its guards is dead under an
  exact condition on the thresholds. The claim that summing equal replicas leaves R7's view unchanged holds of
  its size-factor test exactly for sizes outside a stated band. R7's byte gate scales as well: the whole verdict
  is the same at every replica count exactly when a topic over the gate has such sizes, or one under it passes
  the factor test at no count that takes it over.
- **The collector.** Every loop over a Go map is a loop that takes an arbitrary remaining key. Bytes are
  conserved; the earliest offset depends on the visiting order exactly when offset data is incomplete and the
  present offsets are positive, and nothing else in the snapshot does. So two scans of one cluster get one
  report, and their complete cleanups end alike. What a scan reports is proved in terms of what the Kafka reader
  returned: replica sizes, offsets, groups, commits and settings. The ingest estimate moves with the plain sums of
  the offsets and does not see a renumbering of records. A live scan never yields an R2 or R3 finding: its budget is
  2.2, the least factor even for clusters as the reader reports them, and its cleanup takes at most 4 steps a
  topic.

## How the model is laid out

`Seqs`, `Sorting` and `Helpers` are vocabulary. `Types`, `Cost`, `Rules`, `Detectors` and `Engine` follow the
packages `internal/rules` and `internal/cost`; the detectors, `Evaluate`, `Allocate` and the sorts are loops
proved against functions. `Verdicts` and `Figures` say what the report holds in terms of the input alone, and
`Ranking` in what order. `Members`, `Invariance`, `Edits`, `Cleanup`, `Aftermath`, `Deletions`, `Convergence`,
`Lengths`, `Budget`, `Tightness`, `Proposals` and `Skew` are the theorems about them. `Teams` is
`cmd/brod/cost.go`; `Folds`, `Collect`, `Scans` and `Pipeline` are `internal/collect` and its passage through the
engine.
`Int64` says where 64-bit arithmetic and the integers of the model part.

Conventions: float64 is `real`, int and int64 are `int`; `round2` is the one rounding. A resource key is the
pair of rule id and name. A remediation is the change it would make. R4's target rate, by which the program
divides, is of a type without zero; `Evaluate` asks that no enabled R6 divides by a zero replication factor and
no enabled R7 indexes an empty size list. Group states arrive trimmed and lower-cased, retention values parsed,
regular expressions as predicates on names. Two places where the code and its comments differ follow the code:
`offsetSpan` clears its `first` flag on a partition without a start offset, and neither the integer median nor
R7's byte gate leaves the replica count out.

## Model

| member | source | states |
|---|---|---|
| Convergence.RunsTerminate | internal/rules/engine.go:77-111 | a run of fixes has at most 5 steps per topic and one per group; every snapshot on it has the same end state |
| Convergence.CleanupIsConfluent | internal/rules/engine.go:77-111 | any run that can go no further has reached one computed cluster, whatever the order of fixes |
| Convergence.CleanupCompletes | internal/rules/engine.go:77-111 | from every cluster a complete cleanup exists and leaves nothing but R7 findings |
| Convergence.SettledIffFixed | internal/rules/engine.go:77-111 | only R7 findings remain exactly when cleaning changes nothing |
| Convergence.StepKeepsEnd | internal/rules/engine.go:92-102 | applying any one fix leaves the end state of the cleanup unchanged |
| Convergence.StepDecreases | internal/rules/r2_zombie_group.go:47-51 | every fix lowers the measure, also the group deletion that creates R8 findings |
| Lengths.LongestCleanup | internal/rules/engine.go:77-111 | configuration fixes first, deletions after, makes a complete cleanup of exactly as many steps as the measure drops, the most any run can have |
| Lengths.StepBoundIsAttained | internal/rules/engine.go:77-111 | under the defaults, for any numbers of topics and groups some cluster has a run of 5 steps a topic and one a group |
| Cleanup.FixSettlesRule | internal/rules/r3_retention.go:34-40 | an R3–R6 fix makes its rule stop flagging the topic and changes no other rule's verdict on it |
| Cleanup.ConfigFixRemovesItsKey | internal/rules/r4_partitions.go:44-58 | an R3, R4, R5 or R6 remediation removes exactly its own key from the report |
| Aftermath.ConfigFixFiltersReport | internal/rules/r3_retention.go:34-52 | an R3, R5 or R6 remediation, or R4's at Confluent's price, only takes its finding out: every other line keeps its saving and place |
| Aftermath.PartitionFixTouchesOnlyR4 | internal/rules/r4_partitions.go:54-59 | an R4 remediation leaves all findings of the other rules as they stood, in order |
| Aftermath.PartitionFixRescalesR4 | internal/rules/r4_partitions.go:68-83 | amortized, an R4 remediation scales every other R4 saving by partitions before over partitions after, so a positive one grows |
| Edits.EarliestOffsetUnread | internal/rules/engine.go:92-102 | blanking all earliest offsets leaves the report as it was: no rule reads them |
| Cleanup.DeletionRemovesTopicKeys | internal/rules/r1_dead_topic.go:60-65 | an R1 or R8 remediation removes exactly the keys of that topic |
| Cleanup.GroupDeletionMayOrphan | internal/rules/r8_internal.go:41-43 | an R2 remediation removes its key, keeps the others and adds exactly the R8 keys of the big enough internal topics whose names go on from its id and from no other listed one |
| Deletions.DeletionFiltersReport | internal/rules/r8_internal.go:52-67 | while no bill is spread over the bytes (a price is configured, or bill or bytes are missing), an R1 or R8 remediation takes the lines of its topic out and leaves every other line but R4's with its saving and place |
| Deletions.DeletionRescalesStorage | internal/cost/cost.go:74-77 | while one is, the storage bill stays and every R1, R3, R6 or R8 saving on another topic is scaled by bytes before over bytes after, its verdict unchanged |
| Deletions.GroupDeletionFiltersReport | internal/rules/r2_zombie_group.go:47-51 | an R2 remediation takes its line out and leaves every other line but R8's with its saving and place |
| Members.KeysAreFlagged | internal/rules/engine.go:92-102 | the reported keys are exactly the flagged topics and groups of the enabled rules |
| Members.InReport | internal/rules/engine.go:92-102 | a finding is in the report exactly when its rule is enabled and its detector returns it |
| Verdicts.DeadTopicIff | internal/rules/r1_dead_topic.go:28-39 | R1 has a line for a topic exactly when nothing much comes in, nobody consumes, enough is retained and the name ends in neither Streams suffix |
| Verdicts.ZombieGroupIff | internal/rules/r2_zombie_group.go:25-33 | R2 has a line for a group exactly when it is empty and its commit age is known and long enough |
| Verdicts.RetentionIff | internal/rules/r3_retention.go:28-52 | R3 has a line for a topic exactly when it is large, its lag is known, its retention is infinite or above the multiple of the lag and above the proposal, and at the topic's own rate less than it holds would arrive within the proposal |
| Verdicts.PartitionsIff | internal/rules/r4_partitions.go:44-58 | R4 has a line for a topic exactly when it has more partitions than the minimum, they carry less than the ceiling between them, and one fewer would carry the ingest at the target rate |
| Verdicts.CompressionIff | internal/rules/r5_compression.go:22-35 | R5 has a line for a topic exactly when enough comes in under one of the four codec settings that compress nothing |
| Verdicts.ReplicationIff | internal/rules/r6_replication.go:32-37 | R6 has a line for a topic exactly when its name matches the pattern there is and its factor reaches the trigger and exceeds the proposal |
| Verdicts.SkewIff | internal/rules/r7_skew.go:28-38 | R7 has a line for a topic exactly when, its sizes listed in ascending order, there are enough of them and of bytes, and the last is above the factor times a positive middle |
| Verdicts.OrphanIff | internal/rules/r8_internal.go:34-43 | R8 has a line for a topic exactly when its name ends in a listed suffix (no empty one standing before), enough is retained, and its name is no listed group id with something after it |
| Verdicts.RunningAppKeepsItsTopics | internal/rules/r8_internal.go:89-98 | a listed group with an id keeps every topic whose name is that id and a rest out of R8, whatever the thresholds |
| Verdicts.SuffixFoundIff | internal/rules/r8_internal.go:74-81 | a suffix is found exactly when the name ends in a listed one before which no empty one stands |
| Verdicts.DefaultVerdicts | internal/rules/engine.go:26-40 | what R1, R4–R8 ask of a topic under the default thresholds, in numbers; R4's target rate and R6's proposal drop out |
| Verdicts.DefaultVerdictsByAge | internal/rules/r3_retention.go:20-22 | the same for R3 and R2 |
| Figures.DeletionFigure | internal/rules/r1_dead_topic.go:40-65 | an R1 or R8 line proposes the topic's deletion and claims its retained bytes at the storage price |
| Figures.RetentionFigure | internal/rules/r3_retention.go:37-52 | an R3 line proposes the floor or twice the lag, whichever is longer, below any finite retention, and claims what would not have arrived within it |
| Figures.PartitionsFigure | internal/rules/r4_partitions.go:54-86 | an R4 line proposes the least sufficient count and claims the partitions beyond it, at Confluent's price or at their part of a fifth of the storage bill |
| Figures.CompressionFigure | internal/rules/r5_compression.go:36-39 | an R5 line proposes zstd and claims the assumed part of a month's ingest at the storage and network prices |
| Figures.ReplicationFigure | internal/rules/r6_replication.go:38-40 | an R6 line proposes the set factor and claims the bytes of the replicas beyond it |
| Figures.FreeAndOneClick | internal/rules/types.go:110-118 | R2 and R7 lines claim nothing; a line is one-click exactly when it changes retention or compression, and asks for a plan exactly when it changes partitions; which lines are of high and of low confidence |
| Figures.SeverityByBytes | internal/rules/r1_dead_topic.go:71-80 | a dead, skewed or orphaned topic is critical from 100 GiB and a warning from 10 |
| Figures.DefaultFigures | internal/rules/r4_partitions.go:24-31 | under the defaults R5 takes 65 percent of the ingest for saved, and Confluent's partition costs 50 cents |
| Figures.FigureIsShareOfBill | internal/cost/cost.go:74-77 | with a bill and no configured price each R1, R3, R6 or R8 line claims the bytes it frees over all bytes of the storage part of the bill, an amortized R4 line the partitions it removes over all partitions of a fifth of it |
| Engine.Evaluate | internal/rules/engine.go:77-111 | the loop over the registry and the in-place sort return the specified report |
| Engine.ReportIsTheStableRanking | internal/rules/engine.go:104-110 | the report is the one and only ordered, stable rearrangement of the detector outputs |
| Ranking.LinesInOrder | internal/rules/engine.go:104-109 | of two lines the earlier saves at least as much; on equal savings its rule is not the later; within a rule it is not listed later in the snapshot |
| Engine.TieBreakIsRegistryOrder | internal/rules/engine.go:58-69 | sorting on the saving alone gives the same report: ties already stand in rule order |
| Engine.DisablingIsFiltering | internal/rules/engine.go:94-97 | disabling a rule removes its findings from the report, in order, and does nothing else |
| Engine.OnlyLatestMatters | internal/rules/types.go:58-63 | the report of a history is the report of its last snapshot |
| Engine.TotalSavingsEUR | internal/rules/engine.go:114-120 | the loop returns the sum of the findings' savings |
| Sorting.StableSortCorrect | internal/rules/engine.go:104-109 | the sort orders and keeps ties in order |
| Sorting.StableSortUnique | internal/rules/engine.go:104-109 | order and stability determine the result of a sort |
| Sorting.SortInPlace | internal/rules/engine.go:104-109 | the in-place insertion sort leaves the array holding the specified sort of what it held |
| Invariance.TopicOrderIrrelevant | internal/rules/engine.go:82-109 | relisting the topics keeps the findings, the total and the sequence of saving and rule |
| Budget.SavingsBudget | internal/rules/engine.go:82-109 | without R5 the report claims at most 3 storage bills plus the partition cap, 3.2 bills when partitions are not Confluent-priced, plus half a cent a finding |
| Budget.BudgetUpToFactor | internal/rules/r6_replication.go:38-40 | with at most m replicas a topic, R6's storage bill in that budget shrinks to the part above the proposed factor: 1 - 2/m for the default proposal and m >= 2 |
| Tightness.BudgetIsTight | internal/rules/engine.go:113-120 | for every factor below 3.2 some cluster's report claims more |
| Tightness.BudgetUpToFactorIsTight | internal/rules/r6_replication.go:32-40 | for every factor below 3.2 - 2/m (m >= 2) some cluster with at most m replicas a topic gets a report claiming more |
| Tightness.LiveBudgetIsTight | internal/collect/collect.go:135-179 | for every factor below 2.2 some live scan of a coherent cluster (factor, partitions and log dirs agreeing with the replica lists) gets a report claiming more |
| Tightness.LiveBudgetUpToFactorIsTight | internal/collect/collect.go:135-179 | for every factor below 2.2 - 2/m (m >= 2) some live scan of a coherent cluster with at most m replicas a topic gets a report claiming more |
| Tightness.R5HasNoStorageBound | internal/rules/r5_compression.go:36-39 | R5's saving exceeds every multiple of the storage bill for some cluster |
| Budget.DisjointIffOnlyStreams | internal/rules/r8_internal.go:16-18 | R1 and R8 can never bill one topic exactly when R8's suffixes, up to an empty one, are Streams suffixes |
| Budget.TotalNearExact | internal/rules/helpers.go:10 | a total is within half a cent a finding of the unrounded total of the enabled rules |
| Budget.RetentionWithinBill | internal/rules/r3_retention.go:42-52 | R3's unrounded savings lie between nothing and the storage bill |
| Budget.PartitionsWithinCap | internal/rules/r4_partitions.go:59-86 | R4's unrounded savings lie between nothing and the price of all partitions |
| Budget.AmortizedCap | internal/rules/r4_partitions.go:68-83 | amortized, the price of all partitions is at most a fifth of the storage bill |
| Budget.ReplicationWithinBill | internal/rules/r6_replication.go:38-40 | R6's unrounded savings lie between nothing and the storage bill |
| Budget.DerivedStorageBill | internal/cost/cost.go:74-77 | with a bill, bytes and no configured price, the storage bill is the monthly cost times the storage weight |
| Helpers.Round2Exact | internal/rules/helpers.go:10 | rounding moves a figure by at most half a cent, keeps its sign and commutes with negation |
| Helpers.Round2IsNearestCent | internal/rules/helpers.go:9-10 | a figure is the rounding of another exactly when it is in whole cents and the nearest, halves going away from zero |
| Proposals.R3ReductionHoldsIff | internal/rules/r3_retention.go:28-52 | R3 fires exactly on size, known lag, retention infinite or above floor and multiple, and a projection below the retained bytes, for all topics if and only if the multiplier is at least two |
| Proposals.R3FiresWhenReduced | internal/rules/r3_retention.go:28-52 | the same equivalence for one topic and rate, given such a multiplier |
| Proposals.R3ProposalIsSafe | internal/rules/r3_retention.go:37-52 | the proposal keeps the floor and twice the lag, shortens finite retention, splits the bytes into kept and saved, and is not flagged again |
| Proposals.R4ProposesTheLeast | internal/rules/r4_partitions.go:54-55 | the proposal is the least count from the minimum up that carries the ingest at the target rate |
| Proposals.R4GuardIsDeadIff | internal/rules/r4_partitions.go:56-58 | the proposed-not-smaller guard is unreachable exactly when max × (min + 1) ≤ target × min |
| Proposals.DefaultR4GuardIsDead | internal/rules/r4_partitions.go:24-31 | under the default thresholds that guard never fires |
| Detectors.EvalR1 | internal/rules/r1_dead_topic.go:24-69 | the loop returns R1's findings in snapshot order |
| Detectors.EvalR2 | internal/rules/r2_zombie_group.go:21-55 | the loop returns R2's findings in snapshot order |
| Detectors.EvalR3 | internal/rules/r3_retention.go:24-82 | the loop returns R3's findings in snapshot order |
| Detectors.EvalR4 | internal/rules/r4_partitions.go:33-111 | the loops return R4's findings in snapshot order |
| Detectors.PriceRemoved | internal/rules/r4_partitions.go:61-86 | the pricing branch and its nested sum price the removed partitions |
| Detectors.EvalR5 | internal/rules/r5_compression.go:26-69 | the loop returns R5's findings in snapshot order |
| Detectors.EvalR6 | internal/rules/r6_replication.go:28-69 | the loop returns R6's findings in snapshot order, as long as it flags no topic of zero replicas |
| Detectors.EvalR7 | internal/rules/r7_skew.go:25-64 | the loop, sorting a copy in place, returns R7's findings in snapshot order, as long as no empty size list passes its gates |
| Detectors.EvalR8 | internal/rules/r8_internal.go:30-72 | the loop returns R8's findings in snapshot order |
| Detectors.MatchSuffix | internal/rules/r8_internal.go:74-81 | the search returns the first listed suffix of the name |
| Detectors.HasOwningApp | internal/rules/r8_internal.go:91-98 | the search finds whether a non-empty group id is a prefix of the topic |
| Detectors.LookupBytesInPerSec | internal/rules/r3_retention.go:85-92 | the search returns the rate of the first topic with the name |
| Skew.DecisionSurvivesReplicationIff | internal/rules/r7_skew.go:29-36 | R7 decides alike at every replica count exactly when, over its byte gate, the sizes are scale-proof, or, under it, no count takes the topic over the gate and past the factor test |
| Skew.ReplicationAddsAFlagIff | internal/rules/r7_skew.go:29-36 | under the byte gate some replica count gets a topic flagged exactly when it holds bytes and its maximum is above the factor of the exact middle, or the lost half tips it at the first odd count over the gate |
| Skew.SkewSurvivesReplicationIff | internal/rules/r7_skew.go:32-36 | the size-factor test alone gives one answer at every replica count exactly when the middle sum is even or not positive or the maximum is outside a band |
| Skew.ScalingNeverAddsAFlag | internal/rules/r7_skew.go:66-75 | for a topic over the byte gate with a positive unscaled median, a flag at some replica count is a flag at one |
| Skew.ReplicationCanHideSkew | internal/rules/r7_skew.go:29-36 | under the defaults a concrete topic is flagged at one replica and not at two |
| Skew.ReplicationCanRaiseSkew | internal/rules/r7_skew.go:29-36 | under the defaults a concrete topic is flagged at two replicas and not at one: the byte gate counts replicas |
| Skew.HalfAreFarBelowTheMax | internal/rules/r7_skew.go:32-38 | at least half the partitions of a flagged topic are smaller than the largest by more than the factor |
| Skew.OnlySizesMatter | internal/rules/r7_skew.go:32-38 | the decision and evidence depend only on the multiset of sizes |
| Cost.Allocate | internal/cost/cost.go:126-154 | the loops return the specified allocation |
| Cost.BillIsConserved | internal/cost/cost.go:126-168 | the entries add up to the bill times the weights of the drivers with a positive total |
| Cost.WholeBillIff | internal/cost/cost.go:156-168 | the whole bill is allocated exactly when every positively weighted driver is non-zero |
| Cost.EntriesWithinBill | internal/cost/cost.go:138-152 | no entry is negative or above the bill |
| Cost.AllocationIsAdditive | internal/cost/cost.go:145-148 | the euros of several topics are the euros of the topic they melt into |
| Cost.EntryByDrivers | internal/cost/cost.go:131-168 | an entry is three parts, of each driver's pot in proportion to the topic's retained bytes, its traffic both ways and its partitions |
| Cost.TrafficAloneIsBilled | internal/cost/cost.go:161-163 | with traffic the one weighted driver, a topic pays in proportion to what comes in and goes out |
| Cost.DirectionIsUnread | internal/cost/cost.go:134-135 | moving a topic's traffic between in and out changes no entry |
| Cost.UnsetWeightsAreTheDefault | internal/cost/cost.go:62-66 | leaving the weights unset allocates and prices exactly as 40/40/20 does |
| Cost.DerivedPriceRecoversStoragePart | internal/cost/cost.go:74-77 | with a bill, bytes and no configured price, the price is derived, and times the volume it is the storage part of the bill |
| Cost.UnderivedPrices | internal/cost/cost.go:70-91 | a configured price stands whatever the bill and bytes; without one, and without a bill or bytes, the provider's list price does, and for the network without regard to the bill |
| Teams.RollupIsAllocation | cmd/brod/cost.go:181-203 | each team's accumulated euros are what allocation gives that team as one melted topic |
| Teams.TeamTable | cmd/brod/cost.go:181-209 | for every map order: one row per team with its euros and the GB its topics retain, largest figure shown first; euros and GB add up to the topics' totals |
| Teams.TeamOrderIsFixedIff | cmd/brod/cost.go:199-209 | the rows come out in one order, whatever order the map is visited in, exactly when no two teams tie on the driver shown |
| Teams.Accumulate | cmd/brod/cost.go:188-192 | the accumulation loop leaves exactly the team sums in both maps |
| Teams.TeamTotalsAddUp | cmd/brod/cost.go:199-203 | the team totals, in euros or GB, add up to the topic total |
| Teams.SharesOf | cmd/brod/cost.go:213-217 | the share column holds each row's part of the total in percent, zero when there is no total |
| Teams.SharesSumToHundred | cmd/brod/cost.go:213-217 | the shares of a positive total sum to one hundred |
| Teams.TopicTable | cmd/brod/cost.go:135-156 | one row per allocation with its euros and the topic's retained GB, largest figure shown first; the GB column adds up to the retained bytes |
| Teams.GBIsRetained | cmd/brod/cost.go:185-192 | a team's GB are what the topics first matched to it retain, and all GB what the topics retain |
| Teams.CostInputs | cmd/brod/cost.go:79-88 | the loop hands every topic's name and drivers to the allocation |
| Teams.TopicEntry | cmd/brod/cost.go:77-89 | the entry shown for a snapshot's topic is its parts of the three pots by its own fields |
| Teams.AllocationListsTopics | cmd/brod/cost.go:79-89 | the allocation of a snapshot has one entry for each of its topics |
| Teams.TeamFlags.Set | cmd/brod/cost.go:29-40 | a usable flag is appended, a malformed one or a bad regex changes nothing |
| Teams.TeamFlags.TeamFor | cmd/brod/cost.go:43-50 | the search returns the first matching team |
| Teams.FirstMatchWins | cmd/brod/cost.go:43-50 | the first rule that matches decides, else the topic is unassigned |
| Folds.SumReplicaBytes | internal/collect/collect.go:222-230 | for every map order the total is the sum over all replicas of all partitions |
| Folds.PerPartitionBytes | internal/collect/collect.go:236-254 | for every map order the sizes are the replica sums in ascending partition id |
| Folds.PartitionsCarryAllBytes | internal/collect/collect.go:222-254 | one size a partition, adding up to the topic's total |
| Folds.TotalIsOverAllReplicas | internal/collect/collect.go:219-230 | the total is the sum of one list of every replica size of every partition, read in any order |
| Folds.OffsetSpan | internal/collect/collect.go:258-275 | the latest offset is the largest end offset or zero; the earliest is what the order visited yields |
| Folds.EarliestExactly | internal/collect/collect.go:261-273 | the least start if the first partition visited has one, else that or zero, whichever is smaller |
| Folds.EarliestIsOrderFreeIff | internal/collect/collect.go:256-273 | the earliest offset is order-free exactly if all or no partitions have a start or one is not positive |
| Folds.LatestIsMax | internal/collect/collect.go:267-271 | in every order the latest offset is the largest end offset or zero |
| Folds.ActiveConsumers | internal/collect/collect.go:279-290 | for every order the map counts the live groups committed on each topic |
| Folds.ConsumersAreDistinctGroups | internal/collect/collect.go:277-290 | with distinct ids that count is the number of distinct live groups |
| Folds.EstimateBytesInPerSec | internal/collect/collect.go:336-356 | for every order the estimate is the rate of the two sums over partitions |
| Folds.RateBalances | internal/collect/collect.go:328-335 | rate × window × held = retained × produced; never negative; zero exactly when a guard holds |
| Folds.EstimateBalances | internal/collect/collect.go:339-355 | the same balance in the offsets of each partition of the first probe: records from start (zero if absent) to end, records between the ends for partitions in both probes |
| Folds.RateOfPlainSums | internal/collect/collect.go:328-335 | with complete offsets that only grow, rate × window × (Σ end0 - Σ start) = retained × (Σ end1 - Σ end0) |
| Folds.RenumberingIsUnseen | internal/collect/collect.go:342-350 | shifting a partition's start and both ends alike leaves the estimate as it was |
| Folds.RateIsMonotone | internal/collect/collect.go:342-350 | a later second probe never lowers the estimate |
| Collect.Build | internal/collect/collect.go:67-182 | the snapshot has the kept topics mapped field by field and sorted by name, and all groups and brokers |
| Collect.DropInternal | internal/collect/collect.go:198-209 | the loop keeps exactly the topics that are not internal |
| Collect.BytesAreConserved | internal/collect/collect.go:145-158 | every built topic's retained bytes are the sum of its partition sizes |
| Collect.BuildsAgree | internal/collect/collect.go:135-182 | two results for one cluster, whatever the map orders, differ in earliest offsets at most, and not at all for settled offset data |
| Collect.BuildIsDeterministicIff | internal/collect/collect.go:135-182 | a cluster has one possible snapshot exactly when every kept topic's start offsets are complete, absent or somewhere not positive |
| Collect.EqualReplicasScale | internal/collect/collect.go:232-235 | k equal replicas multiply the collected sizes by k |
| Collect.ReplicasMultiply | internal/collect/collect.go:222-254 | with k equal replicas the collected topic is the single-copy one with sizes and retained bytes times k |
| Collect.CollectedVerdictIff | internal/collect/collect.go:232-235 | over scans of a cluster in which a topic's partitions have k equal replicas, R7's verdict on the topic Build returns is the same at every k exactly when its single-copy sizes meet the condition of Skew.DecisionSurvivesReplicationIff |
| Collect.NamesStayDistinct | internal/collect/collect.go:135-179 | distinct topic names in the cluster are distinct in the snapshot |
| Scans.ScannedTopic | internal/collect/collect.go:143-166 | every topic of the cluster that is not dropped is in the snapshot with the reader's figures; absent settings read as infinite retention, the producer's codec, deletion |
| Scans.ScannedCluster | internal/collect/collect.go:135-143 | the snapshot lists every group with unknown commit age and every broker, under the cluster's name and provider |
| Scans.ScannedRate | internal/collect/collect.go:168-175 | a topic's ingest is zero without a window and otherwise balances records held and produced against the bytes on disk |
| Scans.ScanFindsDeadTopicIff | internal/collect/collect.go:108-162 | a scan reports a topic dead exactly when it is no Streams topic, its replicas hold enough, it shows next to no growth and no live group has committed on it |
| Scans.ScanFindsOrphanIff | internal/collect/collect.go:307-325 | a scan reports an orphan exactly when the name ends in a listed suffix, the replicas hold enough and no group the cluster lists, live or not, has an id the name goes on from |
| Scans.ScanFindsUncompressedIff | internal/collect/collect.go:153-172 | a scan asks for compression exactly when enough comes in and the codec is unset, empty or one of three that compress nothing |
| Scans.ScanFindsCountsIff | internal/collect/collect.go:149-152 | a scan reports partitions and replicas exactly by the counts the cluster reports |
| Scans.OnlyScannedIsReported | internal/collect/collect.go:195-209 | every line of a scan is about a topic of the cluster that was not dropped |
| Pipeline.ScansReportAlike | internal/collect/collect.go:135-182 | two scans of one cluster get the same report, whatever the map orders |
| Pipeline.ScansCleanAlike | internal/collect/collect.go:135-182 | complete cleanups of two scans of one cluster end in one cluster up to earliest offsets, whatever the map orders and the order of fixes |
| Pipeline.ScanCleanupIsShort | internal/collect/collect.go:135-179 | the cleanup of a live scan takes at most 4 fixes a topic |
| Pipeline.QuietRules | internal/collect/collect.go:145-179 | a live scan yields no R2 or R3 finding, and single-shot with a positive R5 ingest floor no R5 finding |
| Pipeline.LiveScanBudget | internal/collect/collect.go:135-179 | without R5 a live scan claims at most 2 storage bills plus the partition cap, 2.2 bills when partitions are not Confluent-priced, plus half a cent a finding |
| Pipeline.LiveBudgetUpToFactor | internal/collect/collect.go:135-179 | without R5 and with at most m >= 2 replicas a topic a live scan claims at most 2.2 - 2/m storage bills under the default proposal when partitions are not Confluent-priced, plus half a cent a finding |
| Int64.SumIsExactIff | internal/rules/engine.go:82-85 | a wrapping int64 sum is exact exactly when the true total fits |
| Int64.MachineProposalIsSafeIff | internal/rules/r3_retention.go:37 | in 64 bits the proposal covers twice the lag exactly for lags below 2^62 ms |
| Int64.MidpointIsExactIff | internal/rules/r7_skew.go:74 | the midpoint of two sizes is exact exactly when their sum fits; otherwise R7 passes over the topic |

## Left out

- Rounding, NaN and infinities of float64: all results are over the reals, with `round2` as the only rounding.
- R4's target rate of zero, by which the program divides; R6 on a flagged topic of zero replicas, which takes a negative proposal; R7 on a big enough topic without sizes when the minimum count is not positive, where Go panics.
- Titles, basis and evidence texts, and the wording of remediation commands.
- Regular expressions, string trimming, case folding and number parsing; they enter as predicates and parsed values.
- The Kafka client, the reads behind `ClusterData`, read errors, sleeping and the clock.
- Printing, JSON output, flag parsing other than `--team`, and file handling in `cmd/brod`.
- The algorithm of Go's sort package: insertion sort stands for it, and uniqueness makes the choice immaterial for the report.
- Proposal theorems for R1, R2, R5, R6 and R8, whose remediation is one deletion or one fixed value.
- Proposals.R4ProposesTheLeast: for a positive target rate; with a negative one there is no least sufficient count.
- Proposals.R4GuardIsDeadIff: for a positive rate ceiling and target and a minimum of at least zero.
- Skew.DecisionSurvivesReplicationIff: for a skew factor of at least zero and sizes that do not sum below zero.
- Aftermath.PartitionFixRescalesR4: for exact savings, and as long as partitions remain to spread the price over.
- Deletions.DeletionRescalesStorage: for exact savings, and as long as bytes remain to derive a price from.
- The Cleanup, Aftermath, Deletions, Convergence and Lengths theorems: for distinct topic names and group ids, which Kafka guarantees.
- Tightness.LiveBudgetUpToFactorIsTight: for at least one replica a topic; with none there are no bytes to bill.
- Collect.BuildIsDeterministicIff: for distinct topic names, which Kafka guarantees.
- Budget.SavingsBudget: for snapshots without negative sizes, rates or partition counts, a storage weight of at least zero, proposals that are not negative and R8 suffixes that are Streams suffixes, as the defaults are.
- Budget.BudgetUpToFactor: under the same conditions.
- Pipeline.LiveScanBudget: under the same conditions on thresholds and weight, and for log dirs and partition counts without negative numbers.
- Pipeline.LiveBudgetUpToFactor: under the same conditions.
- Invariance.TopicOrderIrrelevant: for distinct topic names, which Kafka guarantees; R3 looks its rate up by name.
- The Verdicts, Figures and Scans theorems: for distinct topic names, and for R2 distinct group ids, which Kafka guarantees.
- Verdicts.PartitionsIff: for a positive target rate, like Proposals.R4ProposesTheLeast.
- Figures.ReplicationFigure: no figure for a flagged topic of zero replicas, where the program's is not a number.
- Figures.DefaultFigures: on a Confluent cluster, where R4's default price applies.
- Wrap-around outside the places `Int64` names.
