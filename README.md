# Warehouse digital twin: topology, objective, simulation and slotting

This project models the computational core of a warehouse digital twin. It
proves properties of that model in Dafny.

The warehouse has two zones of bins:

- **Zone A** holds three pallet-rack aisles at columns 10, 14 and 18, with depth rows 0..20.
- **Zone B** holds three shelving aisles at columns 22, 24 and 26, with depth rows 0..10.

Every depth row has five levels. Vehicles change aisle column only on the
cross-aisle rows 0, 10 and 20. Five docks stand on the x = 30 wall.

Each bin gets its Manhattan distance to the nearest dock and a performance
tier:

- **Gold**: below 10 m;
- **Silver**: below 18 m;
- **Bronze**: otherwise.

On top of this layout the twin:

- **scores SKUs** by the pallet trips their order lines need, weighted by shipping wave;
- **costs bins** by travel time to the docks plus a step lifting penalty, with a capacity that depends on the level;
- **places SKUs greedily**: each SKU, most demanding first, takes the cheapest free bin that can carry its pallet;
- **improves a placement by hill climbing**: it swaps the bins of two SKUs and keeps the swap only when the layout objective falls on a fixed order sample;
- **replays orders** to report distance and time per order.

Modules, one per file:

| module | file | models |
|---|---|---|
| `Seqs` | seqs.dfy | duplicate-free sequences, first-appearance dedup (`unique()`), removal at an index (`pop(i)`), `[:n]` |
| `Sorting` | sorting.dfy | a stable sort by a real key (`sort_values`) |
| `Text` | text.dfy | decimal formatting of numbers in identifiers |
| `Records` | records.dfy | the tables as records |
| `Topology` | topology.dfy | `WarehouseTopology`, dock distance, bin tiers |
| `Distance` | distance.dfy | `calculate_manhattan_dist` |
| `Objective` | layout_cost.dfy | `evaluate_layout_cost` |
| `OrderSimulation` | order_simulation.dfy | `run_simulation` |
| `SkuScoring` | sku_scoring.dfy | `calculate_sku_scores` |
| `BinCosting` | bin_costing.dfy | `calculate_bin_costs` |
| `GreedyAllocation` | greedy_allocation.dfy | `run_greedy_allocation` |
| `HillClimbing` | hill_climbing.dfy | `optimize_slotting_hill_climbing` |
| `SlottingStrategy` | slotting_strategy.dfy | `run_slotting_strategy` |

How the source's forms are modelled:

- **Loops that change state are methods**, each proved against a specification function. This covers the topology build loops, the dock-distance minimum, the objective's accumulation, the simulation's nested loops, the greedy scan with its `pop` and the climb loop.
- **Objects and tables updated in place are classes.** `WarehouseTopology` is a class, and so is the layout table that `calculate_bin_costs` writes its columns into (`LayoutFrame`).
- **Column-wise computations are functions.** This covers scores, bin costs and the tier.

Randomness is an input:

- the order-id sample of the optimizer is a set of order ids;
- each `random.sample(skus, 2)` is a pair of positions in the SKU key list.

The objective works on integers, as the source's columns are integers there. Speeds, times, scores and costs are `real`.

Two facts about the aisle distance are stated outright:

- `HubToBackOfFirstRack`: the staging hub (28, 10) is 28 from bin (10, 20), via the candidate routes 48, 28 and 28.
- `ManhattanDistSymmetric`: every branch of the distance is symmetric in its two points.

A SKU id that appears on several rows of the SKU table gets one summed
score. The merge joins each of its order lines with each of those rows,
and the group-by adds up all the joined trips. The merge back onto the SKU
rows then gives every one of those rows that summed score.
`SkuScoring.RepeatedIdGetsSummedScore` works one such case through.

## Model

| member | source | states |
|---|---|---|
| Records.SkuIds | src/slotting_engine.py:8 | the SKU id column of an order table, position by position |
| Records.OrderIds | src/simulation_engine.py:84 | the order id column of an order table, position by position |
| Seqs.Dedup | src/simulation_engine.py:84 | `unique()`: every element once, exactly the elements of the input, no longer than it |
| Seqs.DedupKeepsFirstAppearanceOrder | src/simulation_engine.py:84 | `unique()` keeps first-appearance order |
| Seqs.Take | src/simulation_engine.py:84 | `[:n]` is a prefix of length min(n, length) |
| Seqs.RemoveAt | src/slotting_engine.py:87 | `available_bins.pop(i)`: one shorter, elements before i kept, later ones shifted down |
| Seqs.RemoveAtElements | src/slotting_engine.py:87 | popping from a duplicate-free list removes exactly that element and keeps it duplicate-free |
| Sorting.SortBy | src/slotting_engine.py:33 | `sort_values`: result ordered by the key and a permutation of the input |
| Text.NatToString | src/data_engine.py:18 | the decimal digits of a number, at least one, two or more from 10 on |
| Text.NatToStringInjective | src/data_engine.py:18 | different numbers format differently |
| Text.SplitAtSeparator | src/data_engine.py:22 | splitting `<a>_<r>` at the first `_` is unambiguous when `a` has no `_` |
| Topology.ZoneAisles | src/data_engine.py:16-18 | aisle i of a zone is `<prefix><i+1>` at the i-th column |
| Topology.LevelNodes | src/data_engine.py:20-25 | the innermost loop: levels 1..n of a depth row, in order |
| Topology.RowNodesShape | src/data_engine.py:19-25 | depth rows 0..m-1 of an aisle, five levels each: m times 5 bins, row-major |
| Topology.ZoneNodesLength | src/data_engine.py:17-37 | a zone holds aisles times depth rows times five levels bins |
| Topology.ZoneNodesShape | src/data_engine.py:17-37 | every bin of a zone, at its position, lies in one of the zone's aisles at a valid row and level |
| Topology.TopologyCounts | src/data_engine.py:16-37 | 315 rack bins, 165 shelving bins, 480 in all |
| Topology.ZoneNodeShape | src/data_engine.py:17-37 | every bin of a zone lies in one of its aisles at a valid depth row and level 1..5 |
| Topology.ZoneNodesCover | src/data_engine.py:17-37 | every (aisle, row, level) position of a zone holds a bin |
| Topology.AllNodesCoordinates | src/data_engine.py:16-37 | rack bins are at columns 10/14/18, rows 0..20, zone A; shelving bins at 22/24/26, rows 0..10, zone B; levels 1..5; id `<aisle>_<y>_<z>` |
| Topology.AllNodesCover | src/data_engine.py:16-37 | conversely, every rack and shelving position holds a bin |
| Topology.BinIdInjective | src/data_engine.py:22 | a bin id determines its aisle, row and level |
| Topology.AllNodesUniqueIds | src/data_engine.py:17-37 | bin ids are pairwise distinct over the whole layout |
| Topology.DockList | src/data_engine.py:44-47 | docks `DOCK_1`..`DOCK_5` on column 30 at level 1, at rows 20, 15, 10, 5, 0 |
| Topology.NearestDockDistance | src/data_engine.py:51-56 | the distance to the nearest dock: at most the distance to every dock and equal to one of them |
| Topology.NearestDockClosedForm | src/data_engine.py:44-56 | the nearest-dock distance is the gap to the dock wall plus the depth gap to the nearest multiple of 5 in 0..20 |
| Topology.NearestDockLower | src/data_engine.py:44-56 | no dock is nearer than the wall gap plus the gap to the nearest dock row |
| Topology.NearestDockUpper | src/data_engine.py:44-56 | some dock is that near |
| Topology.LayoutDockDistanceBounds | src/data_engine.py:44-56 | in front of the dock wall and within rows 0..20, it lies between 30 - x and 30 - x + 2 |
| Topology.ClassifyMonotone | src/data_engine.py:65-68 | a bin nearer the docks never gets a worse tier |
| Topology.LayoutBinData | src/data_engine.py:58-70 | each layout row's distance in closed form; column 10 is all Bronze, column 18 all Silver, columns 24 and 26 all Gold |
| Topology.NodesData | src/data_engine.py:59-70 | one layout row per node, in node order |
| Topology.WarehouseTopology.constructor | src/data_engine.py:10-12 | a new topology holds the 480 bins, the cross-aisle rows and the five docks |
| Topology.WarehouseTopology.BuildTopology | src/data_engine.py:14-47 | `_build_topology` appends all bins, zone A before B, then sets the cross-aisle rows and the docks |
| Topology.WarehouseTopology.BuildBins | src/data_engine.py:15-37 | the two zone loops append exactly the layout's bins |
| Topology.WarehouseTopology.BuildDocks | src/data_engine.py:44-47 | the dock loop builds exactly the dock list |
| Topology.WarehouseTopology.AppendZone | src/data_engine.py:17-25 | one zone's triple loop appends exactly that zone's bins |
| Topology.WarehouseTopology.CalculateDistanceToDock | src/data_engine.py:49-56 | the loop's running minimum is the nearest-dock distance; with no dock the result is infinite (`None`) |
| Topology.WarehouseTopology.GetAllNodesData | src/data_engine.py:58-71 | one row per node with its id, coordinates, zone, aisle and kind, its nearest-dock distance and the tier of that distance |
| Topology.BuiltLayoutTable | src/data_engine.py:58-71 | a built topology's table has 480 rows, distinct bin ids and closed-form distances |
| Distance.BestRouteIsShortest | src/simulation_engine.py:22-29 | the running minimum is no longer than the route through any cross-aisle row and equal to one of them |
| Distance.ManhattanDistShortest | src/simulation_engine.py:4-29 | same column: the depth difference; otherwise the shortest route through a cross-aisle row, never below the plain Manhattan distance |
| Distance.ManhattanDistSymmetric | src/simulation_engine.py:8-29 | the distance is symmetric in its two points |
| Distance.ManhattanDistZero | src/simulation_engine.py:8-12 | a point is at distance 0 from itself |
| Distance.HubToBackOfFirstRack | src/simulation_engine.py:23-29 | hub (28, 10) to bin (10, 20) is 28 |
| Objective.TotalQtyAbsent | src/simulation_engine.py:43 | a SKU that is not ordered has total quantity 0 |
| Objective.PerVisitCost | src/simulation_engine.py:60-68 | a visit to a bin at level 1 or above costs a non-negative amount |
| Objective.SkuCost | src/simulation_engine.py:45-70 | a SKU without a bin, or whose bin is not in the layout, costs 9999; otherwise its per-visit cost times its quantity |
| Objective.SkuCounts | src/simulation_engine.py:43 | the group-by table has every ordered SKU once, with its total quantity |
| Objective.EvaluateLayoutCost | src/simulation_engine.py:31-72 | the accumulated total is the layout objective |
| Objective.CountRowCost | src/simulation_engine.py:45-70 | the loop body for one SKU computes that SKU's cost |
| Objective.LayoutCostPerLine | src/simulation_engine.py:36-72 | the objective is the sum over lines of placed SKUs of quantity times the per-visit cost, plus 9999 per distinct unplaceable SKU |
| Objective.CostOverAddLine | src/simulation_engine.py:43-70 | one more line of a placed SKU adds exactly its line cost |
| Objective.CostOverSameElements | src/simulation_engine.py:45-70 | the sum does not depend on the order of the SKUs |
| Objective.LayoutCostDependsOnTotals | src/simulation_engine.py:43-68 | two batches with the same per-SKU totals cost the same |
| Objective.LayoutCostMonotoneInQuantity | src/simulation_engine.py:43-68 | with every bin at level 1 or above, raising a line's quantity never lowers the objective |
| OrderSimulation.LayoutDictKeys | src/simulation_engine.py:81 | `set_index('bin_id').to_dict`: every bin id is a key and each value is a row with that id |
| OrderSimulation.LayoutDictUnique | src/simulation_engine.py:81 | with unique bin ids each row is the value of its own id |
| OrderSimulation.AllocatedBin | src/simulation_engine.py:104-108 | the bin of the first allocation row of the SKU; none exactly when no row has the SKU |
| OrderSimulation.LinesOf | src/simulation_engine.py:89 | an order has lines exactly when its id occurs |
| OrderSimulation.LinesOfMembers | src/simulation_engine.py:89 | the lines of an order are exactly the batch's lines with its id |
| OrderSimulation.FirstLineOfOrder | src/simulation_engine.py:163 | an order's first line is the batch's first line with that id |
| OrderSimulation.SimulatedOrderIds | src/simulation_engine.py:84 | the first n distinct order ids: distinct, min(n, #orders) of them, all from the batch |
| OrderSimulation.SimulatedOrderIdsInOrder | src/simulation_engine.py:84 | the simulated orders come in order of first appearance |
| OrderSimulation.RunSimulation | src/simulation_engine.py:74-166 | the returned table is the specified one KPI row per simulated order |
| OrderSimulation.SimulateOrders | src/simulation_engine.py:88-164 | the order loop appends exactly one KPI row per order id, in order |
| OrderSimulation.SimulateOrder | src/simulation_engine.py:89-164 | the line loop's totals are the order's distance and time (its loop invariant also keeps the staging counter in 0..9) |
| OrderSimulation.OrderTotalsPrefixStep | src/simulation_engine.py:99-147 | one more line adds its distance and its time to the order's totals |
| OrderSimulation.VisitLine | src/simulation_engine.py:100-147 | a line is skipped exactly when its SKU has no bin in the layout; otherwise four legs, lifts and picking |
| OrderSimulation.SimulationRows | src/simulation_engine.py:84-164 | one row per simulated order, in first-appearance order, via STAGING, baselines 1.2 times the optimized figures, the wave of the first line |
| OrderSimulation.OrderTotalsBounds | src/simulation_engine.py:120-147 | each located line takes at least 70 s; an order with no located SKU takes no time and no distance |
| OrderSimulation.OrderTimeZeroIff | src/simulation_engine.py:99-147 | an order takes time exactly when one of its SKUs can be located |
| OrderSimulation.OrderTotalsAdditive | src/simulation_engine.py:99-147 | an order's distance and time split over its lines |
| SkuScoring.TripsIsCeiling | src/slotting_engine.py:15 | trips are quantity over pallet size rounded up |
| SkuScoring.TripsMonotone | src/slotting_engine.py:15 | more units never need fewer trips |
| SkuScoring.IdScoreUnique | src/slotting_engine.py:11-26 | with unique SKU ids, an id's summed score is its one row's weighted trips over the id's lines |
| SkuScoring.RepeatedIdGetsSummedScore | src/slotting_engine.py:8-30 | two SKU rows of one id (10 and 20 units per pallet) and one morning line of 15: both rows get the summed score 4.5 |
| SkuScoring.ActiveRowSource | src/slotting_engine.py:8-30 | every active row is a SKU row whose id the batch orders, with the id's weighted trips summed over all its SKU rows, and that row's pallet weight |
| SkuScoring.ActiveRowsComplete | src/slotting_engine.py:8-30 | every SKU row whose id the batch orders has an active row with the id's summed score and its own pallet weight |
| SkuScoring.ActiveRowsUnique | src/slotting_engine.py:8-30 | with unique SKU ids in the table, no SKU has two active rows |
| SkuScoring.SkuScoresOrdered | src/slotting_engine.py:33 | the score table is sorted by descending score and holds each active row as often |
| SkuScoring.SkuScoreSource | src/slotting_engine.py:6-35 | every score row is a SKU row whose id the batch orders, with the id's summed score and that row's pallet weight |
| SkuScoring.SkuScoresComplete | src/slotting_engine.py:6-35 | every SKU row whose id the batch orders is in the score table with the id's summed score |
| SkuScoring.SkuScoresUnique | src/slotting_engine.py:6-35 | with unique SKU ids in the table, no SKU appears twice |
| SkuScoring.WeightedIsLineEffort | src/slotting_engine.py:15-23 | a line's weighted trips split by wave are its trips times its wave's weight for its own SKU, and nothing for another |
| SkuScoring.EffortStep | src/slotting_engine.py:15-27 | one more line adds its trips times its wave's weight |
| SkuScoring.IdScoreMonotoneInWeights | src/slotting_engine.py:12-26 | raising either wave weight never lowers the summed score of an ordered SKU id, however many SKU rows carry the id |
| SkuScoring.IdScoreMonotoneInQuantity | src/slotting_engine.py:12-26 | with non-negative weights, raising any line's quantity keeps the set of ordered ids and never lowers the summed score of an ordered SKU id, however many SKU rows carry the id |
| BinCosting.VerticalPenalty | src/slotting_engine.py:38-43 | 0, 10, 20, 35 for levels 1..4; 999 exactly for every other level |
| BinCosting.WeightCapacity | src/slotting_engine.py:45-47 | 2000 kg exactly at level 1, 1000 kg otherwise |
| BinCosting.CostsOf | src/slotting_engine.py:49-52 | travel time times speed is the dock distance; total cost is travel time plus penalty |
| BinCosting.WithCosts | src/slotting_engine.py:49-52 | each layout row keeps its bin and gains its cost columns |
| BinCosting.Costed | src/slotting_engine.py:49-55 | the costed rows in layout order |
| BinCosting.LayoutFrame.constructor | src/slotting_engine.py:37 | the caller's layout table |
| BinCosting.CalculateBinCosts | src/slotting_engine.py:37-57 | the caller's table gains the cost columns in place; the returned table is the cost-sorted copy |
| BinCosting.CostTableOrdered | src/slotting_engine.py:55 | the returned table is ascending by cost and a permutation of the costed rows, each bin with its own costs |
| BinCosting.VerticalPenaltyMonotone | src/slotting_engine.py:38-43 | the step penalty never falls as the level rises |
| BinCosting.StepPenaltyVersusLinear | src/slotting_engine.py:38-43 | against the objective's linear penalty: equal on levels 1..3, larger on 4 and 5 |
| BinCosting.TotalCostMonotoneInDistance | src/slotting_engine.py:50-51 | at one level, a bin farther from the docks never costs less |
| GreedyAllocation.FirstFit | src/slotting_engine.py:72-90 | a bin found is a candidate not yet taken whose capacity holds the pallet |
| GreedyAllocation.FirstFitIsFirst | src/slotting_engine.py:72-90 | it is the first such candidate; none is found exactly when no remaining candidate fits |
| GreedyAllocation.FirstFitUnique | src/slotting_engine.py:72-90 | an eligible candidate with none eligible before it is the one found |
| GreedyAllocation.ScanForBin | src/slotting_engine.py:72-90 | the inner scan with its `continue`s and `break` finds that first eligible candidate |
| GreedyAllocation.RunGreedyAllocation | src/slotting_engine.py:59-96 | the scan-and-pop loop computes the greedy placement |
| GreedyAllocation.GreedyPlacements | src/slotting_engine.py:72-90 | every placement puts a scored SKU, with its score, into a bin that was free and can carry its pallet |
| GreedyAllocation.GreedyDistinctBins | src/slotting_engine.py:80-88 | no bin is placed twice |
| GreedyAllocation.GreedySkus | src/slotting_engine.py:68-90 | every placed SKU is a scored one |
| GreedyAllocation.GreedyDistinctSkus | src/slotting_engine.py:68-90 | with unique score ids, no SKU is placed twice |
| GreedyAllocation.GreedyLength | src/slotting_engine.py:59-96 | no more placements than SKUs or bins |
| GreedyAllocation.GreedyFillsWhenAllFit | src/slotting_engine.py:72-93 | a SKU is skipped only when the bins run out if every bin fits every pallet |
| SlottingStrategy.RunSlottingStrategy | src/slotting_engine.py:98-114 | the caller's layout gains its cost columns; the result is the greedy placement of the scores into the cost table at the default weights and speed |
| SlottingStrategy.StrategyPlacements | src/slotting_engine.py:98-114 | each placement pairs an ordered SKU and its id's summed score with a layout bin and its cost, within capacity |
| SlottingStrategy.StrategyDistinctBins | src/slotting_engine.py:98-114 | no bin twice, and no more placements than layout bins |
| SlottingStrategy.StrategyDistinctSkus | src/slotting_engine.py:98-114 | with unique SKU ids in the SKU table, no SKU twice |
| SlottingStrategy.PlaceIsSound | src/slotting_engine.py:80-86 | a fitting pair of score row and cost row places an ordered SKU with its id's summed score into a layout bin with its cost |
| HillClimbing.AllocSkuIds | src/slotting_engine.py:128 | the SKU column of a placement table |
| HillClimbing.AllocMapKeys | src/slotting_engine.py:128 | `set_index('sku_id')['bin_id'].to_dict()`: keys are exactly the table's SKUs |
| HillClimbing.AllocMapLastWins | src/slotting_engine.py:128 | each key maps to the bin of that SKU's last row |
| HillClimbing.AllocSkusAreKeys | src/slotting_engine.py:137 | `list(current_map.keys())` is duplicate-free and lists exactly the keys |
| HillClimbing.SwapEntries | src/slotting_engine.py:143-148 | the swap exchanges two entries and keeps the keys and every other entry |
| HillClimbing.SwapTwiceRestores | src/slotting_engine.py:158-161 | writing the old bins back restores the dictionary exactly |
| HillClimbing.SwapKeepsBins | src/slotting_engine.py:143-148 | a swap keeps the set of used bins |
| HillClimbing.SwapKeepsInjective | src/slotting_engine.py:143-148 | a swap keeps bins unshared |
| HillClimbing.ExchangeAllDistinct | src/slotting_engine.py:143-148 | renaming two SKUs in a duplicate-free SKU list keeps it duplicate-free |
| HillClimbing.ExchangeAllSameElements | src/slotting_engine.py:143-148 | renaming two SKUs both in or both out of a SKU list keeps the same SKUs |
| HillClimbing.SwapOfEqualTotalsKeepsCost | src/slotting_engine.py:143-151 | swapping two SKUs with equal totals in the sample leaves the objective unchanged |
| HillClimbing.ClimbStep | src/slotting_engine.py:141-163 | one iteration keeps the keys, appends the best cost to the history and never raises it |
| HillClimbing.ClimbAfter | src/slotting_engine.py:131-163 | the climb keeps every key of the start |
| HillClimbing.ClimbBestCost | src/slotting_engine.py:131-163 | the best cost is the objective of the best dictionary; no iteration returns the start unchanged |
| HillClimbing.ClimbHistory | src/slotting_engine.py:133-163 | the history has iterations + 1 entries, starts at the initial cost, ends at the best cost and never rises |
| HillClimbing.ClimbKeepsBins | src/slotting_engine.py:139-163 | the climb keeps the set of used bins |
| HillClimbing.ClimbKeepsInjective | src/slotting_engine.py:139-163 | the climb keeps bins unshared |
| HillClimbing.ClimbAcceptsOnlyImprovements | src/slotting_engine.py:153-161 | a swap is kept exactly when it strictly lowers the best cost |
| HillClimbing.SampleOrders | src/slotting_engine.py:125 | the sample's lines are exactly the batch's lines of the sampled orders |
| HillClimbing.JoinEffort | src/slotting_engine.py:170 | the left join's rows carry the SKU and its new bin |
| HillClimbing.MergedOneRowPerSku | src/slotting_engine.py:166-170 | with one input row per SKU, one output row per key in key order, with its best bin and its effort |
| HillClimbing.HillClimbFails | src/slotting_engine.py:116-141 | fails exactly when the sample exceeds the orders or two SKUs must be drawn from fewer |
| HillClimbing.HillClimbValue | src/slotting_engine.py:125-172 | a successful result is the climb over the sample from the input dictionary, merged with the input table |
| HillClimbing.HillClimbHistory | src/slotting_engine.py:131-163 | the history has iterations + 1 entries, starts at the sample's cost under the input placement and never rises |
| HillClimbing.HillClimbRows | src/slotting_engine.py:128-172 | one output row per input SKU, in dictionary order, with an effort of that SKU and a bin the input already used |
| HillClimbing.HillClimbDistinctBins | src/slotting_engine.py:128-172 | with no bin shared in the input, no two output rows share a bin |
| HillClimbing.ClimbIteration | src/slotting_engine.py:141-163 | one pass of the loop body is one climb step |
| HillClimbing.RunClimb | src/slotting_engine.py:139-163 | the loop computes the climb's final state |
| HillClimbing.OptimizeSlottingHillClimbing | src/slotting_engine.py:116-172 | the optimizer's result is the specified one |

## Left out

- **User interface and scenario generators.** The Streamlit interface, charts, CSV input and output, and the random SKU and order generators with their seeding are not part of this model.
- **Floating point.** Speeds, times, scores and costs are Dafny reals, so there is no rounding and no overflow.
- **Randomness.**
  - The order sample is given as a set of sampled order ids. The model does not tie its size to `sample_size`. The only use it makes of `sample_size` is the failure when it exceeds the number of order lines.
  - The SKU pairs are given as positions in the key list.
- **Sort stability.** `sort_values` is not stable. The model sorts stably, so rows with equal keys may come out in a different order.
- **Group-by order.** Group-by tables list keys in sorted order. The model lists them in first-appearance order. Sums and totals do not depend on this order.
- **Duplicate bin ids.** `to_dict('index')` raises on them. `OrderSimulation.RunSimulation` and `HillClimbing.OptimizeSlottingHillClimbing` require unique bin ids rather than modelling that exception.
- **Empty inputs.**
  - A placement table without columns makes `current_alloc.set_index('sku_id')` (src/slotting_engine.py:128) raise a missing-column error. The model returns an empty output instead.
  - A placement with columns but no rows, optimized with zero iterations, gets past that line but then raises a missing-column error at the merge (src/slotting_engine.py:170), since the table built from an empty list has no `sku_id` column. `HillClimbing.HillClimb` returns an empty successful result instead.
  - An empty greedy result yields an empty table in the model, not a frame without columns. In the source that frame makes `run_simulation` raise at `df_alloc['sku_id']` (src/simulation_engine.py:104) on the first line it visits; the model skips the line as unallocated.
- **Zero speed and zero pallet size.**
  - BinCosting.CostsOf requires a positive speed; at zero speed pandas would produce infinite travel times.
  - OrderSimulation requires a non-zero speed.
  - SkuScoring requires a positive pallet size on every SKU row whose id the batch orders, where pandas would divide by zero. Rows that are not ordered may have any size.
- **Missing docks.** Topology.WarehouseTopology.GetAllNodesData requires at least one dock; with none, every distance would be infinite. A built topology always has five. `CalculateDistanceToDock` does model the infinite case.
- **Unused simulation input.** `num_active_docks` takes no part in the computation and is not modelled.
- HillClimbing.ClimbAfter: states only that every key of the start stays a key. The keys never change (each swap keeps them, `HillClimbing.SwapEntries`), but the converse is not carried through the climb.
- HillClimbing.HillClimbHistory: does not state that the last history entry is the objective of the output table's placement; `HillClimbing.ClimbBestCost` states it for the best dictionary.
- SkuScoring.ActiveRowSource: the score is stated as a sum, over the id's SKU rows and the id's lines, of trips times wave weight. Its split into a morning sum and an afternoon sum is not proved.
