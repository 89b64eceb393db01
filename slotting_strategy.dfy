/** The complete slotting strategy (`run_slotting_strategy`): score the SKUs
    with the default wave weights, cost the layout's bins at the default
    forklift speed, then place the SKUs greedily. */
module SlottingStrategy {

  import opened Records
  import opened SkuScoring
  import opened BinCosting
  import opened GreedyAllocation

  /** The default weight of a morning-wave line. */
  const MorningWeight: real := 1.5
  /** The default weight of an afternoon-wave line. */
  const AfternoonWeight: real := 1.0
  /** The default forklift speed, in metres per second. */
  const ForkliftSpeed: real := 1.5

  /** The placement the strategy produces for a layout table. */
  function Strategy(orders: seq<OrderLine>, skus: seq<Sku>, rows: seq<LayoutRow>): seq<Allocation>
    requires PositivePallets(orders, skus)
  {
    Greedy(SkuScores(orders, skus, MorningWeight, AfternoonWeight), CostTable(rows, ForkliftSpeed))
  }

  /** `run_slotting_strategy`: the layout table gets its cost columns, as the
      bin costing writes them into the caller's table, and the greedy
      placement of the scored SKUs into the cost-ordered bins is returned. */
  method RunSlottingStrategy(skus: seq<Sku>, orders: seq<OrderLine>, frame: LayoutFrame)
    returns (allocation: seq<Allocation>)
    requires PositivePallets(orders, skus)
    modifies frame
    ensures frame.rows == WithCosts(old(frame.rows), ForkliftSpeed)
    ensures allocation == Strategy(orders, skus, old(frame.rows))
  {
    var scores := SkuScores(orders, skus, MorningWeight, AfternoonWeight);
    var sortedBins := CalculateBinCosts(frame, ForkliftSpeed);
    allocation := RunGreedyAllocation(scores, sortedBins);
  }

  /** `a` places an ordered SKU of the SKU table, with its id's summed score, into
      a bin of the layout, with that bin's cost, and the bin's capacity holds
      the SKU's pallet. */
  ghost predicate SoundPlacement(a: Allocation, orders: seq<OrderLine>, skus: seq<Sku>, rows: seq<LayoutRow>) {
    PositivePallets(orders, skus) &&
    exists m, j :: 0 <= m < |skus| && 0 <= j < |rows| &&
      a.skuId == skus[m].skuId && skus[m].skuId in SkuIds(orders) &&
      a.skuEffort == IdScore(orders, skus, skus[m].skuId, MorningWeight, AfternoonWeight) &&
      a.binId == rows[j].bin.binId &&
      a.binCost == Some(CostsOf(rows[j].bin, ForkliftSpeed).totalCost) &&
      WeightCapacity(rows[j].bin.z) as real >= skus[m].palletWeight
  }

  /** Every placement of the strategy is sound. */
  lemma StrategyPlacements(orders: seq<OrderLine>, skus: seq<Sku>, rows: seq<LayoutRow>)
    requires PositivePallets(orders, skus)
    ensures forall k :: 0 <= k < |Strategy(orders, skus, rows)| ==>
      SoundPlacement(Strategy(orders, skus, rows)[k], orders, skus, rows)
  {
    var scores := SkuScores(orders, skus, MorningWeight, AfternoonWeight);
    var table := CostTable(rows, ForkliftSpeed);
    var r := Strategy(orders, skus, rows);
    GreedyPlacements(scores, table, {});
    forall k | 0 <= k < |r| ensures SoundPlacement(r[k], orders, skus, rows) {
      assert PlacedFrom(r[k], scores, table, {});
      var m, j :| 0 <= m < |scores| && 0 <= j < |table| && r[k] == Place(scores[m], table[j]) &&
                  Eligible(table[j], {}, scores[m].palletWeight);
      PlaceIsSound(orders, skus, rows, scores[m], table[j]);
    }
  }

  /** No bin receives two SKUs, and no more SKUs are placed than the layout
      has bins. */
  lemma StrategyDistinctBins(orders: seq<OrderLine>, skus: seq<Sku>, rows: seq<LayoutRow>)
    requires PositivePallets(orders, skus)
    ensures forall k1, k2 :: 0 <= k1 < k2 < |Strategy(orders, skus, rows)| ==>
      Strategy(orders, skus, rows)[k1].binId != Strategy(orders, skus, rows)[k2].binId
    ensures |Strategy(orders, skus, rows)| <= |rows|
  {
    var scores := SkuScores(orders, skus, MorningWeight, AfternoonWeight);
    var table := CostTable(rows, ForkliftSpeed);
    GreedyDistinctBins(scores, table, {});
    GreedyLength(scores, table, {});
  }

  /** With unique SKU ids in the SKU table, no SKU is placed twice. */
  lemma StrategyDistinctSkus(orders: seq<OrderLine>, skus: seq<Sku>, rows: seq<LayoutRow>)
    requires PositivePallets(orders, skus) && UniqueSkuIds(skus)
    ensures forall k1, k2 :: 0 <= k1 < k2 < |Strategy(orders, skus, rows)| ==>
      Strategy(orders, skus, rows)[k1].skuId != Strategy(orders, skus, rows)[k2].skuId
  {
    var scores := SkuScores(orders, skus, MorningWeight, AfternoonWeight);
    SkuScoresUnique(orders, skus, MorningWeight, AfternoonWeight);
    GreedyDistinctSkus(scores, CostTable(rows, ForkliftSpeed), {});
  }

  /** Placing a row of the score table into a row of the cost table whose
      capacity holds the SKU's pallet is a sound placement. */
  lemma PlaceIsSound(orders: seq<OrderLine>, skus: seq<Sku>, rows: seq<LayoutRow>, s: ScoreRow, c: CostedBin)
    requires PositivePallets(orders, skus)
    requires s in SkuScores(orders, skus, MorningWeight, AfternoonWeight)
    requires c in CostTable(rows, ForkliftSpeed)
    requires Fits(c, s.palletWeight)
    ensures SoundPlacement(Place(s, c), orders, skus, rows)
  {
    var m := SkuScoreSource(orders, skus, MorningWeight, AfternoonWeight, s);
    var j := CostRowSource(rows, c);
    assert c.costs == CostsOf(rows[j].bin, ForkliftSpeed);
  }

  /** The layout row a row of the cost table comes from. */
  lemma CostRowSource(rows: seq<LayoutRow>, c: CostedBin) returns (j: nat)
    requires c in CostTable(rows, ForkliftSpeed)
    ensures j < |rows| && rows[j].bin == c.bin && c.costs == CostsOf(c.bin, ForkliftSpeed)
  {
    CostTableOrdered(rows, ForkliftSpeed);
    j :| 0 <= j < |rows| && rows[j].bin == c.bin;
  }
}
