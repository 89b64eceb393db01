/** Replay of the first orders of a batch (`run_simulation`): every line of
    an order whose SKU is placed costs four trips between the staging hub and
    the SKU's bin, four lift operations and a picking time at the hub; the
    per-order totals become one KPI row, with a "random layout" baseline
    that is the optimized figure times 1.2. */
module OrderSimulation {

  import opened Seqs
  import opened Records
  import opened Distance
  import opened Objective

  /** Pallets the staging area holds before it is cleared. */
  const StagingCapacity: int := 10

  /** Bin ids are pairwise distinct. */
  ghost predicate UniqueRowIds(rows: seq<Bin>) {
    forall i, j :: 0 <= i < j < |rows| ==> rows[i].binId != rows[j].binId
  }

  /** The layout table indexed by bin id; a later row with the same id would
      overwrite an earlier one. */
  function LayoutDict(rows: seq<Bin>): map<string, Bin> {
    if rows == [] then map[] else LayoutDict(rows[..|rows| - 1])[rows[|rows| - 1].binId := rows[|rows| - 1]]
  }

  /** Every bin id is a key, every value is a row filed under its own id. */
  lemma {:induction false} LayoutDictKeys(rows: seq<Bin>)
    ensures forall k :: 0 <= k < |rows| ==> rows[k].binId in LayoutDict(rows)
    ensures forall id :: id in LayoutDict(rows) ==> LayoutDict(rows)[id] in rows && LayoutDict(rows)[id].binId == id
  {
    if rows != [] {
      var init := rows[..|rows| - 1];
      assert forall k :: 0 <= k < |init| ==> init[k] == rows[k];
      LayoutDictKeys(init);
    }
  }

  /** With unique bin ids, each row is the value of its own id. */
  lemma {:induction false} LayoutDictUnique(rows: seq<Bin>)
    requires UniqueRowIds(rows)
    ensures forall k :: 0 <= k < |rows| ==>
      rows[k].binId in LayoutDict(rows) && LayoutDict(rows)[rows[k].binId] == rows[k]
  {
    LayoutDictKeys(rows);
    if rows != [] {
      var init := rows[..|rows| - 1];
      assert forall k :: 0 <= k < |init| ==> init[k] == rows[k];
      assert UniqueRowIds(init);
      LayoutDictUnique(init);
      LayoutDictKeys(init);
    }
  }

  /** The bin of the first allocation row of `sku`, if any. */
  function AllocatedBin(alloc: seq<Allocation>, sku: string): (r: Option<string>)
    ensures r.None? <==> forall k :: 0 <= k < |alloc| ==> alloc[k].skuId != sku
    ensures r.Some? ==> exists k :: 0 <= k < |alloc| && alloc[k].skuId == sku && alloc[k].binId == r.value &&
                                   forall j :: 0 <= j < k ==> alloc[j].skuId != sku
  {
    if alloc == [] then None
    else if alloc[0].skuId == sku then Some(alloc[0].binId)
    else
      var r := AllocatedBin(alloc[1..], sku);
      assert forall k :: 1 <= k < |alloc| ==> alloc[k] == alloc[1..][k - 1];
      if r.Some? then
        var k :| 0 <= k < |alloc[1..]| && alloc[1..][k].skuId == sku && alloc[1..][k].binId == r.value &&
                 forall j :: 0 <= j < k ==> alloc[1..][j].skuId != sku;
        assert alloc[k + 1] == alloc[1..][k];
        r
      else r
  }

  /** The layout row of the bin holding the line's SKU, when there is one. */
  function LineBin(l: OrderLine, alloc: seq<Allocation>, layout: map<string, Bin>): Option<Bin> {
    match AllocatedBin(alloc, l.skuId)
    case None => None
    case Some(binId) => if binId in layout then Some(layout[binId]) else None
  }

  /** Forklift speed towards a bin: 80% of the nominal speed in Bronze bins. */
  function TravelSpeed(b: Bin, speed: real): real {
    if b.tier == Bronze then speed * 0.8 else speed
  }

  /** Metres travelled for one line: four hub-bin legs, or nothing when the
      SKU cannot be located. */
  function LineDistance(l: OrderLine, alloc: seq<Allocation>, layout: map<string, Bin>): nat {
    match LineBin(l, alloc, layout)
    case None => 0
    case Some(b) => ManhattanDist(Hub, b.Location()) * 4
  }

  /** Seconds spent on one line: travel at the bin's speed, four lifts of 15 s
      plus 5 s per level above the floor, and 1.5 s per unit plus 10 s of
      picking; nothing when the SKU cannot be located. */
  function LineTime(l: OrderLine, alloc: seq<Allocation>, layout: map<string, Bin>, speed: real): real
    requires speed != 0.0
  {
    match LineBin(l, alloc, layout)
    case None => 0.0
    case Some(b) =>
      (ManhattanDist(Hub, b.Location()) * 4) as real / TravelSpeed(b, speed)
      + ((15 + (b.z - 1) * 5) * 4) as real
      + (l.quantity as real * 1.5 + 10.0)
  }

  function OrderDistance(lines: seq<OrderLine>, alloc: seq<Allocation>, layout: map<string, Bin>): int {
    if lines == [] then 0
    else OrderDistance(lines[..|lines| - 1], alloc, layout) + LineDistance(lines[|lines| - 1], alloc, layout)
  }

  function OrderTime(lines: seq<OrderLine>, alloc: seq<Allocation>, layout: map<string, Bin>, speed: real): real
    requires speed != 0.0
  {
    if lines == [] then 0.0
    else OrderTime(lines[..|lines| - 1], alloc, layout, speed) + LineTime(lines[|lines| - 1], alloc, layout, speed)
  }

  /** The lines of order `id`, in batch order. */
  function LinesOf(orders: seq<OrderLine>, id: string): (r: seq<OrderLine>)
    ensures |r| > 0 <==> id in OrderIds(orders)
  {
    if orders == [] then []
    else
      var init, last := orders[..|orders| - 1], orders[|orders| - 1];
      assert orders == init + [last];
      assert OrderIds(orders) == OrderIds(init) + [last.orderId];
      LinesOf(init, id) + (if last.orderId == id then [last] else [])
  }

  /** The lines of order `id` are exactly the batch's lines with that id. */
  lemma {:induction false} LinesOfMembers(orders: seq<OrderLine>, id: string)
    ensures forall l :: l in LinesOf(orders, id) <==> l in orders && l.orderId == id
  {
    if orders != [] {
      var init, last := orders[..|orders| - 1], orders[|orders| - 1];
      assert orders == init + [last];
      LinesOfMembers(init, id);
    }
  }

  /** The first line of an order is the first line of the batch with its id. */
  lemma {:induction false} FirstLineOfOrder(orders: seq<OrderLine>, id: string)
    requires id in OrderIds(orders)
    ensures LinesOf(orders, id)[0] == orders[FirstIndex(OrderIds(orders), id)]
  {
    var init, last := orders[..|orders| - 1], orders[|orders| - 1];
    var ids := OrderIds(orders);
    assert ids == OrderIds(init) + [last.orderId];
    if id in OrderIds(init) {
      FirstLineOfOrder(init, id);
      FirstIndexOfPrefix(OrderIds(init), ids, id);
      FirstIndexBounds(OrderIds(init), id);
    } else {
      assert ids[..|ids| - 1] == OrderIds(init);
      FirstIndexIsLast(ids, id);
    }
  }

  /** The ids of the simulated orders: the first `n` distinct order ids in
      order of first appearance. */
  function SimulatedOrderIds(orders: seq<OrderLine>, n: nat): (ids: seq<string>)
    ensures Distinct(ids)
    ensures |ids| == if n < |Dedup(OrderIds(orders))| then n else |Dedup(OrderIds(orders))|
    ensures forall id :: id in ids ==> id in OrderIds(orders)
  {
    var d := Dedup(OrderIds(orders));
    var r := Take(d, n);
    assert forall i, j :: 0 <= i < j < |r| ==> r[i] == d[i] && r[j] == d[j];
    r
  }

  /** The KPI row of order `id`. */
  function OrderKpi(orders: seq<OrderLine>, id: string, alloc: seq<Allocation>, layout: map<string, Bin>,
                    speed: real): Kpi
    requires speed != 0.0 && id in OrderIds(orders)
  {
    var lines := LinesOf(orders, id);
    var dist := OrderDistance(lines, alloc, layout);
    var time := OrderTime(lines, alloc, layout, speed);
    Kpi(id, "STAGING", dist as real * 1.2, dist, time * 1.2, time, lines[0].wave)
  }

  /** `OrderKpi` as a function of the order id. */
  function OrderKpiOf(orders: seq<OrderLine>, alloc: seq<Allocation>, layout: map<string, Bin>,
                      speed: real): string --> Kpi
    requires speed != 0.0
  {
    id requires id in OrderIds(orders) => OrderKpi(orders, id, alloc, layout, speed)
  }

  /** The KPI rows of orders `ids`, in that order. */
  function KpisFor(ids: seq<string>, orders: seq<OrderLine>, alloc: seq<Allocation>, layout: map<string, Bin>,
                   speed: real): seq<Kpi>
    requires speed != 0.0
    requires forall k :: 0 <= k < |ids| ==> ids[k] in OrderIds(orders)
  {
    MapSeq(ids, OrderKpiOf(orders, alloc, layout, speed))
  }

  /** The table `run_simulation` returns. */
  function Simulation(orders: seq<OrderLine>, alloc: seq<Allocation>, layout: map<string, Bin>, n: nat,
                      speed: real): seq<Kpi>
    requires speed != 0.0
  {
    KpisFor(SimulatedOrderIds(orders, n), orders, alloc, layout, speed)
  }

  /** `run_simulation`. The number of active docks takes no part in the
      computation. */
  method RunSimulation(orders: seq<OrderLine>, alloc: seq<Allocation>, layoutRows: seq<Bin>,
                       numOrdersToSim: nat, forkliftSpeed: real, numActiveDocks: int)
    returns (results: seq<Kpi>)
    requires forkliftSpeed != 0.0
    requires UniqueRowIds(layoutRows)
    ensures results == Simulation(orders, alloc, LayoutDict(layoutRows), numOrdersToSim, forkliftSpeed)
  {
    var layout := LayoutDict(layoutRows);
    var simOrders := SimulatedOrderIds(orders, numOrdersToSim);
    results := SimulateOrders(orders, simOrders, alloc, layout, forkliftSpeed);
  }

  /** The order loop of `run_simulation`: one KPI row per order id. */
  method SimulateOrders(orders: seq<OrderLine>, ids: seq<string>, alloc: seq<Allocation>, layout: map<string, Bin>,
                        forkliftSpeed: real)
    returns (results: seq<Kpi>)
    requires forkliftSpeed != 0.0
    requires forall i :: 0 <= i < |ids| ==> ids[i] in OrderIds(orders)
    ensures results == KpisFor(ids, orders, alloc, layout, forkliftSpeed)
  {
    ghost var f := OrderKpiOf(orders, alloc, layout, forkliftSpeed);
    results := [];
    for k := 0 to |ids|
      invariant results == MapSeq(ids[..k], f)
    {
      var kpi := SimulateOrder(orders, ids[k], alloc, layout, forkliftSpeed);
      MapSeqPrefixStep(ids, k, f);
      results := results + [kpi];
    }
    assert ids[..|ids|] == ids;
  }

  /** The body of the order loop of `run_simulation`: the line loop of one
      order, with its staging-area counter, and the order's KPI row. */
  method SimulateOrder(orders: seq<OrderLine>, orderId: string, alloc: seq<Allocation>, layout: map<string, Bin>,
                       forkliftSpeed: real)
    returns (kpi: Kpi)
    requires forkliftSpeed != 0.0 && orderId in OrderIds(orders)
    ensures kpi == OrderKpi(orders, orderId, alloc, layout, forkliftSpeed)
  {
    var orderItems := LinesOf(orders, orderId);
    var totalDist := 0;
    var totalTime := 0.0;
    var stagingLoad := 0;
    for j := 0 to |orderItems|
      invariant totalDist == OrderDistance(orderItems[..j], alloc, layout)
      invariant totalTime == OrderTime(orderItems[..j], alloc, layout, forkliftSpeed)
      invariant 0 <= stagingLoad < StagingCapacity
    {
      OrderTotalsPrefixStep(orderItems, j, alloc, layout, forkliftSpeed);
      var placed, distSkuTotal, lineTime := VisitLine(orderItems[j], alloc, layout, forkliftSpeed);
      if !placed {
        continue;
      }
      totalDist := totalDist + distSkuTotal;
      totalTime := totalTime + lineTime;
      stagingLoad := stagingLoad + 1;
      if stagingLoad >= StagingCapacity {
        stagingLoad := 0;
      }
    }
    assert orderItems[..|orderItems|] == orderItems;
    kpi := Kpi(orderId, "STAGING", totalDist as real * 1.2, totalDist, totalTime * 1.2, totalTime,
               orderItems[0].wave);
  }

  /** One more line adds its distance and its time. */
  lemma OrderTotalsPrefixStep(lines: seq<OrderLine>, j: nat, alloc: seq<Allocation>, layout: map<string, Bin>,
                              speed: real)
    requires speed != 0.0 && j < |lines|
    ensures OrderDistance(lines[..j + 1], alloc, layout) ==
      OrderDistance(lines[..j], alloc, layout) + LineDistance(lines[j], alloc, layout)
    ensures OrderTime(lines[..j + 1], alloc, layout, speed) ==
      OrderTime(lines[..j], alloc, layout, speed) + LineTime(lines[j], alloc, layout, speed)
  {
    assert lines[..j + 1][..j] == lines[..j];
  }

  /** One pass of the line loop up to the staging counter: locate the SKU
      (skipping the line when it has no bin or its bin is not in the layout),
      then the four legs, the lifts and the picking. */
  method VisitLine(row: OrderLine, alloc: seq<Allocation>, layout: map<string, Bin>, forkliftSpeed: real)
    returns (placed: bool, distSkuTotal: int, lineTime: real)
    requires forkliftSpeed != 0.0
    ensures placed == LineBin(row, alloc, layout).Some?
    ensures placed ==> distSkuTotal == LineDistance(row, alloc, layout)
    ensures placed ==> lineTime == LineTime(row, alloc, layout, forkliftSpeed)
  {
    var binOpt := AllocatedBin(alloc, row.skuId);
    if binOpt.None? {
      return false, 0, 0.0;
    }
    var binId := binOpt.value;
    if binId !in layout {
      return false, 0, 0.0;
    }
    var target := layout[binId];
    var distLeg := ManhattanDist(Hub, target.Location());
    distSkuTotal := distLeg * 4;
    var speed := forkliftSpeed;
    if target.tier == Bronze {
      speed := speed * 0.8;
    }
    var timeTravel := distSkuTotal as real / speed;
    var liftPenalty := (target.z - 1) * 5;
    var timeLift := (15 + liftPenalty) * 4;
    var pickingTime := row.quantity as real * 1.5 + 10.0;
    lineTime := timeTravel + timeLift as real + pickingTime;
    placed := true;
  }

  // ----- properties of the simulated table -----

  /** The simulated orders come in order of first appearance in the batch. */
  lemma SimulatedOrderIdsInOrder(orders: seq<OrderLine>, n: nat)
    ensures var ids := SimulatedOrderIds(orders, n);
      forall i, j :: 0 <= i < j < |ids| ==>
        FirstIndex(OrderIds(orders), ids[i]) < FirstIndex(OrderIds(orders), ids[j])
  {
    var ids, d := SimulatedOrderIds(orders, n), Dedup(OrderIds(orders));
    assert forall k :: 0 <= k < |ids| ==> ids[k] == d[k];
    forall i, j | 0 <= i < j < |ids|
      ensures FirstIndex(OrderIds(orders), ids[i]) < FirstIndex(OrderIds(orders), ids[j])
    {
      DedupKeepsFirstAppearanceOrder(OrderIds(orders), i, j);
    }
  }

  /** A KPI row of an order of the batch: routed through the staging area,
      with the baseline figures 1.2 times the optimized ones and the wave of
      the order's first line. */
  ghost predicate KpiRowShape(kpi: Kpi, orders: seq<OrderLine>) {
    && kpi.orderId in OrderIds(orders)
    && kpi.assignedDock == "STAGING"
    && kpi.distRnd == kpi.distOpt as real * 1.2
    && kpi.timeRnd == kpi.timeOpt * 1.2
    && kpi.wave == orders[FirstIndex(OrderIds(orders), kpi.orderId)].wave
  }

  /** One row per simulated order, in the order of the simulated ids (which
      are distinct, the first `n` in order of first appearance), each row of
      the shape above. */
  lemma SimulationRows(orders: seq<OrderLine>, alloc: seq<Allocation>, layout: map<string, Bin>, n: nat,
                       speed: real)
    requires speed != 0.0
    ensures var ids, kpis := SimulatedOrderIds(orders, n), Simulation(orders, alloc, layout, n, speed);
      && |kpis| == |ids|
      && forall k :: 0 <= k < |kpis| ==> kpis[k].orderId == ids[k] && KpiRowShape(kpis[k], orders)
  {
    var ids, kpis := SimulatedOrderIds(orders, n), Simulation(orders, alloc, layout, n, speed);
    forall k | 0 <= k < |kpis| ensures kpis[k].orderId == ids[k] && KpiRowShape(kpis[k], orders) {
      FirstLineOfOrder(orders, ids[k]);
    }
  }

  /** Number of lines whose SKU can be located. */
  function PlacedCount(lines: seq<OrderLine>, alloc: seq<Allocation>, layout: map<string, Bin>): nat {
    if lines == [] then 0
    else PlacedCount(lines[..|lines| - 1], alloc, layout) + (if LineBin(lines[|lines| - 1], alloc, layout).Some? then 1 else 0)
  }

  /** With a positive speed and every bin at level 1 or higher, each line
      whose SKU is located takes at least 70 s (four 15 s lifts and the 10 s
      picking set-up) and adds a non-negative distance, and an order none of
      whose SKUs can be located takes no time and no distance. */
  lemma {:induction false} OrderTotalsBounds(lines: seq<OrderLine>, alloc: seq<Allocation>, layout: map<string, Bin>,
                                             speed: real)
    requires speed > 0.0
    requires forall b :: b in layout.Values ==> b.z >= 1
    ensures OrderTime(lines, alloc, layout, speed) >= 70.0 * PlacedCount(lines, alloc, layout) as real
    ensures OrderDistance(lines, alloc, layout) >= 0
    ensures PlacedCount(lines, alloc, layout) == 0 ==>
      OrderTime(lines, alloc, layout, speed) == 0.0 && OrderDistance(lines, alloc, layout) == 0
  {
    if lines != [] {
      var init, l := lines[..|lines| - 1], lines[|lines| - 1];
      OrderTotalsBounds(init, alloc, layout, speed);
      match LineBin(l, alloc, layout)
      case None =>
      case Some(b) =>
        var binId := AllocatedBin(alloc, l.skuId).value;
        assert layout[binId] == b;
        assert b in layout.Values;
        var v := TravelSpeed(b, speed);
        assert v > 0.0;
        var travel := (ManhattanDist(Hub, b.Location()) * 4) as real / v;
        assert travel >= 0.0;
        assert LineTime(l, alloc, layout, speed) >= 70.0;
    }
  }

  /** An order takes time exactly when one of its SKUs can be located. */
  lemma OrderTimeZeroIff(lines: seq<OrderLine>, alloc: seq<Allocation>, layout: map<string, Bin>, speed: real)
    requires speed > 0.0
    requires forall b :: b in layout.Values ==> b.z >= 1
    ensures OrderTime(lines, alloc, layout, speed) == 0.0 <==> PlacedCount(lines, alloc, layout) == 0
  {
    OrderTotalsBounds(lines, alloc, layout, speed);
  }

  /** Splitting an order's lines splits its distance and time. */
  lemma {:induction false} OrderTotalsAdditive(a: seq<OrderLine>, b: seq<OrderLine>, alloc: seq<Allocation>,
                                               layout: map<string, Bin>, speed: real)
    requires speed != 0.0
    ensures OrderDistance(a + b, alloc, layout) == OrderDistance(a, alloc, layout) + OrderDistance(b, alloc, layout)
    ensures OrderTime(a + b, alloc, layout, speed) == OrderTime(a, alloc, layout, speed) + OrderTime(b, alloc, layout, speed)
  {
    if b == [] {
      assert a + b == a;
    } else {
      var s := a + b;
      assert s[..|s| - 1] == a + b[..|b| - 1];
      OrderTotalsAdditive(a, b[..|b| - 1], alloc, layout, speed);
    }
  }
}
