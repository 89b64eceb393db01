/** Bin costs (`calculate_bin_costs`): every layout row gets a step vertical
    penalty by level, a travel time (distance to the dock over the forklift
    speed), their sum as its cost, and a weight capacity by level; these
    columns are written into the caller's layout table, and a copy of the
    table ordered from the cheapest to the dearest bin is returned. */
module BinCosting {

  import opened Records
  import opened Sorting

  /** Seconds added for lifting to level `z`: a step scale, not the linear
      one of the layout objective. */
  function VerticalPenalty(z: int): (p: int)
    ensures 0 <= p <= 999
    ensures p == 999 <==> !(1 <= z <= 4)
  {
    if z == 1 then 0
    else if z == 2 then 10
    else if z == 3 then 20
    else if z == 4 then 35
    else 999
  }

  /** Kilograms a bin at level `z` may carry. */
  function WeightCapacity(z: int): (w: int)
    ensures w == 2000 || w == 1000
    ensures w == 2000 <==> z == 1
  {
    if z == 1 then 2000 else 1000
  }

  /** The columns added to a layout row. */
  datatype BinCosts = BinCosts(verticalPenalty: int, travelTime: real, totalCost: real, maxWeight: int)

  /** A layout row: the bin and, once costed, its cost columns. */
  datatype LayoutRow = LayoutRow(bin: Bin, costs: Option<BinCosts>)

  /** A row of the sorted cost table. */
  datatype CostedBin = CostedBin(bin: Bin, costs: BinCosts)

  /** The cost columns of one bin at forklift speed `speed`. */
  function CostsOf(b: Bin, speed: real): (c: BinCosts)
    requires speed > 0.0
    ensures c.totalCost == c.travelTime + c.verticalPenalty as real
    ensures c.travelTime * speed == b.distanceToDock as real
    ensures c.verticalPenalty == VerticalPenalty(b.z) && c.maxWeight == WeightCapacity(b.z)
  {
    var travel := b.distanceToDock as real / speed;
    BinCosts(VerticalPenalty(b.z), travel, travel + VerticalPenalty(b.z) as real, WeightCapacity(b.z))
  }

  /** The layout table with its cost columns filled in, row by row. */
  function WithCosts(rows: seq<LayoutRow>, speed: real): (r: seq<LayoutRow>)
    requires speed > 0.0
    ensures |r| == |rows|
    ensures forall k :: 0 <= k < |r| ==> r[k].bin == rows[k].bin && r[k].costs == Some(CostsOf(rows[k].bin, speed))
  {
    seq(|rows|, k requires 0 <= k < |rows| => LayoutRow(rows[k].bin, Some(CostsOf(rows[k].bin, speed))))
  }

  /** The costed rows in layout order. */
  function Costed(rows: seq<LayoutRow>, speed: real): (r: seq<CostedBin>)
    requires speed > 0.0
    ensures |r| == |rows|
    ensures forall k :: 0 <= k < |r| ==> r[k] == CostedBin(rows[k].bin, CostsOf(rows[k].bin, speed))
  {
    seq(|rows|, k requires 0 <= k < |rows| => CostedBin(rows[k].bin, CostsOf(rows[k].bin, speed)))
  }

  /** The returned table: the costed rows from the cheapest to the dearest. */
  function CostTable(rows: seq<LayoutRow>, speed: real): seq<CostedBin>
    requires speed > 0.0
  {
    SortBy(Costed(rows, speed), (c: CostedBin) => c.costs.totalCost)
  }

  /** The layout table passed by the caller, which the costing writes into. */
  class LayoutFrame {
    var rows: seq<LayoutRow>

    constructor (rows0: seq<LayoutRow>)
      ensures rows == rows0
    {
      rows := rows0;
    }
  }

  /** `calculate_bin_costs`: writes the cost columns into `frame` and returns
      the costed rows ordered by cost. */
  method CalculateBinCosts(frame: LayoutFrame, speed: real) returns (sorted: seq<CostedBin>)
    requires speed > 0.0
    modifies frame
    ensures frame.rows == WithCosts(old(frame.rows), speed)
    ensures sorted == CostTable(old(frame.rows), speed)
  {
    var original := frame.rows;
    frame.rows := WithCosts(frame.rows, speed);
    sorted := SortBy(Costed(original, speed), (c: CostedBin) => c.costs.totalCost);
  }

  /** The returned table is ordered by non-decreasing cost, holds exactly the
      costed rows of the layout (as a multiset) and pairs every bin with its
      own cost columns. */
  lemma CostTableOrdered(rows: seq<LayoutRow>, speed: real)
    requires speed > 0.0
    ensures var t := CostTable(rows, speed);
      && |t| == |rows|
      && (forall i, j :: 0 <= i < j < |t| ==> t[i].costs.totalCost <= t[j].costs.totalCost)
      && multiset(t) == multiset(Costed(rows, speed))
      && (forall c :: c in t ==> c.costs == CostsOf(c.bin, speed) && exists k :: 0 <= k < |rows| && rows[k].bin == c.bin)
      && (forall k :: 0 <= k < |rows| ==> CostedBin(rows[k].bin, CostsOf(rows[k].bin, speed)) in t)
  {
    var costed := Costed(rows, speed);
    var key := (c: CostedBin) => c.costs.totalCost;
    var t := SortBy(costed, key);
    forall i, j | 0 <= i < j < |t| ensures t[i].costs.totalCost <= t[j].costs.totalCost {
      assert key(t[i]) <= key(t[j]);
    }
    forall c | c in t ensures c.costs == CostsOf(c.bin, speed) && exists k :: 0 <= k < |rows| && rows[k].bin == c.bin {
      assert c in multiset(t);
      assert c in costed;
      var k :| 0 <= k < |costed| && costed[k] == c;
      assert rows[k].bin == c.bin;
    }
    forall k | 0 <= k < |rows| ensures CostedBin(rows[k].bin, CostsOf(rows[k].bin, speed)) in t {
      assert costed[k] in multiset(costed);
    }
  }

  /** The step penalty never falls as the level rises within the levels 1 to 5
      of the layout. */
  lemma VerticalPenaltyMonotone(z1: int, z2: int)
    requires 1 <= z1 <= z2
    ensures VerticalPenalty(z1) <= VerticalPenalty(z2)
  {
  }

  /** The step penalty against the linear `10 * (z - 1)` the layout objective
      charges: equal on levels 1 to 3, strictly larger on levels 4 and 5. */
  lemma StepPenaltyVersusLinear(z: int)
    requires 1 <= z <= 5
    ensures VerticalPenalty(z) >= 10 * (z - 1)
    ensures VerticalPenalty(z) == 10 * (z - 1) <==> z <= 3
  {
  }

  /** At one level and a positive speed, a bin farther from the docks never
      costs less. */
  lemma TotalCostMonotoneInDistance(b1: Bin, b2: Bin, speed: real)
    requires speed > 0.0 && b1.z == b2.z && b1.distanceToDock <= b2.distanceToDock
    ensures CostsOf(b1, speed).totalCost <= CostsOf(b2, speed).totalCost
  {
    var t1, t2 := CostsOf(b1, speed).travelTime, CostsOf(b2, speed).travelTime;
    if t1 > t2 {
      TravelTimeOrder(t2, t1, speed);
    }
  }

  lemma TravelTimeOrder(t1: real, t2: real, speed: real)
    requires speed > 0.0 && t1 < t2
    ensures t1 * speed < t2 * speed
  {
    assert t2 * speed - t1 * speed == (t2 - t1) * speed;
  }
}
