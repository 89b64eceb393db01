/** SKU popularity scores (`calculate_sku_scores`): for every SKU id that is
    both ordered and in the SKU table, the number of pallet trips its order
    lines need, weighted by the shipping wave of each line, summed over the
    SKU rows of that id; every such SKU row gets a score row, and the table
    is ordered from the most to the least demanding SKU. */
module SkuScoring {

  import opened Seqs
  import opened Records
  import opened Sorting

  /** A row of the score table. */
  datatype ScoreRow = ScoreRow(skuId: string, totalEffort: real, palletWeight: real)

  /** Pallet trips for `q` units at `u` units per pallet: q / u rounded up,
      one pallet per `u` units started. */
  function Trips(q: nat, u: nat): nat
    requires u > 0
  {
    if q == 0 then 0 else if q <= u then 1 else 1 + Trips(q - u, u)
  }

  /** The trips are the fewest pallets that hold the quantity: they hold it,
      and one pallet fewer does not. */
  lemma {:induction false} TripsIsCeiling(q: nat, u: nat)
    requires u > 0
    ensures Trips(q, u) * u >= q
    ensures Trips(q, u) > 0 ==> (Trips(q, u) - 1) * u < q
  {
    if q > u {
      TripsIsCeiling(q - u, u);
      var t := Trips(q - u, u);
      assert (1 + t) * u == u + t * u;
      assert t * u == (t - 1) * u + u;
    }
  }

  /** The weight of a line's wave. */
  function WaveWeight(w: Wave, morning: real, afternoon: real): real {
    if w == Morning then morning else afternoon
  }

  /** The weighted effort of one line for SKU row `s`. */
  function LineEffort(l: OrderLine, s: Sku, morning: real, afternoon: real): real
    requires s.unitsPerPallet > 0
  {
    Trips(l.quantity, s.unitsPerPallet) as real * WaveWeight(l.wave, morning, afternoon)
  }

  /** The weighted effort of SKU `s` over a batch: the sum over its lines. */
  function SkuEffort(orders: seq<OrderLine>, s: Sku, morning: real, afternoon: real): real
    requires s.unitsPerPallet > 0
  {
    if orders == [] then 0.0
    else
      var l := orders[|orders| - 1];
      SkuEffort(orders[..|orders| - 1], s, morning, afternoon)
      + (if l.skuId == s.skuId then LineEffort(l, s, morning, afternoon) else 0.0)
  }

  /** Every SKU row that the batch orders has a positive pallet size: the
      trips are computed only for the rows the inner merge keeps. */
  ghost predicate PositivePallets(orders: seq<OrderLine>, skus: seq<Sku>) {
    forall k :: 0 <= k < |skus| && skus[k].skuId in SkuIds(orders) ==> skus[k].unitsPerPallet > 0
  }

  /** SKU ids are pairwise distinct. */
  ghost predicate UniqueSkuIds(skus: seq<Sku>) {
    forall i, j :: 0 <= i < j < |skus| ==> skus[i].skuId != skus[j].skuId
  }

  /** SKU ids of a score table are pairwise distinct. */
  ghost predicate DistinctScoreIds(scores: seq<ScoreRow>) {
    forall i, j :: 0 <= i < j < |scores| ==> scores[i].skuId != scores[j].skuId
  }

  /** The group-by sum of an ordered SKU id: the merge joins every line of
      the id with every SKU row of the id, so the score adds up the weighted
      trips of the first `n` SKU rows carrying that id. */
  function IdEffort(orders: seq<OrderLine>, skus: seq<Sku>, n: nat, id: string, morning: real, afternoon: real): real
    requires n <= |skus| && id in SkuIds(orders) && PositivePallets(orders, skus)
  {
    if n == 0 then 0.0
    else
      IdEffort(orders, skus, n - 1, id, morning, afternoon)
      + (if skus[n - 1].skuId == id then SkuEffort(orders, skus[n - 1], morning, afternoon) else 0.0)
  }

  /** The score of an ordered SKU id over the whole SKU table. */
  function IdScore(orders: seq<OrderLine>, skus: seq<Sku>, id: string, morning: real, afternoon: real): real
    requires id in SkuIds(orders) && PositivePallets(orders, skus)
  {
    IdEffort(orders, skus, |skus|, id, morning, afternoon)
  }

  /** A SKU row whose id no other row of the first `n` repeats contributes
      the whole sum: its own score is the id's score. */
  lemma {:induction false} IdEffortSingle(orders: seq<OrderLine>, skus: seq<Sku>, n: nat, k: nat,
                                          morning: real, afternoon: real)
    requires k < n <= |skus| && skus[k].skuId in SkuIds(orders) && PositivePallets(orders, skus)
    requires forall i :: 0 <= i < n && i != k ==> skus[i].skuId != skus[k].skuId
    ensures IdEffort(orders, skus, n, skus[k].skuId, morning, afternoon) == SkuEffort(orders, skus[k], morning, afternoon)
  {
    if n - 1 > k {
      IdEffortSingle(orders, skus, n - 1, k, morning, afternoon);
    } else {
      IdEffortAbsent(orders, skus, k, skus[k].skuId, morning, afternoon);
    }
  }

  /** An id none of the first `n` SKU rows carries sums to nothing. */
  lemma {:induction false} IdEffortAbsent(orders: seq<OrderLine>, skus: seq<Sku>, n: nat, id: string,
                                          morning: real, afternoon: real)
    requires n <= |skus| && id in SkuIds(orders) && PositivePallets(orders, skus)
    requires forall i :: 0 <= i < n ==> skus[i].skuId != id
    ensures IdEffort(orders, skus, n, id, morning, afternoon) == 0.0
  {
    if n > 0 {
      IdEffortAbsent(orders, skus, n - 1, id, morning, afternoon);
    }
  }

  /** With unique SKU ids, the score of a row's id is that row's own score. */
  lemma IdScoreUnique(orders: seq<OrderLine>, skus: seq<Sku>, k: nat, morning: real, afternoon: real)
    requires k < |skus| && skus[k].skuId in SkuIds(orders) && PositivePallets(orders, skus)
    requires UniqueSkuIds(skus)
    ensures IdScore(orders, skus, skus[k].skuId, morning, afternoon) == SkuEffort(orders, skus[k], morning, afternoon)
  {
    IdEffortSingle(orders, skus, |skus|, k, morning, afternoon);
  }

  /** The score rows of the first `n` SKU rows: one per row whose id the
      batch orders, carrying the id's score and the row's pallet weight. */
  function ScoredRows(orders: seq<OrderLine>, skus: seq<Sku>, n: nat, morning: real, afternoon: real): seq<ScoreRow>
    requires n <= |skus| && PositivePallets(orders, skus)
  {
    if n == 0 then []
    else
      var s := skus[n - 1];
      ScoredRows(orders, skus, n - 1, morning, afternoon)
      + (if s.skuId in SkuIds(orders) then [ScoreRow(s.skuId, IdScore(orders, skus, s.skuId, morning, afternoon), s.palletWeight)]
         else [])
  }

  /** The score table before sorting: the group-by sums merged back onto the
      SKU rows, one row for every SKU row that the batch orders, in table
      order. */
  function ActiveRows(orders: seq<OrderLine>, skus: seq<Sku>, morning: real, afternoon: real): seq<ScoreRow>
    requires PositivePallets(orders, skus)
  {
    ScoredRows(orders, skus, |skus|, morning, afternoon)
  }

  /** Every scored row of the first `n` comes from one of those SKU rows: it
      carries that row's id, which the batch orders, the id's score and the
      row's pallet weight. */
  lemma {:induction false} ScoredRowSource(orders: seq<OrderLine>, skus: seq<Sku>, n: nat, morning: real, afternoon: real,
                                           r: ScoreRow)
    returns (k: nat)
    requires n <= |skus| && PositivePallets(orders, skus)
    requires r in ScoredRows(orders, skus, n, morning, afternoon)
    ensures k < n && skus[k].skuId == r.skuId && r.skuId in SkuIds(orders)
    ensures r.totalEffort == IdScore(orders, skus, r.skuId, morning, afternoon)
    ensures r.palletWeight == skus[k].palletWeight
  {
    if r in ScoredRows(orders, skus, n - 1, morning, afternoon) {
      k := ScoredRowSource(orders, skus, n - 1, morning, afternoon, r);
    } else {
      k := n - 1;
    }
  }

  /** Every active row comes from an ordered SKU row of the table: it carries
      that row's id, the id's summed score and the row's pallet weight. */
  lemma ActiveRowSource(orders: seq<OrderLine>, skus: seq<Sku>, morning: real, afternoon: real, r: ScoreRow)
    returns (k: nat)
    requires PositivePallets(orders, skus)
    requires r in ActiveRows(orders, skus, morning, afternoon)
    ensures k < |skus| && skus[k].skuId == r.skuId && r.skuId in SkuIds(orders)
    ensures r.totalEffort == IdScore(orders, skus, r.skuId, morning, afternoon)
    ensures r.palletWeight == skus[k].palletWeight
  {
    k := ScoredRowSource(orders, skus, |skus|, morning, afternoon, r);
  }

  /** Every SKU row among the first `n` whose id the batch orders has its
      scored row. */
  lemma {:induction false} ScoredRowsComplete(orders: seq<OrderLine>, skus: seq<Sku>, n: nat, morning: real, afternoon: real,
                                              k: nat)
    requires n <= |skus| && PositivePallets(orders, skus)
    requires k < n && skus[k].skuId in SkuIds(orders)
    ensures ScoreRow(skus[k].skuId, IdScore(orders, skus, skus[k].skuId, morning, afternoon), skus[k].palletWeight)
            in ScoredRows(orders, skus, n, morning, afternoon)
  {
    var front := ScoredRows(orders, skus, n - 1, morning, afternoon);
    var row := ScoreRow(skus[k].skuId, IdScore(orders, skus, skus[k].skuId, morning, afternoon), skus[k].palletWeight);
    var tail := if skus[n - 1].skuId in SkuIds(orders)
      then [ScoreRow(skus[n - 1].skuId, IdScore(orders, skus, skus[n - 1].skuId, morning, afternoon), skus[n - 1].palletWeight)]
      else [];
    assert ScoredRows(orders, skus, n, morning, afternoon) == front + tail;
    if k < n - 1 {
      ScoredRowsComplete(orders, skus, n - 1, morning, afternoon, k);
      assert row in front;
    } else {
      assert tail == [row];
    }
  }

  /** Every SKU row of the table that the batch orders has its row, with the
      id's summed score and the row's pallet weight. */
  lemma ActiveRowsComplete(orders: seq<OrderLine>, skus: seq<Sku>, morning: real, afternoon: real, k: nat)
    requires PositivePallets(orders, skus)
    requires k < |skus| && skus[k].skuId in SkuIds(orders)
    ensures ScoreRow(skus[k].skuId, IdScore(orders, skus, skus[k].skuId, morning, afternoon), skus[k].palletWeight)
            in ActiveRows(orders, skus, morning, afternoon)
  {
    ScoredRowsComplete(orders, skus, |skus|, morning, afternoon, k);
  }

  /** With unique SKU ids in the table, no SKU has two scored rows. */
  lemma {:induction false} ScoredRowsUnique(orders: seq<OrderLine>, skus: seq<Sku>, n: nat, morning: real, afternoon: real)
    requires n <= |skus| && PositivePallets(orders, skus) && UniqueSkuIds(skus)
    ensures DistinctScoreIds(ScoredRows(orders, skus, n, morning, afternoon))
  {
    if n > 0 {
      var front := ScoredRows(orders, skus, n - 1, morning, afternoon);
      ScoredRowsUnique(orders, skus, n - 1, morning, afternoon);
      var rows := ScoredRows(orders, skus, n, morning, afternoon);
      forall i, j | 0 <= i < j < |rows| ensures rows[i].skuId != rows[j].skuId {
        if j >= |front| {
          assert rows[i] == front[i];
          var k := ScoredRowSource(orders, skus, n - 1, morning, afternoon, front[i]);
          assert rows[j].skuId == skus[n - 1].skuId;
        } else {
          assert rows[i] == front[i] && rows[j] == front[j];
        }
      }
    }
  }

  /** With unique SKU ids in the table, no SKU has two active rows. */
  lemma ActiveRowsUnique(orders: seq<OrderLine>, skus: seq<Sku>, morning: real, afternoon: real)
    requires PositivePallets(orders, skus) && UniqueSkuIds(skus)
    ensures DistinctScoreIds(ActiveRows(orders, skus, morning, afternoon))
  {
    ScoredRowsUnique(orders, skus, |skus|, morning, afternoon);
  }

  /** Two SKU rows with the same id, at 10 and 20 units per pallet, and one
      morning line of 15 units: the merge gives 2 and 1 trips, the id's score
      is (2 + 1) * 1.5 = 4.5, and both SKU rows get that score. */
  lemma RepeatedIdGetsSummedScore(w1: real, w2: real)
    ensures var skus := [Sku("S1", 0.0, 10, w1, "c"), Sku("S1", 0.0, 20, w2, "c")];
            var orders := [OrderLine("O1", 1, Morning, "S1", 15)];
            ActiveRows(orders, skus, 1.5, 1.0) == [ScoreRow("S1", 4.5, w1), ScoreRow("S1", 4.5, w2)]
  {
    var skus := [Sku("S1", 0.0, 10, w1, "c"), Sku("S1", 0.0, 20, w2, "c")];
    var orders := [OrderLine("O1", 1, Morning, "S1", 15)];
    assert SkuIds(orders)[0] == "S1";
    assert Trips(15, 10) == 2 && Trips(15, 20) == 1;
    assert orders[..0] == [];
    assert SkuEffort(orders, skus[0], 1.5, 1.0) == 3.0;
    assert SkuEffort(orders, skus[1], 1.5, 1.0) == 1.5;
    assert IdEffort(orders, skus, 1, "S1", 1.5, 1.0) == 3.0;
    assert IdScore(orders, skus, "S1", 1.5, 1.0) == 4.5;
    assert ScoredRows(orders, skus, 1, 1.5, 1.0) == [ScoreRow("S1", 4.5, w1)];
  }

  /** The sort key: the negated score, so that ascending keys are descending
      scores. */
  function EffortKey(r: ScoreRow): real {
    -r.totalEffort
  }

  /** `calculate_sku_scores`: the active rows, from the highest to the lowest
      total effort. */
  function SkuScores(orders: seq<OrderLine>, skus: seq<Sku>, morning: real, afternoon: real): seq<ScoreRow>
    requires PositivePallets(orders, skus)
  {
    SortBy(ActiveRows(orders, skus, morning, afternoon), EffortKey)
  }

  /** The score table is ordered by non-increasing total effort and holds the
      active rows, each as often. */
  lemma SkuScoresOrdered(orders: seq<OrderLine>, skus: seq<Sku>, morning: real, afternoon: real)
    requires PositivePallets(orders, skus)
    ensures var rows := SkuScores(orders, skus, morning, afternoon);
      && (forall i, j :: 0 <= i < j < |rows| ==> rows[i].totalEffort >= rows[j].totalEffort)
      && multiset(rows) == multiset(ActiveRows(orders, skus, morning, afternoon))
  {
    var rows := SkuScores(orders, skus, morning, afternoon);
    forall i, j | 0 <= i < j < |rows| ensures rows[i].totalEffort >= rows[j].totalEffort {
      assert EffortKey(rows[i]) <= EffortKey(rows[j]);
    }
  }

  /** Every row of the score table is the row of an ordered SKU of the table. */
  lemma SkuScoreSource(orders: seq<OrderLine>, skus: seq<Sku>, morning: real, afternoon: real, r: ScoreRow)
    returns (k: nat)
    requires PositivePallets(orders, skus)
    requires r in SkuScores(orders, skus, morning, afternoon)
    ensures k < |skus| && skus[k].skuId == r.skuId && r.skuId in SkuIds(orders)
    ensures r.totalEffort == IdScore(orders, skus, r.skuId, morning, afternoon)
    ensures r.palletWeight == skus[k].palletWeight
  {
    assert r in multiset(SkuScores(orders, skus, morning, afternoon));
    k := ActiveRowSource(orders, skus, morning, afternoon, r);
  }

  /** Every ordered SKU of the table has its row in the score table. */
  lemma SkuScoresComplete(orders: seq<OrderLine>, skus: seq<Sku>, morning: real, afternoon: real, k: nat)
    requires PositivePallets(orders, skus)
    requires k < |skus| && skus[k].skuId in SkuIds(orders)
    ensures ScoreRow(skus[k].skuId, IdScore(orders, skus, skus[k].skuId, morning, afternoon), skus[k].palletWeight)
            in SkuScores(orders, skus, morning, afternoon)
  {
    ActiveRowsComplete(orders, skus, morning, afternoon, k);
    var r := ScoreRow(skus[k].skuId, IdScore(orders, skus, skus[k].skuId, morning, afternoon), skus[k].palletWeight);
    assert r in multiset(ActiveRows(orders, skus, morning, afternoon));
  }

  /** With unique SKU ids in the table, no SKU appears twice in the score
      table. */
  lemma SkuScoresUnique(orders: seq<OrderLine>, skus: seq<Sku>, morning: real, afternoon: real)
    requires PositivePallets(orders, skus) && UniqueSkuIds(skus)
    ensures DistinctScoreIds(SkuScores(orders, skus, morning, afternoon))
  {
    var active, rows := ActiveRows(orders, skus, morning, afternoon), SkuScores(orders, skus, morning, afternoon);
    ActiveRowsUnique(orders, skus, morning, afternoon);
    forall i, j | 0 <= i < j < |rows| ensures rows[i].skuId != rows[j].skuId {
      SortedRowsKeepDistinctIds(active, rows, i, j);
    }
  }

  /** A reordering of a table whose ids are pairwise distinct has pairwise
      distinct ids. */
  lemma SortedRowsKeepDistinctIds(active: seq<ScoreRow>, rows: seq<ScoreRow>, i: nat, j: nat)
    requires multiset(rows) == multiset(active)
    requires DistinctScoreIds(active)
    requires i < j < |rows|
    ensures rows[i].skuId != rows[j].skuId
  {
    assert rows[i] in multiset(active) && rows[j] in multiset(active);
    var p :| 0 <= p < |active| && active[p] == rows[i];
    var q :| 0 <= q < |active| && active[q] == rows[j];
    OccursOnce(active, p);
    if rows[i] == rows[j] {
      OccursTwice(rows, i, j);
    }
  }

  /** In a table with pairwise distinct ids each row occurs once. */
  lemma OccursOnce(active: seq<ScoreRow>, p: nat)
    requires forall a, b :: 0 <= a < b < |active| ==> active[a].skuId != active[b].skuId
    requires p < |active|
    ensures multiset(active)[active[p]] == 1
  {
    assert active == active[..p] + [active[p]] + active[p + 1..];
    assert active[p] !in active[..p] by {
      forall t | 0 <= t < p ensures active[t] != active[p] { }
    }
    assert active[p] !in active[p + 1..] by {
      forall t | p + 1 <= t < |active| ensures active[t] != active[p] { }
    }
  }

  lemma OccursTwice(rows: seq<ScoreRow>, i: nat, j: nat)
    requires i < j < |rows| && rows[i] == rows[j]
    ensures multiset(rows)[rows[i]] >= 2
  {
    assert rows == rows[..i] + [rows[i]] + rows[i + 1..j] + [rows[j]] + rows[j + 1..];
  }

  // ----- how the score reacts to its inputs -----

  /** Trips a line contributes to SKU `s` in wave `w`, as a real number. */
  function LineWaveTrips(l: OrderLine, s: Sku, w: Wave): (r: real)
    requires s.unitsPerPallet > 0
    ensures r >= 0.0
  {
    if l.skuId == s.skuId && l.wave == w then Trips(l.quantity, s.unitsPerPallet) as real else 0.0
  }

  /** The weighted trips a line contributes to SKU `s`, split by wave. */
  function Weighted(l: OrderLine, s: Sku, morning: real, afternoon: real): real
    requires s.unitsPerPallet > 0
  {
    LineWaveTrips(l, s, Morning) * morning + LineWaveTrips(l, s, Afternoon) * afternoon
  }

  /** One more line adds its weighted trips of either wave. */
  lemma EffortStep(orders: seq<OrderLine>, s: Sku, morning: real, afternoon: real)
    requires s.unitsPerPallet > 0 && orders != []
    ensures SkuEffort(orders, s, morning, afternoon) ==
      SkuEffort(orders[..|orders| - 1], s, morning, afternoon) + Weighted(orders[|orders| - 1], s, morning, afternoon)
  {
    var l := orders[|orders| - 1];
    assert Weighted(l, s, morning, afternoon) == (if l.skuId == s.skuId then LineEffort(l, s, morning, afternoon) else 0.0) by {
      WeightedIsLineEffort(l, s, morning, afternoon);
    }
  }

  /** A line's weighted trips are its effort for its own SKU and nothing for
      any other. */
  lemma WeightedIsLineEffort(l: OrderLine, s: Sku, morning: real, afternoon: real)
    requires s.unitsPerPallet > 0
    ensures Weighted(l, s, morning, afternoon) == (if l.skuId == s.skuId then LineEffort(l, s, morning, afternoon) else 0.0)
  {
    var tm, ta := LineWaveTrips(l, s, Morning), LineWaveTrips(l, s, Afternoon);
    if l.skuId != s.skuId {
      assert tm == 0.0 && ta == 0.0;
      ZeroTimes(morning);
      ZeroTimes(afternoon);
    } else if l.wave == Morning {
      assert ta == 0.0;
      ZeroTimes(afternoon);
      assert LineEffort(l, s, morning, afternoon) == tm * morning;
    } else {
      assert tm == 0.0;
      ZeroTimes(morning);
      assert LineEffort(l, s, morning, afternoon) == ta * afternoon;
    }
  }

  /** A line's weighted trips never fall when its quantity rises, with
      non-negative weights. */
  lemma WeightedMonotoneInQuantity(l: OrderLine, q: nat, s: Sku, morning: real, afternoon: real)
    requires s.unitsPerPallet > 0 && 0.0 <= morning && 0.0 <= afternoon && l.quantity <= q
    ensures Weighted(l, s, morning, afternoon) <= Weighted(l.(quantity := q), s, morning, afternoon)
  {
    var l2 := l.(quantity := q);
    TripsMonotone(l.quantity, q, s.unitsPerPallet);
    RealMulMonotone(LineWaveTrips(l, s, Morning), LineWaveTrips(l2, s, Morning), morning);
    RealMulMonotone(LineWaveTrips(l, s, Afternoon), LineWaveTrips(l2, s, Afternoon), afternoon);
  }

  /** A line's weighted trips never fall when a weight rises. */
  lemma WeightedMonotoneInWeights(l: OrderLine, s: Sku, m1: real, a1: real, m2: real, a2: real)
    requires s.unitsPerPallet > 0 && m1 <= m2 && a1 <= a2
    ensures Weighted(l, s, m1, a1) <= Weighted(l, s, m2, a2)
  {
    RealScaleMonotone(LineWaveTrips(l, s, Morning), m1, m2);
    RealScaleMonotone(LineWaveTrips(l, s, Afternoon), a1, a2);
  }

  lemma ZeroTimes(w: real)
    ensures 0.0 * w == 0.0
  {
  }


  lemma RealMulMonotone(a: real, b: real, c: real)
    requires a <= b && 0.0 <= c
    ensures a * c <= b * c
  {
    assert b * c - a * c == (b - a) * c;
  }

  /** Raising either wave weight never lowers a score. */
  lemma {:induction false} SkuEffortMonotoneInWeights(orders: seq<OrderLine>, s: Sku,
                                                      m1: real, a1: real, m2: real, a2: real)
    requires s.unitsPerPallet > 0
    requires m1 <= m2 && a1 <= a2
    ensures SkuEffort(orders, s, m1, a1) <= SkuEffort(orders, s, m2, a2)
  {
    if orders != [] {
      SkuEffortMonotoneInWeights(orders[..|orders| - 1], s, m1, a1, m2, a2);
      EffortStep(orders, s, m1, a1);
      EffortStep(orders, s, m2, a2);
      WeightedMonotoneInWeights(orders[|orders| - 1], s, m1, a1, m2, a2);
    }
  }

  lemma RealScaleMonotone(c: real, a: real, b: real)
    requires 0.0 <= c && a <= b
    ensures c * a <= c * b
  {
    assert c * b - c * a == c * (b - a);
  }

  lemma MulLessCancels(a: int, b: int, u: int)
    requires u > 0 && a * u < b * u
    ensures a < b
  {
    assert (b - a) * u > 0;
  }

  lemma TripsMonotone(q1: nat, q2: nat, u: nat)
    requires u > 0 && q1 <= q2
    ensures Trips(q1, u) <= Trips(q2, u)
  {
    var t1, t2 := Trips(q1, u), Trips(q2, u);
    TripsIsCeiling(q1, u);
    TripsIsCeiling(q2, u);
    if t1 > 0 {
      MulLessCancels(t1 - 1, t2, u);
    }
  }

  /** With non-negative wave weights, raising the quantity of any line never
      lowers a score. */
  lemma {:induction false} SkuEffortMonotoneInQuantity(orders: seq<OrderLine>, i: nat, q: nat, s: Sku,
                                                       morning: real, afternoon: real)
    requires s.unitsPerPallet > 0 && 0.0 <= morning && 0.0 <= afternoon
    requires i < |orders| && orders[i].quantity <= q
    ensures SkuEffort(orders, s, morning, afternoon) <=
            SkuEffort(orders[i := orders[i].(quantity := q)], s, morning, afternoon)
  {
    var o2 := orders[i := orders[i].(quantity := q)];
    var n := |orders| - 1;
    EffortStep(orders, s, morning, afternoon);
    EffortStep(o2, s, morning, afternoon);
    if i < n {
      assert o2[..n] == orders[..n][i := orders[i].(quantity := q)];
      assert o2[n] == orders[n];
      SkuEffortMonotoneInQuantity(orders[..n], i, q, s, morning, afternoon);
    } else {
      assert o2[..n] == orders[..n];
      assert o2[n] == orders[n].(quantity := q);
      WeightedMonotoneInQuantity(orders[n], q, s, morning, afternoon);
    }
  }

  /** Raising either wave weight never lowers the summed score of an id over
      the first `n` SKU rows. */
  lemma {:induction false} IdEffortMonotoneInWeights(orders: seq<OrderLine>, skus: seq<Sku>, n: nat, id: string,
                                                     m1: real, a1: real, m2: real, a2: real)
    requires n <= |skus| && id in SkuIds(orders) && PositivePallets(orders, skus)
    requires m1 <= m2 && a1 <= a2
    ensures IdEffort(orders, skus, n, id, m1, a1) <= IdEffort(orders, skus, n, id, m2, a2)
  {
    if n > 0 {
      IdEffortMonotoneInWeights(orders, skus, n - 1, id, m1, a1, m2, a2);
      if skus[n - 1].skuId == id {
        SkuEffortMonotoneInWeights(orders, skus[n - 1], m1, a1, m2, a2);
      }
    }
  }

  /** Raising either wave weight never lowers the score an ordered SKU id
      carries in the table, whether one or several SKU rows carry the id. */
  lemma IdScoreMonotoneInWeights(orders: seq<OrderLine>, skus: seq<Sku>, id: string,
                                 m1: real, a1: real, m2: real, a2: real)
    requires id in SkuIds(orders) && PositivePallets(orders, skus)
    requires m1 <= m2 && a1 <= a2
    ensures IdScore(orders, skus, id, m1, a1) <= IdScore(orders, skus, id, m2, a2)
  {
    IdEffortMonotoneInWeights(orders, skus, |skus|, id, m1, a1, m2, a2);
  }

  /** Changing a line's quantity leaves the ordered SKU ids, and so the rows
      that need a positive pallet size, as they were. */
  lemma QuantityKeepsSkuIds(orders: seq<OrderLine>, i: nat, q: nat, skus: seq<Sku>)
    requires i < |orders|
    ensures SkuIds(orders[i := orders[i].(quantity := q)]) == SkuIds(orders)
    ensures PositivePallets(orders, skus) ==> PositivePallets(orders[i := orders[i].(quantity := q)], skus)
  {
    var o2 := orders[i := orders[i].(quantity := q)];
    assert forall j :: 0 <= j < |orders| ==> SkuIds(o2)[j] == SkuIds(orders)[j];
  }

  /** With non-negative weights, raising a line's quantity never lowers the
      summed score of an id over the first `n` SKU rows. */
  lemma {:induction false} IdEffortMonotoneInQuantity(orders: seq<OrderLine>, skus: seq<Sku>, n: nat, id: string,
                                                      i: nat, q: nat, morning: real, afternoon: real)
    requires n <= |skus| && id in SkuIds(orders) && PositivePallets(orders, skus)
    requires 0.0 <= morning && 0.0 <= afternoon
    requires i < |orders| && orders[i].quantity <= q
    requires id in SkuIds(orders[i := orders[i].(quantity := q)])
    requires PositivePallets(orders[i := orders[i].(quantity := q)], skus)
    ensures IdEffort(orders, skus, n, id, morning, afternoon) <=
            IdEffort(orders[i := orders[i].(quantity := q)], skus, n, id, morning, afternoon)
  {
    if n > 0 {
      IdEffortMonotoneInQuantity(orders, skus, n - 1, id, i, q, morning, afternoon);
      if skus[n - 1].skuId == id {
        SkuEffortMonotoneInQuantity(orders, i, q, skus[n - 1], morning, afternoon);
      }
    }
  }

  /** With non-negative weights, raising any line's quantity never lowers the
      score an ordered SKU id carries in the table, whether one or several
      SKU rows carry the id. */
  lemma IdScoreMonotoneInQuantity(orders: seq<OrderLine>, skus: seq<Sku>, id: string,
                                  i: nat, q: nat, morning: real, afternoon: real)
    requires id in SkuIds(orders) && PositivePallets(orders, skus)
    requires 0.0 <= morning && 0.0 <= afternoon
    requires i < |orders| && orders[i].quantity <= q
    ensures id in SkuIds(orders[i := orders[i].(quantity := q)])
    ensures PositivePallets(orders[i := orders[i].(quantity := q)], skus)
    ensures IdScore(orders, skus, id, morning, afternoon) <=
            IdScore(orders[i := orders[i].(quantity := q)], skus, id, morning, afternoon)
  {
    QuantityKeepsSkuIds(orders, i, q, skus);
    IdEffortMonotoneInQuantity(orders, skus, |skus|, id, i, q, morning, afternoon);
  }
}
