/** Slotting improvement by hill climbing (`optimize_slotting_hill_climbing`):
    starting from a placement, each iteration swaps the bins of two SKUs,
    keeps the swap when the objective on a fixed order sample strictly falls
    and undoes it otherwise, recording the best cost after every iteration.
    The random draws (the order sample and the SKU pairs) are inputs. */
module HillClimbing {

  import opened Seqs
  import opened Records
  import opened Objective
  import opened OrderSimulation

  // ----- the placement as a SKU -> bin dictionary -----

  /** The SKU ids of a placement table, row by row. */
  function AllocSkuIds(alloc: seq<Allocation>): (ids: seq<string>)
    ensures |ids| == |alloc|
    ensures forall k :: 0 <= k < |alloc| ==> ids[k] == alloc[k].skuId
  {
    seq(|alloc|, k requires 0 <= k < |alloc| => alloc[k].skuId)
  }

  /** The dictionary's keys in insertion order: each SKU once, by first
      appearance. */
  function AllocSkus(alloc: seq<Allocation>): seq<string> {
    Dedup(AllocSkuIds(alloc))
  }

  /** The SKU -> bin dictionary of a placement table; a later row of the same
      SKU overwrites an earlier one. */
  function AllocMap(alloc: seq<Allocation>): map<string, string> {
    if alloc == [] then map[]
    else AllocMap(alloc[..|alloc| - 1])[alloc[|alloc| - 1].skuId := alloc[|alloc| - 1].binId]
  }

  /** The dictionary's keys are exactly the table's SKUs. */
  lemma {:induction false} AllocMapKeys(alloc: seq<Allocation>)
    ensures forall s :: s in AllocMap(alloc) <==> s in AllocSkuIds(alloc)
  {
    if alloc != [] {
      var init, last := alloc[..|alloc| - 1], alloc[|alloc| - 1];
      assert AllocSkuIds(alloc) == AllocSkuIds(init) + [last.skuId];
      AllocMapKeys(init);
    }
  }

  /** Every SKU's entry is the bin of its last row in the table. */
  lemma {:induction false} AllocMapLastWins(alloc: seq<Allocation>, s: string)
    requires s in AllocMap(alloc)
    ensures exists k :: 0 <= k < |alloc| && alloc[k].skuId == s && AllocMap(alloc)[s] == alloc[k].binId &&
                        forall j :: k < j < |alloc| ==> alloc[j].skuId != s
  {
    var init, last := alloc[..|alloc| - 1], alloc[|alloc| - 1];
    var n := |alloc| - 1;
    if last.skuId != s {
      AllocMapLastWins(init, s);
      var k :| 0 <= k < |init| && init[k].skuId == s && AllocMap(init)[s] == init[k].binId &&
               forall j :: k < j < |init| ==> init[j].skuId != s;
      assert alloc[k] == init[k];
      assert forall j :: k < j < |alloc| ==> alloc[j].skuId != s by {
        forall j | k < j < |alloc| ensures alloc[j].skuId != s {
          if j < n {
            assert alloc[j] == init[j];
          }
        }
      }
    } else {
      assert alloc[n].skuId == s && AllocMap(alloc)[s] == alloc[n].binId;
    }
  }

  /** The dictionary's keys are exactly the SKUs of the table. */
  lemma AllocSkusAreKeys(alloc: seq<Allocation>)
    ensures forall s :: s in AllocSkus(alloc) <==> s in AllocMap(alloc)
    ensures Distinct(AllocSkus(alloc))
  {
    AllocMapKeys(alloc);
  }

  /** No two SKUs share a bin. */
  ghost predicate Injective(m: map<string, string>) {
    forall x, y :: x in m && y in m && x != y ==> m[x] != m[y]
  }

  // ----- one swap -----

  /** The dictionary after `current_map[a], current_map[b] = bin_b, bin_a`. */
  function Swap(m: map<string, string>, a: string, b: string): map<string, string>
    requires a in m && b in m
  {
    m[a := m[b]][b := m[a]]
  }

  /** The swap exchanges the entries of `a` and `b`, and keeps the keys and
      every other entry. */
  lemma SwapEntries(m: map<string, string>, a: string, b: string)
    requires a in m && b in m
    ensures forall k :: k in Swap(m, a, b) <==> k in m
    ensures Swap(m, a, b)[a] == m[b] && Swap(m, a, b)[b] == m[a]
    ensures forall k :: k in m && k != a && k != b ==> Swap(m, a, b)[k] == m[k]
  {
  }

  /** Undoing a swap with the same two writes restores the dictionary. */
  lemma SwapTwiceRestores(m: map<string, string>, a: string, b: string)
    requires a in m && b in m
    ensures Swap(Swap(m, a, b), a, b) == m
  {
    var r := Swap(Swap(m, a, b), a, b);
    assert forall k :: k in r ==> r[k] == m[k];
  }

  /** A swap keeps the set of used bins. */
  lemma SwapKeepsBins(m: map<string, string>, a: string, b: string)
    requires a in m && b in m
    ensures Swap(m, a, b).Values == m.Values
  {
    var r := Swap(m, a, b);
    forall v | v in m.Values ensures v in r.Values {
      var k :| k in m && m[k] == v;
      var k' := Exchange(k, a, b);
      assert r[k'] == v;
    }
    forall v | v in r.Values ensures v in m.Values {
      var k :| k in r && r[k] == v;
      var k' := Exchange(k, a, b);
      assert m[k'] == v;
    }
  }

  /** A swap keeps bins unshared. */
  lemma SwapKeepsInjective(m: map<string, string>, a: string, b: string)
    requires a in m && b in m && Injective(m)
    ensures Injective(Swap(m, a, b))
  {
    var r := Swap(m, a, b);
    forall x, y | x in r && y in r && x != y ensures r[x] != r[y] {
      assert r[x] == m[Exchange(x, a, b)] && r[y] == m[Exchange(y, a, b)];
    }
  }

  /** `x` with `a` and `b` exchanged. */
  function Exchange(x: string, a: string, b: string): string {
    if x == a then b else if x == b then a else x
  }

  /** Every element of `d` with `a` and `b` exchanged. */
  function ExchangeAll(d: seq<string>, a: string, b: string): (r: seq<string>)
    ensures |r| == |d|
    ensures forall k :: 0 <= k < |d| ==> r[k] == Exchange(d[k], a, b)
  {
    seq(|d|, k requires 0 <= k < |d| => Exchange(d[k], a, b))
  }

  /** Exchanging two names in a duplicate-free list keeps it duplicate-free. */
  lemma ExchangeAllDistinct(d: seq<string>, a: string, b: string)
    requires Distinct(d)
    ensures Distinct(ExchangeAll(d, a, b))
  {
    var d2 := ExchangeAll(d, a, b);
    forall i, j | 0 <= i < j < |d2| ensures d2[i] != d2[j] {
      assert d[i] != d[j];
    }
  }

  /** Exchanging two names that are both in a list, or both out of it, gives
      a list of the same names. */
  lemma ExchangeAllSameElements(d: seq<string>, a: string, b: string)
    requires a in d <==> b in d
    ensures forall x :: x in ExchangeAll(d, a, b) <==> x in d
  {
    var d2 := ExchangeAll(d, a, b);
    forall x ensures x in d2 <==> x in d {
      var y := Exchange(x, a, b);
      assert Exchange(y, a, b) == x;
      if x in d2 {
        var k :| 0 <= k < |d2| && d2[k] == x;
        assert d[k] == y;
      }
      if y in d {
        var k :| 0 <= k < |d| && d[k] == y;
        assert d2[k] == x;
      }
    }
  }

  /** Swapping the bins of two SKUs that the sample orders in the same total
      quantity (or that it orders not at all) leaves the objective unchanged. */
  lemma SwapOfEqualTotalsKeepsCost(orders: seq<OrderLine>, m: map<string, string>, a: string, b: string,
                                   layout: map<string, Bin>)
    requires a in m && b in m
    requires TotalQty(orders, a) == TotalQty(orders, b)
    requires a in SkuIds(orders) <==> b in SkuIds(orders)
    ensures LayoutCost(orders, Swap(m, a, b), layout) == LayoutCost(orders, m, layout)
  {
    var d := OrderedSkus(orders);
    var r := Swap(m, a, b);
    var d2 := ExchangeAll(d, a, b);
    forall k | 0 <= k < |d| ensures RowCost(d[k], orders, r, layout) == RowCost(d2[k], orders, m, layout) {
      var x := d[k];
      if x != a && x != b {
        assert x in m ==> r[x] == m[x];
      }
    }
    CostOverIndexwise(d, orders, r, d2, orders, m, layout);
    ExchangeAllDistinct(d, a, b);
    ExchangeAllSameElements(d, a, b);
    CostOverSameElements(d2, d, orders, m, layout);
  }

  // ----- the climb -----

  /** Each of the first `n` draws names two different positions of a SKU
      list of length `count`, as `random.sample(skus, 2)` does. */
  ghost predicate ValidDraws(draws: seq<(nat, nat)>, n: nat, count: nat) {
    n <= |draws| &&
    forall i :: 0 <= i < n ==> draws[i].0 < count && draws[i].1 < count && draws[i].0 != draws[i].1
  }

  /** The climb's state after some iterations: the best dictionary, its cost
      and the cost history. */
  datatype Climb = Climb(best: map<string, string>, bestCost: int, history: seq<int>)

  /** One iteration from state `c0`: swap the bins of `a` and `b` and keep
      the swap only when it strictly lowers the cost; the history records the
      best cost after the iteration. */
  function ClimbStep(cost: map<string, string> -> int, c0: Climb, a: string, b: string): (c: Climb)
    requires a in c0.best && b in c0.best
    ensures forall k :: k in c0.best ==> k in c.best
    ensures c.history == c0.history + [c.bestCost]
    ensures c.bestCost <= c0.bestCost
    ensures c0.bestCost == cost(c0.best) ==> c.bestCost == cost(c.best)
  {
    var swapped := Swap(c0.best, a, b);
    var newCost := cost(swapped);
    if newCost < c0.bestCost then Climb(swapped, newCost, c0.history + [newCost])
    else Climb(c0.best, c0.bestCost, c0.history + [c0.bestCost])
  }

  /** The state after `n` iterations of the climb from `start`, swapping the
      SKUs at the positions `draws[i]` of `skus` in iteration `i`. */
  function ClimbAfter(cost: map<string, string> -> int, start: map<string, string>,
                      skus: seq<string>, draws: seq<(nat, nat)>, n: nat): (c: Climb)
    requires ValidDraws(draws, n, |skus|)
    requires forall k :: 0 <= k < |skus| ==> skus[k] in start
    ensures forall k :: k in start ==> k in c.best
    decreases n
  {
    if n == 0 then Climb(start, cost(start), [cost(start)])
    else
      var c0 := ClimbAfter(cost, start, skus, draws, n - 1);
      ClimbStep(cost, c0, skus[draws[n - 1].0], skus[draws[n - 1].1])
  }

  /** The state after `n` iterations is one step from the state after
      `n - 1`. */
  lemma ClimbAfterStep(cost: map<string, string> -> int, start: map<string, string>,
                       skus: seq<string>, draws: seq<(nat, nat)>, n: nat)
    requires 0 < n && ValidDraws(draws, n, |skus|)
    requires forall k :: 0 <= k < |skus| ==> skus[k] in start
    ensures ClimbAfter(cost, start, skus, draws, n)
         == ClimbStep(cost, ClimbAfter(cost, start, skus, draws, n - 1), skus[draws[n - 1].0], skus[draws[n - 1].1])
  {
  }

  /** No later entry exceeds an earlier one. */
  ghost predicate NonIncreasing(h: seq<int>) {
    forall i, j :: 0 <= i <= j < |h| ==> h[j] <= h[i]
  }

  lemma NonIncreasingAppend(h: seq<int>, x: int)
    requires NonIncreasing(h) && h != [] && x <= h[|h| - 1]
    ensures NonIncreasing(h + [x])
  {
    var h2 := h + [x];
    forall i, j | 0 <= i <= j < |h2| ensures h2[j] <= h2[i] {
      if j < |h| {
        assert h2[j] == h[j] && h2[i] == h[i];
      } else if i < |h| {
        assert h2[i] == h[i] && h[|h| - 1] <= h[i];
      }
    }
  }

  /** The best cost is the cost of the best dictionary; with no iteration
      the start is returned unchanged. */
  lemma {:induction false} ClimbBestCost(cost: map<string, string> -> int, start: map<string, string>,
                                         skus: seq<string>, draws: seq<(nat, nat)>, n: nat)
    requires ValidDraws(draws, n, |skus|)
    requires forall k :: 0 <= k < |skus| ==> skus[k] in start
    ensures ClimbAfter(cost, start, skus, draws, n).bestCost == cost(ClimbAfter(cost, start, skus, draws, n).best)
    ensures n == 0 ==> ClimbAfter(cost, start, skus, draws, n).best == start
    decreases n
  {
    if n > 0 {
      ClimbBestCost(cost, start, skus, draws, n - 1);
      ClimbAfterStep(cost, start, skus, draws, n);
    }
  }

  /** `c` records `n` iterations after an initial cost `initial`: one entry
      per iteration after it, never rising, ending in the best cost. */
  ghost predicate HistoryOf(c: Climb, n: nat, initial: int) {
    |c.history| == n + 1 && c.history[0] == initial && NonIncreasing(c.history) && c.history[n] == c.bestCost
  }

  /** The history of the climb: one entry per iteration after the initial
      cost, never rising, and ending in the best cost. */
  lemma {:induction false} ClimbHistory(cost: map<string, string> -> int, start: map<string, string>,
                                        skus: seq<string>, draws: seq<(nat, nat)>, n: nat)
    requires ValidDraws(draws, n, |skus|)
    requires forall k :: 0 <= k < |skus| ==> skus[k] in start
    ensures HistoryOf(ClimbAfter(cost, start, skus, draws, n), n, cost(start))
    decreases n
  {
    if n > 0 {
      ClimbHistory(cost, start, skus, draws, n - 1);
      var c0 := ClimbAfter(cost, start, skus, draws, n - 1);
      ClimbAfterStep(cost, start, skus, draws, n);
      var c := ClimbAfter(cost, start, skus, draws, n);
      NonIncreasingAppend(c0.history, c.bestCost);
      assert c.history[0] == c0.history[0];
    }
  }

  /** One iteration keeps the set of used bins. */
  lemma ClimbStepKeepsBins(cost: map<string, string> -> int, c0: Climb, a: string, b: string)
    requires a in c0.best && b in c0.best
    ensures ClimbStep(cost, c0, a, b).best.Values == c0.best.Values
  {
    SwapKeepsBins(c0.best, a, b);
  }

  /** One iteration keeps bins unshared. */
  lemma ClimbStepKeepsInjective(cost: map<string, string> -> int, c0: Climb, a: string, b: string)
    requires a in c0.best && b in c0.best && Injective(c0.best)
    ensures Injective(ClimbStep(cost, c0, a, b).best)
  {
    SwapKeepsInjective(c0.best, a, b);
  }

  /** The climb keeps the set of used bins of the start. */
  lemma {:induction false} ClimbKeepsBins(cost: map<string, string> -> int, start: map<string, string>,
                                          skus: seq<string>, draws: seq<(nat, nat)>, n: nat)
    requires ValidDraws(draws, n, |skus|)
    requires forall k :: 0 <= k < |skus| ==> skus[k] in start
    ensures ClimbAfter(cost, start, skus, draws, n).best.Values == start.Values
    decreases n
  {
    if n > 0 {
      ClimbKeepsBins(cost, start, skus, draws, n - 1);
      var c0 := ClimbAfter(cost, start, skus, draws, n - 1);
      var a, b := skus[draws[n - 1].0], skus[draws[n - 1].1];
      ClimbAfterStep(cost, start, skus, draws, n);
      ClimbStepKeepsBins(cost, c0, a, b);
    }
  }

  /** The climb keeps bins unshared when the start has them. */
  lemma {:induction false} ClimbKeepsInjective(cost: map<string, string> -> int, start: map<string, string>,
                                               skus: seq<string>, draws: seq<(nat, nat)>, n: nat)
    requires ValidDraws(draws, n, |skus|)
    requires forall k :: 0 <= k < |skus| ==> skus[k] in start
    requires Injective(start)
    ensures Injective(ClimbAfter(cost, start, skus, draws, n).best)
    decreases n
  {
    if n > 0 {
      ClimbKeepsInjective(cost, start, skus, draws, n - 1);
      var c0 := ClimbAfter(cost, start, skus, draws, n - 1);
      var a, b := skus[draws[n - 1].0], skus[draws[n - 1].1];
      ClimbAfterStep(cost, start, skus, draws, n);
      ClimbStepKeepsInjective(cost, c0, a, b);
    }
  }

  /** A swap is kept only when it strictly lowers the cost: an iteration that
      changes the best dictionary lowers the best cost. */
  lemma ClimbAcceptsOnlyImprovements(cost: map<string, string> -> int, start: map<string, string>,
                                     skus: seq<string>, draws: seq<(nat, nat)>, n: nat)
    requires 0 < n && ValidDraws(draws, n, |skus|)
    requires forall k :: 0 <= k < |skus| ==> skus[k] in start
    ensures ClimbAfter(cost, start, skus, draws, n).best != ClimbAfter(cost, start, skus, draws, n - 1).best
            ==> ClimbAfter(cost, start, skus, draws, n).bestCost < ClimbAfter(cost, start, skus, draws, n - 1).bestCost
    ensures ClimbAfter(cost, start, skus, draws, n).bestCost < ClimbAfter(cost, start, skus, draws, n - 1).bestCost
            <==> cost(Swap(ClimbAfter(cost, start, skus, draws, n - 1).best,
                           skus[draws[n - 1].0], skus[draws[n - 1].1]))
                 < ClimbAfter(cost, start, skus, draws, n - 1).bestCost
  {
  }

  // ----- the optimizer -----

  /** `df_orders[df_orders['order_id'].isin(ids)]`: the lines of the sampled
      orders, in batch order. */
  function SampleOrders(orders: seq<OrderLine>, ids: set<string>): (r: seq<OrderLine>)
    ensures |r| <= |orders|
    ensures forall l :: l in r <==> l in orders && l.orderId in ids
  {
    if orders == [] then []
    else
      var init, last := orders[..|orders| - 1], orders[|orders| - 1];
      assert orders == init + [last];
      SampleOrders(init, ids) + (if last.orderId in ids then [last] else [])
  }

  /** The placement rows for SKU `s` in bin `bin`: one per row of `alloc`
      with that SKU, carrying that row's effort (the left join on `sku_id`). */
  function JoinEffort(alloc: seq<Allocation>, s: string, bin: string): (r: seq<Allocation>)
    ensures |r| <= |alloc|
    ensures forall k :: 0 <= k < |r| ==> r[k].skuId == s && r[k].binId == bin && r[k].binCost == None
  {
    if alloc == [] then []
    else
      var last := alloc[|alloc| - 1];
      JoinEffort(alloc[..|alloc| - 1], s, bin)
      + (if last.skuId == s then [Allocation(s, bin, last.skuEffort, None)] else [])
  }

  /** The optimizer's output table: the best dictionary in key order, joined
      with the input table's efforts. */
  function Merged(keys: seq<string>, best: map<string, string>, alloc: seq<Allocation>): seq<Allocation>
    requires forall k :: 0 <= k < |keys| ==> keys[k] in best
  {
    if keys == [] then []
    else Merged(keys[..|keys| - 1], best, alloc) + JoinEffort(alloc, keys[|keys| - 1], best[keys[|keys| - 1]])
  }

  /** SKU ids of a placement table are pairwise distinct. */
  ghost predicate UniqueAllocSkus(alloc: seq<Allocation>) {
    forall i, j :: 0 <= i < j < |alloc| ==> alloc[i].skuId != alloc[j].skuId
  }

  /** With a SKU of the table that occurs once, the join yields exactly one
      row, with that row's effort. */
  lemma {:induction false} JoinEffortOnce(alloc: seq<Allocation>, i: nat, bin: string)
    requires UniqueAllocSkus(alloc) && i < |alloc|
    ensures JoinEffort(alloc, alloc[i].skuId, bin) == [Allocation(alloc[i].skuId, bin, alloc[i].skuEffort, None)]
  {
    var init := alloc[..|alloc| - 1];
    assert UniqueAllocSkus(init);
    if i < |alloc| - 1 {
      JoinEffortOnce(init, i, bin);
    } else {
      JoinEffortAbsent(init, alloc[i].skuId, bin);
    }
  }

  lemma {:induction false} JoinEffortAbsent(alloc: seq<Allocation>, s: string, bin: string)
    requires forall k :: 0 <= k < |alloc| ==> alloc[k].skuId != s
    ensures JoinEffort(alloc, s, bin) == []
  {
    if alloc != [] {
      JoinEffortAbsent(alloc[..|alloc| - 1], s, bin);
    }
  }

  /** `r` is the output row of SKU `key`: that SKU, bin `bin`, and the effort
      of a row of the input table with that SKU. */
  ghost predicate MergedRow(r: Allocation, key: string, bin: string, alloc: seq<Allocation>) {
    && r.skuId == key && r.binId == bin
    && exists i :: 0 <= i < |alloc| && alloc[i].skuId == key && r.skuEffort == alloc[i].skuEffort
  }

  /** With unique SKU ids in the input table, the output has one row per
      dictionary key, in key order, with the key's best bin and the SKU's
      effort. */
  lemma {:induction false} MergedOneRowPerSku(keys: seq<string>, best: map<string, string>, alloc: seq<Allocation>)
    requires UniqueAllocSkus(alloc)
    requires forall k :: 0 <= k < |keys| ==> keys[k] in best && keys[k] in AllocSkuIds(alloc)
    ensures |Merged(keys, best, alloc)| == |keys|
    ensures forall k :: 0 <= k < |keys| ==> MergedRow(Merged(keys, best, alloc)[k], keys[k], best[keys[k]], alloc)
  {
    if keys != [] {
      var init, s := keys[..|keys| - 1], keys[|keys| - 1];
      assert forall k :: 0 <= k < |init| ==> init[k] == keys[k];
      MergedOneRowPerSku(init, best, alloc);
      var i :| 0 <= i < |alloc| && AllocSkuIds(alloc)[i] == s;
      JoinEffortOnce(alloc, i, best[s]);
      var front, r := Merged(init, best, alloc), Merged(keys, best, alloc);
      var row := Allocation(s, best[s], alloc[i].skuEffort, None);
      assert r == front + [row];
      assert MergedRow(row, s, best[s], alloc);
      forall k | 0 <= k < |keys| ensures MergedRow(r[k], keys[k], best[keys[k]], alloc) {
        if k < |init| {
          assert r[k] == front[k];
        }
      }
    }
  }

  /** What the optimizer returns: the output table and the cost history. */
  datatype Optimized = Optimized(allocation: seq<Allocation>, history: seq<int>)

  /** The objective the climb minimises: the layout cost of the order sample
      under a placement. */
  function SampleCost(sample: seq<OrderLine>, layout: map<string, Bin>): map<string, string> -> int {
    m => LayoutCost(sample, m, layout)
  }

  /** The whole optimizer as a value: it fails when the sample is larger
      than the order table, or when there is an iteration but fewer than two
      SKUs to swap. */
  function HillClimb(currentAlloc: seq<Allocation>, orders: seq<OrderLine>, layout: map<string, Bin>,
                     iterations: nat, sampleSize: nat, sampleIds: set<string>, draws: seq<(nat, nat)>): Result<Optimized>
    requires |draws| >= iterations
    requires |AllocSkus(currentAlloc)| >= 2 ==> ValidDraws(draws, iterations, |AllocSkus(currentAlloc)|)
  {
    var skus := AllocSkus(currentAlloc);
    if sampleSize > |orders| then Failure("Cannot take a larger sample than population")
    else if iterations > 0 && |skus| < 2 then Failure("Sample larger than population")
    else
      AllocSkusAreKeys(currentAlloc);
      var sample := SampleOrders(orders, sampleIds);
      var c := ClimbAfter(SampleCost(sample, layout), AllocMap(currentAlloc), skus, draws, iterations);
      Success(Optimized(Merged(skus, c.best, currentAlloc), c.history))
  }

  /** The optimizer fails exactly when the sample is larger than the order
      table or when it must draw two SKUs from fewer than two. */
  lemma HillClimbFails(currentAlloc: seq<Allocation>, orders: seq<OrderLine>, layout: map<string, Bin>,
                       iterations: nat, sampleSize: nat, sampleIds: set<string>, draws: seq<(nat, nat)>)
    requires |draws| >= iterations
    requires |AllocSkus(currentAlloc)| >= 2 ==> ValidDraws(draws, iterations, |AllocSkus(currentAlloc)|)
    ensures HillClimb(currentAlloc, orders, layout, iterations, sampleSize, sampleIds, draws).Success?
            <==> sampleSize <= |orders| && (iterations == 0 || |AllocSkus(currentAlloc)| >= 2)
  {
  }

  /** A successful run returns the climb over the sample from the input
      dictionary, and the dictionary in key order joined with the input
      table. */
  lemma HillClimbValue(currentAlloc: seq<Allocation>, orders: seq<OrderLine>, layout: map<string, Bin>,
                       iterations: nat, sampleSize: nat, sampleIds: set<string>, draws: seq<(nat, nat)>)
    returns (c: Climb)
    requires |draws| >= iterations
    requires |AllocSkus(currentAlloc)| >= 2 ==> ValidDraws(draws, iterations, |AllocSkus(currentAlloc)|)
    requires HillClimb(currentAlloc, orders, layout, iterations, sampleSize, sampleIds, draws).Success?
    ensures ValidDraws(draws, iterations, |AllocSkus(currentAlloc)|)
    ensures forall k :: 0 <= k < |AllocSkus(currentAlloc)| ==> AllocSkus(currentAlloc)[k] in AllocMap(currentAlloc)
    ensures c == ClimbAfter(SampleCost(SampleOrders(orders, sampleIds), layout), AllocMap(currentAlloc),
                            AllocSkus(currentAlloc), draws, iterations)
    ensures HillClimb(currentAlloc, orders, layout, iterations, sampleSize, sampleIds, draws).value
            == Optimized(Merged(AllocSkus(currentAlloc), c.best, currentAlloc), c.history)
  {
    AllocSkusAreKeys(currentAlloc);
    c := ClimbAfter(SampleCost(SampleOrders(orders, sampleIds), layout), AllocMap(currentAlloc),
                    AllocSkus(currentAlloc), draws, iterations);
  }

  /** The history of a successful run: one entry per iteration after the
      cost of the sample under the input placement, never rising. */
  lemma HillClimbHistory(currentAlloc: seq<Allocation>, orders: seq<OrderLine>, layout: map<string, Bin>,
                         iterations: nat, sampleSize: nat, sampleIds: set<string>, draws: seq<(nat, nat)>)
    requires |draws| >= iterations
    requires |AllocSkus(currentAlloc)| >= 2 ==> ValidDraws(draws, iterations, |AllocSkus(currentAlloc)|)
    requires HillClimb(currentAlloc, orders, layout, iterations, sampleSize, sampleIds, draws).Success?
    ensures var h := HillClimb(currentAlloc, orders, layout, iterations, sampleSize, sampleIds, draws).value.history;
      && |h| == iterations + 1
      && h[0] == LayoutCost(SampleOrders(orders, sampleIds), AllocMap(currentAlloc), layout)
      && NonIncreasing(h)
  {
    var c := HillClimbValue(currentAlloc, orders, layout, iterations, sampleSize, sampleIds, draws);
    var cost := SampleCost(SampleOrders(orders, sampleIds), layout);
    ClimbHistory(cost, AllocMap(currentAlloc), AllocSkus(currentAlloc), draws, iterations);
  }

  /** The output table of a successful run on an input table with one row per
      SKU: one row per SKU of the input, in dictionary order, with an effort
      of that SKU and a bin the input already used. */
  lemma HillClimbRows(currentAlloc: seq<Allocation>, orders: seq<OrderLine>, layout: map<string, Bin>,
                      iterations: nat, sampleSize: nat, sampleIds: set<string>, draws: seq<(nat, nat)>)
    requires |draws| >= iterations
    requires |AllocSkus(currentAlloc)| >= 2 ==> ValidDraws(draws, iterations, |AllocSkus(currentAlloc)|)
    requires HillClimb(currentAlloc, orders, layout, iterations, sampleSize, sampleIds, draws).Success?
    requires UniqueAllocSkus(currentAlloc)
    ensures var out := HillClimb(currentAlloc, orders, layout, iterations, sampleSize, sampleIds, draws).value.allocation;
      && |out| == |AllocSkus(currentAlloc)|
      && forall k :: 0 <= k < |out| ==>
           && out[k].skuId == AllocSkus(currentAlloc)[k]
           && out[k].binId in AllocMap(currentAlloc).Values
           && exists i :: 0 <= i < |currentAlloc| && currentAlloc[i].skuId == out[k].skuId &&
                          out[k].skuEffort == currentAlloc[i].skuEffort
  {
    var c := HillClimbValue(currentAlloc, orders, layout, iterations, sampleSize, sampleIds, draws);
    var skus, start := AllocSkus(currentAlloc), AllocMap(currentAlloc);
    var cost := SampleCost(SampleOrders(orders, sampleIds), layout);
    ClimbKeepsBins(cost, start, skus, draws, iterations);
    AllocMapKeys(currentAlloc);
    MergedOneRowPerSku(skus, c.best, currentAlloc);
    var out := Merged(skus, c.best, currentAlloc);
    forall k | 0 <= k < |out| ensures out[k].binId in start.Values {
      assert MergedRow(out[k], skus[k], c.best[skus[k]], currentAlloc);
      assert c.best[skus[k]] in c.best.Values;
    }
  }

  /** With no bin shared in the input dictionary, no two output rows of a
      successful run on an input table with one row per SKU share a bin. */
  lemma HillClimbDistinctBins(currentAlloc: seq<Allocation>, orders: seq<OrderLine>, layout: map<string, Bin>,
                              iterations: nat, sampleSize: nat, sampleIds: set<string>, draws: seq<(nat, nat)>)
    requires |draws| >= iterations
    requires |AllocSkus(currentAlloc)| >= 2 ==> ValidDraws(draws, iterations, |AllocSkus(currentAlloc)|)
    requires HillClimb(currentAlloc, orders, layout, iterations, sampleSize, sampleIds, draws).Success?
    requires UniqueAllocSkus(currentAlloc) && Injective(AllocMap(currentAlloc))
    ensures var out := HillClimb(currentAlloc, orders, layout, iterations, sampleSize, sampleIds, draws).value.allocation;
      forall k1, k2 :: 0 <= k1 < k2 < |out| ==> out[k1].binId != out[k2].binId
  {
    var c := HillClimbValue(currentAlloc, orders, layout, iterations, sampleSize, sampleIds, draws);
    var skus, start := AllocSkus(currentAlloc), AllocMap(currentAlloc);
    var cost := SampleCost(SampleOrders(orders, sampleIds), layout);
    ClimbKeepsInjective(cost, start, skus, draws, iterations);
    AllocMapKeys(currentAlloc);
    MergedOneRowPerSku(skus, c.best, currentAlloc);
    var out := Merged(skus, c.best, currentAlloc);
    forall k1, k2 | 0 <= k1 < k2 < |out| ensures out[k1].binId != out[k2].binId {
      assert MergedRow(out[k1], skus[k1], c.best[skus[k1]], currentAlloc);
      assert MergedRow(out[k2], skus[k2], c.best[skus[k2]], currentAlloc);
      assert skus[k1] != skus[k2];
    }
  }

  /** One iteration of the optimizer's loop on the working dictionary, which
      always equals the best one: swap the bins of `skuA` and `skuB`, keep the
      swap when the sample's cost strictly falls and write the two bins back
      otherwise, then record the best cost. */
  method ClimbIteration(sample: seq<OrderLine>, layout: map<string, Bin>, current: map<string, string>,
                        bestCost: int, history: seq<int>, skuA: string, skuB: string)
    returns (next: map<string, string>, nextCost: int, nextHistory: seq<int>)
    requires skuA in current && skuB in current
    ensures Climb(next, nextCost, nextHistory)
         == ClimbStep(SampleCost(sample, layout), Climb(current, bestCost, history), skuA, skuB)
  {
    var working := current;
    var binA, binB := working[skuA], working[skuB];
    working := working[skuA := binB];
    working := working[skuB := binA];
    assert working == Swap(current, skuA, skuB);
    var newCost := EvaluateLayoutCost(sample, working, layout);
    if newCost < bestCost {
      next, nextCost := working, newCost;
    } else {
      working := working[skuA := binA];
      working := working[skuB := binB];
      SwapTwiceRestores(current, skuA, skuB);
      assert working == Swap(Swap(current, skuA, skuB), skuA, skuB);
      next, nextCost := working, bestCost;
    }
    nextHistory := history + [nextCost];
  }

  /** The optimizer's loop: `iterations` climb iterations from `start`, the
      SKUs to swap in iteration `i` being those at positions `draws[i]`. */
  method RunClimb(sample: seq<OrderLine>, layout: map<string, Bin>, start: map<string, string>, startCost: int,
                  skus: seq<string>, draws: seq<(nat, nat)>, iterations: nat)
    returns (best: map<string, string>, bestCost: int, history: seq<int>)
    requires ValidDraws(draws, iterations, |skus|)
    requires forall k :: 0 <= k < |skus| ==> skus[k] in start
    requires startCost == LayoutCost(sample, start, layout)
    ensures Climb(best, bestCost, history) == ClimbAfter(SampleCost(sample, layout), start, skus, draws, iterations)
  {
    best, bestCost, history := start, startCost, [startCost];
    for i := 0 to iterations
      invariant Climb(best, bestCost, history) == ClimbAfter(SampleCost(sample, layout), start, skus, draws, i)
    {
      var (ia, ib) := draws[i];
      best, bestCost, history := ClimbIteration(sample, layout, best, bestCost, history, skus[ia], skus[ib]);
      ClimbAfterStep(SampleCost(sample, layout), start, skus, draws, i + 1);
    }
  }

  /** `optimize_slotting_hill_climbing` with the sampled order ids and the
      drawn SKU position pairs given. The working dictionary and the best one
      of the source are always equal, so one dictionary stands for both. The
      failure of drawing two SKUs from fewer than two, which the source meets
      in its first iteration, is checked before the loop; nothing observable
      happens in between. */
  method OptimizeSlottingHillClimbing(currentAlloc: seq<Allocation>, orders: seq<OrderLine>, layoutRows: seq<Bin>,
                                      iterations: nat, sampleSize: nat, sampleIds: set<string>,
                                      draws: seq<(nat, nat)>)
    returns (result: Result<Optimized>)
    requires UniqueRowIds(layoutRows)
    requires |draws| >= iterations
    requires |AllocSkus(currentAlloc)| >= 2 ==> ValidDraws(draws, iterations, |AllocSkus(currentAlloc)|)
    ensures result == HillClimb(currentAlloc, orders, LayoutDict(layoutRows), iterations, sampleSize, sampleIds, draws)
  {
    if sampleSize > |orders| {
      return Failure("Cannot take a larger sample than population");
    }
    var layout := LayoutDict(layoutRows);
    var sample := SampleOrders(orders, sampleIds);
    var currentMap := AllocMap(currentAlloc);
    var currentCost := EvaluateLayoutCost(sample, currentMap, layout);
    var skus := AllocSkus(currentAlloc);
    if iterations > 0 && |skus| < 2 {
      return Failure("Sample larger than population");
    }
    AllocSkusAreKeys(currentAlloc);
    var best, bestCost, history := RunClimb(sample, layout, currentMap, currentCost, skus, draws, iterations);
    result := Success(Optimized(Merged(skus, best, currentAlloc), history));
  }
}
