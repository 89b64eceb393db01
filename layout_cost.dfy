/** The optimizer's objective (`evaluate_layout_cost`): for every SKU ordered
    in a batch, its total quantity times the cost of one visit to its bin from
    the staging hub, or a flat penalty when the SKU has no bin or its bin is
    not in the layout. All quantities are integers, so the cost is too. */
module Objective {

  import opened Seqs
  import opened Records
  import opened Distance

  /** The staging hub every visit starts from and returns to. */
  const Hub: Point := Point(28, 10)

  /** Cost charged for a SKU that cannot be located. */
  const MissingPenalty: int := 9999

  /** Total quantity ordered of `sku` (the group-by sum). */
  function TotalQty(orders: seq<OrderLine>, sku: string): nat {
    if orders == [] then 0
    else
      var last := orders[|orders| - 1];
      TotalQty(orders[..|orders| - 1], sku) + (if last.skuId == sku then last.quantity else 0)
  }

  /** A SKU the batch does not order has total quantity 0. */
  lemma {:induction false} TotalQtyAbsent(orders: seq<OrderLine>, sku: string)
    requires sku !in SkuIds(orders)
    ensures TotalQty(orders, sku) == 0
  {
    if orders != [] {
      var init := orders[..|orders| - 1];
      assert SkuIds(orders) == SkuIds(init) + [orders[|orders| - 1].skuId];
      TotalQtyAbsent(init, sku);
    }
  }

  /** The SKUs of a batch, each once, in order of first appearance. */
  function OrderedSkus(orders: seq<OrderLine>): seq<string> {
    Dedup(SkuIds(orders))
  }

  /** One round trip from the hub to bin `b` (twice the distance) plus 10
      per level above the floor. */
  function PerVisitCost(b: Bin): (c: int)
    ensures b.z >= 1 ==> c >= 0
  {
    2 * ManhattanDist(Hub, b.Location()) + 10 * (b.z - 1)
  }

  /** Whether the SKU has a bin and that bin is in the layout. */
  predicate Placed(sku: string, alloc: map<string, string>, layout: map<string, Bin>) {
    sku in alloc && alloc[sku] in layout
  }

  /** The cost of serving `qty` units from bin `binId`. */
  function BinVisitCost(binId: string, qty: int, layout: map<string, Bin>): int {
    if binId !in layout then MissingPenalty else PerVisitCost(layout[binId]) * qty
  }

  /** The cost of one row of the per-SKU totals. */
  function SkuCost(sku: string, qty: int, alloc: map<string, string>, layout: map<string, Bin>): (c: int)
    ensures !Placed(sku, alloc, layout) ==> c == MissingPenalty
    ensures Placed(sku, alloc, layout) ==> c == PerVisitCost(layout[alloc[sku]]) * qty
  {
    if sku !in alloc then MissingPenalty else BinVisitCost(alloc[sku], qty, layout)
  }

  /** The cost of SKU `sku` for batch `orders`. */
  function RowCost(sku: string, orders: seq<OrderLine>, alloc: map<string, string>, layout: map<string, Bin>): int {
    SkuCost(sku, TotalQty(orders, sku), alloc, layout)
  }

  /** The costs of the SKUs `skus`, summed. */
  function CostOver(skus: seq<string>, orders: seq<OrderLine>, alloc: map<string, string>, layout: map<string, Bin>): int {
    if skus == [] then 0
    else CostOver(skus[..|skus| - 1], orders, alloc, layout) + RowCost(skus[|skus| - 1], orders, alloc, layout)
  }

  /** The value `evaluate_layout_cost` returns. */
  function LayoutCost(orders: seq<OrderLine>, alloc: map<string, string>, layout: map<string, Bin>): int {
    CostOver(OrderedSkus(orders), orders, alloc, layout)
  }

  /** A row of the per-SKU totals table. */
  datatype SkuCount = SkuCount(skuId: string, quantity: nat)

  /** The per-SKU totals table: every ordered SKU once, with its total. */
  function SkuCounts(orders: seq<OrderLine>): (rows: seq<SkuCount>)
    ensures |rows| == |OrderedSkus(orders)|
    ensures forall k :: 0 <= k < |rows| ==>
      rows[k] == SkuCount(OrderedSkus(orders)[k], TotalQty(orders, OrderedSkus(orders)[k]))
  {
    var skus := OrderedSkus(orders);
    seq(|skus|, k requires 0 <= k < |skus| => SkuCount(skus[k], TotalQty(orders, skus[k])))
  }

  /** `evaluate_layout_cost`: accumulates the cost over the per-SKU totals. */
  method EvaluateLayoutCost(orders: seq<OrderLine>, alloc: map<string, string>, layout: map<string, Bin>)
    returns (total: int)
    ensures total == LayoutCost(orders, alloc, layout)
  {
    var counts := SkuCounts(orders);
    ghost var skus := OrderedSkus(orders);
    total := 0;
    for k := 0 to |counts|
      invariant total == CostOver(skus[..k], orders, alloc, layout)
    {
      CostOverPrefixStep(skus, k, orders, alloc, layout);
      var rowCost := CountRowCost(counts[k].skuId, counts[k].quantity, alloc, layout);
      total := total + rowCost;
    }
    CostOverWhole(skus, orders, alloc, layout);
  }

  /** The body of `evaluate_layout_cost`'s loop for one row of the totals:
      the penalty when the SKU has no bin or its bin is not in the layout,
      otherwise twice the hub distance plus 10 per level above the floor,
      times the quantity. */
  method CountRowCost(skuId: string, qty: nat, alloc: map<string, string>, layout: map<string, Bin>)
    returns (cost: int)
    ensures cost == SkuCost(skuId, qty, alloc, layout)
  {
    if skuId !in alloc {
      return MissingPenalty;
    }
    var binId := alloc[skuId];
    if binId !in layout {
      return MissingPenalty;
    }
    var target := layout[binId];
    var dist := ManhattanDist(Hub, target.Location());
    var zPenalty := (target.z - 1) * 10;
    assert dist * 2 + zPenalty == PerVisitCost(target);
    cost := (dist * 2 + zPenalty) * qty;
  }

  /** One more SKU of the prefix adds its row's cost. */
  lemma CostOverPrefixStep(skus: seq<string>, k: nat, orders: seq<OrderLine>,
                           alloc: map<string, string>, layout: map<string, Bin>)
    requires k < |skus|
    ensures CostOver(skus[..k + 1], orders, alloc, layout) ==
      CostOver(skus[..k], orders, alloc, layout) + RowCost(skus[k], orders, alloc, layout)
  {
    assert skus[..k + 1][..k] == skus[..k];
  }

  lemma CostOverWhole(skus: seq<string>, orders: seq<OrderLine>,
                      alloc: map<string, string>, layout: map<string, Bin>)
    ensures CostOver(skus[..|skus|], orders, alloc, layout) == CostOver(skus, orders, alloc, layout)
  {
    assert skus[..|skus|] == skus;
  }

  // ----- the objective as a sum over order lines -----

  /** What one order line contributes when its SKU is placed. */
  function LineCost(l: OrderLine, alloc: map<string, string>, layout: map<string, Bin>): int {
    if Placed(l.skuId, alloc, layout) then PerVisitCost(layout[alloc[l.skuId]]) * l.quantity else 0
  }

  function LinesCost(orders: seq<OrderLine>, alloc: map<string, string>, layout: map<string, Bin>): int {
    if orders == [] then 0
    else LinesCost(orders[..|orders| - 1], alloc, layout) + LineCost(orders[|orders| - 1], alloc, layout)
  }

  /** How many of `skus` cannot be located. */
  function MissingCount(skus: seq<string>, alloc: map<string, string>, layout: map<string, Bin>): nat {
    if skus == [] then 0
    else MissingCount(skus[..|skus| - 1], alloc, layout) + (if Placed(skus[|skus| - 1], alloc, layout) then 0 else 1)
  }

  /** The objective, line by line: every line of a placed SKU costs its
      quantity times the per-visit cost of the SKU's bin, and every distinct
      SKU that cannot be located costs 9999 once. */
  lemma {:induction false} LayoutCostPerLine(orders: seq<OrderLine>, alloc: map<string, string>, layout: map<string, Bin>)
    ensures LayoutCost(orders, alloc, layout) ==
      LinesCost(orders, alloc, layout) + MissingPenalty * MissingCount(OrderedSkus(orders), alloc, layout)
  {
    if orders != [] {
      var init, l := orders[..|orders| - 1], orders[|orders| - 1];
      assert init + [l] == orders;
      var d0 := OrderedSkus(init);
      LayoutCostPerLine(init, alloc, layout);
      CostOverAddLine(d0, init, l, alloc, layout);
      OrderedSkusAppend(init, l);
      assert LinesCost(orders, alloc, layout) == LinesCost(init, alloc, layout) + LineCost(l, alloc, layout);
      if l.skuId !in d0 {
        var m := MissingCount(d0, alloc, layout);
        MissingCountAppend(d0, l.skuId, alloc, layout);
        CostOverAppend(d0, l.skuId, orders, alloc, layout);
        RowCostNewSku(init, l, alloc, layout);
        assert MissingPenalty * (m + 1) == MissingPenalty * m + MissingPenalty;
      }
    }
  }

  /** The row of a SKU that a batch orders on its last line only costs that
      line, plus the penalty when the SKU cannot be located. */
  lemma RowCostNewSku(init: seq<OrderLine>, l: OrderLine, alloc: map<string, string>, layout: map<string, Bin>)
    requires l.skuId !in OrderedSkus(init)
    ensures RowCost(l.skuId, init + [l], alloc, layout) ==
      LineCost(l, alloc, layout) + (if Placed(l.skuId, alloc, layout) then 0 else MissingPenalty)
  {
    TotalQtyAppend(init, l, l.skuId);
    TotalQtyAbsent(init, l.skuId);
    assert TotalQty(init + [l], l.skuId) == l.quantity;
  }

  /** A batch's SKU list grows by a line's SKU exactly when the SKU is new. */
  lemma OrderedSkusAppend(init: seq<OrderLine>, l: OrderLine)
    ensures OrderedSkus(init + [l]) ==
      if l.skuId in OrderedSkus(init) then OrderedSkus(init) else OrderedSkus(init) + [l.skuId]
  {
    var orders := init + [l];
    assert orders[..|orders| - 1] == init;
    var ids := SkuIds(orders);
    assert ids[..|ids| - 1] == SkuIds(init);
  }

  lemma MissingCountAppend(d: seq<string>, x: string, alloc: map<string, string>, layout: map<string, Bin>)
    ensures MissingCount(d + [x], alloc, layout) == MissingCount(d, alloc, layout) + (if Placed(x, alloc, layout) then 0 else 1)
  {
    assert (d + [x])[..|d|] == d;
  }

  lemma CostOverAppend(d: seq<string>, x: string, orders: seq<OrderLine>,
                       alloc: map<string, string>, layout: map<string, Bin>)
    ensures CostOver(d + [x], orders, alloc, layout) == CostOver(d, orders, alloc, layout) + RowCost(x, orders, alloc, layout)
  {
    assert (d + [x])[..|d|] == d;
  }

  /** Adding a line of SKU s to the batch raises the cost of a duplicate-free
      SKU list by the line's cost when s is in the list and placed. */
  lemma {:induction false} CostOverAddLine(skus: seq<string>, init: seq<OrderLine>, l: OrderLine,
                                           alloc: map<string, string>, layout: map<string, Bin>)
    requires Distinct(skus)
    ensures CostOver(skus, init + [l], alloc, layout) ==
      CostOver(skus, init, alloc, layout) + (if l.skuId in skus then LineCost(l, alloc, layout) else 0)
  {
    if skus != [] {
      var front, x := skus[..|skus| - 1], skus[|skus| - 1];
      assert skus == front + [x];
      assert Distinct(front);
      CostOverAddLine(front, init, l, alloc, layout);
      RowCostAddLine(x, init, l, alloc, layout);
      if x == l.skuId {
        assert l.skuId !in front;
      }
    }
  }

  /** Adding a line raises one SKU's cost by the line's cost when the line
      is of that SKU, and leaves it alone otherwise. */
  lemma RowCostAddLine(x: string, init: seq<OrderLine>, l: OrderLine,
                       alloc: map<string, string>, layout: map<string, Bin>)
    ensures RowCost(x, init + [l], alloc, layout) ==
      RowCost(x, init, alloc, layout) + (if x == l.skuId then LineCost(l, alloc, layout) else 0)
  {
    TotalQtyAppend(init, l, x);
    if x == l.skuId {
      RowCostSameSku(init, l, alloc, layout);
    } else {
      assert TotalQty(init + [l], x) == TotalQty(init, x);
    }
  }

  lemma RowCostSameSku(init: seq<OrderLine>, l: OrderLine, alloc: map<string, string>, layout: map<string, Bin>)
    ensures RowCost(l.skuId, init + [l], alloc, layout) == RowCost(l.skuId, init, alloc, layout) + LineCost(l, alloc, layout)
  {
    var x, a := l.skuId, TotalQty(init, l.skuId);
    TotalQtyAppend(init, l, x);
    assert RowCost(x, init + [l], alloc, layout) == SkuCost(x, a + l.quantity, alloc, layout);
    SkuCostSplit(x, a, l.quantity, alloc, layout);
  }

  /** A SKU's cost is additive in its quantity, on top of the penalty. */
  lemma SkuCostSplit(x: string, a: nat, q: nat, alloc: map<string, string>, layout: map<string, Bin>)
    ensures SkuCost(x, a + q, alloc, layout) ==
      SkuCost(x, a, alloc, layout) + (if Placed(x, alloc, layout) then PerVisitCost(layout[alloc[x]]) * q else 0)
  {
    if Placed(x, alloc, layout) {
      MulAddDistributes(PerVisitCost(layout[alloc[x]]), a, q);
    }
  }

  lemma TotalQtyAppend(init: seq<OrderLine>, l: OrderLine, sku: string)
    ensures TotalQty(init + [l], sku) == TotalQty(init, sku) + (if l.skuId == sku then l.quantity else 0)
  {
    var orders := init + [l];
    assert orders[..|orders| - 1] == init;
  }

  // ----- the objective depends only on the per-SKU totals -----

  lemma {:induction false} CostOverConcat(a: seq<string>, b: seq<string>, orders: seq<OrderLine>,
                                          alloc: map<string, string>, layout: map<string, Bin>)
    ensures CostOver(a + b, orders, alloc, layout) == CostOver(a, orders, alloc, layout) + CostOver(b, orders, alloc, layout)
  {
    if b == [] {
      assert a + b == a;
    } else {
      var s := a + b;
      assert s[..|s| - 1] == a + b[..|b| - 1];
      CostOverConcat(a, b[..|b| - 1], orders, alloc, layout);
    }
  }

  /** Taking one SKU out of a list takes its cost out of the sum. */
  lemma CostOverRemoveAt(d: seq<string>, i: nat, orders: seq<OrderLine>,
                         alloc: map<string, string>, layout: map<string, Bin>)
    requires i < |d|
    ensures CostOver(d, orders, alloc, layout) ==
      CostOver(RemoveAt(d, i), orders, alloc, layout) + RowCost(d[i], orders, alloc, layout)
  {
    assert d == d[..i] + [d[i]] + d[i + 1..];
    CostOverConcat(d[..i] + [d[i]], d[i + 1..], orders, alloc, layout);
    CostOverConcat(d[..i], [d[i]], orders, alloc, layout);
    CostOverConcat(d[..i], d[i + 1..], orders, alloc, layout);
    assert CostOver([d[i]], orders, alloc, layout) == RowCost(d[i], orders, alloc, layout);
  }

  /** The cost summed over two duplicate-free lists of the same SKUs is the
      same, whatever their order. */
  lemma {:induction false} CostOverSameElements(d1: seq<string>, d2: seq<string>, orders: seq<OrderLine>,
                                                alloc: map<string, string>, layout: map<string, Bin>)
    requires Distinct(d1) && Distinct(d2)
    requires forall x :: x in d1 <==> x in d2
    ensures CostOver(d1, orders, alloc, layout) == CostOver(d2, orders, alloc, layout)
  {
    if d1 == [] {
      DistinctNoLonger(d2, d1);
    } else {
      var x := d1[|d1| - 1];
      assert x in d2;
      var i :| 0 <= i < |d2| && d2[i] == x;
      DropMatched(d1, d2, i);
      CostOverSameElements(d1[..|d1| - 1], RemoveAt(d2, i), orders, alloc, layout);
      CostOverRemoveAt(d2, i, orders, alloc, layout);
    }
  }

  /** Two SKU lists with equal costs position by position have equal sums. */
  lemma {:induction false} CostOverIndexwise(d1: seq<string>, o1: seq<OrderLine>, a1: map<string, string>,
                                             d2: seq<string>, o2: seq<OrderLine>, a2: map<string, string>,
                                             layout: map<string, Bin>)
    requires |d1| == |d2|
    requires forall k :: 0 <= k < |d1| ==> RowCost(d1[k], o1, a1, layout) == RowCost(d2[k], o2, a2, layout)
    ensures CostOver(d1, o1, a1, layout) == CostOver(d2, o2, a2, layout)
  {
    if d1 != [] {
      CostOverIndexwise(d1[..|d1| - 1], o1, a1, d2[..|d2| - 1], o2, a2, layout);
    }
  }

  /** Two batches with the same SKUs and the same total quantity per SKU
      cost the same: the order of the lines and how a SKU's quantity is
      split over lines do not matter. */
  lemma LayoutCostDependsOnTotals(o1: seq<OrderLine>, o2: seq<OrderLine>,
                                  alloc: map<string, string>, layout: map<string, Bin>)
    requires forall s :: s in SkuIds(o1) <==> s in SkuIds(o2)
    requires forall s :: TotalQty(o1, s) == TotalQty(o2, s)
    ensures LayoutCost(o1, alloc, layout) == LayoutCost(o2, alloc, layout)
  {
    var d1, d2 := OrderedSkus(o1), OrderedSkus(o2);
    CostOverSameElements(d1, d2, o1, alloc, layout);
    CostOverIndexwise(d2, o1, alloc, d2, o2, alloc, layout);
  }

  // ----- monotonicity in quantity -----

  lemma {:induction false} TotalQtyMonotone(o1: seq<OrderLine>, o2: seq<OrderLine>, sku: string)
    requires |o1| == |o2|
    requires forall k :: 0 <= k < |o1| ==> o1[k].skuId == o2[k].skuId && o1[k].quantity <= o2[k].quantity
    ensures TotalQty(o1, sku) <= TotalQty(o2, sku)
  {
    if o1 != [] {
      TotalQtyMonotone(o1[..|o1| - 1], o2[..|o2| - 1], sku);
    }
  }

  lemma {:induction false} CostOverMonotone(skus: seq<string>, o1: seq<OrderLine>, o2: seq<OrderLine>,
                                            alloc: map<string, string>, layout: map<string, Bin>)
    requires forall b :: b in layout.Values ==> b.z >= 1
    requires forall s :: TotalQty(o1, s) <= TotalQty(o2, s)
    ensures CostOver(skus, o1, alloc, layout) <= CostOver(skus, o2, alloc, layout)
  {
    if skus != [] {
      CostOverMonotone(skus[..|skus| - 1], o1, o2, alloc, layout);
      var x := skus[|skus| - 1];
      if Placed(x, alloc, layout) {
        assert layout[alloc[x]] in layout.Values;
        MulMonotone(PerVisitCost(layout[alloc[x]]), TotalQty(o1, x), TotalQty(o2, x));
      }
    }
  }

  lemma MulAddDistributes(c: int, a: int, b: int)
    ensures c * (a + b) == c * a + c * b
  {
  }

  lemma MulMonotone(c: int, a: int, b: int)
    requires c >= 0 && a <= b
    ensures c * a <= c * b
  {
    assert c * b - c * a == c * (b - a);
  }

  /** When every bin is at level 1 or higher, raising the quantity of any
      line never lowers the objective. */
  lemma LayoutCostMonotoneInQuantity(orders: seq<OrderLine>, i: nat, q: nat,
                                     alloc: map<string, string>, layout: map<string, Bin>)
    requires i < |orders| && orders[i].quantity <= q
    requires forall b :: b in layout.Values ==> b.z >= 1
    ensures LayoutCost(orders, alloc, layout) <= LayoutCost(orders[i := orders[i].(quantity := q)], alloc, layout)
  {
    var o2 := orders[i := orders[i].(quantity := q)];
    assert SkuIds(o2) == SkuIds(orders);
    forall s ensures TotalQty(orders, s) <= TotalQty(o2, s) {
      TotalQtyMonotone(orders, o2, s);
    }
    CostOverMonotone(OrderedSkus(orders), orders, o2, alloc, layout);
  }
}
