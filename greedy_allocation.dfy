/** Greedy slotting (`run_greedy_allocation`): SKUs in score order each take
    the cheapest still-available bin whose weight capacity holds their pallet;
    a taken bin leaves the candidate list and its id joins the taken set;
    a SKU no remaining bin can hold is skipped. */
module GreedyAllocation {

  import opened Seqs
  import opened Records
  import opened SkuScoring
  import opened BinCosting

  /** A bin's capacity holds a pallet of `weight` kilograms. */
  predicate Fits(c: CostedBin, weight: real) {
    c.costs.maxWeight as real >= weight
  }

  /** A candidate the scan may take: not yet assigned, and able to hold the
      pallet. */
  predicate Eligible(c: CostedBin, taken: set<string>, weight: real) {
    c.bin.binId !in taken && Fits(c, weight)
  }

  /** The first eligible candidate, if any. */
  function FirstFit(avail: seq<CostedBin>, taken: set<string>, weight: real): (r: Option<nat>)
    ensures r.Some? ==> r.value < |avail| && Eligible(avail[r.value], taken, weight)
  {
    if avail == [] then None
    else if Eligible(avail[0], taken, weight) then Some(0)
    else
      match FirstFit(avail[1..], taken, weight)
      case None => None
      case Some(i) => Some(i + 1)
  }

  /** The candidate found is the first eligible one, and none is found only
      when no candidate is eligible. */
  lemma {:induction false} FirstFitIsFirst(avail: seq<CostedBin>, taken: set<string>, weight: real)
    ensures var r := FirstFit(avail, taken, weight);
      && (r.Some? ==> forall j :: 0 <= j < r.value ==> !Eligible(avail[j], taken, weight))
      && (r.None? <==> forall j :: 0 <= j < |avail| ==> !Eligible(avail[j], taken, weight))
  {
    if avail != [] && !Eligible(avail[0], taken, weight) {
      FirstFitIsFirst(avail[1..], taken, weight);
      assert forall j :: 1 <= j < |avail| ==> avail[j] == avail[1..][j - 1];
    }
  }

  /** The inner scan of `run_greedy_allocation`: the first candidate that is
      not assigned yet and holds the pallet. */
  method ScanForBin(available: seq<CostedBin>, assignedBins: set<string>, weight: real) returns (found: Option<nat>)
    ensures found == FirstFit(available, assignedBins, weight)
  {
    FirstFitIsFirst(available, assignedBins, weight);
    var i := 0;
    while i < |available|
      invariant 0 <= i <= |available|
      invariant forall j :: 0 <= j < i ==> !Eligible(available[j], assignedBins, weight)
    {
      var binData := available[i];
      if binData.bin.binId in assignedBins {
        i := i + 1;
        continue;
      }
      if binData.costs.maxWeight as real >= weight {
        FirstFitUnique(available, assignedBins, weight, i);
        return Some(i);
      }
      i := i + 1;
    }
    return None;
  }

  /** An eligible candidate with no eligible one before it is the one found. */
  lemma {:induction false} FirstFitUnique(avail: seq<CostedBin>, taken: set<string>, weight: real, i: nat)
    requires i < |avail| && Eligible(avail[i], taken, weight)
    requires forall j :: 0 <= j < i ==> !Eligible(avail[j], taken, weight)
    ensures FirstFit(avail, taken, weight) == Some(i)
  {
    if i > 0 {
      assert forall j :: 0 <= j < i - 1 ==> avail[1..][j] == avail[j + 1];
      FirstFitUnique(avail[1..], taken, weight, i - 1);
    }
  }

  /** The placement row a SKU gets in a bin. */
  function Place(s: ScoreRow, c: CostedBin): Allocation {
    Allocation(s.skuId, c.bin.binId, s.totalEffort, Some(c.costs.totalCost))
  }

  /** The placements made for `scores` from the candidates `avail`, given the
      bin ids already taken. */
  function GreedyFrom(scores: seq<ScoreRow>, avail: seq<CostedBin>, taken: set<string>): seq<Allocation>
    decreases |scores|
  {
    if scores == [] then []
    else
      match FirstFit(avail, taken, scores[0].palletWeight)
      case None => GreedyFrom(scores[1..], avail, taken)
      case Some(i) =>
        [Place(scores[0], avail[i])]
        + GreedyFrom(scores[1..], RemoveAt(avail, i), taken + {avail[i].bin.binId})
  }

  /** The whole allocation: nothing taken at the start. */
  function Greedy(scores: seq<ScoreRow>, sortedBins: seq<CostedBin>): seq<Allocation> {
    GreedyFrom(scores, sortedBins, {})
  }

  /** `run_greedy_allocation`: scans the candidates for every SKU, skipping
      taken ids and bins too weak for the pallet, and pops the bin it
      takes. */
  method RunGreedyAllocation(scores: seq<ScoreRow>, sortedBins: seq<CostedBin>) returns (allocation: seq<Allocation>)
    ensures allocation == Greedy(scores, sortedBins)
  {
    allocation := [];
    var available := sortedBins;
    var assignedBins: set<string> := {};
    var k := 0;
    while k < |scores|
      invariant 0 <= k <= |scores|
      invariant allocation + GreedyFrom(scores[k..], available, assignedBins) == Greedy(scores, sortedBins)
    {
      var sku := scores[k];
      assert scores[k..][1..] == scores[k + 1..];
      var found := ScanForBin(available, assignedBins, sku.palletWeight);
      if found.Some? {
        var binData := available[found.value];
        allocation := allocation + [Place(sku, binData)];
        assignedBins := assignedBins + {binData.bin.binId};
        available := RemoveAt(available, found.value);
      }
      k := k + 1;
    }
  }

  /** Bin ids of a candidate list are pairwise distinct. */
  ghost predicate DistinctBinIds(avail: seq<CostedBin>) {
    forall i, j :: 0 <= i < j < |avail| ==> avail[i].bin.binId != avail[j].bin.binId
  }

  /** `a` places a SKU row of `scores` into a candidate of `avail` that is
      not assigned yet and whose capacity holds the SKU's pallet. */
  ghost predicate PlacedFrom(a: Allocation, scores: seq<ScoreRow>, avail: seq<CostedBin>, taken: set<string>) {
    exists m, j :: 0 <= m < |scores| && 0 <= j < |avail| && a == Place(scores[m], avail[j]) &&
                   Eligible(avail[j], taken, scores[m].palletWeight)
  }

  /** `a` places a SKU of `scores` at or after position `from`. */
  ghost predicate SkuFrom(a: Allocation, scores: seq<ScoreRow>, from: nat) {
    exists m :: from <= m < |scores| && a.skuId == scores[m].skuId
  }

  /** Every placement puts a SKU of the table into a candidate that was not
      yet assigned and whose capacity holds the SKU's pallet. */
  lemma {:induction false} GreedyPlacements(scores: seq<ScoreRow>, avail: seq<CostedBin>, taken: set<string>)
    ensures forall k :: 0 <= k < |GreedyFrom(scores, avail, taken)| ==>
      PlacedFrom(GreedyFrom(scores, avail, taken)[k], scores, avail, taken)
    decreases |scores|
  {
    if scores != [] {
      var tail := scores[1..];
      var r := GreedyFrom(scores, avail, taken);
      match FirstFit(avail, taken, scores[0].palletWeight)
      case None =>
        GreedyPlacements(tail, avail, taken);
        assert r == GreedyFrom(tail, avail, taken);
        forall k | 0 <= k < |r| ensures PlacedFrom(r[k], scores, avail, taken) {
          PlacedFromTail(r[k], scores, avail, taken);
        }
      case Some(i) =>
        var b := avail[i].bin.binId;
        var avail1 := RemoveAt(avail, i);
        var rest := GreedyFrom(tail, avail1, taken + {b});
        GreedyPlacements(tail, avail1, taken + {b});
        assert r == [Place(scores[0], avail[i])] + rest;
        forall k | 0 <= k < |r| ensures PlacedFrom(r[k], scores, avail, taken) {
          if k > 0 {
            assert r[k] == rest[k - 1];
            PlacedFromRemoved(rest[k - 1], scores, avail, taken, i);
          } else {
            assert Eligible(avail[i], taken, scores[0].palletWeight);
          }
        }
    }
  }

  /** A placement from the rest of the table is a placement from the table. */
  lemma PlacedFromTail(a: Allocation, scores: seq<ScoreRow>, avail: seq<CostedBin>, taken: set<string>)
    requires |scores| > 0 && PlacedFrom(a, scores[1..], avail, taken)
    ensures PlacedFrom(a, scores, avail, taken)
  {
    var tail := scores[1..];
    var m, j :| 0 <= m < |tail| && 0 <= j < |avail| && a == Place(tail[m], avail[j]) &&
                Eligible(avail[j], taken, tail[m].palletWeight);
    assert tail[m] == scores[m + 1];
  }

  /** A placement made after candidate `i` was taken is a placement from the
      table into the original candidates, and not into candidate `i`. */
  lemma PlacedFromRemoved(a: Allocation, scores: seq<ScoreRow>, avail: seq<CostedBin>, taken: set<string>, i: nat)
    requires |scores| > 0 && i < |avail|
    requires PlacedFrom(a, scores[1..], RemoveAt(avail, i), taken + {avail[i].bin.binId})
    ensures PlacedFrom(a, scores, avail, taken)
    ensures a.binId != avail[i].bin.binId && a.binId !in taken
  {
    var tail, avail1, b := scores[1..], RemoveAt(avail, i), avail[i].bin.binId;
    var m, j :| 0 <= m < |tail| && 0 <= j < |avail1| && a == Place(tail[m], avail1[j]) &&
                Eligible(avail1[j], taken + {b}, tail[m].palletWeight);
    assert tail[m] == scores[m + 1];
    var j0 := if j < i then j else j + 1;
    assert avail1[j] == avail[j0];
  }

  /** No bin id is placed twice. */
  lemma {:induction false} GreedyDistinctBins(scores: seq<ScoreRow>, avail: seq<CostedBin>, taken: set<string>)
    ensures forall k1, k2 :: 0 <= k1 < k2 < |GreedyFrom(scores, avail, taken)| ==>
      GreedyFrom(scores, avail, taken)[k1].binId != GreedyFrom(scores, avail, taken)[k2].binId
    decreases |scores|
  {
    if scores != [] {
      var tail := scores[1..];
      var r := GreedyFrom(scores, avail, taken);
      match FirstFit(avail, taken, scores[0].palletWeight)
      case None =>
        GreedyDistinctBins(tail, avail, taken);
      case Some(i) =>
        var b := avail[i].bin.binId;
        var avail1 := RemoveAt(avail, i);
        var rest := GreedyFrom(tail, avail1, taken + {b});
        GreedyDistinctBins(tail, avail1, taken + {b});
        GreedyPlacements(tail, avail1, taken + {b});
        assert r == [Place(scores[0], avail[i])] + rest;
        forall k1, k2 | 0 <= k1 < k2 < |r| ensures r[k1].binId != r[k2].binId {
          assert r[k2] == rest[k2 - 1];
          if k1 > 0 {
            assert r[k1] == rest[k1 - 1];
          } else {
            PlacedFromRemoved(rest[k2 - 1], scores, avail, taken, i);
          }
        }
    }
  }

  /** Every placed SKU is one of the table's. */
  lemma {:induction false} GreedySkus(scores: seq<ScoreRow>, avail: seq<CostedBin>, taken: set<string>)
    ensures forall k :: 0 <= k < |GreedyFrom(scores, avail, taken)| ==>
      SkuFrom(GreedyFrom(scores, avail, taken)[k], scores, 0)
    decreases |scores|
  {
    if scores != [] {
      var tail := scores[1..];
      var r := GreedyFrom(scores, avail, taken);
      match FirstFit(avail, taken, scores[0].palletWeight)
      case None =>
        GreedySkus(tail, avail, taken);
        assert r == GreedyFrom(tail, avail, taken);
        forall k | 0 <= k < |r| ensures SkuFrom(r[k], scores, 0) {
          SkuFromTail(r[k], scores);
        }
      case Some(i) =>
        var rest := GreedyFrom(tail, RemoveAt(avail, i), taken + {avail[i].bin.binId});
        GreedySkus(tail, RemoveAt(avail, i), taken + {avail[i].bin.binId});
        assert r == [Place(scores[0], avail[i])] + rest;
        forall k | 0 <= k < |r| ensures SkuFrom(r[k], scores, 0) {
          if k > 0 {
            assert r[k] == rest[k - 1];
            SkuFromTail(rest[k - 1], scores);
          }
        }
    }
  }

  /** A SKU of the rest of the table is a SKU of the table after its head. */
  lemma SkuFromTail(a: Allocation, scores: seq<ScoreRow>)
    requires |scores| > 0 && SkuFrom(a, scores[1..], 0)
    ensures SkuFrom(a, scores, 1)
  {
    var m :| 0 <= m < |scores[1..]| && a.skuId == scores[1..][m].skuId;
    assert scores[1..][m] == scores[m + 1];
  }

  /** A SKU is placed at most once when the score table has no SKU twice. */
  lemma {:induction false} GreedyDistinctSkus(scores: seq<ScoreRow>, avail: seq<CostedBin>, taken: set<string>)
    requires DistinctScoreIds(scores)
    ensures forall k1, k2 :: 0 <= k1 < k2 < |GreedyFrom(scores, avail, taken)| ==>
      GreedyFrom(scores, avail, taken)[k1].skuId != GreedyFrom(scores, avail, taken)[k2].skuId
    decreases |scores|
  {
    if scores != [] {
      var tail := scores[1..];
      assert DistinctScoreIds(tail);
      var r := GreedyFrom(scores, avail, taken);
      match FirstFit(avail, taken, scores[0].palletWeight)
      case None =>
        GreedyDistinctSkus(tail, avail, taken);
      case Some(i) =>
        var avail1, taken1 := RemoveAt(avail, i), taken + {avail[i].bin.binId};
        var rest := GreedyFrom(tail, avail1, taken1);
        GreedyDistinctSkus(tail, avail1, taken1);
        GreedySkus(tail, avail1, taken1);
        assert r == [Place(scores[0], avail[i])] + rest;
        forall k1, k2 | 0 <= k1 < k2 < |r| ensures r[k1].skuId != r[k2].skuId {
          assert r[k2] == rest[k2 - 1];
          if k1 > 0 {
            assert r[k1] == rest[k1 - 1];
          } else {
            SkuFromTail(rest[k2 - 1], scores);
            var m :| 1 <= m < |scores| && rest[k2 - 1].skuId == scores[m].skuId;
          }
        }
    }
  }

  /** At most one placement per SKU row and per candidate. */
  lemma {:induction false} GreedyLength(scores: seq<ScoreRow>, avail: seq<CostedBin>, taken: set<string>)
    ensures |GreedyFrom(scores, avail, taken)| <= |scores|
    ensures |GreedyFrom(scores, avail, taken)| <= |avail|
    decreases |scores|
  {
    if scores != [] {
      match FirstFit(avail, taken, scores[0].palletWeight)
      case None =>
        GreedyLength(scores[1..], avail, taken);
      case Some(i) =>
        GreedyLength(scores[1..], RemoveAt(avail, i), taken + {avail[i].bin.binId});
    }
  }

  /** A SKU is left out only when the bins run out: when every candidate can
      hold every pallet, the candidate ids are distinct and none is assigned
      yet, as many SKUs are placed as there are SKUs or bins, whichever is
      fewer. */
  lemma {:induction false} GreedyFillsWhenAllFit(scores: seq<ScoreRow>, avail: seq<CostedBin>, taken: set<string>)
    requires DistinctBinIds(avail)
    requires forall j :: 0 <= j < |avail| ==> avail[j].bin.binId !in taken
    requires forall m, j :: 0 <= m < |scores| && 0 <= j < |avail| ==> Fits(avail[j], scores[m].palletWeight)
    ensures |GreedyFrom(scores, avail, taken)| == if |scores| <= |avail| then |scores| else |avail|
    decreases |scores|
  {
    if scores != [] {
      if avail == [] {
        GreedyFillsWhenAllFit(scores[1..], avail, taken);
      } else {
        assert Eligible(avail[0], taken, scores[0].palletWeight);
        assert FirstFit(avail, taken, scores[0].palletWeight) == Some(0);
        var b, rest := avail[0].bin.binId, avail[1..];
        assert RemoveAt(avail, 0) == rest;
        AllFitAfterFirst(scores, avail, taken);
        GreedyFillsWhenAllFit(scores[1..], rest, taken + {b});
      }
    }
  }

  /** Taking the first candidate for the first SKU keeps the hypotheses of
      the lemma above for the remaining SKUs and candidates. */
  lemma AllFitAfterFirst(scores: seq<ScoreRow>, avail: seq<CostedBin>, taken: set<string>)
    requires |scores| > 0 && |avail| > 0
    requires DistinctBinIds(avail)
    requires forall j :: 0 <= j < |avail| ==> avail[j].bin.binId !in taken
    requires forall m, j :: 0 <= m < |scores| && 0 <= j < |avail| ==> Fits(avail[j], scores[m].palletWeight)
    ensures DistinctBinIds(avail[1..])
    ensures forall j :: 0 <= j < |avail| - 1 ==> avail[1..][j].bin.binId !in taken + {avail[0].bin.binId}
    ensures forall m, j :: 0 <= m < |scores| - 1 && 0 <= j < |avail| - 1 ==>
      Fits(avail[1..][j], scores[1..][m].palletWeight)
  {
    var rest := avail[1..];
    assert forall j :: 0 <= j < |rest| ==> rest[j] == avail[j + 1];
    assert forall m :: 0 <= m < |scores| - 1 ==> scores[1..][m] == scores[m + 1];
  }
}
