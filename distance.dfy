/** Travel distance between two warehouse coordinates
    (`calculate_manhattan_dist`). Movement is rectilinear, but a vehicle may
    only change aisle column on a cross-aisle row. */
module Distance {

  import opened Records

  /** Length of the route from p1 to p2 that changes column on row `ca`:
      p1's depth to the row, the column change, the row to p2's depth. */
  function ViaCrossAisle(p1: Point, p2: Point, ca: int): nat {
    Abs(p1.y - ca) + Abs(p1.x - p2.x) + Abs(p2.y - ca)
  }

  /** The running minimum of the loop over the cross-aisle rows. */
  function BestRoute(p1: Point, p2: Point, cas: seq<int>): nat
    requires |cas| > 0
  {
    if |cas| == 1 then ViaCrossAisle(p1, p2, cas[0])
    else
      var rest := BestRoute(p1, p2, cas[1..]);
      var here := ViaCrossAisle(p1, p2, cas[0]);
      if here <= rest then here else rest
  }

  /** The running minimum is the shortest of the routes: no route through a
      listed row is shorter, and one of them is that long. */
  lemma {:induction false} BestRouteIsShortest(p1: Point, p2: Point, cas: seq<int>)
    requires |cas| > 0
    ensures forall k :: 0 <= k < |cas| ==> BestRoute(p1, p2, cas) <= ViaCrossAisle(p1, p2, cas[k])
    ensures exists k :: 0 <= k < |cas| && BestRoute(p1, p2, cas) == ViaCrossAisle(p1, p2, cas[k])
  {
    var d := BestRoute(p1, p2, cas);
    if |cas| == 1 {
      assert d == ViaCrossAisle(p1, p2, cas[0]);
    } else {
      var tail := cas[1..];
      BestRouteIsShortest(p1, p2, tail);
      assert forall k :: 1 <= k < |cas| ==> cas[k] == tail[k - 1];
      var j :| 0 <= j < |tail| && BestRoute(p1, p2, tail) == ViaCrossAisle(p1, p2, tail[j]);
      if d != ViaCrossAisle(p1, p2, cas[0]) {
        assert d == ViaCrossAisle(p1, p2, cas[j + 1]);
      }
    }
  }

  /** Distance from p1 to p2. Same column: the depth difference. Different
      columns: the shortest route through one of the cross-aisle rows, with a
      shortcut when both points already stand on the same cross-aisle row. */
  function ManhattanDist(p1: Point, p2: Point): nat {
    var dx := Abs(p1.x - p2.x);
    var dy := Abs(p1.y - p2.y);
    if dx == 0 then dy
    else if p1.y in CrossAislesY && p2.y == p1.y then dx + dy
    else BestRoute(p1, p2, CrossAislesY)
  }

  /** Same column: the depth difference. Different columns: the shortest
      route through one of the cross-aisle rows (the shortcut along a shared
      cross-aisle row is the route through that row). Never below the plain
      Manhattan distance. */
  lemma ManhattanDistShortest(p1: Point, p2: Point)
    ensures p1.x == p2.x ==> ManhattanDist(p1, p2) == Abs(p1.y - p2.y)
    ensures p1.x != p2.x ==>
      (forall ca :: ca in CrossAislesY ==> ManhattanDist(p1, p2) <= ViaCrossAisle(p1, p2, ca)) &&
      (exists ca :: ca in CrossAislesY && ManhattanDist(p1, p2) == ViaCrossAisle(p1, p2, ca))
    ensures ManhattanDist(p1, p2) >= Abs(p1.x - p2.x) + Abs(p1.y - p2.y)
  {
    var d := ManhattanDist(p1, p2);
    if p1.x != p2.x {
      if p1.y in CrossAislesY && p2.y == p1.y {
        assert d == ViaCrossAisle(p1, p2, p1.y);
      } else {
        BestRouteIsShortest(p1, p2, CrossAislesY);
        assert forall ca :: ca in CrossAislesY ==> exists k :: 0 <= k < 3 && CrossAislesY[k] == ca;
        var k :| 0 <= k < 3 && d == ViaCrossAisle(p1, p2, CrossAislesY[k]);
        assert d >= Abs(p1.x - p2.x) + Abs(p1.y - p2.y);
      }
    }
  }

  /** Swapping the endpoints does not change the distance. */
  lemma ManhattanDistSymmetric(p1: Point, p2: Point)
    ensures ManhattanDist(p1, p2) == ManhattanDist(p2, p1)
  {
    var d1, d2 := ManhattanDist(p1, p2), ManhattanDist(p2, p1);
    ManhattanDistShortest(p1, p2);
    ManhattanDistShortest(p2, p1);
    if p1.x != p2.x {
      assert forall ca :: ViaCrossAisle(p1, p2, ca) == ViaCrossAisle(p2, p1, ca);
      var c1 :| c1 in CrossAislesY && d1 == ViaCrossAisle(p1, p2, c1);
      var c2 :| c2 in CrossAislesY && d2 == ViaCrossAisle(p2, p1, c2);
      assert d2 <= ViaCrossAisle(p2, p1, c1);
      assert d1 <= ViaCrossAisle(p1, p2, c2);
    }
  }

  /** A point is at distance zero from itself. */
  lemma ManhattanDistZero(p: Point)
    ensures ManhattanDist(p, p) == 0
  {
  }

  /** Staging hub (28,10) to the back of the first rack aisle (10,20): the
      routes via rows 0, 10 and 20 are 48, 28 and 28 long, so the distance
      is 28. */
  lemma HubToBackOfFirstRack()
    ensures ManhattanDist(Point(28, 10), Point(10, 20)) == 28
  {
    var p1, p2 := Point(28, 10), Point(10, 20);
    assert ManhattanDist(p1, p2) == BestRoute(p1, p2, CrossAislesY);
    assert CrossAislesY[1..] == [10, 20] && [10, 20][1..] == [20];
    assert BestRoute(p1, p2, [20]) == 28;
    assert BestRoute(p1, p2, [10, 20]) == 28;
  }
}
