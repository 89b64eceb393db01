/** The static warehouse layout (`WarehouseTopology` in src/data_engine.py):
    three pallet-rack aisles and three shelving aisles of bins, the cross-aisle
    rows, five docks on the x = 30 wall, each bin's distance to the nearest
    dock and its performance tier. */
module Topology {

  import opened Records
  import opened Text

  /** One aisle of bins as the build loops see it: its id, column and zone. */
  datatype AisleSpec = AisleSpec(aisleId: string, x: int, zone: Zone, kind: BinKind)

  const RackXs: seq<int> := [10, 14, 18]
  const ShelvingXs: seq<int> := [22, 24, 26]
  /** Rack aisles have depth rows 0..20, shelving aisles 0..10. */
  const RackDepth: nat := 21
  const ShelvingDepth: nat := 11
  /** Every depth row has levels 1..5. */
  const Levels: nat := 5
  const DockX: int := 30
  const DockYs: seq<int> := [20, 15, 10, 5, 0]

  /** `f"R{i+1}"` / `f"S{i+1}"` */
  function AisleId(prefix: char, i: nat): string {
    [prefix] + NatToString(i + 1)
  }

  /** `f"{aisle_id}_{y}_{z}"` */
  function BinId(aisleId: string, y: nat, z: nat): string {
    aisleId + "_" + NatToString(y) + "_" + NatToString(z)
  }

  /** The aisles of one zone, numbered from 1 in column order. */
  function ZoneAisles(prefix: char, xs: seq<int>, zone: Zone, kind: BinKind): (r: seq<AisleSpec>)
    ensures |r| == |xs|
    ensures forall i :: 0 <= i < |xs| ==> r[i] == AisleSpec(AisleId(prefix, i), xs[i], zone, kind)
  {
    seq(|xs|, i requires 0 <= i < |xs| => AisleSpec(AisleId(prefix, i), xs[i], zone, kind))
  }

  function RackAisles(): seq<AisleSpec> { ZoneAisles('R', RackXs, A, Rack) }
  function ShelvingAisles(): seq<AisleSpec> { ZoneAisles('S', ShelvingXs, B, Shelf) }

  function MakeNode(a: AisleSpec, y: nat, z: nat): Node {
    Node(BinId(a.aisleId, y, z), a.x, y, z, a.zone, a.aisleId, a.kind)
  }

  /** Levels 1..n of depth row y of aisle a (the innermost build loop). */
  function LevelNodes(a: AisleSpec, y: nat, n: nat): (r: seq<Node>)
    ensures |r| == n
    ensures forall k :: 0 <= k < n ==> r[k] == MakeNode(a, y, k + 1)
  {
    if n == 0 then [] else LevelNodes(a, y, n - 1) + [MakeNode(a, y, n)]
  }

  /** Depth rows 0..m-1 of aisle a, each with all its levels. */
  function RowNodes(a: AisleSpec, m: nat): seq<Node> {
    if m == 0 then [] else RowNodes(a, m - 1) + LevelNodes(a, m - 1, Levels)
  }

  /** All bins of the given aisles, aisle after aisle. */
  function ZoneNodes(aisles: seq<AisleSpec>, depth: nat): seq<Node> {
    if aisles == [] then []
    else ZoneNodes(aisles[..|aisles| - 1], depth) + RowNodes(aisles[|aisles| - 1], depth)
  }

  /** An aisle's rows hold five bins per depth row, each at a depth row below
      m and a level 1..5 of that aisle. */
  lemma {:induction false} RowNodesShape(a: AisleSpec, m: nat)
    ensures |RowNodes(a, m)| == Levels * m
    ensures forall k :: 0 <= k < |RowNodes(a, m)| ==>
      0 <= RowNodes(a, m)[k].y < m && 1 <= RowNodes(a, m)[k].z <= Levels &&
      RowNodes(a, m)[k] == MakeNode(a, RowNodes(a, m)[k].y, RowNodes(a, m)[k].z)
  {
    if m > 0 {
      RowNodesShape(a, m - 1);
      var front, back := RowNodes(a, m - 1), LevelNodes(a, m - 1, Levels);
      var r := front + back;
      assert RowNodes(a, m) == r;
      forall k | 0 <= k < |r|
        ensures 0 <= r[k].y < m && 1 <= r[k].z <= Levels && r[k] == MakeNode(a, r[k].y, r[k].z)
      {
        if k < |front| {
          assert r[k] == front[k];
        } else {
          assert r[k] == back[k - |front|];
        }
      }
    }
  }

  /** A zone holds |aisles| x depth x 5 bins. */
  lemma {:induction false} ZoneNodesLength(aisles: seq<AisleSpec>, depth: nat)
    ensures |ZoneNodes(aisles, depth)| == |aisles| * (Levels * depth)
  {
    if aisles != [] {
      var last := |aisles| - 1;
      ZoneNodesLength(aisles[..last], depth);
      RowNodesShape(aisles[last], depth);
      MulStep(last, Levels * depth);
    }
  }

  lemma MulStep(n: nat, w: nat)
    ensures (n + 1) * w == n * w + w
  {
  }

  /** Every bin of a zone lies at a depth row below `depth` and a level 1..5
      of one of its aisles. */
  lemma {:induction false} ZoneNodesShape(aisles: seq<AisleSpec>, depth: nat)
    ensures forall k :: 0 <= k < |ZoneNodes(aisles, depth)| ==> ZoneNodeAt(ZoneNodes(aisles, depth)[k], aisles, depth)
  {
    if aisles != [] {
      var last := |aisles| - 1;
      var init := aisles[..last];
      ZoneNodesShape(init, depth);
      RowNodesShape(aisles[last], depth);
      var front, back := ZoneNodes(init, depth), RowNodes(aisles[last], depth);
      assert ZoneNodes(aisles, depth) == front + back;
      forall k | 0 <= k < |front| + |back| ensures ZoneNodeAt((front + back)[k], aisles, depth) {
        if k < |front| {
          ZoneNodeAtWider(front[k], init, aisles, depth);
        } else {
          assert back[k - |front|] == MakeNode(aisles[last], back[k - |front|].y, back[k - |front|].z);
        }
      }
    }
  }

  lemma ZoneNodeAtWider(n: Node, init: seq<AisleSpec>, aisles: seq<AisleSpec>, depth: nat)
    requires |init| <= |aisles| && init == aisles[..|init|] && ZoneNodeAt(n, init, depth)
    ensures ZoneNodeAt(n, aisles, depth)
  {
    var i :| 0 <= i < |init| && n == MakeNode(init[i], n.y, n.z);
    assert init[i] == aisles[i];
  }

  /** `n` is the bin of one of the aisles at a depth row below `depth` and
      a level 1..5. */
  ghost predicate ZoneNodeAt(n: Node, aisles: seq<AisleSpec>, depth: nat) {
    0 <= n.y < depth && 1 <= n.z <= Levels &&
    exists i :: 0 <= i < |aisles| && n == MakeNode(aisles[i], n.y, n.z)
  }

  /** One more aisle of the prefix appends that aisle's rows. */
  lemma ZoneNodesPrefixStep(aisles: seq<AisleSpec>, i: nat, depth: nat)
    requires i < |aisles|
    ensures ZoneNodes(aisles[..i + 1], depth) == ZoneNodes(aisles[..i], depth) + RowNodes(aisles[i], depth)
  {
    assert aisles[..i + 1][..i] == aisles[..i];
  }

  lemma ZoneNodesWhole(aisles: seq<AisleSpec>, depth: nat)
    ensures ZoneNodes(aisles[..|aisles|], depth) == ZoneNodes(aisles, depth)
  {
    assert aisles[..|aisles|] == aisles;
  }

  /** The bins in the order `_build_topology` appends them. */
  function AllNodes(): seq<Node> {
    ZoneNodes(RackAisles(), RackDepth) + ZoneNodes(ShelvingAisles(), ShelvingDepth)
  }

  /** Appending the rack zone, then the shelving zone, appends all bins. */
  lemma AllNodesByZone(start: seq<Node>)
    ensures start + ZoneNodes(RackAisles(), RackDepth) + ZoneNodes(ShelvingAisles(), ShelvingDepth) ==
      start + AllNodes()
  {
  }

  // ----- facts about the layout the build loops produce -----

  /** 3 x 21 x 5 = 315 rack bins and 3 x 11 x 5 = 165 shelving bins. */
  lemma TopologyCounts()
    ensures |ZoneNodes(RackAisles(), RackDepth)| == 315
    ensures |ZoneNodes(ShelvingAisles(), ShelvingDepth)| == 165
    ensures |AllNodes()| == 480
  {
    ZoneNodesLength(RackAisles(), RackDepth);
    ZoneNodesLength(ShelvingAisles(), ShelvingDepth);
  }

  /** Every bin of a zone sits in one of its aisles, at a depth row of the
      zone and a level 1..5. */
  lemma ZoneNodeShape(aisles: seq<AisleSpec>, depth: nat, n: Node)
    requires n in ZoneNodes(aisles, depth)
    ensures 0 <= n.y < depth && 1 <= n.z <= Levels
    ensures exists i :: 0 <= i < |aisles| && n == MakeNode(aisles[i], n.y, n.z)
  {
    var r := ZoneNodes(aisles, depth);
    ZoneNodesShape(aisles, depth);
    var k :| 0 <= k < |r| && r[k] == n;
    assert ZoneNodeAt(r[k], aisles, depth);
  }

  /** Every (aisle, depth row, level) position of a zone holds a bin. */
  lemma {:induction false} ZoneNodesCover(aisles: seq<AisleSpec>, depth: nat, i: nat, y: nat, z: nat)
    requires i < |aisles| && y < depth && 1 <= z <= Levels
    ensures MakeNode(aisles[i], y, z) in ZoneNodes(aisles, depth)
  {
    var last := |aisles| - 1;
    if i == last {
      RowNodesCover(aisles[last], depth, y, z);
    } else {
      assert aisles[..last][i] == aisles[i];
      ZoneNodesCover(aisles[..last], depth, i, y, z);
    }
  }

  lemma {:induction false} RowNodesCover(a: AisleSpec, m: nat, y: nat, z: nat)
    requires y < m && 1 <= z <= Levels
    ensures MakeNode(a, y, z) in RowNodes(a, m)
  {
    if y == m - 1 {
      assert LevelNodes(a, y, Levels)[z - 1] == MakeNode(a, y, z);
    } else {
      RowNodesCover(a, m - 1, y, z);
    }
  }

  /** Where the bins are: every bin is at a level 1..5; rack bins are in
      columns 10, 14, 18 at depths 0..20 in zone A; shelving bins in columns
      22, 24, 26 at depths 0..10 in zone B; and each id is
      `<aisle>_<y>_<z>`. */
  lemma AllNodesCoordinates(n: Node)
    requires n in AllNodes()
    ensures 0 <= n.y && 1 <= n.z <= 5
    ensures n.binId == BinId(n.aisleId, n.y, n.z)
    ensures n.kind == Rack ==> n.x in RackXs && n.y <= 20 && n.zone == A
    ensures n.kind == Shelf ==> n.x in ShelvingXs && n.y <= 10 && n.zone == B
  {
    if n in ZoneNodes(RackAisles(), RackDepth) {
      ZoneNodeShape(RackAisles(), RackDepth, n);
    } else {
      ZoneNodeShape(ShelvingAisles(), ShelvingDepth, n);
    }
  }

  /** Conversely, every rack position (column index i, depth 0..20, level
      1..5) and every shelving position (depth 0..10) holds a bin. */
  lemma AllNodesCover(i: nat, y: nat, z: nat)
    requires i < 3 && 1 <= z <= 5
    ensures y <= 20 ==> MakeNode(RackAisles()[i], y, z) in AllNodes()
    ensures y <= 10 ==> MakeNode(ShelvingAisles()[i], y, z) in AllNodes()
  {
    if y <= 20 {
      ZoneNodesCover(RackAisles(), RackDepth, i, y, z);
    }
    if y <= 10 {
      ZoneNodesCover(ShelvingAisles(), ShelvingDepth, i, y, z);
    }
  }

  /** No two entries share a bin id. */
  ghost predicate UniqueBinIds(nodes: seq<Node>) {
    forall i, j :: 0 <= i < j < |nodes| ==> nodes[i].binId != nodes[j].binId
  }

  /** `<aisle>_<y>_<z>` determines aisle, y and z when the aisle id has no '_'. */
  lemma BinIdInjective(a1: string, y1: nat, z1: nat, a2: string, y2: nat, z2: nat)
    requires '_' !in a1 && '_' !in a2
    requires BinId(a1, y1, z1) == BinId(a2, y2, z2)
    ensures a1 == a2 && y1 == y2 && z1 == z2
  {
    var ys1, zs1, ys2, zs2 := NatToString(y1), NatToString(z1), NatToString(y2), NatToString(z2);
    assert BinId(a1, y1, z1) == a1 + ['_'] + (ys1 + ['_'] + zs1);
    assert BinId(a2, y2, z2) == a2 + ['_'] + (ys2 + ['_'] + zs2);
    SplitAtSeparator(a1, ys1 + ['_'] + zs1, a2, ys2 + ['_'] + zs2, '_');
    NoUnderscoreInNumber(y1);
    NoUnderscoreInNumber(y2);
    SplitAtSeparator(ys1, zs1, ys2, zs2, '_');
    NatToStringInjective(y1, y2);
    NatToStringInjective(z1, z2);
  }

  /** Aisle ids are `<prefix><number>`: no '_' and different for different
      prefixes or numbers. */
  lemma AisleIdFacts(p1: char, i1: nat, p2: char, i2: nat)
    requires p1 != '_'
    ensures '_' !in AisleId(p1, i1)
    ensures AisleId(p1, i1) == AisleId(p2, i2) ==> p1 == p2 && i1 == i2
  {
    NoUnderscoreInNumber(i1 + 1);
    if AisleId(p1, i1) == AisleId(p2, i2) {
      assert AisleId(p1, i1)[1..] == NatToString(i1 + 1);
      assert AisleId(p2, i2)[1..] == NatToString(i2 + 1);
      NatToStringInjective(i1 + 1, i2 + 1);
    }
  }

  /** Aisle ids without '_', pairwise different. */
  ghost predicate DistinctAisleIds(aisles: seq<AisleSpec>) {
    && (forall i :: 0 <= i < |aisles| ==> '_' !in aisles[i].aisleId)
    && (forall i, j :: 0 <= i < j < |aisles| ==> aisles[i].aisleId != aisles[j].aisleId)
  }

  lemma ZoneAislesDistinct(prefix: char, xs: seq<int>, zone: Zone, kind: BinKind)
    requires prefix != '_'
    ensures DistinctAisleIds(ZoneAisles(prefix, xs, zone, kind))
  {
    var r := ZoneAisles(prefix, xs, zone, kind);
    forall i | 0 <= i < |r| ensures '_' !in r[i].aisleId {
      AisleIdFacts(prefix, i, prefix, i);
    }
    forall i, j | 0 <= i < j < |r| ensures r[i].aisleId != r[j].aisleId {
      AisleIdFacts(prefix, i, prefix, j);
    }
  }

  lemma LevelNodesUnique(a: AisleSpec, y: nat, n: nat)
    requires '_' !in a.aisleId
    ensures UniqueBinIds(LevelNodes(a, y, n))
  {
    var r := LevelNodes(a, y, n);
    forall i, j | 0 <= i < j < |r| ensures r[i].binId != r[j].binId {
      if r[i].binId == r[j].binId {
        BinIdInjective(a.aisleId, y, i + 1, a.aisleId, y, j + 1);
      }
    }
  }

  lemma {:induction false} RowNodesUnique(a: AisleSpec, m: nat)
    requires '_' !in a.aisleId
    ensures UniqueBinIds(RowNodes(a, m))
  {
    if m > 0 {
      var front, back := RowNodes(a, m - 1), LevelNodes(a, m - 1, Levels);
      RowNodesUnique(a, m - 1);
      RowNodesShape(a, m - 1);
      LevelNodesUnique(a, m - 1, Levels);
      forall i, j | 0 <= i < |front| && 0 <= j < |back| ensures front[i].binId != back[j].binId {
        var u, v := front[i], back[j];
        if u.binId == v.binId {
          BinIdInjective(a.aisleId, u.y, u.z, a.aisleId, m - 1, j + 1);
        }
      }
      UniqueConcat(front, back);
    }
  }

  lemma {:induction false} ZoneNodesUnique(aisles: seq<AisleSpec>, depth: nat)
    requires DistinctAisleIds(aisles)
    ensures UniqueBinIds(ZoneNodes(aisles, depth))
  {
    if aisles != [] {
      var last := |aisles| - 1;
      var init := aisles[..last];
      var front, back := ZoneNodes(init, depth), RowNodes(aisles[last], depth);
      ZoneNodesUnique(init, depth);
      RowNodesUnique(aisles[last], depth);
      ZoneNodesShape(init, depth);
      RowNodesShape(aisles[last], depth);
      forall i, j | 0 <= i < |front| && 0 <= j < |back| ensures front[i].binId != back[j].binId {
        var u, v := front[i], back[j];
        assert ZoneNodeAt(u, init, depth);
        var k :| 0 <= k < |init| && u == MakeNode(init[k], u.y, u.z);
        if u.binId == v.binId {
          BinIdInjective(init[k].aisleId, u.y, u.z, aisles[last].aisleId, v.y, v.z);
        }
      }
      UniqueConcat(front, back);
    }
  }

  lemma UniqueConcat(front: seq<Node>, back: seq<Node>)
    requires UniqueBinIds(front) && UniqueBinIds(back)
    requires forall i, j :: 0 <= i < |front| && 0 <= j < |back| ==> front[i].binId != back[j].binId
    ensures UniqueBinIds(front + back)
  {
    var s := front + back;
    forall i, j | 0 <= i < j < |s| ensures s[i].binId != s[j].binId {
      if j < |front| {
        assert s[i] == front[i] && s[j] == front[j];
      } else if i >= |front| {
        assert s[i] == back[i - |front|] && s[j] == back[j - |front|];
      } else {
        assert s[i] == front[i] && s[j] == back[j - |front|];
      }
    }
  }

  /** Bin ids `<aisle>_<y>_<z>` are pairwise distinct over the whole layout. */
  lemma AllNodesUniqueIds()
    ensures UniqueBinIds(AllNodes())
  {
    var racks, shelves := RackAisles(), ShelvingAisles();
    ZoneAislesDistinct('R', RackXs, A, Rack);
    ZoneAislesDistinct('S', ShelvingXs, B, Shelf);
    var front, back := ZoneNodes(racks, RackDepth), ZoneNodes(shelves, ShelvingDepth);
    ZoneNodesUnique(racks, RackDepth);
    ZoneNodesUnique(shelves, ShelvingDepth);
    ZoneNodesShape(racks, RackDepth);
    ZoneNodesShape(shelves, ShelvingDepth);
    forall i, j | 0 <= i < |front| && 0 <= j < |back| ensures front[i].binId != back[j].binId {
      CrossZoneDistinct(front[i], back[j]);
    }
    UniqueConcat(front, back);
  }

  /** A rack bin and a shelving bin never share an id. */
  lemma CrossZoneDistinct(u: Node, v: Node)
    requires ZoneNodeAt(u, RackAisles(), RackDepth) && ZoneNodeAt(v, ShelvingAisles(), ShelvingDepth)
    ensures u.binId != v.binId
  {
    var racks, shelves := RackAisles(), ShelvingAisles();
    var k :| 0 <= k < |racks| && u == MakeNode(racks[k], u.y, u.z);
    var l :| 0 <= l < |shelves| && v == MakeNode(shelves[l], v.y, v.z);
    AisleIdFacts('R', k, 'S', l);
    if u.binId == v.binId {
      BinIdInjective(racks[k].aisleId, u.y, u.z, shelves[l].aisleId, v.y, v.z);
    }
  }

  /** `DOCK_1` .. `DOCK_k`, all on the x = 30 wall at level 1. */
  function DockList(k: nat): (r: seq<Dock>)
    requires k <= |DockYs|
    ensures |r| == k
    ensures forall j :: 0 <= j < k ==> r[j] == Dock("DOCK_" + NatToString(j + 1), DockX, DockYs[j], 1)
  {
    if k == 0 then [] else DockList(k - 1) + [Dock("DOCK_" + NatToString(k), DockX, DockYs[k - 1], 1)]
  }

  function Docks(): seq<Dock> { DockList(|DockYs|) }

  function DockDistance(d: Dock, x: int, y: int): nat {
    Abs(x - d.x) + Abs(y - d.y)
  }

  /** `d` is the distance from (x, y) to one of the docks, and no dock is
      nearer. */
  ghost predicate IsNearest(docks: seq<Dock>, x: int, y: int, d: nat) {
    && (forall k :: 0 <= k < |docks| ==> d <= DockDistance(docks[k], x, y))
    && (exists k :: 0 <= k < |docks| && d == DockDistance(docks[k], x, y))
  }

  /** The running minimum of `calculate_distance_to_dock`'s loop. */
  function NearestDockDistance(docks: seq<Dock>, x: int, y: int): (r: nat)
    requires |docks| > 0
    ensures IsNearest(docks, x, y, r)
  {
    if |docks| == 1 then DockDistance(docks[0], x, y)
    else
      var best := NearestDockDistance(docks[..|docks| - 1], x, y);
      var here := DockDistance(docks[|docks| - 1], x, y);
      assert forall k :: 0 <= k < |docks| - 1 ==> docks[k] == docks[..|docks| - 1][k];
      if here < best then here else best
  }

  /** The running minimum after the first k docks; `None` before any. */
  function BestSoFar(docks: seq<Dock>, k: nat, x: int, y: int): Option<nat>
    requires k <= |docks|
  {
    if k == 0 then None else Some(NearestDockDistance(docks[..k], x, y))
  }

  /** One more dock: the running minimum takes it when there is none yet or
      when it is strictly nearer. */
  lemma BestSoFarStep(docks: seq<Dock>, k: nat, x: int, y: int)
    requires k < |docks|
    ensures var d, m := DockDistance(docks[k], x, y), BestSoFar(docks, k, x, y);
      BestSoFar(docks, k + 1, x, y) == if m.None? || d < m.value then Some(d) else m
  {
    assert docks[..k + 1][..k] == docks[..k];
  }

  /** After all docks, the running minimum is the nearest-dock distance. */
  lemma BestSoFarAll(docks: seq<Dock>, x: int, y: int)
    ensures BestSoFar(docks, |docks|, x, y) == if docks == [] then None else Some(NearestDockDistance(docks, x, y))
  {
    assert docks[..|docks|] == docks;
  }

  /** Distance in depth from row y to the nearest dock row (a multiple of 5
      between 0 and 20). */
  function GapToDockRow(y: int): nat {
    if y <= 0 then -y
    else if y >= 20 then y - 20
    else if y % 5 <= 2 then y % 5
    else 5 - y % 5
  }

  /** No dock row 5j is nearer to y than the gap. */
  lemma GapIsLowerBound(y: int, j: int)
    requires 0 <= j <= 4
    ensures Abs(y - 5 * j) >= GapToDockRow(y)
  {
    var q, m := y / 5, y % 5;
    assert y == 5 * q + m && 0 <= m < 5;
  }

  /** The dock row nearest to y. */
  function NearestDockRow(y: int): (j: nat)
    ensures j <= 4 && Abs(y - 5 * j) == GapToDockRow(y)
  {
    var q, m := y / 5, y % 5;
    assert y == 5 * q + m && 0 <= m < 5;
    if y <= 0 then 0 else if y >= 20 then 4 else if m <= 2 then q else q + 1
  }

  /** The nearest-dock distance in closed form: the distance to the dock wall
      plus the depth gap to the nearest dock row. */
  lemma NearestDockClosedForm(x: int, y: int)
    ensures NearestDockDistance(Docks(), x, y) == Abs(x - DockX) + GapToDockRow(y)
  {
    NearestDockLower(x, y);
    NearestDockUpper(x, y);
  }

  /** No dock is nearer than the closed form. */
  lemma NearestDockLower(x: int, y: int)
    ensures NearestDockDistance(Docks(), x, y) >= Abs(x - DockX) + GapToDockRow(y)
  {
    var docks := Docks();
    var k :| 0 <= k < |docks| && NearestDockDistance(docks, x, y) == DockDistance(docks[k], x, y);
    DockDistanceAt(x, y, k);
    GapIsLowerBound(y, 4 - k);
  }

  /** The dock on the nearest dock row is as near as the closed form. */
  lemma NearestDockUpper(x: int, y: int)
    ensures NearestDockDistance(Docks(), x, y) <= Abs(x - DockX) + GapToDockRow(y)
  {
    var j := NearestDockRow(y);
    DockDistanceAt(x, y, 4 - j);
  }

  /** The distance from (x, y) to the k-th dock. */
  lemma DockDistanceAt(x: int, y: int, k: nat)
    requires k < 5
    ensures |Docks()| == 5
    ensures DockDistance(Docks()[k], x, y) == Abs(x - DockX) + Abs(y - 5 * (4 - k))
  {
    DocksShape();
  }

  /** Five docks on the x = 30 wall, at rows 20, 15, 10, 5 and 0. */
  lemma DocksShape()
    ensures |Docks()| == 5
    ensures forall k :: 0 <= k < 5 ==> Docks()[k].x == DockX && Docks()[k].y == 5 * (4 - k)
  {
  }

  /** For a bin in front of the dock wall and within the dock rows, the
      distance to the nearest dock lies between 30 - x and 30 - x + 2. */
  lemma LayoutDockDistanceBounds(x: int, y: int)
    requires x <= DockX && 0 <= y <= 20
    ensures DockX - x <= NearestDockDistance(Docks(), x, y) <= DockX - x + 2
  {
    NearestDockClosedForm(x, y);
  }

  /** `classify_bin`: Gold below 10 m, Silver below 18 m, Bronze otherwise. */
  function ClassifyBin(dist: int): Tier {
    if dist < 10 then Gold else if dist < 18 then Silver else Bronze
  }

  function TierRank(t: Tier): nat {
    match t
    case Gold => 0
    case Silver => 1
    case Bronze => 2
  }

  /** A bin closer to the docks never gets a worse tier. */
  lemma ClassifyMonotone(d1: int, d2: int)
    requires d1 <= d2
    ensures TierRank(ClassifyBin(d1)) <= TierRank(ClassifyBin(d2))
  {
  }

  /** The layout row of every bin of the warehouse: its distance is
      `30 - x` plus the depth gap to the nearest dock row, so the first rack
      column (x = 10) is all Bronze, the third (x = 18) all Silver and the
      two outer shelving columns (x = 24, 26) all Gold. */
  lemma LayoutBinData(n: Node)
    requires n in AllNodes()
    ensures NodeData(n, Docks()).distanceToDock == DockX - n.x + GapToDockRow(n.y)
    ensures n.x == 10 ==> NodeData(n, Docks()).tier == Bronze
    ensures n.x == 18 ==> NodeData(n, Docks()).tier == Silver
    ensures n.x >= 24 ==> NodeData(n, Docks()).tier == Gold
  {
    AllNodesCoordinates(n);
    LayoutDockDistanceBounds(n.x, n.y);
    NearestDockClosedForm(n.x, n.y);
  }

  /** A node as a layout row: its distance to the nearest dock and its tier. */
  function NodeData(n: Node, docks: seq<Dock>): (b: Bin)
    requires |docks| > 0
  {
    var d := NearestDockDistance(docks, n.x, n.y);
    Bin(n.binId, n.x, n.y, n.z, n.zone, n.aisleId, n.kind, d, ClassifyBin(d))
  }

  function NodesData(nodes: seq<Node>, docks: seq<Dock>): (bins: seq<Bin>)
    requires |docks| > 0
    ensures |bins| == |nodes|
    ensures forall i :: 0 <= i < |nodes| ==> bins[i] == NodeData(nodes[i], docks)
  {
    seq(|nodes|, i requires 0 <= i < |nodes| => NodeData(nodes[i], docks))
  }

  class WarehouseTopology {
    var nodes: seq<Node>
    var crossAislesY: seq<int>
    var dockPositions: seq<Dock>

    /** What the constructor establishes and nothing afterwards changes. */
    ghost predicate Valid()
      reads this
    {
      nodes == AllNodes() && crossAislesY == CrossAislesY && dockPositions == Docks()
    }

    constructor ()
      ensures Valid()
    {
      nodes := [];
      crossAislesY := [];
      dockPositions := [];
      new;
      BuildTopology();
    }

    /** `_build_topology`: appends the bins of the rack zone, then those of
        the shelving zone, then sets the cross-aisle rows and the docks. */
    method BuildTopology()
      modifies this
      ensures nodes == old(nodes) + AllNodes()
      ensures crossAislesY == CrossAislesY && dockPositions == Docks()
    {
      BuildBins();
      crossAislesY := CrossAislesY;
      BuildDocks();
    }

    /** The two zone loops of `_build_topology`: rack aisles first, then
        shelving aisles. */
    method BuildBins()
      modifies this`nodes
      ensures nodes == old(nodes) + AllNodes()
    {
      var racks, shelves := RackAisles(), ShelvingAisles();
      ghost var start := nodes;
      AppendZone(racks, RackDepth);
      AppendZone(shelves, ShelvingDepth);
      AllNodesByZone(start);
    }

    /** The dock loop of `_build_topology`: one dock per entry of the dock
        y list, numbered from 1, on column 30 at level 1. */
    method BuildDocks()
      modifies this`dockPositions
      ensures dockPositions == Docks()
    {
      dockPositions := [];
      for i := 0 to |DockYs|
        invariant dockPositions == DockList(i)
      {
        dockPositions := dockPositions + [Dock("DOCK_" + NatToString(i + 1), DockX, DockYs[i], 1)];
      }
    }

    /** The triple loop `_build_topology` runs for each zone: for each aisle,
        each depth row and each level 1..5, append one bin. */
    method AppendZone(aisles: seq<AisleSpec>, depth: nat)
      modifies this`nodes
      ensures nodes == old(nodes) + ZoneNodes(aisles, depth)
    {
      ghost var start := nodes;
      for i := 0 to |aisles|
        invariant nodes == start + ZoneNodes(aisles[..i], depth)
      {
        AppendAisle(aisles[i], depth);
        ZoneNodesPrefixStep(aisles, i, depth);
      }
      ZoneNodesWhole(aisles, depth);
    }

    /** The two inner loops for one aisle: each depth row, each level. */
    method AppendAisle(aisle: AisleSpec, depth: nat)
      modifies this`nodes
      ensures nodes == old(nodes) + RowNodes(aisle, depth)
    {
      for y := 0 to depth
        invariant nodes == old(nodes) + RowNodes(aisle, y)
      {
        AppendLevels(aisle, y);
        assert RowNodes(aisle, y + 1) == RowNodes(aisle, y) + LevelNodes(aisle, y, Levels);
      }
    }

    /** The innermost loop: levels 1..5 of one depth row. */
    method AppendLevels(aisle: AisleSpec, y: nat)
      modifies this`nodes
      ensures nodes == old(nodes) + LevelNodes(aisle, y, Levels)
    {
      for z := 1 to Levels + 1
        invariant nodes == old(nodes) + LevelNodes(aisle, y, z - 1)
      {
        nodes := nodes + [MakeNode(aisle, y, z)];
      }
    }

    /** `calculate_distance_to_dock`: the Manhattan distance from (x, y) to
        the nearest dock; `None` stands for the `float('inf')` returned when
        there is no dock. */
    method CalculateDistanceToDock(x: int, y: int) returns (minDist: Option<nat>)
      ensures |dockPositions| == 0 ==> minDist == None
      ensures |dockPositions| > 0 ==> minDist.Some? && IsNearest(dockPositions, x, y, minDist.value)
      ensures |dockPositions| > 0 ==> minDist == Some(NearestDockDistance(dockPositions, x, y))
    {
      var docks := dockPositions;
      minDist := None;
      for k := 0 to |docks|
        invariant minDist == BestSoFar(docks, k, x, y)
      {
        var dock := docks[k];
        var dist := Abs(x - dock.x) + Abs(y - dock.y);
        BestSoFarStep(docks, k, x, y);
        if minDist.None? || dist < minDist.value {
          minDist := Some(dist);
        }
      }
      BestSoFarAll(docks, x, y);
    }

    /** `get_all_nodes_data`: the layout table, one row per node. */
    function GetAllNodesData(): (bins: seq<Bin>)
      reads this
      requires |dockPositions| > 0
      ensures |bins| == |nodes|
      ensures forall i :: 0 <= i < |bins| ==>
        bins[i].binId == nodes[i].binId && bins[i].x == nodes[i].x && bins[i].y == nodes[i].y &&
        bins[i].z == nodes[i].z && bins[i].zone == nodes[i].zone && bins[i].aisleId == nodes[i].aisleId &&
        bins[i].kind == nodes[i].kind && bins[i].tier == ClassifyBin(bins[i].distanceToDock) &&
        bins[i].distanceToDock == NearestDockDistance(dockPositions, nodes[i].x, nodes[i].y)
    {
      NodesData(nodes, dockPositions)
    }
  }

  /** The layout table of a built topology: 480 rows with pairwise distinct
      bin ids, each row the node of the same position with its nearest-dock
      distance in closed form and the tier of that distance. */
  lemma BuiltLayoutTable(t: WarehouseTopology)
    requires t.Valid()
    ensures |t.GetAllNodesData()| == 480
    ensures forall i, j :: 0 <= i < j < |t.GetAllNodesData()| ==>
      t.GetAllNodesData()[i].binId != t.GetAllNodesData()[j].binId
    ensures forall i :: 0 <= i < |t.GetAllNodesData()| ==>
      t.GetAllNodesData()[i].distanceToDock == DockX - t.nodes[i].x + GapToDockRow(t.nodes[i].y)
  {
    TopologyCounts();
    AllNodesUniqueIds();
    var bins := t.GetAllNodesData();
    forall i | 0 <= i < |bins|
      ensures bins[i].distanceToDock == DockX - t.nodes[i].x + GapToDockRow(t.nodes[i].y)
    {
      BuiltRowDistance(t.nodes, t.dockPositions, i);
    }
  }

  lemma BuiltRowDistance(nodes: seq<Node>, docks: seq<Dock>, i: nat)
    requires nodes == AllNodes() && docks == Docks() && i < |nodes|
    ensures NodeData(nodes[i], docks).distanceToDock == DockX - nodes[i].x + GapToDockRow(nodes[i].y)
  {
    LayoutBinData(nodes[i]);
  }
}
