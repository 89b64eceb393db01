/** The tables that flow between the components of the warehouse twin, as
    records: layout nodes and bins, SKUs, order lines, allocation rows and the
    per-order KPI rows, plus the layout constants shared by the components. */
module Records {

  datatype Option<T> = None | Some(value: T)

  datatype Result<T> = Success(value: T) | Failure(error: string)

  /** A planar warehouse coordinate: x is the aisle column, y the depth. */
  datatype Point = Point(x: int, y: int)

  /** Zone A holds the pallet racks, zone B the manual shelving. */
  datatype Zone = A | B

  datatype BinKind = Rack | Shelf

  /** Performance class of a bin, by its distance to the nearest dock. */
  datatype Tier = Gold | Silver | Bronze

  /** A bin as the topology creates it (one entry of `self.nodes`). */
  datatype Node = Node(binId: string, x: int, y: int, z: int, zone: Zone, aisleId: string, kind: BinKind)

  /** A loading dock. */
  datatype Dock = Dock(dockId: string, x: int, y: int, z: int)

  /** A row of the layout table: a node with its derived distance to the
      nearest dock (metres) and its tier (`zone_class`). */
  datatype Bin = Bin(binId: string, x: int, y: int, z: int, zone: Zone, aisleId: string, kind: BinKind,
                     distanceToDock: int, tier: Tier)
  {
    function Location(): Point { Point(x, y) }
  }

  /** A row of the SKU master table. */
  datatype Sku = Sku(skuId: string, popularity: real, unitsPerPallet: nat, palletWeight: real, category: string)

  datatype Wave = Morning | Afternoon

  /** One order line (one row of the order table). */
  datatype OrderLine = OrderLine(orderId: string, day: int, wave: Wave, skuId: string, quantity: nat)

  /** A row of a placement table. The greedy allocator fills `binCost`; the
      optimizer's output table has no such column (`None`). */
  datatype Allocation = Allocation(skuId: string, binId: string, skuEffort: real, binCost: Option<real>)

  /** The per-order KPI row written by the simulator. */
  datatype Kpi = Kpi(orderId: string, assignedDock: string, distRnd: real, distOpt: int,
                     timeRnd: real, timeOpt: real, wave: Wave)

  function Abs(a: int): nat {
    if a < 0 then -a else a
  }

  /** Depth rows at which a vehicle may change aisle column. */
  const CrossAislesY: seq<int> := [0, 10, 20]

  /** Order-line sku ids, in order. */
  function SkuIds(orders: seq<OrderLine>): (ids: seq<string>)
    ensures |ids| == |orders|
    ensures forall i :: 0 <= i < |orders| ==> ids[i] == orders[i].skuId
  {
    if orders == [] then [] else SkuIds(orders[..|orders| - 1]) + [orders[|orders| - 1].skuId]
  }

  /** Order-line order ids, in order. */
  function OrderIds(orders: seq<OrderLine>): (ids: seq<string>)
    ensures |ids| == |orders|
    ensures forall i :: 0 <= i < |orders| ==> ids[i] == orders[i].orderId
  {
    if orders == [] then [] else OrderIds(orders[..|orders| - 1]) + [orders[|orders| - 1].orderId]
  }
}
