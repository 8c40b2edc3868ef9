/**
 * The export records of a graph (the `_data` entries handed to the solver collaborator)
 * and the full-scan definition of the ArcProduct and arc collections that both graph
 * files must agree with.
 */
module Export {
  import opened Sampling
  import opened Topology

  const SalesPrice: int := 120
  const PlantCost: int := 2000
  const PlantCapacity: int := 5000

  datatype MaterialReqRow = MaterialReqRow(material: nat, value: nat)
  datatype ProbRow = ProbRow(scen: nat, value: real)
  datatype DemandRow = DemandRow(scen: nat, value: int)
  datatype ShipCostRow = ShipCostRow(start: nat, finish: nat, value: nat)
  /** An ArcProduct row; its `value` column is always 1 and is not stored. */
  datatype ArcProductRow = ArcProductRow(product: nat, start: nat, finish: nat)
  datatype ArcRow = ArcRow(start: nat, finish: nat)

  /** The scalar and array record sets of one exported instance. */
  datatype Data = Data(
    nrOfLocations: nat,
    nrOfProducts: nat,
    nrOfScen: nat,
    salesPrice: int,
    plantCost: int,
    plantCapacity: int,
    materialReq: seq<MaterialReqRow>,
    prob: seq<ProbRow>,
    demand: seq<DemandRow>,
    shipCost: seq<ShipCostRow>,
    arcProduct: seq<ArcProductRow>,
    arc: seq<ArcRow>)

  // ---------------------------------------------------------------- MaterialReq

  /** The largest material requirement drawn: math.floor(40 / num_products * 2). */
  function MaxMaterialRequirement(numProducts: nat): nat
    requires numProducts >= 1
  {
    80 / numProducts
  }

  /** One requirement per material 1..numProducts - 1, each drawn from 1..MaxMaterialRequirement. */
  ghost predicate RequirementsDrawn(reqs: seq<nat>, numProducts: nat) {
    && numProducts >= 1
    && |reqs| == numProducts - 1
    && (forall i :: 0 <= i < |reqs| ==> 1 <= reqs[i] <= MaxMaterialRequirement(numProducts))
  }

  /** Requirements drawn as above, and one MaterialReq row per material id carrying its requirement. */
  ghost predicate MaterialReqDrawn(reqs: seq<nat>, rows: seq<MaterialReqRow>, numProducts: nat) {
    && RequirementsDrawn(reqs, numProducts)
    && |rows| == numProducts - 1
    && (forall i :: 0 <= i < |rows| ==> rows[i] == MaterialReqRow(i + 1, reqs[i]))
  }

  /** One requirement per material, each a draw of random.randint(1, floor(40 / numProducts * 2)). */
  method DrawMaterialRequirements(numProducts: nat) returns (reqs: seq<nat>)
    requires 1 <= numProducts <= 80
    ensures RequirementsDrawn(reqs, numProducts)
  {
    reqs := [];
    while |reqs| < numProducts - 1
      invariant |reqs| <= numProducts - 1
      invariant forall i :: 0 <= i < |reqs| ==> 1 <= reqs[i] <= MaxMaterialRequirement(numProducts)
    {
      var k :| 1 <= k <= MaxMaterialRequirement(numProducts);
      reqs := reqs + [k];
    }
  }

  /**
   * The MaterialReq rows for the requirements: one row per material, the material ids being
   * exactly 1..|reqs| with none repeated, and the row of material m carrying reqs[m - 1].
   */
  function MaterialReqRows(reqs: seq<nat>): (rows: seq<MaterialReqRow>)
    ensures |rows| == |reqs|
    ensures (set r | r in rows :: r.material) == Interval(1, |reqs| + 1)
    ensures forall i, j :: 0 <= i < j < |rows| ==> rows[i].material != rows[j].material
    ensures forall r :: r in rows ==> 1 <= r.material <= |reqs| && r.value == reqs[r.material - 1]
  {
    var rows := seq(|reqs|, i requires 0 <= i < |reqs| => MaterialReqRow(i + 1, reqs[i]));
    var ids := set r | r in rows :: r.material;
    forall m | 1 <= m <= |reqs| ensures m in ids {
      assert rows[m - 1] in rows;
    }
    assert ids == Interval(1, |reqs| + 1);
    rows
  }

  // ---------------------------------------------------------------- ShipCost

  /** The ShipCost row add_route writes for r: its endpoints and its distance. */
  function ShipCostOf(r: Route): ShipCostRow
  {
    ShipCostRow(r.start, r.end, r.distance)
  }

  /** One ShipCost row per registered route, in registration order, carrying its distance. */
  ghost predicate ShipCostMatches(t: Network, rows: seq<ShipCostRow>) {
    && |rows| == |t.routeOrder|
    && forall i :: 0 <= i < |rows| ==> t.routeOrder[i] in t.routes && rows[i] == ShipCostOf(t.routes[t.routeOrder[i]])
  }

  lemma {:induction false} ShipCostAfterRoute(t: Network, rows: seq<ShipCostRow>, r: Route)
    requires ShipCostMatches(t, rows) && r.Key() !in t.routes
    ensures ShipCostMatches(WithRegisteredRoute(t, r), rows + [ShipCostOf(r)])
  {
    var t' := WithRegisteredRoute(t, r);
    forall i | 0 <= i < |rows| + 1
      ensures t'.routeOrder[i] in t'.routes && (rows + [ShipCostOf(r)])[i] == ShipCostOf(t'.routes[t'.routeOrder[i]])
    {
      if i < |rows| {
        assert t'.routeOrder[i] == t.routeOrder[i];
        assert t.routeOrder[i] != r.Key();
      }
    }
  }

  // ---------------------------------------------------------------- ArcProduct, full scan

  /** Product p can travel along the route: the end product goes anywhere, a material never to the market. */
  predicate ShipsAlong(t: Network, p: nat, finish: nat) {
    p == EndProduct(t) || finish != EndLocation(t)
  }

  /** The row stands for a registered route s -> f and a product produced at s that may travel on it. */
  ghost predicate IsRouteArcProduct(t: Network, row: ArcProductRow) {
    && (row.start, row.finish) in t.routes
    && row.start in t.products
    && row.product in t.products[row.start]
    && ShipsAlong(t, row.product, row.finish)
  }

  /** The row is the on-site consumption arc (m, l, l) of a material m at an end-product plant l. */
  ghost predicate IsSelfArcProduct(t: Network, row: ArcProductRow) {
    && row.start == row.finish
    && row.start in t.products
    && EndProduct(t) in t.products[row.start]
    && row.product in t.products[row.start]
    && row.product != EndProduct(t)
  }

  ghost predicate InArcProductScan(t: Network, row: ArcProductRow) {
    IsRouteArcProduct(t, row) || IsSelfArcProduct(t, row)
  }

  function ArcOf(row: ArcProductRow): ArcRow {
    ArcRow(row.start, row.finish)
  }

  /** The distinct (start, finish) pairs of a list of ArcProduct rows. */
  ghost function ArcsOf(rows: seq<ArcProductRow>): set<ArcRow> {
    set r | r in rows :: ArcOf(r)
  }

  lemma ArcsOfAppend(rows: seq<ArcProductRow>, row: ArcProductRow)
    ensures ArcsOf(rows + [row]) == ArcsOf(rows) + {ArcOf(row)}
  {
    assert row in rows + [row];
    forall a | a in ArcsOf(rows) ensures a in ArcsOf(rows + [row]) {
      var r :| r in rows && a == ArcOf(r);
      assert r in rows + [row];
    }
  }

  /** `arcs` lists each pair of `rows` exactly once. */
  ghost predicate ArcsMatch(rows: seq<ArcProductRow>, arcs: seq<ArcRow>) {
    Distinct(arcs) && forall a :: a in arcs <==> a in ArcsOf(rows)
  }

  /** Every cached row is one the full scan produces. */
  ghost predicate ArcCacheSound(t: Network, rows: seq<ArcProductRow>) {
    forall row :: row in rows ==> InArcProductScan(t, row)
  }

  /** Every route row of the full scan is cached. */
  ghost predicate ArcCacheCoversRoutes(t: Network, rows: seq<ArcProductRow>) {
    forall row :: IsRouteArcProduct(t, row) ==> row in rows
  }

  /** Every on-site consumption row of the full scan is cached. */
  ghost predicate ArcCacheCoversSelfLoops(t: Network, rows: seq<ArcProductRow>) {
    forall row :: IsSelfArcProduct(t, row) ==> row in rows
  }

  /** A cache that is sound and covers both kinds of row holds exactly the full scan. */
  lemma ArcCacheExact(t: Network, rows: seq<ArcProductRow>)
    requires ArcCacheSound(t, rows) && ArcCacheCoversRoutes(t, rows) && ArcCacheCoversSelfLoops(t, rows)
    ensures forall row :: row in rows <==> InArcProductScan(t, row)
  {
  }

  lemma {:induction false} ScanGrowsWithProduct(t: Network, l: nat, p: nat, row: ArcProductRow)
    requires l in t.products && p in t.plants
    requires InArcProductScan(t, row)
    ensures InArcProductScan(WithProduct(t, l, p), row)
  {
    var t' := WithProduct(t, l, p);
    assert t.products[row.start] <= t'.products[row.start];
    if IsRouteArcProduct(t, row) {
      assert IsRouteArcProduct(t', row);
    } else {
      assert IsSelfArcProduct(t', row);
    }
  }

  lemma {:induction false} ScanGrowsWithRoute(t: Network, r: Route, row: ArcProductRow)
    requires r.start in t.outbounds && r.end in t.inbounds
    requires InArcProductScan(t, row)
    ensures InArcProductScan(WithRoute(t, r), row)
  {
    var t' := WithRoute(t, r);
    if IsRouteArcProduct(t, row) {
      assert (row.start, row.finish) in t'.routes;
      assert IsRouteArcProduct(t', row);
    } else {
      assert IsSelfArcProduct(t', row);
    }
  }

  /** No material is cached as travelling to the market while the market produces nothing. */
  lemma NoMaterialToMarket(t: Network, row: ArcProductRow)
    requires t.numLocations in t.products && t.products[t.numLocations] == []
    requires InArcProductScan(t, row) && row.product != EndProduct(t)
    ensures row.finish != EndLocation(t)
  {
    if IsSelfArcProduct(t, row) {
      assert row.product in t.products[row.start];
    }
  }
}
