/**
 * The full scan with which data_as_dict of the older graph (sndp_gen/sndp_graph.py)
 * rebuilds its node records: ShipCost and the route rows of ArcProduct, route by route
 * in registration order, then the on-site rows of the end-product plants, then the
 * distinct arcs.
 */
module LegacyScan {
  import opened Sampling
  import opened Topology
  import opened Export

  /**
   * The inner loop over route r: one row for each product its start makes, in the start's
   * order, except a material bound for the market.
   */
  method RouteRows(t: Network, r: Route) returns (rows: seq<ArcProductRow>)
    requires r.start in t.products && Distinct(t.products[r.start])
    ensures Distinct(rows)
    ensures forall row :: row in rows <==>
      && row.start == r.start && row.finish == r.end
      && row.product in t.products[r.start] && ShipsAlong(t, row.product, r.end)
  {
    var ps := t.products[r.start];
    rows := [];
    var j := 0;
    while j < |ps|
      invariant j <= |ps| && Distinct(rows)
      invariant forall row :: row in rows <==>
        && row.start == r.start && row.finish == r.end
        && row.product in ps[..j] && ShipsAlong(t, row.product, r.end)
    {
      assert ps[..j + 1] == ps[..j] + [ps[j]];
      if ShipsAlong(t, ps[j], r.end) {
        var row := ArcProductRow(ps[j], r.start, r.end);
        assert row !in rows by {
          assert ps[j] !in ps[..j];
        }
        DistinctAppend(rows, row);
        rows := rows + [row];
      }
      j := j + 1;
    }
    assert ps[..j] == ps;
  }

  /**
   * The loop over the routes: a ShipCost row per route in registration order, and the
   * route rows of ArcProduct, each once.
   */
  method ScanRoutes(t: Network) returns (shipCost: seq<ShipCostRow>, rows: seq<ArcProductRow>)
    requires WellFormed(t) && ListsDistinct(t)
    ensures ShipCostMatches(t, shipCost)
    ensures Distinct(rows) && forall row :: row in rows <==> IsRouteArcProduct(t, row)
  {
    shipCost, rows := [], [];
    var i := 0;
    while i < |t.routeOrder|
      invariant i <= |t.routeOrder| && |shipCost| == i
      invariant forall k :: 0 <= k < i ==>
        t.routeOrder[k] in t.routes && shipCost[k] == ShipCostOf(t.routes[t.routeOrder[k]])
      invariant Distinct(rows)
      invariant forall row :: row in rows <==> IsRouteArcProduct(t, row) && (row.start, row.finish) in t.routeOrder[..i]
    {
      var key := t.routeOrder[i];
      assert key in t.routeOrder;
      var route := t.routes[key];
      assert route.start in t.products;
      var more := RouteRows(t, route);
      assert key !in t.routeOrder[..i] by {
        forall k | 0 <= k < i ensures t.routeOrder[k] != key {
        }
      }
      assert forall row :: row in rows ==> row !in more;
      DistinctConcat(rows, more);
      assert t.routeOrder[..i + 1] == t.routeOrder[..i] + [key];
      shipCost := shipCost + [ShipCostOf(route)];
      rows := rows + more;
      i := i + 1;
    }
    assert t.routeOrder[..i] == t.routeOrder;
  }

  /** The inner loop over plant l: a row (m, l, l) for each material m it makes, in its order. */
  method PlantRows(t: Network, l: nat) returns (rows: seq<ArcProductRow>)
    requires l in t.products && Distinct(t.products[l])
    ensures Distinct(rows)
    ensures forall row :: row in rows <==>
      && row.start == l && row.finish == l
      && row.product in t.products[l] && row.product != EndProduct(t)
  {
    var ps := t.products[l];
    rows := [];
    var j := 0;
    while j < |ps|
      invariant j <= |ps| && Distinct(rows)
      invariant forall row :: row in rows <==>
        && row.start == l && row.finish == l
        && row.product in ps[..j] && row.product != EndProduct(t)
    {
      assert ps[..j + 1] == ps[..j] + [ps[j]];
      if ps[j] != EndProduct(t) {
        var row := ArcProductRow(ps[j], l, l);
        assert row !in rows by {
          assert ps[j] !in ps[..j];
        }
        DistinctAppend(rows, row);
        rows := rows + [row];
      }
      j := j + 1;
    }
    assert ps[..j] == ps;
  }

  /** The loop over the end-product plants eps: the on-site rows of each, each once. */
  method ScanPlants(t: Network, eps: seq<nat>) returns (rows: seq<ArcProductRow>)
    requires ListsDistinct(t) && Distinct(eps) && forall l :: l in eps ==> l in t.products
    ensures Distinct(rows)
    ensures forall row :: row in rows <==>
      && row.start == row.finish && row.start in eps
      && row.product in t.products[row.start] && row.product != EndProduct(t)
  {
    rows := [];
    var i := 0;
    while i < |eps|
      invariant i <= |eps| && Distinct(rows)
      invariant forall row :: row in rows <==>
        && row.start == row.finish && row.start in eps[..i]
        && row.product in t.products[row.start] && row.product != EndProduct(t)
    {
      assert eps[i] in eps;
      var more := PlantRows(t, eps[i]);
      assert forall row :: row in rows ==> row !in more by {
        assert eps[i] !in eps[..i];
      }
      DistinctConcat(rows, more);
      assert eps[..i + 1] == eps[..i] + [eps[i]];
      rows := rows + more;
      i := i + 1;
    }
    assert eps[..i] == eps;
  }

  /** The decoded arc_value_set: the distinct (start, finish) pairs of the rows, in set order. */
  method DistinctArcs(rows: seq<ArcProductRow>) returns (arcs: seq<ArcRow>)
    ensures ArcsMatch(rows, arcs)
  {
    arcs := Enumerate(set row | row in rows :: ArcOf(row));
  }

  /**
   * The whole scan: ShipCost; the route rows followed by the on-site rows of the plants
   * on the end product's plant list; the distinct arcs. ArcProduct ends up holding every
   * row of the full scan exactly once.
   */
  method FullScan(t: Network) returns (shipCost: seq<ShipCostRow>, arcProduct: seq<ArcProductRow>, arc: seq<ArcRow>)
    requires WellFormed(t) && ListsDistinct(t)
    ensures ShipCostMatches(t, shipCost)
    ensures Distinct(arcProduct) && forall row :: row in arcProduct <==> InArcProductScan(t, row)
    ensures ArcsMatch(arcProduct, arc)
  {
    var routeRows;
    shipCost, routeRows := ScanRoutes(t);
    var ep := EndProduct(t);
    var eps := t.plants[ep];
    assert forall l :: l in eps <==> l in t.products && ep in t.products[l];
    var plantRows := ScanPlants(t, eps);
    assert forall row :: row in routeRows ==> row.start != row.finish;
    DistinctConcat(routeRows, plantRows);
    arcProduct := routeRows + plantRows;
    arc := DistinctArcs(arcProduct);
  }
}
