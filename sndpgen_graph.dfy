/**
 * The newer graph (sndpgen/sndp_graph.py). Every mutation updates the export records at
 * once: add_route appends a ShipCost row, and Location.update_graph_data_cache inserts the
 * ArcProduct and arc rows the new product or route gives rise to.
 */
module SndpGen {
  import opened Wrappers
  import opened Sampling
  import opened Topology
  import opened Export
  import opened Scenarios
  import opened Generation
  import opened GraphState
  import opened Progress

  // ---------------------------------------------------------------- rows derived by one cache update

  /** A route row that update_graph_data_cache derives from products `ps` and routes `rs`. */
  ghost predicate RouteDerived(t: Network, ps: seq<nat>, rs: seq<Route>, row: ArcProductRow) {
    && row.product in ps
    && exists r :: r in rs && r.start == row.start && r.end == row.finish && ShipsAlong(t, row.product, r.end)
  }

  /** The on-site row (m, l, l) it derives for a material m when l makes the end product. */
  ghost predicate SelfDerived(t: Network, l: nat, ps: seq<nat>, onSite: bool, row: ArcProductRow) {
    onSite && row.product in ps && row.product != EndProduct(t) && row.start == l && row.finish == l
  }

  ghost predicate Derived(t: Network, l: nat, ps: seq<nat>, rs: seq<Route>, onSite: bool, row: ArcProductRow) {
    RouteDerived(t, ps, rs, row) || SelfDerived(t, l, ps, onSite, row)
  }

  // ---------------------------------------------------------------- the cache after add_product

  lemma {:induction false} AddProductKeepsSound(t: Network, t': Network, l: nat, p: nat, onSite: bool,
                                               rows: seq<ArcProductRow>, rows': seq<ArcProductRow>)
    requires RouteListsMirrored(t.routes, t.inbounds, t.outbounds)
    requires l in t.products && l in t.outbounds && p in t.plants && t' == WithProduct(t, l, p)
    requires onSite ==> EndProduct(t) in t.products[l] || p == EndProduct(t)
    requires ArcCacheSound(t, rows)
    requires forall row :: row in rows' ==> row in rows || Derived(t', l, [p], t'.outbounds[l], onSite, row)
    ensures ArcCacheSound(t', rows')
  {
    forall row | row in rows' ensures InArcProductScan(t', row) {
      if row in rows {
        ScanGrowsWithProduct(t, l, p, row);
      } else if RouteDerived(t', [p], t'.outbounds[l], row) {
        var r :| r in t.outbounds[l] && r.start == row.start && r.end == row.finish && ShipsAlong(t', row.product, r.end);
        assert r.Key() in t.routes;
        assert IsRouteArcProduct(t', row);
      } else {
        assert IsSelfArcProduct(t', row);
      }
    }
  }

  lemma {:induction false} AddProductKeepsCover(t: Network, t': Network, l: nat, p: nat, onSite: bool,
                                               rows: seq<ArcProductRow>, rows': seq<ArcProductRow>)
    requires RouteListsMirrored(t.routes, t.inbounds, t.outbounds)
    requires l in t.products && l in t.outbounds && p in t.plants && t' == WithProduct(t, l, p)
    requires ArcCacheCoversRoutes(t, rows)
    requires forall row :: row in rows || Derived(t', l, [p], t'.outbounds[l], onSite, row) ==> row in rows'
    ensures ArcCacheCoversRoutes(t', rows')
  {
    forall row | IsRouteArcProduct(t', row) ensures row in rows' {
      var k := (row.start, row.finish);
      if row.start == l && row.product == p {
        var r := t.routes[k];
        assert r in t.outbounds[l];
        assert RouteDerived(t', [p], t'.outbounds[l], row);
      } else {
        assert row.product in t.products[row.start];
        assert IsRouteArcProduct(t, row);
      }
    }
  }

  lemma {:induction false} AddProductKeepsSelfLoops(t: Network, t': Network, l: nat, p: nat, onSite: bool,
                                                   rows: seq<ArcProductRow>, rows': seq<ArcProductRow>)
    requires l in t.products && l in t.outbounds && p in t.plants && t' == WithProduct(t, l, p)
    requires onSite == (EndProduct(t) in t.products[l] || p == EndProduct(t))
    requires p == EndProduct(t) ==> forall m :: m in t.products[l] ==> m == EndProduct(t)
    requires ArcCacheCoversSelfLoops(t, rows)
    requires forall row :: row in rows || Derived(t', l, [p], t'.outbounds[l], onSite, row) ==> row in rows'
    ensures ArcCacheCoversSelfLoops(t', rows')
  {
    forall row | IsSelfArcProduct(t', row) ensures row in rows' {
      if row.start == l && row.product == p {
        assert SelfDerived(t', l, [p], onSite, row);
      } else if row.start == l {
        assert row.product in t.products[l];
        assert EndProduct(t) in t.products[l];
        assert IsSelfArcProduct(t, row);
      } else {
        assert IsSelfArcProduct(t, row);
      }
    }
  }

  lemma {:induction false} AddProductCacheValid(t: Network, d: Data, l: nat, p: nat, onSite: bool,
                                               t': Network, d': Data)
    requires CacheValid(t, d) && RouteListsMirrored(t.routes, t.inbounds, t.outbounds)
    requires l in t.products && l in t.outbounds && p in t.plants && t' == WithProduct(t, l, p)
    requires onSite ==> EndProduct(t) in t.products[l] || p == EndProduct(t)
    requires d' == d.(arcProduct := d'.arcProduct, arc := d'.arc)
    requires Distinct(d'.arcProduct) && ArcsMatch(d'.arcProduct, d'.arc)
    requires forall row :: row in d'.arcProduct <==>
      row in d.arcProduct || Derived(t', l, [p], t'.outbounds[l], onSite, row)
    ensures CacheValid(t', d')
  {
    AddProductKeepsSound(t, t', l, p, onSite, d.arcProduct, d'.arcProduct);
    AddProductKeepsCover(t, t', l, p, onSite, d.arcProduct, d'.arcProduct);
  }

  /** add_product keeps the records valid; the cache stays exact unless l already had materials. */
  lemma {:induction false} AddProductPreserves(t: Network, E: set<nat>, d: Data, l: nat, p: nat,
                                              t': Network, E': set<nat>, d': Data)
    requires GraphValid(t, E, d) && IsLocation(t, l) && IsProduct(t, p) && p !in t.products[l]
    requires t' == WithProduct(t, l, p) && E' == E + (if p == EndProduct(t) then {l} else {})
    requires d' == d.(arcProduct := d'.arcProduct, arc := d'.arc)
    requires Distinct(d'.arcProduct) && ArcsMatch(d'.arcProduct, d'.arc)
    requires forall row :: row in d'.arcProduct <==>
      row in d.arcProduct || Derived(t', l, [p], t'.outbounds[l], l in E', row)
    ensures GraphValid(t', E', d')
    ensures ArcCacheCoversSelfLoops(t, d.arcProduct) && (p == EndProduct(t) ==> MaterialsOf(t, l) == []) ==>
      ArcCacheCoversSelfLoops(t', d'.arcProduct)
  {
    WithProductWellFormed(t, l, p);
    ListsDistinctAfterProduct(t, l, p);
    WithProductEndProductPlants(t, l, p);
    AddProductCacheValid(t, d, l, p, l in E', t', d');
    if ArcCacheCoversSelfLoops(t, d.arcProduct) && (p == EndProduct(t) ==> MaterialsOf(t, l) == []) {
      forall m | m in t.products[l] && p == EndProduct(t) ensures m == EndProduct(t) {
        assert m !in MaterialsOf(t, l);
      }
      AddProductKeepsSelfLoops(t, t', l, p, l in E', d.arcProduct, d'.arcProduct);
    }
  }

  // ---------------------------------------------------------------- the cache after add_route

  lemma {:induction false} AddRouteKeepsSound(t: Network, t': Network, r: Route, onSite: bool,
                                             rows: seq<ArcProductRow>, rows': seq<ArcProductRow>)
    requires r.start in t.outbounds && r.end in t.inbounds && r.start in t.products && t' == WithRoute(t, r)
    requires onSite ==> EndProduct(t) in t.products[r.start]
    requires ArcCacheSound(t, rows)
    requires forall row :: row in rows' ==> row in rows || Derived(t', r.start, t'.products[r.start], [r], onSite, row)
    ensures ArcCacheSound(t', rows')
  {
    forall row | row in rows' ensures InArcProductScan(t', row) {
      if row in rows {
        ScanGrowsWithRoute(t, r, row);
      } else if RouteDerived(t', t'.products[r.start], [r], row) {
        assert (row.start, row.finish) == r.Key();
        assert IsRouteArcProduct(t', row);
      } else {
        assert IsSelfArcProduct(t', row);
      }
    }
  }

  lemma {:induction false} AddRouteKeepsCover(t: Network, t': Network, r: Route, onSite: bool,
                                             rows: seq<ArcProductRow>, rows': seq<ArcProductRow>)
    requires r.start in t.outbounds && r.end in t.inbounds && r.start in t.products && t' == WithRoute(t, r)
    requires ArcCacheCoversRoutes(t, rows)
    requires forall row :: row in rows || Derived(t', r.start, t'.products[r.start], [r], onSite, row) ==> row in rows'
    ensures ArcCacheCoversRoutes(t', rows')
    ensures ArcCacheCoversSelfLoops(t, rows) ==> ArcCacheCoversSelfLoops(t', rows')
  {
    forall row | IsRouteArcProduct(t', row) ensures row in rows' {
      if (row.start, row.finish) == r.Key() {
        assert RouteDerived(t', t'.products[r.start], [r], row);
      } else {
        assert IsRouteArcProduct(t, row);
      }
    }
    if ArcCacheCoversSelfLoops(t, rows) {
      forall row | IsSelfArcProduct(t', row) ensures row in rows' {
        assert IsSelfArcProduct(t, row);
      }
    }
  }

  lemma {:induction false} AddRouteCacheValid(t: Network, d: Data, r: Route, onSite: bool, t': Network, d': Data)
    requires CacheValid(t, d)
    requires r.start in t.outbounds && r.end in t.inbounds && r.start in t.products
    requires r.Key() !in t.routes && t' == WithRoute(t, r)
    requires onSite ==> EndProduct(t) in t.products[r.start]
    requires d' == d.(shipCost := d.shipCost + [ShipCostOf(r)], arcProduct := d'.arcProduct, arc := d'.arc)
    requires Distinct(d'.arcProduct) && ArcsMatch(d'.arcProduct, d'.arc)
    requires forall row :: row in d'.arcProduct <==>
      row in d.arcProduct || Derived(t', r.start, t'.products[r.start], [r], onSite, row)
    ensures CacheValid(t', d')
    ensures ArcCacheCoversSelfLoops(t, d.arcProduct) ==> ArcCacheCoversSelfLoops(t', d'.arcProduct)
  {
    ShipCostAfterRoute(t, d.shipCost, r);
    AddRouteKeepsSound(t, t', r, onSite, d.arcProduct, d'.arcProduct);
    AddRouteKeepsCover(t, t', r, onSite, d.arcProduct, d'.arcProduct);
  }

  /** add_route keeps the records valid and the cache exact. */
  lemma {:induction false} AddRoutePreserves(t: Network, E: set<nat>, d: Data, r: Route, t': Network, d': Data)
    requires GraphValid(t, E, d) && IsLocation(t, r.start) && IsLocation(t, r.end)
    requires r.start != r.end && r.Key() !in t.routes && t' == WithRoute(t, r)
    requires d' == d.(shipCost := d.shipCost + [ShipCostOf(r)], arcProduct := d'.arcProduct, arc := d'.arc)
    requires Distinct(d'.arcProduct) && ArcsMatch(d'.arcProduct, d'.arc)
    requires forall row :: row in d'.arcProduct <==>
      row in d.arcProduct || Derived(t', r.start, t'.products[r.start], [r], r.start in E, row)
    ensures GraphValid(t', E, d')
    ensures ArcCacheCoversSelfLoops(t, d.arcProduct) ==> ArcCacheCoversSelfLoops(t', d'.arcProduct)
  {
    WithRouteWellFormed(t, r);
    assert ListsDistinct(t') by {
      assert t'.products == t.products && t'.plants == t.plants;
    }
    AddRouteCacheValid(t, d, r, r.start in E, t', d');
  }

  // ---------------------------------------------------------------- the graph before generation

  /** Products 1..n, each with an empty plant list, counted in NrOfProducts as created. */
  method CreateProducts(n: nat, d: Data) returns (plants: map<nat, seq<nat>>, d': Data)
    ensures (forall p :: p in plants <==> 1 <= p <= n) && (forall p :: p in plants ==> plants[p] == [])
    ensures d' == d.(nrOfProducts := d.nrOfProducts + n)
  {
    plants, d' := map[], d;
    var id: nat := 1;
    while id <= n
      invariant 1 <= id <= n + 1
      invariant (forall p :: p in plants <==> 1 <= p < id) && (forall p :: p in plants ==> plants[p] == [])
      invariant d' == d.(nrOfProducts := d.nrOfProducts + id - 1)
    {
      plants := plants[id := []];
      d' := d'.(nrOfProducts := d'.nrOfProducts + 1);
      id := id + 1;
    }
  }

  /** Locations 1..n with empty product and route lists, counted in NrOfLocations as created. */
  method CreateLocations(n: nat, d: Data)
    returns (products: map<nat, seq<nat>>, inbounds: map<nat, seq<Route>>, outbounds: map<nat, seq<Route>>, d': Data)
    ensures forall l :: l in products <==> 1 <= l <= n
    ensures forall l :: l in inbounds <==> 1 <= l <= n
    ensures forall l :: l in outbounds <==> 1 <= l <= n
    ensures forall l :: l in products ==> products[l] == [] && inbounds[l] == [] && outbounds[l] == []
    ensures d' == d.(nrOfLocations := d.nrOfLocations + n)
  {
    products, inbounds, outbounds, d' := map[], map[], map[], d;
    var id: nat := 1;
    while id <= n
      invariant 1 <= id <= n + 1
      invariant forall l :: l in products <==> 1 <= l < id
      invariant forall l :: l in inbounds <==> 1 <= l < id
      invariant forall l :: l in outbounds <==> 1 <= l < id
      invariant forall l :: l in products ==> products[l] == [] && inbounds[l] == [] && outbounds[l] == []
      invariant d' == d.(nrOfLocations := d.nrOfLocations + id - 1)
    {
      products, inbounds, outbounds := products[id := []], inbounds[id := []], outbounds[id := []];
      d' := d'.(nrOfLocations := d'.nrOfLocations + 1);
      id := id + 1;
    }
  }

  lemma UnlinkedGraphValid(t: Network, d: Data)
    requires Unlinked(t) && Domains(t)
    requires d.nrOfLocations == t.numLocations && d.nrOfProducts == t.numProducts
    requires d.shipCost == [] && d.arcProduct == [] && d.arc == []
    ensures GraphValid(t, {}, d) && ArcCacheCoversSelfLoops(t, d.arcProduct)
  {
    assert EndProductPlants(t) == {};
    assert ArcsOf([]) == {};
  }

  /**
   * The MaterialReq rows survive the generation, which keeps every record but the counters,
   * ShipCost, ArcProduct and arc, and the stochastic update, which rewrites only NrOfScen,
   * Prob and Demand.
   */
  lemma MaterialReqKept(reqs: seq<nat>, d0: Data, d1: Data, d2: Data, numProducts: nat)
    requires MaterialReqDrawn(reqs, d0.materialReq, numProducts)
    requires OtherRecordsKept(d0, d1)
    requires d2.(nrOfScen := 0, prob := [], demand := []) == d1.(nrOfScen := 0, prob := [], demand := [])
    ensures MaterialReqDrawn(reqs, d2.materialReq, numProducts)
  {
    assert d2.materialReq == d2.(nrOfScen := 0, prob := [], demand := []).materialReq;
  }

  /** A graph of the newer file: the topology with its end-product plant set and export records. */
  class SndpGraph {
    var name: string
    var topo: Network
    var endProductPlants: set<nat>
    const materialRequirements: seq<nat>
    var data: Data
    var scenarios: seq<Scenario>

    /** The records update_graph_data_cache and add_route keep in step with the topology. */
    ghost predicate Valid()
      reads this
    {
      GraphValid(topo, endProductPlants, data)
    }

    /**
     * The on-site rows are present too, so the cache equals the full scan; kept as long as
     * the end product reaches a plant before any material does.
     */
    ghost predicate CacheExact()
      reads this
    {
      ArcCacheCoversSelfLoops(topo, data.arcProduct)
    }

    /**
     * The set-up part of SndpGraph.__init__: the data records, the products with their
     * material requirements, and the locations, each counted as it is created.
     */
    constructor (name: string, numLocations: nat, numProducts: nat)
      requires numLocations >= 2 && 2 <= numProducts <= 80
      ensures Valid() && CacheExact()
      ensures topo.numLocations == numLocations && topo.numProducts == numProducts
      ensures Unlinked(topo) && endProductPlants == {}
      ensures data.salesPrice == SalesPrice && data.plantCost == PlantCost && data.plantCapacity == PlantCapacity
      ensures MaterialReqDrawn(materialRequirements, data.materialReq, numProducts)
      ensures data.nrOfScen == 0 && data.prob == [] && data.demand == [] && scenarios == []
    {
      this.name := name;
      var d := Data(0, 0, 0, SalesPrice, PlantCost, PlantCapacity, [], [], [], [], [], []);
      var plants;
      plants, d := CreateProducts(numProducts, d);
      var reqs := DrawMaterialRequirements(numProducts);
      materialRequirements := reqs;
      d := d.(materialReq := MaterialReqRows(reqs));
      var products, inbounds, outbounds;
      products, inbounds, outbounds, d := CreateLocations(numLocations, d);
      topo := Network(numLocations, numProducts, products, plants, inbounds, outbounds, map[], []);
      endProductPlants := {};
      data := d;
      scenarios := [];
      new;
      UnlinkedGraphValid(topo, data);
    }

    /** Inserts an ArcProduct row once, and its arc row once. */
    method CacheArcProduct(row: ArcProductRow)
      requires Distinct(data.arcProduct) && ArcsMatch(data.arcProduct, data.arc)
      modifies this`data
      ensures data == old(data).(arcProduct := data.arcProduct, arc := data.arc)
      ensures data.arcProduct == old(data.arcProduct) + (if row in old(data.arcProduct) then [] else [row])
      ensures Distinct(data.arcProduct) && ArcsMatch(data.arcProduct, data.arc)
    {
      if row !in data.arcProduct {
        ArcsOfAppend(data.arcProduct, row);
        DistinctAppend(data.arcProduct, row);
        var arc := ArcOf(row);
        if arc !in data.arc {
          DistinctAppend(data.arc, arc);
          data := data.(arcProduct := data.arcProduct + [row], arc := data.arc + [arc]);
        } else {
          data := data.(arcProduct := data.arcProduct + [row]);
        }
      }
    }

    /**
     * Location.update_graph_data_cache at location l for products ps and routes rs: inserts
     * (p, s, f) for every p in ps and route s -> f in rs that p may travel along, and (p, l, l)
     * for every material p when l makes the end product.
     */
    method UpdateGraphDataCache(l: nat, ps: seq<nat>, rs: seq<Route>)
      requires Distinct(data.arcProduct) && ArcsMatch(data.arcProduct, data.arc)
      modifies this`data
      ensures data == old(data).(arcProduct := data.arcProduct, arc := data.arc)
      ensures Distinct(data.arcProduct) && ArcsMatch(data.arcProduct, data.arc)
      ensures old(data.arcProduct) <= data.arcProduct
      ensures forall row :: row in data.arcProduct <==>
        row in old(data.arcProduct) || Derived(topo, l, ps, rs, l in endProductPlants, row)
    {
      var onSite := l in endProductPlants;
      var i := 0;
      while i < |ps|
        invariant 0 <= i <= |ps|
        invariant data == old(data).(arcProduct := data.arcProduct, arc := data.arc)
        invariant Distinct(data.arcProduct) && ArcsMatch(data.arcProduct, data.arc)
        invariant old(data.arcProduct) <= data.arcProduct
        invariant forall row :: row in data.arcProduct <==>
          row in old(data.arcProduct) || Derived(topo, l, ps[..i], rs, onSite, row)
      {
        var p := ps[i];
        var j := 0;
        while j < |rs|
          invariant 0 <= j <= |rs|
          invariant data == old(data).(arcProduct := data.arcProduct, arc := data.arc)
          invariant Distinct(data.arcProduct) && ArcsMatch(data.arcProduct, data.arc)
          invariant old(data.arcProduct) <= data.arcProduct
          invariant forall row :: row in data.arcProduct <==>
            row in old(data.arcProduct) || Derived(topo, l, ps[..i], rs, onSite, row) || RouteDerived(topo, [p], rs[..j], row)
        {
          var r := rs[j];
          assert rs[..j + 1] == rs[..j] + [r];
          if p == EndProduct(topo) || r.end != EndLocation(topo) {
            CacheArcProduct(ArcProductRow(p, r.start, r.end));
          }
          j := j + 1;
        }
        assert rs[..j] == rs;
        if p != EndProduct(topo) && onSite {
          CacheArcProduct(ArcProductRow(p, l, l));
        }
        assert ps[..i + 1] == ps[..i] + [p];
        i := i + 1;
      }
      assert ps[..i] == ps;
    }

    /**
     * Location.add_product followed by Product.add_plant: fails on a product the location
     * already makes; otherwise appends to both lists, records an end-product plant, and
     * caches the ArcProduct rows the product gives rise to on the location's outbound routes.
     */
    method AddProduct(l: nat, p: nat) returns (o: Outcome<GraphError>)
      requires Valid() && IsLocation(topo, l) && IsProduct(topo, p)
      modifies this`topo, this`endProductPlants, this`data
      ensures Valid()
      ensures o.Fail? <==> p in old(topo.products[l])
      ensures o.Fail? ==> o.error == DuplicateProduct && unchanged(this)
      ensures o.Pass? ==> topo == WithProduct(old(topo), l, p)
      ensures o.Pass? && p == EndProduct(old(topo)) ==> endProductPlants == old(endProductPlants) + {l}
      ensures p != EndProduct(old(topo)) ==> endProductPlants == old(endProductPlants)
      ensures data == old(data).(arcProduct := data.arcProduct, arc := data.arc)
      ensures o.Pass? ==> forall row :: row in data.arcProduct <==>
        row in old(data.arcProduct) || Derived(topo, l, [p], topo.outbounds[l], l in endProductPlants, row)
      ensures old(CacheExact()) && (p == EndProduct(old(topo)) ==> old(MaterialsOf(topo, l)) == []) ==> CacheExact()
    {
      if p in topo.products[l] {
        return Fail(DuplicateProduct);
      }
      // Product.add_plant's own duplicate check cannot fire here.
      PlantListMirrorsProducts(topo, l, p);
      ghost var t, E, d := topo, endProductPlants, data;
      topo := WithProduct(topo, l, p);
      if p == EndProduct(topo) {
        endProductPlants := endProductPlants + {l};
      }
      UpdateGraphDataCache(l, [p], topo.outbounds[l]);
      AddProductPreserves(t, E, d, l, p, topo, endProductPlants, data);
      return Pass;
    }

    /**
     * The _Route constructor followed by add_route. A self-loop fails before any change. The
     * route then attaches itself to its endpoints, so a duplicate (start, end) fails with the
     * route left in both lists. Otherwise the route is registered, the start's products are
     * cached along it, and one ShipCost row carrying its distance is appended.
     */
    method AddRoute(start: nat, end: nat, distance: nat) returns (o: Outcome<GraphError>)
      requires Valid() && IsLocation(topo, start) && IsLocation(topo, end)
      modifies this`topo, this`data
      ensures start == end ==> o == Fail(SameEndpoints) && unchanged(this)
      ensures start != end && (start, end) in old(topo.routes) ==>
        && o == Fail(DuplicateRoute)
        && topo == WithAttachedRoute(old(topo), Route(start, end, distance))
        && data == old(data)
      ensures start != end && (start, end) !in old(topo.routes) ==>
        && o == Pass && Valid()
        && topo == WithRoute(old(topo), Route(start, end, distance))
        && data == old(data).(shipCost := old(data.shipCost) + [ShipCostRow(start, end, distance)],
                              arcProduct := data.arcProduct, arc := data.arc)
        && (forall row :: row in data.arcProduct <==>
             row in old(data.arcProduct) ||
             Derived(topo, start, topo.products[start], [Route(start, end, distance)], start in endProductPlants, row))
        && (old(CacheExact()) ==> CacheExact())
    {
      if start == end {
        return Fail(SameEndpoints);
      }
      var r := Route(start, end, distance);
      ghost var t, d := topo, data;
      topo := WithAttachedRoute(topo, r);
      if GetRoute(topo, start, end).Some? {
        return Fail(DuplicateRoute);
      }
      topo := WithRegisteredRoute(topo, r);
      UpdateGraphDataCache(start, topo.products[start], [r]);
      data := data.(shipCost := data.shipCost + [ShipCostOf(r)]);
      AddRoutePreserves(t, endProductPlants, d, r, topo, data);
      return Pass;
    }

    // -------------------------------------------------------------- generation

    /**
     * The end-product step has handled chosen[..i]: those plants, and no others, make the
     * end product and ship it to the market.
     */
    ghost predicate EndProductsAssigned(chosen: seq<nat>, i: nat)
      reads this
    {
      EndProductProgress(topo, endProductPlants, data, chosen, i)
    }

    /** One plant of the end-product step: its route to the market, then the end product. */
    method AttachEndProduct(chosen: seq<nat>, i: nat, distance: nat)
      requires EndProductsAssigned(chosen, i) && i < |chosen|
      modifies this`topo, this`endProductPlants, this`data
      ensures EndProductsAssigned(chosen, i + 1)
      ensures topo.numLocations == old(topo.numLocations) && topo.numProducts == old(topo.numProducts)
      ensures OtherRecordsKept(old(data), data)
    {
      var l := chosen[i];
      ghost var t, d := topo, data;
      assert l in chosen;
      EndProductsOnlyAdvance(topo, endProductPlants, l, distance);
      var o := AddRoute(l, EndLocation(topo), distance);
      assert o.Pass?;
      o := AddProduct(l, EndProduct(topo));
      assert o.Pass? && Valid() && CacheExact();
      EndProductProgressStep(t, old(endProductPlants), d, chosen, i, distance, topo, data);
    }

    /**
     * The end-product step of SndpGraph.__init__: floor(num_locations / 2) distinct plants
     * are drawn; each gets a route to the market and then the end product.
     */
    method AssignEndProducts()
      requires Valid() && CacheExact() && Unlinked(topo) && endProductPlants == {}
      modifies this`topo, this`endProductPlants, this`data
      ensures Valid() && CacheExact() && EndProductsOnly(topo, endProductPlants)
      ensures topo.numLocations == old(topo.numLocations) && topo.numProducts == old(topo.numProducts)
      ensures |endProductPlants| == EndProductPlantCount(topo.numLocations)
      ensures OtherRecordsKept(old(data), data)
    {
      var chosen, _ := RandomSubset(Plants(topo), EndProductPlantCount(topo.numLocations));
      ghost var numLocations, numProducts := topo.numLocations, topo.numProducts;
      var i := 0;
      while i < |chosen|
        invariant EndProductsAssigned(chosen, i)
        invariant OtherRecordsKept(old(data), data)
        invariant topo.numLocations == numLocations && topo.numProducts == numProducts
      {
        var distance :| 1 <= distance <= MaxDistance;
        AttachEndProduct(chosen, i, distance);
        i := i + 1;
      }
    }

    /** What the material step keeps while it works on plant l. */
    ghost predicate Connecting(l: nat)
      reads this
    {
      ConnectProgress(topo, endProductPlants, data, l)
    }

    /**
     * One end-product plant e of the material step: nothing when e is l itself or already
     * ships to l; otherwise a route from l to e unless there is one.
     */
    method ConnectTo(l: nat, e: nat)
      requires Connecting(l) && e in endProductPlants
      modifies this`topo, this`data
      ensures Connecting(l) && ChangedOnlyAt(old(topo), topo, l) && topo.products == old(topo.products)
      ensures l !in endProductPlants ==> (l, e) in topo.routes
      ensures OtherRecordsKept(old(data), data)
    {
      if l == e {
        return;
      }
      if GetRoute(topo, e, l).Some? {
        return;
      }
      if GetRoute(topo, l, e).None? {
        var distance :| 1 <= distance <= MaxDistance;
        var r := Route(l, e, distance);
        ghost var t, d := topo, data;
        var o := AddRoute(l, e, distance);
        assert o.Pass? && Valid() && CacheExact();
        ConnectProgressRoute(t, endProductPlants, d, l, r, topo, data);
      }
    }

    /** The routes from plant l to the end-product plants drawn for it. */
    method ConnectToEndProductPlants(l: nat, targets: seq<nat>)
      requires Connecting(l) && forall e :: e in targets ==> e in endProductPlants
      modifies this`topo, this`data
      ensures Connecting(l) && ChangedOnlyAt(old(topo), topo, l) && topo.products == old(topo.products)
      ensures l !in endProductPlants && targets != [] ==> exists e :: e in endProductPlants && (l, e) in topo.routes
      ensures OtherRecordsKept(old(data), data)
    {
      var j := 0;
      while j < |targets|
        invariant j <= |targets| && Connecting(l)
        invariant OtherRecordsKept(old(data), data)
        invariant ChangedOnlyAt(old(topo), topo, l) && topo.products == old(topo.products)
        invariant l !in endProductPlants && j > 0 ==> exists e :: e in endProductPlants && (l, e) in topo.routes
      {
        ghost var t := topo;
        ConnectTo(l, targets[j]);
        ChangedOnlyAtTransitive(old(topo), t, topo, l);
        j := j + 1;
      }
    }

    /** Location.add_product of one material at plant l of the material or repair step. */
    method ProduceMaterial(l: nat, m: nat)
      requires Connecting(l) && IsMaterial(topo, m) && m !in topo.products[l]
      modifies this`topo, this`endProductPlants, this`data
      ensures Connecting(l) && SuppliersProduce(topo)
      ensures topo == WithProduct(old(topo), l, m) && endProductPlants == old(endProductPlants)
      ensures OtherRecordsKept(old(data), data)
    {
      assert !IsLocation(topo, 0);
      ShapeAfterProduct(topo, l, m);
      SuppliersAfterProduct(topo, l, m, l);
      var o := AddProduct(l, m);
      assert o.Pass?;
    }

    /** The first j of the materials ms are added to plant l, which made none in t0. */
    ghost predicate MaterialsAdding(t0: Network, l: nat, ms: seq<nat>, j: nat)
      reads this
    {
      MaterialsProgress(t0, topo, endProductPlants, data, l, ms, j)
    }

    method ProduceNextMaterial(ghost t0: Network, l: nat, ms: seq<nat>, j: nat)
      requires MaterialsAdding(t0, l, ms, j) && j < |ms|
      modifies this`topo, this`endProductPlants, this`data
      ensures MaterialsAdding(t0, l, ms, j + 1) && endProductPlants == old(endProductPlants)
      ensures OtherRecordsKept(old(data), data)
    {
      MaterialsAppendStep(t0.products[l], topo.products[l], ms, j, EndProduct(topo));
      ghost var t := topo;
      assert ms[j] in ms && IsProduct(topo, ms[j]);
      ChangedOnlyAtProduct(t, l, ms[j]);
      ProduceMaterial(l, ms[j]);
      ChangedOnlyAtTransitive(t0, t, topo, l);
    }

    /** The materials drawn for plant l, added in order. */
    method ProduceMaterials(l: nat, ms: seq<nat>)
      requires Connecting(l) && MaterialsOf(topo, l) == []
      requires ms != [] && Distinct(ms) && forall m :: m in ms ==> IsMaterial(topo, m)
      modifies this`topo, this`endProductPlants, this`data
      ensures Connecting(l) && SuppliersProduce(topo) && endProductPlants == old(endProductPlants)
      ensures ChangedOnlyAt(old(topo), topo, l) && MaterialsOf(topo, l) == ms
      ensures OtherRecordsKept(old(data), data)
    {
      assert topo.products[l] + ms[..0] == topo.products[l];
      var j := 0;
      while j < |ms|
        invariant MaterialsAdding(old(topo), l, ms, j) && endProductPlants == old(endProductPlants)
        invariant OtherRecordsKept(old(data), data)
      {
        ProduceNextMaterial(old(topo), l, ms, j);
        j := j + 1;
      }
      MaterialsAppendDone(old(topo), topo, l, ms);
    }

    /**
     * The route part of the material step at plant l: randint(1, |E|) end-product plants
     * are drawn, and l is connected to each of them.
     */
    method LinkToEndProductPlants(l: nat)
      requires Connecting(l) && endProductPlants != {}
      modifies this`topo, this`data
      ensures Connecting(l) && ChangedOnlyAt(old(topo), topo, l) && topo.products == old(topo.products)
      ensures l !in endProductPlants ==> exists e :: e in endProductPlants && (l, e) in topo.routes
      ensures OtherRecordsKept(old(data), data)
    {
      var elist := Enumerate(endProductPlants);
      var count :| 1 <= count <= |elist|;
      var targets, _ := RandomSubset(elist, count);
      assert targets != [] && forall e :: e in targets ==> e in endProductPlants;
      ConnectToEndProductPlants(l, targets);
    }

    /** The material step has handled the plants before l. */
    ghost predicate MaterialsAssigned(l: nat)
      reads this
    {
      SupplyProgress(topo, endProductPlants, data, l)
    }

    /**
     * The material step at plant l: between 0 and ceil(m / 4) materials at an end-product
     * plant and between 1 and m elsewhere, capped at INT_MAX_PRODUCTS_IN_ONE_LOCATION. With
     * none, nothing happens; otherwise routes to randint(1, |E|) drawn end-product plants,
     * then the drawn materials.
     */
    method SupplyPlant(l: nat)
      requires MaterialsAssigned(l) && l < topo.numLocations
      modifies this`topo, this`endProductPlants, this`data
      ensures MaterialsAssigned(l + 1)
      ensures topo.numLocations == old(topo.numLocations) && topo.numProducts == old(topo.numProducts)
      ensures endProductPlants == old(endProductPlants)
      ensures OtherRecordsKept(old(data), data)
    {
      var k := DrawMaterialCount(l in endProductPlants, MaterialCount(topo));
      if k == 0 {
        SuppliedIdle(topo, endProductPlants, l);
        return;
      }
      ghost var t0 := topo;
      NotYetSupplied(topo, endProductPlants, l);
      SuppliersProduceAnyExcept(topo, l);
      LinkToEndProductPlants(l);
      ghost var t1 := topo;
      var ms, _ := RandomSubset(Materials(topo), k);
      DrawnMaterialsFit(t0, t1, l, ms, k);
      ProduceMaterials(l, ms);
      SupplyStepDone(t0, t1, topo, endProductPlants, l, ms, k);
    }

    /**
     * The material step of SndpGraph.__init__, plant by plant in id order. It leaves every
     * plant Supplied.
     */
    method AssignMaterials(l: nat)
      requires l <= topo.numLocations && MaterialsAssigned(l)
      modifies this`topo, this`endProductPlants, this`data
      ensures MaterialsAssigned(topo.numLocations)
      ensures topo.numLocations == old(topo.numLocations) && topo.numProducts == old(topo.numProducts)
      ensures endProductPlants == old(endProductPlants)
      ensures OtherRecordsKept(old(data), data)
      decreases topo.numLocations - l
    {
      if l < topo.numLocations {
        ghost var d0 := data;
        SupplyPlant(l);
        ghost var d1 := data;
        AssignMaterials(l + 1);
        RecordsKeptTransitive(d0, d1, data);
      }
    }

    // -------------------------------------------------------------- the repair pass

    /** The repair at end-product plant e has added the first j of the materials it missed in t1. */
    ghost predicate RepairingPlant(t0: Network, t1: Network, e: nat, connected: seq<nat>, missing: seq<nat>, j: nat)
      reads this
    {
      RepairPlantProgress(t0, t1, topo, endProductPlants, data, e, connected, missing, j)
    }

    /**
     * One material end-product plant e misses, added at plant c: a connected plant drawn at
     * random, or e itself when no plant has a route into e. The add_product cannot fail.
     */
    method RepairMaterial(ghost t0: Network, ghost t1: Network, e: nat, connected: seq<nat>, missing: seq<nat>, j: nat,
                          c: nat)
      requires RepairingPlant(t0, t1, e, connected, missing, j) && j < |missing|
      requires c == e || c in connected
      modifies this`topo, this`endProductPlants, this`data
      ensures RepairingPlant(t0, t1, e, connected, missing, j + 1)
      ensures endProductPlants == old(endProductPlants)
      ensures OtherRecordsKept(old(data), data)
    {
      ghost var t, E, d := topo, endProductPlants, data;
      RepairPlantTarget(t0, t1, t, E, d, e, connected, missing, j, c);
      var o := AddProduct(c, missing[j]);
      assert o.Pass? && Valid() && CacheExact();
      RepairPlantStep(t0, t1, t, E, d, e, connected, missing, j, c, topo, data);
    }

    /**
     * The repair at end-product plant e: the materials neither e nor a plant with a route
     * into e makes, in id order, each added as RepairMaterial says.
     */
    method RepairPlant(ghost t0: Network, e: nat)
      requires RepairProgress(t0, topo, endProductPlants, data) && e in endProductPlants
      modifies this`topo, this`endProductPlants, this`data
      ensures RepairProgress(t0, topo, endProductPlants, data) && OnlyProductsAdded(old(topo), topo)
      ensures MaterialsAvailable(topo, e) && endProductPlants == old(endProductPlants)
      ensures OtherRecordsKept(old(data), data)
    {
      RepairReady(topo, endProductPlants, e);
      ghost var t1 := topo;
      var avail, connected := CollectAvailable(topo, e);
      var missing := Undelivered(Materials(topo), avail);
      RepairPlantStart(t0, topo, endProductPlants, data, e, connected, avail, missing);
      var j := 0;
      while j < |missing|
        invariant j <= |missing| && RepairingPlant(t0, t1, e, connected, missing, j)
        invariant OtherRecordsKept(old(data), data)
        invariant endProductPlants == old(endProductPlants)
      {
        var c := PickSupplier(e, connected);
        RepairMaterial(t0, t1, e, connected, missing, j, c);
        j := j + 1;
      }
      RepairingDone(t0, t1, topo, endProductPlants, e, connected, missing);
    }

    /**
     * The repair pass of SndpGraph.__init__: each end-product plant in turn, in the set's
     * iteration order, until each reaches every material.
     */
    method RepairEndProductPlants()
      requires RepairProgress(topo, topo, endProductPlants, data)
      modifies this`topo, this`endProductPlants, this`data
      ensures RepairProgress(old(topo), topo, endProductPlants, data)
      ensures forall e :: e in endProductPlants ==> MaterialsAvailable(topo, e)
      ensures endProductPlants == old(endProductPlants)
      ensures OtherRecordsKept(old(data), data)
    {
      ghost var t0 := topo;
      var elist := Enumerate(endProductPlants);
      var i := 0;
      while i < |elist|
        invariant i <= |elist| && RepairedUpTo(t0, topo, endProductPlants, data, elist, i)
        invariant OtherRecordsKept(old(data), data)
        invariant endProductPlants == old(endProductPlants)
      {
        ghost var t, d := topo, data;
        assert elist[i] in elist;
        RepairPlant(t0, elist[i]);
        RepairedStep(t0, t, topo, endProductPlants, d, data, elist, i);
        i := i + 1;
      }
      RepairedThroughAll(t0, topo, endProductPlants, elist);
    }

    // -------------------------------------------------------------- the whole generation

    /** The end-product step, the material step from plant 1 on, then the repair pass. */
    method Generate()
      requires Valid() && CacheExact() && Unlinked(topo) && endProductPlants == {}
      modifies this`topo, this`endProductPlants, this`data
      ensures Valid() && CacheExact()
      ensures topo.numLocations == old(topo.numLocations) && topo.numProducts == old(topo.numProducts)
      ensures NetworkGenerated(topo, endProductPlants)
      ensures |endProductPlants| == EndProductPlantCount(topo.numLocations)
      ensures OtherRecordsKept(old(data), data)
    {
      AssignEndProducts();
      EndProductStepDone(topo, endProductPlants, data);
      AssignMaterials(1);
      RepairStart(topo, endProductPlants, data);
      ghost var t := topo;
      RepairEndProductPlants();
      LinkedKept(t, topo, endProductPlants);
    }

    /**
     * SndpGraph(name, num_locations, num_products, num_scen) as a whole: the argument checks
     * in the order __init__ meets them, then the rest of the call.
     */
    static method Build(name: string, numLocations: int, numProducts: int, numScen: int)
      returns (r: Result<SndpGraph, GraphError>)
      ensures numProducts < 2 ==> r == Err(TooFewProducts)
      ensures numProducts > 80 ==> r == Err(NoMaterialRequirement)
      ensures 2 <= numProducts <= 80 && numLocations < 2 ==> r == Err(TooFewLocations)
      ensures numLocations >= 2 && 2 <= numProducts <= 80 ==>
        (r.Ok? <==> 1 <= numScen <= DemandValues(EndProductPlantCount(numLocations)))
      ensures numLocations >= 2 && 2 <= numProducts <= 80 && numScen > DemandValues(EndProductPlantCount(numLocations)) ==>
        r == Err(TooManyScenarios)
      ensures r.Ok? ==> numLocations >= 2 && 2 <= numProducts <= 80 && Assembled(r.value, numLocations, numProducts, numScen)
    {
      if numProducts < 2 {
        return Err(TooFewProducts);
      }
      if numProducts > 80 {
        return Err(NoMaterialRequirement);
      }
      if numLocations < 2 {
        return Err(TooFewLocations);
      }
      r := Assemble(name, numLocations, numProducts, numScen);
    }

    /**
     * What a successful SndpGraph(name, num_locations, num_products, num_scen) holds: a valid
     * generated network with its end-product plants, the drawn material requirements with their
     * MaterialReq rows, and num_scen scenarios with distinct demands and probabilities summing to one.
     */
    static ghost predicate Assembled(g: SndpGraph, numLocations: nat, numProducts: nat, numScen: nat)
      reads g
    {
      && g.Valid() && g.CacheExact()
      && g.topo.numLocations == numLocations && g.topo.numProducts == numProducts
      && NetworkGenerated(g.topo, g.endProductPlants)
      && |g.endProductPlants| == EndProductPlantCount(numLocations)
      && g.ScenarioCacheValid() && Generated(g.scenarios, numScen) && SumProbabilities(g.scenarios) == 1.0
      && DemandsDrawn(g.scenarios, MinScenarioDemand(|g.endProductPlants|), MaxScenarioDemand(|g.endProductPlants|))
      && MaterialReqDrawn(g.materialRequirements, g.data.materialReq, numProducts)
    }

    /**
     * The rest of __init__ once its arguments pass: the set-up, the generation, and the
     * stochastic data, whose own failures the call passes on.
     */
    static method Assemble(name: string, numLocations: nat, numProducts: nat, numScen: int)
      returns (r: Result<SndpGraph, GraphError>)
      requires numLocations >= 2 && 2 <= numProducts <= 80
      ensures r.Ok? <==> 1 <= numScen <= DemandValues(EndProductPlantCount(numLocations))
      ensures numScen > DemandValues(EndProductPlantCount(numLocations)) ==> r == Err(TooManyScenarios)
      ensures r.Ok? ==> Assembled(r.value, numLocations, numProducts, numScen)
    {
      var g := new SndpGraph(name, numLocations, numProducts);
      ghost var d0 := g.data;
      g.Generate();
      ghost var d := g.data;
      assert ExactGraph(g.topo, g.endProductPlants, d);
      var o := g.RegenerateStochasticData(numScen);
      if o.Fail? {
        return Err(o.error);
      }
      MaterialReqKept(g.materialRequirements, d0, d, g.data, numProducts);
      ExactGraphOtherRecords(g.topo, g.endProductPlants, d, g.data);
      return Ok(g);
    }

    // -------------------------------------------------------------- stochastic data

    /** Prob, Demand and NrOfScen describe the scenario list. */
    ghost predicate ScenarioCacheValid()
      reads this
    {
      && data.nrOfScen == |scenarios|
      && RowsMatch(scenarios, data.prob, data.demand)
      && IdsUnique(scenarios)
    }

    /** _clear_stochastic_data_cache: NrOfScen back to 0, Prob and Demand emptied. */
    method ClearStochasticDataCache()
      modifies this`data
      ensures data == old(data).(nrOfScen := 0, prob := [], demand := [])
      ensures RowsPaired(data.prob, data.demand)
    {
      data := data.(nrOfScen := 0, prob := [], demand := []);
    }

    /**
     * add_scenario: appends the scenario and counts it, then fails on an id Prob already
     * holds; otherwise adds its Prob and Demand rows.
     */
    method AddScenario(s: Scenario) returns (o: Outcome<GraphError>)
      requires RowsPaired(data.prob, data.demand)
      modifies this`scenarios, this`data
      ensures scenarios == old(scenarios) + [s]
      ensures o.Fail? <==> HasScenario(old(data.prob), s.id)
      ensures o.Fail? ==> o.error == DuplicateScenario && data == old(data).(nrOfScen := old(data.nrOfScen) + 1)
      ensures o.Pass? ==> data == old(data).(nrOfScen := old(data.nrOfScen) + 1,
                                            prob := old(data.prob) + [ProbRowOf(s)],
                                            demand := old(data.demand) + [DemandRowOf(s)])
      ensures RowsPaired(data.prob, data.demand)
      ensures old(ScenarioCacheValid()) && o.Pass? ==> ScenarioCacheValid()
    {
      scenarios := scenarios + [s];
      data := data.(nrOfScen := data.nrOfScen + 1);
      if HasScenario(data.prob, s.id) {
        return Fail(DuplicateScenario);
      }
      assert forall i :: 0 <= i < |data.demand| ==> data.demand[i].scen != s.id;
      data := data.(prob := data.prob + [ProbRowOf(s)], demand := data.demand + [DemandRowOf(s)]);
      if old(ScenarioCacheValid()) {
        forall i, j | 0 <= i < j < |scenarios| ensures scenarios[i].id != scenarios[j].id {
          if j == |scenarios| - 1 {
            assert old(data.prob)[i].scen == scenarios[i].id;
          }
        }
      }
      return Pass;
    }

    /**
     * The loop of regenerate_stochastic_data over ids 1..n-1: scenario id gets probability q
     * and demand demands[id - 1], and every add_scenario passes since the ids are new.
     */
    method AddUniformScenarios(n: nat, q: real, demands: seq<int>)
      requires 1 <= n <= |demands|
      requires scenarios == [] && data.nrOfScen == 0 && data.prob == [] && data.demand == []
      modifies this`scenarios, this`data
      ensures |scenarios| == n - 1
      ensures forall i :: 0 <= i < n - 1 ==> scenarios[i] == Scenario(i + 1, q, demands[i])
      ensures data == old(data).(nrOfScen := n - 1, prob := data.prob, demand := data.demand)
      ensures RowsMatch(scenarios, data.prob, data.demand) && RowsPaired(data.prob, data.demand)
      ensures IdsUnique(scenarios)
    {
      var id := 1;
      while id < n
        invariant 1 <= id <= n && |scenarios| == id - 1
        invariant forall i :: 0 <= i < id - 1 ==> scenarios[i] == Scenario(i + 1, q, demands[i])
        invariant data == old(data).(nrOfScen := |scenarios|, prob := data.prob, demand := data.demand)
        invariant RowsMatch(scenarios, data.prob, data.demand) && RowsPaired(data.prob, data.demand)
        invariant IdsUnique(scenarios)
      {
        assert forall i :: 0 <= i < |data.prob| ==> data.prob[i].scen < id;
        var added := AddScenario(Scenario(id, q, demands[id - 1]));
        assert added.Pass?;
        id := id + 1;
      }
    }

    /**
     * regenerate_stochastic_data: clears the stochastic records, fails when more scenarios
     * are asked for than there are demand values in [2500 |E|, 4500 |E|), then builds
     * num_scen scenarios with distinct demands drawn from that interval.
     */
    method RegenerateStochasticData(numScen: int) returns (o: Outcome<GraphError>)
      modifies this`scenarios, this`data
      ensures topo == old(topo) && endProductPlants == old(endProductPlants)
      ensures data.(nrOfScen := 0, prob := [], demand := []) == old(data).(nrOfScen := 0, prob := [], demand := [])
      ensures o.Fail? ==> data.nrOfScen == 0 && data.prob == [] && data.demand == []
      ensures numScen > DemandValues(|endProductPlants|) ==> o == Fail(TooManyScenarios) && scenarios == old(scenarios)
      ensures numScen <= DemandValues(|endProductPlants|) && numScen == 0 ==> o == Fail(NoScenarios) && scenarios == []
      ensures numScen < 0 ==> o == Fail(NegativeSampleSize) && scenarios == []
      ensures 1 <= numScen <= DemandValues(|endProductPlants|) ==>
        && o == Pass && ScenarioCacheValid()
        && Generated(scenarios, numScen) && SumProbabilities(scenarios) == 1.0
        && DemandsDrawn(scenarios, MinScenarioDemand(|endProductPlants|), MaxScenarioDemand(|endProductPlants|))
    {
      ClearStochasticDataCache();
      var e := |endProductPlants|;
      var lo, hi := MinScenarioDemand(e), MaxScenarioDemand(e);
      if numScen > hi - lo {
        return Fail(TooManyScenarios);
      }
      scenarios := [];
      if numScen == 0 {
        return Fail(NoScenarios);
      }
      if numScen < 0 {
        return Fail(NegativeSampleSize);
      }
      DrawScenarios(numScen, lo, hi);
      return Pass;
    }

    /**
     * The successful end of regenerate_stochastic_data: n distinct demands sampled from
     * [lo, hi), scenarios 1..n-1 of probability 1/n, and the last taking what is left.
     */
    method DrawScenarios(n: nat, lo: int, hi: int)
      requires 1 <= n <= hi - lo
      requires scenarios == [] && data.nrOfScen == 0 && data.prob == [] && data.demand == []
      modifies this`scenarios, this`data
      ensures data.(nrOfScen := 0, prob := [], demand := []) == old(data)
      ensures ScenarioCacheValid()
      ensures Generated(scenarios, n) && SumProbabilities(scenarios) == 1.0 && DemandsDrawn(scenarios, lo, hi)
    {
      var q := 1.0 / n as real;
      var demands := SampleDistinct(lo, hi, n);
      AddUniformScenarios(n, q, demands);
      var left := 1.0 - SumProbabilities(scenarios);
      assert left == LeftProbability(n, scenarios);
      assert left > 0.0;
      assert forall i :: 0 <= i < |data.prob| ==> data.prob[i].scen < n;
      ghost var first := scenarios;
      var added := AddScenario(Scenario(n, left, demands[n - 1]));
      assert added.Pass?;
      assert scenarios[..n - 1] == first;
      UniformScenariosGenerated(scenarios, n, demands, lo, hi);
    }

    // -------------------------------------------------------------- export

    /**
     * data_as_dict: the records as they stand. ShipCost lists every route with its distance,
     * ArcProduct holds only rows of the full scan without repeats (all of them once the cache
     * is exact), and arc lists the distinct (start, finish) pairs of ArcProduct.
     */
    function DataAsDict(): (d: Data)
      reads this
      requires Valid()
      ensures d.nrOfLocations == topo.numLocations && d.nrOfProducts == topo.numProducts
      ensures ShipCostMatches(topo, d.shipCost)
      ensures Distinct(d.arcProduct) && ArcsMatch(d.arcProduct, d.arc)
      ensures forall row :: row in d.arcProduct ==> InArcProductScan(topo, row)
      ensures forall row :: IsRouteArcProduct(topo, row) ==> row in d.arcProduct
      ensures CacheExact() ==> forall row :: row in d.arcProduct <==> InArcProductScan(topo, row)
    {
      data
    }
  }
}
