/**
 * The older graph (sndp_gen/sndp_graph.py). The export records are a cache: any change to
 * the locations, products or routes empties the node records, any new scenario the
 * stochastic ones, and data_as_dict refills the empty ones by a full scan of the graph.
 */
module SndpGenLegacy {
  import opened Wrappers
  import opened Sampling
  import opened Topology
  import opened Export
  import opened Scenarios
  import opened Generation
  import opened Progress
  import opened LegacyRecords
  import opened LegacyScan

  /** FLOAT_MIN_SCENARIO_DEMAND and FLOAT_MAX_SCENARIO_DEMAND: demands are drawn from [1000, 20000). */
  const MinScenDemand: int := 1000
  const MaxScenDemand: int := 20000

  /**
   * The next missing material can be added at e or at a connected plant c: c makes it not
   * yet, and adding it there keeps the repair going and the end-product plants as they are.
   */
  lemma {:induction false} RepairingStep(t0: Network, t1: Network, t: Network, E: set<nat>,
                                         e: nat, connected: seq<nat>, missing: seq<nat>, j: nat, c: nat)
    requires WellFormed(t) && E == EndProductPlants(t)
    requires RepairingAt(t0, t1, t, E, e, connected, missing, j) && j < |missing|
    requires c == e || c in connected
    ensures c in t.products && IsLocation(t, c) && IsProduct(t, missing[j]) && missing[j] in t.plants
    ensures missing[j] !in t.products[c]
    ensures RepairingAt(t0, t1, WithProduct(t, c, missing[j]), E, e, connected, missing, j + 1)
    ensures EndProductPlants(WithProduct(t, c, missing[j])) == E
  {
    RepairTargetFree(t0, t1, t, E, e, connected, missing, j, c);
    RepairingAdvance(t0, t1, t, E, e, connected, missing, j, c);
    MaterialKeepsEndProductPlants(t, c, missing[j]);
  }

  /** Adding a material, not the end product, leaves the end-product plants as they are. */
  lemma {:induction false} MaterialKeepsEndProductPlants(t: Network, l: nat, m: nat)
    requires l in t.products && m in t.plants && m != EndProduct(t)
    ensures EndProductPlants(WithProduct(t, l, m)) == EndProductPlants(t)
  {
    WithProductEndProductPlants(t, l, m);
  }

  /** A new route between two locations keeps the topology well formed and the cleared records fitting it. */
  lemma {:induction false} RouteKeepsFit(t: Network, reqs: seq<nat>, stochCleared: bool, d: Records, r: Route)
    requires WellFormed(t) && ListsDistinct(t) && RecordsFit(t, reqs, true, stochCleared, d)
    requires IsLocation(t, r.start) && IsLocation(t, r.end) && r.start != r.end && r.Key() !in t.routes
    ensures WellFormed(WithRoute(t, r)) && ListsDistinct(WithRoute(t, r))
    ensures RecordsFit(WithRoute(t, r), reqs, true, stochCleared, d)
  {
    WithRouteWellFormed(t, r);
  }

  /** A graph of the older file: the topology, the material requirements, the cache and the scenarios. */
  class SndpGraph {
    var name: string
    var topo: Network
    const materialRequirements: seq<nat>
    var data: Records
    var nodesCacheCleared: bool
    var stochasticCacheCleared: bool
    var scenarios: seq<Scenario>

    /** The topology is well formed and the records fit it and the two cache flags. */
    ghost predicate Valid()
      reads this
    {
      && WellFormed(topo) && ListsDistinct(topo)
      && RecordsFit(topo, materialRequirements, nodesCacheCleared, stochasticCacheCleared, data)
    }

    /** Valid, with the node records cleared: what holds all through the generation. */
    ghost predicate Quiet()
      reads this
    {
      Valid() && nodesCacheCleared
    }

    /**
     * The set-up part of SndpGraph.__init__: the records, all empty, both caches marked
     * cleared, the products with their material requirements, and the locations.
     */
    constructor (name: string, numLocations: nat, numProducts: nat)
      requires numLocations >= 2 && 2 <= numProducts <= 80
      ensures Quiet() && stochasticCacheCleared && data == EmptyRecords && scenarios == []
      ensures topo.numLocations == numLocations && topo.numProducts == numProducts && Unlinked(topo)
      ensures RequirementsDrawn(materialRequirements, numProducts)
    {
      this.name := name;
      data := EmptyRecords;
      nodesCacheCleared, stochasticCacheCleared := true, true;
      var plants := EmptyLists(numProducts);
      var reqs := DrawMaterialRequirements(numProducts);
      materialRequirements := reqs;
      var products := EmptyLists(numLocations);
      var inbounds, outbounds := EmptyLists(numLocations), EmptyLists(numLocations);
      topo := Network(numLocations, numProducts, products, plants, inbounds, outbounds, map[], []);
      scenarios := [];
      new;
      UnlinkedWellFormed(topo);
    }

    // -------------------------------------------------------------- the cache

    /** _clear_nodes_data_cache: empties the node records unless they are already cleared. */
    method ClearNodesDataCache()
      modifies this`data, this`nodesCacheCleared
      ensures nodesCacheCleared
      ensures data == if old(nodesCacheCleared) then old(data) else WithNodeRecordsCleared(old(data))
      ensures old(Valid()) ==> Valid()
    {
      if !nodesCacheCleared {
        data := WithNodeRecordsCleared(data);
        nodesCacheCleared := true;
      }
    }

    /** _clear_stochastic_data_cache: empties the stochastic records unless they are already cleared. */
    method ClearStochasticDataCache()
      modifies this`data, this`stochasticCacheCleared
      ensures stochasticCacheCleared
      ensures data == if old(stochasticCacheCleared) then old(data) else WithScenarioRecordsCleared(old(data))
      ensures old(Valid()) ==> Valid()
    {
      if !stochasticCacheCleared {
        data := WithScenarioRecordsCleared(data);
        stochasticCacheCleared := true;
      }
    }

    // -------------------------------------------------------------- changing the graph

    /**
     * _Location.add_product followed by _Product.add_plant: fails on a product the location
     * already makes, before any change; otherwise clears the node records and appends to
     * both lists. add_plant's own duplicate check cannot fire, and its clear finds the
     * records cleared.
     */
    method AddProduct(l: nat, p: nat) returns (o: Outcome<GraphError>)
      requires Valid() && IsLocation(topo, l) && IsProduct(topo, p)
      modifies this`topo, this`data, this`nodesCacheCleared
      ensures Valid()
      ensures o.Fail? <==> p in old(topo.products[l])
      ensures o.Fail? ==> o.error == DuplicateProduct && unchanged(this)
      ensures o.Pass? ==>
        && topo == WithProduct(old(topo), l, p) && nodesCacheCleared
        && data == if old(nodesCacheCleared) then old(data) else WithNodeRecordsCleared(old(data))
    {
      if p in topo.products[l] {
        return Fail(DuplicateProduct);
      }
      ClearNodesDataCache();
      PlantListMirrorsProducts(topo, l, p);
      WithProductWellFormed(topo, l, p);
      ListsDistinctAfterProduct(topo, l, p);
      topo := WithProduct(topo, l, p);
      return Pass;
    }

    /**
     * The _Route constructor followed by add_route. A self-loop fails before any change.
     * Otherwise the route attaches itself to both endpoints, each of which clears the node
     * records, and then a duplicate (start, end) fails with the route left attached; a new
     * route is registered.
     */
    method AddRoute(start: nat, end: nat, distance: nat) returns (o: Outcome<GraphError>)
      requires Valid() && IsLocation(topo, start) && IsLocation(topo, end)
      modifies this`topo, this`data, this`nodesCacheCleared
      ensures start == end ==> o == Fail(SameEndpoints) && unchanged(this)
      ensures start != end ==>
        && nodesCacheCleared
        && data == if old(nodesCacheCleared) then old(data) else WithNodeRecordsCleared(old(data))
      ensures start != end && (start, end) in old(topo.routes) ==>
        o == Fail(DuplicateRoute) && topo == WithAttachedRoute(old(topo), Route(start, end, distance))
      ensures start != end && (start, end) !in old(topo.routes) ==>
        o == Pass && Valid() && topo == WithRoute(old(topo), Route(start, end, distance))
    {
      if start == end {
        return Fail(SameEndpoints);
      }
      var r := Route(start, end, distance);
      ClearNodesDataCache();
      ghost var t := topo;
      topo := WithAttachedRoute(topo, r);
      if GetRoute(topo, start, end).Some? {
        return Fail(DuplicateRoute);
      }
      RouteKeepsFit(t, materialRequirements, stochasticCacheCleared, data, r);
      topo := WithRegisteredRoute(topo, r);
      return Pass;
    }

    /** get_end_product_plants: the end product's plant list, in the order the plants took it up. */
    function GetEndProductPlants(): (eps: seq<nat>)
      reads this
      requires WellFormed(topo)
      ensures forall l :: l in eps <==> l in EndProductPlants(topo)
    {
      topo.plants[EndProduct(topo)]
    }

    // -------------------------------------------------------------- generation

    /**
     * One plant of the end-product step: the end product first, then the route to the
     * market. Neither can fail, and the node records stay cleared.
     */
    method AttachEndProduct(chosen: seq<nat>, i: nat, distance: nat)
      requires Quiet() && EndProductSteps(topo, EndProductPlants(topo), chosen, i) && i < |chosen|
      modifies this`topo, this`data, this`nodesCacheCleared
      ensures Quiet() && EndProductSteps(topo, EndProductPlants(topo), chosen, i + 1)
      ensures topo.numLocations == old(topo.numLocations) && topo.numProducts == old(topo.numProducts)
      ensures data == old(data)
    {
      var l := chosen[i];
      ghost var t, E := topo, EndProductPlants(topo);
      EndProductStepsAdvance(t, E, chosen, i, distance);
      var o := AddProduct(l, EndProduct(topo));
      assert o.Pass?;
      o := AddRoute(l, EndLocation(topo), distance);
      assert o.Pass?;
      ProductRouteCommute(t, l, EndProduct(t), Route(l, EndLocation(t), distance));
      EndProductsOnlyPlants(topo, E + {l});
    }

    /**
     * The end-product step of SndpGraph.__init__: floor(num_locations / 2) distinct plants
     * are drawn; each gets the end product and then a route to the market.
     */
    method AssignEndProducts()
      requires Quiet() && Unlinked(topo)
      modifies this`topo, this`data, this`nodesCacheCleared
      ensures Quiet() && EndProductsOnly(topo, EndProductPlants(topo))
      ensures |EndProductPlants(topo)| == EndProductPlantCount(topo.numLocations)
      ensures topo.numLocations == old(topo.numLocations) && topo.numProducts == old(topo.numProducts)
      ensures data == old(data)
    {
      var chosen, _ := RandomSubset(Plants(topo), EndProductPlantCount(topo.numLocations));
      assert EndProductPlants(topo) == {};
      ghost var numLocations, numProducts := topo.numLocations, topo.numProducts;
      var i := 0;
      while i < |chosen|
        invariant Quiet() && EndProductSteps(topo, EndProductPlants(topo), chosen, i)
        invariant topo.numLocations == numLocations && topo.numProducts == numProducts
        invariant data == old(data)
      {
        var distance :| 1 <= distance <= MaxDistance;
        AttachEndProduct(chosen, i, distance);
        i := i + 1;
      }
    }

    /** What the material step keeps while it works on plant l; E are the end-product plants. */
    ghost predicate Connected(l: nat, E: set<nat>)
      reads this
    {
      Quiet() && E == EndProductPlants(topo) && Connecting(topo, l)
    }

    /**
     * One end-product plant e of the material step: nothing when e is l itself or already
     * ships to l; otherwise a route from l to e unless there is one.
     */
    method ConnectTo(l: nat, e: nat, ghost E: set<nat>)
      requires Connected(l, E) && e in E
      modifies this`topo, this`data, this`nodesCacheCleared
      ensures Connected(l, E) && ChangedOnlyAt(old(topo), topo, l) && topo.products == old(topo.products)
      ensures l !in E ==> (l, e) in topo.routes
      ensures data == old(data)
    {
      if l == e {
        return;
      }
      if GetRoute(topo, e, l).Some? {
        return;
      }
      if GetRoute(topo, l, e).None? {
        var distance :| 1 <= distance <= MaxDistance;
        ghost var t := topo;
        assert IsLocation(topo, l) && IsLocation(topo, e);
        var o := AddRoute(l, e, distance);
        ConnectingRoute(t, l, Route(l, e, distance));
        EndProductPlantsOfProducts(t, topo);
      }
    }

    /** The routes from plant l to the end-product plants drawn for it. */
    method ConnectToEndProductPlants(l: nat, targets: seq<nat>, ghost E: set<nat>)
      requires Connected(l, E) && forall e :: e in targets ==> e in E
      modifies this`topo, this`data, this`nodesCacheCleared
      ensures Connected(l, E) && ChangedOnlyAt(old(topo), topo, l) && topo.products == old(topo.products)
      ensures l !in E && targets != [] ==> exists e :: e in E && (l, e) in topo.routes
      ensures data == old(data)
    {
      var j := 0;
      while j < |targets|
        invariant j <= |targets| && Connected(l, E) && data == old(data)
        invariant ChangedOnlyAt(old(topo), topo, l) && topo.products == old(topo.products)
        invariant l !in E && j > 0 ==> exists e :: e in E && (l, e) in topo.routes
      {
        ghost var t := topo;
        ConnectTo(l, targets[j], E);
        ChangedOnlyAtTransitive(old(topo), t, topo, l);
        j := j + 1;
      }
    }

    /**
     * The route part of the material step at plant l: randint(1, len(end_product_plants))
     * plants are drawn from the list eps, and l is connected to each of them.
     */
    method LinkToEndProductPlants(l: nat, eps: seq<nat>, ghost E: set<nat>)
      requires Connected(l, E) && E != {} && forall e :: e in eps <==> e in E
      modifies this`topo, this`data, this`nodesCacheCleared
      ensures Connected(l, E) && ChangedOnlyAt(old(topo), topo, l) && topo.products == old(topo.products)
      ensures l !in E ==> exists e :: e in E && (l, e) in topo.routes
      ensures data == old(data)
    {
      assert eps != [] by {
        var x :| x in E;
      }
      var count :| 1 <= count <= |eps|;
      var targets, _ := RandomSubset(eps, count);
      ConnectToEndProductPlants(l, targets, E);
    }

    /** _Location.add_product of one material at plant l of the material or repair step. */
    method ProduceMaterial(l: nat, m: nat, ghost E: set<nat>)
      requires Connected(l, E) && IsMaterial(topo, m) && m !in topo.products[l]
      modifies this`topo, this`data, this`nodesCacheCleared
      ensures Connected(l, E) && SuppliersProduce(topo)
      ensures topo == WithProduct(old(topo), l, m) && data == old(data)
    {
      assert !IsLocation(topo, 0);
      ShapeAfterProduct(topo, l, m);
      SuppliersAfterProduct(topo, l, m, l);
      WithProductEndProductPlants(topo, l, m);
      var o := AddProduct(l, m);
      assert o.Pass?;
    }

    method ProduceNextMaterial(ghost t0: Network, l: nat, ms: seq<nat>, j: nat, ghost E: set<nat>)
      requires Connected(l, E) && AddingMaterials(t0, topo, l, ms, j) && j < |ms|
      modifies this`topo, this`data, this`nodesCacheCleared
      ensures Connected(l, E) && AddingMaterials(t0, topo, l, ms, j + 1) && data == old(data)
    {
      MaterialsAppendStep(t0.products[l], topo.products[l], ms, j, EndProduct(topo));
      ghost var t := topo;
      assert ms[j] in ms && IsProduct(topo, ms[j]);
      ChangedOnlyAtProduct(t, l, ms[j]);
      ProduceMaterial(l, ms[j], E);
      ChangedOnlyAtTransitive(t0, t, topo, l);
    }

    /** The materials drawn for plant l, added in order. */
    method ProduceMaterials(l: nat, ms: seq<nat>, ghost E: set<nat>)
      requires Connected(l, E) && l in topo.products && MaterialsOf(topo, l) == []
      requires ms != [] && Distinct(ms) && forall m :: m in ms ==> IsMaterial(topo, m)
      modifies this`topo, this`data, this`nodesCacheCleared
      ensures Connected(l, E) && SuppliersProduce(topo)
      ensures ChangedOnlyAt(old(topo), topo, l) && MaterialsOf(topo, l) == ms && data == old(data)
    {
      assert topo.products[l] + ms[..0] == topo.products[l];
      var j := 0;
      while j < |ms|
        invariant Connected(l, E) && AddingMaterials(old(topo), topo, l, ms, j) && data == old(data)
      {
        ProduceNextMaterial(old(topo), l, ms, j, E);
        j := j + 1;
      }
      MaterialsAppendDone(old(topo), topo, l, ms);
    }

    /** The material step has handled the plants before l; E are the end-product plants. */
    ghost predicate MaterialsAssigned(l: nat, E: set<nat>)
      reads this
    {
      Quiet() && E == EndProductPlants(topo) && SupplySteps(topo, E, l)
    }

    /**
     * The material step at plant l: between 0 and ceil(m / 4) materials at an end-product
     * plant and between 1 and m elsewhere, capped at INT_MAX_PRODUCTS_IN_ONE_LOCATION. With
     * none, nothing happens; otherwise the drawn materials, then routes to randint(1, |eps|)
     * plants drawn from the end-product plant list eps.
     */
    method SupplyPlant(l: nat, eps: seq<nat>, ghost E: set<nat>)
      requires MaterialsAssigned(l, E) && l < topo.numLocations && forall e :: e in eps <==> e in E
      modifies this`topo, this`data, this`nodesCacheCleared
      ensures MaterialsAssigned(l + 1, E)
      ensures topo.numLocations == old(topo.numLocations) && topo.numProducts == old(topo.numProducts)
      ensures data == old(data)
    {
      var k := DrawMaterialCount(l in eps, MaterialCount(topo));
      if k == 0 {
        SuppliedIdle(topo, E, l);
        return;
      }
      ghost var t0 := topo;
      NotYetSupplied(topo, E, l);
      SuppliersProduceAnyExcept(topo, l);
      var ms, _ := RandomSubset(Materials(topo), k);
      DrawnMaterialsFit(t0, t0, l, ms, k);
      ProduceMaterials(l, ms, E);
      ghost var t1 := topo;
      LinkToEndProductPlants(l, eps, E);
      assert MaterialsOf(topo, l) == MaterialsOf(t1, l);
      SuppliersProduceAll(topo, l);
      ChangedOnlyAtTransitive(t0, t1, topo, l);
      SupplyStepDone(t0, topo, topo, E, l, ms, k);
    }

    /**
     * The material step of SndpGraph.__init__, plant by plant in id order. It leaves every
     * plant Supplied.
     */
    method AssignMaterials(l: nat, eps: seq<nat>, ghost E: set<nat>)
      requires l <= topo.numLocations && MaterialsAssigned(l, E) && forall e :: e in eps <==> e in E
      modifies this`topo, this`data, this`nodesCacheCleared
      ensures MaterialsAssigned(topo.numLocations, E)
      ensures topo.numLocations == old(topo.numLocations) && topo.numProducts == old(topo.numProducts)
      ensures data == old(data)
      decreases topo.numLocations - l
    {
      if l < topo.numLocations {
        SupplyPlant(l, eps, E);
        AssignMaterials(l + 1, eps, E);
      }
    }
    // -------------------------------------------------------------- the repair pass

    /**
     * One material end-product plant e misses, added at plant c: a connected plant drawn at
     * random, or e itself when no plant has a route into e. The add_product cannot fail.
     */
    method RepairMaterial(ghost t0: Network, ghost t1: Network, e: nat, connected: seq<nat>, missing: seq<nat>, j: nat,
                          c: nat, ghost E: set<nat>)
      requires Quiet() && E == EndProductPlants(topo)
      requires RepairingAt(t0, t1, topo, E, e, connected, missing, j) && j < |missing|
      requires c == e || c in connected
      modifies this`topo, this`data, this`nodesCacheCleared
      ensures Quiet() && E == EndProductPlants(topo)
      ensures RepairingAt(t0, t1, topo, E, e, connected, missing, j + 1) && data == old(data)
    {
      RepairingStep(t0, t1, topo, E, e, connected, missing, j, c);
      var o := AddProduct(c, missing[j]);
      assert o.Pass?;
    }

    /**
     * The repair at end-product plant e: the materials neither e nor a plant with a route
     * into e makes, in id order, each added as RepairMaterial says.
     */
    method RepairPlant(ghost t0: Network, e: nat, ghost E: set<nat>)
      requires Quiet() && E == EndProductPlants(topo) && RepairSteps(t0, topo) && e in E
      modifies this`topo, this`data, this`nodesCacheCleared
      ensures Quiet() && E == EndProductPlants(topo) && RepairSteps(t0, topo)
      ensures OnlyProductsAdded(old(topo), topo) && MaterialsAvailable(topo, e) && data == old(data)
    {
      RepairReady(topo, E, e);
      ghost var t1 := topo;
      var avail, connected := CollectAvailable(topo, e);
      var missing := Undelivered(Materials(topo), avail);
      RepairingStart(t0, topo, E, e, connected, avail, missing);
      var j := 0;
      while j < |missing|
        invariant j <= |missing| && Quiet() && E == EndProductPlants(topo)
        invariant RepairingAt(t0, t1, topo, E, e, connected, missing, j) && data == old(data)
      {
        var c := PickSupplier(e, connected);
        RepairMaterial(t0, t1, e, connected, missing, j, c, E);
        j := j + 1;
      }
      RepairingDone(t0, t1, topo, E, e, connected, missing);
    }

    /**
     * The repair pass of SndpGraph.__init__: each plant of the end-product plant list eps in
     * turn, until each reaches every material.
     */
    method RepairEndProductPlants(eps: seq<nat>, ghost E: set<nat>)
      requires Quiet() && E == EndProductPlants(topo) && RepairSteps(topo, topo)
      requires forall e :: e in eps <==> e in E
      modifies this`topo, this`data, this`nodesCacheCleared
      ensures Quiet() && E == EndProductPlants(topo) && RepairSteps(old(topo), topo)
      ensures forall e :: e in E ==> MaterialsAvailable(topo, e)
      ensures data == old(data)
    {
      ghost var t0 := topo;
      var i := 0;
      while i < |eps|
        invariant Quiet() && E == EndProductPlants(topo) && RepairedThrough(t0, topo, E, eps, i)
        invariant data == old(data)
      {
        ghost var t := topo;
        assert eps[i] in eps;
        RepairPlant(t0, eps[i], E);
        RepairedThroughStep(t0, t, topo, E, eps, i);
        i := i + 1;
      }
      RepairedThroughAll(t0, topo, E, eps);
    }

    // -------------------------------------------------------------- the whole generation

    /**
     * The end-product step; the list of end-product plants taken once; the material step
     * from plant 1 on; then the repair pass over that list. The node records stay cleared.
     */
    method Generate()
      requires Quiet() && Unlinked(topo)
      modifies this`topo, this`data, this`nodesCacheCleared
      ensures Quiet() && data == old(data)
      ensures topo.numLocations == old(topo.numLocations) && topo.numProducts == old(topo.numProducts)
      ensures NetworkGenerated(topo, EndProductPlants(topo))
      ensures |EndProductPlants(topo)| == EndProductPlantCount(topo.numLocations)
    {
      AssignEndProducts();
      ghost var E := EndProductPlants(topo);
      EndProductStepsDone(topo, E);
      var eps := GetEndProductPlants();
      AssignMaterials(1, eps, E);
      RepairStepsStart(topo, E);
      ghost var t := topo;
      RepairEndProductPlants(eps, E);
      LinkedKept(t, topo, E);
    }

    /**
     * SndpGraph(name, num_locations, num_products, num_scen) as a whole: the argument checks
     * in the order __init__ meets them, the set-up, the generation, and the stochastic data,
     * whose own failures the call passes on.
     */
    static method Build(name: string, numLocations: int, numProducts: int, numScen: int)
      returns (r: Result<SndpGraph, GraphError>)
      ensures numProducts < 2 ==> r == Err(TooFewProducts)
      ensures numProducts > 80 ==> r == Err(NoMaterialRequirement)
      ensures 2 <= numProducts <= 80 && numLocations < 2 ==> r == Err(TooFewLocations)
      ensures numLocations >= 2 && 2 <= numProducts <= 80 ==>
        && (r.Ok? <==> 1 <= numScen <= MaxScenDemand - MinScenDemand)
        && (numScen > MaxScenDemand - MinScenDemand ==> r == Err(TooManyScenarios))
        && (numScen == 0 ==> r == Err(NoScenarios))
        && (numScen < 0 ==> r == Err(NegativeSampleSize))
      ensures r.Ok? ==>
        var g := r.value;
        && g.Quiet() && g.stochasticCacheCleared && g.data == EmptyRecords
        && g.topo.numLocations == numLocations && g.topo.numProducts == numProducts
        && NetworkGenerated(g.topo, EndProductPlants(g.topo))
        && |EndProductPlants(g.topo)| == EndProductPlantCount(numLocations)
        && Generated(g.scenarios, numScen) && SumProbabilities(g.scenarios) == 1.0
        && DemandsDrawn(g.scenarios, MinScenDemand, MaxScenDemand)
      ensures r.Ok? ==> RequirementsDrawn(r.value.materialRequirements, numProducts)
    {
      if numProducts < 2 {
        return Err(TooFewProducts);
      }
      if numProducts > 80 {
        return Err(NoMaterialRequirement);
      }
      if numLocations < 2 {
        return Err(TooFewLocations);
      }
      var g := new SndpGraph(name, numLocations, numProducts);
      g.Generate();
      var o := g.RegenerateStochasticData(numScen);
      if o.Fail? {
        return Err(o.error);
      }
      return Ok(g);
    }

    // -------------------------------------------------------------- scenarios

    /**
     * The stochastic records list the scenarios, unless they are cleared: what data_as_dict
     * leaves behind and add_scenario keeps.
     */
    ghost predicate ScenarioRecordsCurrent()
      reads this
    {
      stochasticCacheCleared || ScenarioRecordsRebuilt(scenarios, data)
    }

    /** add_scenario: clears the stochastic records and appends, with no check on the id. */
    method AddScenario(s: Scenario)
      modifies this`scenarios, this`data, this`stochasticCacheCleared
      ensures scenarios == old(scenarios) + [s] && stochasticCacheCleared
      ensures data == if old(stochasticCacheCleared) then old(data) else WithScenarioRecordsCleared(old(data))
      ensures old(Valid()) ==> Valid()
      ensures ScenarioRecordsCurrent()
    {
      ClearStochasticDataCache();
      scenarios := scenarios + [s];
    }

    /**
     * regenerate_stochastic_data: fails on more scenarios than there are demands in
     * [1000, 20000) before any change; otherwise empties the scenario list, fails on no or
     * a negative number of scenarios with the records left as they were, and else adds
     * num_scen scenarios with distinct demands drawn from that interval, each add_scenario
     * clearing the stochastic records.
     */
    method RegenerateStochasticData(numScen: int) returns (o: Outcome<GraphError>)
      modifies this`scenarios, this`data, this`stochasticCacheCleared
      ensures numScen > MaxScenDemand - MinScenDemand ==> o == Fail(TooManyScenarios) && unchanged(this)
      ensures numScen == 0 ==> o == Fail(NoScenarios)
      ensures numScen < 0 ==> o == Fail(NegativeSampleSize)
      ensures numScen < 1 ==>
        && scenarios == [] && data == old(data) && stochasticCacheCleared == old(stochasticCacheCleared)
      ensures 1 <= numScen <= MaxScenDemand - MinScenDemand ==>
        && o == Pass && stochasticCacheCleared
        && data == (if old(stochasticCacheCleared) then old(data) else WithScenarioRecordsCleared(old(data)))
        && Generated(scenarios, numScen) && SumProbabilities(scenarios) == 1.0
        && DemandsDrawn(scenarios, MinScenDemand, MaxScenDemand)
      ensures old(Valid()) ==> Valid()
      ensures numScen < 1 && old(scenarios) != [] && !old(stochasticCacheCleared) && old(ScenarioRecordsCurrent()) ==>
        !ScenarioRecordsCurrent()
    {
      if numScen > MaxScenDemand - MinScenDemand {
        return Fail(TooManyScenarios);
      }
      scenarios := [];
      if numScen == 0 {
        return Fail(NoScenarios);
      }
      if numScen < 0 {
        return Fail(NegativeSampleSize);
      }
      var n: nat := numScen;
      var q := 1.0 / n as real;
      var demands := SampleDistinct(MinScenDemand, MaxScenDemand, n);
      var id := 1;
      while id < n
        invariant 1 <= id <= n && |scenarios| == id - 1
        invariant forall i :: 0 <= i < id - 1 ==> scenarios[i] == Scenario(i + 1, q, demands[i])
        invariant id > 1 ==> stochasticCacheCleared
        invariant data == if id == 1 || old(stochasticCacheCleared) then old(data) else WithScenarioRecordsCleared(old(data))
        invariant stochasticCacheCleared == (id > 1 || old(stochasticCacheCleared))
        invariant old(Valid()) ==> Valid()
      {
        AddScenario(Scenario(id, q, demands[id - 1]));
        id := id + 1;
      }
      var left := 1.0 - SumProbabilities(scenarios);
      assert left == LeftProbability(n, scenarios);
      ghost var first := scenarios;
      AddScenario(Scenario(n, left, demands[n - 1]));
      assert scenarios[..n - 1] == first;
      GeneratedIsDistribution(scenarios, n);
      return Pass;
    }

    // -------------------------------------------------------------- export

    /**
     * data_as_dict: fills the counts and MaterialReq where empty; when ShipCost is empty,
     * fails if ArcProduct or arc is not (the records were not cleared together) and else
     * rebuilds the node records by the full scan; fills the stochastic records from the
     * scenarios when cleared; marks both caches as filled and hands the records out.
     */
    method DataAsDict() returns (res: Result<Data, GraphError>)
      requires Valid()
      modifies this`data, this`nodesCacheCleared, this`stochasticCacheCleared
      ensures res.Err? <==> old(data.shipCost) == [] && (old(data.arcProduct) != [] || old(data.arc) != [])
      ensures res.Err? ==> res.error == RecordsNotClearedTogether && unchanged(this)
      ensures res.Ok? ==>
        && Valid() && !nodesCacheCleared && !stochasticCacheCleared
        && NodeRecordsRebuilt(topo, data) && data.materialReq == MaterialReqRows(materialRequirements)
        && res.value == AsData(data)
      ensures res.Ok? && old(data.shipCost) != [] ==>
        data.shipCost == old(data.shipCost) && data.arcProduct == old(data.arcProduct) && data.arc == old(data.arc)
      ensures res.Ok? && old(stochasticCacheCleared) ==> ScenarioRecordsRebuilt(scenarios, data)
      ensures res.Ok? && !old(stochasticCacheCleared) ==>
        data.nrOfScen == old(data.nrOfScen) && data.prob == old(data.prob) && data.demand == old(data.demand)
      ensures res.Ok? ==> (ScenarioRecordsCurrent() <==> old(ScenarioRecordsCurrent()))
    {
      var d := data;
      if d.nrOfLocations.None? {
        d := d.(nrOfLocations := Some(topo.numLocations));
      }
      if d.nrOfProducts.None? {
        d := d.(nrOfProducts := Some(topo.numProducts));
      }
      if d.materialReq == [] {
        d := d.(materialReq := MaterialReqRows(materialRequirements));
      }
      if d.shipCost == [] {
        if d.arcProduct != [] || d.arc != [] {
          data := d;
          return Err(RecordsNotClearedTogether);
        }
        var shipCost, arcProduct, arc := FullScan(topo);
        d := d.(shipCost := shipCost, arcProduct := arcProduct, arc := arc);
      }
      if d.nrOfScen.None? {
        var ss := scenarios;
        d := d.(nrOfScen := Some(|ss|),
                prob := seq(|ss|, i requires 0 <= i < |ss| => ProbRowOf(ss[i])),
                demand := seq(|ss|, i requires 0 <= i < |ss| => DemandRowOf(ss[i])));
      }
      data := d;
      nodesCacheCleared, stochasticCacheCleared := false, false;
      return Ok(AsData(data));
    }
  }
}
