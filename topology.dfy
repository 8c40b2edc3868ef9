/**
 * The supply graph shared by both graph files: locations 1..numLocations (the last one is
 * the market), products 1..numProducts (the last one is the end product), and the lists
 * each entity keeps: Location._products, Product._plants, Location._inbounds,
 * Location._outbounds, and the graph's route dictionary keyed by (start, end).
 */
module Topology {
  import opened Wrappers
  import opened Sampling

  /** A directed route (_Route): start and end location ids and a distance. */
  datatype Route = Route(start: nat, end: nat, distance: nat) {
    function Key(): (nat, nat) { (start, end) }
  }

  type RouteKey = (nat, nat)

  /** The ways a graph operation raises. */
  datatype GraphError =
    | DuplicateProduct     // add_product / add_plant on an entry already listed
    | SameEndpoints        // _Route with start.id == end.id
    | DuplicateRoute       // add_route on a registered (start, end)
    | DuplicateScenario    // add_scenario on a registered scenario id
    | TooFewProducts       // fewer than two products
    | NoMaterialRequirement // randint(1, 0) when there are more than 80 products
    | TooFewLocations      // fewer than two locations
    | TooManyScenarios     // more scenarios than distinct demand values
    | NoScenarios          // 1 / num_scen with num_scen == 0
    | NegativeSampleSize   // random.sample with a negative size
    | RecordsNotClearedTogether // data_as_dict's assert on records cleared together

  datatype Network = Network(
    numLocations: nat,
    numProducts: nat,
    products: map<nat, seq<nat>>,      // location id -> products it produces, in order
    plants: map<nat, seq<nat>>,        // product id -> locations producing it, in order
    inbounds: map<nat, seq<Route>>,    // location id -> routes ending there
    outbounds: map<nat, seq<Route>>,   // location id -> routes starting there
    routes: map<RouteKey, Route>,      // the graph's route dictionary
    routeOrder: seq<RouteKey>)         // the dictionary's insertion order

  // ---------------------------------------------------------------- ids and getters

  predicate IsLocation(t: Network, l: nat) { 1 <= l <= t.numLocations }
  predicate IsPlant(t: Network, l: nat) { 1 <= l < t.numLocations }
  predicate IsProduct(t: Network, p: nat) { 1 <= p <= t.numProducts }
  predicate IsMaterial(t: Network, p: nat) { 1 <= p < t.numProducts }

  /** get_end_location: the last location is the market. */
  function EndLocation(t: Network): (l: nat)
    ensures t.numLocations >= 1 ==> IsLocation(t, l) && !IsPlant(t, l)
    ensures forall x: nat :: IsLocation(t, x) ==> x <= l
  {
    t.numLocations
  }

  /** get_end_product: the last product is the end product. */
  function EndProduct(t: Network): (p: nat)
    ensures t.numProducts >= 1 ==> IsProduct(t, p) && !IsMaterial(t, p)
    ensures forall x: nat :: IsProduct(t, x) ==> x <= p
  {
    t.numProducts
  }

  /** How many materials there are: every product but the end product. */
  function MaterialCount(t: Network): nat {
    if t.numProducts == 0 then 0 else t.numProducts - 1
  }

  /** get_materials: every product but the last, in id order. */
  function Materials(t: Network): (ms: seq<nat>)
    ensures forall p :: p in ms <==> IsMaterial(t, p)
    ensures forall i :: 0 <= i < |ms| ==> ms[i] == i + 1
    ensures |ms| == MaterialCount(t)
    ensures Distinct(ms)
  {
    var ms := seq(if t.numProducts == 0 then 0 else t.numProducts - 1, i => i + 1);
    assert forall p :: IsMaterial(t, p) ==> ms[p - 1] == p;
    ms
  }

  /** get_plants: every location but the last, in id order. */
  function Plants(t: Network): (ls: seq<nat>)
    ensures forall l :: l in ls <==> IsPlant(t, l)
    ensures forall i :: 0 <= i < |ls| ==> ls[i] == i + 1
    ensures t.numLocations >= 1 ==> |ls| == t.numLocations - 1
    ensures Distinct(ls)
  {
    var ls := seq(if t.numLocations == 0 then 0 else t.numLocations - 1, i => i + 1);
    assert forall l :: IsPlant(t, l) ==> ls[l - 1] == l;
    ls
  }

  /** get_route: the route registered under (start, end), if any. */
  function GetRoute(t: Network, start: nat, end: nat): (r: Option<Route>)
    ensures r.Some? <==> (start, end) in t.routes
    ensures WellFormed(t) && r.Some? ==> r.value.start == start && r.value.end == end && start != end
  {
    if (start, end) in t.routes then Some(t.routes[(start, end)]) else None
  }

  /** The locations that produce the end product. */
  ghost function EndProductPlants(t: Network): set<nat> {
    set l | l in t.products && t.numProducts in t.products[l]
  }

  /** No location produces anything and no route exists yet. */
  ghost predicate Unlinked(t: Network) {
    && t.routes == map[] && t.routeOrder == []
    && (forall l :: l in t.products ==> t.products[l] == [])
    && (forall l :: l in t.inbounds ==> t.inbounds[l] == [])
    && (forall l :: l in t.outbounds ==> t.outbounds[l] == [])
    && (forall p :: p in t.plants ==> t.plants[p] == [])
  }

  /** Which locations make the end product depends on the product lists alone. */
  lemma EndProductPlantsOfProducts(t: Network, t': Network)
    requires t'.products == t.products && t'.numProducts == t.numProducts
    ensures EndProductPlants(t') == EndProductPlants(t)
  {
  }

  /** Adding a product and adding a route change different parts of the network: their order does not matter. */
  lemma ProductRouteCommute(t: Network, l: nat, p: nat, r: Route)
    requires l in t.products && p in t.plants && r.start in t.outbounds && r.end in t.inbounds
    ensures WithRoute(WithProduct(t, l, p), r) == WithProduct(WithRoute(t, r), l, p)
  {
  }

  /** The dictionary {id: [] for id in range(1, n + 1)}: ids 1..n, each with an empty list. */
  function EmptyLists<T>(n: nat): (m: map<nat, seq<T>>)
    ensures forall l :: l in m <==> 1 <= l <= n
    ensures forall l :: l in m ==> m[l] == []
  {
    if n == 0 then map[] else EmptyLists(n - 1)[n := []]
  }

  // ---------------------------------------------------------------- well-formedness

  ghost predicate Domains(t: Network) {
    && t.numLocations >= 2 && t.numProducts >= 2
    && (forall l :: l in t.products <==> IsLocation(t, l))
    && (forall l :: l in t.inbounds <==> IsLocation(t, l))
    && (forall l :: l in t.outbounds <==> IsLocation(t, l))
    && (forall p :: p in t.plants <==> IsProduct(t, p))
  }

  /** Location._products and Product._plants describe the same relation. */
  ghost predicate ProductionMirrored(products: map<nat, seq<nat>>, plants: map<nat, seq<nat>>) {
    && (forall l, p {:trigger p in products[l]} :: l in products && p in products[l] ==> p in plants && l in plants[p])
    && (forall p, l {:trigger l in plants[p]} :: p in plants && l in plants[p] ==> l in products && p in products[l])
  }

  /** Each registered route sits under its own key, joins two locations and is not a self-loop. */
  ghost predicate RoutesKeyed(routes: map<RouteKey, Route>, numLocations: nat) {
    forall k :: k in routes ==>
      && routes[k].Key() == k
      && k.0 != k.1
      && 1 <= k.0 <= numLocations && 1 <= k.1 <= numLocations
  }

  /** The inbound and outbound lists hold exactly the registered routes, once each. */
  ghost predicate RouteListsMirrored(routes: map<RouteKey, Route>,
                                     inbounds: map<nat, seq<Route>>, outbounds: map<nat, seq<Route>>) {
    && (forall l, r {:trigger r in outbounds[l]} :: l in outbounds && r in outbounds[l] ==>
          r.start == l && r.Key() in routes && routes[r.Key()] == r)
    && (forall l, r {:trigger r in inbounds[l]} :: l in inbounds && r in inbounds[l] ==>
          r.end == l && r.Key() in routes && routes[r.Key()] == r)
    && (forall k :: k in routes ==>
          k.0 in outbounds && routes[k] in outbounds[k.0] &&
          k.1 in inbounds && routes[k] in inbounds[k.1])
    && (forall l :: l in outbounds ==> Distinct(outbounds[l]))
    && (forall l :: l in inbounds ==> Distinct(inbounds[l]))
  }

  ghost predicate OrderEnumerates(routes: map<RouteKey, Route>, routeOrder: seq<RouteKey>) {
    && Distinct(routeOrder)
    && (forall k {:trigger k in routeOrder} :: k in routeOrder <==> k in routes)
  }

  ghost predicate WellFormed(t: Network) {
    && Domains(t)
    && ProductionMirrored(t.products, t.plants)
    && RoutesKeyed(t.routes, t.numLocations)
    && RouteListsMirrored(t.routes, t.inbounds, t.outbounds)
    && OrderEnumerates(t.routes, t.routeOrder)
  }

  /**
   * No location lists a product twice and no product a plant twice: add_product and
   * add_plant refuse an entry already listed.
   */
  ghost predicate ListsDistinct(t: Network) {
    && (forall l :: l in t.products ==> Distinct(t.products[l]))
    && (forall p :: p in t.plants ==> Distinct(t.plants[p]))
  }

  // ---------------------------------------------------------------- mutations

  /** Location.add_product followed by Product.add_plant: both lists are appended. */
  function WithProduct(t: Network, l: nat, p: nat): (t': Network)
    requires l in t.products && p in t.plants
    ensures t'.products == t.products[l := t.products[l] + [p]]
    ensures t'.plants == t.plants[p := t.plants[p] + [l]]
    ensures t'.routes == t.routes && t'.inbounds == t.inbounds && t'.outbounds == t.outbounds
    ensures t'.numLocations == t.numLocations && t'.numProducts == t.numProducts && t'.routeOrder == t.routeOrder
  {
    t.(products := t.products[l := t.products[l] + [p]],
       plants := t.plants[p := t.plants[p] + [l]])
  }

  /** The _Route constructor: the route appends itself to its start's outbounds and its end's inbounds. */
  function WithAttachedRoute(t: Network, r: Route): (t': Network)
    requires r.start in t.outbounds && r.end in t.inbounds
    ensures r.start in t'.outbounds && r.end in t'.inbounds
    ensures t'.outbounds[r.start] == t.outbounds[r.start] + [r]
    ensures t'.inbounds[r.end] == t.inbounds[r.end] + [r]
    ensures t'.routes == t.routes && t'.products == t.products && t'.plants == t.plants
    ensures t'.numLocations == t.numLocations && t'.numProducts == t.numProducts && t'.routeOrder == t.routeOrder
  {
    t.(outbounds := t.outbounds[r.start := t.outbounds[r.start] + [r]],
       inbounds := t.inbounds[r.end := t.inbounds[r.end] + [r]])
  }

  /** add_route: the route is stored under its (start, end) key. */
  function WithRegisteredRoute(t: Network, r: Route): (t': Network)
    ensures t'.routes == t.routes[r.Key() := r] && t'.routeOrder == t.routeOrder + [r.Key()]
    ensures t'.products == t.products && t'.inbounds == t.inbounds && t'.outbounds == t.outbounds
    ensures t'.numLocations == t.numLocations && t'.numProducts == t.numProducts && t'.plants == t.plants
  {
    t.(routes := t.routes[r.Key() := r], routeOrder := t.routeOrder + [r.Key()])
  }

  /** A route built and registered in one step, as every call site does. */
  function WithRoute(t: Network, r: Route): Network
    requires r.start in t.outbounds && r.end in t.inbounds
  {
    WithRegisteredRoute(WithAttachedRoute(t, r), r)
  }

  // ---------------------------------------------------------------- preservation

  /** Product.add_plant's duplicate check never fires after Location.add_product's passed. */
  lemma PlantListMirrorsProducts(t: Network, l: nat, p: nat)
    requires WellFormed(t) && IsLocation(t, l) && IsProduct(t, p)
    ensures l in t.plants[p] <==> p in t.products[l]
  {
  }

  lemma {:induction false} MirroredAfterAppend(products: map<nat, seq<nat>>, plants: map<nat, seq<nat>>,
                                               l: nat, p: nat)
    requires ProductionMirrored(products, plants)
    requires l in products && p in plants && p !in products[l] && l !in plants[p]
    ensures ProductionMirrored(products[l := products[l] + [p]], plants[p := plants[p] + [l]])
  {
    var products', plants' := products[l := products[l] + [p]], plants[p := plants[p] + [l]];
    forall x, q | x in products' && q in products'[x]
      ensures q in plants' && x in plants'[q]
    {
      if x == l && q == p {
      } else if x == l {
        assert q in products[l];
      } else {
        assert q in products[x];
      }
    }
    forall q, x | q in plants' && x in plants'[q]
      ensures x in products' && q in products'[x]
    {
      if q == p && x == l {
      } else if q == p {
        assert x in plants[p];
      } else {
        assert x in plants[q];
      }
    }
  }

  /** A graph with its locations and products and nothing linked yet is well formed. */
  lemma UnlinkedWellFormed(t: Network)
    requires Unlinked(t) && Domains(t)
    ensures WellFormed(t) && ListsDistinct(t)
  {
  }

  lemma ListsDistinctAfterProduct(t: Network, l: nat, p: nat)
    requires ListsDistinct(t) && ProductionMirrored(t.products, t.plants)
    requires l in t.products && p in t.plants && p !in t.products[l]
    ensures ListsDistinct(WithProduct(t, l, p))
  {
    DistinctAppend(t.products[l], p);
    DistinctAppend(t.plants[p], l);
  }

  lemma {:induction false} WithProductWellFormed(t: Network, l: nat, p: nat)
    requires WellFormed(t) && IsLocation(t, l) && IsProduct(t, p)
    requires p !in t.products[l]
    ensures WellFormed(WithProduct(t, l, p))
  {
    PlantListMirrorsProducts(t, l, p);
    MirroredAfterAppend(t.products, t.plants, l, p);
  }

  lemma {:induction false} WithProductEndProductPlants(t: Network, l: nat, p: nat)
    requires l in t.products && p in t.plants
    ensures EndProductPlants(WithProduct(t, l, p)) ==
      EndProductPlants(t) + (if p == t.numProducts then {l} else {})
  {
    var t' := WithProduct(t, l, p);
    forall x ensures x in EndProductPlants(t') <==> x in EndProductPlants(t) || (p == t.numProducts && x == l) {
      if x == l {
        assert t'.products[l] == t.products[l] + [p];
      }
    }
  }

  lemma {:induction false} ListsMirroredAfterRoute(routes: map<RouteKey, Route>,
                                                   inbounds: map<nat, seq<Route>>,
                                                   outbounds: map<nat, seq<Route>>, r: Route)
    requires RouteListsMirrored(routes, inbounds, outbounds)
    requires r.start in outbounds && r.end in inbounds && r.Key() !in routes
    ensures RouteListsMirrored(routes[r.Key() := r],
                               inbounds[r.end := inbounds[r.end] + [r]],
                               outbounds[r.start := outbounds[r.start] + [r]])
  {
    var routes' := routes[r.Key() := r];
    var inbounds' := inbounds[r.end := inbounds[r.end] + [r]];
    var outbounds' := outbounds[r.start := outbounds[r.start] + [r]];
    assert r !in outbounds[r.start];
    assert r !in inbounds[r.end];
    forall x: nat, q: Route | x in outbounds' && q in outbounds'[x]
      ensures q.start == x && q.Key() in routes' && routes'[q.Key()] == q
    {
      if q != r {
        assert q in outbounds[x];
      }
    }
    forall x: nat, q: Route | x in inbounds' && q in inbounds'[x]
      ensures q.end == x && q.Key() in routes' && routes'[q.Key()] == q
    {
      if q != r {
        assert q in inbounds[x];
      }
    }
    forall k | k in routes'
      ensures k.0 in outbounds' && routes'[k] in outbounds'[k.0] &&
              k.1 in inbounds' && routes'[k] in inbounds'[k.1]
    {
      if k != r.Key() {
        assert routes[k] in outbounds[k.0];
        assert routes[k] in inbounds[k.1];
      }
    }
  }

  lemma {:induction false} KeyedAfterRoute(routes: map<RouteKey, Route>, numLocations: nat, r: Route)
    requires RoutesKeyed(routes, numLocations)
    requires r.start != r.end && 1 <= r.start <= numLocations && 1 <= r.end <= numLocations
    ensures RoutesKeyed(routes[r.Key() := r], numLocations)
  {
  }

  lemma {:induction false} OrderAfterRoute(routes: map<RouteKey, Route>, routeOrder: seq<RouteKey>, r: Route)
    requires OrderEnumerates(routes, routeOrder) && r.Key() !in routes
    ensures OrderEnumerates(routes[r.Key() := r], routeOrder + [r.Key()])
  {
    assert r.Key() !in routeOrder;
    DistinctAppend(routeOrder, r.Key());
  }

  lemma {:induction false} WithRouteWellFormed(t: Network, r: Route)
    requires WellFormed(t) && IsLocation(t, r.start) && IsLocation(t, r.end)
    requires r.start != r.end && r.Key() !in t.routes
    ensures WellFormed(WithRoute(t, r))
  {
    var t' := WithRoute(t, r);
    ListsMirroredAfterRoute(t.routes, t.inbounds, t.outbounds, r);
    KeyedAfterRoute(t.routes, t.numLocations, r);
    OrderAfterRoute(t.routes, t.routeOrder, r);
    assert t'.inbounds == t.inbounds[r.end := t.inbounds[r.end] + [r]];
    assert t'.outbounds == t.outbounds[r.start := t.outbounds[r.start] + [r]];
  }

  // ---------------------------------------------------------------- availability of materials

  /**
   * Material m reaches location l: l produces it, or the start of one of l's inbound
   * routes does.
   */
  ghost predicate Available(t: Network, l: nat, m: nat) {
    && l in t.products && l in t.inbounds
    && (|| m in t.products[l]
        || exists r :: r in t.inbounds[l] && r.start in t.products && m in t.products[r.start])
  }

  ghost predicate MaterialsAvailable(t: Network, l: nat) {
    forall m :: IsMaterial(t, m) ==> Available(t, l, m)
  }

  /** t' keeps every production and every route of t, and adds no route. */
  ghost predicate OnlyProductsAdded(t: Network, t': Network) {
    && t'.numLocations == t.numLocations && t'.numProducts == t.numProducts
    && t'.routes == t.routes && t'.routeOrder == t.routeOrder
    && t'.inbounds == t.inbounds && t'.outbounds == t.outbounds
    && (forall l :: l in t.products ==> l in t'.products && t.products[l] <= t'.products[l])
  }

  lemma {:induction false} AvailableGrows(t: Network, t': Network, l: nat, m: nat)
    requires OnlyProductsAdded(t, t')
    requires Available(t, l, m)
    ensures Available(t', l, m)
  {
    if m !in t.products[l] {
      var r :| r in t.inbounds[l] && r.start in t.products && m in t.products[r.start];
      assert m in t'.products[r.start];
    }
  }

  lemma {:induction false} OnlyProductsAddedByProduct(t: Network, l: nat, p: nat)
    requires l in t.products && p in t.plants
    ensures OnlyProductsAdded(t, WithProduct(t, l, p))
  {
    var t' := WithProduct(t, l, p);
    forall x | x in t.products ensures x in t'.products && t.products[x] <= t'.products[x] {
      if x == l {
        assert t'.products[l] == t.products[l] + [p];
      }
    }
  }

  lemma OnlyProductsAddedTransitive(t1: Network, t2: Network, t3: Network)
    requires OnlyProductsAdded(t1, t2) && OnlyProductsAdded(t2, t3)
    ensures OnlyProductsAdded(t1, t3)
  {
  }
}
