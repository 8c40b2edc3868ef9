/**
 * What the generation and repair passes establish about the topology, shared by both
 * graph files: the shape of the routes, the market, the materials per plant, and the
 * availability of every material at every end-product plant.
 */
module Generation {
  import opened Sampling
  import opened Topology

  /** INT_MAX_PRODUCTS_IN_ONE_LOCATION */
  const MaxProductsInOneLocation: nat := 3
  /** INT_MAX_DISTANCE */
  const MaxDistance: nat := 5

  /** math.ceil(m / 4) for a count m. */
  function CeilQuarter(m: nat): (c: nat)
    ensures 4 * c >= m && 4 * (c - 1) < m
    ensures c <= m
  {
    (m + 3) / 4
  }

  /** The number of end-product plants: math.floor(num_locations * 0.5). */
  function EndProductPlantCount(numLocations: nat): (n: nat)
    ensures numLocations >= 2 ==> 1 <= n < numLocations
    ensures 2 * n <= numLocations < 2 * n + 2
  {
    numLocations / 2
  }

  /** s without the occurrences of x, in order. */
  function Without(s: seq<nat>, x: nat): (r: seq<nat>)
    ensures forall y :: y in r <==> y in s && y != x
    ensures |r| <= |s|
    decreases |s|
  {
    if s == [] then []
    else
      var r := Without(s[..|s| - 1], x) + (if s[|s| - 1] == x then [] else [s[|s| - 1]]);
      assert forall y :: y in s <==> y in s[..|s| - 1] || y == s[|s| - 1] by {
        assert s == s[..|s| - 1] + [s[|s| - 1]];
      }
      r
  }

  lemma {:induction false} WithoutAppend(s: seq<nat>, ms: seq<nat>, x: nat)
    requires x !in ms
    ensures Without(s + ms, x) == Without(s, x) + ms
    decreases |ms|
  {
    if ms != [] {
      var ms0 := ms[..|ms| - 1];
      assert (s + ms)[..|s + ms| - 1] == s + ms0;
      WithoutAppend(s, ms0, x);
      assert ms == ms0 + [ms[|ms| - 1]];
    } else {
      assert s + ms == s;
    }
  }

  /** The materials location l produces, in order (its products without the end product). */
  function MaterialsOf(t: Network, l: nat): (ms: seq<nat>)
    requires l in t.products
    ensures forall m :: m in ms <==> m in t.products[l] && m != EndProduct(t)
  {
    Without(t.products[l], EndProduct(t))
  }

  // ---------------------------------------------------------------- shape of the generated graph

  /**
   * Every route starts at a plant and ends at the market or at an end-product plant, and
   * its reverse is not registered.
   */
  ghost predicate RoutesShaped(t: Network) {
    forall k :: k in t.routes ==>
      && IsPlant(t, k.0)
      && (k.1 == EndLocation(t) || (k.1 in t.products && EndProduct(t) in t.products[k.1]))
      && (k.1, k.0) !in t.routes
  }

  /** Every end-product plant (but x) has a route to the market. */
  ghost predicate MarketLinkedExcept(t: Network, x: nat) {
    forall l :: l in t.products && EndProduct(t) in t.products[l] && l != x ==> (l, EndLocation(t)) in t.routes
  }

  ghost predicate MarketLinked(t: Network) {
    MarketLinkedExcept(t, 0)
  }

  /** The market produces nothing. */
  ghost predicate MarketIdle(t: Network) {
    EndLocation(t) in t.products && t.products[EndLocation(t)] == []
  }

  ghost predicate Shaped(t: Network) {
    RoutesShaped(t) && MarketLinked(t) && MarketIdle(t)
  }

  /** Every route between plants starts at a plant that produces some material (l excepted). */
  ghost predicate SuppliersProduceExcept(t: Network, l: nat) {
    forall k :: k in t.routes && k.1 != EndLocation(t) && k.0 != l ==>
      k.0 in t.products && MaterialsOf(t, k.0) != []
  }

  ghost predicate SuppliersProduce(t: Network) {
    SuppliersProduceExcept(t, 0)
  }

  lemma {:induction false} MaterialsGrow(t: Network, l: nat, p: nat, x: nat)
    requires l in t.products && p in t.plants && x in t.products
    requires MaterialsOf(t, x) != []
    ensures MaterialsOf(WithProduct(t, l, p), x) != []
  {
    var t' := WithProduct(t, l, p);
    var m := MaterialsOf(t, x)[0];
    assert m in t.products[x];
    assert m in t'.products[x];
    assert m in MaterialsOf(t', x);
  }

  lemma {:induction false} SuppliersAfterProduct(t: Network, l: nat, p: nat, except: nat)
    requires l in t.products && p in t.plants
    requires SuppliersProduceExcept(t, except)
    ensures SuppliersProduceExcept(WithProduct(t, l, p), except)
    ensures p != EndProduct(t) && l == except ==> SuppliersProduceExcept(WithProduct(t, l, p), 0)
  {
    var t' := WithProduct(t, l, p);
    forall k | k in t'.routes && k.1 != EndLocation(t') && k.0 != except
      ensures k.0 in t'.products && MaterialsOf(t', k.0) != []
    {
      MaterialsGrow(t, l, p, k.0);
    }
    if p != EndProduct(t) && l == except {
      assert p in MaterialsOf(t', l);
      forall k | k in t'.routes && k.1 != EndLocation(t') && k.0 != 0
        ensures k.0 in t'.products && MaterialsOf(t', k.0) != []
      {
        if k.0 != l {
          MaterialsGrow(t, l, p, k.0);
        }
      }
    }
  }

  lemma {:induction false} ShapeAfterProduct(t: Network, l: nat, p: nat)
    requires l in t.products && p in t.plants && l != EndLocation(t) && 0 !in t.products
    requires RoutesShaped(t) && MarketIdle(t) && MarketLinkedExcept(t, 0)
    ensures RoutesShaped(WithProduct(t, l, p)) && MarketIdle(WithProduct(t, l, p))
    ensures MarketLinkedExcept(WithProduct(t, l, p), l)
    ensures p != EndProduct(t) || (l, EndLocation(t)) in t.routes ==> MarketLinked(WithProduct(t, l, p))
  {
    var t' := WithProduct(t, l, p);
    forall k | k in t'.routes
      ensures IsPlant(t', k.0)
      ensures k.1 == EndLocation(t') || (k.1 in t'.products && EndProduct(t') in t'.products[k.1])
    {
      if k.1 != EndLocation(t) {
        assert t.products[k.1] <= t'.products[k.1];
      }
    }
    forall x | x in t'.products && EndProduct(t') in t'.products[x] && x != l
      ensures (x, EndLocation(t')) in t'.routes
    {
      assert EndProduct(t) in t.products[x];
    }
    if p != EndProduct(t) || (l, EndLocation(t)) in t.routes {
      forall x | x in t'.products && EndProduct(t') in t'.products[x] && x != 0
        ensures (x, EndLocation(t')) in t'.routes
      {
        if x != l || p != EndProduct(t) {
          assert EndProduct(t) in t.products[x];
        }
      }
    }
  }

  /** The conditions every generated route meets when it is added. */
  ghost predicate RouteFits(t: Network, r: Route) {
    && IsPlant(t, r.start) && r.start != r.end
    && (r.end == EndLocation(t) || (r.end in t.products && EndProduct(t) in t.products[r.end]))
    && r.Key() !in t.routes
    && (r.end, r.start) !in t.routes
  }

  lemma SuppliersProduceAnyExcept(t: Network, l: nat)
    requires RoutesShaped(t) && SuppliersProduce(t)
    ensures SuppliersProduceExcept(t, l)
  {
  }

  lemma {:induction false} ShapeAfterRoute(t: Network, r: Route, x: nat)
    requires r.start in t.outbounds && r.end in t.inbounds
    requires RouteFits(t, r) && RoutesShaped(t) && MarketIdle(t) && MarketLinkedExcept(t, x)
    ensures RoutesShaped(WithRoute(t, r)) && MarketIdle(WithRoute(t, r))
    ensures MarketLinkedExcept(WithRoute(t, r), x)
    ensures r.start == x && r.end == EndLocation(t) ==> MarketLinked(WithRoute(t, r))
  {
    var t' := WithRoute(t, r);
    forall k | k in t'.routes
      ensures IsPlant(t', k.0)
      ensures k.1 == EndLocation(t') || (k.1 in t'.products && EndProduct(t') in t'.products[k.1])
      ensures (k.1, k.0) !in t'.routes
    {
      if k != r.Key() {
        assert k in t.routes;
        assert k != (r.end, r.start);
      }
    }
    forall y | y in t'.products && EndProduct(t') in t'.products[y] && y != x
      ensures (y, EndLocation(t')) in t'.routes
    {
      assert (y, EndLocation(t)) in t.routes;
    }
    if r.start == x && r.end == EndLocation(t) {
      forall y | y in t'.products && EndProduct(t') in t'.products[y] && y != 0
        ensures (y, EndLocation(t')) in t'.routes
      {
        if y != x {
          assert (y, EndLocation(t)) in t.routes;
        }
      }
    }
  }

  lemma {:induction false} SuppliersAfterRoute(t: Network, r: Route, except: nat)
    requires r.start in t.outbounds && r.end in t.inbounds
    requires SuppliersProduceExcept(t, except)
    requires r.end == EndLocation(t) || r.start == except
    ensures SuppliersProduceExcept(WithRoute(t, r), except)
  {
    var t' := WithRoute(t, r);
    forall k | k in t'.routes && k.1 != EndLocation(t') && k.0 != except
      ensures k.0 in t'.products && MaterialsOf(t', k.0) != []
    {
      assert k in t.routes;
    }
  }

  // ---------------------------------------------------------------- after the end-product step

  /**
   * The plants in E make exactly the end product and have exactly one route each, to the
   * market; no other location makes anything.
   */
  ghost predicate EndProductsOnly(t: Network, E: set<nat>) {
    && (forall l :: l in t.products ==> t.products[l] == if l in E then [EndProduct(t)] else [])
    && (forall k :: k in t.routes ==> k.1 == EndLocation(t) && k.0 in E)
    && (forall l :: l in E ==> IsPlant(t, l) && (l, EndLocation(t)) in t.routes)
  }

  lemma {:induction false} EndProductsOnlyAdvance(t: Network, E: set<nat>, l: nat, distance: nat)
    requires EndProductsOnly(t, E) && Domains(t) && IsPlant(t, l) && l !in E
    ensures l in t.products && t.products[l] == [] && (l, EndLocation(t)) !in t.routes
    ensures l in t.outbounds && EndLocation(t) in t.inbounds && EndProduct(t) in t.plants
    ensures EndProductsOnly(WithProduct(WithRoute(t, Route(l, EndLocation(t), distance)), l, EndProduct(t)), E + {l})
  {
    assert IsLocation(t, l) && IsLocation(t, EndLocation(t)) && IsProduct(t, EndProduct(t));
    var r := Route(l, EndLocation(t), distance);
    var t' := WithProduct(WithRoute(t, r), l, EndProduct(t));
    assert t'.routes == t.routes[r.Key() := r];
    assert t'.products == t.products[l := t.products[l] + [EndProduct(t)]];
  }

  lemma {:induction false} EndProductsOnlyShaped(t: Network, E: set<nat>)
    requires EndProductsOnly(t, E) && Domains(t)
    ensures Shaped(t) && SuppliersProduce(t)
    ensures SuppliedBefore(t, E, 1)
  {
    assert IsLocation(t, EndLocation(t));
    forall x | 1 <= x < t.numLocations ensures x in t.products {
      assert IsLocation(t, x);
    }
  }

  // ---------------------------------------------------------------- after the material step

  /** x makes a material and has a route to one of the end-product plants E. */
  ghost predicate Linked(t: Network, E: set<nat>, x: nat)
    requires x in t.products
  {
    MaterialsOf(t, x) != [] && exists e :: e in E && (x, e) in t.routes
  }

  /**
   * What the material step leaves at plant x: at most INT_MAX_PRODUCTS_IN_ONE_LOCATION
   * materials, at most ceil(m / 4) of the m materials at an end-product plant, and at
   * least one material and a route to an end-product plant anywhere else.
   */
  ghost predicate Supplied(t: Network, E: set<nat>, x: nat) {
    && x in t.products
    && |MaterialsOf(t, x)| <= MaxProductsInOneLocation
    && (x in E ==> |MaterialsOf(t, x)| <= CeilQuarter(MaterialCount(t)))
    && (x !in E ==> Linked(t, E, x))
  }

  /** Every plant outside E makes a material and ships to a plant of E. */
  ghost predicate SuppliersLinked(t: Network, E: set<nat>) {
    forall x :: IsPlant(t, x) && x !in E ==> x in t.products && Linked(t, E, x)
  }

  /** t' differs from t only at location l: in l's products and in routes leaving l. */
  ghost predicate ChangedOnlyAt(t: Network, t': Network, l: nat) {
    && t'.numLocations == t.numLocations && t'.numProducts == t.numProducts
    && (forall x :: x in t.products && x != l ==> x in t'.products && t'.products[x] == t.products[x])
    && (forall k :: k in t.routes ==> k in t'.routes)
  }

  lemma ChangedOnlyAtTransitive(t1: Network, t2: Network, t3: Network, l: nat)
    requires ChangedOnlyAt(t1, t2, l) && ChangedOnlyAt(t2, t3, l)
    ensures ChangedOnlyAt(t1, t3, l)
  {
  }

  lemma {:induction false} ChangedOnlyAtProduct(t: Network, l: nat, p: nat)
    requires l in t.products && p in t.plants
    ensures ChangedOnlyAt(t, WithProduct(t, l, p), l)
  {
  }

  /** Adding ms[j] to l, whose products are its original ones followed by ms[..j]. */
  lemma {:induction false} MaterialsAppendStep(before: seq<nat>, current: seq<nat>, ms: seq<nat>, j: nat, end: nat)
    requires Without(before, end) == [] && Distinct(ms) && end !in ms && j < |ms|
    requires current == before + ms[..j]
    ensures ms[j] !in current
    ensures current + [ms[j]] == before + ms[..j + 1]
  {
    assert ms[j] !in before by {
      assert ms[j] != end && ms[j] !in Without(before, end);
    }
    assert forall i :: 0 <= i < j ==> ms[..j][i] != ms[j];
    assert ms[..j + 1] == ms[..j] + [ms[j]];
  }

  /** Once all of ms is appended, the materials of l are exactly ms. */
  lemma {:induction false} MaterialsAppendDone(t0: Network, t: Network, l: nat, ms: seq<nat>)
    requires l in t0.products && l in t.products && t.numProducts == t0.numProducts
    requires MaterialsOf(t0, l) == [] && EndProduct(t0) !in ms
    requires t.products[l] == t0.products[l] + ms[..|ms|]
    ensures MaterialsOf(t, l) == ms
  {
    assert ms[..|ms|] == ms;
    WithoutAppend(t0.products[l], ms, EndProduct(t0));
  }

  /**
   * The plants before l are supplied and the locations from l on are as the end-product
   * step left them.
   */
  ghost predicate SuppliedBefore(t: Network, E: set<nat>, l: nat) {
    && SuppliedBelow(t, E, l)
    && (forall x :: l <= x < t.numLocations ==> LeftByEndProductStep(t, E, x))
  }

  /** Plants 1 to l - 1 are supplied, one after the other as the material step goes. */
  ghost predicate SuppliedBelow(t: Network, E: set<nat>, l: nat)
    decreases l
  {
    l <= 1 || (SuppliedBelow(t, E, l - 1) && Supplied(t, E, l - 1))
  }

  /** Each plant below l is supplied. */
  lemma {:induction false} SuppliedBelowAt(t: Network, E: set<nat>, l: nat, x: nat)
    requires SuppliedBelow(t, E, l) && 1 <= x < l
    ensures Supplied(t, E, x)
    decreases l
  {
    if x < l - 1 {
      SuppliedBelowAt(t, E, l - 1, x);
    }
  }

  /** A plant stays supplied when only plant c changes and its routes stay. */
  lemma {:induction false} SuppliedFrame(t: Network, t': Network, E: set<nat>, c: nat, x: nat)
    requires Supplied(t, E, x) && ChangedOnlyAt(t, t', c) && x != c
    ensures Supplied(t', E, x)
  {
    assert t'.products[x] == t.products[x];
    assert MaterialsOf(t', x) == MaterialsOf(t, x);
    if x !in E {
      var e :| e in E && (x, e) in t.routes;
      assert (x, e) in t'.routes;
    }
  }

  /** The plants below l stay supplied when only a plant from l on changes. */
  lemma {:induction false} SuppliedBelowFrame(t: Network, t': Network, E: set<nat>, c: nat, l: nat)
    requires SuppliedBelow(t, E, l) && ChangedOnlyAt(t, t', c) && l <= c
    ensures SuppliedBelow(t', E, l)
    decreases l
  {
    if l > 1 {
      SuppliedBelowFrame(t, t', E, c, l - 1);
      SuppliedFrame(t, t', E, c, l - 1);
    }
  }

  /** Location x makes the end product if it is in E and nothing otherwise. */
  ghost predicate LeftByEndProductStep(t: Network, E: set<nat>, x: nat) {
    x in t.products && t.products[x] == if x in E then [EndProduct(t)] else []
  }

  /** The plant the material step reaches makes no material yet. */
  lemma {:induction false} NotYetSupplied(t: Network, E: set<nat>, l: nat)
    requires SuppliedBefore(t, E, l) && l < t.numLocations
    ensures l in t.products && MaterialsOf(t, l) == []
  {
    assert LeftByEndProductStep(t, E, l);
    if l in E {
      assert t.products[l] == [EndProduct(t)];
      assert t.products[l][..0] == [];
    }
  }

  lemma {:induction false} SuppliedBeforeAdvance(t: Network, t': Network, E: set<nat>, l: nat)
    requires SuppliedBefore(t, E, l) && ChangedOnlyAt(t, t', l) && Supplied(t', E, l)
    ensures SuppliedBefore(t', E, l + 1)
  {
    SuppliedBelowFrame(t, t', E, l, l);
    forall x | l + 1 <= x < t'.numLocations
      ensures LeftByEndProductStep(t', E, x)
    {
      assert LeftByEndProductStep(t, E, x);
      assert t'.products[x] == t.products[x];
    }
  }

  /** A plant that draws no material at the material step stays supplied: it is an end-product plant. */
  lemma {:induction false} SuppliedIdle(t: Network, E: set<nat>, l: nat)
    requires SuppliedBefore(t, E, l) && 1 <= l < t.numLocations && l in E
    ensures SuppliedBefore(t, E, l + 1)
  {
    NotYetSupplied(t, E, l);
    assert Supplied(t, E, l);
  }

  /**
   * The number of materials the material step draws for a plant:
   * min(randint(0, ceil(m / 4)), INT_MAX_PRODUCTS_IN_ONE_LOCATION) at an end-product plant
   * and min(randint(1, m), INT_MAX_PRODUCTS_IN_ONE_LOCATION) elsewhere, for m materials.
   */
  method DrawMaterialCount(atEndProductPlant: bool, m: nat) returns (k: nat)
    requires m >= 1
    ensures k <= MaxProductsInOneLocation && k <= m
    ensures atEndProductPlant ==> k <= CeilQuarter(m)
    ensures !atEndProductPlant ==> k >= 1
  {
    var draw: nat;
    if atEndProductPlant {
      var most := CeilQuarter(m);
      draw :| 0 <= draw <= most;
    } else {
      draw :| 1 <= draw <= m;
    }
    k := if draw < MaxProductsInOneLocation then draw else MaxProductsInOneLocation;
  }

  /** The k materials drawn for plant l after its routes (t0 to t1) are added: none made yet. */
  lemma {:induction false} DrawnMaterialsFit(t0: Network, t1: Network, l: nat, ms: seq<nat>, k: nat)
    requires ChangedOnlyAt(t0, t1, l) && t1.products == t0.products && l in t0.products && MaterialsOf(t0, l) == []
    requires 1 <= k <= MaterialCount(t0) && |ms| == SubsetSize(MaterialCount(t1), k)
    ensures |ms| == k && ms != [] && MaterialsOf(t1, l) == []
  {
  }

  /**
   * After its routes (t0 to t1) and the k drawn materials ms (t1 to t), plant l is supplied
   * and the material step moves on.
   */
  lemma {:induction false} SupplyStepDone(t0: Network, t1: Network, t: Network, E: set<nat>, l: nat, ms: seq<nat>, k: nat)
    requires SuppliedBefore(t0, E, l) && ChangedOnlyAt(t0, t1, l) && ChangedOnlyAt(t1, t, l)
    requires l in t.products && MaterialsOf(t, l) == ms && |ms| == k
    requires 1 <= k <= MaxProductsInOneLocation && (l in E ==> k <= CeilQuarter(MaterialCount(t0)))
    requires l !in E ==> exists e :: e in E && (l, e) in t1.routes
    ensures SuppliedBefore(t, E, l + 1)
  {
    ChangedOnlyAtTransitive(t0, t1, t, l);
    assert Supplied(t, E, l) by {
      if l !in E {
        var e :| e in E && (l, e) in t1.routes;
        assert (l, e) in t.routes;
      }
    }
    SuppliedBeforeAdvance(t0, t, E, l);
  }

  lemma {:induction false} LinkedKept(t: Network, t': Network, E: set<nat>)
    requires SuppliersLinked(t, E) && OnlyProductsAdded(t, t')
    ensures SuppliersLinked(t', E)
  {
    forall x | IsPlant(t', x) && x !in E ensures x in t'.products && Linked(t', E, x) {
      var m := MaterialsOf(t, x)[0];
      assert m in t.products[x] && m in t'.products[x];
      assert m in MaterialsOf(t', x);
      var e :| e in E && (x, e) in t.routes;
      assert (x, e) in t'.routes;
    }
  }

  /** Once the material step has reached every plant, every plant outside E is linked. */
  lemma {:induction false} MaterialStepLinks(t: Network, E: set<nat>)
    requires SuppliedBefore(t, E, t.numLocations)
    ensures SuppliersLinked(t, E)
  {
    forall x | IsPlant(t, x) && x !in E ensures x in t.products && Linked(t, E, x) {
      SuppliedBelowAt(t, E, t.numLocations, x);
    }
  }

  // ---------------------------------------------------------------- the repair pass

  /** The start of each route, in order: the connected plants of a location. */
  function Starts(rs: seq<Route>): (ls: seq<nat>)
    ensures |ls| == |rs|
    ensures forall l :: l in ls <==> exists r :: r in rs && r.start == l
  {
    if rs == [] then [] else [rs[0].start] + Starts(rs[1..])
  }

  /** The materials of ms missing from avail, in order: materials_not_delivered_to_plant. */
  function Undelivered(ms: seq<nat>, avail: seq<nat>): (r: seq<nat>)
    ensures forall m :: m in r <==> m in ms && m !in avail
    ensures Distinct(ms) ==> Distinct(r)
  {
    if ms == [] then []
    else
      var rest := Undelivered(ms[1..], avail);
      assert Distinct(ms) ==> ms[0] !in ms[1..] && Distinct(ms[1..]);
      (if ms[0] in avail then [] else [ms[0]]) + rest
  }

  /** Products listed at x in t that are not listed there in t0 are all among ps. */
  ghost predicate AddedOnly(t0: Network, t: Network, ps: seq<nat>) {
    forall x, p :: x in t.products && p in t.products[x] ==>
      (x in t0.products && p in t0.products[x]) || p in ps
  }

  /**
   * The materials available at end-product plant e, as the repair pass lists them: those e
   * makes, then those of each connected plant in turn (repeats kept).
   */
  method CollectAvailable(t: Network, e: nat) returns (avail: seq<nat>, connected: seq<nat>)
    requires e in t.products && e in t.inbounds
    requires forall c :: c in Starts(t.inbounds[e]) ==> c in t.products
    ensures connected == Starts(t.inbounds[e])
    ensures forall m :: m in avail <==> m != EndProduct(t) && Available(t, e, m)
  {
    connected := Starts(t.inbounds[e]);
    avail := MaterialsOf(t, e);
    var k := 0;
    while k < |connected|
      invariant k <= |connected|
      invariant forall m :: m in avail <==>
        (m != EndProduct(t) && (m in t.products[e] || exists i :: 0 <= i < k && m in t.products[connected[i]]))
    {
      assert connected[k] in connected;
      avail := avail + MaterialsOf(t, connected[k]);
      k := k + 1;
    }
    forall m ensures m in avail <==> m != EndProduct(t) && Available(t, e, m) {
      AvailableViaStarts(t, e, connected, m);
    }
  }

  /** The plant the repair pass adds a missing material to: a connected plant at random, else e. */
  method PickSupplier(e: nat, connected: seq<nat>) returns (c: nat)
    ensures connected != [] ==> c in connected
    ensures connected == [] ==> c == e
  {
    if |connected| > 0 {
      var picked, _ := RandomSubset(connected, 1);
      c := picked[0];
    } else {
      c := e;
    }
  }

  /** Locations that reach every material keep doing so when only products are added. */
  lemma {:induction false} AllAvailableGrow(t: Network, t': Network, ls: seq<nat>, i: nat)
    requires OnlyProductsAdded(t, t') && i <= |ls|
    requires forall k :: 0 <= k < i ==> MaterialsAvailable(t, ls[k])
    ensures forall k :: 0 <= k < i ==> MaterialsAvailable(t', ls[k])
  {
    forall k, m | 0 <= k < i && IsMaterial(t', m) ensures Available(t', ls[k], m) {
      assert MaterialsAvailable(t, ls[k]) && IsMaterial(t, m);
      AvailableGrows(t, t', ls[k], m);
    }
  }

  /** Material m reaches l in t exactly when l or one of its connected plants produces it. */
  lemma {:induction false} AvailableViaStarts(t: Network, l: nat, connected: seq<nat>, m: nat)
    requires l in t.products && l in t.inbounds && connected == Starts(t.inbounds[l])
    requires forall c :: c in connected ==> c in t.products
    ensures Available(t, l, m) <==>
      m in t.products[l] || exists k :: 0 <= k < |connected| && m in t.products[connected[k]]
  {
    if exists k :: 0 <= k < |connected| && m in t.products[connected[k]] {
      var k :| 0 <= k < |connected| && m in t.products[connected[k]];
      assert connected[k] in connected;
      var r :| r in t.inbounds[l] && r.start == connected[k];
    }
    if m !in t.products[l] && Available(t, l, m) {
      var r :| r in t.inbounds[l] && r.start in t.products && m in t.products[r.start];
      assert r.start in connected;
      var k :| 0 <= k < |connected| && connected[k] == r.start;
    }
  }

  /**
   * Repair at location e, which reached in t1 none of the materials in missing: the first j
   * of them are added to e or to one of its connected plants, and nothing else is.
   */
  ghost predicate MissingAdded(t1: Network, t: Network, e: nat, connected: seq<nat>, missing: seq<nat>, j: nat) {
    && OnlyProductsAdded(t1, t)
    && e in t1.products && e in t1.inbounds && connected == Starts(t1.inbounds[e])
    && j <= |missing| && Distinct(missing)
    && (forall m :: m in missing ==> IsMaterial(t, m) && !Available(t1, e, m))
    && (forall m :: m in missing[..j] ==> Available(t, e, m))
    && AddedOnly(t1, t, missing[..j])
  }

  /** A material made at e or at a plant with a route into e is available at e. */
  lemma {:induction false} SupplierMakesAvailable(t: Network, e: nat, connected: seq<nat>, c: nat, m: nat)
    requires e in t.products && e in t.inbounds && connected == Starts(t.inbounds[e])
    requires c == e || c in connected
    ensures c in t.products && m in t.products[c] ==> Available(t, e, m)
  {
    if c != e && c in t.products && m in t.products[c] {
      var r :| r in t.inbounds[e] && r.start == c;
    }
  }

  /** Every material outside missing already reaches e in t. */
  ghost predicate MissingCovers(t: Network, e: nat, missing: seq<nat>) {
    forall m :: IsMaterial(t, m) && m !in missing ==> Available(t, e, m)
  }

  /** The next missing material is not made yet where the repair puts it. */
  lemma {:induction false} MissingNotMade(t1: Network, t: Network, e: nat, connected: seq<nat>, missing: seq<nat>,
                                          j: nat, c: nat)
    requires MissingAdded(t1, t, e, connected, missing, j) && j < |missing|
    requires (c == e || c in connected) && c in t.products
    ensures missing[j] !in t.products[c]
  {
    var m := missing[j];
    assert m in missing;
    assert forall k :: 0 <= k < j ==> missing[..j][k] != m;
    assert m !in missing[..j];
    SupplierMakesAvailable(t1, e, connected, c, m);
  }

  /** Adding the next missing material at e or a connected plant: one more is available. */
  lemma {:induction false} MissingAddedStep(t1: Network, t: Network, e: nat, connected: seq<nat>, missing: seq<nat>,
                                            j: nat, c: nat)
    requires MissingAdded(t1, t, e, connected, missing, j) && j < |missing|
    requires (c == e || c in connected) && c in t.products && missing[j] in t.plants
    ensures MissingAdded(t1, WithProduct(t, c, missing[j]), e, connected, missing, j + 1)
  {
    var m := missing[j];
    var t' := WithProduct(t, c, m);
    OnlyProductsAddedByProduct(t, c, m);
    OnlyProductsAddedTransitive(t1, t, t');
    assert missing[..j + 1] == missing[..j] + [m];
    forall x | x in missing[..j + 1] ensures Available(t', e, x) {
      if x in missing[..j] {
        AvailableGrows(t, t', e, x);
      } else if c == e {
        assert m in t'.products[e];
      } else {
        var r :| r in t1.inbounds[e] && r.start == c;
        assert r in t'.inbounds[e] && m in t'.products[c];
      }
    }
    forall x, p | x in t'.products && p in t'.products[x]
      ensures (x in t1.products && p in t1.products[x]) || p in missing[..j + 1]
    {
      if x != c || p != m {
        assert p in t.products[x];
      }
    }
  }

  // ---------------------------------------------------------------- what the generation guarantees

  /**
   * The graph SndpGraph.__init__ leaves: routes run from plants to the market or to an
   * end-product plant, never both ways; every end-product plant ships to the market; the
   * market makes nothing; every other plant makes a material and ships to an end-product
   * plant; and every end-product plant reaches every material.
   */
  ghost predicate NetworkGenerated(t: Network, E: set<nat>) {
    && Shaped(t)
    && SuppliersLinked(t, E)
    && (forall e :: e in E ==> MaterialsAvailable(t, e))
  }
}
