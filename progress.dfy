/**
 * How far the generation in SndpGraph.__init__ has got, stated on the topology alone. Both
 * versions of the graph take the same steps: the older one adds each end product before
 * its route to the market and a plant's materials before its routes, the newer one the
 * other way round. GraphState adds the export records the newer graph keeps in step.
 */
module Progress {
  import opened Sampling
  import opened Topology
  import opened Generation

  // ---------------------------------------------------------------- the end-product step

  /**
   * The end-product step has handled chosen[..i]: those plants, and no others, make the
   * end product and ship it to the market.
   */
  ghost predicate EndProductSteps(t: Network, E: set<nat>, chosen: seq<nat>, i: nat) {
    && i <= |chosen| && Distinct(chosen)
    && (forall x :: x in chosen ==> IsPlant(t, x))
    && EndProductsOnly(t, E) && |E| == i
    && (forall j :: i <= j < |chosen| ==> chosen[j] !in E)
  }

  /** One plant of the end-product step: its route to the market and the end product keep the progress. */
  lemma {:induction false} EndProductStepsAdvance(t: Network, E: set<nat>, chosen: seq<nat>, i: nat, distance: nat)
    requires EndProductSteps(t, E, chosen, i) && i < |chosen| && Domains(t)
    ensures chosen[i] in t.products && t.products[chosen[i]] == [] && (chosen[i], EndLocation(t)) !in t.routes
    ensures chosen[i] in t.outbounds && EndLocation(t) in t.inbounds && EndProduct(t) in t.plants
    ensures chosen[i] != EndLocation(t)
    ensures EndProductSteps(WithProduct(WithRoute(t, Route(chosen[i], EndLocation(t), distance)), chosen[i], EndProduct(t)),
                            E + {chosen[i]}, chosen, i + 1)
  {
    var l := chosen[i];
    assert l in chosen;
    CardinalityAddFresh(E, l);
    EndProductsOnlyAdvance(t, E, l, distance);
    forall j | i + 1 <= j < |chosen| ensures chosen[j] !in E + {l} {
      assert chosen[j] != chosen[i];
    }
  }

  /** The end-product step leaves a graph the material step can start on, at plant 1. */
  lemma {:induction false} EndProductStepsDone(t: Network, E: set<nat>)
    requires WellFormed(t) && EndProductsOnly(t, E) && |E| == EndProductPlantCount(t.numLocations)
    ensures SupplySteps(t, E, 1)
  {
    EndProductsOnlyShaped(t, E);
  }

  /** Once the end-product step is over, E is the set of plants that make the end product. */
  lemma {:induction false} EndProductsOnlyPlants(t: Network, E: set<nat>)
    requires EndProductsOnly(t, E) && Domains(t)
    ensures E == EndProductPlants(t)
  {
    forall l | l in E ensures l in EndProductPlants(t) {
      assert IsLocation(t, l);
    }
    forall l | l in EndProductPlants(t) ensures l in E {
      assert t.products[l] != [];
    }
  }

  // ---------------------------------------------------------------- the material step

  /** What the material step keeps while it works on plant l. */
  ghost predicate Connecting(t: Network, l: nat) {
    && IsPlant(t, l)
    && RoutesShaped(t) && MarketIdle(t) && MarketLinked(t)
    && SuppliersProduceExcept(t, l)
  }

  /** A route from plant l to another end-product plant keeps the material step going. */
  lemma {:induction false} ConnectingRoute(t: Network, l: nat, r: Route)
    requires Connecting(t, l) && r.start == l && r.end in EndProductPlants(t) && r.start != r.end
    requires r.Key() !in t.routes && (r.end, r.start) !in t.routes
    requires r.start in t.outbounds && r.end in t.inbounds
    ensures Connecting(WithRoute(t, r), l)
  {
    assert RouteFits(t, r);
    ShapeAfterRoute(t, r, 0);
    SuppliersAfterRoute(t, r, l);
  }

  /** The first j of the materials ms are added to plant l, which made none in t0. */
  ghost predicate AddingMaterials(t0: Network, t: Network, l: nat, ms: seq<nat>, j: nat) {
    && Connecting(t, l) && l in t.products && j <= |ms| && Distinct(ms) && (forall m :: m in ms ==> IsMaterial(t, m))
    && l in t0.products && MaterialsOf(t0, l) == [] && ChangedOnlyAt(t0, t, l)
    && t.products[l] == t0.products[l] + ms[..j]
    && (j > 0 ==> SuppliersProduce(t))
  }

  /** Once plant l makes a material, the routes leaving l need no exception. */
  lemma SuppliersProduceAll(t: Network, l: nat)
    requires SuppliersProduceExcept(t, l) && l in t.products && MaterialsOf(t, l) != []
    ensures SuppliersProduce(t)
  {
  }

  /** The material step has handled the plants before l. */
  ghost predicate SupplySteps(t: Network, E: set<nat>, l: nat) {
    && Shaped(t) && SuppliersProduce(t)
    && E != {}
    && 1 <= l <= t.numLocations
    && SuppliedBefore(t, E, l)
  }

  // ---------------------------------------------------------------- the repair pass

  /** The repair pass keeps the shape of the graph and only adds products to t0. */
  ghost predicate RepairSteps(t0: Network, t: Network) {
    Shaped(t) && OnlyProductsAdded(t0, t)
  }

  /**
   * Repair at end-product plant e, which reached in t1 none of the materials in missing: the
   * first j of them are added to e or to one of its connected plants, and nothing else is.
   */
  ghost predicate RepairingAt(t0: Network, t1: Network, t: Network, E: set<nat>,
                              e: nat, connected: seq<nat>, missing: seq<nat>, j: nat) {
    RepairSteps(t0, t) && e in E && MissingAdded(t1, t, e, connected, missing, j)
  }

  /** The repair pass sends material only to e or to a plant with a route into e. */
  lemma {:induction false} RepairTargetIsPlant(t: Network, E: set<nat>, e: nat, connected: seq<nat>, c: nat)
    requires WellFormed(t) && E == EndProductPlants(t) && Shaped(t)
    requires e in E && e in t.inbounds && connected == Starts(t.inbounds[e])
    requires c == e || c in connected
    ensures IsPlant(t, c) && c in t.products
  {
    if c == e {
      assert e in t.products && EndProduct(t) in t.products[e];
      assert IsLocation(t, e);
    } else {
      var r :| r in t.inbounds[e] && r.start == c;
      assert r.Key() in t.routes;
    }
  }

  /** The next missing material can be added at e or at a connected plant. */
  lemma {:induction false} RepairTargetFree(t0: Network, t1: Network, t: Network, E: set<nat>,
                                            e: nat, connected: seq<nat>, missing: seq<nat>, j: nat, c: nat)
    requires WellFormed(t) && E == EndProductPlants(t)
    requires RepairingAt(t0, t1, t, E, e, connected, missing, j) && j < |missing|
    requires c == e || c in connected
    ensures IsPlant(t, c) && c in t.products && IsLocation(t, c)
    ensures IsMaterial(t, missing[j]) && IsProduct(t, missing[j]) && missing[j] in t.plants
    ensures missing[j] != EndProduct(t) && missing[j] !in t.products[c]
  {
    assert missing[j] in missing;
    RepairTargetIsPlant(t, E, e, connected, c);
    MissingNotMade(t1, t, e, connected, missing, j, c);
  }

  /** Adding the next missing material at e or a connected plant keeps the repair going. */
  lemma {:induction false} RepairingAdvance(t0: Network, t1: Network, t: Network, E: set<nat>,
                                            e: nat, connected: seq<nat>, missing: seq<nat>, j: nat, c: nat)
    requires WellFormed(t) && RepairingAt(t0, t1, t, E, e, connected, missing, j) && j < |missing|
    requires c == e || c in connected
    requires c in t.products && missing[j] in t.plants && IsPlant(t, c)
    ensures RepairingAt(t0, t1, WithProduct(t, c, missing[j]), E, e, connected, missing, j + 1)
  {
    var t' := WithProduct(t, c, missing[j]);
    assert missing[j] in missing;
    assert 0 !in t.products && IsMaterial(t, missing[j]);
    ShapeAfterProduct(t, c, missing[j]);
    OnlyProductsAddedByProduct(t, c, missing[j]);
    OnlyProductsAddedTransitive(t0, t, t');
    MissingAddedStep(t1, t, e, connected, missing, j, c);
  }

  /** The repair at e starts from the materials e does not reach. */
  lemma {:induction false} RepairingStart(t0: Network, t: Network, E: set<nat>,
                                          e: nat, connected: seq<nat>, avail: seq<nat>, missing: seq<nat>)
    requires RepairSteps(t0, t) && e in E && e in t.products && e in t.inbounds && connected == Starts(t.inbounds[e])
    requires forall m :: m in avail <==> m != EndProduct(t) && Available(t, e, m)
    requires missing == Undelivered(Materials(t), avail)
    ensures RepairingAt(t0, t, t, E, e, connected, missing, 0)
    ensures MissingCovers(t, e, missing)
  {
    assert missing[..0] == [];
  }

  /** Once every missing material is added, e reaches every material. */
  lemma {:induction false} RepairingDone(t0: Network, t1: Network, t: Network, E: set<nat>,
                                         e: nat, connected: seq<nat>, missing: seq<nat>)
    requires RepairingAt(t0, t1, t, E, e, connected, missing, |missing|)
    requires MissingCovers(t1, e, missing)
    ensures MaterialsAvailable(t, e)
  {
    assert missing[..|missing|] == missing;
    forall m | IsMaterial(t, m) ensures Available(t, e, m) {
      if m !in missing {
        AvailableGrows(t1, t, e, m);
      }
    }
  }

  /** The repair pass has handled the end-product plants elist[..i]. */
  ghost predicate RepairedThrough(t0: Network, t: Network, E: set<nat>, elist: seq<nat>, i: nat) {
    && RepairSteps(t0, t) && i <= |elist|
    && (forall e :: e in elist <==> e in E)
    && (forall k :: 0 <= k < i ==> MaterialsAvailable(t, elist[k]))
  }

  /** One more end-product plant repaired; the earlier ones still reach every material. */
  lemma {:induction false} RepairedThroughStep(t0: Network, t: Network, t': Network, E: set<nat>,
                                               elist: seq<nat>, i: nat)
    requires RepairedThrough(t0, t, E, elist, i) && i < |elist|
    requires RepairSteps(t0, t') && OnlyProductsAdded(t, t') && MaterialsAvailable(t', elist[i])
    ensures RepairedThrough(t0, t', E, elist, i + 1)
  {
    AllAvailableGrow(t, t', elist, i);
  }

  /** The material step leaves a graph the repair pass can start on. */
  lemma {:induction false} RepairStepsStart(t: Network, E: set<nat>)
    requires SupplySteps(t, E, t.numLocations)
    ensures RepairSteps(t, t) && SuppliersLinked(t, E)
  {
    MaterialStepLinks(t, E);
  }

  /** An end-product plant and the plants with a route into it are locations. */
  lemma {:induction false} RepairReady(t: Network, E: set<nat>, e: nat)
    requires WellFormed(t) && E == EndProductPlants(t) && e in E
    ensures e in t.products && e in t.inbounds
    ensures forall c :: c in Starts(t.inbounds[e]) ==> c in t.products
  {
    assert IsLocation(t, e);
    forall c | c in Starts(t.inbounds[e]) ensures c in t.products {
      var r :| r in t.inbounds[e] && r.start == c;
      assert r.Key() in t.routes;
      assert IsLocation(t, c);
    }
  }

  /** Once the pass has handled every plant of elist, every end-product plant reaches every material. */
  lemma {:induction false} RepairedThroughAll(t0: Network, t: Network, E: set<nat>, elist: seq<nat>)
    requires RepairedThrough(t0, t, E, elist, |elist|)
    ensures forall e :: e in E ==> MaterialsAvailable(t, e)
  {
    forall e | e in E ensures MaterialsAvailable(t, e) {
      assert e in elist;
      var k :| 0 <= k < |elist| && elist[k] == e;
    }
  }
}
