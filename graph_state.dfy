/**
 * The invariants of the newer graph stated on values: the export records in step with the
 * topology, and the generation's progress (module Progress) with those records exact. The
 * class predicates of SndpGen.SndpGraph apply these to its fields.
 */
module GraphState {
  import opened Sampling
  import opened Topology
  import opened Export
  import opened Generation
  import opened Progress

  // ---------------------------------------------------------------- the records kept in step

  /**
   * The export records of the newer file agree with the topology t and end-product plants E,
   * and no location lists a product twice nor a product a plant twice.
   */
  ghost predicate GraphValid(t: Network, E: set<nat>, d: Data) {
    && WellFormed(t)
    && ListsDistinct(t)
    && E == EndProductPlants(t)
    && CacheValid(t, d)
  }

  /** The counters, ShipCost, ArcProduct and arc records of d agree with t. */
  ghost predicate CacheValid(t: Network, d: Data) {
    && d.nrOfLocations == t.numLocations
    && d.nrOfProducts == t.numProducts
    && ShipCostMatches(t, d.shipCost)
    && Distinct(d.arcProduct)
    && ArcsMatch(d.arcProduct, d.arc)
    && ArcCacheSound(t, d.arcProduct)
    && ArcCacheCoversRoutes(t, d.arcProduct)
  }

  /** Valid records whose ArcProduct cache also holds every on-site row, so it equals the full scan. */
  ghost predicate ExactGraph(t: Network, E: set<nat>, d: Data) {
    GraphValid(t, E, d) && ArcCacheCoversSelfLoops(t, d.arcProduct)
  }

  /** d keeps every record of d0 but ShipCost, ArcProduct and arc, which the generation extends. */
  ghost predicate OtherRecordsKept(d0: Data, d: Data) {
    && d.nrOfScen == d0.nrOfScen && d.salesPrice == d0.salesPrice
    && d.plantCost == d0.plantCost && d.plantCapacity == d0.plantCapacity
    && d.materialReq == d0.materialReq && d.prob == d0.prob && d.demand == d0.demand
  }

  /** Only the counters, ShipCost, ArcProduct and arc take part in the graph's validity. */
  lemma ExactGraphOtherRecords(t: Network, E: set<nat>, d: Data, d': Data)
    requires ExactGraph(t, E, d)
    requires d'.nrOfLocations == d.nrOfLocations && d'.nrOfProducts == d.nrOfProducts
    requires d'.shipCost == d.shipCost && d'.arcProduct == d.arcProduct && d'.arc == d.arc
    ensures ExactGraph(t, E, d')
  {
  }

  lemma RecordsKeptTransitive(d0: Data, d1: Data, d2: Data)
    requires OtherRecordsKept(d0, d1) && OtherRecordsKept(d1, d2)
    ensures OtherRecordsKept(d0, d2)
  {
  }

  // ---------------------------------------------------------------- progress of the generation

  /** The end-product step has handled chosen[..i], with the records exact. */
  ghost predicate EndProductProgress(t: Network, E: set<nat>, d: Data, chosen: seq<nat>, i: nat) {
    ExactGraph(t, E, d) && EndProductSteps(t, E, chosen, i)
  }

  /** One plant of the end-product step: its route to the market and the end product keep the progress. */
  lemma {:induction false} EndProductProgressStep(t: Network, E: set<nat>, d: Data, chosen: seq<nat>, i: nat,
                                                  distance: nat, t': Network, d': Data)
    requires EndProductProgress(t, E, d, chosen, i) && i < |chosen|
    requires chosen[i] in t.outbounds && chosen[i] in t.products
    requires EndLocation(t) in t.inbounds && EndProduct(t) in t.plants
    requires t' == WithProduct(WithRoute(t, Route(chosen[i], EndLocation(t), distance)), chosen[i], EndProduct(t))
    requires ExactGraph(t', E + {chosen[i]}, d')
    ensures EndProductProgress(t', E + {chosen[i]}, d', chosen, i + 1)
  {
    EndProductStepsAdvance(t, E, chosen, i, distance);
  }

  /** The end-product step leaves a graph the material step can start on, at plant 1. */
  lemma {:induction false} EndProductStepDone(t: Network, E: set<nat>, d: Data)
    requires ExactGraph(t, E, d) && EndProductsOnly(t, E) && |E| == EndProductPlantCount(t.numLocations)
    ensures SupplyProgress(t, E, d, 1)
  {
    EndProductStepsDone(t, E);
  }

  /** What the material step keeps while it works on plant l, with the records exact. */
  ghost predicate ConnectProgress(t: Network, E: set<nat>, d: Data, l: nat) {
    ExactGraph(t, E, d) && Connecting(t, l)
  }

  /** A route from plant l to another end-product plant keeps the material step's progress. */
  lemma {:induction false} ConnectProgressRoute(t: Network, E: set<nat>, d: Data, l: nat, r: Route, t': Network, d': Data)
    requires ConnectProgress(t, E, d, l) && r.start == l && r.end in E && r.start != r.end
    requires r.Key() !in t.routes && (r.end, r.start) !in t.routes
    requires r.start in t.outbounds && r.end in t.inbounds
    requires t' == WithRoute(t, r) && ExactGraph(t', E, d')
    ensures ConnectProgress(t', E, d', l)
  {
    ConnectingRoute(t, l, r);
  }

  /** The first j of the materials ms are added to plant l, with the records exact. */
  ghost predicate MaterialsProgress(t0: Network, t: Network, E: set<nat>, d: Data, l: nat, ms: seq<nat>, j: nat) {
    ExactGraph(t, E, d) && AddingMaterials(t0, t, l, ms, j)
  }

  /** The material step has handled the plants before l, with the records exact. */
  ghost predicate SupplyProgress(t: Network, E: set<nat>, d: Data, l: nat) {
    ExactGraph(t, E, d) && SupplySteps(t, E, l)
  }

  // ---------------------------------------------------------------- progress of the repair pass

  /** The repair pass keeps the records exact and the shape of the graph, and only adds products to t0. */
  ghost predicate RepairProgress(t0: Network, t: Network, E: set<nat>, d: Data) {
    ExactGraph(t, E, d) && RepairSteps(t0, t)
  }

  /** The repair at end-product plant e has added the first j of its missing materials, with the records exact. */
  ghost predicate RepairPlantProgress(t0: Network, t1: Network, t: Network, E: set<nat>, d: Data,
                                      e: nat, connected: seq<nat>, missing: seq<nat>, j: nat) {
    ExactGraph(t, E, d) && RepairingAt(t0, t1, t, E, e, connected, missing, j)
  }

  /** The next missing material can be added at e or at a connected plant. */
  lemma {:induction false} RepairPlantTarget(t0: Network, t1: Network, t: Network, E: set<nat>, d: Data,
                                            e: nat, connected: seq<nat>, missing: seq<nat>, j: nat, c: nat)
    requires RepairPlantProgress(t0, t1, t, E, d, e, connected, missing, j) && j < |missing|
    requires c == e || c in connected
    ensures IsPlant(t, c) && c in t.products && IsLocation(t, c)
    ensures IsMaterial(t, missing[j]) && IsProduct(t, missing[j]) && missing[j] in t.plants
    ensures missing[j] != EndProduct(t) && missing[j] !in t.products[c]
    ensures GraphValid(t, E, d) && ArcCacheCoversSelfLoops(t, d.arcProduct)
  {
    RepairTargetFree(t0, t1, t, E, e, connected, missing, j, c);
  }

  /** Adding the next missing material at e or a connected plant keeps the repair going. */
  lemma {:induction false} RepairPlantStep(t0: Network, t1: Network, t: Network, E: set<nat>, d: Data,
                                           e: nat, connected: seq<nat>, missing: seq<nat>, j: nat,
                                           c: nat, t': Network, d': Data)
    requires RepairPlantProgress(t0, t1, t, E, d, e, connected, missing, j) && j < |missing|
    requires c == e || c in connected
    requires c in t.products && missing[j] in t.plants && IsPlant(t, c)
    requires t' == WithProduct(t, c, missing[j]) && ExactGraph(t', E, d')
    ensures RepairPlantProgress(t0, t1, t', E, d', e, connected, missing, j + 1)
  {
    RepairingAdvance(t0, t1, t, E, e, connected, missing, j, c);
  }

  /** The repair at e starts from the materials e does not reach. */
  lemma {:induction false} RepairPlantStart(t0: Network, t: Network, E: set<nat>, d: Data,
                                            e: nat, connected: seq<nat>, avail: seq<nat>, missing: seq<nat>)
    requires RepairProgress(t0, t, E, d) && e in E && e in t.inbounds && connected == Starts(t.inbounds[e])
    requires forall m :: m in avail <==> m != EndProduct(t) && Available(t, e, m)
    requires missing == Undelivered(Materials(t), avail)
    ensures RepairPlantProgress(t0, t, t, E, d, e, connected, missing, 0)
    ensures MissingCovers(t, e, missing)
  {
    RepairReady(t, E, e);
    RepairingStart(t0, t, E, e, connected, avail, missing);
  }

  /** The repair pass has handled the end-product plants elist[..i], with the records exact. */
  ghost predicate RepairedUpTo(t0: Network, t: Network, E: set<nat>, d: Data, elist: seq<nat>, i: nat) {
    ExactGraph(t, E, d) && RepairedThrough(t0, t, E, elist, i)
  }

  /** One more end-product plant repaired; the earlier ones still reach every material. */
  lemma {:induction false} RepairedStep(t0: Network, t: Network, t': Network, E: set<nat>, d: Data, d': Data,
                                        elist: seq<nat>, i: nat)
    requires RepairedUpTo(t0, t, E, d, elist, i) && i < |elist|
    requires RepairProgress(t0, t', E, d') && OnlyProductsAdded(t, t') && MaterialsAvailable(t', elist[i])
    ensures RepairedUpTo(t0, t', E, d', elist, i + 1)
  {
    RepairedThroughStep(t0, t, t', E, elist, i);
  }

  /** The material step leaves a graph the repair pass can start on. */
  lemma {:induction false} RepairStart(t: Network, E: set<nat>, d: Data)
    requires SupplyProgress(t, E, d, t.numLocations)
    ensures RepairProgress(t, t, E, d) && SuppliersLinked(t, E)
  {
    RepairStepsStart(t, E);
  }
}
