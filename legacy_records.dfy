/**
 * The `_data` records of the older graph (sndp_gen/sndp_graph.py). Every change to the
 * graph empties the node records and every new scenario the stochastic ones; data_as_dict
 * refills what is empty by a full scan of the graph.
 */
module LegacyRecords {
  import opened Wrappers
  import opened Sampling
  import opened Topology
  import opened Export
  import opened Scenarios
  import opened GraphState

  /** The `_data` dictionary; NrOfLocations, NrOfProducts and NrOfScen are None until filled. */
  datatype Records = Records(
    nrOfLocations: Option<nat>,
    nrOfProducts: Option<nat>,
    nrOfScen: Option<nat>,
    materialReq: seq<MaterialReqRow>,
    prob: seq<ProbRow>,
    demand: seq<DemandRow>,
    shipCost: seq<ShipCostRow>,
    arcProduct: seq<ArcProductRow>,
    arc: seq<ArcRow>)

  /** The records as SndpGraph.__init__ first sets them up. */
  const EmptyRecords := Records(None, None, None, [], [], [], [], [], [])

  // ---------------------------------------------------------------- clearing

  /** The records _clear_nodes_data_cache empties are empty. */
  predicate NodeRecordsCleared(r: Records) {
    r.nrOfLocations.None? && r.nrOfProducts.None? && r.shipCost == [] && r.arcProduct == [] && r.arc == []
  }

  /** What _clear_nodes_data_cache does to the records: MaterialReq and the stochastic records stay. */
  function WithNodeRecordsCleared(r: Records): (r': Records)
    ensures NodeRecordsCleared(r')
    ensures r'.nrOfScen == r.nrOfScen && r'.prob == r.prob && r'.demand == r.demand
    ensures r'.materialReq == r.materialReq
  {
    r.(nrOfLocations := None, nrOfProducts := None, shipCost := [], arcProduct := [], arc := [])
  }

  /** The records _clear_stochastic_data_cache empties are empty. */
  predicate ScenarioRecordsCleared(r: Records) {
    r.nrOfScen.None? && r.prob == [] && r.demand == []
  }

  /** What _clear_stochastic_data_cache does to the records: the node records and MaterialReq stay. */
  function WithScenarioRecordsCleared(r: Records): (r': Records)
    ensures ScenarioRecordsCleared(r')
    ensures r'.nrOfLocations == r.nrOfLocations && r'.nrOfProducts == r.nrOfProducts
    ensures r'.shipCost == r.shipCost && r'.arcProduct == r.arcProduct && r'.arc == r.arc
    ensures r'.materialReq == r.materialReq
  {
    r.(nrOfScen := None, prob := [], demand := [])
  }

  // ---------------------------------------------------------------- rebuilt

  /**
   * The node records as data_as_dict's full scan leaves them: the counts, one ShipCost row
   * per route in registration order, the rows of the full scan once each, and their
   * distinct (start, finish) pairs.
   */
  ghost predicate NodeRecordsRebuilt(t: Network, r: Records) {
    && r.nrOfLocations == Some(t.numLocations) && r.nrOfProducts == Some(t.numProducts)
    && ShipCostMatches(t, r.shipCost)
    && Distinct(r.arcProduct)
    && (forall row :: row in r.arcProduct <==> InArcProductScan(t, row))
    && ArcsMatch(r.arcProduct, r.arc)
  }

  /** The stochastic records list the scenarios ss in order. */
  ghost predicate ScenarioRecordsRebuilt(ss: seq<Scenario>, r: Records) {
    r.nrOfScen == Some(|ss|) && RowsMatch(ss, r.prob, r.demand)
  }

  /**
   * The records of a graph with topology t and material requirements reqs, given the two
   * "cache cleared" flags: cleared records are empty, node records not cleared are the full
   * scan of t, MaterialReq is empty until data_as_dict fills it, and NrOfScen is set unless
   * the stochastic records are cleared.
   */
  ghost predicate RecordsFit(t: Network, reqs: seq<nat>, nodesCleared: bool, stochCleared: bool, r: Records) {
    && (nodesCleared ==> NodeRecordsCleared(r))
    && (!nodesCleared ==> NodeRecordsRebuilt(t, r) && r.materialReq == MaterialReqRows(reqs))
    && (r.materialReq == [] || r.materialReq == MaterialReqRows(reqs))
    && (stochCleared ==> ScenarioRecordsCleared(r))
    && (!stochCleared ==> r.nrOfScen.Some?)
  }

  /** The dictionary data_as_dict hands out: the records, once filled, with the three constants. */
  function AsData(r: Records): Data
    requires r.nrOfLocations.Some? && r.nrOfProducts.Some? && r.nrOfScen.Some?
  {
    Data(r.nrOfLocations.value, r.nrOfProducts.value, r.nrOfScen.value, SalesPrice, PlantCost, PlantCapacity,
         r.materialReq, r.prob, r.demand, r.shipCost, r.arcProduct, r.arc)
  }

  // ---------------------------------------------------------------- the two files agree

  /**
   * On the same graph, the records the older file rebuilds by a full scan and those the newer
   * file keeps up to date incrementally agree: the same ShipCost list, and the same ArcProduct
   * rows and arcs up to order.
   */
  lemma {:induction false} RebuildMatchesCache(t: Network, E: set<nat>, d: Data, r: Records)
    requires ExactGraph(t, E, d) && NodeRecordsRebuilt(t, r)
    ensures r.shipCost == d.shipCost
    ensures forall row :: row in r.arcProduct <==> row in d.arcProduct
    ensures forall a :: a in r.arc <==> a in d.arc
  {
    assert |r.shipCost| == |d.shipCost|;
    forall i | 0 <= i < |r.shipCost| ensures r.shipCost[i] == d.shipCost[i] {
      assert t.routeOrder[i] in t.routes;
    }
    ArcCacheExact(t, d.arcProduct);
    assert ArcsOf(r.arcProduct) == ArcsOf(d.arcProduct) by {
      forall a | a in ArcsOf(r.arcProduct) ensures a in ArcsOf(d.arcProduct) {
        var row :| row in r.arcProduct && a == ArcOf(row);
        assert row in d.arcProduct;
      }
      forall a | a in ArcsOf(d.arcProduct) ensures a in ArcsOf(r.arcProduct) {
        var row :| row in d.arcProduct && a == ArcOf(row);
        assert row in r.arcProduct;
      }
    }
  }
}
