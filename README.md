# sndpgen in Dafny

A verified model of the core of **sndpgen**. sndpgen generates random instances of the
stochastic supply network design problem (SNDP), and both of its versions are modelled.

## The generated instance

An instance (`SndpGraph`) has:
- **products** `1..P`: the last is the *end product*, the rest are *materials*;
- **locations** `1..L`: the last is the *market*, the rest are *plants*;
- directed **routes** with a distance;
- **scenarios** with a probability and a demand.

## How an instance is generated

Generation runs in four steps:
1. **End products.** About half of the plants (`floor(L/2)`) are picked as *end-product
   plants*. Each gets the end product and a route to the market.
2. **Materials.** Every other plant draws up to three materials. A plant that draws at least one
   is linked to at least one end-product plant. A route is never added in both directions.
3. **Repair.** Every end-product plant must end up able to reach every material, either
   produced on site or shipped in from a connected plant.
4. **Scenarios.** `num_scen` scenarios are drawn with distinct demands. Their probabilities
   sum to one, and the last scenario takes whatever probability is left.

## Export records

The instance is exported as the records of the optimisation model:
- the counts and the constant prices;
- `MaterialReq`, `ShipCost`, `ArcProduct` and `arc`;
- `Prob` and `Demand`.

The two versions keep these records in different ways:
- **`sndpgen/sndp_graph.py`** (newer) keeps them as an incremental cache. Every `add_product`
  and `add_route` appends only the rows that the new product or route creates.
- **`sndp_gen/sndp_graph.py`** (older) clears the records on every change and rebuilds them in
  full inside `data_as_dict`. Two flags remember whether a clear happened.

## Modules

| module | file | what it holds |
|---|---|---|
| `Wrappers` | `wrappers.dfy` | `Option`, `Outcome`, `Result` |
| `Sampling` | `sampling.dfy` | the reservoir sampler `random_subset`; enumeration of a set; drawing distinct values as `random.sample` does |
| `Topology` | `topology.dfy` | the network as a value: product and plant lists, inbound and outbound route lists, routes keyed by endpoints and in insertion order; the getters; well-formedness and how it survives each update |
| `Export` | `export.dfy` | the record rows; the full-scan definition of `ArcProduct`; lemmas on how the scan grows |
| `Scenarios` | `scenarios.dfy` | the demand interval; scenario probabilities and the proof that they form a distribution |
| `Generation` | `generation.dfy` | the per-step invariants of the generator, and what a finished network guarantees (`NetworkGenerated`) |
| `GraphState` | `graph_state.dfy` | value-level invariants of the newer graph, which combine the network, the end-product plants and the cache |
| `SndpGen` | `sndpgen_graph.dfy` | the newer `SndpGraph` class with its incremental cache |
| `Progress` | `progress.dfy` | value-level invariants of the older generator |
| `LegacyRecords` | `legacy_records.dfy` | the older optional-valued record set, and how it is cleared |
| `LegacyScan` | `legacy_scan.dfy` | the older full rebuild of `ShipCost`, `ArcProduct` and `arc` as loops |
| `SndpGenLegacy` | `sndp_gen_graph.dfy` | the older `SndpGraph` class with its clear-and-rebuild records |

## Entities and randomness

Locations and products are identified by their ids. Their lists live in one `Network` value
that the graph class owns and reassigns.

Every random draw is a choice, within the drawn range, that the proofs must handle for any
value:
- `randint`;
- `int(random() * N)` in the reservoir sampler;
- `random.sample`.

What is proved therefore holds for every seed.

## Model

| member | source | states |
|---|---|---|
| `Sampling.RandomSubset` | sndpgen/sndp_graph.py:696-709 | returns `min(n, k)` items (none for negative `k`), each taken from a distinct position of the input. A duplicate-free input gives a duplicate-free result, and `k >= n` returns the input unchanged. |
| `Sampling.Enumerate` | sndpgen/sndp_graph.py:672-673 | iterating a set visits each member exactly once. The order is left open. |
| `Sampling.UnseenValueExists` | sndpgen/sndp_graph.py:495 | while fewer values have been drawn than the interval holds, an undrawn value remains, so sampling without replacement can continue |
| `Sampling.SampleDistinct` | sndpgen/sndp_graph.py:495 | `random.sample(range(lo, hi), n)` yields `n` pairwise distinct values in `[lo, hi)` |
| `Sampling.Interval` | sndpgen/sndp_graph.py:495 | `range(lo, hi)` as a set: exactly the integers `x` with `lo <= x < hi` |
| `Sampling.IntervalSize` | sndpgen/sndp_graph.py:495 | `range(lo, hi)` holds `hi - lo` values |
| `Sampling.DistinctValuesFit` | sndpgen/sndp_graph.py:495 | a sample without replacement from `range(lo, hi)` has at most `hi - lo` values |
| `Topology.EndLocation` | sndpgen/sndp_graph.py:681-682 | the market is the location with the highest id, and it is not a plant |
| `Topology.EndProduct` | sndpgen/sndp_graph.py:663-664 | the end product is the product with the highest id, and it is not a material |
| `Topology.Materials` | sndpgen/sndp_graph.py:656-657 | the materials are all products except the last, in id order, without repeats |
| `Topology.Plants` | sndpgen/sndp_graph.py:669-670 | the plants are all locations except the last, in id order, without repeats |
| `Topology.GetRoute` | sndpgen/sndp_graph.py:687-691 | a route is found exactly when one is registered under `(start, end)`. In a well-formed network it has those endpoints and they differ. |
| `Topology.EmptyLists` | sndpgen/sndp_graph.py:109-115 | a fresh location has empty product, inbound and outbound lists |
| `Topology.WithProduct` | sndpgen/sndp_graph.py:120-125 | producing `p` at `l` appends `p` to `l`'s products and `l` to `p`'s plants, and changes nothing else |
| `Topology.WithAttachedRoute` | sndp_gen/sndp_graph.py:81-92 | constructing a route appends it to the start's outbounds and the end's inbounds, and registers nothing |
| `Topology.WithRegisteredRoute` | sndp_gen/sndp_graph.py:470-475 | `add_route` stores the route under its `(start, end)` key, last in insertion order |
| `Topology.EndProductPlantsOfProducts` | sndp_gen/sndp_graph.py:503-504 | the end-product plants depend only on the product lists |
| `Topology.ProductRouteCommute` | sndpgen/sndp_graph.py:296-298 | adding a route and adding a product commute. So the newer order (route first) and the older order (product first, sndp_gen/sndp_graph.py:173-175) build the same network. |
| `Topology.PlantListMirrorsProducts` | sndpgen/sndp_graph.py:120-125 | in a well-formed network, `l` is among `p`'s plants iff `p` is among `l`'s products |
| `Topology.MirroredAfterAppend` | sndpgen/sndp_graph.py:124-125 | appending to both sides of the product/plant relation keeps the two lists mirrored |
| `Topology.UnlinkedWellFormed` | sndp_gen/sndp_graph.py:157-166 | a freshly built network with no production and no routes is well formed and duplicate-free |
| `Topology.ListsDistinctAfterProduct` | sndp_gen/sndp_graph.py:44-50 | the duplicate check in `add_product` keeps every product list and every plant list duplicate-free |
| `Topology.WithProductWellFormed` | sndpgen/sndp_graph.py:120-125 | adding a product that is not yet at the location keeps the network well formed |
| `Topology.WithProductEndProductPlants` | sndp_gen/sndp_graph.py:503-504 | adding `p` at `l` adds `l` to the end-product plants exactly when `p` is the end product |
| `Topology.ListsMirroredAfterRoute` | sndpgen/sndp_graph.py:194-204 | attaching a new route to both endpoints keeps the route map and the two route lists in step |
| `Topology.KeyedAfterRoute` | sndpgen/sndp_graph.py:624-628 | a new route between two different locations keeps every route keyed by its own endpoints |
| `Topology.OrderAfterRoute` | sndpgen/sndp_graph.py:684-685 | the insertion order lists every registered route exactly once after an addition |
| `Topology.WithRouteWellFormed` | sndpgen/sndp_graph.py:624-628 | adding a non-duplicate route between two different locations keeps the network well formed |
| `Topology.AvailableGrows` | sndpgen/sndp_graph.py:376-381 | a material available at a plant, made on site or by a connected supplier, stays available when only products are added |
| `Topology.OnlyProductsAddedByProduct` | sndpgen/sndp_graph.py:390 | a repair step only adds production and leaves routes alone |
| `Export.DrawMaterialRequirements` | sndpgen/sndp_graph.py:280-281 | one requirement per material, each in `1..floor(40/P*2)` |
| `Export.MaterialReqRows` | sndpgen/sndp_graph.py:282 | `MaterialReq` has one row per requirement. Its material ids are exactly `1..P-1`, none repeated, and the row of material `m` carries requirement `m-1` of the list. |
| `Export.ShipCostAfterRoute` | sndpgen/sndp_graph.py:635-637 | appending the new route's row keeps `ShipCost` equal to the routes in insertion order |
| `Export.ArcCacheExact` | sndpgen/sndp_graph.py:151-181 | a cache that holds only scan rows, covers every route row and covers every self row equals the full scan |
| `Export.ScanGrowsWithProduct` | sndpgen/sndp_graph.py:130-132 | no `ArcProduct` row of the full scan disappears when a product is added, so an append-only cache can stay exact |
| `Export.ScanGrowsWithRoute` | sndpgen/sndp_graph.py:631-633 | no `ArcProduct` row of the full scan disappears when a route is added |
| `Export.NoMaterialToMarket` | sndp_gen/sndp_graph.py:409-411 | while the market produces nothing, no material row of the scan finishes at the market |
| `Scenarios.DemandValues` | sndpgen/sndp_graph.py:488-490 | the number the guard compares `num_scen` with is the size of the integer interval `[min, max)` that demands are drawn from |
| `Scenarios.DrawnDemandsFit` | sndpgen/sndp_graph.py:490-495 | pairwise distinct demands drawn from `[min, max)` number at most `DemandValues`, so the `ValueError` guard rejects exactly the counts `random.sample` cannot satisfy |
| `Scenarios.UniformSum` | sndpgen/sndp_graph.py:494-497 | `n` scenarios of probability `q` sum to `n*q` |
| `Scenarios.LeftProbability` | sndpgen/sndp_graph.py:499-500 | after `n-1` scenarios of `1/n`, the probability left is `1/n` and is positive, so the assert holds (exact arithmetic) |
| `Scenarios.GeneratedIsDistribution` | sndpgen/sndp_graph.py:494-501 | generated scenarios have positive probabilities that sum to exactly one |
| `Scenarios.UniformScenariosGenerated` | sndpgen/sndp_graph.py:494-501 | scenarios built with probability `1/n`, except the last which takes what is left, and with the sampled demands in order, are generated, sum to one and carry distinct demands from the sampled interval |
| `Scenarios.TwoScenariosAreEven` | tests/unit_tests.py:32-39 | two generated scenarios get probability 0.5 each |
| `Generation.CeilQuarter` | sndpgen/sndp_graph.py:340 | `ceil(m/4)` is the least `c` with `4c >= m`, and it is at most `m` |
| `Generation.EndProductPlantCount` | sndpgen/sndp_graph.py:292 | `floor(L/2)` end-product plants: at least one and fewer than `L` when `L >= 2` |
| `Generation.MaterialsOf` | sndpgen/sndp_graph.py:376-377 | the materials made at a location are its products other than the end product |
| `Generation.MaterialsGrow` | sndpgen/sndp_graph.py:365-366 | a location that makes a material still does after any product is added |
| `Generation.SuppliersAfterProduct` | sndpgen/sndp_graph.py:365-366 | adding a material at the plant being supplied makes it a producing supplier |
| `Generation.ShapeAfterProduct` | sndpgen/sndp_graph.py:294-298 | adding a product keeps routes shaped (plant to market or to an end-product plant) and the market idle |
| `Generation.SuppliersProduceAnyExcept` | sndpgen/sndp_graph.py:337-366 | "every route start produces" implies the weaker form that exempts one plant |
| `Generation.ShapeAfterRoute` | sndpgen/sndp_graph.py:296-297 | a route of the allowed shape keeps the network shaped. A route from the end-product plant to the market links that plant to the market. |
| `Generation.SuppliersAfterRoute` | sndpgen/sndp_graph.py:353-361 | a route out of the plant being supplied, or into the market, keeps "route starts produce" |
| `Generation.EndProductsOnlyAdvance` | sndpgen/sndp_graph.py:294-298 | one end-product step on an unused plant gives a network whose only production is the end product at the chosen plants |
| `Generation.EndProductsOnlyShaped` | sndpgen/sndp_graph.py:291-299 | after the end-product step the network is shaped, its suppliers produce, and the material step can start at plant 1 |
| `Generation.MaterialsAppendStep` | sndpgen/sndp_graph.py:365-366 | the next drawn material is not yet at the plant, so `add_product` does not fail |
| `Generation.MaterialsAppendDone` | sndpgen/sndp_graph.py:364-366 | after the loop, the plant's materials are exactly the drawn subset, in draw order |
| `Generation.NotYetSupplied` | sndpgen/sndp_graph.py:337-339 | when the material step reaches a plant, that plant makes no material yet |
| `Generation.SuppliedBeforeAdvance` | sndpgen/sndp_graph.py:337-366 | a plant handled by the material step, with the others unchanged, advances the "supplied" frontier by one |
| `Generation.SuppliedIdle` | sndpgen/sndp_graph.py:346-347 | an end-product plant that draws zero materials is skipped and the frontier still advances |
| `Generation.DrawMaterialCount` | sndpgen/sndp_graph.py:338-345 | the count is at most 3 and at most `m`; at most `ceil(m/4)` at an end-product plant; at least 1 elsewhere |
| `Generation.DrawnMaterialsFit` | sndpgen/sndp_graph.py:364 | a subset of the materials of size `k` has exactly `k` elements and is not empty |
| `Generation.SupplyStepDone` | sndpgen/sndp_graph.py:336-366 | a plant with `k` drawn materials (within the bounds) that is linked to an end-product plant when it is not one counts as supplied |
| `Generation.LinkedKept` | sndpgen/sndp_graph.py:374-390 | suppliers stay linked to an end-product plant while the repair only adds products |
| `Generation.MaterialStepLinks` | sndpgen/sndp_graph.py:349-361 | after the material step, every plant making a material is an end-product plant or ships to one |
| `Generation.Starts` | sndpgen/sndp_graph.py:379 | the connected plants are the starts of the inbound routes, one per route |
| `Generation.Undelivered` | sndpgen/sndp_graph.py:382-383 | the undelivered materials are those not available, without repeats |
| `Generation.CollectAvailable` | sndpgen/sndp_graph.py:376-381 | the available list holds exactly the materials made on site or at a connected plant |
| `Generation.PickSupplier` | sndpgen/sndp_graph.py:386-389 | a missing material goes to a connected plant, or to the plant itself when none is connected |
| `Generation.AllAvailableGrow` | sndpgen/sndp_graph.py:374-390 | end-product plants already repaired stay repaired while later repairs add products |
| `Generation.AvailableViaStarts` | sndpgen/sndp_graph.py:376-381 | "available" as defined over routes equals "made on site or at one of the listed connected plants" |
| `Generation.SupplierMakesAvailable` | sndpgen/sndp_graph.py:384-390 | producing a material at the chosen supplier makes it available at the end-product plant |
| `Generation.MissingNotMade` | sndpgen/sndp_graph.py:384-390 | a missing material is not yet made at the chosen supplier, so the repair's `add_product` does not fail |
| `Generation.MissingAddedStep` | sndpgen/sndp_graph.py:384-390 | one repair step adds the next missing material and keeps the earlier ones |
| `GraphState.EndProductProgressStep` | sndpgen/sndp_graph.py:294-298 | one end-product step with an exact cache keeps the step invariant of the newer graph |
| `GraphState.EndProductStepDone` | sndpgen/sndp_graph.py:291-299 | the finished end-product step starts the material step at plant 1 |
| `GraphState.ConnectProgressRoute` | sndpgen/sndp_graph.py:353-361 | adding a route from the current plant to an end-product plant keeps the connect invariant |
| `GraphState.RepairPlantTarget` | sndpgen/sndp_graph.py:384-390 | the chosen supplier is a plant that does not yet make the missing material |
| `GraphState.RepairPlantStep` | sndpgen/sndp_graph.py:384-390 | one repair `add_product` keeps the repair invariant of the newer graph |
| `GraphState.RepairPlantStart` | sndpgen/sndp_graph.py:374-383 | the repair of one end-product plant starts with the right available, connected and missing lists |
| `GraphState.RepairedStep` | sndpgen/sndp_graph.py:374-390 | repairing the next end-product plant extends the repaired prefix |
| `GraphState.RepairStart` | sndpgen/sndp_graph.py:374 | the finished material step starts the repair, with every supplier linked |
| `SndpGen.AddProductKeepsSound` | sndpgen/sndp_graph.py:151-181 | rows appended for a new product are rows of the full scan |
| `SndpGen.AddProductKeepsCover` | sndpgen/sndp_graph.py:151-181 | after a new product, the cache still holds every route row of the scan |
| `SndpGen.AddProductKeepsSelfLoops` | sndpgen/sndp_graph.py:173-181 | after a new product, the cache still holds every self row, as long as the end product is added before materials at a plant |
| `SndpGen.AddProductCacheValid` | sndpgen/sndp_graph.py:120-132 | the cache stays valid after `add_product` |
| `SndpGen.AddProductPreserves` | sndpgen/sndp_graph.py:120-132 | `add_product` keeps the graph valid, and exact when the end product precedes materials |
| `SndpGen.AddRouteKeepsSound` | sndpgen/sndp_graph.py:631-633 | rows appended for a new route are rows of the full scan |
| `SndpGen.AddRouteKeepsCover` | sndpgen/sndp_graph.py:631-633 | after a new route, the cache holds every route row and every self row it held before |
| `SndpGen.AddRouteCacheValid` | sndpgen/sndp_graph.py:624-637 | the cache stays valid after `add_route`, including the appended `ShipCost` row |
| `SndpGen.AddRoutePreserves` | sndpgen/sndp_graph.py:624-637 | `add_route` keeps the graph valid, and the cache exact when it was |
| `SndpGen.CreateProducts` | sndpgen/sndp_graph.py:278 | creates products `1..n`, each with no plants, and counts them in `NrOfProducts` |
| `SndpGen.CreateLocations` | sndpgen/sndp_graph.py:288 | creates locations `1..n` with empty lists, and counts them in `NrOfLocations` |
| `SndpGen.UnlinkedGraphValid` | sndpgen/sndp_graph.py:258-288 | a graph with no production, no routes and empty row records is valid and exact |
| `SndpGen.SndpGraph.constructor` | sndpgen/sndp_graph.py:248-288 | counts, prices and drawn material requirements are set; there is no production, no route and no scenario yet |
| `SndpGen.SndpGraph.CacheArcProduct` | sndpgen/sndp_graph.py:165-172 | an `ArcProduct` row is appended only when it is new, and its arc only when that is new |
| `SndpGen.SndpGraph.UpdateGraphDataCache` | sndpgen/sndp_graph.py:151-181 | the cache becomes the old cache plus exactly the rows the given products and routes derive, with no duplicate rows and arcs kept in step |
| `SndpGen.SndpGraph.AddProduct` | sndpgen/sndp_graph.py:120-132 | fails, changing nothing, iff `p` is already at `l`. Otherwise it adds `p`, records an end-product plant, derives the new rows and keeps the cache exact. |
| `SndpGen.SndpGraph.AddRoute` | sndpgen/sndp_graph.py:624-637 | a self-loop fails with nothing changed. A duplicate fails and leaves the route attached to its endpoints. A new route is added with its `ShipCost` row and its derived rows. |
| `SndpGen.SndpGraph.AttachEndProduct` | sndpgen/sndp_graph.py:294-298 | one iteration of the end-product step keeps its invariant |
| `SndpGen.SndpGraph.AssignEndProducts` | sndpgen/sndp_graph.py:291-299 | `floor(L/2)` end-product plants, each making only the end product and shipping to the market, with the cache exact |
| `SndpGen.SndpGraph.ConnectTo` | sndpgen/sndp_graph.py:353-361 | after the call a plant that is not an end-product plant has a route to the target; only that plant's lists change |
| `SndpGen.SndpGraph.ConnectToEndProductPlants` | sndpgen/sndp_graph.py:353-361 | a plant that is not an end-product plant ends up routed to at least one target |
| `SndpGen.SndpGraph.LinkToEndProductPlants` | sndpgen/sndp_graph.py:349-361 | the drawn fan-out links a plant that is not an end-product plant to at least one end-product plant |
| `SndpGen.SndpGraph.ProduceMaterial` | sndpgen/sndp_graph.py:365-366 | adds one material at the plant, after which every route start produces |
| `SndpGen.SndpGraph.ProduceNextMaterial` | sndpgen/sndp_graph.py:365-366 | one iteration of the material loop keeps its invariant |
| `SndpGen.SndpGraph.ProduceMaterials` | sndpgen/sndp_graph.py:364-366 | the plant ends up making exactly the drawn materials; other plants are untouched |
| `SndpGen.SndpGraph.SupplyPlant` | sndpgen/sndp_graph.py:337-366 | handling one plant advances the material step by one plant |
| `SndpGen.SndpGraph.AssignMaterials` | sndpgen/sndp_graph.py:336-366 | after the material step every plant is supplied; counts and end-product plants are unchanged |
| `SndpGen.SndpGraph.RepairMaterial` | sndpgen/sndp_graph.py:384-390 | one repair `add_product` keeps the repair invariant |
| `SndpGen.SndpGraph.RepairPlant` | sndpgen/sndp_graph.py:374-390 | afterwards every material is available at the end-product plant, and only products were added |
| `SndpGen.SndpGraph.RepairEndProductPlants` | sndpgen/sndp_graph.py:374-392 | every end-product plant can obtain every material |
| `SndpGen.SndpGraph.Generate` | sndpgen/sndp_graph.py:291-400 | the topology is generated (`NetworkGenerated`) with `floor(L/2)` end-product plants. No product or plant list holds a duplicate, the incremental cache equals the full scan, and the other records are kept. |
| `SndpGen.SndpGraph.Build` | sndpgen/sndp_graph.py:246-404 | the error cases in source order. Success iff `1 <= num_scen <=` the demand interval size. A successful graph satisfies `Assembled`: it is generated with `floor(L/2)` end-product plants, valid with duplicate-free lists and an exact cache, and holds `num_scen` scenarios with distinct demands in the interval and probabilities summing to one. Its drawn material requirements come with their `MaterialReq` rows. |
| `SndpGen.SndpGraph.Assemble` | sndpgen/sndp_graph.py:276-404 | past the argument checks: success iff `1 <= num_scen <=` the demand interval size. The graph is generated, duplicate-free and exact, holds `num_scen` scenarios with distinct demands in `[min, max)` and probabilities summing to one, and keeps its drawn material requirements with their `MaterialReq` rows. |
| `SndpGen.MaterialReqKept` | sndpgen/sndp_graph.py:282 | the `MaterialReq` rows written by `__init__` survive the generation and the stochastic update |
| `SndpGen.SndpGraph.ClearStochasticDataCache` | sndpgen/sndp_graph.py:615-622 | `NrOfScen` is reset to 0 and `Prob` and `Demand` are emptied; nothing else changes |
| `SndpGen.SndpGraph.AddScenario` | sndpgen/sndp_graph.py:639-651 | appends the scenario and counts it even when its id is a duplicate; fails iff the id is already in `Prob`; otherwise appends its `Prob` and `Demand` rows |
| `SndpGen.SndpGraph.AddUniformScenarios` | sndpgen/sndp_graph.py:496-497 | scenarios `1..n-1` get probability `q` and the first `n-1` sampled demands in order; every `add_scenario` passes, so the `Prob` and `Demand` rows match them one for one |
| `SndpGen.SndpGraph.DrawScenarios` | sndpgen/sndp_graph.py:493-501 | from cleared records: `n` scenarios are stored with matching `Prob` and `Demand` rows. They are generated with probabilities summing to one and demands distinct in `[lo, hi)`, and the other records are kept. |
| `SndpGen.SndpGraph.RegenerateStochasticData` | sndpgen/sndp_graph.py:484-507 | the cache is always cleared. Too many scenarios fails with the old scenarios kept; zero or negative fails with them emptied; otherwise exactly `num_scen` scenarios are stored with their rows. Their probabilities sum to one and their demands are distinct values in `[2500 |E|, 4500 |E|)`. |
| `SndpGen.SndpGraph.DataAsDict` | sndpgen/sndp_graph.py:415-424 | the counts, a `ShipCost` row per route in order, duplicate-free `ArcProduct` rows that all come from the full scan and cover every route row, and matching arcs; equal to the scan when the cache is exact |
| `Progress.EndProductStepsAdvance` | sndp_gen/sndp_graph.py:171-175 | one end-product iteration of the older generator keeps its invariant |
| `Progress.EndProductStepsDone` | sndp_gen/sndp_graph.py:169-175 | the finished end-product step starts the older material step |
| `Progress.EndProductsOnlyPlants` | sndp_gen/sndp_graph.py:503-504 | the plants chosen for the end product are exactly those `get_end_product_plants` reports |
| `Progress.ConnectingRoute` | sndp_gen/sndp_graph.py:232-240 | a route from the current plant to an end-product plant keeps the connect invariant |
| `Progress.SuppliersProduceAll` | sndp_gen/sndp_graph.py:224-226 | once the current plant makes a material, every route start produces |
| `Progress.RepairTargetIsPlant` | sndp_gen/sndp_graph.py:254-264 | the chosen supplier for a repair is a plant |
| `Progress.RepairTargetFree` | sndp_gen/sndp_graph.py:257-265 | the missing material is a material not yet made at the chosen supplier |
| `Progress.RepairingAdvance` | sndp_gen/sndp_graph.py:259-265 | one repair `add_product` keeps the older repair invariant |
| `Progress.RepairingStart` | sndp_gen/sndp_graph.py:249-258 | the repair of one end-product plant starts with the missing list covering every unavailable material |
| `Progress.RepairingDone` | sndp_gen/sndp_graph.py:249-265 | after adding every missing material, every material is available at the end-product plant |
| `Progress.RepairedThroughStep` | sndp_gen/sndp_graph.py:249-265 | repairing the next end-product plant extends the repaired prefix |
| `Progress.RepairStepsStart` | sndp_gen/sndp_graph.py:249 | the finished material step starts the repair, with every supplier linked |
| `Progress.RepairReady` | sndp_gen/sndp_graph.py:251-254 | an end-product plant has lists, and all its connected plants exist |
| `Progress.RepairedThroughAll` | sndp_gen/sndp_graph.py:249-265 | after the repair loop, every end-product plant reaches every material |
| `LegacyRecords.WithNodeRecordsCleared` | sndp_gen/sndp_graph.py:454-460 | clears the location and product counts and the `ShipCost`, `ArcProduct` and `arc` rows; keeps `MaterialReq` and the scenario records |
| `LegacyRecords.WithScenarioRecordsCleared` | sndp_gen/sndp_graph.py:462-468 | clears `NrOfScen`, `Prob` and `Demand`; keeps the node records and `MaterialReq` |
| `LegacyRecords.RebuildMatchesCache` | sndp_gen/sndp_graph.py:399-439 | the older full rebuild and the newer exact incremental cache agree: the same `ShipCost`, and the same `ArcProduct` and `arc` rows as sets |
| `LegacyScan.RouteRows` | sndp_gen/sndp_graph.py:409-413 | a route yields one row per product of its start, skipping materials into the market, without repeats |
| `LegacyScan.ScanRoutes` | sndp_gen/sndp_graph.py:404-418 | the route pass gives `ShipCost` in route order, and duplicate-free `ArcProduct` rows that are exactly the route rows of the scan |
| `LegacyScan.PlantRows` | sndp_gen/sndp_graph.py:423-428 | an end-product plant yields one self row per material it makes |
| `LegacyScan.ScanPlants` | sndp_gen/sndp_graph.py:421-433 | the plant pass gives exactly the self rows of the end-product plants, without repeats |
| `LegacyScan.DistinctArcs` | sndp_gen/sndp_graph.py:436-439 | `arc` holds each arc of the `ArcProduct` rows exactly once |
| `LegacyScan.FullScan` | sndp_gen/sndp_graph.py:399-439 | the rebuild yields `ShipCost` in route order, duplicate-free `ArcProduct` rows that are exactly the full scan, and their distinct arcs |
| `SndpGenLegacy.RepairingStep` | sndp_gen/sndp_graph.py:259-265 | a repair `add_product` is legal, keeps the repair invariant and does not change the end-product plants |
| `SndpGenLegacy.MaterialKeepsEndProductPlants` | sndp_gen/sndp_graph.py:224-226 | adding a material leaves the end-product plants unchanged |
| `SndpGenLegacy.RouteKeepsFit` | sndp_gen/sndp_graph.py:470-475 | a new route keeps the network well formed, duplicate-free and consistent with cleared node records |
| `SndpGenLegacy.SndpGraph.constructor` | sndp_gen/sndp_graph.py:135-166 | both flags start set and every record starts empty; `P-1` material requirements are drawn in range; there is no production, no route and no scenario |
| `SndpGenLegacy.SndpGraph.ClearNodesDataCache` | sndp_gen/sndp_graph.py:454-460 | clears the node records once and sets the flag; when the flag is already set, nothing changes |
| `SndpGenLegacy.SndpGraph.ClearStochasticDataCache` | sndp_gen/sndp_graph.py:462-468 | clears the scenario records once and sets the flag; when the flag is already set, nothing changes |
| `SndpGenLegacy.SndpGraph.AddProduct` | sndp_gen/sndp_graph.py:44-50 | fails, changing nothing, iff `p` is already at `l`; otherwise clears the node records and adds `p` on both sides |
| `SndpGenLegacy.SndpGraph.AddRoute` | sndp_gen/sndp_graph.py:470-475 | a self-loop fails with nothing changed. Otherwise the node records are cleared; a duplicate fails with the route still attached; a new route is registered. |
| `SndpGenLegacy.SndpGraph.GetEndProductPlants` | sndp_gen/sndp_graph.py:503-504 | lists exactly the locations that make the end product |
| `SndpGenLegacy.SndpGraph.AttachEndProduct` | sndp_gen/sndp_graph.py:171-175 | one end-product iteration (product first, then route) keeps its invariant |
| `SndpGenLegacy.SndpGraph.AssignEndProducts` | sndp_gen/sndp_graph.py:169-175 | `floor(L/2)` end-product plants, each making only the end product and shipping to the market |
| `SndpGenLegacy.SndpGraph.ConnectTo` | sndp_gen/sndp_graph.py:232-240 | after the call a plant that is not an end-product plant has a route to the target; only that plant's lists change |
| `SndpGenLegacy.SndpGraph.ConnectToEndProductPlants` | sndp_gen/sndp_graph.py:232-240 | a plant that is not an end-product plant ends up routed to at least one target |
| `SndpGenLegacy.SndpGraph.LinkToEndProductPlants` | sndp_gen/sndp_graph.py:229-240 | the drawn fan-out links a plant that is not an end-product plant to at least one end-product plant |
| `SndpGenLegacy.SndpGraph.ProduceMaterial` | sndp_gen/sndp_graph.py:225-226 | adds one material at the plant, after which every route start produces |
| `SndpGenLegacy.SndpGraph.ProduceNextMaterial` | sndp_gen/sndp_graph.py:225-226 | one iteration of the material loop keeps its invariant |
| `SndpGenLegacy.SndpGraph.ProduceMaterials` | sndp_gen/sndp_graph.py:224-226 | the plant ends up making exactly the drawn materials; other plants are untouched |
| `SndpGenLegacy.SndpGraph.SupplyPlant` | sndp_gen/sndp_graph.py:213-240 | handling one plant (materials first, then routes) advances the material step by one plant |
| `SndpGenLegacy.SndpGraph.AssignMaterials` | sndp_gen/sndp_graph.py:211-243 | after the material step every plant is supplied; counts are unchanged |
| `SndpGenLegacy.SndpGraph.RepairMaterial` | sndp_gen/sndp_graph.py:259-265 | one repair `add_product` keeps the repair invariant and the end-product plants |
| `SndpGenLegacy.SndpGraph.RepairPlant` | sndp_gen/sndp_graph.py:249-265 | afterwards every material is available at the end-product plant, and only products were added |
| `SndpGenLegacy.SndpGraph.RepairEndProductPlants` | sndp_gen/sndp_graph.py:249-268 | every end-product plant can obtain every material |
| `SndpGenLegacy.SndpGraph.Generate` | sndp_gen/sndp_graph.py:169-268 | the topology is generated (`NetworkGenerated`) with `floor(L/2)` end-product plants, and the records are untouched |
| `SndpGenLegacy.SndpGraph.Build` | sndp_gen/sndp_graph.py:135-275 | the error cases in source order, including zero and negative `num_scen`. Success iff `1 <= num_scen <= 19000`. The graph is generated, its records are still empty, and its scenarios form a distribution with distinct demands in `[1000, 20000)`. Its `P-1` material requirements each lie in `1..floor(40/P*2)`. |
| `SndpGenLegacy.SndpGraph.AddScenario` | sndp_gen/sndp_graph.py:477-480 | clears the scenario records and appends, with no duplicate check; the records stay current |
| `SndpGenLegacy.SndpGraph.RegenerateStochasticData` | sndp_gen/sndp_graph.py:335-351 | more than 19000 fails with nothing changed. Zero or negative fails with the scenarios emptied and the records left stale. Otherwise exactly `num_scen` scenarios are stored with the records cleared. |
| `SndpGenLegacy.SndpGraph.DataAsDict` | sndp_gen/sndp_graph.py:384-452 | fails iff `ShipCost` is empty while `ArcProduct` or `arc` is not. Otherwise it fills what was cleared: the counts, `MaterialReq`, the full scan, and the scenario rows when their flag was set. Both flags end cleared. |

## Source behaviour modelled as written

Each of these edge cases is modelled exactly as the code behaves:

- **Duplicate route.** A duplicate `add_route` fails only after the route constructor has
  already appended the route to its endpoints' lists, and it stays there. This is true of both
  versions. `AddRoute` returns `Fail(DuplicateRoute)` with the route attached
  (`Topology.WithAttachedRoute`).
- **Scenario count before the duplicate check.** The newer `add_scenario` appends the scenario
  and increments `NrOfScen` before it checks for a duplicate id, so a failed call still counts
  the scenario.
- **Older `add_scenario`.** It has no duplicate check at all (sndp_gen/sndp_graph.py:477-480).
  The newer one raises `KeyError` on a repeated id (sndpgen/sndp_graph.py:645-646). So the older
  graph accepts two scenarios with the same id.
- **Zero or negative `num_scen`.** `regenerate_stochastic_data` then fails inside
  `1 / num_scen` or `random.sample` after the scenario list has been emptied.
  - In the older version the scenario records and their flag are left as they were. A graph
    whose records were current is left with stale `NrOfScen`, `Prob` and `Demand`, and
    `SndpGenLegacy.SndpGraph.RegenerateStochasticData` proves this.
  - In the newer version the cache was already cleared at line 487.
- **More than 80 products.** Here `floor(40/P*2)` is 0 and `randint(1, 0)` raises. `Build`
  reports this as `NoMaterialRequirement`. The source's own check on the product count
  (sndpgen/sndp_graph.py:274-275) only rejects `P < 2`. For `P > 40` it prints a warning
  (sndpgen/sndp_graph.py:276-277) but carries on to the failing draw.
- **Order of steps.** The older generator adds the end product before the market route, and
  materials before routes. The newer one does the opposite in both cases. Each class follows
  its own source. `Topology.ProductRouteCommute` shows that the first difference does not
  change the network.

## Left out

- The multiprocessing branch (`generate_plant_data`, `mp.Pool`) is not modelled. `num_cpu` is
  fixed at 1 in both versions, so the branch never runs.
- Timers, `print`, `progress_bar`, the `DEBUG` flag and `visualize` (Graphviz) are output only
  and are not modelled.
- `export_mpl`, the `_data_txt` text records of the newer version, `adjust_sales_price`,
  `sndp_gen/command_line.py` and `sndp_gen/sndp_model.py` are outside the generator core and
  are not modelled. The `sales_price` property is modelled only as the constant price record.
- The random seed and the random number generator are left out: each draw is a free choice in
  its range. The model proves facts for every outcome and says nothing about reproducibility
  or the distribution of draws.
- Floating point is left out. Probabilities are exact reals, and the demand bounds are the
  integers they denote. With floats the remaining probability can drift by rounding.
- The older `arc` rows carry string ids (`"3"`) split out of a key. They are modelled as
  integer ids.
- In the older version `data_as_dict` returns the graph's own `_data` dictionary, which the
  caller can mutate. The model returns a value, so this aliasing is not captured.
- `_Location`, `_Product` and `_Route` are not separate heap objects. Their lists live in the
  `Network` value that each graph class owns and reassigns. Object identity and the
  back-pointer `_graph` are not modelled.
- `_Route` argument type checks (`isinstance`) and `get_location`/`get_product` on unknown ids
  are not modelled. The model takes ids that the caller's range requirement guarantees
  (`IsLocation`, `IsProduct`).
- `SndpGen.SndpGraph.AssignMaterials`: the loop over plants is written as recursion over the
  next plant id. It visits the same plants in the same order as the source's `for` loop.
- `SndpGenLegacy.SndpGraph.AssignMaterials`: the loop over plants is written as recursion over
  the next plant id, as in the newer class.
- `LegacyScan.FullScan`: `ArcProduct` is stated by membership and distinctness, not by the
  exact row order. `arc` comes from iterating a set, whose order Python leaves open.
- `SndpGen.SndpGraph.DataAsDict`: the cached rows are stated by membership and distinctness.
  Equality with the full scan is proved for an exact cache, which every generated graph has.
  It is not proved for arbitrary sequences of `add_product` calls that put materials at a
  plant before the end product.
- `Sampling.RandomSubset`: only the size and origin of the result are stated, not that every
  subset is equally likely.
- `SndpGen.SndpGraph.constructor`: it requires `L >= 2` and `2 <= P <= 80`. The failing
  configurations are modelled by `SndpGen.SndpGraph.Build`, which reports them as errors in
  the source's order.
- `SndpGenLegacy.SndpGraph.constructor`: it requires `L >= 2` and `2 <= P <= 80`. The failing
  configurations are modelled by `SndpGenLegacy.SndpGraph.Build`.
