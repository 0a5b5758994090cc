# hexmap-explorer in Dafny

A model of the rules behind the hexmap-explorer hex-crawl game. The game keeps
a growing map of hex tiles in cube coordinates (`q + r + s == 0`), a party
that travels at a pace, by a means of transport and with a set of traits,
and a background scheduler that fills in tile descriptions. Maps can also
come from a stand-alone "stable" world generator or from a picture. The
model covers:

- the hex geometry and the tile record (`hex.dfy`, with the row-major
  enumeration in `grids.dfy`);
- the terrain, pace and transport catalogs (`constants.dfy`);
- the travel economy as a `TravelSystem` class (`travel.dfy`);
- the map store as a `HexMap` class over a `map<Coord, Hex>`, with its
  explore, navigate, rest-and-scout, save and load operations (`map.dfy`);
- the description scheduler as a `GenerationManager` class whose worker is a
  sequential loop (`generation_manager.dfy`);
- the biome decision chain and river walk of the advanced terrain generator
  (`terrain_generator.dfy`);
- the stable generator's fractal noise and cell cascade
  (`stable_map_generator.dfy`);
- the explorer's transport, pace and resupply rules (`explorer.dfy`);
- the map-setup rules of the main menu (`main_menu.dfy`);
- the picture converter's reply cleanup, colour cascade and import dialog
  (`map_image_converter.dfy`);
- the Python string operations those rules rely on (`strings.dfy`) and an
  `Option`/`Result` pair (`wrappers.dfy`).

Costs, hours, supplies and noise values are exact `real`s. The game computes
them in floating point, so its results agree with the model only up to
rounding. Every random draw is a parameter:

- a roll in `[0, 1)` for the supply drop, the exhaustion check and the lake
  and river overrides;
- a `TerrainDraws` pair of per-coordinate functions for the neighbour copy
  of `create_hex`;
- a `(cell seed, index) -> real` stream for the stable generator's reseeded
  `random`.

The model also takes these as parameters:

- the text generator behind tile descriptions, a `generate` function;
- the cancel button, a `cancelBefore` oracle;
- the vision model's replies and their JSON reading;
- the image's average colours, a `colours` function;
- `sin`, `cos`, `sqrt` and `pow`, the fields of a `Maths` value. Only the
  bounds of `sin` and `cos` are assumed.

Where the documentation and the code disagree, the model follows the code:

- `_update_movement_points` is described as rescaling the movement points
  when the allowance changes. The ratio is taken against the new allowance,
  so the points never change (`Travel.TravelSystem.UpdateMovementPoints`).
- A map from the stable generator is meant to be playable. Its records carry
  a `generating` key, and `Hex.from_dict` passes `generating=False` as
  well. The load therefore fails with a `TypeError`, and
  `start_game_with_map` shows an error (`MainMenu.StableMapsNeverStart`).
- The stable generator's travel record uses the keys `current_pace`,
  `current_transport` and `movement_points`. `load_from_data` reads `pace`,
  `transport` and `movement`, so such a record loads as a fresh party
  (`StableMap.StableTravelData`).

## Model

| member | source | states |
|---|---|---|
| Constants.TerrainKeys | config/constants.py:6-15 | eight terrain keys, pairwise distinct, in the table's order |
| Constants.ParseTerrain | config/constants.py:6-15 | a key is found exactly when it is one of the eight, and the found terrain's key is that key |
| Constants.ParseTerrainKey | config/constants.py:6-15 | every terrain's key looks up that terrain |
| Constants.BaseCost | config/constants.py:7-14 | `movement_cost` is 999 exactly for water and lies in [1, 3] for every other terrain |
| Constants.ParsePace | config/constants.py:18-22 | only "slow", "normal" and "fast" are paces, each naming itself |
| Constants.ParsePaceKey | config/constants.py:18-22 | every pace's key looks up that pace |
| Constants.PaceHexesPer8h | config/constants.py:19-21 | the pace table's hexes per 8 hours equal the on-foot speeds of the transport table |
| Constants.ParseTransport | config/constants.py:25-75 | only "on_foot", "horse", "boat" and "airship" are modes, each naming itself |
| Constants.ParseTransportKey | config/constants.py:25-75 | every mode's key looks up that mode |
| Constants.SpeedsIncrease | config/constants.py:25-73 | every mode is strictly faster at a faster pace, with speeds between 6 and 28 |
| Constants.Modifier | config/constants.py:25-73 | every modifier is defined for all eight terrains and positive; water is 999 on foot and on horseback; a boat gets 999 everywhere except water (0.5) and swamp (2.0); an airship is never impassable |
| Constants.ExhaustionResistant | config/constants.py:25-73 | `exhaustion_resistant` is false exactly on foot |
| Constants.RequiresRest | config/constants.py:25-73 | `requires_rest` is false exactly for boat and airship |
| HexGrid.Neighbors | core/hex.py:43-49 | six neighbours, each the centre plus one unit direction in the listed order, pairwise distinct and different from the centre |
| HexGrid.NeighborsAdjacent | core/hex.py:43-64 | every neighbour keeps the coordinate sum and lies at distance 1 |
| HexGrid.DistanceSymmetric | core/hex.py:62-64 | distance is symmetric and zero from a point to itself |
| HexGrid.DistanceExact | core/hex.py:62-64 | for points with equal sums the absolute differences add up to an even number, so `// 2` is exact, and the distance is the largest difference |
| HexGrid.DistanceZeroIffEqual | core/hex.py:62-64 | for points with equal sums, distance 0 holds exactly when the points coincide |
| HexGrid.RadiusColumnsMembership | core/hex.py:55-58 | the columns built so far hold exactly the coordinates of those columns within the row bounds, with the centre's sum |
| HexGrid.RadiusColumnsDistinct | core/hex.py:55-58 | the nested loops never list a coordinate twice |
| HexGrid.ColumnLength | core/hex.py:56-58 | column `dq` lists `2R + 1 - abs(dq)` coordinates |
| HexGrid.LeftColumnsLength | core/hex.py:55-58 | the count of coordinates in the columns left of the centre |
| HexGrid.RightColumnsLength | core/hex.py:55-58 | the count of coordinates up to column `end` from the centre on |
| HexGrid.RadiusListLength | core/hex.py:52-59 | radius R lists 3R² + 3R + 1 coordinates |
| HexGrid.RadiusListMembership | core/hex.py:52-59 | a coordinate is listed exactly when it has the centre's sum and lies within distance R |
| HexGrid.HexesWithinRadius | core/hex.py:52-59 | the nested loops produce the enumeration: 3R² + 3R + 1 pairwise distinct coordinates for R ≥ 0, exactly those with the centre's sum within distance R |
| HexGrid.ToDict | core/hex.py:22-28 | the record has every field of the tile except `generating` and `distance_from_current` |
| HexGrid.FromDict | core/hex.py:30-33 | loading succeeds exactly when the record has neither runtime key; the tile is then not generating, at distance 999, and saves back to the record; a `generating` key is a duplicate-keyword error |
| HexGrid.HexRoundTrip | core/hex.py:22-33 | loading a saved tile gives it back with `generating` false and distance 999 |
| Grids.LineShape | stable_map_generator.py:44 | an inner loop (here and in `convert_image_to_hex_map`) over `[x0, x1)` gives `x1 - x0` cells, cell `j` at column `x0 + j` |
| Grids.GridLength | stable_map_generator.py:43-44 | nested loops (here and in `convert_image_to_hex_map`) over a rectangle give rows times columns cells |
| Grids.GridMembership | stable_map_generator.py:43-44 | a value appears in the nested loops' output exactly when some cell of the rectangle produces it |
| Grids.GridDistinct | stable_map_generator.py:43-45 | when no two cells map to the same value, the output has no repetitions |
| Grids.DistinctCardinality | stable_map_generator.py:43-45 | a list without repetitions has as many distinct elements as entries |
| Grids.MapSeqAppend | stable_map_generator.py:173-180 | appending a batch of records is mapping the concatenated cells |
| Travel.MaxMovementFor | travel/system.py:31-39 | the allowance is the table speed, or with a navigator at least the table speed, and always between 6 and 30 |
| Travel.NavigatorExamples | travel/system.py:36-37 | with a navigator, on foot at a normal pace stays 8, a horse at a normal pace gets 13, and an airship at a fast pace gets 30 |
| Travel.MovementCostFor | travel/system.py:44-60 | an impassable modifier gives 999 before any ranger halving; a passable cost is positive and below 999; a ranger on foot pays exactly min(cost, 1), with the cost halved on favoured terrain, so never more than 1; without a ranger, or with a ranger not on foot off favoured terrain, the cost is base times modifier; a ranger on favoured terrain, not on foot, pays half |
| Travel.WaterCosts | travel/system.py:44-60 | water costs 499.5 by boat and 799.2 by airship, and 999 on foot or horseback with or without a ranger |
| Travel.WaterBeyondAnyAllowance | travel/system.py:44-67 | water costs more than any allowance of any mode, pace and navigator, so a party never enters it |
| Travel.SaveDataOf | travel/system.py:160-175 | the record carries the pace and transport keys of the fields |
| Travel.DecodeTravelData | travel/system.py:177-190 | a record loads exactly when its pace and transport, defaulted when missing, name catalog entries; each of the twelve fields is then the record's value or, when the key is missing, its default |
| Travel.SaveLoadRoundTrip | travel/system.py:160-191 | loading a saved record restores all twelve fields |
| Travel.EmptyRecordLoadsDefaults | travel/system.py:177-190 | an empty record loads as a fresh party |
| Travel.MoveSupplies | travel/system.py:76-78 | a move leaves supplies non-negative and lowers them by at most 0.1 |
| Travel.RestRecovers | travel/system.py:90-95 | a rest lowers each exhaustion counter by one with floor zero, and the supplies by at most one with floor zero |
| Travel.MarchExhaustion | travel/system.py:105-111 | a forced march raises at most one counter by one, only after eight hours, the mount's for resistant modes and the party's otherwise |
| Travel.TravelSystem.constructor | travel/system.py:11-29 | on foot at a normal pace, eight points and allowance, ten supplies, no exhaustion, no traits |
| Travel.TravelSystem.UpdateMovementPoints | travel/system.py:31-42 | the allowance follows the table and every saved field, the movement points included, is unchanged |
| Travel.TravelSystem.CanMoveTo | travel/system.py:62-67 | true exactly when the modifier is passable and the points cover the cost |
| Travel.TravelSystem.MoveToHex | travel/system.py:69-81 | reports `can_move_to`; on success the points drop by the cost, the hours grow by cost/allowance × 8, supplies may drop by 0.1 and the points stay non-negative; on failure nothing changes |
| Travel.TravelSystem.Rest | travel/system.py:83-96 | full allowance from the table, hours 0, one more day, one level of each exhaustion recovered, one supply eaten, resting |
| Travel.TravelSystem.ForcedMarch | travel/system.py:98-115 | refused with nothing changed when the mode needs no rest; otherwise two more points and hours and the exhaustion roll |
| Travel.TravelSystem.ChangePace | travel/system.py:117-121 | a known pace is set and the allowance follows; an unknown one changes nothing |
| Travel.TravelSystem.ChangeTransport | travel/system.py:123-129 | true exactly for a known mode, which is set with the allowance following; an unknown one changes nothing |
| Travel.TravelSystem.GetEffectiveExhaustion | travel/system.py:131-136 | the mount's exhaustion exactly for resistant modes, the party's otherwise |
| Travel.TravelSystem.Resupply | travel/system.py:138-140 | supplies become min(30, supplies + days), nothing else changes |
| Travel.TravelSystem.ToggleRanger | travel/system.py:142-144 | only the ranger flag flips |
| Travel.TravelSystem.ToggleNavigator | travel/system.py:146-149 | only the navigator flag flips, and the allowance follows the table |
| Travel.TravelSystem.ToggleOutlander | travel/system.py:151-153 | only the outlander flag flips |
| Travel.TravelSystem.SetFavoredTerrain | travel/system.py:155-158 | only a catalog key or `None` is stored; anything else changes nothing |
| Travel.TravelSystem.GetSaveData | travel/system.py:160-175 | the record loads back as exactly the current fields |
| Travel.TravelSystem.LoadFromData | travel/system.py:177-191 | a loadable record sets all twelve fields and the allowance follows the table; an unloadable one changes nothing |
| Travel.TravelSystem.SetFields | travel/system.py:179-190 | the twelve assignments set exactly the given fields |
| HexMapStore.HexMap.constructor | core/map.py:16-21 | no tiles, at the origin, with the given scheduler and a fresh party of default travel fields |
| HexMapStore.NeighbourTerrains | core/map.py:25-30 | every neighbour present contributes its terrain, and catalog terrains stay catalog terrains |
| HexMapStore.ChooseTerrain | core/map.py:32-36 | the terrain comes from the neighbours when there are some and the roll is below 0.6, and from the catalog otherwise |
| HexMapStore.CreatedTile | core/map.py:23-38 | the new tile is at its coordinates, unexplored, invisible, generating, awaiting its description, with a catalog terrain when the map has only those |
| HexMapStore.HexMap.CreateHex | core/map.py:23-38 | the method builds exactly that tile |
| HexMapStore.NewIn | core/map.py:131-136 | the coordinates listed that are missing from the map, in order |
| HexMapStore.WithDistances | core/map.py:65-71 | same keys, every tile's distance measured from the given position, nothing else changed |
| HexMapStore.MeasureDistances | core/map.py:68-71 | the distance loop yields that map |
| HexMapStore.HexMap.CalculateDistances | core/map.py:65-71 | every tile's distance from the current position, nothing else changed |
| HexMapStore.ExploredAmong | core/map.py:59-63 | exactly the listed coordinates that hold an explored tile |
| HexMapStore.HexMap.GetAdjacentExplored | core/map.py:59-63 | exactly the neighbours that exist and are explored, at most six |
| HexMapStore.LoadRecords | core/map.py:161-167 | the load succeeds exactly when every record loads; the tiles then sit under their own coordinates, one key per named coordinate |
| HexMapStore.LoadRecordsPrefix | core/map.py:165-167 | a record that fails stops the whole load |
| HexMapStore.LoadSavedRecords | core/map.py:146-167 | records saved from tiles load back as those tiles, reloaded |
| HexMapStore.SaveLoadMap | core/map.py:146-167 | saving every tile once and loading the records gives back every tile with its runtime fields reset |
| HexMapStore.TileRecords | core/map.py:150 | one record per tile, each the saved form of the tile at its coordinates |
| HexMapStore.HexMap.SaveToData | core/map.py:146-152 | the position, one record per tile and the travel record, and the records load back as the tiles |
| HexMapStore.HexMap.LoadFromData | core/map.py:156-173 | succeeds exactly when every record and the travel record load; then the tiles are the loaded ones with distances from the loaded position, and the travel fields are loaded or kept |
| HexMapStore.SeededAroundFacts | core/map.py:40-57 | after seeding: exactly the centre and its six neighbours are added, the neighbours fresh and visible, a batch of seven with the centre first, and seven tiles from an empty map; neighbour i is the tile `create_hex` makes from the centre and neighbours 0 to i-1 already placed, made visible |
| HexMapStore.HexMap.SeedAround | core/map.py:42-55 | the centre is created explored and visible, then each neighbour in turn is created from the tiles placed so far and made visible, and all seven are queued |
| HexMapStore.HexMap.SeedNeighbours | core/map.py:50-54 | the neighbour loop: each neighbour in turn created from the tiles placed so far, made visible and queued after the centre |
| HexMapStore.HexMap.InitializeMap | core/map.py:40-57 | those seven tiles, each neighbour made from the tiles placed before it, handed over as one "scouting" batch unless a batch is running |
| HexMapStore.ScoutedKeepsInvariants | core/map.py:131-138 | a sweep (here and in `rest_and_scout`) keeps every tile under its own key and every terrain in the catalog |
| HexMapStore.ScoutedSweeps | core/map.py:131-138 | a sweep adds exactly the missing coordinates as fresh visible tiles, makes the rest visible, and batches the new ones in order |
| HexMapStore.SweptVisible | core/map.py:131-138 | after a sweep every swept coordinate is present and visible, and no tile is lost or unexplored |
| HexMapStore.HexMap.Scout | core/map.py:80-87 | the sweep loop, shared with `explore_hex`, performs that sweep |
| HexMapStore.RevealedAmong | core/map.py:104-106 | same keys; the listed tiles become visible and nothing else changes |
| HexMapStore.HexMap.RevealExisting | core/map.py:104-106 | the loop makes the existing listed tiles visible and changes nothing else |
| HexMapStore.ExploreStart | core/map.py:126 | the target marked explored, nothing lost |
| HexMapStore.ExploreSweepFacts | core/map.py:126-138 | after the sweep the target stays explored, every neighbour is present and visible, and the batch lists exactly the new neighbours |
| HexMapStore.ExploredMapFacts | core/map.py:124-143 | after exploring: the target is explored, every neighbour exists and is visible, no tile is lost or unexplored, distances are from the target, and only missing neighbours are added and queued |
| HexMapStore.HexMap.ExploreHex | core/map.py:112-144 | fails in order on a missing hex, a generating hex and an unaffordable move, changing nothing; on success moves and pays, explores, sweeps, queues a "scouting" batch when something is new, and measures distances |
| HexMapStore.HexMap.NavigateToHex | core/map.py:92-110 | only onto an explored hex within reach; moves and pays, makes existing neighbours visible, measures distances, never adds tiles; otherwise changes nothing |
| HexMapStore.HexMap.ScoutAround | core/map.py:77-87 | every zero-distance-2 coordinate ends present and visible, no tile is lost or unexplored |
| HexMapStore.HexMap.RestAndScout | core/map.py:73-90 | rest, then every hex within two steps present and visible, with a "resting" batch only when something was new |
| HexMapStore.HexMap.RunGenerationWorker | generation/manager.py:42-63 | the worker run on the map's tiles writes only descriptions and `generating`, and no tile is lost |
| Generation.ApplyItem | generation/manager.py:48-53 | one item never adds or removes a tile |
| Generation.ApplyBatch | generation/manager.py:44-56 | the processed items never add or remove a tile |
| Generation.ApplyBatchFrame | generation/manager.py:48-53 | only descriptions and `generating` change |
| Generation.ApplyBatchUntouched | generation/manager.py:44-46 | a tile no processed item names is untouched, in particular every item after the stop point |
| Generation.ApplyBatchDescribes | generation/manager.py:51-53 | an item's tile gets generate(terrain, coords) and stops generating |
| Generation.FirstCancel | generation/manager.py:44-46 | the stop point is the first item before which cancellation is seen |
| Generation.Processed | generation/manager.py:44-46 | without cancellation every item is processed; a shorter run was cancelled |
| Generation.ProcessedIsFirst | generation/manager.py:44-46 | the stop point is the first index where cancellation is seen |
| Generation.GenerationManager.constructor | generation/manager.py:14-24 | idle, no progress, no batch, no cancellation, "scouting" |
| Generation.GenerationManager.StartGeneration | generation/manager.py:26-41 | ignored while generating; otherwise the batch is recorded, total = length, completed 0, progress 0, generating, not cancelled, with its type |
| Generation.GenerationManager.ProcessItem | generation/manager.py:48-56 | one item described, completed + 1, progress = completed/total |
| Generation.GenerationManager.GenerateWorker | generation/manager.py:42-63 | items are described in order up to the first cancellation; completed counts them; afterwards not generating and progress 1.0; other tiles untouched |
| Generation.GenerationManager.Cancel | generation/manager.py:65-70 | the flag is raised and the manager idle, counters kept |
| Generation.GenerationManager.GetStatus | generation/manager.py:80-89 | the flag, progress, completed and total counters, current item label and type as stored; completed never exceeds total, which is the batch length |
| TerrainGen.TerrainValueRoundTrip | generation/terrain_generator.py:12-30 | every type's value looks up the type, so the seventeen values are distinct |
| TerrainGen.ParseTerrainValueSound | generation/terrain_generator.py:12-30 | a name that looks up a type is that type's value |
| TerrainGen.Properties | generation/terrain_generator.py:45-114 | an entry for every type, RGB colour channels, ranges inside [-1, 1], cost at least 1, impassable exactly for deep ocean, ocean, high mountains and lake |
| TerrainGen.DetermineTerrain | generation/terrain_generator.py:250-319 | elevation < -0.5 deep ocean, [-0.5, -0.2) ocean, [-0.2, -0.05) shallow water; the coast band gives tundra, swamp or beach; > 0.85 high mountains; (0.6, 0.85] high mountains when cold, else mountains; sea exactly below -0.05, peaks exactly above 0.6; never lake or river |
| TerrainGen.Overridden | generation/terrain_generator.py:333-342 | river exactly when its override applies; lake exactly when the lake override applies and the river one does not; otherwise the decision chain |
| TerrainGen.LegacyData | generation/terrain_generator.py:344-356 | the legacy record carries the type's name and catalog properties and the three inputs |
| TerrainGen.TerrainGenerator.constructor | generation/terrain_generator.py:120-141 | a missing or zero seed is replaced by the draw; layer seeds offset by 0, 1000, 2000, 3000; scale 0.015, 6 octaves, persistence 0.5, lacunarity 2; no lakes or rivers |
| TerrainGen.TerrainGenerator.GenerateTerrain | generation/terrain_generator.py:321-358 | the name and record of the overridden type; the coordinate is added to the lakes exactly when the lake override applies, even when a river then wins |
| TerrainGen.LowestIndex | generation/terrain_generator.py:377-387 | the index found is in range and has an elevation |
| TerrainGen.LowestIndexIsFirstMinimum | generation/terrain_generator.py:377-387 | no neighbour with an elevation means no result; otherwise the lowest elevation, the first on ties |
| TerrainGen.Lowest | generation/terrain_generator.py:377-387 | the lowest neighbour is a neighbour with an elevation |
| TerrainGen.TerrainGenerator.FindLowest | generation/terrain_generator.py:377-387 | the scan finds that neighbour |
| TerrainGen.GetNeighbors | generation/terrain_generator.py:403-408 | the same six directions, in the same order, as the map's neighbour list |
| TerrainGen.Advance | generation/terrain_generator.py:389-391 | the next step is the lowest neighbour when it is not already on the path |
| TerrainGen.RiverWalk | generation/terrain_generator.py:366-401 | the walk adds at most its budget of steps |
| TerrainGen.RiverWalkExtends | generation/terrain_generator.py:369-390 | the walk only extends the path |
| TerrainGen.RiverWalkDistinct | generation/terrain_generator.py:389 | the walk never revisits a coordinate |
| TerrainGen.RiverWalkDownhill | generation/terrain_generator.py:375-391 | each added step goes to the lowest neighbour of the coordinate before it |
| TerrainGen.RiverWalkStops | generation/terrain_generator.py:393-399 | a walk shorter than its budget stopped on water or had nowhere new to go |
| TerrainGen.TerrainGenerator.RiverStep | generation/terrain_generator.py:375-399 | one pass of the loop advances the walk by one step or ends it |
| TerrainGen.TerrainGenerator.WalkDownhill | generation/terrain_generator.py:373-399 | the loop performs the walk with its budget |
| TerrainGen.TerrainGenerator.GenerateRiver | generation/terrain_generator.py:366-401 | starts at the start, at most 51 distinct coordinates, each step to the lowest existing neighbour, stopping on water, revisits or dead ends |
| StableMap.SimpleNoiseWithin | stable_map_generator.py:19-21 | with sine and cosine in [-1, 1], `simple_noise` lies in [-1, 1] |
| StableMap.WeightSumAtLeast | stable_map_generator.py:28-33 | with non-negative weights the divisor is at least the first weight |
| StableMap.OctaveSumWithin | stable_map_generator.py:30-34 | the weighted sum stays within the sum of the weights |
| StableMap.FractalWithin | stable_map_generator.py:23-36 | `fractal_noise` with at least one octave is an average in [-1, 1], never dividing by zero |
| StableMap.StableMapGenerator.SumOctaves | stable_map_generator.py:25-34 | the loop accumulates the octave sum and the weight sum |
| StableMap.StableMapGenerator.FractalNoise | stable_map_generator.py:23-36 | the loop's quotient is the weighted average |
| StableMap.LayerAverageable | stable_map_generator.py:30-36 | a layer with an octave and non-negative persistence never divides by zero |
| StableMap.StableLayersAverageable | stable_map_generator.py:52-164 | none of the generator's twelve calls divides by zero |
| StableMap.NoiseWithin | stable_map_generator.py:52-164 | every layer the generator samples lies in [-1, 1] |
| StableMap.StableMapGenerator.Sample | stable_map_generator.py:52-164 | one call with a layer's arguments samples that layer |
| StableMap.ReliefWithin | stable_map_generator.py:52-66 | the relief lies in [-1, 1.4] |
| StableMap.StableMapGenerator.CellRelief | stable_map_generator.py:52-66 | the three layers and the mountain boost give that relief |
| StableMap.MaxDistance | stable_map_generator.py:73 | 0.45 of the shorter side is positive |
| StableMap.Falloff | stable_map_generator.py:74 | the falloff is at least 0.1 |
| StableMap.StableMapGenerator.CellFalloff | stable_map_generator.py:72-74 | the falloff at the cell's distance |
| StableMap.StableMapGenerator.CellElevation | stable_map_generator.py:52-75 | relief plus the cell's first draw, scaled by the falloff |
| StableMap.Cascade | stable_map_generator.py:89-129 | elevation < 0 gives water; ≥ 0.5 gives tundra below temperature 0.5 and mountains otherwise; each other terrain only in its band |
| StableMap.Coastline | stable_map_generator.py:131-147 | water may become plains or tundra; land may become water or plains, and only below elevation 0.2 |
| StableMap.RiverCut | stable_map_generator.py:149-155 | only dry land above 0.1 can turn to water |
| StableMap.Transition | stable_map_generator.py:157-171 | only desert, forest and tundra edges soften, and only to plains |
| StableMap.DeepCellsAreWaterOrIsland | stable_map_generator.py:89-155 | a cell below sea level ends as water, plains or tundra |
| StableMap.CellRecord | stable_map_generator.py:173-180 | the record sits at its cell, has one of the eight basic terrains and "Generated terrain", is unexplored and invisible, and carries `generating: False` |
| StableMap.StableMapGenerator.GenerateCell | stable_map_generator.py:45-180 | the loop body writes that record, depending only on seed, position and size |
| StableMap.CubeAtInjective | stable_map_generator.py:45 | no two cells get the same coordinates |
| StableMap.HalfOpenWidth | stable_map_generator.py:43-44 | `range(-n//2, n//2)` holds exactly n values |
| StableMap.CellsLength | stable_map_generator.py:43-45 | exactly width × height cells |
| StableMap.CellsDistinct | stable_map_generator.py:43-45 | no cell is generated twice |
| StableMap.CellsMembership | stable_map_generator.py:43-45 | exactly the zero-sum coordinates with x in [-width//2, width//2) and y in [-height//2, height//2) |
| StableMap.HalfOpenPositive | stable_map_generator.py:43-44 | a non-empty range means a positive size |
| StableMap.StableMapGenerator.GenerateRow | stable_map_generator.py:44-180 | the inner loop writes the records of one row in order |
| StableMap.StableMapGenerator.GenerateRows | stable_map_generator.py:43-180 | the outer loop writes the records row by row |
| StableMap.StableTravelData | stable_map_generator.py:190-196 | the fixed record holds none of the keys `load_from_data` reads, so it loads as a fresh party |
| StableMap.StableMapGenerator.constructor | stable_map_generator.py:15-17 | a missing or zero seed is replaced by the draw |
| StableMap.StableMapGenerator.GenerateRealisticMap | stable_map_generator.py:38-197 | seed, size, generator "stable", version "1.0", start [0, 0, 0], the fixed travel record, and one record per cell in order (none for an empty size) |
| Explorer.TransportDecision | application/explorer.py:114-126 | no tile gives no change; otherwise the mode switches exactly when its modifier here is below 999 and is refused otherwise |
| Explorer.BoatOnlyAfloat | application/explorer.py:118-125 | a boat is accepted only on water and swamp |
| Explorer.AirshipAndLandModes | application/explorer.py:118-125 | an airship is accepted everywhere; walking and riding are refused only on water |
| Explorer.HexMapExplorer.ChangeTransport | application/explorer.py:114-126 | on a switch only the transport changes and the allowance follows; a refusal or a missing tile changes nothing |
| Explorer.PaceIndex | application/explorer.py:200-201 | `paces.index(current_pace)` is in range and finds the pace |
| Explorer.NextPace | application/explorer.py:200-202 | the next pace always differs |
| Explorer.PaceCycles | application/explorer.py:199-203 | slow → normal → fast → slow, and three presses return to the start |
| Explorer.HexMapExplorer.PressPaceKey | application/explorer.py:197-203 | only the pace changes, one step along the cycle, and the allowance follows |
| Explorer.StartResupplies | application/explorer.py:133-135 | the starting hex always resupplies |
| Explorer.TownResupplies | application/explorer.py:130-132 | "town" in any letter case in the description makes a resupply point |
| Explorer.ElsewhereNoResupply | application/explorer.py:128-136 | away from the start, no tile or no "town" means no resupply |
| Explorer.HexMapExplorer.PressResupplyKey | application/explorer.py:219-225 | ten supplies capped at thirty exactly at a resupply point; nothing changes elsewhere |
| MainMenu.Truncate | main_menu.py:410-411 | `int()` on a float truncates toward zero |
| MainMenu.HexCount | main_menu.py:410-411 | at least one tile per side, the truncated quotient when it is at least 1 |
| MainMenu.PixelTerrain | main_menu.py:419-431 | first match decides, as an if-and-only-if for every terrain: water exactly for dominant blue above 100; otherwise forest exactly for green over red between 100 and 150 and plains for such green from 150; then desert (red above 200) or hills in the sand band, mountains in the dark band, tundra in the pale band and swamp in the marsh band, each only when no earlier band matched; plains when no band matches |
| MainMenu.EveryTerrainHasAColour | main_menu.py:419-431 | every catalog terrain is produced by some RGB colour |
| MainMenu.OffsetToCube | main_menu.py:433-435 | q is the column and the coordinates sum to zero |
| MainMenu.OffsetRoundTrip | main_menu.py:433-435 | converting a cell and back gives the cell |
| MainMenu.CubeRoundTrip | main_menu.py:433-435 | every zero-sum coordinate comes from the cell it converts back to |
| MainMenu.OffsetToCubeInjective | main_menu.py:433-435 | no two cells share cube coordinates |
| MainMenu.ConvertRow | main_menu.py:417-444 | the inner loop writes the records of one row in order |
| MainMenu.ConvertRows | main_menu.py:415-446 | the outer loop writes the rows of records one after another |
| MainMenu.ConvertImageToHexMap | main_menu.py:410-446 | one record per cell, rows outermost |
| MainMenu.LineKeys | main_menu.py:433-444 | a row of records sits at its row of cube coordinates |
| MainMenu.GridKeys | main_menu.py:415-446 | the records sit at the cells' cube coordinates |
| MainMenu.ConvertedMap | main_menu.py:415-446 | rows × columns records, unexplored, invisible, "A {terrain} region", at distinct zero-sum coordinates, all loadable |
| MainMenu.ConvertedRecords | main_menu.py:436-444 | every record is unexplored, invisible, catalogued, zero-sum and loadable |
| MainMenu.ConvertedKeys | main_menu.py:433-444 | no two records share a coordinate |
| MainMenu.GoodStartUnique | main_menu.py:744-769 | the start chosen does not depend on the order in which the map is walked |
| MainMenu.Least | main_menu.py:762-763 | the first entry after sorting is an entry and is at most every entry |
| MainMenu.FindGoodStartingPosition | main_menu.py:744-769 | a land tile with least abs(q)+abs(r)+abs(s), ties broken by coordinate order, or (0, 0, 0) when there is no land |
| MainMenu.StartAreaEffect | main_menu.py:715-726 | the start becomes explored and visible, its existing neighbours visible, and nothing else changes |
| MainMenu.StableMapsNeverStart | main_menu.py:703-742 | a stable-generator map always fails to start, because its records carry `generating` |
| MainMenu.ConvertedMapsStart | main_menu.py:692-742 | an image-converted map always starts |
| MainMenu.LoadTiles | main_menu.py:703-709 | the map is filled with the loaded tiles exactly when every record loads |
| MainMenu.ArriveAt | main_menu.py:713-726 | the position is the start and the map changes as the start area says |
| MainMenu.Menu.constructor | main_menu.py:109 | the menu starts running |
| MainMenu.Menu.StartGameWithMap | main_menu.py:692-742 | the explorer starts exactly when every record and the travel record load; then the tiles are loaded, the start is the good start with its area revealed, the travel record applied and distances measured; otherwise the menu keeps running |
| ImageConverter.CleanCutsJson | map_image_converter.py:83-88 | a "```json" reply is cut from its first "{" through its last "}" |
| ImageConverter.CleanKeepsBracelessJson | map_image_converter.py:84-88 | a "```json" reply without braces in order is kept |
| ImageConverter.CleanDropsFences | map_image_converter.py:89-90 | other fenced replies lose their fences and are stripped |
| ImageConverter.CleanKeepsPlain | map_image_converter.py:83-90 | an unfenced reply is kept stripped |
| ImageConverter.RemoveShrinks | map_image_converter.py:90 | removing a pattern that occurs shortens by at least its length |
| ImageConverter.FirstNamed | map_image_converter.py:101-106 | none exactly when no listed name occurs; otherwise a listed name that occurs |
| ImageConverter.FirstNamedAt | map_image_converter.py:101-106 | a name that occurs after none of the earlier ones is the one found |
| ImageConverter.NormaliseTerrain | map_image_converter.py:96-114 | the first catalog name inside the lowered, stripped answer, else the positional fallback |
| ImageConverter.CatalogNameNormalises | map_image_converter.py:96-114 | a catalog name normalises to itself |
| ImageConverter.NamesApart | map_image_converter.py:96-106 | no terrain name contains an earlier one, so list order never hides a name |
| ImageConverter.AnalyzeMapSection | map_image_converter.py:62-138 | a failed request gives the three-way fallback; an unreadable reply the four-way one; a readable one the normalised terrain and its description, or "A {terrain} region at coordinates ({x}, {y})" when it has none; water only from an answer naming water or the four-way fallback |
| ImageConverter.WaterNamed | map_image_converter.py:96-114 | a water terrain comes only from the word "water" |
| ImageConverter.ColourTerrain | map_image_converter.py:331-350 | first match decides, as an if-and-only-if for every terrain: water exactly for dominant blue above 150; otherwise green over red and blue above 100 gives plains above 150 and forest otherwise; then desert (red above 200) or hills in the sand band, mountains, tundra and swamp in their bands, each only when no earlier band matched; plains when no band matches |
| ImageConverter.CascadesDiffer | map_image_converter.py:331-350 | this cascade and the menu's disagree on dim blue and on blue-green |
| ImageConverter.CellEntry | map_image_converter.py:352-374 | a water entry only where the colour is water; a sampled drier answer is kept, and so is a water answer on a water colour; a water answer on a drier colour becomes that colour's terrain with "A {terrain} region identified by terrain features"; an unsampled cell gets "A {colour terrain} area" |
| ImageConverter.AnalyseRow | map_image_converter.py:317-374 | the first pass over a row stores every cell's entry and keeps the rest |
| ImageConverter.AnalyseCells | map_image_converter.py:316-379 | the first pass stores the entry of every cell, and only those |
| ImageConverter.RecordRow | map_image_converter.py:386-411 | the second pass over a row looks each cell up in order |
| ImageConverter.LookedUpLine | map_image_converter.py:395-411 | looking up stored entries gives the converted cells |
| ImageConverter.RecordRows | map_image_converter.py:385-411 | the second pass gives the records of all rows |
| ImageConverter.ConvertImageToHexes | map_image_converter.py:298-411 | one record per cell, rows outermost, none for an empty grid |
| ImageConverter.ConvertedHexes | map_image_converter.py:385-411 | rows × columns records at the cells' cube coordinates, unexplored, invisible, catalogued, water only where the colour is water, all loadable |
| ImageConverter.FindNearestTerrain | map_image_converter.py:444-455 | the first entry of least Manhattan distance, or the plains default for no entries |
| ImageConverter.ImportedTiles | map_image_converter.py:616-639 | one tile per named coordinate, the last record winning, unexplored, visible only in revealed mode |
| ImageConverter.ImportTiles | map_image_converter.py:617-639 | the import loop builds those tiles |
| ImageConverter.ImportedTravel | map_image_converter.py:665-671 | days, hours, movement and a known pace are copied, every other field kept |
| ImageConverter.ImportTravel | map_image_converter.py:666-671 | the four assignments set those fields and leave the allowance |
| ImageConverter.RandomLandStart | map_image_converter.py:642-649 | some land tile when there is one, else (0, 0, 0) |
| ImageConverter.MapImportDialog.constructor | map_image_converter.py:497-501 | no map loaded and no start chosen |
| ImageConverter.MapImportDialog.ImportMap | map_image_converter.py:609-671 | nothing without a map; otherwise the imported tiles, a blind land start or the chosen start, its area revealed, nothing explored elsewhere, part of the travel record copied |

## Left out

- Drawing, fonts, windows, dialogs, the menu and event loops, and the
  pixel ↔ hex conversions (`hex_to_pixel`, `pixel_to_hex`): these are user
  interface and floating-point trigonometry.
- File and JSON I/O: only the dictionary shapes are modelled. The JSON
  reading of a vision reply is the parameter `readJson`.
- The Ollama and LLaVA HTTP clients and their cache: descriptions come from
  `generate`, and section analyses from `analyse` or a reply parameter.
- Image loading, resizing, contrast, base64 and the numpy averages: the
  average colours are the parameter `colours`. Grayscale images and
  infinite or NaN averages are not modelled.
- Threads, `join(timeout=1)` and `time.sleep`: the worker is a sequential
  loop, and `cancelBefore` stands for when the cancel button was pressed.
  The converter's cancel check in its second pass is not modelled.
- The converter's `terrain_counts`, `sample_points`, progress bar and the two
  test analyses: they affect only messages.
- `get_elevation`, `get_moisture` and `get_temperature`: these are foreign
  Perlin noise, so the decision chain takes arbitrary reals.
- `sin`, `cos`, `sqrt` and `pow`: these are abstract fields of `Maths`.
- Floating-point rounding: every real is exact.
- Strings: `str.lower` acts on ASCII letters only, and `str.strip` removes
  only ASCII whitespace (including the separators `\x1c` to `\x1f`), not
  the non-ASCII whitespace Python also strips.
- The deprecated module that `import_map` imports `Hex` from is not part of
  this model. The tile is built as the core `Hex`. `get_neighbors` there is
  the map's neighbour list.
- `smooth_terrain_transitions` does nothing, and the `rivers` list is never
  filled; both are kept only as fields.
- `party_members` in the stable generator's travel record is read by
  nothing.
- The reseeded `random` stream is a function of the cell seed and the draw
  index, so two cells with the same `seed + x*1000 + y` share draws, as they
  do in the game.
- Renderer messages and printed output.
- The explorer's own `initialize_map` at start-up is not modelled. Loading a
  map clears whatever it made.
- Aliasing of tile objects: tiles are values in the map. A tile object held
  by a running worker after the map was cleared or reloaded is not modelled.
- Unknown terrain names: the game raises `KeyError`. `ExploreHex` and
  `NavigateToHex` fail with `UnknownTerrain`, and `TransportDecision` with
  `UnknownTerrainName`.
- MainMenu.HexCount: requires a non-zero tile size, because the game divides
  by it and raises `ZeroDivisionError` otherwise.
- StableMap.Fractal: requires a non-zero weight sum, again the game's
  `ZeroDivisionError`. Every call the generator makes meets it.
- ImageConverter.ImportTravel and ImageConverter.ImportedTravel: an unknown
  pace string is stored by the game, but the model keeps the old pace, since
  a pace is one of three values.
- Travel.TravelSystem.LoadFromData: a record with an unknown pace or
  transport has all twelve fields assigned, and the game then raises
  `KeyError` in `_update_movement_points`, at travel/system.py:191. The model
  changes nothing in that case.
- MainMenu.FindGoodStartingPosition: the sort is modelled as choosing the
  least candidate. Tuple order compares the terrain string only for equal
  positions, which a map never has twice.
- ImageConverter.MapImportDialog.ImportMap: the blind start is any land
  tile, standing for `random.choice`.
- The degenerate-size branch of the stable generator: an empty range gives
  no cells.
