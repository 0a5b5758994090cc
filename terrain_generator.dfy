/**
 * The biome tables of the advanced terrain generator: the seventeen terrain
 * types and their properties, the elevation/moisture/temperature decision
 * chain, the lake and river overrides (with the random draws as
 * parameters), and the downhill river walk. The noise fields that produce
 * elevation, moisture and temperature are not modelled: the decision chain
 * takes them as arbitrary reals.
 */
module TerrainGen {
  import opened Wrappers
  import opened Grids
  import opened HexGrid

  datatype TerrainType =
    | DeepOcean | Ocean | ShallowWater | Beach | Plains | Forest | Hills | Mountains | HighMountains
    | Desert | Savanna | Jungle | Swamp | Tundra | Ice | Lake | River

  /** The enum's string value, the name stored on a hex. */
  function TerrainValue(t: TerrainType): string
  {
    match t
    case DeepOcean => "deep_ocean"
    case Ocean => "ocean"
    case ShallowWater => "shallow_water"
    case Beach => "beach"
    case Plains => "plains"
    case Forest => "forest"
    case Hills => "hills"
    case Mountains => "mountains"
    case HighMountains => "high_mountains"
    case Desert => "desert"
    case Savanna => "savanna"
    case Jungle => "jungle"
    case Swamp => "swamp"
    case Tundra => "tundra"
    case Ice => "ice"
    case Lake => "lake"
    case River => "river"
  }

  /** The enum lookup by value, `TerrainType(name)`. */
  function ParseTerrainValue(name: string): (t: Option<TerrainType>)
  {
    if name == "deep_ocean" then Some(DeepOcean)
    else if name == "ocean" then Some(Ocean)
    else if name == "shallow_water" then Some(ShallowWater)
    else if name == "beach" then Some(Beach)
    else if name == "plains" then Some(Plains)
    else if name == "forest" then Some(Forest)
    else if name == "hills" then Some(Hills)
    else if name == "mountains" then Some(Mountains)
    else if name == "high_mountains" then Some(HighMountains)
    else if name == "desert" then Some(Desert)
    else if name == "savanna" then Some(Savanna)
    else if name == "jungle" then Some(Jungle)
    else if name == "swamp" then Some(Swamp)
    else if name == "tundra" then Some(Tundra)
    else if name == "ice" then Some(Ice)
    else if name == "lake" then Some(Lake)
    else if name == "river" then Some(River)
    else None
  }

  /** Every type's value looks up the type again, so distinct types have distinct names. */
  lemma TerrainValueRoundTrip(t: TerrainType)
    ensures ParseTerrainValue(TerrainValue(t)) == Some(t)
  {
  }

  /** A name that looks up a type is that type's value. */
  lemma ParseTerrainValueSound(name: string)
    ensures ParseTerrainValue(name).Some? ==> TerrainValue(ParseTerrainValue(name).value) == name
  {
  }

  datatype TerrainProperties = TerrainProperties(
    color: (int, int, int), movementCost: real, description: string,
    elevationRange: (real, real), moistureRange: (real, real), temperatureRange: (real, real))

  predicate WellFormedRange(lohi: (real, real)) { -1.0 <= lohi.0 < lohi.1 <= 1.0 }

  predicate ColorChannel(x: int) { 0 <= x <= 255 }

  /** `TERRAIN_PROPERTIES`: one entry per type, with RGB colours and ranges inside [-1, 1]. */
  function Properties(t: TerrainType): (p: TerrainProperties)
    ensures ColorChannel(p.color.0) && ColorChannel(p.color.1) && ColorChannel(p.color.2)
    ensures WellFormedRange(p.elevationRange) && WellFormedRange(p.moistureRange)
    ensures WellFormedRange(p.temperatureRange)
    ensures p.movementCost >= 1.0
    ensures p.movementCost == 999.0 <==> t in {DeepOcean, Ocean, HighMountains, Lake}
  {
    match t
    case DeepOcean => TerrainProperties((0, 43, 127), 999.0, "Deep ocean waters", (-1.0, -0.5), (0.8, 1.0), (-1.0, 1.0))
    case Ocean => TerrainProperties((0, 89, 179), 999.0, "Ocean waters", (-0.5, -0.2), (0.8, 1.0), (-1.0, 1.0))
    case ShallowWater => TerrainProperties((65, 105, 225), 4.0, "Shallow coastal waters", (-0.2, -0.05), (0.7, 1.0), (-1.0, 1.0))
    case Beach => TerrainProperties((238, 214, 175), 1.2, "Sandy beach", (-0.05, 0.05), (0.3, 0.6), (0.2, 1.0))
    case Plains => TerrainProperties((144, 238, 144), 1.0, "Open grasslands", (0.05, 0.3), (0.2, 0.5), (0.2, 0.8))
    case Forest => TerrainProperties((34, 139, 34), 1.5, "Dense woodland", (0.1, 0.5), (0.4, 0.8), (0.3, 0.7))
    case Hills => TerrainProperties((160, 82, 45), 1.5, "Rolling hills", (0.3, 0.6), (0.2, 0.6), (0.1, 0.8))
    case Mountains => TerrainProperties((139, 137, 137), 3.0, "Rocky peaks", (0.6, 0.85), (0.1, 0.5), (-0.2, 0.6))
    case HighMountains => TerrainProperties((255, 255, 255), 999.0, "Impassable peaks", (0.85, 1.0), (0.0, 0.3), (-1.0, 0.2))
    case Desert => TerrainProperties((238, 203, 173), 2.0, "Sandy dunes", (0.05, 0.4), (0.0, 0.2), (0.6, 1.0))
    case Savanna => TerrainProperties((196, 198, 93), 1.2, "Dry grasslands", (0.05, 0.3), (0.2, 0.4), (0.6, 0.9))
    case Jungle => TerrainProperties((0, 100, 0), 2.0, "Dense tropical forest", (0.05, 0.4), (0.7, 1.0), (0.7, 1.0))
    case Swamp => TerrainProperties((47, 79, 79), 3.0, "Murky wetlands", (0.0, 0.2), (0.6, 1.0), (0.4, 0.8))
    case Tundra => TerrainProperties((176, 224, 230), 2.0, "Frozen wasteland", (0.05, 0.4), (0.2, 0.5), (-0.8, 0.0))
    case Ice => TerrainProperties((240, 255, 255), 2.5, "Permanent ice", (0.0, 1.0), (0.3, 0.7), (-1.0, -0.6))
    case Lake => TerrainProperties((100, 149, 237), 999.0, "Freshwater lake", (0.1, 0.6), (0.8, 1.0), (-0.5, 0.9))
    case River => TerrainProperties((70, 130, 180), 2.0, "Flowing river", (0.0, 0.8), (0.7, 1.0), (-0.5, 0.9))
  }

  predicate IsSea(t: TerrainType) { t == DeepOcean || t == Ocean || t == ShallowWater }

  predicate IsPeak(t: TerrainType) { t == Mountains || t == HighMountains }

  /** `determine_terrain`: the first-match decision chain over elevation, then temperature and moisture. */
  function DetermineTerrain(elevation: real, moisture: real, temperature: real): (t: TerrainType)
    // the three sea bands and the coast
    ensures elevation < -0.5 ==> t == DeepOcean
    ensures -0.5 <= elevation < -0.2 ==> t == Ocean
    ensures -0.2 <= elevation < -0.05 ==> t == ShallowWater
    ensures -0.05 <= elevation < 0.05 ==>
      t == (if temperature < -0.5 then Tundra else if moisture > 0.7 then Swamp else Beach)
    // the peaks
    ensures elevation > 0.85 ==> t == HighMountains
    ensures 0.6 < elevation <= 0.85 ==> t == (if temperature < -0.3 then HighMountains else Mountains)
    // what each elevation band can and cannot produce
    ensures IsSea(t) <==> elevation < -0.05
    ensures IsPeak(t) <==> elevation > 0.6
    ensures t == Beach ==> -0.05 <= elevation < 0.05
    ensures t == Ice ==> 0.05 <= elevation <= 0.3 && temperature < -0.7
    ensures t == Desert ==> elevation >= 0.05 && moisture < 0.3
    ensures t != Lake && t != River
  {
    if elevation < -0.5 then DeepOcean
    else if elevation < -0.2 then Ocean
    else if elevation < -0.05 then ShallowWater
    else if elevation < 0.05 then
      (if temperature < -0.5 then Tundra else if moisture > 0.7 then Swamp else Beach)
    else if elevation > 0.85 then HighMountains
    else if elevation > 0.6 then
      (if temperature < -0.3 then HighMountains else Mountains)
    else if elevation > 0.3 then
      (if temperature < -0.5 then Tundra
       else if temperature < 0.0 then (if moisture > 0.5 then Forest else Hills)
       else if moisture < 0.3 then Desert
       else if moisture > 0.6 then Forest
       else Hills)
    else if temperature < -0.7 then Ice
    else if temperature < -0.3 then Tundra
    else if temperature < 0.3 then
      (if moisture < 0.2 then Plains
       else if moisture < 0.5 then Plains
       else if moisture < 0.8 then Forest
       else Swamp)
    else if moisture < 0.2 then Desert
    else if moisture < 0.4 then Savanna
    else if moisture < 0.7 then Savanna
    else if moisture < 0.9 then Jungle
    else Swamp
  }

  /** The lake override's condition, with the draw that is consulted only when the climate allows a lake. */
  predicate LakeApplies(elevation: real, moisture: real, lakeRoll: real)
  {
    0.1 < elevation < 0.4 && moisture > 0.8 && lakeRoll < 0.1
  }

  predicate RiverApplies(elevation: real, moisture: real, riverRoll: real)
  {
    0.05 < elevation < 0.6 && moisture > 0.6 && riverRoll < 0.05
  }

  /** The terrain `generate_terrain` settles on: the decision chain, then the lake override, then the river override. */
  function Overridden(elevation: real, moisture: real, temperature: real, lakeRoll: real, riverRoll: real): (t: TerrainType)
    ensures t == River <==> RiverApplies(elevation, moisture, riverRoll)
    ensures t == Lake <==> LakeApplies(elevation, moisture, lakeRoll) && !RiverApplies(elevation, moisture, riverRoll)
    ensures t != Lake && t != River ==> t == DetermineTerrain(elevation, moisture, temperature)
  {
    var base := DetermineTerrain(elevation, moisture, temperature);
    var afterLake := if LakeApplies(elevation, moisture, lakeRoll) then Lake else base;
    if RiverApplies(elevation, moisture, riverRoll) then River else afterLake
  }

  /** The legacy record `generate_terrain` returns beside the name. */
  datatype TerrainData = TerrainData(terrain: string, color: (int, int, int), movementCost: real,
                                     description: string, elevation: real, moisture: real, temperature: real)

  /** The legacy record describes the chosen type with its catalogue properties. */
  function LegacyData(t: TerrainType, elevation: real, moisture: real, temperature: real): (d: TerrainData)
    ensures d.terrain == TerrainValue(t) && d.elevation == elevation && d.moisture == moisture
    ensures d.temperature == temperature
    ensures d.color == Properties(t).color && d.movementCost == Properties(t).movementCost
    ensures d.description == Properties(t).description
  {
    var p := Properties(t);
    TerrainData(TerrainValue(t), p.color, p.movementCost, p.description, elevation, moisture, temperature)
  }

  /** What a river walk can see of a map entry: the attributes may be missing. */
  datatype Cell = Cell(elevation: Option<real>, terrain: Option<string>)

  /** The terrains at which a river stops. */
  predicate IsWaterName(name: string)
  {
    name in ["ocean", "deep_ocean", "lake", "shallow_water"]
  }

  predicate StopsRiver(cells: map<Coord, Cell>, c: Coord)
  {
    c in cells && cells[c].terrain.Some? && IsWaterName(cells[c].terrain.value)
  }

  predicate HasElevation(cells: map<Coord, Cell>, c: Coord)
  {
    c in cells && cells[c].elevation.Some?
  }

  function ElevationAt(cells: map<Coord, Cell>, c: Coord): real
    requires HasElevation(cells, c)
  {
    cells[c].elevation.value
  }

  /**
   * The index of the lowest neighbour, scanning `ns` in order with a strict
   * comparison, so the first one wins a tie; `None` when no neighbour has an
   * elevation.
   */
  function LowestIndex(cells: map<Coord, Cell>, ns: seq<Coord>): (k: Option<nat>)
    ensures k.Some? ==> k.value < |ns| && HasElevation(cells, ns[k.value])
    decreases |ns|
  {
    if |ns| == 0 then None
    else
      var prev := LowestIndex(cells, ns[..|ns| - 1]);
      var n := ns[|ns| - 1];
      if HasElevation(cells, n) && (prev.None? || ElevationAt(cells, n) < ElevationAt(cells, ns[prev.value]))
      then Some(|ns| - 1)
      else prev
  }

  /** The scan finds a minimum, the first of its value, and misses only when no neighbour has an elevation. */
  lemma {:induction false} LowestIndexIsFirstMinimum(cells: map<Coord, Cell>, ns: seq<Coord>)
    ensures LowestIndex(cells, ns).None? <==> forall i :: 0 <= i < |ns| ==> !HasElevation(cells, ns[i])
    ensures LowestIndex(cells, ns).Some? ==>
      var k := LowestIndex(cells, ns).value;
      (forall i :: 0 <= i < |ns| && HasElevation(cells, ns[i]) ==> ElevationAt(cells, ns[k]) <= ElevationAt(cells, ns[i]))
      && (forall i :: 0 <= i < k && HasElevation(cells, ns[i]) ==> ElevationAt(cells, ns[k]) < ElevationAt(cells, ns[i]))
    decreases |ns|
  {
    if |ns| > 0 {
      var prefix := ns[..|ns| - 1];
      LowestIndexIsFirstMinimum(cells, prefix);
      assert forall i :: 0 <= i < |prefix| ==> prefix[i] == ns[i];
    }
  }

  /** The lowest neighbour itself. */
  function Lowest(cells: map<Coord, Cell>, ns: seq<Coord>): (low: Option<Coord>)
    ensures low.Some? ==> low.value in ns && HasElevation(cells, low.value)
  {
    var k := LowestIndex(cells, ns);
    if k.None? then None else Some(ns[k.value])
  }

  /** `get_neighbors`: the same six directions, in the same order, as the map's neighbour list. */
  function GetNeighbors(q: int, r: int, s: int): (ns: seq<Coord>)
    ensures ns == Neighbors(Coord(q, r, s))
  {
    [Coord(q + 1, r, s - 1), Coord(q + 1, r - 1, s), Coord(q, r - 1, s + 1),
     Coord(q - 1, r, s + 1), Coord(q - 1, r + 1, s), Coord(q, r + 1, s - 1)]
  }

  /** Where the walk goes next from the end of `path`: the lowest neighbour, unless it is already on the path. */
  function Advance(cells: map<Coord, Cell>, path: seq<Coord>): (next: Option<Coord>)
    requires |path| > 0
    ensures next.Some? ==> next.value !in path && Lowest(cells, Neighbors(path[|path| - 1])) == next
    ensures next.None? ==> var low := Lowest(cells, Neighbors(path[|path| - 1])); low.None? || low.value in path
  {
    var low := Lowest(cells, Neighbors(path[|path| - 1]));
    if low.Some? && low.value !in path then low else None
  }

  /**
   * The river walk: from the last coordinate of `path`, step to the lowest
   * neighbour unless there is none or it is already on the path, and stop
   * after a step onto water or when `steps` runs out.
   */
  function RiverWalk(cells: map<Coord, Cell>, path: seq<Coord>, steps: nat): (walk: seq<Coord>)
    requires |path| > 0
    ensures |path| <= |walk| <= |path| + steps
    decreases steps
  {
    if steps == 0 then path
    else
      var next := Advance(cells, path);
      if next.None? then path
      else if StopsRiver(cells, next.value) then path + [next.value]
      else RiverWalk(cells, path + [next.value], steps - 1)
  }

  /** Each step of the walk from index `from` on goes to the lowest neighbour of the previous coordinate. */
  ghost predicate Downhill(cells: map<Coord, Cell>, path: seq<Coord>, from: nat)
  {
    forall i :: from <= i && i + 1 < |path| ==>
      Lowest(cells, Neighbors(path[i])) == Some(path[i + 1])
  }

  /** The walk only extends the path. */
  lemma {:induction false} RiverWalkExtends(cells: map<Coord, Cell>, path: seq<Coord>, steps: nat)
    requires |path| > 0
    ensures RiverWalk(cells, path, steps)[..|path|] == path
    decreases steps
  {
    if steps > 0 {
      var next := Advance(cells, path);
      if next.Some? && !StopsRiver(cells, next.value) {
        var longer := path + [next.value];
        RiverWalkExtends(cells, longer, steps - 1);
        assert RiverWalk(cells, longer, steps - 1)[..|path|] == longer[..|path|];
      }
    }
  }

  /** The walk never revisits a coordinate. */
  lemma {:induction false} RiverWalkDistinct(cells: map<Coord, Cell>, path: seq<Coord>, steps: nat)
    requires |path| > 0 && Distinct(path)
    ensures Distinct(RiverWalk(cells, path, steps))
    decreases steps
  {
    if steps > 0 {
      var next := Advance(cells, path);
      if next.Some? {
        var longer := path + [next.value];
        assert Distinct(longer);
        if !StopsRiver(cells, next.value) {
          RiverWalkDistinct(cells, longer, steps - 1);
        }
      }
    }
  }

  /** Every step the walk adds goes to the lowest neighbour of the coordinate before it. */
  lemma {:induction false} RiverWalkDownhill(cells: map<Coord, Cell>, path: seq<Coord>, steps: nat)
    requires |path| > 0
    ensures Downhill(cells, RiverWalk(cells, path, steps), |path| - 1)
    decreases steps
  {
    if steps > 0 {
      var next := Advance(cells, path);
      if next.Some? && !StopsRiver(cells, next.value) {
        var longer := path + [next.value];
        RiverWalkDownhill(cells, longer, steps - 1);
        RiverWalkExtends(cells, longer, steps - 1);
        var w := RiverWalk(cells, longer, steps - 1);
        assert w[|path| - 1] == longer[|path| - 1] && w[|path|] == longer[|path|];
      }
    }
  }

  /** A walk shorter than its budget stopped on water or had nowhere new to go. */
  lemma {:induction false} RiverWalkStops(cells: map<Coord, Cell>, path: seq<Coord>, steps: nat)
    requires |path| > 0
    ensures var w := RiverWalk(cells, path, steps);
      |w| < |path| + steps ==>
        (|w| > |path| && StopsRiver(cells, w[|w| - 1])) || Advance(cells, w).None?
    decreases steps
  {
    if steps > 0 {
      var next := Advance(cells, path);
      if next.None? {
        assert RiverWalk(cells, path, steps) == path;
      } else if StopsRiver(cells, next.value) {
        var w := path + [next.value];
        assert RiverWalk(cells, path, steps) == w;
        assert w[|w| - 1] == next.value;
      } else {
        var longer := path + [next.value];
        RiverWalkStops(cells, longer, steps - 1);
        assert RiverWalk(cells, path, steps) == RiverWalk(cells, longer, steps - 1);
      }
    }
  }

  /**
   * The generator's state that `generate_terrain` and `generate_river`
   * touch: the seeds and parameters it was created with and the list of
   * lake coordinates.
   */
  class TerrainGenerator {
    const seed: int
    const elevationSeed: int
    const moistureSeed: int
    const temperatureSeed: int
    const detailSeed: int
    const scale: real
    const octaves: nat
    const persistence: real
    const lacunarity: real
    var lakes: seq<Coord>
    var rivers: seq<seq<Coord>>

    /**
     * A missing or zero seed is replaced by `fallback`, the draw from
     * [0, 1000000]; the layers use the seed offset by 0, 1000, 2000 and 3000.
     */
    constructor(seedArg: Option<int>, fallback: nat)
      requires fallback <= 1000000
      ensures seed == (if seedArg.Some? && seedArg.value != 0 then seedArg.value else fallback)
      ensures elevationSeed == seed && moistureSeed == seed + 1000
      ensures temperatureSeed == seed + 2000 && detailSeed == seed + 3000
      ensures scale == 0.015 && octaves == 6 && persistence == 0.5 && lacunarity == 2.0
      ensures lakes == [] && rivers == []
    {
      var chosen := if seedArg.Some? && seedArg.value != 0 then seedArg.value else fallback;
      seed := chosen;
      elevationSeed := chosen;
      moistureSeed := chosen + 1000;
      temperatureSeed := chosen + 2000;
      detailSeed := chosen + 3000;
      scale := 0.015;
      octaves := 6;
      persistence := 0.5;
      lacunarity := 2.0;
      lakes := [];
      rivers := [];
    }

    /**
     * The tail of `generate_terrain` once the three fields are known: the
     * decision chain, the lake override (which records the coordinate) and
     * the river override, which wins but leaves the lake recorded.
     */
    method GenerateTerrain(q: int, r: int, s: int, elevation: real, moisture: real, temperature: real,
                           lakeRoll: real, riverRoll: real)
      returns (name: string, data: TerrainData)
      modifies this
      ensures name == TerrainValue(Overridden(elevation, moisture, temperature, lakeRoll, riverRoll))
      ensures data == LegacyData(Overridden(elevation, moisture, temperature, lakeRoll, riverRoll), elevation, moisture, temperature)
      ensures lakes == old(lakes) + (if LakeApplies(elevation, moisture, lakeRoll) then [Coord(q, r, s)] else [])
      ensures rivers == old(rivers)
    {
      var terrainType := DetermineTerrain(elevation, moisture, temperature);
      if 0.1 < elevation < 0.4 && moisture > 0.8 && lakeRoll < 0.1 {
        terrainType := Lake;
        lakes := lakes + [Coord(q, r, s)];
      }
      if 0.05 < elevation < 0.6 && moisture > 0.6 && riverRoll < 0.05 {
        terrainType := River;
      }
      var props := Properties(terrainType);
      name := TerrainValue(terrainType);
      data := TerrainData(name, props.color, props.movementCost, props.description, elevation, moisture, temperature);
    }

    /** The scan for the lowest neighbour, with `None` standing for the infinite starting elevation. */
    method FindLowest(cells: map<Coord, Cell>, neighbors: seq<Coord>) returns (lowest: Option<Coord>)
      ensures lowest == Lowest(cells, neighbors)
    {
      var k: Option<nat> := None;
      var lowestElevation: Option<real> := None;
      lowest := None;
      var i := 0;
      while i < |neighbors|
        invariant 0 <= i <= |neighbors|
        invariant k == LowestIndex(cells, neighbors[..i])
        invariant k.None? ==> lowest.None? && lowestElevation.None?
        invariant k.Some? ==> k.value < i && lowest == Some(neighbors[k.value])
                              && lowestElevation == Some(ElevationAt(cells, neighbors[k.value]))
      {
        assert neighbors[..i + 1][..i] == neighbors[..i];
        var neighbor := neighbors[i];
        if neighbor in cells && cells[neighbor].elevation.Some? {
          var e := cells[neighbor].elevation.value;
          if lowestElevation.None? || e < lowestElevation.value {
            lowestElevation := Some(e);
            lowest := Some(neighbor);
            k := Some(i);
          }
        }
        i := i + 1;
      }
      assert neighbors[..i] == neighbors;
    }

    /** One pass of the walk's loop: extend the path, and say whether the walk ends here. */
    method RiverStep(cells: map<Coord, Cell>, path: seq<Coord>, ghost steps: nat) returns (next: seq<Coord>, stop: bool)
      requires |path| > 0
      ensures |next| > 0
      ensures stop ==> next == RiverWalk(cells, path, steps + 1)
      ensures !stop ==> RiverWalk(cells, path, steps + 1) == RiverWalk(cells, next, steps)
    {
      var current := path[|path| - 1];
      var neighbors := GetNeighbors(current.q, current.r, current.s);
      var lowest := FindLowest(cells, neighbors);
      if lowest.Some? && lowest.value !in path {
        next := path + [lowest.value];
        var c := lowest.value;
        stop := c in cells && cells[c].terrain.Some? && IsWaterName(cells[c].terrain.value);
      } else {
        next := path;
        stop := true;
      }
    }

    /** The loop of `generate_river` with its bound as a parameter: at most `maxLength` passes of `RiverStep`. */
    method WalkDownhill(cells: map<Coord, Cell>, start: seq<Coord>, maxLength: nat) returns (riverPath: seq<Coord>)
      requires |start| > 0
      ensures riverPath == RiverWalk(cells, start, maxLength)
    {
      riverPath := start;
      var remaining := maxLength;
      while remaining > 0
        invariant |riverPath| > 0
        invariant RiverWalk(cells, start, maxLength) == RiverWalk(cells, riverPath, remaining)
      {
        var stop;
        riverPath, stop := RiverStep(cells, riverPath, remaining - 1);
        if stop {
          return;
        }
        remaining := remaining - 1;
      }
    }

    /**
     * `generate_river`: at most fifty downhill steps from the start, never
     * revisiting a coordinate, stopping after the first step onto water.
     */
    method GenerateRiver(startQ: int, startR: int, startS: int, cells: map<Coord, Cell>) returns (riverPath: seq<Coord>)
      ensures riverPath == RiverWalk(cells, [Coord(startQ, startR, startS)], 50)
      ensures 1 <= |riverPath| <= 51 && riverPath[0] == Coord(startQ, startR, startS) && Distinct(riverPath)
      ensures Downhill(cells, riverPath, 0)
      ensures |riverPath| < 51 ==>
        (|riverPath| > 1 && StopsRiver(cells, riverPath[|riverPath| - 1])) || Advance(cells, riverPath).None?
    {
      var maxLength := 50;
      riverPath := WalkDownhill(cells, [Coord(startQ, startR, startS)], maxLength);
      RiverWalkExtends(cells, [Coord(startQ, startR, startS)], 50);
      RiverWalkDistinct(cells, [Coord(startQ, startR, startS)], 50);
      RiverWalkDownhill(cells, [Coord(startQ, startR, startS)], 50);
      RiverWalkStops(cells, [Coord(startQ, startR, startS)], 50);
    }
  }
}
