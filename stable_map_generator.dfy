/**
 * The stand-alone "stable" world generator: sine-wave pseudo-noise, its
 * fractal average, and the map built cell by cell over a width-by-height
 * rectangle of cube coordinates. The floating-point library functions are
 * the fields of a `Maths` value (only the bounds of sine and cosine are
 * assumed), and the random stream reseeded for each cell is a function of
 * the cell's seed and the draw's index in that stream.
 */
module StableMap {
  import opened Wrappers
  import opened Grids
  import opened HexGrid
  import opened Constants
  import opened Travel

  datatype Maths = Maths(sin: real -> real, cos: real -> real, sqrt: real -> real, pow: (real, real) -> real)

  ghost predicate SinCosBounded(m: Maths)
  {
    (forall x :: -1.0 <= m.sin(x) <= 1.0) && (forall x :: -1.0 <= m.cos(x) <= 1.0)
  }

  /** `simple_noise`: the mean of three waves, so it stays within [-1, 1]. */
  function SimpleNoise(m: Maths, x: real, y: real, scale: real): real
  {
    (m.sin(x * scale) + m.cos(y * scale) + m.sin((x + y) * scale * 0.5)) / 3.0
  }

  lemma SimpleNoiseWithin(m: Maths, x: real, y: real, scale: real)
    requires SinCosBounded(m)
    ensures -1.0 <= SimpleNoise(m, x, y, scale) <= 1.0
  {
    assert -1.0 <= m.sin(x * scale) <= 1.0;
    assert -1.0 <= m.cos(y * scale) <= 1.0;
    assert -1.0 <= m.sin((x + y) * scale * 0.5) <= 1.0;
  }

  /**
   * The weighted sum of `n` octaves, the first at weight `amplitude` and
   * frequency `frequency`, each next one at `persistence` times the weight
   * and twice the frequency.
   */
  function OctaveSum(m: Maths, x: real, y: real, persistence: real, amplitude: real, frequency: real, n: int): real
    decreases n
  {
    if n <= 0 then 0.0
    else SimpleNoise(m, x * frequency, y * frequency, 1.0) * amplitude
         + OctaveSum(m, x, y, persistence, amplitude * persistence, frequency * 2.0, n - 1)
  }

  /** The sum of the weights of those `n` octaves, the divisor of the average. */
  function WeightSum(persistence: real, amplitude: real, n: int): real
    decreases n
  {
    if n <= 0 then 0.0 else amplitude + WeightSum(persistence, amplitude * persistence, n - 1)
  }

  /** `fractal_noise` as a value: the weighted average of `octaves` octaves starting at weight 1 and frequency `scale`. */
  function Fractal(m: Maths, x: real, y: real, octaves: nat, persistence: real, scale: real): real
    requires WeightSum(persistence, 1.0, octaves) != 0.0
  {
    OctaveSum(m, x, y, persistence, 1.0, scale, octaves) / WeightSum(persistence, 1.0, octaves)
  }

  /** With non-negative weights the weight sum is at least the first weight. */
  lemma {:induction false} WeightSumAtLeast(persistence: real, amplitude: real, n: int)
    requires persistence >= 0.0 && amplitude >= 0.0
    ensures WeightSum(persistence, amplitude, n) >= (if n > 0 then amplitude else 0.0)
    decreases n
  {
    if n > 0 {
      ProductNonNegative(amplitude, persistence);
      WeightSumAtLeast(persistence, amplitude * persistence, n - 1);
    }
  }

  lemma ScaledWithin(n: real, a: real)
    requires -1.0 <= n <= 1.0 && a >= 0.0
    ensures -a <= n * a <= a
  {
    assert (1.0 - n) * a >= 0.0;
    assert (1.0 + n) * a >= 0.0;
  }

  /** One more octave within its weight keeps the sum within the total weight. */
  lemma SumWithin(noise: real, amplitude: real, rest: real, restWeight: real)
    requires -1.0 <= noise <= 1.0 && amplitude >= 0.0 && -restWeight <= rest <= restWeight
    ensures -(amplitude + restWeight) <= noise * amplitude + rest <= amplitude + restWeight
  {
    ScaledWithin(noise, amplitude);
  }

  lemma ProductNonNegative(a: real, b: real)
    requires a >= 0.0 && b >= 0.0
    ensures a * b >= 0.0
  {
  }

  /**
   * With non-negative weights the sum of octaves stays within the sum of
   * the weights, which is at least the first weight.
   */
  lemma {:induction false} OctaveSumWithin(m: Maths, x: real, y: real, persistence: real, amplitude: real, frequency: real, n: int)
    requires SinCosBounded(m) && persistence >= 0.0 && amplitude >= 0.0
    ensures -WeightSum(persistence, amplitude, n) <= OctaveSum(m, x, y, persistence, amplitude, frequency, n)
            <= WeightSum(persistence, amplitude, n)
    ensures n > 0 ==> WeightSum(persistence, amplitude, n) >= amplitude
    ensures WeightSum(persistence, amplitude, n) >= 0.0
    decreases n
  {
    if n > 0 {
      ProductNonNegative(amplitude, persistence);
      OctaveSumWithin(m, x, y, persistence, amplitude * persistence, frequency * 2.0, n - 1);
      var noise := SimpleNoise(m, x * frequency, y * frequency, 1.0);
      SimpleNoiseWithin(m, x * frequency, y * frequency, 1.0);
      var rest := OctaveSum(m, x, y, persistence, amplitude * persistence, frequency * 2.0, n - 1);
      var restWeight := WeightSum(persistence, amplitude * persistence, n - 1);
      assert OctaveSum(m, x, y, persistence, amplitude, frequency, n) == noise * amplitude + rest;
      assert WeightSum(persistence, amplitude, n) == amplitude + restWeight;
      SumWithin(noise, amplitude, rest, restWeight);
    }
  }

  lemma RatioWithin(v: real, total: real)
    requires total > 0.0 && -total <= v <= total
    ensures -1.0 <= v / total <= 1.0
  {
    var q := v / total;
    assert q * total == v;
  }

  /** Fractal noise is an average, so it lies in [-1, 1] when the waves do. */
  lemma FractalWithin(m: Maths, x: real, y: real, octaves: nat, persistence: real, scale: real)
    requires SinCosBounded(m) && persistence >= 0.0 && octaves > 0
    ensures WeightSum(persistence, 1.0, octaves) >= 1.0
    ensures WeightSum(persistence, 1.0, octaves) != 0.0 && -1.0 <= Fractal(m, x, y, octaves, persistence, scale) <= 1.0
  {
    OctaveSumWithin(m, x, y, persistence, 1.0, scale, octaves);
    RatioWithin(OctaveSum(m, x, y, persistence, 1.0, scale, octaves), WeightSum(persistence, 1.0, octaves));
  }

  // ----- the noise layers -----

  /** The arguments of one `fractal_noise` call: the offset added to both coordinates, the octave count, persistence and scale. */
  datatype NoiseLayer = NoiseLayer(offset: real, octaves: nat, persistence: real, scale: real)

  /** The twelve layers one cell consults, named after the quantity each one feeds. */
  datatype NoiseLayers = NoiseLayers(
    continent: NoiseLayer, regional: NoiseLayer, local: NoiseLayer, mountain: NoiseLayer,
    temperature: NoiseLayer, moisture: NoiseLayer, island: NoiseLayer, coastal: NoiseLayer,
    river: NoiseLayer, desertEdge: NoiseLayer, forestEdge: NoiseLayer, tundraEdge: NoiseLayer)

  /**
   * The layers the stable generator uses. Where a call passes no
   * persistence, the default 0.5 of `fractal_noise` applies.
   */
  const StableLayers := NoiseLayers(
    NoiseLayer(0.0, 3, 0.6, 0.005), NoiseLayer(0.0, 4, 0.5, 0.02), NoiseLayer(0.0, 6, 0.4, 0.08),
    NoiseLayer(9000.0, 2, 0.5, 0.03), NoiseLayer(1000.0, 3, 0.5, 0.03), NoiseLayer(2000.0, 4, 0.5, 0.04),
    NoiseLayer(3000.0, 2, 0.5, 0.1), NoiseLayer(4000.0, 3, 0.5, 0.06), NoiseLayer(5000.0, 2, 0.5, 0.05),
    NoiseLayer(6000.0, 2, 0.5, 0.07), NoiseLayer(7000.0, 2, 0.5, 0.07), NoiseLayer(8000.0, 2, 0.5, 0.07))

  /** The layer's weights do not sum to zero, so `fractal_noise` does not divide by zero. */
  predicate Averageable(l: NoiseLayer)
  {
    WeightSum(l.persistence, 1.0, l.octaves) != 0.0
  }

  predicate AllAverageable(t: NoiseLayers)
  {
    Averageable(t.continent) && Averageable(t.regional) && Averageable(t.local) && Averageable(t.mountain)
    && Averageable(t.temperature) && Averageable(t.moisture) && Averageable(t.island) && Averageable(t.coastal)
    && Averageable(t.river) && Averageable(t.desertEdge) && Averageable(t.forestEdge) && Averageable(t.tundraEdge)
  }

  /** A layer with at least one octave and a non-negative persistence is averageable. */
  lemma LayerAverageable(l: NoiseLayer)
    requires l.octaves > 0 && l.persistence >= 0.0
    ensures Averageable(l)
  {
    WeightSumAtLeast(l.persistence, 1.0, l.octaves);
  }

  lemma StableLayersAverageable()
    ensures AllAverageable(StableLayers)
  {
    var t := StableLayers;
    LayerAverageable(t.continent);
    LayerAverageable(t.regional);
    LayerAverageable(t.local);
    LayerAverageable(t.mountain);
    LayerAverageable(t.temperature);
    LayerAverageable(t.moisture);
    LayerAverageable(t.island);
    LayerAverageable(t.coastal);
    LayerAverageable(t.river);
    LayerAverageable(t.desertEdge);
    LayerAverageable(t.forestEdge);
    LayerAverageable(t.tundraEdge);
  }

  /** The layer sampled at cell `(x, y)`. */
  function Noise(m: Maths, l: NoiseLayer, x: int, y: int): real
    requires Averageable(l)
  {
    Fractal(m, x as real + l.offset, y as real + l.offset, l.octaves, l.persistence, l.scale)
  }

  /** A layer with non-negative persistence samples to a value in [-1, 1]. */
  lemma NoiseWithin(m: Maths, l: NoiseLayer, x: int, y: int)
    requires SinCosBounded(m) && l.octaves > 0 && l.persistence >= 0.0
    ensures Averageable(l) && -1.0 <= Noise(m, l, x, y) <= 1.0
  {
    FractalWithin(m, x as real + l.offset, y as real + l.offset, l.octaves, l.persistence, l.scale);
  }

  // ----- one cell -----

  /** The seed each cell reseeds the random stream with. */
  function CellSeed(seed: int, x: int, y: int): int { seed + x * 1000 + y }

  /** The three noise layers of the elevation, raised by 0.4 where the mountain noise exceeds 0.4. */
  function Relief(m: Maths, t: NoiseLayers, x: int, y: int): real
    requires AllAverageable(t)
  {
    var layered := Noise(m, t.continent, x, y) * 0.6 + Noise(m, t.regional, x, y) * 0.3 + Noise(m, t.local, x, y) * 0.1;
    if Noise(m, t.mountain, x, y) > 0.4 then layered + 0.4 else layered
  }

  /** With the waves in [-1, 1] and damped layers, the relief lies in [-1, 1.4]: weights 0.6, 0.3 and 0.1 plus the boost. */
  lemma ReliefWithin(m: Maths, t: NoiseLayers, x: int, y: int)
    requires SinCosBounded(m) && AllAverageable(t)
    requires t.continent.octaves > 0 && t.continent.persistence >= 0.0
    requires t.regional.octaves > 0 && t.regional.persistence >= 0.0
    requires t.local.octaves > 0 && t.local.persistence >= 0.0
    ensures -1.0 <= Relief(m, t, x, y) <= 1.4
  {
    NoiseWithin(m, t.continent, x, y);
    NoiseWithin(m, t.regional, x, y);
    NoiseWithin(m, t.local, x, y);
  }

  /** 0.45 of the shorter side: the distance at which the falloff reaches its floor. */
  function MaxDistance(width: int, height: int): (d: real)
    requires width > 0 && height > 0
    ensures d > 0.0
  {
    (if width < height then width else height) as real * 0.45
  }

  /** The distance falloff: one minus (distance / maxDist) to the power 1.2, at least 0.1. */
  function Falloff(m: Maths, distance: real, maxDist: real): (f: real)
    requires maxDist > 0.0
    ensures f >= 0.1
  {
    var falloff := 1.0 - m.pow(distance / maxDist, 1.2);
    if 0.1 < falloff then falloff else 0.1
  }

  /** The elevation of a cell: relief plus a jitter from the cell's first draw, scaled by the falloff at its distance from the centre. */
  function Elevation(m: Maths, t: NoiseLayers, draw: (int, nat) -> real, seed: int, x: int, y: int, width: int, height: int): real
    requires AllAverageable(t) && width > 0 && height > 0
  {
    (Relief(m, t, x, y) + (draw(CellSeed(seed, x, y), 0) - 0.5) * 0.1)
      * Falloff(m, m.sqrt((x * x + y * y) as real), MaxDistance(width, height))
  }

  /** One minus the latitude `|y| / (height / 2)`, plus the temperature noise at weight 0.3. */
  function Temperature(m: Maths, t: NoiseLayers, x: int, y: int, height: int): real
    requires AllAverageable(t) && height > 0
  {
    1.0 - Abs(y) as real / (height as real * 0.5) + Noise(m, t.temperature, x, y) * 0.3
  }

  /** 0.5 plus half the moisture noise. */
  function Moisture(m: Maths, t: NoiseLayers, x: int, y: int): real
    requires AllAverageable(t)
  {
    0.5 + Noise(m, t.moisture, x, y) * 0.5
  }

  /** The first-match threshold cascade over elevation, then temperature and moisture. */
  function Cascade(elevation: real, temperature: real, moisture: real): (t: Terrain)
    ensures elevation < 0.0 ==> t == Water
    ensures elevation >= 0.5 ==> t == (if temperature < 0.5 then Tundra else Mountains)
    ensures t == Mountains ==> elevation >= 0.5 && temperature >= 0.5
    ensures t == Hills ==> 0.35 <= elevation < 0.5
    ensures t == Water ==> elevation < 0.1
    ensures t == Swamp ==> elevation < 0.2
    ensures t == Desert ==> 0.1 <= elevation < 0.35 && temperature > 0.7
  {
    if elevation < 0.0 then Water
    else if elevation < 0.1 then
      (if temperature > 0.5 && moisture > 0.5 then Swamp else Water)
    else if elevation < 0.2 then
      (if moisture > 0.6 then Swamp
       else if temperature > 0.8 && moisture < 0.4 then Desert
       else if temperature < 0.3 then Tundra
       else Plains)
    else if elevation < 0.35 then
      (if temperature < 0.3 then Tundra
       else if temperature > 0.7 && moisture < 0.5 then Desert
       else if moisture > 0.3 && temperature > 0.4 then Forest
       else Plains)
    else if elevation < 0.5 then
      (if temperature < 0.4 then Tundra
       else if moisture > 0.4 && temperature > 0.5 then Forest
       else Hills)
    else if temperature < 0.5 then Tundra
    else Mountains
  }

  /** Islands raised out of shallow water, and bays and headlands cut into the coast. */
  function Coastline(m: Maths, t: NoiseLayers, terrain: Terrain, elevation: real, temperature: real, x: int, y: int): (r: Terrain)
    requires AllAverageable(t)
    ensures terrain == Water ==> r in {Water, Plains, Tundra}
    ensures terrain != Water ==> r in {terrain, Water, Plains}
    ensures terrain != Water && elevation >= 0.2 ==> r == terrain
  {
    if terrain == Water then
      if Noise(m, t.island, x, y) > 0.4 && elevation > -0.3 then (if temperature > 0.5 then Plains else Tundra)
      else terrain
    else
      var coastal := Noise(m, t.coastal, x, y);
      if elevation < 0.1 && coastal < -0.3 then Water
      else if elevation < 0.2 && coastal > 0.4 then Plains
      else terrain
  }

  /** A river turns dry land above 0.1 into water, using the cell's second draw. */
  function RiverCut(m: Maths, t: NoiseLayers, draw: (int, nat) -> real, seed: int, terrain: Terrain, elevation: real, x: int, y: int): (r: Terrain)
    requires AllAverageable(t)
    ensures r == terrain || r == Water
    ensures terrain == Water || elevation <= 0.1 ==> r == terrain
  {
    if terrain != Water && elevation > 0.1 then
      var river := Noise(m, t.river, x, y);
      if (if river < 0.0 then -river else river) < 0.1 && draw(CellSeed(seed, x, y), 1) < (0.6 - elevation) * 0.1 then Water
      else terrain
    else terrain
  }

  /** Desert, forest and tundra edges softened to plains. */
  function Transition(m: Maths, t: NoiseLayers, terrain: Terrain, elevation: real, temperature: real, x: int, y: int): (r: Terrain)
    requires AllAverageable(t)
    ensures r == terrain || r == Plains
    ensures r != terrain ==> (terrain == Desert && elevation > 0.2) || (terrain == Forest && temperature < 0.4)
                             || (terrain == Tundra && temperature > 0.3)
  {
    if terrain == Desert && elevation > 0.2 then
      (if Noise(m, t.desertEdge, x, y) > 0.2 then Plains else terrain)
    else if terrain == Forest && temperature < 0.4 then
      (if Noise(m, t.forestEdge, x, y) > 0.3 then Plains else terrain)
    else if terrain == Tundra && temperature > 0.3 then
      (if Noise(m, t.tundraEdge, x, y) > 0.2 then Plains else terrain)
    else terrain
  }

  /** The terrain of the cell at column `x`, row `y`. */
  function CellTerrain(m: Maths, t: NoiseLayers, draw: (int, nat) -> real, seed: int, x: int, y: int, width: int, height: int): Terrain
    requires AllAverageable(t) && width > 0 && height > 0
  {
    var elevation := Elevation(m, t, draw, seed, x, y, width, height);
    var temperature := Temperature(m, t, x, y, height);
    var terrain := Cascade(elevation, temperature, Moisture(m, t, x, y));
    var coast := Coastline(m, t, terrain, elevation, temperature, x, y);
    Transition(m, t, RiverCut(m, t, draw, seed, coast, elevation, x, y), elevation, temperature, x, y)
  }

  /** A cell below sea level ends as water, or as plains or tundra where an island rises. */
  lemma DeepCellsAreWaterOrIsland(m: Maths, t: NoiseLayers, draw: (int, nat) -> real, seed: int, x: int, y: int, width: int, height: int)
    requires AllAverageable(t) && width > 0 && height > 0
    requires Elevation(m, t, draw, seed, x, y, width, height) < 0.0
    ensures CellTerrain(m, t, draw, seed, x, y, width, height) in {Water, Plains, Tundra}
  {
  }

  /** The record written for a cell: unexplored, invisible, and carrying `generating: False`. */
  function CellRecord(m: Maths, t: NoiseLayers, draw: (int, nat) -> real, seed: int, c: Coord, width: int, height: int): (d: HexRecord)
    requires AllAverageable(t) && width > 0 && height > 0
    ensures Coord(d.q, d.r, d.s) == c && IsTerrain(d.terrain) && d.description == "Generated terrain"
    ensures !d.explored && !d.visible && d.generating == Some(false) && d.distanceFromCurrent.None?
  {
    HexRecord(c.q, c.r, c.s, TerrainKey(CellTerrain(m, t, draw, seed, c.q, c.r, width, height)), "Generated terrain",
              false, false, Some(false), None)
  }

  /** The record function of one map: fixed maths, layers, random stream, seed and size. */
  function RecordOf(m: Maths, t: NoiseLayers, draw: (int, nat) -> real, seed: int, width: int, height: int): Coord -> HexRecord
    requires AllAverageable(t) && width > 0 && height > 0
  {
    c => CellRecord(m, t, draw, seed, c, width, height)
  }

  // ----- the rectangle -----

  /** Column `x` of row `y` as cube coordinates. */
  function CubeAt(y: int, x: int): Coord { Coord(x, y, -x - y) }

  lemma CubeAtInjective()
    ensures Injective(CubeAt)
  {
  }

  /** The cells in generation order: rows `y` over `[-height//2, height//2)`, columns likewise. */
  function Cells(width: int, height: int): seq<Coord>
  {
    Grid((-height) / 2, height / 2, (-width) / 2, width / 2, CubeAt)
  }

  /** Floor division keeps exactly `n` integers in `[-n//2, n//2)`. */
  lemma HalfOpenWidth(n: int)
    requires n >= 0
    ensures n / 2 - (-n) / 2 == n
  {
    var k := n / 2;
    if n % 2 == 0 {
      assert -n == 2 * (-k);
    } else {
      assert -n == 2 * (-k - 1) + 1;
    }
  }

  /** Exactly width × height cells. */
  lemma CellsLength(width: int, height: int)
    requires width >= 0 && height >= 0
    ensures |Cells(width, height)| == width * height
  {
    var rows, columns := height / 2 - (-height) / 2, width / 2 - (-width) / 2;
    HalfOpenWidth(width);
    HalfOpenWidth(height);
    GridLength((-height) / 2, height / 2, (-width) / 2, width / 2, CubeAt);
    assert rows == height && columns == width;
    assert |Cells(width, height)| == rows * columns;
  }

  /** No cell is generated twice. */
  lemma CellsDistinct(width: int, height: int)
    ensures Distinct(Cells(width, height))
  {
    CubeAtInjective();
    GridDistinct((-height) / 2, height / 2, (-width) / 2, width / 2, CubeAt);
  }

  /** The cells are exactly the zero-sum coordinates whose column and row lie in their half-open ranges. */
  lemma CellsMembership(width: int, height: int, c: Coord)
    ensures c in Cells(width, height) <==>
      CoordSum(c) == 0 && (-width) / 2 <= c.q < width / 2 && (-height) / 2 <= c.r < height / 2
  {
    GridMembership((-height) / 2, height / 2, (-width) / 2, width / 2, CubeAt, c);
    if CoordSum(c) == 0 && (-width) / 2 <= c.q < width / 2 && (-height) / 2 <= c.r < height / 2 {
      assert c == CubeAt(c.r, c.q);
    }
  }

  /** A value inside `[-n//2, n//2)` exists only when `n` is positive. */
  lemma HalfOpenPositive(n: int, v: int)
    requires (-n) / 2 <= v < n / 2
    ensures n > 0
  {
  }

  /** What `generate_realistic_map` returns. */
  datatype StableMapData = StableMapData(seed: int, width: int, height: int, generator: string, version: string,
                                         currentPosition: Coord, hexes: seq<HexRecord>, travelData: TravelData)

  /**
   * The travel record every stable map carries, seen through the twelve keys
   * `load_from_data` reads. The record holds only `current_pace`,
   * `current_transport`, `movement_points`, `exhaustion_level` and
   * `party_members`, none of which is one of those keys, so every key is
   * missing and the record loads as a fresh party.
   */
  function StableTravelData(): (d: TravelData)
    ensures DecodeTravelData(d) == Some(DefaultFields())
  {
    TravelData(None, None, None, None, None, None, None, None, None, None, None, None)
  }

  class StableMapGenerator {
    const seed: int
    const layers: NoiseLayers

    /** A missing or zero seed is replaced by `fallback`, the draw from [0, 1000000]. */
    constructor(seedArg: Option<int>, fallback: nat)
      requires fallback <= 1000000
      ensures seed == (if seedArg.Some? && seedArg.value != 0 then seedArg.value else fallback)
      ensures layers == StableLayers && AllAverageable(layers)
    {
      seed := if seedArg.Some? && seedArg.value != 0 then seedArg.value else fallback;
      layers := StableLayers;
      StableLayersAverageable();
    }

    /** `fractal_noise`: the weighted average of `octaves` rounds of doubling frequency and shrinking amplitude. */
    static method FractalNoise(m: Maths, x: real, y: real, octaves: nat, persistence: real, scale: real) returns (n: real)
      requires WeightSum(persistence, 1.0, octaves) != 0.0
      ensures n == Fractal(m, x, y, octaves, persistence, scale)
    {
      var value, maxValue := SumOctaves(m, x, y, octaves, persistence, scale);
      n := value / maxValue;
    }

    /** The loop of `fractal_noise`: the running sum of the octaves and of their weights. */
    static method SumOctaves(m: Maths, x: real, y: real, octaves: nat, persistence: real, scale: real)
      returns (value: real, maxValue: real)
      ensures value == OctaveSum(m, x, y, persistence, 1.0, scale, octaves)
      ensures maxValue == WeightSum(persistence, 1.0, octaves)
    {
      value := 0.0;
      maxValue := 0.0;
      var amplitude := 1.0;
      var frequency := scale;
      for i := 0 to octaves
        invariant value + OctaveSum(m, x, y, persistence, amplitude, frequency, octaves - i)
                  == OctaveSum(m, x, y, persistence, 1.0, scale, octaves)
        invariant maxValue + WeightSum(persistence, amplitude, octaves - i) == WeightSum(persistence, 1.0, octaves)
      {
        value := value + SimpleNoise(m, x * frequency, y * frequency, 1.0) * amplitude;
        maxValue := maxValue + amplitude;
        amplitude := amplitude * persistence;
        frequency := frequency * 2.0;
      }
    }

    /** One `fractal_noise` call of the cell loop, made with the arguments of layer `l`. */
    static method Sample(m: Maths, l: NoiseLayer, x: int, y: int) returns (n: real)
      requires Averageable(l)
      ensures n == Noise(m, l, x, y)
    {
      n := FractalNoise(m, x as real + l.offset, y as real + l.offset, l.octaves, l.persistence, l.scale);
    }

    /** The elevation part of the cell loop: three noise layers and the mountain boost. */
    method CellRelief(m: Maths, x: int, y: int) returns (elevation: real)
      requires AllAverageable(layers)
      ensures elevation == Relief(m, layers, x, y)
    {
      var continent := Sample(m, layers.continent, x, y);
      var regional := Sample(m, layers.regional, x, y);
      var local := Sample(m, layers.local, x, y);
      elevation := continent * 0.6 + regional * 0.3 + local * 0.1;
      var mountain := Sample(m, layers.mountain, x, y);
      if mountain > 0.4 {
        elevation := elevation + 0.4;
      }
    }

    /** The relief with the jitter of the cell's first draw, scaled by the falloff. */
    method CellElevation(m: Maths, draw: (int, nat) -> real, x: int, y: int, width: int, height: int) returns (elevation: real)
      requires AllAverageable(layers) && width > 0 && height > 0
      ensures elevation == Elevation(m, layers, draw, seed, x, y, width, height)
    {
      elevation := CellRelief(m, x, y);
      elevation := elevation + (draw(CellSeed(seed, x, y), 0) - 0.5) * 0.1;
      var falloff := CellFalloff(m, x, y, width, height);
      elevation := elevation * falloff;
    }

    /** The falloff at the cell's distance from the centre, against 0.45 of the shorter side. */
    static method CellFalloff(m: Maths, x: int, y: int, width: int, height: int) returns (factor: real)
      requires width > 0 && height > 0
      ensures factor == Falloff(m, m.sqrt((x * x + y * y) as real), MaxDistance(width, height))
    {
      var maxDist := (if width < height then width else height) as real * 0.45;
      var falloff := 1.0 - m.pow(m.sqrt((x * x + y * y) as real) / maxDist, 1.2);
      factor := if 0.1 < falloff then falloff else 0.1;
    }

    /** The body of the cell loop: elevation, temperature and moisture, the cascade and its corrections, and the record. */
    method GenerateCell(m: Maths, draw: (int, nat) -> real, x: int, y: int, width: int, height: int) returns (d: HexRecord)
      requires AllAverageable(layers) && width > 0 && height > 0
      ensures d == CellRecord(m, layers, draw, seed, CubeAt(y, x), width, height)
    {
      var elevation := CellElevation(m, draw, x, y, width, height);
      var tempNoise := Sample(m, layers.temperature, x, y);
      var temperature := 1.0 - Abs(y) as real / (height as real * 0.5) + tempNoise * 0.3;
      var moistureNoise := Sample(m, layers.moisture, x, y);
      var moisture := 0.5 + moistureNoise * 0.5;
      var terrain := Cascade(elevation, temperature, moisture);
      terrain := Coastline(m, layers, terrain, elevation, temperature, x, y);
      terrain := RiverCut(m, layers, draw, seed, terrain, elevation, x, y);
      terrain := Transition(m, layers, terrain, elevation, temperature, x, y);
      d := HexRecord(x, y, -x - y, TerrainKey(terrain), "Generated terrain", false, false, Some(false), None);
    }

    /** One row of the cell loop: the records of columns `[x0, x1)` of row `y`. */
    method GenerateRow(m: Maths, draw: (int, nat) -> real, y: int, x0: int, x1: int, width: int, height: int)
      returns (row: seq<HexRecord>)
      requires AllAverageable(layers) && width > 0 && height > 0 && x0 <= x1
      ensures row == MapSeq(RecordOf(m, layers, draw, seed, width, height), Line(y, x0, x1, CubeAt))
    {
      row := [];
      var x := x0;
      while x < x1
        invariant x0 <= x <= x1
        invariant row == MapSeq(RecordOf(m, layers, draw, seed, width, height), Line(y, x0, x, CubeAt))
        decreases x1 - x
      {
        var d := GenerateCell(m, draw, x, y, width, height);
        assert Line(y, x0, x + 1, CubeAt) == Line(y, x0, x, CubeAt) + [CubeAt(y, x)];
        MapSeqAppend(RecordOf(m, layers, draw, seed, width, height), Line(y, x0, x, CubeAt), [CubeAt(y, x)]);
        row := row + [d];
        x := x + 1;
      }
    }

    /** The outer cell loop: rows `[y0, y1)`, each over columns `[x0, x1)`. */
    method GenerateRows(m: Maths, draw: (int, nat) -> real, y0: int, y1: int, x0: int, x1: int, width: int, height: int)
      returns (hexData: seq<HexRecord>)
      requires AllAverageable(layers) && width > 0 && height > 0 && y0 <= y1 && x0 <= x1
      ensures hexData == MapSeq(RecordOf(m, layers, draw, seed, width, height), Grid(y0, y1, x0, x1, CubeAt))
    {
      hexData := [];
      var y := y0;
      while y < y1
        invariant y0 <= y <= y1
        invariant hexData == MapSeq(RecordOf(m, layers, draw, seed, width, height), Grid(y0, y, x0, x1, CubeAt))
      {
        var row := GenerateRow(m, draw, y, x0, x1, width, height);
        MapSeqAppend(RecordOf(m, layers, draw, seed, width, height), Grid(y0, y, x0, x1, CubeAt), Line(y, x0, x1, CubeAt));
        hexData := hexData + row;
        y := y + 1;
      }
    }

    /**
     * `generate_realistic_map`: one record per cell, row by row, and the
     * map header with the fixed start position and travel record.
     */
    method GenerateRealisticMap(m: Maths, draw: (int, nat) -> real, width: int, height: int) returns (data: StableMapData)
      requires AllAverageable(layers)
      ensures data.seed == seed && data.width == width && data.height == height
      ensures data.generator == "stable" && data.version == "1.0" && data.currentPosition == Coord(0, 0, 0)
      ensures data.travelData == StableTravelData()
      ensures width > 0 && height > 0 ==> data.hexes == MapSeq(RecordOf(m, layers, draw, seed, width, height), Cells(width, height))
      ensures width <= 0 || height <= 0 ==> data.hexes == []
    {
      var hexData: seq<HexRecord> := [];
      if width > 0 && height > 0 {
        HalfOpenWidth(width);
        HalfOpenWidth(height);
        hexData := GenerateRows(m, draw, (-height) / 2, height / 2, (-width) / 2, width / 2, width, height);
      }
      data := StableMapData(seed, width, height, "stable", "1.0", Coord(0, 0, 0), hexData, StableTravelData());
    }
  }
}
