/**
 * The map-setup parts of the main menu: turning a resized image into tile
 * records by a colour cascade over odd-column offset coordinates, choosing
 * a land start near the centre, and starting a game from a map file.
 */
module MainMenu {
  import opened Wrappers
  import opened Grids
  import opened HexGrid
  import opened Constants
  import opened Travel
  import opened HexMapStore
  import opened Generation
  import opened Explorer
  import StableMap

  // ----- image conversion -----

  /** Python's `int()` on a float: truncation toward zero. */
  function Truncate(x: real): (i: int)
    ensures x >= 0.0 ==> i >= 0 && i as real <= x < i as real + 1.0
    ensures x < 0.0 ==> i <= 0 && i as real - 1.0 < x <= i as real
  {
    if x >= 0.0 then x.Floor else -((-x).Floor)
  }

  /** `max(1, int(miles / hex_size))`: how many tiles span a side of the map. */
  function HexCount(miles: real, hexSize: real): (n: int)
    requires hexSize != 0.0
    ensures n >= 1
    ensures miles / hexSize >= 1.0 ==> n as real <= miles / hexSize < n as real + 1.0
    ensures miles / hexSize < 2.0 ==> n == 1
  {
    var k := Truncate(miles / hexSize);
    if k < 1 then 1 else k
  }

  /** One pixel of the resized image. */
  datatype Pixel = Pixel(r: int, g: int, b: int)

  /** The colour bands of the menu's cascade, in the order it tests them. */
  predicate PixelBlue(p: Pixel) { p.b > p.r && p.b > p.g && p.b > 100 }
  predicate PixelGreen(p: Pixel) { p.g > p.r && p.g > 100 }
  predicate PixelSand(p: Pixel) { p.r > 150 && p.g > 100 && p.b < 100 }
  predicate PixelDark(p: Pixel) { p.r < 100 && p.g < 100 && p.b < 100 }
  predicate PixelPale(p: Pixel) { p.r > 200 && p.g > 200 && p.b > 200 }
  predicate PixelMarsh(p: Pixel) { p.g > 80 && p.b > 80 && p.r < 100 }

  /** The menu's colour cascade: the first matching colour band decides, plains when none does. */
  function PixelTerrain(p: Pixel): (t: Terrain)
    ensures t == Water <==> PixelBlue(p)
    ensures t == Forest <==> !PixelBlue(p) && PixelGreen(p) && p.g < 150
    ensures t == Desert <==> !PixelBlue(p) && !PixelGreen(p) && PixelSand(p) && p.r > 200
    ensures t == Hills <==> !PixelBlue(p) && !PixelGreen(p) && PixelSand(p) && p.r <= 200
    ensures t == Mountains <==> !PixelBlue(p) && !PixelGreen(p) && !PixelSand(p) && PixelDark(p)
    ensures t == Tundra <==> !PixelBlue(p) && !PixelGreen(p) && !PixelSand(p) && !PixelDark(p) && PixelPale(p)
    ensures t == Swamp <==>
      !PixelBlue(p) && !PixelGreen(p) && !PixelSand(p) && !PixelDark(p) && !PixelPale(p) && PixelMarsh(p)
    ensures t == Plains <==>
      (!PixelBlue(p) && PixelGreen(p) && p.g >= 150)
      || (!PixelBlue(p) && !PixelGreen(p) && !PixelSand(p) && !PixelDark(p) && !PixelPale(p) && !PixelMarsh(p))
    ensures t == Forest ==> p.g > p.r && 100 < p.g < 150
    ensures t == Desert ==> p.r > 200 && p.g > 100 && p.b < 100
    ensures t == Hills ==> 150 < p.r <= 200 && p.g > 100 && p.b < 100
    ensures t == Mountains ==> p.r < 100 && p.g < 100 && p.b < 100
    ensures t == Tundra ==> p.r > 200 && p.g > 200 && p.b > 200
    ensures t == Swamp ==> p.g > 80 && p.b > 80 && p.r < 100
    ensures p.g > p.r && p.g >= 150 && t != Water ==> t == Plains
  {
    if p.b > p.r && p.b > p.g && p.b > 100 then Water
    else if p.g > p.r && p.g > 100 then (if p.g < 150 then Forest else Plains)
    else if p.r > 150 && p.g > 100 && p.b < 100 then (if p.r > 200 then Desert else Hills)
    else if p.r < 100 && p.g < 100 && p.b < 100 then Mountains
    else if p.r > 200 && p.g > 200 && p.b > 200 then Tundra
    else if p.g > 80 && p.b > 80 && p.r < 100 then Swamp
    else Plains
  }

  /** Every catalogued terrain has a colour that produces it. */
  lemma EveryTerrainHasAColour(t: Terrain)
    ensures exists p: Pixel :: 0 <= p.r <= 255 && 0 <= p.g <= 255 && 0 <= p.b <= 255 && PixelTerrain(p) == t
  {
    var p := match t
      case Water => Pixel(0, 0, 200)
      case Forest => Pixel(0, 120, 0)
      case Plains => Pixel(0, 200, 0)
      case Desert => Pixel(230, 180, 50)
      case Hills => Pixel(180, 140, 50)
      case Mountains => Pixel(50, 50, 50)
      case Tundra => Pixel(250, 250, 250)
      case Swamp => Pixel(50, 90, 100);
    assert PixelTerrain(p) == t;
  }

  /** Odd columns sit half a row lower: column `col` of row `row` in cube coordinates. */
  function OffsetToCube(row: int, col: int): (c: Coord)
    ensures c.q == col && CoordSum(c) == 0
  {
    var q := col;
    var r := row - (col - col % 2) / 2;
    Coord(q, r, -q - r)
  }

  /** The (row, column) that a cube coordinate comes from. */
  function CubeToOffset(c: Coord): (int, int)
  {
    (c.r + (c.q - c.q % 2) / 2, c.q)
  }

  /** Converting to cube coordinates and back gives the cell back. */
  lemma OffsetRoundTrip(row: int, col: int)
    ensures CubeToOffset(OffsetToCube(row, col)) == (row, col)
  {
    var c := OffsetToCube(row, col);
    var half := (col - col % 2) / 2;
    assert c.q == col && c.r == row - half;
    assert CubeToOffset(c) == (c.r + half, col);
  }

  /** A zero-sum coordinate is the image of the cell it converts back to. */
  lemma CubeRoundTrip(c: Coord)
    requires CoordSum(c) == 0
    ensures OffsetToCube(CubeToOffset(c).0, CubeToOffset(c).1) == c
  {
  }

  /** No two cells share a cube coordinate. */
  lemma OffsetToCubeInjective()
    ensures Injective(OffsetToCube)
  {
    forall y1, x1, y2, x2 | OffsetToCube(y1, x1) == OffsetToCube(y2, x2)
      ensures y1 == y2 && x1 == x2
    {
      OffsetRoundTrip(y1, x1);
      OffsetRoundTrip(y2, x2);
    }
  }

  /** The record of the cell at `row`, `col`: its colour's terrain, unexplored and hidden. */
  function ImageRecord(pixels: (int, int) -> Pixel, row: int, col: int): (d: HexRecord)
  {
    var c := OffsetToCube(row, col);
    var terrain := TerrainKey(PixelTerrain(pixels(row, col)));
    HexRecord(c.q, c.r, c.s, terrain, "A " + terrain + " region", false, false, None, None)
  }

  function ImageCells(pixels: (int, int) -> Pixel): (int, int) -> HexRecord
  {
    (row, col) => ImageRecord(pixels, row, col)
  }

  /** One pass of the inner loop: the records of row `row`, left to right. */
  method ConvertRow(pixels: (int, int) -> Pixel, row: int, hexCols: int) returns (line: seq<HexRecord>)
    requires hexCols >= 0
    ensures line == Line(row, 0, hexCols, ImageCells(pixels))
  {
    var cells := ImageCells(pixels);
    line := [];
    var col := 0;
    while col < hexCols
      invariant 0 <= col <= hexCols
      invariant line == Line(row, 0, col, cells)
    {
      var p := pixels(row, col);
      var terrain := TerrainKey(PixelTerrain(p));
      var c := OffsetToCube(row, col);
      var record := HexRecord(c.q, c.r, c.s, terrain, "A " + terrain + " region", false, false, None, None);
      assert record == cells(row, col);
      line := line + [record];
      col := col + 1;
    }
  }

  /** The outer loop: the records of rows `0` to `hexRows - 1`, one row after another. */
  method ConvertRows(pixels: (int, int) -> Pixel, hexRows: int, hexCols: int) returns (hexes: seq<HexRecord>)
    requires hexRows >= 0 && hexCols >= 0
    ensures hexes == Grid(0, hexRows, 0, hexCols, ImageCells(pixels))
  {
    var cells := ImageCells(pixels);
    hexes := [];
    var row := 0;
    while row < hexRows
      invariant 0 <= row <= hexRows
      invariant hexes == Grid(0, row, 0, hexCols, cells)
    {
      var line := ConvertRow(pixels, row, hexCols);
      assert Grid(0, row + 1, 0, hexCols, cells) == hexes + line;
      hexes := hexes + line;
      row := row + 1;
    }
  }

  /**
   * `convert_image_to_hex_map` after the image is loaded and resized: one
   * record per cell, rows outermost, left to right.
   */
  method ConvertImageToHexMap(pixels: (int, int) -> Pixel, widthMiles: real, heightMiles: real, hexSize: real)
    returns (hexes: seq<HexRecord>)
    requires hexSize != 0.0
    ensures hexes == Grid(0, HexCount(heightMiles, hexSize), 0, HexCount(widthMiles, hexSize), ImageCells(pixels))
  {
    var hexCols := HexCount(widthMiles, hexSize);
    var hexRows := HexCount(heightMiles, hexSize);
    hexes := ConvertRows(pixels, hexRows, hexCols);
  }

  /** The coordinates of a row of records are the row of their cells' coordinates. */
  lemma {:induction false} LineKeys(pixels: (int, int) -> Pixel, y: int, x0: int, x1: int)
    ensures MapSeq(RecordKey, Line(y, x0, x1, ImageCells(pixels))) == Line(y, x0, x1, OffsetToCube)
    decreases x1 - x0
  {
    if x1 > x0 {
      var last := ImageRecord(pixels, y, x1 - 1);
      assert Line(y, x0, x1, ImageCells(pixels)) == Line(y, x0, x1 - 1, ImageCells(pixels)) + [last];
      assert Line(y, x0, x1, OffsetToCube) == Line(y, x0, x1 - 1, OffsetToCube) + [OffsetToCube(y, x1 - 1)];
      LineKeys(pixels, y, x0, x1 - 1);
      MapSeqAppend(RecordKey, Line(y, x0, x1 - 1, ImageCells(pixels)), [last]);
      assert RecordKey(last) == OffsetToCube(y, x1 - 1);
      assert MapSeq(RecordKey, [last]) == [OffsetToCube(y, x1 - 1)];
    }
  }

  lemma {:induction false} GridKeys(pixels: (int, int) -> Pixel, y0: int, y1: int, x0: int, x1: int)
    ensures MapSeq(RecordKey, Grid(y0, y1, x0, x1, ImageCells(pixels))) == Grid(y0, y1, x0, x1, OffsetToCube)
    decreases y1 - y0
  {
    if y1 > y0 {
      GridKeys(pixels, y0, y1 - 1, x0, x1);
      LineKeys(pixels, y1 - 1, x0, x1);
      MapSeqAppend(RecordKey, Grid(y0, y1 - 1, x0, x1, ImageCells(pixels)), Line(y1 - 1, x0, x1, ImageCells(pixels)));
    }
  }

  /**
   * What the conversion hands on: rows times columns records, each at its
   * own coordinate, all unexplored and hidden, each named after its terrain,
   * and every one loadable as a tile.
   */
  lemma ConvertedMap(pixels: (int, int) -> Pixel, rows: int, cols: int)
    requires rows >= 1 && cols >= 1
    ensures |Grid(0, rows, 0, cols, ImageCells(pixels))| == rows * cols
    ensures forall d :: d in Grid(0, rows, 0, cols, ImageCells(pixels)) ==>
      !d.explored && !d.visible && IsTerrain(d.terrain) && d.description == "A " + d.terrain + " region"
      && CoordSum(RecordKey(d)) == 0 && FromDict(d).Success?
    ensures Distinct(MapSeq(RecordKey, Grid(0, rows, 0, cols, ImageCells(pixels))))
    ensures LoadRecords(Grid(0, rows, 0, cols, ImageCells(pixels))).Some?
  {
    var hexes := Grid(0, rows, 0, cols, ImageCells(pixels));
    GridSize(rows, cols, ImageCells(pixels));
    ConvertedRecords(pixels, rows, cols);
    ConvertedKeys(pixels, rows, cols);
    forall i | 0 <= i < |hexes|
      ensures FromDict(hexes[i]).Success?
    {
      assert hexes[i] in hexes;
    }
  }

  /** Every converted record is an unexplored, hidden, catalogued tile. */
  lemma ConvertedRecords(pixels: (int, int) -> Pixel, rows: int, cols: int)
    ensures forall d :: d in Grid(0, rows, 0, cols, ImageCells(pixels)) ==>
      !d.explored && !d.visible && IsTerrain(d.terrain) && d.description == "A " + d.terrain + " region"
      && CoordSum(RecordKey(d)) == 0 && FromDict(d).Success?
  {
    forall d | d in Grid(0, rows, 0, cols, ImageCells(pixels))
      ensures !d.explored && !d.visible && IsTerrain(d.terrain) && d.description == "A " + d.terrain + " region"
              && CoordSum(RecordKey(d)) == 0 && FromDict(d).Success?
    {
      GridMembership(0, rows, 0, cols, ImageCells(pixels), d);
      var y, x :| 0 <= y < rows && 0 <= x < cols && d == ImageCells(pixels)(y, x);
      ParseTerrainKey(PixelTerrain(pixels(y, x)));
    }
  }

  /** No two converted records share a coordinate. */
  lemma ConvertedKeys(pixels: (int, int) -> Pixel, rows: int, cols: int)
    ensures Distinct(MapSeq(RecordKey, Grid(0, rows, 0, cols, ImageCells(pixels))))
  {
    GridKeys(pixels, 0, rows, 0, cols);
    OffsetToCubeInjective();
    GridDistinct(0, rows, 0, cols, OffsetToCube);
  }

  // ----- the starting position -----

  /** `abs(q) + abs(r) + abs(s)`, the candidate's distance from the centre. */
  function CentreDistance(c: Coord): nat
  {
    Abs(c.q) + Abs(c.r) + Abs(c.s)
  }

  /** A tile that is not water. */
  predicate Land(hexes: map<Coord, Hex>, k: Coord)
  {
    k in hexes && hexes[k].terrain != "water"
  }

  /** `(q, r, s) <= (q', r', s')` as tuples. */
  predicate CoordAtMost(a: Coord, b: Coord)
  {
    a.q < b.q || (a.q == b.q && (a.r < b.r || (a.r == b.r && a.s <= b.s)))
  }

  /** Nearer the centre first, then the smaller coordinate. */
  predicate StartsBefore(a: Coord, b: Coord)
  {
    CentreDistance(a) < CentreDistance(b) || (CentreDistance(a) == CentreDistance(b) && CoordAtMost(a, b))
  }

  /**
   * The start `find_good_starting_position` settles on: the first land tile
   * in the candidate order, or the centre when the map has no land.
   */
  ghost predicate GoodStart(hexes: map<Coord, Hex>, pos: Coord)
  {
    if exists k :: Land(hexes, k) then Land(hexes, pos) && forall k :: Land(hexes, k) ==> StartsBefore(pos, k)
    else pos == Origin
  }

  /** The choice does not depend on the order in which the map is walked. */
  lemma GoodStartUnique(hexes: map<Coord, Hex>, a: Coord, b: Coord)
    requires GoodStart(hexes, a) && GoodStart(hexes, b)
    ensures a == b
  {
  }

  /** An entry of `candidates`: `(distance, (q, r, s), terrain)`. */
  datatype Candidate = Candidate(distance: nat, position: Coord, terrain: string)

  /**
   * Tuple order on candidates as far as it can decide: the terrain only
   * breaks ties between two entries for the same position, and a map has
   * one entry per position.
   */
  predicate CandidateAtMost(a: Candidate, b: Candidate)
  {
    a.distance < b.distance || (a.distance == b.distance && CoordAtMost(a.position, b.position))
  }

  /** `sorted(candidates)[0]`. */
  function Least(cs: seq<Candidate>): (m: Candidate)
    requires |cs| > 0
    ensures m in cs
    ensures forall i :: 0 <= i < |cs| ==> CandidateAtMost(m, cs[i])
  {
    if |cs| == 1 then cs[0]
    else
      var rest := Least(cs[1..]);
      assert forall i :: 1 <= i < |cs| ==> cs[i] == cs[1..][i - 1];
      if CandidateAtMost(cs[0], rest) then cs[0] else rest
  }

  /** `find_good_starting_position`. */
  method FindGoodStartingPosition(hexes: map<Coord, Hex>) returns (pos: Coord)
    ensures GoodStart(hexes, pos)
  {
    var candidates: seq<Candidate> := [];
    var unseen := hexes.Keys;
    while unseen != {}
      invariant unseen <= hexes.Keys
      invariant forall i :: 0 <= i < |candidates| ==>
        Land(hexes, candidates[i].position) && candidates[i].distance == CentreDistance(candidates[i].position)
      invariant forall k :: Land(hexes, k) && k !in unseen ==> Candidate(CentreDistance(k), k, hexes[k].terrain) in candidates
      decreases |unseen|
    {
      var k :| k in unseen;
      var tile := hexes[k];
      if tile.terrain != "water" {
        candidates := candidates + [Candidate(Abs(k.q) + Abs(k.r) + Abs(k.s), k, tile.terrain)];
      }
      unseen := unseen - {k};
    }
    if |candidates| > 0 {
      var first := Least(candidates);
      pos := first.position;
      forall k | Land(hexes, k)
        ensures StartsBefore(pos, k)
      {
        var i :| 0 <= i < |candidates| && candidates[i] == Candidate(CentreDistance(k), k, hexes[k].terrain);
        assert CandidateAtMost(first, candidates[i]);
      }
    } else {
      pos := Origin;
    }
  }

  // ----- starting a game -----

  /** The arrival at the start: explored and visible, and the neighbours that exist visible. */
  function StartArea(hexes: map<Coord, Hex>, start: Coord): (m: map<Coord, Hex>)
  {
    if start in hexes then RevealedAmong(hexes[start := hexes[start].(explored := true, visible := true)], Neighbors(start))
    else hexes
  }

  /** Arriving changes the start tile and its neighbours' visibility and nothing else. */
  lemma StartAreaEffect(hexes: map<Coord, Hex>, start: Coord)
    requires KeysCoherent(hexes)
    ensures KeysCoherent(StartArea(hexes, start)) && StartArea(hexes, start).Keys == hexes.Keys
    ensures start in hexes ==> StartArea(hexes, start)[start] == hexes[start].(explored := true, visible := true)
    ensures forall k :: start in hexes && k in hexes && k in Neighbors(start) ==>
      StartArea(hexes, start)[k] == hexes[k].(visible := true)
    ensures forall k :: k in hexes && k != start && (k !in Neighbors(start) || start !in hexes) ==>
      StartArea(hexes, start)[k] == hexes[k]
  {
    var ns := Neighbors(start);
  }

  /** A map as the menu receives it: the tile records and an optional travel record. */
  datatype MapFile = MapFile(hexes: seq<HexRecord>, travelData: Option<TravelData>)

  /** Whether `start_game_with_map` gets as far as running the explorer. */
  predicate Starts(data: MapFile)
  {
    LoadRecords(data.hexes).Some? && (data.travelData.None? || DecodeTravelData(data.travelData.value).Some?)
  }

  /** A map produced by the stable generator never starts: its records carry a `generating` key. */
  lemma StableMapsNeverStart(m: StableMap.Maths, t: StableMap.NoiseLayers, draw: (int, nat) -> real, seed: int,
                             width: int, height: int)
    requires StableMap.AllAverageable(t) && width > 0 && height > 0
    ensures !Starts(MapFile(MapSeq(StableMap.RecordOf(m, t, draw, seed, width, height), StableMap.Cells(width, height)),
                            Some(StableMap.StableTravelData())))
  {
    var records := MapSeq(StableMap.RecordOf(m, t, draw, seed, width, height), StableMap.Cells(width, height));
    StableMap.CellsLength(width, height);
    assert |records| > 0;
    assert FromDict(records[0]).Failure?;
  }

  /** An image conversion always starts, from its first land tile nearest the centre. */
  lemma ConvertedMapsStart(pixels: (int, int) -> Pixel, rows: int, cols: int)
    requires rows >= 1 && cols >= 1
    ensures Starts(MapFile(Grid(0, rows, 0, cols, ImageCells(pixels)), None))
  {
    ConvertedMap(pixels, rows, cols);
  }

  /** Fill an empty map with the loaded tiles, stopping at the first record that fails. */
  method LoadTiles(hexMap: HexMap, records: seq<HexRecord>) returns (ok: bool)
    requires hexMap.Valid()
    modifies hexMap
    ensures hexMap.Valid() && hexMap.currentPosition == old(hexMap.currentPosition)
    ensures ok <==> LoadRecords(records).Some?
    ensures ok ==> hexMap.hexes == LoadRecords(records).value
  {
    hexMap.hexes := map[];
    var i := 0;
    while i < |records|
      invariant 0 <= i <= |records|
      invariant hexMap.Valid() && hexMap.currentPosition == old(hexMap.currentPosition)
      invariant LoadRecords(records[..i]) == Some(hexMap.hexes)
    {
      assert records[..i + 1][..i] == records[..i];
      var decoded := FromDict(records[i]);
      if decoded.Failure? {
        assert !LoadRecords(records).Some? by {
          assert !LoadRecords(records[..i + 1]).Some?;
          LoadRecordsPrefix(records, i + 1);
        }
        return false;
      }
      hexMap.hexes := hexMap.hexes[CoordOf(decoded.value) := decoded.value];
      i := i + 1;
    }
    assert records[..i] == records;
    return true;
  }

  /** Move to `start`, explore it, and show it and its neighbours that exist. */
  method ArriveAt(hexMap: HexMap, start: Coord)
    requires hexMap.Valid()
    modifies hexMap
    ensures hexMap.Valid() && hexMap.currentPosition == start
    ensures hexMap.hexes == StartArea(old(hexMap.hexes), start)
  {
    hexMap.currentPosition := start;
    if start in hexMap.hexes {
      var tile := hexMap.hexes[start];
      hexMap.hexes := hexMap.hexes[start := tile.(explored := true, visible := true)];
      hexMap.RevealExisting(Neighbors(start));
    }
  }

  class Menu {
    /** Whether the menu loop keeps running. */
    var running: bool

    constructor()
      ensures running
    {
      running := true;
    }

    /**
     * `start_game_with_map` up to running the explorer: a fresh map filled
     * with the loaded tiles, a land start near the centre with its
     * surroundings revealed, the travel record and the distances. A record
     * or travel record that fails to load shows an error and the menu
     * keeps running.
     */
    method StartGameWithMap(data: MapFile) returns (explorer: Option<HexMapExplorer>)
      modifies this
      ensures running <==> explorer.None?
      ensures explorer.Some? <==> Starts(data)
      ensures explorer.Some? ==>
        var hexMap := explorer.value.hexMap;
        var loaded := LoadRecords(data.hexes).value;
        fresh(hexMap) && hexMap.Valid()
        && GoodStart(loaded, hexMap.currentPosition)
        && hexMap.hexes == WithDistances(StartArea(loaded, hexMap.currentPosition), hexMap.currentPosition)
        && hexMap.travel.Fields() == (if data.travelData.Some? then DecodeTravelData(data.travelData.value).value
                                      else DefaultFields())
    {
      running := false;
      var manager := new GenerationManager();
      var hexMap := new HexMap(manager);
      var ok := LoadTiles(hexMap, data.hexes);
      if !ok {
        running := true;
        return None;
      }
      var start := FindGoodStartingPosition(hexMap.hexes);
      ArriveAt(hexMap, start);
      if data.travelData.Some? {
        var loaded := hexMap.travel.LoadFromData(data.travelData.value);
        if !loaded {
          running := true;
          return None;
        }
      }
      hexMap.CalculateDistances();
      var created := new HexMapExplorer(hexMap);
      explorer := Some(created);
    }
  }
}
