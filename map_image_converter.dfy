/**
 * The image converter's rules: cleaning and normalising the vision model's
 * answer for one map section, the colour cascade over averaged section
 * colours with the override of doubtful water answers, the records it
 * writes, the nearest analysed section, and the import dialog that loads
 * a converted map blind or revealed.
 */
module ImageConverter {
  import opened Wrappers
  import opened Strings
  import opened Grids
  import opened HexGrid
  import opened Constants
  import opened Travel
  import opened HexMapStore
  import opened MainMenu

  // ----- the vision model's answer -----

  /**
   * The reply cleanup: a reply with a fenced JSON block keeps the text from
   * its first `{` through its last `}` (when both exist in that order);
   * other fenced replies lose their fences.
   */
  function CleanReply(reply: string): string
  {
    CleanStripped(Strip(reply))
  }

  /** The cleanup of a reply once it is stripped. */
  function CleanStripped(text: string): string
  {
    if Contains(text, "```json") then JsonCut(text)
    else if Contains(text, "```") then
      Strip(RemoveAll(text, "```"))
    else
      text
  }

  /** The text from the first `{` through the last `}`, when both exist in that order. */
  function JsonCut(text: string): string
  {
    var start := Find(text, '{');
    var end := RFind(text, '}') + 1;
    if start >= 0 && end > start then text[start..end] else text
  }

  /** A JSON block is cut out between the first opening and the last closing brace. */
  lemma CleanCutsJson(t: string)
    requires Contains(t, "```json")
    requires 0 <= Find(t, '{') < RFind(t, '}')
    ensures var r, open, close := CleanStripped(t), Find(t, '{'), RFind(t, '}');
      t == t[..open] + r + t[close + 1..] && r[0] == '{' && r[|r| - 1] == '}'
      && '{' !in t[..open] && '}' !in t[close + 1..]
  {
    assert CleanStripped(t) == JsonCut(t);
    JsonCutShape(t);
    BracesOutside(t);
  }

  lemma JsonCutShape(t: string)
    requires 0 <= Find(t, '{') < RFind(t, '}')
    ensures var r, open, close := JsonCut(t), Find(t, '{'), RFind(t, '}');
      t == t[..open] + r + t[close + 1..] && r[0] == '{' && r[|r| - 1] == '}'
  {
    var open, close := Find(t, '{'), RFind(t, '}');
    assert JsonCut(t) == t[open..close + 1];
    SliceShape(t, open, close);
  }

  lemma BracesOutside(t: string)
    requires 0 <= Find(t, '{') < RFind(t, '}')
    ensures '{' !in t[..Find(t, '{')] && '}' !in t[RFind(t, '}') + 1..]
  {
  }

  /** A text is its prefix, the slice from `i` through `j`, and its suffix. */
  lemma SliceShape(t: string, i: nat, j: nat)
    requires i <= j < |t|
    ensures var r := t[i..j + 1];
      t == t[..i] + r + t[j + 1..] && r[0] == t[i] && r[|r| - 1] == t[j]
  {
    assert t[..j + 1] == t[..i] + t[i..j + 1];
    assert t == t[..j + 1] + t[j + 1..];
  }

  /** A marked reply without braces in that order is kept as it is. */
  lemma CleanKeepsBracelessJson(t: string)
    requires Contains(t, "```json")
    requires !(0 <= Find(t, '{') < RFind(t, '}'))
    ensures CleanStripped(t) == t
  {
    assert CleanStripped(t) == JsonCut(t);
    JsonCutKeeps(t);
  }

  lemma JsonCutKeeps(t: string)
    requires !(0 <= Find(t, '{') < RFind(t, '}'))
    ensures JsonCut(t) == t
  {
    var open, close := Find(t, '{'), RFind(t, '}');
    assert open >= 0 && close >= 0 ==> t[open] != t[close];
  }

  /** Other fenced replies lose at least one fence and are stripped again. */
  lemma CleanDropsFences(t: string)
    requires !Contains(t, "```json") && Contains(t, "```")
    ensures CleanStripped(t) == Strip(RemoveAll(t, "```"))
    ensures |CleanStripped(t)| <= |t| - 3
  {
    RemoveShrinks(t, "```");
  }

  /** An unfenced reply is kept as it is. */
  lemma CleanKeepsPlain(t: string)
    requires !Contains(t, "```")
    ensures CleanStripped(t) == t
  {
    NoPrefixNoContains(t, "```", "```json");
  }

  /** Every removed occurrence takes the whole pattern with it. */
  lemma {:induction false} RemoveShrinks(s: string, p: string)
    requires |p| > 0 && Contains(s, p)
    ensures |RemoveAll(s, p)| <= |s| - |p|
    decreases |s|
  {
    if !IsPrefix(p, s) {
      RemoveShrinks(s[1..], p);
    }
  }

  /** Text without a pattern has no text that starts with the pattern either. */
  lemma {:induction false} NoPrefixNoContains(s: string, p: string, q: string)
    requires IsPrefix(p, q) && !Contains(s, p)
    ensures !Contains(s, q)
    decreases |s|
  {
    PrefixOfPrefix(p, q, s);
    if |s| > 0 {
      NoPrefixNoContains(s[1..], p, q);
    }
  }

  lemma PrefixOfPrefix(p: string, q: string, s: string)
    requires IsPrefix(p, q)
    ensures IsPrefix(q, s) ==> IsPrefix(p, s)
  {
    if IsPrefix(q, s) {
      assert s[..|p|] == q[..|p|];
    }
  }

  lemma PrefixChar(sub: string, s: string, k: nat)
    requires k < |sub|
    ensures IsPrefix(sub, s) ==> s[k] == sub[k]
  {
    if IsPrefix(sub, s) {
      assert s[..|sub|][k] == s[k];
    }
  }

  /** A text missing one character of `sub` does not contain `sub`. */
  lemma {:induction false} MissingCharNotContained(s: string, sub: string, k: nat)
    requires k < |sub| && sub[k] !in s
    ensures !Contains(s, sub)
    decreases |s|
  {
    PrefixChar(sub, s, k);
    if |s| > 0 {
      MissingCharNotContained(s[1..], sub, k);
    }
  }

  /** The first terrain of `ts`, in order, whose name occurs in `answer`. */
  function FirstNamed(answer: string, ts: seq<Terrain>): (r: Option<Terrain>)
    ensures r.None? <==> forall i :: 0 <= i < |ts| ==> !Contains(answer, TerrainKey(ts[i]))
    ensures r.Some? ==> r.value in ts && Contains(answer, TerrainKey(r.value))
    decreases |ts|
  {
    if |ts| == 0 then None
    else if Contains(answer, TerrainKey(ts[0])) then Some(ts[0])
    else
      var rest := FirstNamed(answer, ts[1..]);
      assert forall i :: 1 <= i < |ts| ==> ts[i] == ts[1..][i - 1];
      rest
  }

  /** The three terrains a section falls back to, by the parity of its position. */
  const FallbackTerrains: seq<Terrain> := [Plains, Hills, Forest]

  /**
   * The terrain kept from an answer: the first catalog name, in catalog
   * order, occurring in the lowered and stripped answer; otherwise a
   * fallback chosen by the section's position.
   */
  function NormaliseTerrain(answer: string, gridX: int, gridY: int): (t: Terrain)
    ensures FirstNamed(Strip(Lower(answer)), AllTerrains).Some? ==> t == FirstNamed(Strip(Lower(answer)), AllTerrains).value
    ensures FirstNamed(Strip(Lower(answer)), AllTerrains).None? ==> t == FallbackTerrains[(gridX + gridY) % 3]
  {
    match FirstNamed(Strip(Lower(answer)), AllTerrains)
    case Some(found) => found
    case None => FallbackTerrains[(gridX + gridY) % 3]
  }

  /** A name from the catalog normalises to itself. */
  lemma CatalogNameNormalises(t: Terrain, gridX: int, gridY: int)
    ensures NormaliseTerrain(TerrainKey(t), gridX, gridY) == t
  {
    var key := TerrainKey(t);
    LowerOfKey(t);
    StripOfKey(t);
    ContainsAt(key, key, 0);
    var i := TerrainIndex(t);
    forall j | 0 <= j < i
      ensures !Contains(key, TerrainKey(AllTerrains[j]))
    {
      CatalogIndex(j);
      NamesApart(t, AllTerrains[j]);
    }
    FirstNamedAt(key, AllTerrains, i);
  }

  /** The catalog lists each terrain once. */
  lemma CatalogIndex(j: nat)
    requires j < |AllTerrains|
    ensures TerrainIndex(AllTerrains[j]) == j
  {
  }

  /** A name present, with none of the earlier names, is the first named. */
  lemma {:induction false} FirstNamedAt(answer: string, ts: seq<Terrain>, i: nat)
    requires i < |ts| && Contains(answer, TerrainKey(ts[i]))
    requires forall j :: 0 <= j < i ==> !Contains(answer, TerrainKey(ts[j]))
    ensures FirstNamed(answer, ts) == Some(ts[i])
    decreases i
  {
    if i > 0 {
      assert !Contains(answer, TerrainKey(ts[0]));
      FirstNamedAt(answer, ts[1..], i - 1);
    }
  }

  /** The position of a terrain in the catalog order. */
  function TerrainIndex(t: Terrain): (i: nat)
    ensures i < |AllTerrains| && AllTerrains[i] == t
  {
    match t
    case Forest => 0
    case Plains => 1
    case Mountains => 2
    case Water => 3
    case Desert => 4
    case Swamp => 5
    case Tundra => 6
    case Hills => 7
  }

  lemma LowerOfKey(t: Terrain)
    ensures Lower(TerrainKey(t)) == TerrainKey(t)
  {
  }

  lemma StripOfKey(t: Terrain)
    ensures Strip(TerrainKey(t)) == TerrainKey(t)
  {
    var key := TerrainKey(t);
    assert !IsSpace(key[0]) && !IsSpace(key[|key| - 1]);
  }

  /** "plains" misses a letter of every name before it. */
  lemma PlainsNameApart()
    ensures !Contains("plains", "forest")
  {
    MissingCharNotContained("plains", "forest", 0);
  }

  /** "mountains" misses a letter of every name before it. */
  lemma MountainsNameApart()
    ensures !Contains("mountains", "forest") && !Contains("mountains", "plains")
  {
    MissingCharNotContained("mountains", "forest", 0);
    MissingCharNotContained("mountains", "plains", 0);
  }

  /** "water" misses a letter of every name before it. */
  lemma WaterNameApart()
    ensures !Contains("water", "forest") && !Contains("water", "plains") && !Contains("water", "mountains")
  {
    MissingCharNotContained("water", "forest", 0);
    MissingCharNotContained("water", "plains", 0);
    MissingCharNotContained("water", "mountains", 0);
  }

  /** "desert" misses a letter of every name before it. */
  lemma DesertNameApart()
    ensures !Contains("desert", "forest") && !Contains("desert", "plains") && !Contains("desert", "mountains") && !Contains("desert", "water")
  {
    MissingCharNotContained("desert", "forest", 0);
    MissingCharNotContained("desert", "plains", 0);
    MissingCharNotContained("desert", "mountains", 0);
    MissingCharNotContained("desert", "water", 0);
  }

  /** "swamp" misses a letter of every name before it. */
  lemma SwampNameApart()
    ensures !Contains("swamp", "forest") && !Contains("swamp", "plains") && !Contains("swamp", "mountains") && !Contains("swamp", "water") && !Contains("swamp", "desert")
  {
    MissingCharNotContained("swamp", "forest", 0);
    MissingCharNotContained("swamp", "plains", 1);
    MissingCharNotContained("swamp", "mountains", 1);
    MissingCharNotContained("swamp", "water", 2);
    MissingCharNotContained("swamp", "desert", 0);
  }

  /** "tundra" misses a letter of every name before it. */
  lemma TundraNameApart()
    ensures !Contains("tundra", "forest") && !Contains("tundra", "plains") && !Contains("tundra", "mountains") && !Contains("tundra", "water") && !Contains("tundra", "desert") && !Contains("tundra", "swamp")
  {
    MissingCharNotContained("tundra", "forest", 0);
    MissingCharNotContained("tundra", "plains", 0);
    MissingCharNotContained("tundra", "mountains", 0);
    MissingCharNotContained("tundra", "water", 0);
    MissingCharNotContained("tundra", "desert", 2);
    MissingCharNotContained("tundra", "swamp", 0);
  }

  /** "hills" misses a letter of every name before it. */
  lemma HillsNameApart()
    ensures !Contains("hills", "forest") && !Contains("hills", "plains") && !Contains("hills", "mountains") && !Contains("hills", "water") && !Contains("hills", "desert") && !Contains("hills", "swamp") && !Contains("hills", "tundra")
  {
    MissingCharNotContained("hills", "forest", 0);
    MissingCharNotContained("hills", "plains", 0);
    MissingCharNotContained("hills", "mountains", 0);
    MissingCharNotContained("hills", "water", 0);
    MissingCharNotContained("hills", "desert", 0);
    MissingCharNotContained("hills", "swamp", 1);
    MissingCharNotContained("hills", "tundra", 0);
  }

  /** No catalog name occurs inside a name that comes after it in the catalog. */
  lemma NamesApart(t: Terrain, u: Terrain)
    ensures TerrainIndex(u) < TerrainIndex(t) ==> !Contains(TerrainKey(t), TerrainKey(u))
  {
    match t
    case Forest =>
    case Swamp => SwampNameApart();
    case Tundra => TundraNameApart();
    case Hills => HillsNameApart();
    case Plains => PlainsNameApart();
    case Mountains => MountainsNameApart();
    case Water => WaterNameApart();
    case Desert => DesertNameApart();
  }

  /** What `json.loads` made of the cleaned reply. */
  datatype JsonReading =
    | NotJson
    | NotAnObject
    | Object(terrain: Option<string>, description: Option<string>)

  /** One analysed section: its terrain and description. */
  datatype Section = Section(terrain: Terrain, description: string)

  /**
   * `analyze_map_section` given the reply text (`None` when the request
   * failed or did not answer 200) and the JSON reading of the cleaned
   * reply: a normalised terrain and a description, with positional
   * fallbacks for failed requests and unreadable replies.
   */
  function AnalyzeMapSection(reply: Option<string>, readJson: string -> JsonReading, gridX: int, gridY: int): (s: Section)
    ensures reply.None? ==> s == Section(FallbackTerrains[(gridX + gridY) % 3], "A " + TerrainKey(s.terrain) + " region")
    ensures reply.Some? && readJson(CleanReply(reply.value)).NotJson? ==>
      s == Section([Plains, Hills, Forest, Water][(gridX + gridY) % 4], "A " + TerrainKey(s.terrain) + " area")
    ensures reply.Some? && readJson(CleanReply(reply.value)).NotAnObject? ==>
      s == Section(FallbackTerrains[(gridX + gridY) % 3], "A " + TerrainKey(s.terrain) + " region")
    ensures reply.Some? && readJson(CleanReply(reply.value)).Object? ==>
      var o := readJson(CleanReply(reply.value));
      s.terrain == NormaliseTerrain(Get(o.terrain, ""), gridX, gridY)
      && (o.description.Some? && o.description.value != "" ==> s.description == o.description.value)
      && (o.description.None? || o.description.value == "" ==>
            s.description == "A " + TerrainKey(s.terrain) + " region at coordinates ("
                             + IntToString(gridX) + ", " + IntToString(gridY) + ")")
    ensures s.terrain == Water ==>
      (reply.Some? &&
       match readJson(CleanReply(reply.value))
       case NotJson => (gridX + gridY) % 4 == 3
       case NotAnObject => false
       case Object(answer, _) => Contains(Strip(Lower(Get(answer, ""))), "water"))
  {
    var fallback := FallbackTerrains[(gridX + gridY) % 3];
    if reply.None? then Section(fallback, "A " + TerrainKey(fallback) + " region")
    else
      match readJson(CleanReply(reply.value))
      case NotJson =>
        var guess := [Plains, Hills, Forest, Water][(gridX + gridY) % 4];
        Section(guess, "A " + TerrainKey(guess) + " area")
      case NotAnObject => Section(fallback, "A " + TerrainKey(fallback) + " region")
      case Object(answer, description) =>
        var terrain := NormaliseTerrain(Get(answer, ""), gridX, gridY);
        var text := if description.None? || description.value == "" then
          "A " + TerrainKey(terrain) + " region at coordinates (" + IntToString(gridX) + ", " + IntToString(gridY) + ")"
        else description.value;
        WaterNamed(Get(answer, ""), gridX, gridY);
        Section(terrain, text)
  }

  /** A water answer from a readable reply comes only from the word "water". */
  lemma WaterNamed(answer: string, gridX: int, gridY: int)
    ensures NormaliseTerrain(answer, gridX, gridY) == Water ==> Contains(Strip(Lower(answer)), "water")
  {
    var low := Strip(Lower(answer));
    var found := FirstNamed(low, AllTerrains);
  }

  // ----- colours -----

  /** The average colour of a section of the image. */
  datatype Colour = Colour(r: real, g: real, b: real)

  /** The colour bands of the converter's cascade, in the order it tests them. */
  predicate ColourBlue(c: Colour) { c.b > c.r && c.b > c.g && c.b > 150.0 }
  predicate ColourGreen(c: Colour) { c.g > c.r && c.g > c.b && c.g > 100.0 }
  predicate ColourSand(c: Colour) { c.r > 150.0 && c.g > 100.0 && c.b < 100.0 }
  predicate ColourDark(c: Colour) { c.r < 100.0 && c.g < 100.0 && c.b < 100.0 }
  predicate ColourPale(c: Colour) { c.r > 200.0 && c.g > 200.0 && c.b > 200.0 }
  predicate ColourMarsh(c: Colour) { c.g > 80.0 && c.b > 80.0 && c.r < 100.0 }

  /** The converter's colour cascade; it wants a brighter blue for water and a dominant green for land. */
  function ColourTerrain(c: Colour): (t: Terrain)
    ensures t == Water <==> ColourBlue(c)
    ensures t == Forest <==> !ColourBlue(c) && ColourGreen(c) && c.g <= 150.0
    ensures t == Desert <==> !ColourBlue(c) && !ColourGreen(c) && ColourSand(c) && c.r > 200.0
    ensures t == Hills <==> !ColourBlue(c) && !ColourGreen(c) && ColourSand(c) && c.r <= 200.0
    ensures t == Mountains <==> !ColourBlue(c) && !ColourGreen(c) && !ColourSand(c) && ColourDark(c)
    ensures t == Tundra <==> !ColourBlue(c) && !ColourGreen(c) && !ColourSand(c) && !ColourDark(c) && ColourPale(c)
    ensures t == Swamp <==>
      !ColourBlue(c) && !ColourGreen(c) && !ColourSand(c) && !ColourDark(c) && !ColourPale(c) && ColourMarsh(c)
    ensures t == Plains <==>
      (!ColourBlue(c) && ColourGreen(c) && c.g > 150.0)
      || (!ColourBlue(c) && !ColourGreen(c) && !ColourSand(c) && !ColourDark(c) && !ColourPale(c) && !ColourMarsh(c))
    ensures t == Forest ==> c.g > c.r && c.g > c.b && 100.0 < c.g <= 150.0
    ensures t == Desert ==> c.r > 200.0 && c.g > 100.0 && c.b < 100.0
    ensures t == Hills ==> 150.0 < c.r <= 200.0 && c.g > 100.0 && c.b < 100.0
    ensures t == Mountains ==> c.r < 100.0 && c.g < 100.0 && c.b < 100.0
    ensures t == Tundra ==> c.r > 200.0 && c.g > 200.0 && c.b > 200.0
    ensures t == Swamp ==> c.g > 80.0 && c.b > 80.0 && c.r < 100.0
    ensures c.g > c.r && c.g > c.b && c.g > 150.0 && t != Water ==> t == Plains
  {
    if c.b > c.r && c.b > c.g && c.b > 150.0 then Water
    else if c.g > c.r && c.g > c.b && c.g > 100.0 then (if c.g > 150.0 then Plains else Forest)
    else if c.r > 150.0 && c.g > 100.0 && c.b < 100.0 then (if c.r > 200.0 then Desert else Hills)
    else if c.r < 100.0 && c.g < 100.0 && c.b < 100.0 then Mountains
    else if c.r > 200.0 && c.g > 200.0 && c.b > 200.0 then Tundra
    else if c.g > 80.0 && c.b > 80.0 && c.r < 100.0 then Swamp
    else Plains
  }

  /** The menu's and the converter's cascades part ways on dim blue and on blue-green. */
  lemma CascadesDiffer()
    ensures PixelTerrain(Pixel(0, 0, 120)) == Water && ColourTerrain(Colour(0.0, 0.0, 120.0)) == Plains
    ensures PixelTerrain(Pixel(50, 120, 120)) == Forest && ColourTerrain(Colour(50.0, 120.0, 120.0)) == Swamp
  {
  }

  /** Whether the grid samples one of `n` positions: every `max(1, n // 5)`-th from 0. */
  predicate OnSampleLine(i: int, n: int)
  {
    var step := if n / 5 < 1 then 1 else n / 5;
    0 <= i < n && i % step == 0
  }

  /**
   * The entry the first pass stores for a cell: the vision model's answer at
   * sampled cells, where a water answer gives way to a drier colour, and the
   * colour's terrain elsewhere.
   */
  function CellEntry(colour: Colour, sampled: bool, answer: Section): (e: Section)
    ensures e.terrain == Water ==> ColourTerrain(colour) == Water
    ensures sampled && answer.terrain != Water ==> e == answer
    ensures sampled && answer.terrain == Water && ColourTerrain(colour) == Water ==> e == answer
    ensures sampled && answer.terrain == Water && ColourTerrain(colour) != Water ==>
      e == Section(ColourTerrain(colour), "A " + TerrainKey(ColourTerrain(colour)) + " region identified by terrain features")
    ensures !sampled ==> e == Section(ColourTerrain(colour), "A " + TerrainKey(ColourTerrain(colour)) + " area")
  {
    var colourTerrain := ColourTerrain(colour);
    if sampled then
      if answer.terrain == Water && colourTerrain != Water then
        Section(colourTerrain, "A " + TerrainKey(colourTerrain) + " region identified by terrain features")
      else answer
    else Section(colourTerrain, "A " + TerrainKey(colourTerrain) + " area")
  }

  /** The entry of the cell at `row`, `col` of a `cols` by `rows` grid. */
  function EntryAt(colours: (int, int) -> Colour, analyse: (int, int) -> Section, rows: int, cols: int,
                   row: int, col: int): Section
  {
    CellEntry(colours(row, col), OnSampleLine(row, rows) && OnSampleLine(col, cols), analyse(col, row))
  }

  /** The record written for a cell from its entry. */
  function EntryRecord(row: int, col: int, e: Section): (d: HexRecord)
  {
    var c := OffsetToCube(row, col);
    HexRecord(c.q, c.r, c.s, TerrainKey(e.terrain), e.description, false, false, None, None)
  }

  function ConvertedCells(colours: (int, int) -> Colour, analyse: (int, int) -> Section, rows: int, cols: int)
    : (int, int) -> HexRecord
  {
    (row, col) => EntryRecord(row, col, EntryAt(colours, analyse, rows, cols, row, col))
  }

  /** The record of a cell looked up in the entries, with the unexplored default for a missing one. */
  function LookedUp(terrainMap: map<(int, int), Section>, row: int, col: int): HexRecord
  {
    EntryRecord(row, col, if (row, col) in terrainMap then terrainMap[(row, col)] else Section(Plains, "Unexplored region"))
  }

  /** The first pass over one row: the entry of every cell. */
  method AnalyseRow(colours: (int, int) -> Colour, analyse: (int, int) -> Section, rows: int, cols: int, row: int,
                    before: map<(int, int), Section>)
    returns (terrainMap: map<(int, int), Section>)
    ensures forall p :: p in terrainMap <==> p in before || (p.0 == row && 0 <= p.1 < cols)
    ensures forall p :: p in terrainMap ==>
      terrainMap[p] == if p.0 == row && 0 <= p.1 < cols then EntryAt(colours, analyse, rows, cols, row, p.1) else before[p]
  {
    terrainMap := before;
    var col := 0;
    while col < cols
      invariant 0 <= col <= cols || (cols < 0 && col == 0)
      invariant forall p :: p in terrainMap <==> p in before || (p.0 == row && 0 <= p.1 < col)
      invariant forall p :: p in terrainMap ==>
        terrainMap[p] == if p.0 == row && 0 <= p.1 < col then EntryAt(colours, analyse, rows, cols, row, p.1) else before[p]
    {
      var colourTerrain := ColourTerrain(colours(row, col));
      var entry;
      if OnSampleLine(row, rows) && OnSampleLine(col, cols) {
        var result := analyse(col, row);
        if result.terrain == Water && colourTerrain != Water {
          result := Section(colourTerrain, "A " + TerrainKey(colourTerrain) + " region identified by terrain features");
        }
        entry := result;
      } else {
        entry := Section(colourTerrain, "A " + TerrainKey(colourTerrain) + " area");
      }
      terrainMap := terrainMap[(row, col) := entry];
      col := col + 1;
    }
  }

  /** The second pass over one row: a record per cell from its entry. */
  method RecordRow(terrainMap: map<(int, int), Section>, row: int, cols: int) returns (line: seq<HexRecord>)
    requires cols >= 0
    ensures line == Line(row, 0, cols, (r, c) => LookedUp(terrainMap, r, c))
  {
    line := [];
    var col := 0;
    while col < cols
      invariant 0 <= col <= cols
      invariant line == Line(row, 0, col, (r, c) => LookedUp(terrainMap, r, c))
    {
      var c := OffsetToCube(row, col);
      var terrainData := if (row, col) in terrainMap then terrainMap[(row, col)] else Section(Plains, "Unexplored region");
      var record := HexRecord(c.q, c.r, c.s, TerrainKey(terrainData.terrain), terrainData.description, false, false, None, None);
      assert record == LookedUp(terrainMap, row, col);
      line := line + [record];
      col := col + 1;
    }
  }

  /** A row of lookups into entries that hold the row is the row of converted cells. */
  lemma {:induction false} LookedUpLine(colours: (int, int) -> Colour, analyse: (int, int) -> Section, rows: int, cols: int,
                                        terrainMap: map<(int, int), Section>, row: int, x1: int)
    requires 0 <= row < rows && x1 <= cols
    requires forall col :: 0 <= col < cols ==>
      (row, col) in terrainMap && terrainMap[(row, col)] == EntryAt(colours, analyse, rows, cols, row, col)
    ensures Line(row, 0, x1, (r, c) => LookedUp(terrainMap, r, c)) == Line(row, 0, x1, ConvertedCells(colours, analyse, rows, cols))
    decreases x1
  {
    if x1 > 0 {
      LookedUpLine(colours, analyse, rows, cols, terrainMap, row, x1 - 1);
    }
  }

  /** The first pass: the entry of every cell, rows outermost. */
  method AnalyseCells(colours: (int, int) -> Colour, analyse: (int, int) -> Section, hexCols: int, hexRows: int)
    returns (terrainMap: map<(int, int), Section>)
    ensures forall p :: p in terrainMap <==> 0 <= p.0 < hexRows && 0 <= p.1 < hexCols
    ensures forall p :: p in terrainMap ==> terrainMap[p] == EntryAt(colours, analyse, hexRows, hexCols, p.0, p.1)
  {
    terrainMap := map[];
    var row := 0;
    while row < hexRows
      invariant 0 <= row <= hexRows || (hexRows < 0 && row == 0)
      invariant forall p :: p in terrainMap <==> 0 <= p.0 < row && 0 <= p.1 < hexCols
      invariant forall p :: p in terrainMap ==> terrainMap[p] == EntryAt(colours, analyse, hexRows, hexCols, p.0, p.1)
    {
      terrainMap := AnalyseRow(colours, analyse, hexRows, hexCols, row, terrainMap);
      row := row + 1;
    }
  }

  /**
   * `convert_image_to_hexes` after the image is prepared, given the average
   * colour of each cell and the analysis of each sampled section: every
   * cell's entry first, then the records, rows outermost.
   */
  method ConvertImageToHexes(colours: (int, int) -> Colour, analyse: (int, int) -> Section, hexCols: int, hexRows: int)
    returns (hexes: seq<HexRecord>)
    ensures hexCols >= 0 && hexRows >= 0 ==> hexes == Grid(0, hexRows, 0, hexCols, ConvertedCells(colours, analyse, hexRows, hexCols))
    ensures hexCols <= 0 || hexRows <= 0 ==> hexes == []
  {
    var terrainMap := AnalyseCells(colours, analyse, hexCols, hexRows);
    if hexCols <= 0 || hexRows <= 0 {
      if hexCols >= 0 && hexRows >= 0 {
        GridLength(0, hexRows, 0, hexCols, ConvertedCells(colours, analyse, hexRows, hexCols));
      }
      return [];
    }
    hexes := RecordRows(colours, analyse, hexCols, hexRows, terrainMap);
  }

  /** The second pass: the records of all rows, from the entries of the first. */
  method RecordRows(colours: (int, int) -> Colour, analyse: (int, int) -> Section, hexCols: int, hexRows: int,
                    terrainMap: map<(int, int), Section>)
    returns (hexes: seq<HexRecord>)
    requires hexCols >= 0 && hexRows >= 0
    requires forall p: (int, int) :: 0 <= p.0 < hexRows && 0 <= p.1 < hexCols ==>
      p in terrainMap && terrainMap[p] == EntryAt(colours, analyse, hexRows, hexCols, p.0, p.1)
    ensures hexes == Grid(0, hexRows, 0, hexCols, ConvertedCells(colours, analyse, hexRows, hexCols))
  {
    hexes := [];
    var cells := ConvertedCells(colours, analyse, hexRows, hexCols);
    var row := 0;
    while row < hexRows
      invariant 0 <= row <= hexRows
      invariant hexes == Grid(0, row, 0, hexCols, cells)
    {
      var line := RecordRow(terrainMap, row, hexCols);
      LookedUpLine(colours, analyse, hexRows, hexCols, terrainMap, row, hexCols);
      assert Grid(0, row + 1, 0, hexCols, cells) == hexes + line;
      hexes := hexes + line;
      row := row + 1;
    }
  }

  /**
   * The converted records: a cell of water only where the colours are
   * blue, each at its own coordinate, unexplored and hidden.
   */
  lemma ConvertedHexes(colours: (int, int) -> Colour, analyse: (int, int) -> Section, rows: int, cols: int)
    requires rows >= 0 && cols >= 0
    ensures |Grid(0, rows, 0, cols, ConvertedCells(colours, analyse, rows, cols))| == rows * cols
    ensures forall row, col :: 0 <= row < rows && 0 <= col < cols ==>
      var d := ConvertedCells(colours, analyse, rows, cols)(row, col);
      d in Grid(0, rows, 0, cols, ConvertedCells(colours, analyse, rows, cols))
      && RecordKey(d) == OffsetToCube(row, col) && !d.explored && !d.visible && IsTerrain(d.terrain)
      && (d.terrain == "water" ==> ColourTerrain(colours(row, col)) == Water)
    ensures forall d :: d in Grid(0, rows, 0, cols, ConvertedCells(colours, analyse, rows, cols)) ==> FromDict(d).Success?
  {
    var f := ConvertedCells(colours, analyse, rows, cols);
    GridLength(0, rows, 0, cols, f);
    forall row, col | 0 <= row < rows && 0 <= col < cols
      ensures var d := f(row, col);
        d in Grid(0, rows, 0, cols, f)
        && RecordKey(d) == OffsetToCube(row, col) && !d.explored && !d.visible && IsTerrain(d.terrain)
        && (d.terrain == "water" ==> ColourTerrain(colours(row, col)) == Water)
    {
      var e := EntryAt(colours, analyse, rows, cols, row, col);
      GridMembership(0, rows, 0, cols, f, f(row, col));
      ParseTerrainKey(e.terrain);
      if TerrainKey(e.terrain) == "water" {
        ParseTerrainKey(Water);
      }
    }
    forall d | d in Grid(0, rows, 0, cols, f)
      ensures FromDict(d).Success?
    {
      GridMembership(0, rows, 0, cols, f, d);
    }
  }

  /** An entry of the first pass: its (row, column) and what was stored. */
  datatype Entry = Entry(row: int, col: int, data: Section)

  function Manhattan(e: Entry, row: int, col: int): nat
  {
    Abs(e.row - row) + Abs(e.col - col)
  }

  /**
   * `find_nearest_terrain`: the first entry, in the order the entries were
   * stored, at the least Manhattan distance; the unexplored default when
   * there are none.
   */
  method FindNearestTerrain(row: int, col: int, entries: seq<Entry>) returns (nearest: Section)
    ensures |entries| == 0 ==> nearest == Section(Plains, "Unexplored region")
    ensures |entries| > 0 ==>
      exists i :: 0 <= i < |entries| && nearest == entries[i].data
        && (forall j :: 0 <= j < |entries| ==> Manhattan(entries[i], row, col) <= Manhattan(entries[j], row, col))
        && (forall j :: 0 <= j < i ==> Manhattan(entries[j], row, col) > Manhattan(entries[i], row, col))
  {
    var minDist: Option<nat> := None;
    nearest := Section(Plains, "Unexplored region");
    ghost var best := 0;
    var k := 0;
    while k < |entries|
      invariant 0 <= k <= |entries|
      invariant (k == 0) == minDist.None?
      invariant k == 0 ==> nearest == Section(Plains, "Unexplored region")
      invariant k > 0 ==>
        0 <= best < k && nearest == entries[best].data && minDist == Some(Manhattan(entries[best], row, col))
        && (forall j :: 0 <= j < k ==> Manhattan(entries[best], row, col) <= Manhattan(entries[j], row, col))
        && (forall j :: 0 <= j < best ==> Manhattan(entries[j], row, col) > Manhattan(entries[best], row, col))
    {
      var e := entries[k];
      var dist := Abs(e.row - row) + Abs(e.col - col);
      if minDist.None? || dist < minDist.value {
        minDist := Some(dist);
        nearest := e.data;
        best := k;
      }
      k := k + 1;
    }
  }

  // ----- importing a converted map -----

  datatype ImportMode = Blind | Revealed

  /** A record as the import dialog turns it into a tile: unexplored, visible only in revealed mode. */
  function ImportTile(d: HexRecord, visible: bool): (h: Hex)
  {
    Hex(d.q, d.r, d.s, d.terrain, d.description, false, visible, false, 999)
  }

  /** No later record shares the coordinate of record `i`. */
  predicate LastAt(records: seq<HexRecord>, i: int)
    requires 0 <= i < |records|
  {
    forall j :: i < j < |records| ==> RecordKey(records[j]) != RecordKey(records[i])
  }

  /** The tiles of the imported records, a later record replacing an earlier one at the same coordinate. */
  function ImportedTiles(records: seq<HexRecord>, visible: bool): (m: map<Coord, Hex>)
    ensures m.Keys == RecordKeys(records) && KeysCoherent(m)
    ensures forall k :: k in m ==>
      !m[k].explored && m[k].visible == visible && !m[k].generating && m[k].distanceFromCurrent == 999
    ensures forall i :: 0 <= i < |records| && LastAt(records, i) ==> m[RecordKey(records[i])] == ImportTile(records[i], visible)
    decreases |records|
  {
    if |records| == 0 then map[]
    else
      var prefix := records[..|records| - 1];
      var last := records[|records| - 1];
      assert forall i :: 0 <= i < |prefix| ==> prefix[i] == records[i];
      ImportedTiles(prefix, visible)[RecordKey(last) := ImportTile(last, visible)]
  }

  /** The travel fields after the import: days, hours, movement and a known pace; nothing else. */
  function ImportedTravel(f: TravelFields, data: Option<TravelData>): (g: TravelFields)
    ensures data.None? ==> g == f
    ensures g.exhaustion == f.exhaustion && g.transport == f.transport && g.supplies == f.supplies
    ensures data.Some? ==> g.days == Get(data.value.days, 0) && g.movement == Get(data.value.movement, 8.0)
    ensures data.Some? ==> g.hours == Get(data.value.hours, 0.0)
    ensures data.Some? ==> g.pace == Get(ParsePace(Get(data.value.pace, "normal")), f.pace)
    ensures g.mountExhaustion == f.mountExhaustion && g.favoredTerrain == f.favoredTerrain
    ensures g.hasRanger == f.hasRanger && g.hasNavigator == f.hasNavigator && g.hasOutlander == f.hasOutlander
  {
    if data.None? then f
    else
      var d := data.value;
      var pace := ParsePace(Get(d.pace, "normal"));
      f.(days := Get(d.days, 0), hours := Get(d.hours, 0.0), movement := Get(d.movement, 8.0),
         pace := if pace.Some? then pace.value else f.pace)
  }

  class MapImportDialog {
    const hexMap: HexMap
    var mapData: Option<MapFile>
    var selectedStart: Option<Coord>

    constructor(hexMap: HexMap)
      ensures this.hexMap == hexMap && mapData.None? && selectedStart.None?
    {
      this.hexMap := hexMap;
      mapData := None;
      selectedStart := None;
    }

    /**
     * `import_map`: replace the tiles by the loaded records, pick the start
     * (a random land tile in blind mode, the chosen tile or the centre in
     * revealed mode), explore it and show its neighbours, and copy part of
     * the travel record. The movement allowance is not recomputed.
     */
    method ImportMap(mode: ImportMode)
      requires hexMap.Valid()
      modifies hexMap, hexMap.travel
      ensures hexMap.Valid()
      ensures hexMap.travel.maxMovement == old(hexMap.travel.maxMovement)
      ensures hexMap.travel.isResting == old(hexMap.travel.isResting)
      ensures mapData.None? ==>
        hexMap.hexes == old(hexMap.hexes) && hexMap.currentPosition == old(hexMap.currentPosition)
        && hexMap.travel.Fields() == old(hexMap.travel.Fields())
      ensures mapData.Some? ==>
        var tiles := ImportedTiles(mapData.value.hexes, mode == Revealed);
        hexMap.hexes == StartArea(tiles, hexMap.currentPosition)
        && hexMap.travel.Fields() == ImportedTravel(old(hexMap.travel.Fields()), mapData.value.travelData)
        && (mode == Revealed ==> hexMap.currentPosition == Get(selectedStart, Origin))
        && (mode == Blind ==> BlindStart(tiles, hexMap.currentPosition))
    {
      if mapData.None? {
        return;
      }
      ImportTiles(hexMap, mapData.value.hexes, mode != Blind);
      var start: Coord;
      if mode == Blind {
        start := RandomLandStart(hexMap.hexes);
      } else {
        start := if selectedStart.Some? then selectedStart.value else Origin;
      }
      ArriveAt(hexMap, start);
      if mapData.value.travelData.Some? {
        ImportTravel(hexMap.travel, mapData.value.travelData.value);
      }
    }
  }

  /** A blind start: some land tile when there is one, the centre otherwise. */
  ghost predicate BlindStart(hexes: map<Coord, Hex>, start: Coord)
  {
    if exists k :: Land(hexes, k) then Land(hexes, start) else start == Origin
  }

  /** `random.choice` over the land tiles, or the centre when there are none. */
  method RandomLandStart(hexes: map<Coord, Hex>) returns (start: Coord)
    ensures BlindStart(hexes, start)
  {
    var validStarts := set k | k in hexes && Land(hexes, k);
    if validStarts != {} {
      start :| start in validStarts;
    } else {
      start := Origin;
      assert forall k :: Land(hexes, k) ==> k in validStarts;
    }
  }

  /** The import loop: one tile per record, in order. */
  method ImportTiles(hexMap: HexMap, records: seq<HexRecord>, visible: bool)
    requires hexMap.Valid()
    modifies hexMap
    ensures hexMap.Valid() && hexMap.hexes == ImportedTiles(records, visible)
  {
    hexMap.hexes := map[];
    var i := 0;
    while i < |records|
      invariant 0 <= i <= |records|
      invariant hexMap.Valid() && hexMap.hexes == ImportedTiles(records[..i], visible)
    {
      var d := records[i];
      assert records[..i + 1][..i] == records[..i];
      hexMap.hexes := hexMap.hexes[Coord(d.q, d.r, d.s) := ImportTile(d, visible)];
      i := i + 1;
    }
    assert records[..i] == records;
  }

  /** The four travel fields the import copies, without recomputing the allowance. */
  method ImportTravel(travel: TravelSystem, td: TravelData)
    requires travel.Valid()
    modifies travel
    ensures travel.Valid() && travel.Fields() == ImportedTravel(old(travel.Fields()), Some(td))
    ensures travel.maxMovement == old(travel.maxMovement) && travel.isResting == old(travel.isResting)
  {
    travel.daysTraveled := Get(td.days, 0);
    travel.hoursTraveled := Get(td.hours, 0.0);
    travel.movementPoints := Get(td.movement, 8.0);
    var pace := ParsePace(Get(td.pace, "normal"));
    if pace.Some? {
      travel.currentPace := pace.value;
    }
  }
}
