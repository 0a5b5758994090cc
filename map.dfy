/**
 * The hex map: a growing dictionary from cube coordinates to tiles, the
 * party's position, its travel state and the hand-off of new tiles to the
 * description scheduler. A failed operation reports its reason as a
 * `MapError`, whose `Message` is the text the game shows.
 */
module HexMapStore {
  import opened Wrappers
  import opened Grids
  import opened HexGrid
  import opened Constants
  import opened Travel
  import opened Generation

  datatype MapError =
    | HexMissing
    | StillGenerating
    | NeedMovement(terrain: Terrain)
    | NotEnoughMovement
    | NotExplored
    | UnknownTerrain(name: string)

  /** The text shown for a failure; an unknown terrain is a lookup error in the game, shown by its name. */
  function Message(e: MapError): string
  {
    match e
    case HexMissing => "Hex doesn't exist!"
    case StillGenerating => "Still generating..."
    case NeedMovement(t) => "Need " + BaseCostText(t) + " movement points!"
    case NotEnoughMovement => "Not enough movement points!"
    case NotExplored => "Cannot navigate to unexplored hex!"
    case UnknownTerrain(name) => name
  }

  const Placeholder: string := "Awaiting description..."

  /**
   * The random draws of `create_hex` for each coordinate: the roll compared
   * with 0.6 and the index behind `random.choice`.
   */
  datatype TerrainDraws = TerrainDraws(roll: Coord -> real, pick: Coord -> nat)

  /** Every tile is stored under its own coordinates. */
  ghost predicate KeysCoherent(hexes: map<Coord, Hex>)
  {
    forall k :: k in hexes ==> CoordOf(hexes[k]) == k
  }

  /** Every tile's terrain is a catalog key. */
  ghost predicate CatalogTerrains(hexes: map<Coord, Hex>)
  {
    forall k :: k in hexes ==> IsTerrain(hexes[k].terrain)
  }

  /** No tile disappears and no explored tile becomes unexplored. */
  ghost predicate Grows(before: map<Coord, Hex>, after: map<Coord, Hex>)
  {
    (forall k :: k in before ==> k in after) && (forall k :: k in before && before[k].explored ==> after[k].explored)
  }

  /** The terrains of the coordinates of `cs` present in the map, in order. */
  function NeighbourTerrains(hexes: map<Coord, Hex>, cs: seq<Coord>): (ts: seq<string>)
    ensures |ts| <= |cs|
    ensures forall c :: c in cs && c in hexes ==> hexes[c].terrain in ts
    ensures CatalogTerrains(hexes) ==> forall t :: t in ts ==> IsTerrain(t)
    decreases |cs|
  {
    if |cs| == 0 then []
    else
      var c := cs[|cs| - 1];
      var rest := NeighbourTerrains(hexes, cs[..|cs| - 1]);
      assert forall d :: d in cs ==> d in cs[..|cs| - 1] || d == c;
      rest + (if c in hexes then [hexes[c].terrain] else [])
  }

  /**
   * `create_hex`'s choice: a neighbour's terrain when there is one and the
   * roll is below 0.6, otherwise any catalog key.
   */
  function ChooseTerrain(neighbourTerrains: seq<string>, roll: real, pick: nat): (t: string)
    ensures t in neighbourTerrains || t in TerrainKeys()
    ensures |neighbourTerrains| > 0 && roll < 0.6 ==> t in neighbourTerrains
    ensures |neighbourTerrains| == 0 || roll >= 0.6 ==> t in TerrainKeys()
  {
    if |neighbourTerrains| > 0 && roll < 0.6 then neighbourTerrains[pick % |neighbourTerrains|]
    else TerrainKeys()[pick % 8]
  }

  /** A tile just made: unexplored, invisible, awaiting its description. */
  function NewTile(c: Coord, terrain: string): Hex
  {
    Hex(c.q, c.r, c.s, terrain, Placeholder, false, false, true, 999)
  }

  predicate IsNewTile(h: Hex, c: Coord)
  {
    CoordOf(h) == c && h.description == Placeholder && !h.explored && h.generating && h.distanceFromCurrent == 999
  }

  /** The tile `create_hex` makes at `c` given the current map. */
  function CreatedTile(hexes: map<Coord, Hex>, c: Coord, draws: TerrainDraws): (h: Hex)
    ensures IsNewTile(h, c) && !h.visible
    ensures CatalogTerrains(hexes) ==> IsTerrain(h.terrain)
  {
    var ts := NeighbourTerrains(hexes, Neighbors(c));
    var t := ChooseTerrain(ts, draws.roll(c), draws.pick(c));
    NewTile(c, t)
  }

  /** `h` made visible when `shown` holds. */
  function Revealed(h: Hex, shown: bool): Hex
  {
    if shown then h.(visible := true) else h
  }

  /** The coordinates of `cs` missing from the map, in order. */
  function NewIn(hexes: map<Coord, Hex>, cs: seq<Coord>): (ks: seq<Coord>)
    ensures forall c :: c in ks <==> c in cs && c !in hexes
    ensures |ks| <= |cs|
    decreases |cs|
  {
    if |cs| == 0 then []
    else
      var c := cs[|cs| - 1];
      assert forall d :: d in cs <==> d in cs[..|cs| - 1] || d == c;
      NewIn(hexes, cs[..|cs| - 1]) + (if c !in hexes then [c] else [])
  }

  lemma NewInSnoc(hexes: map<Coord, Hex>, cs: seq<Coord>, c: Coord)
    ensures NewIn(hexes, cs + [c]) == NewIn(hexes, cs) + (if c !in hexes then [c] else [])
  {
    assert (cs + [c])[..|cs|] == cs;
  }

  function BatchKeys(batch: seq<BatchItem>): (ks: seq<Coord>)
    ensures |ks| == |batch| && forall i :: 0 <= i < |batch| ==> ks[i] == batch[i].key
  {
    seq(|batch|, i requires 0 <= i < |batch| => batch[i].key)
  }

  lemma BatchKeysSnoc(batch: seq<BatchItem>, item: BatchItem)
    ensures BatchKeys(batch + [item]) == BatchKeys(batch) + [item.key]
  {
  }

  /** The batch entry for a tile: its key, its terrain and its `(q, r)`. */
  function ItemFor(hexes: map<Coord, Hex>, k: Coord): BatchItem
    requires k in hexes
  {
    BatchItem(k, hexes[k].terrain, (k.q, k.r))
  }

  /** Every tile's distance from `c`, computed from its key. */
  function WithDistances(hexes: map<Coord, Hex>, c: Coord): (m: map<Coord, Hex>)
    ensures m.Keys == hexes.Keys
    ensures forall k :: k in m ==> m[k] == hexes[k].(distanceFromCurrent := Distance(c, k))
  {
    map k | k in hexes :: hexes[k].(distanceFromCurrent := Distance(c, k))
  }

  /** The coordinates of `cs` that hold an explored tile, in order. */
  function ExploredAmong(hexes: map<Coord, Hex>, cs: seq<Coord>): (ks: seq<Coord>)
    ensures forall c :: c in ks <==> c in cs && c in hexes && hexes[c].explored
    ensures |ks| <= |cs|
    decreases |cs|
  {
    if |cs| == 0 then []
    else
      var c := cs[|cs| - 1];
      assert forall d :: d in cs <==> d in cs[..|cs| - 1] || d == c;
      ExploredAmong(hexes, cs[..|cs| - 1]) + (if c in hexes && hexes[c].explored then [c] else [])
  }

  // ----- dictionary save and load -----

  /** The dictionary `save_to_json` writes. */
  datatype MapData = MapData(currentPosition: Coord, hexes: seq<HexRecord>, travelData: Option<TravelData>)

  function RecordKey(d: HexRecord): Coord { Coord(d.q, d.r, d.s) }

  /** The coordinates named by the records. */
  function RecordKeys(records: seq<HexRecord>): (ks: set<Coord>)
    ensures forall i :: 0 <= i < |records| ==> RecordKey(records[i]) in ks
    decreases |records|
  {
    if |records| == 0 then {}
    else RecordKeys(records[..|records| - 1]) + {RecordKey(records[|records| - 1])}
  }

  /** Loading the records in order; a later record for the same coordinates replaces an earlier one. */
  function LoadRecords(records: seq<HexRecord>): (r: Option<map<Coord, Hex>>)
    ensures r.Some? <==> forall i :: 0 <= i < |records| ==> FromDict(records[i]).Success?
    ensures r.Some? ==> KeysCoherent(r.value) && r.value.Keys == RecordKeys(records)
    decreases |records|
  {
    if |records| == 0 then Some(map[])
    else
      var prefix := records[..|records| - 1];
      var last := records[|records| - 1];
      var loaded := LoadRecords(prefix);
      assert forall i :: 0 <= i < |prefix| ==> prefix[i] == records[i];
      if loaded.None? then None
      else
        var h := FromDict(last);
        if h.Failure? then None
        else
          assert CoordOf(h.value) == RecordKey(last);
          Some(loaded.value[CoordOf(h.value) := h.value])
  }

  /** A record that fails to load makes every longer list fail too. */
  lemma {:induction false} LoadRecordsPrefix(records: seq<HexRecord>, n: nat)
    requires n <= |records| && LoadRecords(records[..n]).None?
    ensures LoadRecords(records).None?
  {
    var i :| 0 <= i < n && FromDict(records[..n][i]).Failure?;
    assert records[..n][i] == records[i];
  }

  /** A tile as it comes back from its saved record. */
  function Reloaded(h: Hex): Hex
  {
    h.(generating := false, distanceFromCurrent := 999)
  }

  /** Records that each hold the saved form of the tile under their key load back as those tiles, reloaded. */
  lemma {:induction false} LoadSavedRecords(hexes: map<Coord, Hex>, records: seq<HexRecord>)
    requires forall i :: 0 <= i < |records| ==> RecordKey(records[i]) in hexes && records[i] == ToDict(hexes[RecordKey(records[i])])
    requires KeysCoherent(hexes)
    ensures LoadRecords(records).Some?
    ensures forall k :: k in LoadRecords(records).value ==> k in hexes && LoadRecords(records).value[k] == Reloaded(hexes[k])
    decreases |records|
  {
    if |records| > 0 {
      var prefix := records[..|records| - 1];
      var last := records[|records| - 1];
      assert forall i :: 0 <= i < |prefix| ==> prefix[i] == records[i];
      LoadSavedRecords(hexes, prefix);
      HexRoundTrip(hexes[RecordKey(last)]);
    }
  }

  /** Saving every tile once and loading the records back gives every tile back, reloaded. */
  lemma SaveLoadMap(hexes: map<Coord, Hex>, records: seq<HexRecord>)
    requires forall i :: 0 <= i < |records| ==> RecordKey(records[i]) in hexes && records[i] == ToDict(hexes[RecordKey(records[i])])
    requires KeysCoherent(hexes) && RecordKeys(records) == hexes.Keys
    ensures LoadRecords(records) == Some(map k | k in hexes :: Reloaded(hexes[k]))
  {
    LoadSavedRecords(hexes, records);
    var loaded := LoadRecords(records).value;
    var expected := map k | k in hexes :: Reloaded(hexes[k]);
    assert loaded.Keys == expected.Keys;
    assert forall k :: k in loaded ==> loaded[k] == expected[k];
    assert loaded == expected;
  }

  /**
   * After sweeping `done` over `before`: the keys are the old ones plus the
   * swept ones, swept old tiles are visible and otherwise unchanged, the new
   * tiles are fresh and visible, and the batch lists the new keys in sweep order.
   */
  ghost predicate Swept(before: map<Coord, Hex>, after: map<Coord, Hex>, done: seq<Coord>, batch: seq<BatchItem>)
  {
    SweptKeys(before, after, done) && SweptOldTiles(before, after, done) && SweptNewTiles(before, after)
    && SweptBatch(before, after, done, batch)
  }

  ghost predicate SweptBatch(before: map<Coord, Hex>, after: map<Coord, Hex>, done: seq<Coord>, batch: seq<BatchItem>)
  {
    BatchKeys(batch) == NewIn(before, done)
    && (forall j :: 0 <= j < |batch| ==> batch[j].key in after && batch[j] == ItemFor(after, batch[j].key))
  }

  lemma SweepNewBatch(before: map<Coord, Hex>, after: map<Coord, Hex>, done: seq<Coord>, batch: seq<BatchItem>, c: Coord, tile: Hex)
    requires SweptBatch(before, after, done, batch) && c !in before
    requires forall j :: 0 <= j < |batch| ==> batch[j].key != c
    ensures SweptBatch(before, after[c := tile], done + [c], batch + [ItemFor(after[c := tile], c)])
  {
    var after' := after[c := tile];
    var batch' := batch + [ItemFor(after', c)];
    NewInSnoc(before, done, c);
    BatchKeysSnoc(batch, ItemFor(after', c));
    forall j | 0 <= j < |batch'|
      ensures batch'[j].key in after' && batch'[j] == ItemFor(after', batch'[j].key)
    {
      if j < |batch| {
        assert batch'[j] == batch[j];
      }
    }
  }

  ghost predicate SweptKeys(before: map<Coord, Hex>, after: map<Coord, Hex>, done: seq<Coord>)
  {
    forall k :: k in after <==> k in before || k in done
  }

  ghost predicate SweptOldTiles(before: map<Coord, Hex>, after: map<Coord, Hex>, done: seq<Coord>)
  {
    forall k :: k in before ==> k in after && after[k] == Revealed(before[k], k in done)
  }

  ghost predicate SweptNewTiles(before: map<Coord, Hex>, after: map<Coord, Hex>)
  {
    forall k :: k in after && k !in before ==> IsNewTile(after[k], k) && after[k].visible
  }

  lemma SweepNew(before: map<Coord, Hex>, after: map<Coord, Hex>, done: seq<Coord>, batch: seq<BatchItem>, c: Coord, tile: Hex)
    requires Swept(before, after, done, batch) && c !in done && c !in after
    requires IsNewTile(tile, c) && tile.visible
    ensures Swept(before, after[c := tile], done + [c], batch + [ItemFor(after[c := tile], c)])
  {
    assert c !in before;
    forall j | 0 <= j < |batch|
      ensures batch[j].key != c
    {
      assert batch[j].key == BatchKeys(batch)[j];
      assert batch[j].key in NewIn(before, done);
    }
    SweepNewBatch(before, after, done, batch, c, tile);
    assert SweptKeys(before, after, done) && SweptOldTiles(before, after, done) && SweptNewTiles(before, after);
    SweepNewTiles(before, after, done, c, tile);
  }

  lemma SweepNewTiles(before: map<Coord, Hex>, after: map<Coord, Hex>, done: seq<Coord>, c: Coord, tile: Hex)
    requires SweptKeys(before, after, done) && SweptOldTiles(before, after, done) && SweptNewTiles(before, after)
    requires c !in after && IsNewTile(tile, c) && tile.visible
    ensures SweptKeys(before, after[c := tile], done + [c])
    ensures SweptOldTiles(before, after[c := tile], done + [c])
    ensures SweptNewTiles(before, after[c := tile])
  {
    var after' := after[c := tile];
    var done' := done + [c];
    forall k
      ensures k in after' <==> k in before || k in done'
    {
    }
    forall k | k in before
      ensures k in after' && after'[k] == Revealed(before[k], k in done')
    {
      assert k != c && (k in done' <==> k in done);
    }
  }

  lemma SweepOld(before: map<Coord, Hex>, after: map<Coord, Hex>, done: seq<Coord>, batch: seq<BatchItem>, c: Coord)
    requires Swept(before, after, done, batch) && c !in done && c in after
    ensures Swept(before, after[c := after[c].(visible := true)], done + [c], batch)
  {
    var after' := after[c := after[c].(visible := true)];
    var done' := done + [c];
    assert c in before;
    forall k
      ensures k in after' <==> k in before || k in done'
    {
    }
    forall k | k in before
      ensures after'[k] == Revealed(before[k], k in done')
    {
      if k == c {
        assert after[c] == before[c];
      } else {
        assert k in done' <==> k in done;
      }
    }
    forall k | k in after' && k !in before
      ensures IsNewTile(after'[k], k) && after'[k].visible
    {
      assert k != c;
    }
    NewInSnoc(before, done, c);
    forall j | 0 <= j < |batch|
      ensures batch[j].key in after' && batch[j] == ItemFor(after', batch[j].key)
    {
      assert batch[j].key == BatchKeys(batch)[j];
      assert batch[j].key in NewIn(before, done);
      assert batch[j].key != c;
    }
  }

  /**
   * During `initialize_map`, after the centre tile and the neighbours in
   * `done`: the keys are the old ones plus these, other tiles are unchanged,
   * the neighbours are fresh and visible, and the batch lists the centre and
   * then `done`.
   */
  ghost predicate Seeded(before: map<Coord, Hex>, after: map<Coord, Hex>, center: Coord, centerTile: Hex,
                         done: seq<Coord>, batch: seq<BatchItem>)
  {
    center !in done && center in after && after[center] == centerTile
    && (forall k :: k in after <==> k in before || k == center || k in done)
    && (forall k :: k in before && k != center && k !in done ==> after[k] == before[k])
    && (forall n :: n in done ==> IsNewTile(after[n], n) && after[n].visible)
    && BatchKeys(batch) == [center] + done
    && (forall j :: 0 <= j < |batch| ==> batch[j].key in after && batch[j] == ItemFor(after, batch[j].key))
  }

  lemma SeedStep(before: map<Coord, Hex>, after: map<Coord, Hex>, center: Coord, centerTile: Hex, done: seq<Coord>,
                 batch: seq<BatchItem>, c: Coord, tile: Hex)
    requires Seeded(before, after, center, centerTile, done, batch) && c !in done && c != center
    requires IsNewTile(tile, c) && tile.visible
    ensures Seeded(before, after[c := tile], center, centerTile, done + [c], batch + [ItemFor(after[c := tile], c)])
  {
    var after' := after[c := tile];
    var done' := done + [c];
    var batch' := batch + [ItemFor(after', c)];
    forall k
      ensures k in after' <==> k in before || k == center || k in done'
    {
    }
    forall k | k in before && k != center && k !in done'
      ensures after'[k] == before[k]
    {
    }
    forall n | n in done'
      ensures IsNewTile(after'[n], n) && after'[n].visible
    {
    }
    BatchKeysSnoc(batch, ItemFor(after', c));
    assert BatchKeys(batch') == [center] + done';
    forall j | 0 <= j < |batch'|
      ensures batch'[j].key in after' && batch'[j] == ItemFor(after', batch'[j].key)
    {
      if j < |batch| {
        assert batch[j].key == BatchKeys(batch)[j];
        assert batch[j].key in [center] + done;
        assert batch[j].key != c;
      }
    }
  }

  /**
   * The neighbour loop of `initialize_map` over `cs`: each tile is made by
   * `create_hex` on the map as it stands, shown, and stored over whatever
   * was there.
   */
  function SeedFrom(hexes: map<Coord, Hex>, cs: seq<Coord>, draws: TerrainDraws): map<Coord, Hex>
    decreases |cs|
  {
    if |cs| == 0 then hexes
    else
      var m := SeedFrom(hexes, cs[..|cs| - 1], draws);
      m[cs[|cs| - 1] := CreatedTile(m, cs[|cs| - 1], draws).(visible := true)]
  }

  lemma SeedFromSnoc(hexes: map<Coord, Hex>, cs: seq<Coord>, c: Coord, draws: TerrainDraws)
    ensures SeedFrom(hexes, cs + [c], draws)
      == SeedFrom(hexes, cs, draws)[c := CreatedTile(SeedFrom(hexes, cs, draws), c, draws).(visible := true)]
  {
    assert (cs + [c])[..|cs|] == cs;
  }

  /** The next entry of a list without repetitions is not among those before it. */
  lemma NextIsNew(cs: seq<Coord>, i: nat)
    requires Distinct(cs) && i < |cs|
    ensures cs[i] !in cs[..i] && cs[..i + 1] == cs[..i] + [cs[i]]
  {
  }

  /**
   * A coordinate the loop visits once ends as the tile `create_hex` made for
   * it from the tiles placed before it.
   */
  lemma {:induction false} SeedFromAt(hexes: map<Coord, Hex>, cs: seq<Coord>, draws: TerrainDraws, i: nat)
    requires i < |cs| && forall j :: i < j < |cs| ==> cs[j] != cs[i]
    ensures cs[i] in SeedFrom(hexes, cs, draws)
    ensures SeedFrom(hexes, cs, draws)[cs[i]] == CreatedTile(SeedFrom(hexes, cs[..i], draws), cs[i], draws).(visible := true)
    decreases |cs|
  {
    if i < |cs| - 1 {
      var init := cs[..|cs| - 1];
      assert init[..i] == cs[..i];
      SeedFromAt(hexes, init, draws, i);
    } else {
      assert cs[..|cs| - 1] == cs[..i];
    }
  }

  /**
   * What `initialize_map` leaves around a centre: exactly the centre and its
   * six neighbours added, the neighbours fresh and visible, a batch of seven
   * with the centre first, and seven tiles when the map was empty.
   */
  lemma SeededAroundFacts(before: map<Coord, Hex>, after: map<Coord, Hex>, center: Coord, centerTile: Hex, batch: seq<BatchItem>,
                          draws: TerrainDraws)
    requires Seeded(before, after, center, centerTile, Neighbors(center), batch)
    ensures forall k :: k in after <==> k in before || k == center || k in Neighbors(center)
    ensures forall k :: k in before && k != center && k !in Neighbors(center) ==> after[k] == before[k]
    ensures forall n :: n in Neighbors(center) ==> IsNewTile(after[n], n) && after[n].visible
    ensures |batch| == 7 && batch[0].key == center
    ensures forall i :: 0 <= i < 6 ==> batch[i + 1].key == Neighbors(center)[i]
    ensures before == map[] ==> |after| == 7
    ensures after == SeedFrom(before[center := centerTile], Neighbors(center), draws) ==>
      forall i :: 0 <= i < 6 ==>
        after[Neighbors(center)[i]] ==
          CreatedTile(SeedFrom(before[center := centerTile], Neighbors(center)[..i], draws), Neighbors(center)[i], draws).(visible := true)
  {
    var ns := Neighbors(center);
    forall i | 0 <= i < 6 && after == SeedFrom(before[center := centerTile], ns, draws)
      ensures after[ns[i]] == CreatedTile(SeedFrom(before[center := centerTile], ns[..i], draws), ns[i], draws).(visible := true)
    {
      SeedFromAt(before[center := centerTile], ns, draws, i);
    }
    SeededBatch(batch, center);
    if before == map[] {
      SeededFromEmpty(after, center);
    }
  }

  /** A batch keyed by the centre and its neighbours lists them in that order. */
  lemma SeededBatch(batch: seq<BatchItem>, center: Coord)
    requires BatchKeys(batch) == [center] + Neighbors(center)
    ensures |batch| == 7 && batch[0].key == center
    ensures forall i :: 0 <= i < 6 ==> batch[i + 1].key == Neighbors(center)[i]
  {
    var cs := [center] + Neighbors(center);
    forall i | 0 <= i < 6
      ensures batch[i + 1].key == Neighbors(center)[i]
    {
      assert batch[i + 1].key == BatchKeys(batch)[i + 1] == cs[i + 1];
    }
  }

  /** The centre and its six neighbours are seven tiles. */
  lemma SeededFromEmpty(after: map<Coord, Hex>, center: Coord)
    requires forall k :: k in after <==> k == center || k in Neighbors(center)
    ensures |after| == 7
  {
    var cs := [center] + Neighbors(center);
    assert Distinct(cs);
    DistinctCardinality(cs);
    assert after.Keys == set k | k in cs;
  }

  /** The map and the batch while a sweep runs. */
  datatype SweepState = SweepState(hexes: map<Coord, Hex>, batch: seq<BatchItem>)

  /** One coordinate of a sweep, as `explore_hex` and `rest_and_scout` handle it. */
  function ScoutStep(st: SweepState, c: Coord, draws: TerrainDraws): SweepState
  {
    if c !in st.hexes then
      var m := st.hexes[c := CreatedTile(st.hexes, c, draws).(visible := true)];
      SweepState(m, st.batch + [ItemFor(m, c)])
    else SweepState(st.hexes[c := st.hexes[c].(visible := true)], st.batch)
  }

  /** The sweep over `cs`, in order, from an empty batch. */
  function Scouted(hexes: map<Coord, Hex>, cs: seq<Coord>, draws: TerrainDraws): SweepState
    decreases |cs|
  {
    if |cs| == 0 then SweepState(hexes, [])
    else ScoutStep(Scouted(hexes, cs[..|cs| - 1], draws), cs[|cs| - 1], draws)
  }

  /** A sweep keeps every tile under its own key and every terrain in the catalog. */
  lemma {:induction false} ScoutedKeepsInvariants(hexes: map<Coord, Hex>, cs: seq<Coord>, draws: TerrainDraws)
    ensures KeysCoherent(hexes) ==> KeysCoherent(Scouted(hexes, cs, draws).hexes)
    ensures CatalogTerrains(hexes) ==> CatalogTerrains(Scouted(hexes, cs, draws).hexes)
    decreases |cs|
  {
    if |cs| > 0 {
      ScoutedKeepsInvariants(hexes, cs[..|cs| - 1], draws);
      var st := Scouted(hexes, cs[..|cs| - 1], draws);
      var c := cs[|cs| - 1];
      if c !in st.hexes {
        var h := CreatedTile(st.hexes, c, draws);
        assert CatalogTerrains(st.hexes) ==> IsTerrain(h.terrain);
      }
    }
  }

  /**
   * A sweep over distinct coordinates adds exactly the missing ones as fresh
   * visible tiles, makes the others visible, and batches the new ones in order.
   */
  lemma {:induction false} ScoutedSweeps(hexes: map<Coord, Hex>, cs: seq<Coord>, draws: TerrainDraws)
    requires Distinct(cs)
    ensures Swept(hexes, Scouted(hexes, cs, draws).hexes, cs, Scouted(hexes, cs, draws).batch)
    decreases |cs|
  {
    if |cs| == 0 {
      assert Swept(hexes, hexes, cs, []);
    } else {
      var prefix := cs[..|cs| - 1];
      var c := cs[|cs| - 1];
      assert Distinct(prefix) by {
        forall i, j | 0 <= i < j < |prefix| ensures prefix[i] != prefix[j] {
          assert prefix[i] == cs[i] && prefix[j] == cs[j];
        }
      }
      assert c !in prefix by {
        forall i | 0 <= i < |prefix| ensures prefix[i] != c {
          assert prefix[i] == cs[i];
        }
      }
      assert cs == prefix + [c];
      ScoutedSweeps(hexes, prefix, draws);
      var st := Scouted(hexes, prefix, draws);
      if c !in st.hexes {
        SweepNew(hexes, st.hexes, prefix, st.batch, c, CreatedTile(st.hexes, c, draws).(visible := true));
      } else {
        SweepOld(hexes, st.hexes, prefix, st.batch, c);
      }
    }
  }

  /** Every tile whose key is listed made visible; nothing else changes. */
  function RevealedAmong(hexes: map<Coord, Hex>, cs: seq<Coord>): (m: map<Coord, Hex>)
    ensures m.Keys == hexes.Keys
    ensures forall k :: k in m ==> m[k] == Revealed(hexes[k], k in cs)
  {
    map k | k in hexes :: Revealed(hexes[k], k in cs)
  }

  /** A finished sweep leaves every swept coordinate present and visible. */
  lemma SweptVisible(before: map<Coord, Hex>, after: map<Coord, Hex>, done: seq<Coord>, batch: seq<BatchItem>)
    requires Swept(before, after, done, batch)
    ensures forall k :: k in done ==> k in after && after[k].visible
    ensures Grows(before, after)
  {
    forall k | k in done
      ensures k in after && after[k].visible
    {
      if k in before {
        assert after[k] == Revealed(before[k], true);
      }
    }
  }

  /** What `explore_hex` does to the tiles once the move is allowed. */
  function ExploredMap(hexes: map<Coord, Hex>, c: Coord, draws: TerrainDraws): map<Coord, Hex>
    requires c in hexes
  {
    WithDistances(Scouted(ExploreStart(hexes, c), Neighbors(c), draws).hexes, c)
  }

  /** The batch `explore_hex` hands to the scheduler. */
  function ExploredBatch(hexes: map<Coord, Hex>, c: Coord, draws: TerrainDraws): seq<BatchItem>
    requires c in hexes
  {
    Scouted(ExploreStart(hexes, c), Neighbors(c), draws).batch
  }

  /** The tiles `explore_hex` starts its sweep from: the target marked explored. */
  function ExploreStart(hexes: map<Coord, Hex>, c: Coord): (m: map<Coord, Hex>)
    requires c in hexes
    ensures m.Keys == hexes.Keys && m[c].explored && Grows(hexes, m)
    ensures KeysCoherent(hexes) ==> KeysCoherent(m)
    ensures CatalogTerrains(hexes) ==> CatalogTerrains(m)
  {
    hexes[c := hexes[c].(explored := true)]
  }

  /** The sweep around the explored target keeps it explored and makes every neighbour visible. */
  lemma ExploreSweepFacts(hexes: map<Coord, Hex>, c: Coord, draws: TerrainDraws)
    requires c in hexes
    ensures c in Scouted(ExploreStart(hexes, c), Neighbors(c), draws).hexes
    ensures Scouted(ExploreStart(hexes, c), Neighbors(c), draws).hexes[c].explored
    ensures forall n :: n in Neighbors(c) ==>
      n in Scouted(ExploreStart(hexes, c), Neighbors(c), draws).hexes
      && Scouted(ExploreStart(hexes, c), Neighbors(c), draws).hexes[n].visible
    ensures Grows(hexes, Scouted(ExploreStart(hexes, c), Neighbors(c), draws).hexes)
    ensures forall k :: k in Scouted(ExploreStart(hexes, c), Neighbors(c), draws).hexes <==> k in hexes || k in Neighbors(c)
    ensures BatchKeys(ExploredBatch(hexes, c, draws)) == NewIn(hexes, Neighbors(c))
  {
    var start := ExploreStart(hexes, c);
    ScoutedSweeps(start, Neighbors(c), draws);
    var st := Scouted(start, Neighbors(c), draws);
    SweptVisible(start, st.hexes, Neighbors(c), st.batch);
    assert c !in Neighbors(c);
    assert st.hexes[c] == start[c];
    NewInSameKeys(start, hexes, Neighbors(c));
  }

  /**
   * After `explore_hex`: the target is explored, every neighbour exists and
   * is visible, no tile is lost or unexplored, every distance is measured
   * from the target, and the new tiles are exactly the missing neighbours.
   */
  lemma ExploredMapFacts(hexes: map<Coord, Hex>, c: Coord, draws: TerrainDraws)
    requires c in hexes && KeysCoherent(hexes)
    ensures c in ExploredMap(hexes, c, draws) && ExploredMap(hexes, c, draws)[c].explored
    ensures forall n :: n in Neighbors(c) ==> n in ExploredMap(hexes, c, draws) && ExploredMap(hexes, c, draws)[n].visible
    ensures Grows(hexes, ExploredMap(hexes, c, draws)) && KeysCoherent(ExploredMap(hexes, c, draws))
    ensures forall k :: k in ExploredMap(hexes, c, draws) ==> ExploredMap(hexes, c, draws)[k].distanceFromCurrent == Distance(c, k)
    ensures forall k :: k in ExploredMap(hexes, c, draws) <==> k in hexes || k in Neighbors(c)
    ensures BatchKeys(ExploredBatch(hexes, c, draws)) == NewIn(hexes, Neighbors(c))
    ensures CatalogTerrains(hexes) ==> CatalogTerrains(ExploredMap(hexes, c, draws))
  {
    ExploreSweepFacts(hexes, c, draws);
    ScoutedKeepsInvariants(ExploreStart(hexes, c), Neighbors(c), draws);
  }

  /** `NewIn` only looks at which keys are present. */
  lemma {:induction false} NewInSameKeys(a: map<Coord, Hex>, b: map<Coord, Hex>, cs: seq<Coord>)
    requires a.Keys == b.Keys
    ensures NewIn(a, cs) == NewIn(b, cs)
    decreases |cs|
  {
    if |cs| > 0 {
      NewInSameKeys(a, b, cs[..|cs| - 1]);
    }
  }

  /** The loop of `calculate_distances`: each tile in turn gets its distance from `c`. */
  method MeasureDistances(tiles: map<Coord, Hex>, c: Coord) returns (m: map<Coord, Hex>)
    requires KeysCoherent(tiles)
    ensures KeysCoherent(m)
    ensures m == WithDistances(tiles, c)
  {
    m := tiles;
    var keys := m.Keys;
    while keys != {}
      invariant keys <= m.Keys && m.Keys == tiles.Keys
      invariant forall k :: k in m ==>
        m[k] == (if k in keys then tiles[k] else tiles[k].(distanceFromCurrent := Distance(c, k)))
      decreases |keys|
    {
      var k :| k in keys;
      m := m[k := m[k].(distanceFromCurrent := Distance(c, k))];
      keys := keys - {k};
    }
  }

  /** The record is the saved form of the tile at its coordinates. */
  predicate SavedFrom(hexes: map<Coord, Hex>, d: HexRecord)
  {
    RecordKey(d) in hexes && d == ToDict(hexes[RecordKey(d)])
  }

  /** One record per tile, in the iteration order of the tiles. */
  method TileRecords(hexes: map<Coord, Hex>) returns (records: seq<HexRecord>)
    requires KeysCoherent(hexes)
    ensures |records| == |hexes| && RecordKeys(records) == hexes.Keys
    ensures forall i :: 0 <= i < |records| ==>
      RecordKey(records[i]) in hexes && records[i] == ToDict(hexes[RecordKey(records[i])])
  {
    records := [];
    var keys := hexes.Keys;
    while keys != {}
      invariant SavingTiles(hexes, records, keys)
      decreases |keys|
    {
      var k :| k in keys;
      SavingStep(hexes, records, keys, k);
      records := records + [ToDict(hexes[k])];
      keys := keys - {k};
    }
    assert forall i :: 0 <= i < |records| ==> SavedFrom(hexes, records[i]);
  }

  /** Part way through saving: `records` hold the tiles not in `keys`, once each. */
  ghost predicate SavingTiles(hexes: map<Coord, Hex>, records: seq<HexRecord>, keys: set<Coord>)
  {
    keys <= hexes.Keys
    && RecordKeys(records) + keys == hexes.Keys && RecordKeys(records) !! keys
    && |records| + |keys| == |hexes|
    && forall i :: 0 <= i < |records| ==> SavedFrom(hexes, records[i])
  }

  lemma SavingStep(hexes: map<Coord, Hex>, records: seq<HexRecord>, keys: set<Coord>, k: Coord)
    requires KeysCoherent(hexes) && SavingTiles(hexes, records, keys) && k in keys
    ensures SavingTiles(hexes, records + [ToDict(hexes[k])], keys - {k})
  {
    var d := ToDict(hexes[k]);
    assert RecordKey(d) == k;
    RecordKeysSnoc(records, d);
    assert SavedFrom(hexes, d);
    var records' := records + [d];
    forall i | 0 <= i < |records'|
      ensures SavedFrom(hexes, records'[i])
    {
      if i < |records| {
        assert records'[i] == records[i];
      }
    }
  }

  lemma RecordKeysSnoc(records: seq<HexRecord>, d: HexRecord)
    ensures RecordKeys(records + [d]) == RecordKeys(records) + {RecordKey(d)}
  {
    assert (records + [d])[..|records|] == records;
  }

  class HexMap {
    var hexes: map<Coord, Hex>
    const genManager: GenerationManager
    var currentPosition: Coord
    const travel: TravelSystem

    ghost predicate Valid()
      reads this, travel, genManager
    {
      travel.Valid() && genManager.Valid() && KeysCoherent(hexes)
    }

    constructor(generationManager: GenerationManager)
      requires generationManager.Valid()
      ensures Valid() && fresh(travel)
      ensures hexes == map[] && currentPosition == Origin && genManager == generationManager
      ensures travel.Fields() == DefaultFields() && travel.maxMovement == 8 && !travel.isResting
    {
      hexes := map[];
      genManager := generationManager;
      currentPosition := Origin;
      travel := new TravelSystem();
    }

    /** `create_hex`: gather the neighbours' terrains, then choose. */
    method CreateHex(q: int, r: int, s: int, draws: TerrainDraws) returns (h: Hex)
      ensures h == CreatedTile(hexes, Coord(q, r, s), draws)
    {
      var c := Coord(q, r, s);
      var neighbors := Neighbors(c);
      var neighbourTerrains: seq<string> := [];
      var i := 0;
      while i < |neighbors|
        invariant 0 <= i <= |neighbors|
        invariant neighbourTerrains == NeighbourTerrains(hexes, neighbors[..i])
      {
        var n := neighbors[i];
        if n in hexes {
          neighbourTerrains := neighbourTerrains + [hexes[n].terrain];
        }
        assert neighbors[..i + 1][..i] == neighbors[..i];
        i := i + 1;
      }
      assert neighbors[..i] == neighbors;
      var terrain := ChooseTerrain(neighbourTerrains, draws.roll(c), draws.pick(c));
      h := NewTile(c, terrain);
    }

    /**
     * One coordinate of a scouting sweep: create it visible when missing,
     * else make it visible; a created tile joins the batch.
     */
    method ScoutOne(c: Coord, draws: TerrainDraws, batch: seq<BatchItem>) returns (batch': seq<BatchItem>)
      modifies this
      ensures SweepState(hexes, batch') == ScoutStep(SweepState(old(hexes), batch), c, draws)
      ensures currentPosition == old(currentPosition)
    {
      if c !in hexes {
        var h := CreateHex(c.q, c.r, c.s, draws);
        h := h.(visible := true);
        hexes := hexes[c := h];
        batch' := batch + [ItemFor(hexes, c)];
      } else {
        hexes := hexes[c := hexes[c].(visible := true)];
        batch' := batch;
      }
    }

    /**
     * The sweep shared by `explore_hex` and `rest_and_scout`: every listed
     * coordinate ends up present and visible, and the batch lists the new
     * tiles in order (`ScoutedSweeps` states this of `Scouted`).
     */
    method Scout(cs: seq<Coord>, draws: TerrainDraws) returns (batch: seq<BatchItem>)
      requires KeysCoherent(hexes) && Distinct(cs)
      modifies this
      ensures SweepState(hexes, batch) == Scouted(old(hexes), cs, draws)
      ensures KeysCoherent(hexes) && currentPosition == old(currentPosition)
      ensures Swept(old(hexes), hexes, cs, batch)
      ensures CatalogTerrains(old(hexes)) ==> CatalogTerrains(hexes)
    {
      batch := [];
      var i := 0;
      while i < |cs|
        invariant 0 <= i <= |cs|
        invariant currentPosition == old(currentPosition)
        invariant SweepState(hexes, batch) == Scouted(old(hexes), cs[..i], draws)
      {
        assert cs[..i + 1][..i] == cs[..i];
        batch := ScoutOne(cs[i], draws, batch);
        i := i + 1;
      }
      assert cs[..i] == cs;
      ScoutedSweeps(old(hexes), cs, draws);
      ScoutedKeepsInvariants(old(hexes), cs, draws);
    }

    /** Make the listed coordinates that hold a tile visible. */
    method RevealExisting(cs: seq<Coord>)
      requires KeysCoherent(hexes)
      modifies this
      ensures KeysCoherent(hexes) && currentPosition == old(currentPosition)
      ensures hexes.Keys == old(hexes).Keys
      ensures forall k :: k in hexes ==> hexes[k] == Revealed(old(hexes)[k], k in cs)
    {
      var i := 0;
      while i < |cs|
        invariant 0 <= i <= |cs|
        invariant KeysCoherent(hexes) && currentPosition == old(currentPosition)
        invariant hexes.Keys == old(hexes).Keys
        invariant forall k :: k in hexes ==> hexes[k] == Revealed(old(hexes)[k], k in cs[..i])
      {
        var c := cs[i];
        if c in hexes {
          hexes := hexes[c := hexes[c].(visible := true)];
        }
        assert cs[..i + 1] == cs[..i] + [c];
        i := i + 1;
      }
      assert cs[..i] == cs;
    }

    /** One neighbour during `initialize_map`: created visible and queued, replacing any tile there. */
    method SeedOne(c: Coord, draws: TerrainDraws, ghost start: map<Coord, Hex>, ghost center: Coord, ghost centerTile: Hex,
                   ghost done: seq<Coord>, batch: seq<BatchItem>)
      returns (batch': seq<BatchItem>)
      requires KeysCoherent(hexes) && Seeded(start, hexes, center, centerTile, done, batch) && c !in done && c != center
      requires CatalogTerrains(start) ==> CatalogTerrains(hexes)
      requires hexes == SeedFrom(start[center := centerTile], done, draws)
      modifies this
      ensures KeysCoherent(hexes) && currentPosition == old(currentPosition)
      ensures Seeded(start, hexes, center, centerTile, done + [c], batch')
      ensures CatalogTerrains(start) ==> CatalogTerrains(hexes)
      ensures hexes == old(hexes)[c := CreatedTile(old(hexes), c, draws).(visible := true)]
      ensures hexes == SeedFrom(start[center := centerTile], done + [c], draws)
    {
      SeedFromSnoc(start[center := centerTile], done, c, draws);
      var h := CreateHex(c.q, c.r, c.s, draws);
      h := h.(visible := true);
      SeedStep(start, hexes, center, centerTile, done, batch, c, h);
      hexes := hexes[c := h];
      batch' := batch + [ItemFor(hexes, c)];
    }

    /** The centre of `initialize_map`: created explored and visible, and queued first. */
    method SeedCenter(center: Coord, draws: TerrainDraws) returns (start: Hex, batch: seq<BatchItem>)
      requires KeysCoherent(hexes)
      modifies this
      ensures KeysCoherent(hexes) && currentPosition == old(currentPosition)
      ensures start == CreatedTile(old(hexes), center, draws).(explored := true, visible := true)
      ensures Seeded(old(hexes), hexes, center, start, [], batch)
      ensures CatalogTerrains(old(hexes)) ==> CatalogTerrains(hexes)
      ensures hexes == old(hexes)[center := start]
    {
      start := CreateHex(center.q, center.r, center.s, draws);
      start := start.(explored := true, visible := true);
      hexes := hexes[center := start];
      batch := [ItemFor(hexes, center)];
      assert BatchKeys(batch) == [center];
    }

    /**
     * The neighbour loop of `initialize_map`: each neighbour of `center` in
     * turn created from the tiles placed so far, shown, and queued.
     */
    method SeedNeighbours(center: Coord, draws: TerrainDraws, ghost start: map<Coord, Hex>, ghost centerTile: Hex,
                          batch0: seq<BatchItem>)
      returns (batch: seq<BatchItem>)
      requires KeysCoherent(hexes) && Seeded(start, hexes, center, centerTile, [], batch0)
      requires CatalogTerrains(start) ==> CatalogTerrains(hexes)
      requires hexes == start[center := centerTile]
      modifies this
      ensures KeysCoherent(hexes) && currentPosition == old(currentPosition)
      ensures Seeded(start, hexes, center, centerTile, Neighbors(center), batch)
      ensures CatalogTerrains(start) ==> CatalogTerrains(hexes)
      ensures hexes == SeedFrom(start[center := centerTile], Neighbors(center), draws)
    {
      batch := batch0;
      var neighbors := Neighbors(center);
      assert neighbors[..0] == [];
      var i := 0;
      while i < 6
        invariant 0 <= i <= 6
        invariant KeysCoherent(hexes) && currentPosition == old(currentPosition)
        invariant Seeded(start, hexes, center, centerTile, neighbors[..i], batch)
        invariant CatalogTerrains(start) ==> CatalogTerrains(hexes)
        invariant hexes == SeedFrom(start[center := centerTile], neighbors[..i], draws)
      {
        NextIsNew(neighbors, i);
        batch := SeedOne(neighbors[i], draws, start, center, centerTile, neighbors[..i], batch);
        i := i + 1;
      }
      assert neighbors[..6] == neighbors;
    }

    /**
     * The tiles of `initialize_map` around `center` (the origin there): the
     * centre explored and visible, its six neighbours visible, all seven
     * fresh and listed in the batch, centre first, each neighbour made by
     * `create_hex` from the tiles placed before it.
     */
    method SeedAround(center: Coord, draws: TerrainDraws) returns (batch: seq<BatchItem>)
      requires KeysCoherent(hexes)
      modifies this
      ensures KeysCoherent(hexes) && currentPosition == old(currentPosition)
      ensures Seeded(old(hexes), hexes, center, CreatedTile(old(hexes), center, draws).(explored := true, visible := true),
                     Neighbors(center), batch)
      ensures CatalogTerrains(old(hexes)) ==> CatalogTerrains(hexes)
      ensures hexes == SeedFrom(old(hexes)[center := CreatedTile(old(hexes), center, draws).(explored := true, visible := true)],
                                Neighbors(center), draws)
    {
      var start, batch0 := SeedCenter(center, draws);
      batch := SeedNeighbours(center, draws, old(hexes), start, batch0);
    }

    /**
     * `initialize_map`: the origin and its six neighbours created as
     * `SeedAround` describes (`SeededAroundFacts` spells this out), and
     * queued as one "scouting" batch unless a batch is already running.
     */
    method InitializeMap(draws: TerrainDraws) returns (ghost batch: seq<BatchItem>)
      requires Valid()
      modifies this, genManager
      ensures Valid() && currentPosition == old(currentPosition)
      ensures Seeded(old(hexes), hexes, Coord(0, 0, 0),
                     CreatedTile(old(hexes), Coord(0, 0, 0), draws).(explored := true, visible := true),
                     Neighbors(Coord(0, 0, 0)), batch)
      ensures CatalogTerrains(old(hexes)) ==> CatalogTerrains(hexes)
      ensures hexes == SeedFrom(old(hexes)[Coord(0, 0, 0) := CreatedTile(old(hexes), Coord(0, 0, 0), draws).(explored := true, visible := true)],
                                Neighbors(Coord(0, 0, 0)), draws)
      ensures !old(genManager.generating) ==>
        genManager.hexesToGenerate == batch && genManager.generating && genManager.generationType == "scouting"
        && genManager.completedHexes == 0 && !genManager.cancelGeneration
      ensures old(genManager.generating) ==> genManager.hexesToGenerate == old(genManager.hexesToGenerate)
    {
      var created := SeedAround(Coord(0, 0, 0), draws);
      batch := created;
      genManager.StartGeneration(created, "scouting");
    }

    /** `get_adjacent_explored`: the neighbours that exist and are explored. */
    function GetAdjacentExplored(q: int, r: int, s: int): (cs: seq<Coord>)
      reads this
      ensures |cs| <= 6
      ensures forall c :: c in cs <==> c in Neighbors(Coord(q, r, s)) && c in hexes && hexes[c].explored
    {
      ExploredAmong(hexes, Neighbors(Coord(q, r, s)))
    }

    /**
     * `explore_hex`: refused when the hex is missing, still being described,
     * of unknown terrain or out of reach, leaving everything unchanged;
     * otherwise moves there, explores it, scouts its neighbours, queues the
     * new ones as a "scouting" batch and measures all distances from it.
     */
    method ExploreHex(q: int, r: int, s: int, supplyRoll: real, draws: TerrainDraws) returns (result: Outcome<MapError>)
      requires Valid()
      modifies this, travel, genManager
      ensures Valid()
      ensures Coord(q, r, s) !in old(hexes) ==> result == Fail(HexMissing)
      ensures Coord(q, r, s) in old(hexes) && old(hexes)[Coord(q, r, s)].generating ==> result == Fail(StillGenerating)
      ensures Coord(q, r, s) in old(hexes) && !old(hexes)[Coord(q, r, s)].generating
              && ParseTerrain(old(hexes)[Coord(q, r, s)].terrain).None? ==>
        result == Fail(UnknownTerrain(old(hexes)[Coord(q, r, s)].terrain))
      ensures Coord(q, r, s) in old(hexes) && !old(hexes)[Coord(q, r, s)].generating
              && ParseTerrain(old(hexes)[Coord(q, r, s)].terrain).Some? ==>
        var t := ParseTerrain(old(hexes)[Coord(q, r, s)].terrain).value;
        (result.Pass? <==> old(travel.CanMoveTo(t)))
        && (result.Fail? ==> result == Fail(NeedMovement(t)))
        && (result.Pass? ==>
              travel.Fields() == Moved(old(travel.Fields()), old(travel.GetMovementCost(t)), travel.maxMovement, supplyRoll))
      ensures result.Fail? ==>
        hexes == old(hexes) && currentPosition == old(currentPosition) && travel.Fields() == old(travel.Fields())
        && genManager.hexesToGenerate == old(genManager.hexesToGenerate) && genManager.generating == old(genManager.generating)
      ensures result.Pass? ==>
        Coord(q, r, s) in old(hexes) && currentPosition == Coord(q, r, s)
        && hexes == ExploredMap(old(hexes), Coord(q, r, s), draws)
        && (|ExploredBatch(old(hexes), Coord(q, r, s), draws)| > 0 && !old(genManager.generating) ==>
              genManager.hexesToGenerate == ExploredBatch(old(hexes), Coord(q, r, s), draws)
              && genManager.generating && genManager.generationType == "scouting")
        && (|ExploredBatch(old(hexes), Coord(q, r, s), draws)| == 0 || old(genManager.generating) ==>
              genManager.hexesToGenerate == old(genManager.hexesToGenerate))
      ensures Grows(old(hexes), hexes)
      ensures CatalogTerrains(old(hexes)) ==> CatalogTerrains(hexes)
    {
      var c := Coord(q, r, s);
      if c !in hexes {
        return Fail(HexMissing);
      }
      var tile := hexes[c];
      if tile.generating {
        return Fail(StillGenerating);
      }
      var terrain := ParseTerrain(tile.terrain);
      if terrain.None? {
        return Fail(UnknownTerrain(tile.terrain));
      }
      if !travel.CanMoveTo(terrain.value) {
        return Fail(NeedMovement(terrain.value));
      }
      ghost var before := hexes;
      var _ := travel.MoveToHex(terrain.value, supplyRoll);
      hexes := hexes[c := tile.(explored := true)];
      currentPosition := c;
      var batch := Scout(Neighbors(c), draws);
      if |batch| > 0 {
        genManager.StartGeneration(batch, "scouting");
      }
      CalculateDistances();
      ExploredMapFacts(before, c, draws);
      return Pass;
    }

    /**
     * `navigate_to_hex`: only onto an explored hex within reach; moves there,
     * makes the existing neighbours visible and measures all distances from it.
     */
    method NavigateToHex(q: int, r: int, s: int, supplyRoll: real) returns (result: Outcome<MapError>)
      requires Valid()
      modifies this, travel
      ensures Valid()
      ensures !(Coord(q, r, s) in old(hexes) && old(hexes)[Coord(q, r, s)].explored) ==> result == Fail(NotExplored)
      ensures Coord(q, r, s) in old(hexes) && old(hexes)[Coord(q, r, s)].explored
              && ParseTerrain(old(hexes)[Coord(q, r, s)].terrain).None? ==>
        result == Fail(UnknownTerrain(old(hexes)[Coord(q, r, s)].terrain))
      ensures Coord(q, r, s) in old(hexes) && old(hexes)[Coord(q, r, s)].explored
              && ParseTerrain(old(hexes)[Coord(q, r, s)].terrain).Some? ==>
        var t := ParseTerrain(old(hexes)[Coord(q, r, s)].terrain).value;
        (result.Pass? <==> old(travel.CanMoveTo(t)))
        && (result.Fail? ==> result == Fail(NotEnoughMovement))
        && (result.Pass? ==>
              travel.Fields() == Moved(old(travel.Fields()), old(travel.GetMovementCost(t)), travel.maxMovement, supplyRoll))
      ensures result.Fail? ==>
        hexes == old(hexes) && currentPosition == old(currentPosition) && travel.Fields() == old(travel.Fields())
      ensures result.Pass? ==>
        currentPosition == Coord(q, r, s)
        && hexes == WithDistances(RevealedAmong(old(hexes), Neighbors(Coord(q, r, s))), Coord(q, r, s))
      ensures Grows(old(hexes), hexes) && hexes.Keys == old(hexes).Keys
    {
      var c := Coord(q, r, s);
      if c in hexes && hexes[c].explored {
        var terrain := ParseTerrain(hexes[c].terrain);
        if terrain.None? {
          return Fail(UnknownTerrain(hexes[c].terrain));
        }
        if !travel.CanMoveTo(terrain.value) {
          return Fail(NotEnoughMovement);
        }
        var _ := travel.MoveToHex(terrain.value, supplyRoll);
        currentPosition := c;
        RevealExisting(Neighbors(c));
        CalculateDistances();
        return Pass;
      }
      return Fail(NotExplored);
    }

    /**
     * `rest_and_scout`: rest, then sweep every hex within two steps of the
     * current position, queueing any new ones as a "resting" batch. The
     * distances are not recomputed.
     */
    method RestAndScout(draws: TerrainDraws)
      requires Valid()
      modifies this, travel, genManager
      ensures Valid() && currentPosition == old(currentPosition)
      ensures travel.isResting && travel.Fields() == Rested(old(travel.Fields()), travel.maxMovement)
      ensures var st := Scouted(old(hexes), RadiusList(currentPosition, 2), draws);
        hexes == st.hexes
        && (|st.batch| > 0 && !old(genManager.generating) ==>
              genManager.hexesToGenerate == st.batch && genManager.generating && genManager.generationType == "resting")
        && (|st.batch| == 0 || old(genManager.generating) ==> genManager.hexesToGenerate == old(genManager.hexesToGenerate))
      ensures forall x :: CoordSum(x) == CoordSum(currentPosition) && Distance(currentPosition, x) <= 2 ==>
        x in hexes && hexes[x].visible
      ensures Grows(old(hexes), hexes)
      ensures CatalogTerrains(old(hexes)) ==> CatalogTerrains(hexes)
    {
      travel.Rest();
      var batch := ScoutAround(draws);
      if |batch| > 0 {
        genManager.StartGeneration(batch, "resting");
      }
    }

    /** The sweep of `rest_and_scout` over the hexes within two steps. */
    method ScoutAround(draws: TerrainDraws) returns (batch: seq<BatchItem>)
      requires KeysCoherent(hexes)
      modifies this
      ensures KeysCoherent(hexes) && currentPosition == old(currentPosition)
      ensures SweepState(hexes, batch) == Scouted(old(hexes), RadiusList(currentPosition, 2), draws)
      ensures forall x :: CoordSum(x) == CoordSum(currentPosition) && Distance(currentPosition, x) <= 2 ==>
        x in hexes && hexes[x].visible
      ensures Grows(old(hexes), hexes)
      ensures CatalogTerrains(old(hexes)) ==> CatalogTerrains(hexes)
    {
      var cs := HexesWithinRadius(currentPosition, 2);
      batch := Scout(cs, draws);
      SweptVisible(old(hexes), hexes, cs, batch);
    }

    /** `save_to_json` without the file: the position, one record per tile and the travel record. */
    method SaveToData() returns (data: MapData)
      requires Valid()
      ensures data.currentPosition == currentPosition && data.travelData == Some(travel.GetSaveData())
      ensures |data.hexes| == |hexes| && RecordKeys(data.hexes) == hexes.Keys
      ensures forall i :: 0 <= i < |data.hexes| ==>
        RecordKey(data.hexes[i]) in hexes && data.hexes[i] == ToDict(hexes[RecordKey(data.hexes[i])])
      ensures LoadRecords(data.hexes) == Some(map k | k in hexes :: Reloaded(hexes[k]))
    {
      var records := TileRecords(hexes);
      SaveLoadMap(hexes, records);
      data := MapData(currentPosition, records, Some(travel.GetSaveData()));
    }

    /**
     * `load_from_json` without the file: replace the tiles by the loaded
     * records, load the travel record when there is one, and measure all
     * distances. A record that fails to load stops the load.
     */
    method LoadFromData(data: MapData) returns (ok: bool)
      requires Valid()
      modifies this, travel
      ensures Valid()
      ensures ok <==> LoadRecords(data.hexes).Some?
                      && (data.travelData.None? || DecodeTravelData(data.travelData.value).Some?)
      ensures ok ==>
        currentPosition == data.currentPosition
        && hexes == WithDistances(LoadRecords(data.hexes).value, data.currentPosition)
        && (data.travelData.Some? ==> travel.Fields() == DecodeTravelData(data.travelData.value).value)
        && (data.travelData.None? ==> travel.Fields() == old(travel.Fields()))
    {
      hexes := map[];
      currentPosition := data.currentPosition;
      var i := 0;
      while i < |data.hexes|
        invariant 0 <= i <= |data.hexes|
        invariant currentPosition == data.currentPosition && travel.Valid()
        invariant LoadRecords(data.hexes[..i]) == Some(hexes)
        invariant travel.Fields() == old(travel.Fields())
      {
        assert data.hexes[..i + 1][..i] == data.hexes[..i];
        var decoded := FromDict(data.hexes[i]);
        if decoded.Failure? {
          assert !LoadRecords(data.hexes).Some? by {
            assert !LoadRecords(data.hexes[..i + 1]).Some?;
            LoadRecordsPrefix(data.hexes, i + 1);
          }
          return false;
        }
        hexes := hexes[CoordOf(decoded.value) := decoded.value];
        i := i + 1;
      }
      assert data.hexes[..i] == data.hexes;
      if data.travelData.Some? {
        var loaded := travel.LoadFromData(data.travelData.value);
        if !loaded {
          return false;
        }
      }
      CalculateDistances();
      return true;
    }

    /**
     * The description worker run on this map's tiles: the processed items'
     * tiles get their descriptions and nothing else about the map changes.
     */
    method RunGenerationWorker(generate: (string, (int, int)) -> string, cancelBefore: nat -> bool)
      requires Valid() && genManager.completedHexes == 0
      modifies this, genManager
      ensures Valid() && currentPosition == old(currentPosition)
      ensures genManager.hexesToGenerate == old(genManager.hexesToGenerate)
      ensures hexes == ApplyBatch(old(hexes), genManager.hexesToGenerate[..genManager.completedHexes], generate)
      ensures hexes.Keys == old(hexes).Keys
      ensures forall k :: k in hexes ==>
        hexes[k] == old(hexes)[k].(description := hexes[k].description, generating := hexes[k].generating)
      ensures Grows(old(hexes), hexes)
      ensures CatalogTerrains(old(hexes)) ==> CatalogTerrains(hexes)
    {
      ghost var before := hexes;
      hexes := genManager.GenerateWorker(hexes, generate, cancelBefore);
      ApplyBatchFrame(before, genManager.hexesToGenerate[..genManager.completedHexes], generate);
    }

    /** `calculate_distances`: every tile's distance from the current position. */
    method CalculateDistances()
      requires KeysCoherent(hexes)
      modifies this
      ensures KeysCoherent(hexes) && currentPosition == old(currentPosition)
      ensures hexes == WithDistances(old(hexes), currentPosition)
    {
      hexes := MeasureDistances(hexes, currentPosition);
    }
  }
}
