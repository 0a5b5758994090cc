/**
 * The rules the explorer screen applies to the travel state: the transport
 * change gated by the current tile, the pace key's three-step cycle, and
 * resupply in towns and at the starting hex.
 */
module Explorer {
  import opened Wrappers
  import opened Strings
  import opened HexGrid
  import opened Constants
  import opened Travel
  import opened HexMapStore

  /** A table lookup the game would fail with a key error: an unknown mode or an unknown terrain name. */
  datatype LookupError = UnknownMode(key: string) | UnknownTerrainName(name: string)

  /** What `change_transport` does: nothing without a tile, a refusal on impassable terrain, or the switch. */
  datatype TransportChange = NoTile | Refused(mode: Transport) | Switched(mode: Transport)

  /** The decision of `change_transport` for the tile at `here`. */
  function TransportDecision(hexes: map<Coord, Hex>, here: Coord, key: string): (r: Result<TransportChange, LookupError>)
    ensures here !in hexes ==> r == Success(NoTile)
    ensures here in hexes && ParseTransport(key).None? ==> r == Failure(UnknownMode(key))
    ensures r.Success? && r.value != NoTile ==>
      here in hexes && ParseTransport(key) == Some(r.value.mode) && ParseTerrain(hexes[here].terrain).Some?
      && (r.value.Switched? <==> Modifier(r.value.mode, ParseTerrain(hexes[here].terrain).value) < Impassable)
  {
    if here !in hexes then Success(NoTile)
    else
      match ParseTransport(key)
      case None => Failure(UnknownMode(key))
      case Some(mode) =>
        match ParseTerrain(hexes[here].terrain)
        case None => Failure(UnknownTerrainName(hexes[here].terrain))
        case Some(t) => if Modifier(mode, t) < Impassable then Success(Switched(mode)) else Success(Refused(mode))
  }

  /** What `change_transport` returns: true whenever a tile is present, whether or not the mode changed. */
  function Reported(r: Result<TransportChange, LookupError>): bool
  {
    r.Success? && r.value != NoTile
  }

  /** A boat is refused on every tile except water and swamp. */
  lemma BoatOnlyAfloat(hexes: map<Coord, Hex>, here: Coord, t: Terrain)
    requires here in hexes && hexes[here].terrain == TerrainKey(t)
    ensures TransportDecision(hexes, here, "boat") == Success(if t == Water || t == Swamp then Switched(Boat) else Refused(Boat))
  {
    ParseTerrainKey(t);
  }

  /** An airship is accepted on every catalogued tile, and walking or riding is refused only on water. */
  lemma AirshipAndLandModes(hexes: map<Coord, Hex>, here: Coord, t: Terrain)
    requires here in hexes && hexes[here].terrain == TerrainKey(t)
    ensures TransportDecision(hexes, here, "airship") == Success(Switched(Airship))
    ensures TransportDecision(hexes, here, "on_foot") == Success(if t == Water then Refused(OnFoot) else Switched(OnFoot))
    ensures TransportDecision(hexes, here, "horse") == Success(if t == Water then Refused(Horse) else Switched(Horse))
  {
    ParseTerrainKey(t);
  }

  /** The paces in the order the P key walks them. */
  const PaceCycle: seq<Pace> := [Slow, Normal, Fast]

  /** `paces.index(current_pace)`. */
  function PaceIndex(p: Pace): (i: nat)
    ensures i < 3 && PaceCycle[i] == p
  {
    match p
    case Slow => 0
    case Normal => 1
    case Fast => 2
  }

  /** The pace after one press of P. */
  function NextPace(p: Pace): (n: Pace)
    ensures n != p
  {
    PaceCycle[(PaceIndex(p) + 1) % 3]
  }

  /** Slow, normal, fast, and back to slow: three presses return to the start. */
  lemma PaceCycles(p: Pace)
    ensures NextPace(Slow) == Normal && NextPace(Normal) == Fast && NextPace(Fast) == Slow
    ensures NextPace(NextPace(NextPace(p))) == p
    ensures NextPace(NextPace(p)) != p
  {
  }

  /** `check_resupply`: a tile whose description mentions a town in any letter case, or the starting hex. */
  predicate IsResupplyPoint(hexes: map<Coord, Hex>, here: Coord)
  {
    (here in hexes && Contains(Lower(hexes[here].description), "town")) || here == Origin
  }

  /** The starting hex always resupplies, whatever the map holds. */
  lemma StartResupplies(hexes: map<Coord, Hex>)
    ensures IsResupplyPoint(hexes, Origin)
  {
  }

  /** "Town", "TOWN" or "town" anywhere in the description make the tile a resupply point. */
  lemma TownResupplies(hexes: map<Coord, Hex>, here: Coord, i: nat)
    requires here in hexes && i + 4 <= |hexes[here].description|
    requires forall k :: 0 <= k < 4 ==> LowerChar(hexes[here].description[i + k]) == "town"[k]
    ensures IsResupplyPoint(hexes, here)
  {
    var low := Lower(hexes[here].description);
    assert low[i..i + 4] == "town";
    ContainsAt(low, "town", i);
  }

  /** Away from the start, a missing tile or a description without "town" refuses resupply. */
  lemma ElsewhereNoResupply(hexes: map<Coord, Hex>, here: Coord)
    requires here != Origin
    requires here !in hexes || !Contains(Lower(hexes[here].description), "town")
    ensures !IsResupplyPoint(hexes, here)
  {
  }

  class HexMapExplorer {
    const hexMap: HexMap

    constructor(hexMap: HexMap)
      ensures this.hexMap == hexMap
    {
      this.hexMap := hexMap;
    }

    /**
     * `change_transport`: with a tile underfoot, the mode is switched when
     * its modifier there is passable and refused otherwise; both report
     * true. Without a tile nothing changes and it reports false.
     */
    method ChangeTransport(transportKey: string) returns (r: Result<TransportChange, LookupError>)
      requires hexMap.Valid()
      modifies hexMap.travel
      ensures hexMap.Valid()
      ensures r == TransportDecision(hexMap.hexes, hexMap.currentPosition, transportKey)
      ensures r.Success? && r.value.Switched? ==>
        hexMap.travel.Fields() == old(hexMap.travel.Fields()).(transport := r.value.mode)
        && hexMap.travel.maxMovement == MaxMovementFor(r.value.mode, hexMap.travel.currentPace, hexMap.travel.hasNavigator)
      ensures !(r.Success? && r.value.Switched?) ==>
        hexMap.travel.Fields() == old(hexMap.travel.Fields()) && hexMap.travel.maxMovement == old(hexMap.travel.maxMovement)
      ensures hexMap.travel.isResting == old(hexMap.travel.isResting)
    {
      var here := hexMap.currentPosition;
      if here !in hexMap.hexes {
        return Success(NoTile);
      }
      var mode := ParseTransport(transportKey);
      if mode.None? {
        return Failure(UnknownMode(transportKey));
      }
      var terrain := ParseTerrain(hexMap.hexes[here].terrain);
      if terrain.None? {
        return Failure(UnknownTerrainName(hexMap.hexes[here].terrain));
      }
      var modifier := Modifier(mode.value, terrain.value);
      if modifier < Impassable {
        var changed := hexMap.travel.ChangeTransport(transportKey);
        return Success(Switched(mode.value));
      } else {
        return Success(Refused(mode.value));
      }
    }

    /** `check_resupply`. */
    predicate CheckResupply()
      reads hexMap
    {
      IsResupplyPoint(hexMap.hexes, hexMap.currentPosition)
    }

    /** The P key: the pace moves one step along slow, normal, fast. */
    method PressPaceKey()
      requires hexMap.Valid()
      modifies hexMap.travel
      ensures hexMap.Valid()
      ensures hexMap.travel.Fields() == old(hexMap.travel.Fields()).(pace := NextPace(old(hexMap.travel.currentPace)))
      ensures hexMap.travel.maxMovement
              == MaxMovementFor(hexMap.travel.currentTransport, hexMap.travel.currentPace, hexMap.travel.hasNavigator)
      ensures hexMap.travel.isResting == old(hexMap.travel.isResting)
    {
      var travel := hexMap.travel;
      var paces := ["slow", "normal", "fast"];
      var idx := PaceIndex(travel.currentPace);
      var newPace := paces[(idx + 1) % 3];
      assert newPace == PaceKey(NextPace(travel.currentPace));
      ParsePaceKey(NextPace(travel.currentPace));
      travel.ChangePace(newPace);
    }

    /** The S key: ten days of supplies, capped at thirty, but only at a resupply point. */
    method PressResupplyKey() returns (resupplied: bool)
      requires hexMap.Valid()
      modifies hexMap.travel
      ensures hexMap.Valid()
      ensures resupplied == IsResupplyPoint(hexMap.hexes, hexMap.currentPosition)
      ensures resupplied ==>
        hexMap.travel.Fields() == old(hexMap.travel.Fields()).(supplies := RMin(30.0, old(hexMap.travel.supplies) + 10.0))
      ensures !resupplied ==> hexMap.travel.Fields() == old(hexMap.travel.Fields())
      ensures hexMap.travel.maxMovement == old(hexMap.travel.maxMovement)
      ensures hexMap.travel.isResting == old(hexMap.travel.isResting)
    {
      resupplied := CheckResupply();
      if resupplied {
        hexMap.travel.Resupply(10);
      }
    }
  }
}
