/**
 * The travel economy: movement points, hours and days travelled, supplies,
 * the party's and the mount's exhaustion, and the party traits that change
 * costs. Costs, hours and supplies are exact rationals here; the game
 * computes them in floating point.
 */
module Travel {
  import opened Wrappers
  import opened Constants

  function RMax(a: real, b: real): real { if a < b then b else a }

  function RMin(a: real, b: real): real { if a < b then a else b }

  /** The largest value `max_movement` can take (an airship at a fast pace with a navigator). */
  const TopMovement: nat := 30

  /**
   * The movement allowance per eight hours: the table speed, or with a
   * navigator the table speed times 1.1 rounded down.
   */
  function MaxMovementFor(m: Transport, p: Pace, navigator: bool): (n: nat)
    ensures 6 <= n <= TopMovement
    ensures !navigator ==> n == BaseHexesPer8h(m, p)
    ensures navigator ==> BaseHexesPer8h(m, p) <= n
  {
    var base := BaseHexesPer8h(m, p);
    if navigator then (base as real * 1.1).Floor else base
  }

  lemma NavigatorExamples()
    ensures MaxMovementFor(OnFoot, Normal, true) == 8
    ensures MaxMovementFor(Horse, Normal, true) == 13
    ensures MaxMovementFor(Airship, Fast, true) == 30
  {
  }

  /**
   * The cost of entering a terrain. An impassable modifier is decided before
   * the ranger's halving on favoured terrain; a ranger on foot pays at most 1.
   */
  function MovementCostFor(m: Transport, ranger: bool, favored: Option<string>, t: Terrain): (c: real)
    ensures Modifier(m, t) >= Impassable ==> c == Impassable
    ensures Modifier(m, t) < Impassable ==> 0.0 < c < Impassable
    ensures Modifier(m, t) < Impassable && ranger && m == OnFoot ==> c <= 1.0
    ensures Modifier(m, t) < Impassable && ranger && m == OnFoot ==>
      c == RMin(BaseCost(t) * (if favored == Some(TerrainKey(t)) then Modifier(m, t) * 0.5 else Modifier(m, t)), 1.0)
    ensures Modifier(m, t) < Impassable && ranger && m != OnFoot && favored != Some(TerrainKey(t)) ==>
      c == BaseCost(t) * Modifier(m, t)
    ensures Modifier(m, t) < Impassable && !ranger ==> c == BaseCost(t) * Modifier(m, t)
    ensures Modifier(m, t) < Impassable && ranger && m != OnFoot && favored == Some(TerrainKey(t)) ==>
      c == BaseCost(t) * Modifier(m, t) * 0.5
  {
    var base := BaseCost(t);
    var modifier := Modifier(m, t);
    if modifier >= Impassable then Impassable
    else
      var k := if ranger && favored == Some(TerrainKey(t)) then modifier * 0.5 else modifier;
      if ranger && m == OnFoot then RMin(base * k, 1.0) else base * k
  }

  lemma WaterCosts(ranger: bool, favored: Option<string>)
    ensures MovementCostFor(Boat, false, favored, Water) == 499.5
    ensures MovementCostFor(Airship, false, favored, Water) == 799.2
    ensures MovementCostFor(OnFoot, ranger, favored, Water) == Impassable
    ensures MovementCostFor(Horse, ranger, favored, Water) == Impassable
  {
  }

  /**
   * Water costs more than any movement allowance, whatever the transport, the
   * traits or the favoured terrain: a party that has just rested never has the
   * points to enter it.
   */
  lemma WaterBeyondAnyAllowance(m: Transport, ranger: bool, favored: Option<string>, m2: Transport, p: Pace, navigator: bool)
    ensures MovementCostFor(m, ranger, favored, Water) > MaxMovementFor(m2, p, navigator) as real
  {
  }

  /** The twelve fields the game saves, in the order of its save record. */
  datatype TravelFields = TravelFields(
    days: int, hours: real, movement: real, pace: Pace, exhaustion: int, transport: Transport,
    supplies: real, mountExhaustion: int, hasRanger: bool, hasNavigator: bool, hasOutlander: bool,
    favoredTerrain: Option<string>)

  function DefaultFields(): TravelFields
  {
    TravelFields(0, 0.0, 8.0, Normal, 0, OnFoot, 10.0, 0, false, false, false, None)
  }

  /**
   * A travel save record as a dictionary: `None` is a missing key (and, for
   * the favoured terrain, a missing key or `null`). Pace and transport are
   * the raw strings found in the file.
   */
  datatype TravelData = TravelData(
    days: Option<int>, hours: Option<real>, movement: Option<real>, pace: Option<string>,
    exhaustion: Option<int>, transport: Option<string>, supplies: Option<real>,
    mountExhaustion: Option<int>, hasRanger: Option<bool>, hasNavigator: Option<bool>,
    hasOutlander: Option<bool>, favoredTerrain: Option<string>)

  function Get<T>(o: Option<T>, default: T): T
  {
    if o.Some? then o.value else default
  }

  /** `get_save_data` on the fields: every key present. */
  function SaveDataOf(f: TravelFields): (d: TravelData)
    ensures d.pace == Some(PaceKey(f.pace)) && d.transport == Some(TransportKey(f.transport))
  {
    TravelData(Some(f.days), Some(f.hours), Some(f.movement), Some(PaceKey(f.pace)),
               Some(f.exhaustion), Some(TransportKey(f.transport)), Some(f.supplies),
               Some(f.mountExhaustion), Some(f.hasRanger), Some(f.hasNavigator),
               Some(f.hasOutlander), f.favoredTerrain)
  }

  /**
   * `load_from_data` on a record: each missing key takes its default; the
   * record is usable only when its pace and transport name catalog entries.
   */
  function DecodeTravelData(d: TravelData): (r: Option<TravelFields>)
    ensures r.Some? <==> ParsePace(Get(d.pace, "normal")).Some? && ParseTransport(Get(d.transport, "on_foot")).Some?
    ensures r.Some? ==>
      (r.value.days == Get(d.days, 0) && r.value.hours == Get(d.hours, 0.0)
       && r.value.movement == Get(d.movement, 8.0)
       && r.value.pace == ParsePace(Get(d.pace, "normal")).value
       && r.value.exhaustion == Get(d.exhaustion, 0)
       && r.value.transport == ParseTransport(Get(d.transport, "on_foot")).value
       && r.value.supplies == Get(d.supplies, 10.0) && r.value.mountExhaustion == Get(d.mountExhaustion, 0)
       && r.value.hasRanger == Get(d.hasRanger, false) && r.value.hasNavigator == Get(d.hasNavigator, false)
       && r.value.hasOutlander == Get(d.hasOutlander, false) && r.value.favoredTerrain == d.favoredTerrain)
  {
    var pace := ParsePace(Get(d.pace, "normal"));
    var transport := ParseTransport(Get(d.transport, "on_foot"));
    if pace.None? || transport.None? then None
    else Some(TravelFields(Get(d.days, 0), Get(d.hours, 0.0), Get(d.movement, 8.0), pace.value,
                           Get(d.exhaustion, 0), transport.value, Get(d.supplies, 10.0),
                           Get(d.mountExhaustion, 0), Get(d.hasRanger, false), Get(d.hasNavigator, false),
                           Get(d.hasOutlander, false), d.favoredTerrain))
  }

  /** Loading what was saved restores all twelve fields. */
  lemma SaveLoadRoundTrip(f: TravelFields)
    ensures DecodeTravelData(SaveDataOf(f)) == Some(f)
  {
    ParsePaceKey(f.pace);
    ParseTransportKey(f.transport);
  }

  /** An empty record loads as a fresh party. */
  lemma EmptyRecordLoadsDefaults()
    ensures DecodeTravelData(TravelData(None, None, None, None, None, None, None, None, None, None, None, None))
         == Some(DefaultFields())
  {
  }

  /** The fields after a successful move of the given cost. */
  function Moved(f: TravelFields, cost: real, maxMovement: nat, supplyRoll: real): TravelFields
    requires maxMovement > 0
  {
    f.(movement := f.movement - cost,
       hours := f.hours + cost / maxMovement as real * 8.0,
       supplies := if supplyRoll < 0.1 then RMax(0.0, f.supplies - 0.1) else f.supplies)
  }

  /** The fields after a long rest with the given allowance. */
  function Rested(f: TravelFields, maxMovement: nat): TravelFields
  {
    f.(movement := maxMovement as real, hours := 0.0, days := f.days + 1,
       exhaustion := if f.exhaustion > 0 then f.exhaustion - 1 else f.exhaustion,
       mountExhaustion := if f.mountExhaustion > 0 then f.mountExhaustion - 1 else f.mountExhaustion,
       supplies := RMax(0.0, f.supplies - 1.0))
  }

  /** The fields after a forced march; the exhaustion check fires when the roll is below 0.3. */
  function Marched(f: TravelFields, exhaustionRoll: real): TravelFields
  {
    var tired := f.hours >= 8.0 && exhaustionRoll < 0.3;
    var resistant := ExhaustionResistant(f.transport);
    f.(movement := f.movement + 2.0, hours := f.hours + 2.0,
       mountExhaustion := if tired && resistant then f.mountExhaustion + 1 else f.mountExhaustion,
       exhaustion := if tired && !resistant then f.exhaustion + 1 else f.exhaustion)
  }

  /** A move never leaves the supplies below zero or lowers them by more than 0.1. */
  lemma MoveSupplies(f: TravelFields, cost: real, maxMovement: nat, supplyRoll: real)
    requires maxMovement > 0 && f.supplies >= 0.0
    ensures var g := Moved(f, cost, maxMovement, supplyRoll);
      0.0 <= g.supplies <= f.supplies && f.supplies - 0.1 <= g.supplies
  {
  }

  /** A rest lowers each exhaustion counter by at most one, never below zero. */
  lemma RestRecovers(f: TravelFields, maxMovement: nat)
    requires f.exhaustion >= 0 && f.mountExhaustion >= 0 && f.supplies >= 0.0
    ensures var g := Rested(f, maxMovement);
      g.exhaustion == (if f.exhaustion == 0 then 0 else f.exhaustion - 1)
      && g.mountExhaustion == (if f.mountExhaustion == 0 then 0 else f.mountExhaustion - 1)
      && 0.0 <= g.supplies && f.supplies - 1.0 <= g.supplies <= f.supplies
  {
  }

  /**
   * A forced march raises at most one counter, by one, and only after eight
   * hours of travel: the mount's when the transport is resistant, else the party's.
   */
  lemma MarchExhaustion(f: TravelFields, exhaustionRoll: real)
    ensures var g := Marched(f, exhaustionRoll);
      (g.exhaustion - f.exhaustion) + (g.mountExhaustion - f.mountExhaustion) <= 1
      && f.exhaustion <= g.exhaustion && f.mountExhaustion <= g.mountExhaustion
      && (f.hours < 8.0 ==> g.exhaustion == f.exhaustion && g.mountExhaustion == f.mountExhaustion)
      && (ExhaustionResistant(f.transport) ==> g.exhaustion == f.exhaustion)
      && (!ExhaustionResistant(f.transport) ==> g.mountExhaustion == f.mountExhaustion)
  {
  }

  class TravelSystem {
    var currentPace: Pace
    var currentTransport: Transport
    var hoursTraveled: real
    var movementPoints: real
    var maxMovement: nat
    var isResting: bool
    var exhaustionLevel: int
    var daysTraveled: int
    var supplies: real
    var mountExhaustion: int
    var hasRanger: bool
    var hasOutlander: bool
    var hasNavigator: bool
    var favoredTerrain: Option<string>

    /** The allowance is always one of the table's values. */
    predicate Valid()
      reads this
    {
      6 <= maxMovement <= TopMovement
    }

    function Fields(): TravelFields
      reads this
    {
      TravelFields(daysTraveled, hoursTraveled, movementPoints, currentPace, exhaustionLevel,
                   currentTransport, supplies, mountExhaustion, hasRanger, hasNavigator,
                   hasOutlander, favoredTerrain)
    }

    /** A fresh party: on foot at a normal pace with eight points, ten supplies and no exhaustion. */
    constructor()
      ensures Valid()
      ensures Fields() == DefaultFields() && maxMovement == 8 && !isResting
    {
      currentPace := Normal;
      currentTransport := OnFoot;
      hoursTraveled := 0.0;
      movementPoints := 8.0;
      maxMovement := 8;
      isResting := false;
      exhaustionLevel := 0;
      daysTraveled := 0;
      supplies := 10.0;
      mountExhaustion := 0;
      hasRanger := false;
      hasOutlander := false;
      hasNavigator := false;
      favoredTerrain := None;
      new;
      UpdateMovementPoints();
    }

    /**
     * `_update_movement_points`: the allowance follows the table. The ratio
     * meant to rescale the points is taken against the new allowance, so the
     * points themselves never change.
     */
    method UpdateMovementPoints()
      modifies this
      ensures Valid()
      ensures maxMovement == MaxMovementFor(currentTransport, currentPace, hasNavigator)
      ensures Fields() == old(Fields()) && isResting == old(isResting)
    {
      var base := BaseHexesPer8h(currentTransport, currentPace);
      if hasNavigator {
        base := (base as real * 1.1).Floor;
      }
      maxMovement := base;
      if !isResting {
        var ratio := movementPoints / (if maxMovement == 0 then 1 else maxMovement) as real;
        movementPoints := base as real * ratio;
      }
    }

    function GetMovementCost(t: Terrain): real
      reads this
    {
      MovementCostFor(currentTransport, hasRanger, favoredTerrain, t)
    }

    /** Passable and affordable with the points left. */
    function CanMoveTo(t: Terrain): (ok: bool)
      reads this
      ensures ok <==> Modifier(currentTransport, t) < Impassable && movementPoints >= GetMovementCost(t)
    {
      var cost := GetMovementCost(t);
      if cost >= Impassable then false else movementPoints >= cost
    }

    /** `move_to_hex`: pay the cost and the hours it takes, or change nothing. */
    method MoveToHex(t: Terrain, supplyRoll: real) returns (moved: bool)
      requires Valid()
      modifies this
      ensures Valid() && maxMovement == old(maxMovement) && isResting == old(isResting)
      ensures moved == old(CanMoveTo(t))
      ensures moved ==> Fields() == Moved(old(Fields()), old(GetMovementCost(t)), maxMovement, supplyRoll)
      ensures moved ==> 0.0 <= movementPoints
      ensures !moved ==> Fields() == old(Fields())
    {
      var cost := GetMovementCost(t);
      if CanMoveTo(t) {
        movementPoints := movementPoints - cost;
        hoursTraveled := hoursTraveled + cost / maxMovement as real * 8.0;
        if supplyRoll < 0.1 {
          supplies := RMax(0.0, supplies - 0.1);
        }
        moved := true;
      } else {
        moved := false;
      }
    }

    /** `rest`: a full allowance, a new day, one level of each exhaustion recovered, one supply eaten. */
    method Rest()
      modifies this
      ensures Valid() && isResting
      ensures maxMovement == MaxMovementFor(currentTransport, currentPace, hasNavigator)
      ensures Fields() == Rested(old(Fields()), maxMovement)
    {
      UpdateMovementPoints();
      movementPoints := maxMovement as real;
      hoursTraveled := 0.0;
      daysTraveled := daysTraveled + 1;
      if exhaustionLevel > 0 {
        exhaustionLevel := exhaustionLevel - 1;
      }
      if mountExhaustion > 0 {
        mountExhaustion := mountExhaustion - 1;
      }
      supplies := RMax(0.0, supplies - 1.0);
      isResting := true;
    }

    /** `forced_march`: two extra points and hours for modes that need rest, at the risk of exhaustion. */
    method ForcedMarch(exhaustionRoll: real) returns (marched: bool)
      modifies this
      ensures maxMovement == old(maxMovement) && isResting == old(isResting)
      ensures marched == RequiresRest(old(currentTransport))
      ensures marched ==> Fields() == Marched(old(Fields()), exhaustionRoll)
      ensures !marched ==> Fields() == old(Fields())
    {
      if !RequiresRest(currentTransport) {
        return false;
      }
      if hoursTraveled >= 8.0 {
        if exhaustionRoll < 0.3 {
          if ExhaustionResistant(currentTransport) {
            mountExhaustion := mountExhaustion + 1;
          } else {
            exhaustionLevel := exhaustionLevel + 1;
          }
        }
      }
      movementPoints := movementPoints + 2.0;
      hoursTraveled := hoursTraveled + 2.0;
      marched := true;
    }

    /** `change_pace`: an unknown pace is ignored. */
    method ChangePace(newPace: string)
      requires Valid()
      modifies this
      ensures Valid() && isResting == old(isResting)
      ensures ParsePace(newPace).Some? ==>
        Fields() == old(Fields()).(pace := ParsePace(newPace).value)
        && maxMovement == MaxMovementFor(currentTransport, currentPace, hasNavigator)
      ensures ParsePace(newPace).None? ==> Fields() == old(Fields()) && maxMovement == old(maxMovement)
    {
      var p := ParsePace(newPace);
      if p.Some? {
        currentPace := p.value;
        UpdateMovementPoints();
      }
    }

    /** `change_transport`: reports whether the key names a mode; an unknown key is ignored. */
    method ChangeTransport(newTransport: string) returns (changed: bool)
      requires Valid()
      modifies this
      ensures Valid() && isResting == old(isResting)
      ensures changed <==> ParseTransport(newTransport).Some?
      ensures changed ==>
        Fields() == old(Fields()).(transport := ParseTransport(newTransport).value)
        && maxMovement == MaxMovementFor(currentTransport, currentPace, hasNavigator)
      ensures !changed ==> Fields() == old(Fields()) && maxMovement == old(maxMovement)
    {
      var m := ParseTransport(newTransport);
      if m.Some? {
        currentTransport := m.value;
        UpdateMovementPoints();
        return true;
      }
      return false;
    }

    /** The exhaustion that slows the party: the mount's for resistant modes, else the party's own. */
    function GetEffectiveExhaustion(): (e: int)
      reads this
      ensures ExhaustionResistant(currentTransport) ==> e == mountExhaustion
      ensures !ExhaustionResistant(currentTransport) ==> e == exhaustionLevel
    {
      if ExhaustionResistant(currentTransport) then mountExhaustion else exhaustionLevel
    }

    /** `resupply`: supplies grow by `days`, capped at 30. */
    method Resupply(days: int)
      modifies this
      ensures Fields() == old(Fields()).(supplies := RMin(30.0, old(supplies) + days as real))
      ensures maxMovement == old(maxMovement) && isResting == old(isResting)
      ensures supplies <= 30.0
    {
      supplies := RMin(30.0, supplies + days as real);
    }

    method ToggleRanger()
      modifies this
      ensures Fields() == old(Fields()).(hasRanger := !old(hasRanger))
      ensures maxMovement == old(maxMovement) && isResting == old(isResting)
    {
      hasRanger := !hasRanger;
    }

    /** A navigator changes the allowance; the points stay as they are. */
    method ToggleNavigator()
      modifies this
      ensures Valid()
      ensures Fields() == old(Fields()).(hasNavigator := !old(hasNavigator))
      ensures maxMovement == MaxMovementFor(currentTransport, currentPace, hasNavigator)
      ensures isResting == old(isResting)
    {
      hasNavigator := !hasNavigator;
      UpdateMovementPoints();
    }

    method ToggleOutlander()
      modifies this
      ensures Fields() == old(Fields()).(hasOutlander := !old(hasOutlander))
      ensures maxMovement == old(maxMovement) && isResting == old(isResting)
    {
      hasOutlander := !hasOutlander;
    }

    /** Only a catalog key or `None` is accepted. */
    method SetFavoredTerrain(terrain: Option<string>)
      modifies this
      ensures terrain.None? || IsTerrain(terrain.value) ==> Fields() == old(Fields()).(favoredTerrain := terrain)
      ensures terrain.Some? && !IsTerrain(terrain.value) ==> Fields() == old(Fields())
      ensures maxMovement == old(maxMovement) && isResting == old(isResting)
    {
      if terrain.None? || IsTerrain(terrain.value) {
        favoredTerrain := terrain;
      }
    }

    /** `get_save_data`: a record that loads back as exactly the current fields. */
    function GetSaveData(): (d: TravelData)
      reads this
      ensures DecodeTravelData(d) == Some(Fields())
    {
      SaveLoadRoundTrip(Fields());
      SaveDataOf(Fields())
    }

    /**
     * `load_from_data`: the record's fields, then the allowance from the
     * table. A record whose pace or transport is not in the catalog is
     * rejected and nothing changes.
     */
    method LoadFromData(data: TravelData) returns (loaded: bool)
      modifies this
      ensures loaded <==> DecodeTravelData(data).Some?
      ensures loaded ==>
        (Valid() && Fields() == DecodeTravelData(data).value
         && maxMovement == MaxMovementFor(currentTransport, currentPace, hasNavigator)
         && isResting == old(isResting))
      ensures !loaded ==> Fields() == old(Fields()) && maxMovement == old(maxMovement) && isResting == old(isResting)
    {
      var f := DecodeTravelData(data);
      if f.None? {
        return false;
      }
      SetFields(f.value);
      UpdateMovementPoints();
      loaded := true;
    }

    /** The twelve `setattr` calls of a load: progress, condition and party. */
    method SetFields(v: TravelFields)
      modifies this
      ensures Fields() == v && maxMovement == old(maxMovement) && isResting == old(isResting)
    {
      SetProgress(v.days, v.hours, v.movement, v.pace);
      SetCondition(v.exhaustion, v.transport, v.supplies, v.mountExhaustion);
      SetParty(v.hasRanger, v.hasNavigator, v.hasOutlander, v.favoredTerrain);
    }

    method SetProgress(days: int, hours: real, movement: real, pace: Pace)
      modifies this
      ensures Fields() == old(Fields()).(days := days, hours := hours, movement := movement, pace := pace)
      ensures maxMovement == old(maxMovement) && isResting == old(isResting)
    {
      daysTraveled, hoursTraveled, movementPoints, currentPace := days, hours, movement, pace;
    }

    method SetCondition(exhaustion: int, transport: Transport, supplies: real, mountExhaustion: int)
      modifies this
      ensures Fields() == old(Fields()).(exhaustion := exhaustion, transport := transport, supplies := supplies,
                                         mountExhaustion := mountExhaustion)
      ensures maxMovement == old(maxMovement) && isResting == old(isResting)
    {
      exhaustionLevel, currentTransport, this.supplies, this.mountExhaustion := exhaustion, transport, supplies, mountExhaustion;
    }

    method SetParty(hasRanger: bool, hasNavigator: bool, hasOutlander: bool, favoredTerrain: Option<string>)
      modifies this
      ensures Fields() == old(Fields()).(hasRanger := hasRanger, hasNavigator := hasNavigator, hasOutlander := hasOutlander,
                                         favoredTerrain := favoredTerrain)
      ensures maxMovement == old(maxMovement) && isResting == old(isResting)
    {
      this.hasRanger, this.hasNavigator, this.hasOutlander, this.favoredTerrain := hasRanger, hasNavigator, hasOutlander, favoredTerrain;
    }
  }
}
