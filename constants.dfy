/**
 * The static catalogs: the eight basic terrains with their base movement
 * costs, the three travel paces and the four transportation modes.
 */
module Constants {
  import opened Wrappers

  /** The cost that marks a terrain or a modifier as impassable. */
  const Impassable: real := 999.0

  datatype Terrain = Forest | Plains | Mountains | Water | Desert | Swamp | Tundra | Hills

  /** The catalog in its declaration order. */
  const AllTerrains: seq<Terrain> := [Forest, Plains, Mountains, Water, Desert, Swamp, Tundra, Hills]

  function TerrainKey(t: Terrain): string
  {
    match t
    case Forest => "forest"
    case Plains => "plains"
    case Mountains => "mountains"
    case Water => "water"
    case Desert => "desert"
    case Swamp => "swamp"
    case Tundra => "tundra"
    case Hills => "hills"
  }

  /** The catalog's keys, in declaration order. */
  function TerrainKeys(): (ks: seq<string>)
    ensures |ks| == 8
    ensures forall i :: 0 <= i < 8 ==> ks[i] == TerrainKey(AllTerrains[i])
    ensures forall i, j :: 0 <= i < j < 8 ==> ks[i] != ks[j]
  {
    ["forest", "plains", "mountains", "water", "desert", "swamp", "tundra", "hills"]
  }

  /** A catalog lookup by key. */
  function ParseTerrain(key: string): (t: Option<Terrain>)
    ensures t.Some? <==> key in TerrainKeys()
    ensures t.Some? ==> TerrainKey(t.value) == key
  {
    if key == "forest" then Some(Forest)
    else if key == "plains" then Some(Plains)
    else if key == "mountains" then Some(Mountains)
    else if key == "water" then Some(Water)
    else if key == "desert" then Some(Desert)
    else if key == "swamp" then Some(Swamp)
    else if key == "tundra" then Some(Tundra)
    else if key == "hills" then Some(Hills)
    else None
  }

  predicate IsTerrain(key: string) { ParseTerrain(key).Some? }

  lemma ParseTerrainKey(t: Terrain)
    ensures ParseTerrain(TerrainKey(t)) == Some(t)
  {
  }

  /** `movement_cost`: water is impassable, every other terrain costs between 1 and 3. */
  function BaseCost(t: Terrain): (c: real)
    ensures t == Water <==> c == Impassable
    ensures t != Water ==> 1.0 <= c <= 3.0
  {
    match t
    case Forest => 1.5
    case Plains => 1.0
    case Mountains => 3.0
    case Water => 999.0
    case Desert => 2.0
    case Swamp => 3.0
    case Tundra => 2.0
    case Hills => 1.5
  }

  /** `movement_cost` as Python prints it (integral costs are stored as ints). */
  function BaseCostText(t: Terrain): string
  {
    match t
    case Forest => "1.5"
    case Plains => "1"
    case Mountains => "3"
    case Water => "999"
    case Desert => "2"
    case Swamp => "3"
    case Tundra => "2"
    case Hills => "1.5"
  }

  function TerrainColor(t: Terrain): (int, int, int)
  {
    match t
    case Forest => (34, 139, 34)
    case Plains => (144, 238, 144)
    case Mountains => (139, 137, 137)
    case Water => (65, 105, 225)
    case Desert => (238, 203, 173)
    case Swamp => (47, 79, 79)
    case Tundra => (176, 224, 230)
    case Hills => (160, 82, 45)
  }

  function TerrainDescription(t: Terrain): string
  {
    match t
    case Forest => "Dense woodland"
    case Plains => "Open grasslands"
    case Mountains => "Rocky peaks"
    case Water => "Deep waters"
    case Desert => "Sandy dunes"
    case Swamp => "Murky wetlands"
    case Tundra => "Frozen wasteland"
    case Hills => "Rolling hills"
  }

  // ----- paces -----

  datatype Pace = Slow | Normal | Fast

  function PaceKey(p: Pace): string
  {
    match p
    case Slow => "slow"
    case Normal => "normal"
    case Fast => "fast"
  }

  function ParsePace(key: string): (p: Option<Pace>)
    ensures p.Some? <==> key == "slow" || key == "normal" || key == "fast"
    ensures p.Some? ==> PaceKey(p.value) == key
  {
    if key == "slow" then Some(Slow)
    else if key == "normal" then Some(Normal)
    else if key == "fast" then Some(Fast)
    else None
  }

  lemma ParsePaceKey(p: Pace)
    ensures ParsePace(PaceKey(p)) == Some(p)
  {
  }

  /** `TRAVEL_PACE[p]["hexes_per_8h"]`: the on-foot speeds. */
  function PaceHexesPer8h(p: Pace): (n: nat)
    ensures n == BaseHexesPer8h(OnFoot, p)
  {
    match p
    case Slow => 6
    case Normal => 8
    case Fast => 10
  }

  /** Every pace allows eight hours before exhaustion checks. */
  function ExhaustionFreeHours(p: Pace): nat { 8 }

  // ----- transportation modes -----

  datatype Transport = OnFoot | Horse | Boat | Airship

  function TransportKey(m: Transport): string
  {
    match m
    case OnFoot => "on_foot"
    case Horse => "horse"
    case Boat => "boat"
    case Airship => "airship"
  }

  function ParseTransport(key: string): (m: Option<Transport>)
    ensures m.Some? <==> key == "on_foot" || key == "horse" || key == "boat" || key == "airship"
    ensures m.Some? ==> TransportKey(m.value) == key
  {
    if key == "on_foot" then Some(OnFoot)
    else if key == "horse" then Some(Horse)
    else if key == "boat" then Some(Boat)
    else if key == "airship" then Some(Airship)
    else None
  }

  lemma ParseTransportKey(m: Transport)
    ensures ParseTransport(TransportKey(m)) == Some(m)
  {
  }

  function TransportName(m: Transport): string
  {
    match m
    case OnFoot => "On Foot"
    case Horse => "Horse"
    case Boat => "Boat/Ship"
    case Airship => "Airship"
  }

  /** `base_hexes_per_8h`. */
  function BaseHexesPer8h(m: Transport, p: Pace): nat
  {
    match (m, p)
    case (OnFoot, Slow) => 6
    case (OnFoot, Normal) => 8
    case (OnFoot, Fast) => 10
    case (Horse, Slow) => 9
    case (Horse, Normal) => 12
    case (Horse, Fast) => 15
    case (Boat, Slow) => 8
    case (Boat, Normal) => 12
    case (Boat, Fast) => 16
    case (Airship, Slow) => 12
    case (Airship, Normal) => 20
    case (Airship, Fast) => 28
  }

  /** Every mode is strictly faster at a faster pace, and no speed exceeds 28 hexes. */
  lemma SpeedsIncrease(m: Transport)
    ensures 6 <= BaseHexesPer8h(m, Slow) < BaseHexesPer8h(m, Normal) < BaseHexesPer8h(m, Fast) <= 28
  {
  }

  /**
   * `terrain_modifiers`, a total table over the eight terrains. Water is
   * impassable on foot and on horseback; a boat passes only water and swamp.
   */
  function Modifier(m: Transport, t: Terrain): (k: real)
    ensures k > 0.0
    ensures t == Water && (m == OnFoot || m == Horse) ==> k == Impassable
    ensures m == Boat ==> (k == Impassable <==> t != Water && t != Swamp)
    ensures m == Boat && t == Water ==> k == 0.5
    ensures m == Boat && t == Swamp ==> k == 2.0
    ensures m == Airship ==> k < Impassable
  {
    match m
    case OnFoot => if t == Water then 999.0 else 1.0
    case Horse =>
      (match t
       case Forest => 1.2
       case Plains => 0.8
       case Mountains => 1.5
       case Water => 999.0
       case Desert => 1.1
       case Swamp => 2.0
       case Tundra => 1.2
       case Hills => 0.9)
    case Boat => if t == Water then 0.5 else if t == Swamp then 2.0 else 999.0
    case Airship =>
      (match t
       case Forest => 0.8
       case Plains => 0.8
       case Mountains => 1.0
       case Water => 0.8
       case Desert => 0.9
       case Swamp => 0.8
       case Tundra => 1.1
       case Hills => 0.85)
  }

  /** `exhaustion_resistant`: only travel on foot tires the party itself. */
  function ExhaustionResistant(m: Transport): (b: bool)
    ensures b <==> m != OnFoot
  {
    match m
    case OnFoot => false
    case Horse => true
    case Boat => true
    case Airship => true
  }

  /** `requires_rest`: boats and airships never need rest. */
  function RequiresRest(m: Transport): (b: bool)
    ensures !b <==> m == Boat || m == Airship
  {
    match m
    case OnFoot => true
    case Horse => true
    case Boat => false
    case Airship => false
  }
}
