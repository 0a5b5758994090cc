/**
 * Cube-coordinate hex geometry and the hex tile record: neighbours,
 * radius enumeration, hex distance and the tile's dictionary round trip.
 */
module HexGrid {
  import opened Wrappers
  import opened Grids

  /** A cube coordinate; the game keeps `q + r + s == 0` on every tile it makes. */
  datatype Coord = Coord(q: int, r: int, s: int)

  function CoordSum(c: Coord): int { c.q + c.r + c.s }

  const Origin := Coord(0, 0, 0)

  function Abs(x: int): nat { if x < 0 then -x else x }

  function Max(a: int, b: int): int { if a < b then b else a }

  function Min(a: int, b: int): int { if a < b then a else b }

  /** The six unit steps, in the order the game lists neighbours. */
  const Directions: seq<Coord> :=
    [Coord(1, 0, -1), Coord(1, -1, 0), Coord(0, -1, 1), Coord(-1, 0, 1), Coord(-1, 1, 0), Coord(0, 1, -1)]

  function Add(a: Coord, b: Coord): Coord
  {
    Coord(a.q + b.q, a.r + b.r, a.s + b.s)
  }

  /** Hex distance: half the sum of the absolute coordinate differences, rounded down. */
  function Distance(a: Coord, b: Coord): nat
  {
    (Abs(a.q - b.q) + Abs(a.r - b.r) + Abs(a.s - b.s)) / 2
  }

  /** The six neighbours, in direction order. */
  function Neighbors(c: Coord): (ns: seq<Coord>)
    ensures |ns| == 6
    ensures forall i :: 0 <= i < 6 ==> ns[i] == Add(c, Directions[i])
    ensures Distinct(ns) && c !in ns
  {
    seq(6, i requires 0 <= i < 6 => Add(c, Directions[i]))
  }

  /** Each neighbour keeps the coordinate sum and lies at distance one. */
  lemma NeighborsAdjacent(c: Coord)
    ensures forall n :: n in Neighbors(c) ==> CoordSum(n) == CoordSum(c) && Distance(c, n) == 1
  {
    var ns := Neighbors(c);
    forall n | n in ns
      ensures CoordSum(n) == CoordSum(c) && Distance(c, n) == 1
    {
      var i :| 0 <= i < 6 && ns[i] == n;
      assert n == Add(c, Directions[i]);
    }
  }

  lemma DistanceSymmetric(a: Coord, b: Coord)
    ensures Distance(a, b) == Distance(b, a)
    ensures Distance(a, a) == 0
  {
  }

  /**
   * Between points with equal coordinate sums the absolute differences add up
   * to an even number, so the halving is exact, and the distance is the largest
   * of the three differences.
   */
  lemma DistanceExact(a: Coord, b: Coord)
    requires CoordSum(a) == CoordSum(b)
    ensures (Abs(a.q - b.q) + Abs(a.r - b.r) + Abs(a.s - b.s)) % 2 == 0
    ensures 2 * Distance(a, b) == Abs(a.q - b.q) + Abs(a.r - b.r) + Abs(a.s - b.s)
    ensures Distance(a, b) == Max(Abs(a.q - b.q), Max(Abs(a.r - b.r), Abs(a.s - b.s)))
  {
    var dq, dr, ds := a.q - b.q, a.r - b.r, a.s - b.s;
    assert ds == -dq - dr;
  }

  /** Between points with equal sums, distance 0 means the points coincide. */
  lemma DistanceZeroIffEqual(a: Coord, b: Coord)
    requires CoordSum(a) == CoordSum(b)
    ensures Distance(a, b) == 0 <==> a == b
  {
    DistanceExact(a, b);
  }

  // ----- radius enumeration -----

  function RowLo(radius: int, dq: int): int { Max(-radius, -dq - radius) }

  function RowHi(radius: int, dq: int): int { Min(radius, -dq + radius) }

  function Offset(c: Coord, dq: int, dr: int): Coord
  {
    Coord(c.q + dq, c.r + dr, c.s + (-dq - dr))
  }

  function OffsetFrom(c: Coord): (int, int) -> Coord
  {
    (dq, dr) => Offset(c, dq, dr)
  }

  /** The coordinates listed for the columns `dq` in `[-radius, end)`, column by column. */
  function RadiusColumns(c: Coord, radius: int, end: int): seq<Coord>
    decreases end + radius
  {
    if end <= -radius then []
    else RadiusColumns(c, radius, end - 1) + Line(end - 1, RowLo(radius, end - 1), RowHi(radius, end - 1) + 1, OffsetFrom(c))
  }

  /** The full enumeration the nested loops produce. */
  function RadiusList(c: Coord, radius: int): seq<Coord>
  {
    RadiusColumns(c, radius, radius + 1)
  }

  lemma {:induction false} RadiusColumnsMembership(c: Coord, radius: int, end: int, x: Coord)
    ensures x in RadiusColumns(c, radius, end) <==>
      -radius <= x.q - c.q < end && RowLo(radius, x.q - c.q) <= x.r - c.r <= RowHi(radius, x.q - c.q)
      && CoordSum(x) == CoordSum(c)
    decreases end + radius
  {
    if end > -radius {
      RadiusColumnsMembership(c, radius, end - 1, x);
      var dq := end - 1;
      LineMembership(dq, RowLo(radius, dq), RowHi(radius, dq) + 1, OffsetFrom(c), x);
      if x.q - c.q == dq && RowLo(radius, dq) <= x.r - c.r <= RowHi(radius, dq) && CoordSum(x) == CoordSum(c) {
        assert x == OffsetFrom(c)(dq, x.r - c.r);
      }
    }
  }

  lemma {:induction false} RadiusColumnsDistinct(c: Coord, radius: int, end: int)
    ensures Distinct(RadiusColumns(c, radius, end))
    decreases end + radius
  {
    if end > -radius {
      var dq := end - 1;
      var lo, hi := RowLo(radius, dq), RowHi(radius, dq) + 1;
      RadiusColumnsDistinct(c, radius, dq);
      LineDistinct(dq, lo, hi, OffsetFrom(c));
      var a, b := RadiusColumns(c, radius, dq), Line(dq, lo, hi, OffsetFrom(c));
      forall i, j | 0 <= i < |a| && 0 <= j < |b|
        ensures a[i] != b[j]
      {
        RadiusColumnsMembership(c, radius, dq, a[i]);
        LineMembership(dq, lo, hi, OffsetFrom(c), b[j]);
      }
    }
  }

  /** Column `dq` of the radius holds `2R + 1 - |dq|` coordinates. */
  lemma ColumnLength(c: Coord, radius: int, dq: int)
    requires radius >= 0 && -radius <= dq <= radius
    ensures |Line(dq, RowLo(radius, dq), RowHi(radius, dq) + 1, OffsetFrom(c))| == 2 * radius + 1 - Abs(dq)
  {
    LineShape(dq, RowLo(radius, dq), RowHi(radius, dq) + 1, OffsetFrom(c));
  }

  lemma LeftStep(radius: int, k: int)
    ensures 2 * k * (radius + 1) + k * (k - 1) + 2 * (radius + 1 + k) == 2 * (k + 1) * (radius + 1) + (k + 1) * k
  {
  }

  lemma RightStep(radius: int, dq: int)
    ensures 2 * dq * (2 * radius + 1) - dq * (dq - 1) + 2 * (2 * radius + 1 - dq)
            == 2 * (dq + 1) * (2 * radius + 1) - (dq + 1) * dq
  {
  }

  /** Twice the number of coordinates in the first `end + radius` columns, left of the centre column. */
  lemma {:induction false} LeftColumnsLength(c: Coord, radius: int, end: int)
    requires radius >= 0 && -radius <= end <= 0
    ensures 2 * |RadiusColumns(c, radius, end)| == 2 * (end + radius) * (radius + 1) + (end + radius) * (end + radius - 1)
    decreases end + radius
  {
    if end > -radius {
      var dq := end - 1;
      LeftColumnsLength(c, radius, dq);
      ColumnLength(c, radius, dq);
      LeftStep(radius, dq + radius);
    }
  }

  lemma {:induction false} RightColumnsLength(c: Coord, radius: int, end: int)
    requires radius >= 0 && 0 <= end <= radius + 1
    ensures 2 * |RadiusColumns(c, radius, end)| == 3 * radius * radius + radius + 2 * end * (2 * radius + 1) - end * (end - 1)
    decreases end
  {
    if end == 0 {
      LeftColumnsLength(c, radius, 0);
    } else {
      var dq := end - 1;
      RightColumnsLength(c, radius, dq);
      ColumnLength(c, radius, dq);
      RightStep(radius, dq);
    }
  }

  /** Radius `R` covers `3R² + 3R + 1` coordinates. */
  lemma RadiusListLength(c: Coord, radius: int)
    requires radius >= 0
    ensures |RadiusList(c, radius)| == 3 * radius * radius + 3 * radius + 1
  {
    RightColumnsLength(c, radius, radius + 1);
    assert 2 * (radius + 1) * (2 * radius + 1) - (radius + 1) * radius == 3 * radius * radius + 5 * radius + 2;
  }

  /** A coordinate is listed exactly when it has the centre's sum and lies within the radius. */
  lemma RadiusListMembership(c: Coord, radius: int, x: Coord)
    ensures x in RadiusList(c, radius) <==> CoordSum(x) == CoordSum(c) && Distance(c, x) <= radius
  {
    RadiusColumnsMembership(c, radius, radius + 1, x);
    if CoordSum(x) == CoordSum(c) {
      DistanceExact(c, x);
    }
  }

  /** `get_hexes_within_radius`: the nested loops over `dq` and `dr`. */
  method HexesWithinRadius(c: Coord, radius: int) returns (hexes: seq<Coord>)
    ensures hexes == RadiusList(c, radius)
    ensures radius >= 0 ==> |hexes| == 3 * radius * radius + 3 * radius + 1
    ensures Distinct(hexes)
    ensures forall x :: x in hexes <==> CoordSum(x) == CoordSum(c) && Distance(c, x) <= radius
  {
    hexes := [];
    var dq := -radius;
    while dq <= radius
      invariant -radius <= dq <= Max(radius + 1, -radius)
      invariant hexes == RadiusColumns(c, radius, dq)
    {
      var lo, hi := Max(-radius, -dq - radius), Min(radius, -dq + radius);
      var dr := lo;
      while dr <= hi
        invariant lo <= dr <= hi + 1
        invariant hexes == RadiusColumns(c, radius, dq) + Line(dq, lo, dr, OffsetFrom(c))
      {
        var ds := -dq - dr;
        hexes := hexes + [Coord(c.q + dq, c.r + dr, c.s + ds)];
        dr := dr + 1;
      }
      dq := dq + 1;
    }
    RadiusColumnsDistinct(c, radius, radius + 1);
    if radius >= 0 {
      RadiusListLength(c, radius);
    }
    forall x
      ensures x in hexes <==> CoordSum(x) == CoordSum(c) && Distance(c, x) <= radius
    {
      RadiusListMembership(c, radius, x);
    }
  }

  // ----- the tile record -----

  /** A tile; `generating` and `distanceFromCurrent` are runtime-only. */
  datatype Hex = Hex(q: int, r: int, s: int, terrain: string, description: string,
                     explored: bool, visible: bool, generating: bool, distanceFromCurrent: int)

  function CoordOf(h: Hex): Coord { Coord(h.q, h.r, h.s) }

  /**
   * A tile as a dictionary; a runtime-only key is `None` when absent.
   * Records written by the game lack both; other producers may carry them.
   */
  datatype HexRecord = HexRecord(q: int, r: int, s: int, terrain: string, description: string,
                                 explored: bool, visible: bool,
                                 generating: Option<bool>, distanceFromCurrent: Option<int>)

  /** Passing a keyword twice to the tile constructor. */
  datatype DecodeError = DuplicateKeyword(name: string)

  /** `to_dict`: every field except the two runtime-only ones. */
  function ToDict(h: Hex): (d: HexRecord)
    ensures d.generating.None? && d.distanceFromCurrent.None?
    ensures CoordOf(h) == Coord(d.q, d.r, d.s) && d.terrain == h.terrain && d.description == h.description
    ensures d.explored == h.explored && d.visible == h.visible
  {
    HexRecord(h.q, h.r, h.s, h.terrain, h.description, h.explored, h.visible, None, None)
  }

  /**
   * `from_dict`: the constructor applied to the record's keys plus
   * `generating=False` and `distance_from_current=999`, which fails when the
   * record already carries either key.
   */
  function FromDict(d: HexRecord): (r: Result<Hex, DecodeError>)
    ensures r.Success? <==> d.generating.None? && d.distanceFromCurrent.None?
    ensures r.Success? ==> !r.value.generating && r.value.distanceFromCurrent == 999 && ToDict(r.value) == d
    ensures d.generating.Some? ==> r == Failure(DuplicateKeyword("generating"))
  {
    if d.generating.Some? then Failure(DuplicateKeyword("generating"))
    else if d.distanceFromCurrent.Some? then Failure(DuplicateKeyword("distance_from_current"))
    else Success(Hex(d.q, d.r, d.s, d.terrain, d.description, d.explored, d.visible, false, 999))
  }

  /** Saving then loading a tile resets exactly its runtime-only fields. */
  lemma HexRoundTrip(h: Hex)
    ensures FromDict(ToDict(h)) == Success(h.(generating := false, distanceFromCurrent := 999))
  {
  }
}
