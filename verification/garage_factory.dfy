/** The garage builders of the shared utilities: validated construction of zones
    with one row or with several identical rows, and of the garage around them. */
module GarageFactory {
  import opened Wrappers
  import opened Strings
  import opened Model
  import opened Capacity
  import opened CapacityCalculator

  /** The parts of generated ids. */
  const SpaceTag: string := "space-"
  const RowTag: string := "row-"
  const Dash: string := "-"

  /** `"space-<owner>-<prefix>-<n>"`. */
  function SpaceId(owner: string, prefix: string, n: nat): string {
    SpaceTag + owner + Dash + prefix + Dash + NatToString(n)
  }

  /** Within one owner, single-letter prefixes and numbers are read back from an id. */
  lemma SpaceIdInjective(owner: string, p1: string, n1: nat, p2: string, n2: nat)
    requires |p1| == 1 && |p2| == 1
    requires SpaceId(owner, p1, n1) == SpaceId(owner, p2, n2)
    ensures p1 == p2 && n1 == n2
  {
    var head := SpaceTag + owner + Dash;
    var tail1 := p1 + Dash + NatToString(n1);
    var tail2 := p2 + Dash + NatToString(n2);
    assert SpaceId(owner, p1, n1) == head + tail1;
    assert SpaceId(owner, p2, n2) == head + tail2;
    PrefixCancel(head, tail1, tail2);
    assert p1[0] == tail1[0] == tail2[0] == p2[0];
    assert p1 == p2;
    PrefixCancel(p1 + Dash, NatToString(n1), NatToString(n2));
    NatToStringInjective(n1, n2);
  }

  /** `createSpaces`: `count` spaces of one type, numbered from 1 under the row id
      when one is given and under the zone id otherwise; the row id is set only
      when given. */
  function CreateSpaces(zoneId: string, count: nat, t: VehicleType, prefix: string, garageId: string, rowId: Option<string>): (spaces: seq<Space>)
    ensures |spaces| == count
    ensures forall i :: 0 <= i < count ==>
              spaces[i].id == SpaceId(rowId.GetOr(zoneId), prefix, i + 1) &&
              spaces[i].zoneId == zoneId && spaces[i].garageId == garageId &&
              spaces[i].vehicleType == t && spaces[i].rowId == rowId.GetOr("")
  {
    seq(count, i requires 0 <= i < count =>
      Space(SpaceId(rowId.GetOr(zoneId), prefix, i + 1), zoneId, rowId.GetOr(""), garageId, t))
  }

  /** The spaces of one row of a factory-built zone: handicap ("h"), then
      motorcycle ("m"), then standard ("d"). */
  function RowSpaces(zoneId: string, h: nat, m: nat, d: nat, garageId: string, rowId: Option<string>): (spaces: seq<Space>)
    ensures |spaces| == h + m + d
    ensures forall i :: 0 <= i < |spaces| ==>
              spaces[i].zoneId == zoneId && spaces[i].garageId == garageId && spaces[i].rowId == rowId.GetOr("")
    ensures forall i :: 0 <= i < h ==> spaces[i].vehicleType == Handicap && spaces[i].id == SpaceId(rowId.GetOr(zoneId), "h", i + 1)
    ensures forall i :: h <= i < h + m ==> spaces[i].vehicleType == Motorcycle && spaces[i].id == SpaceId(rowId.GetOr(zoneId), "m", i - h + 1)
    ensures forall i :: h + m <= i < h + m + d ==> spaces[i].vehicleType == Car && spaces[i].id == SpaceId(rowId.GetOr(zoneId), "d", i - h - m + 1)
  {
    CreateSpaces(zoneId, h, Handicap, "h", garageId, rowId) +
    CreateSpaces(zoneId, m, Motorcycle, "m", garageId, rowId) +
    CreateSpaces(zoneId, d, Car, "d", garageId, rowId)
  }

  /** Such a row holds exactly `h`, `m` and `d` spaces of the three classes, and no
      two of its spaces share an id. */
  lemma RowSpacesCountsAndIds(zoneId: string, h: nat, m: nat, d: nat, garageId: string, rowId: Option<string>)
    ensures var spaces := RowSpaces(zoneId, h, m, d, garageId, rowId);
            CountType(spaces, Handicap) == h && CountType(spaces, Motorcycle) == m &&
            CountType(spaces, Car) == d && CountType(spaces, Unrecognized) == 0 &&
            forall i, j :: 0 <= i < j < |spaces| ==> spaces[i].id != spaces[j].id
  {
    var hs := CreateSpaces(zoneId, h, Handicap, "h", garageId, rowId);
    var ms := CreateSpaces(zoneId, m, Motorcycle, "m", garageId, rowId);
    var ds := CreateSpaces(zoneId, d, Car, "d", garageId, rowId);
    var spaces := RowSpaces(zoneId, h, m, d, garageId, rowId);
    assert spaces == hs + ms + ds;
    forall u ensures CountType(spaces, u) == (if u == Handicap then h else 0) + (if u == Motorcycle then m else 0) + (if u == Car then d else 0) {
      CountUniform(hs, Handicap, u);
      CountUniform(ms, Motorcycle, u);
      CountUniform(ds, Car, u);
      CountTypeAppend(hs, ms, u);
      CountTypeAppend(hs + ms, ds, u);
    }
    forall i, j | 0 <= i < j < |spaces| ensures spaces[i].id != spaces[j].id {
      var owner := rowId.GetOr(zoneId);
      var pi := if i < h then "h" else if i < h + m then "m" else "d";
      var ni := if i < h then i + 1 else if i < h + m then i - h + 1 else i - h - m + 1;
      var pj := if j < h then "h" else if j < h + m then "m" else "d";
      var nj := if j < h then j + 1 else if j < h + m then j - h + 1 else j - h - m + 1;
      assert spaces[i].id == SpaceId(owner, pi, ni);
      assert spaces[j].id == SpaceId(owner, pj, nj);
      if spaces[i].id == spaces[j].id {
        SpaceIdInjective(owner, pi, ni, pj, nj);
        assert false;
      }
    }
  }

  /** `createParkingGarage`: the zones in the given order, and a location only when
      one is given. */
  function CreateParkingGarage(id: string, zones: seq<Zone>, location: Option<Location>): (g: Garage)
    ensures g.id == id && g.zones == zones && g.location == location
  {
    Garage(id, zones, location)
  }

  /** `createParkingZone`: validates the three capacities in order, then builds a
      single row `"row-<zoneId>"` whose spaces have no row id. */
  function CreateParkingZone(zoneId: string, h: int, m: int, d: int, garageId: string): (r: Result<Zone>)
    ensures r.Failure? <==> h < 0 || m < 0 || d < 0
    ensures h < 0 ==> r == Failure("Handicap capacity cannot be negative, got " + IntToString(h))
    ensures h >= 0 && m < 0 ==> r == Failure("Motorcycle capacity cannot be negative, got " + IntToString(m))
    ensures h >= 0 && m >= 0 && d < 0 ==> r == Failure("Default capacity cannot be negative, got " + IntToString(d))
    ensures r.Success? ==>
              r.value.id == zoneId && |r.value.rows| == 1 && r.value.rows[0].id == "row-" + zoneId &&
              r.value.rows[0].spaces == RowSpaces(zoneId, h, m, d, garageId, None)
  {
    if h < 0 then Failure("Handicap capacity cannot be negative, got " + IntToString(h))
    else if m < 0 then Failure("Motorcycle capacity cannot be negative, got " + IntToString(m))
    else if d < 0 then Failure("Default capacity cannot be negative, got " + IntToString(d))
    else Success(Zone(zoneId, [Row("row-" + zoneId, RowSpaces(zoneId, h, m, d, garageId, None))]))
  }

  /** `"row-<zoneId>-<k>"`. */
  function MultiRowId(zoneId: string, k: nat): string {
    "row-" + zoneId + "-" + NatToString(k)
  }

  /** The k-th row (from 0) of a multi-row zone. */
  function MultiRow(zoneId: string, k: nat, h: nat, m: nat, d: nat, garageId: string): Row {
    Row(MultiRowId(zoneId, k + 1), RowSpaces(zoneId, h, m, d, garageId, Some(MultiRowId(zoneId, k + 1))))
  }

  /** `createParkingZoneWithRows`: validates the row count and the per-row
      capacities in order, then builds rows numbered 1 to `numRows`, each with the
      same capacities and its own row id on every space. */
  function CreateParkingZoneWithRows(zoneId: string, numRows: int, h: int, m: int, d: int, garageId: string): (r: Result<Zone>)
    ensures r.Failure? <==> numRows <= 0 || h < 0 || m < 0 || d < 0
    ensures numRows <= 0 ==> r == Failure("Number of rows must be positive, got " + IntToString(numRows))
    ensures numRows > 0 && h < 0 ==> r == Failure("Handicap capacity per row cannot be negative, got " + IntToString(h))
    ensures numRows > 0 && h >= 0 && m < 0 ==> r == Failure("Motorcycle capacity per row cannot be negative, got " + IntToString(m))
    ensures numRows > 0 && h >= 0 && m >= 0 && d < 0 ==> r == Failure("Default capacity per row cannot be negative, got " + IntToString(d))
    ensures r.Success? ==>
              r.value.id == zoneId && |r.value.rows| == numRows &&
              forall k :: 0 <= k < numRows ==>
                r.value.rows[k].id == MultiRowId(zoneId, k + 1) &&
                r.value.rows[k].spaces == RowSpaces(zoneId, h, m, d, garageId, Some(MultiRowId(zoneId, k + 1)))
  {
    if numRows <= 0 then Failure("Number of rows must be positive, got " + IntToString(numRows))
    else if h < 0 then Failure("Handicap capacity per row cannot be negative, got " + IntToString(h))
    else if m < 0 then Failure("Motorcycle capacity per row cannot be negative, got " + IntToString(m))
    else if d < 0 then Failure("Default capacity per row cannot be negative, got " + IntToString(d))
    else Success(Zone(zoneId, seq(numRows, k requires 0 <= k < numRows => MultiRow(zoneId, k, h, m, d, garageId))))
  }

  /** The rows of a multi-row zone have pairwise distinct ids. */
  lemma MultiRowIdsDistinct(zoneId: string, numRows: int, h: int, m: int, d: int, garageId: string)
    requires CreateParkingZoneWithRows(zoneId, numRows, h, m, d, garageId).Success?
    ensures DistinctRowIds(CreateParkingZoneWithRows(zoneId, numRows, h, m, d, garageId).value.rows)
  {
    var rows := CreateParkingZoneWithRows(zoneId, numRows, h, m, d, garageId).value.rows;
    forall i, j | 0 <= i < j < |rows| ensures rows[i].id != rows[j].id {
      if rows[i].id == rows[j].id {
        PrefixCancel("row-" + zoneId + "-", NatToString(i + 1), NatToString(j + 1));
        NatToStringInjective(i + 1, j + 1);
      }
    }
  }

  /** In a garage where the multi-row zone is the one found for `space`, the zone
      capacity of each class is `numRows` times the per-row count. */
  lemma MultiRowZoneCapacity(zoneId: string, numRows: int, h: int, m: int, d: int, garageId: string, garage: Garage, space: Space)
    requires CreateParkingZoneWithRows(zoneId, numRows, h, m, d, garageId).Success?
    requires FindZone(garage.zones, space.zoneId) == Some(CreateParkingZoneWithRows(zoneId, numRows, h, m, d, garageId).value)
    ensures var c := ZoneCapacity(garage, space);
            c.carCapacity == numRows * d && c.handicapCapacity == numRows * h && c.motorcycleCapacity == numRows * m
  {
    var rows := CreateParkingZoneWithRows(zoneId, numRows, h, m, d, garageId).value.rows;
    forall k | 0 <= k < |rows|
      ensures CountType(rows[k].spaces, Car) == d && CountType(rows[k].spaces, Handicap) == h &&
              CountType(rows[k].spaces, Motorcycle) == m
    {
      RowSpacesCountsAndIds(zoneId, h, m, d, garageId, Some(MultiRowId(zoneId, k + 1)));
    }
    CountUniformRows(rows, Car, d);
    CountUniformRows(rows, Handicap, h);
    CountUniformRows(rows, Motorcycle, m);
  }

  /** In the same setting, a space placed in any row of that zone sees the per-row
      counts as its row capacity. */
  lemma MultiRowRowCapacity(zoneId: string, numRows: int, h: int, m: int, d: int, garageId: string, garage: Garage, space: Space, k: nat)
    requires CreateParkingZoneWithRows(zoneId, numRows, h, m, d, garageId).Success?
    requires FindZone(garage.zones, space.zoneId) == Some(CreateParkingZoneWithRows(zoneId, numRows, h, m, d, garageId).value)
    requires k < numRows && space.rowId == MultiRowId(zoneId, k + 1)
    ensures var c := CalculateRowCapacity(garage, space);
            c.carCapacity == d && c.handicapCapacity == h && c.motorcycleCapacity == m
  {
    var rows := CreateParkingZoneWithRows(zoneId, numRows, h, m, d, garageId).value.rows;
    MultiRowIdsDistinct(zoneId, numRows, h, m, d, garageId);
    FindRowDistinct(rows, k);
    RowSpacesCountsAndIds(zoneId, h, m, d, garageId, Some(MultiRowId(zoneId, k + 1)));
    assert CapacityOf(CalculateRowCapacity(garage, space), Car) == d;
    assert CapacityOf(CalculateRowCapacity(garage, space), Handicap) == h;
    assert CapacityOf(CalculateRowCapacity(garage, space), Motorcycle) == m;
  }

  /** Two rows of (10 standard, 2 handicap, 1 motorcycle) give a zone of
      (20, 4, 2) and a row of (10, 2, 1). */
  lemma TwoRowExample(garage: Garage, space: Space)
    requires FindZone(garage.zones, space.zoneId) == Some(CreateParkingZoneWithRows("zone-1", 2, 2, 1, 10, "garage-1").value)
    requires space.rowId == MultiRowId("zone-1", 1)
    ensures var z := ZoneCapacity(garage, space);
            z.carCapacity == 20 && z.handicapCapacity == 4 && z.motorcycleCapacity == 2
    ensures var r := CalculateRowCapacity(garage, space);
            r.carCapacity == 10 && r.handicapCapacity == 2 && r.motorcycleCapacity == 1
  {
    MultiRowZoneCapacity("zone-1", 2, 2, 1, 10, "garage-1", garage, space);
    MultiRowRowCapacity("zone-1", 2, 2, 1, 10, "garage-1", garage, space, 0);
  }
}
