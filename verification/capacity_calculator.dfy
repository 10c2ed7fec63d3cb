/** The capacity resolver: walks garage, zones, rows and spaces and counts the
    spaces of each vehicle-type class, for the zone or for the row of a space. */
module CapacityCalculator {
  import opened Wrappers
  import opened Model
  import opened Capacity

  /** Kotlin's `count { it.type == t }`. */
  function CountType(spaces: seq<Space>, t: VehicleType): (n: nat)
    ensures n <= |spaces|
  {
    if spaces == [] then 0
    else (if spaces[0].vehicleType == t then 1 else 0) + CountType(spaces[1..], t)
  }

  lemma {:induction false} CountTypeAppend(a: seq<Space>, b: seq<Space>, t: VehicleType)
    ensures CountType(a + b, t) == CountType(a, t) + CountType(b, t)
  {
    if a == [] {
      assert a + b == b;
    } else {
      assert (a + b)[1..] == a[1..] + b;
      CountTypeAppend(a[1..], b, t);
    }
  }

  /** The three counted classes together never exceed the number of spaces,
      because spaces of any other type are ignored. */
  lemma {:induction false} CountTypesBounded(spaces: seq<Space>)
    ensures CountType(spaces, Car) + CountType(spaces, Handicap) + CountType(spaces, Motorcycle) <= |spaces|
  {
    if spaces != [] {
      CountTypesBounded(spaces[1..]);
    }
  }

  /** Every space of every row, in order. */
  function AllSpaces(rows: seq<Row>): seq<Space> {
    if rows == [] then [] else AllSpaces(rows[..|rows| - 1]) + rows[|rows| - 1].spaces
  }

  /** Kotlin's `find { it.id == id }`: the first element whose id is `id`, and
      nothing exactly when no element has it. */
  function FindById<T>(xs: seq<T>, idOf: T -> string, id: string): (r: Option<T>)
    ensures r.None? <==> forall i :: 0 <= i < |xs| ==> idOf(xs[i]) != id
    ensures r.Some? ==> exists i :: 0 <= i < |xs| && xs[i] == r.value && idOf(r.value) == id &&
                                    forall j :: 0 <= j < i ==> idOf(xs[j]) != id
  {
    if xs == [] then None
    else if idOf(xs[0]) == id then Some(xs[0])
    else
      var r := FindById(xs[1..], idOf, id);
      assert r.Some? ==> exists i :: 0 <= i < |xs| && xs[i] == r.value && idOf(r.value) == id &&
                                     forall j :: 0 <= j < i ==> idOf(xs[j]) != id
        by {
          if r.Some? {
            var i :| 0 <= i < |xs| - 1 && xs[1..][i] == r.value && idOf(r.value) == id &&
                     forall j :: 0 <= j < i ==> idOf(xs[1..][j]) != id;
            assert xs[i + 1] == r.value;
            assert forall j :: 0 <= j < i + 1 ==> idOf(xs[j]) != id by {
              forall j | 0 <= j < i + 1 ensures idOf(xs[j]) != id {
                if j > 0 { assert xs[j] == xs[1..][j - 1]; }
              }
            }
          }
        }
      r
  }

  /** The zone of a garage with the given id. */
  function FindZone(zones: seq<Zone>, id: string): Option<Zone> {
    FindById(zones, (z: Zone) => z.id, id)
  }

  /** The row of a zone with the given id. */
  function FindRow(rows: seq<Row>, id: string): Option<Row> {
    FindById(rows, (r: Row) => r.id, id)
  }

  /** What the zone resolver promises: for the first zone whose id is the space's
      zone id, the number of spaces of each class across all of its rows; all zero
      when no zone matches; tagged ZONE either way. */
  function ZoneCapacity(garage: Garage, space: Space): CapacityData {
    match FindZone(garage.zones, space.zoneId)
    case None => EmptyCapacity(Some(ZoneLevel))
    case Some(zone) =>
      var all := AllSpaces(zone.rows);
      CapacityData(CountType(all, Car), CountType(all, Handicap), CountType(all, Motorcycle), Some(ZoneLevel))
  }

  /** `calculateZoneCapacity`: three running totals, one row at a time. */
  method CalculateZoneCapacity(garage: Garage, space: Space) returns (c: CapacityData)
    ensures c == ZoneCapacity(garage, space)
  {
    var found := FindZone(garage.zones, space.zoneId);
    if found.None? {
      return EmptyCapacity(Some(ZoneLevel));
    }
    var rows := found.value.rows;
    var carCapacity, handicapCapacity, motorcycleCapacity := 0, 0, 0;
    for i := 0 to |rows|
      invariant carCapacity == CountType(AllSpaces(rows[..i]), Car)
      invariant handicapCapacity == CountType(AllSpaces(rows[..i]), Handicap)
      invariant motorcycleCapacity == CountType(AllSpaces(rows[..i]), Motorcycle)
    {
      var row := rows[i];
      carCapacity := carCapacity + CountType(row.spaces, Car);
      handicapCapacity := handicapCapacity + CountType(row.spaces, Handicap);
      motorcycleCapacity := motorcycleCapacity + CountType(row.spaces, Motorcycle);
      assert rows[..i + 1][..i] == rows[..i];
      assert AllSpaces(rows[..i + 1]) == AllSpaces(rows[..i]) + row.spaces;
      CountTypeAppend(AllSpaces(rows[..i]), row.spaces, Car);
      CountTypeAppend(AllSpaces(rows[..i]), row.spaces, Handicap);
      CountTypeAppend(AllSpaces(rows[..i]), row.spaces, Motorcycle);
    }
    assert rows[..|rows|] == rows;
    c := CapacityData(carCapacity, handicapCapacity, motorcycleCapacity, Some(ZoneLevel));
  }

  /** `calculateRowCapacity`: counts only within the first row whose id is the
      space's row id, inside the first zone whose id is the space's zone id. */
  function CalculateRowCapacity(garage: Garage, space: Space): (c: CapacityData)
    ensures c.capacityType == Some(RowLevel)
    ensures FindZone(garage.zones, space.zoneId).None? ==> c == EmptyCapacity(Some(RowLevel))
    ensures forall zone :: FindZone(garage.zones, space.zoneId) == Some(zone) ==>
              match FindRow(zone.rows, space.rowId)
              case None => c == EmptyCapacity(Some(RowLevel))
              case Some(row) =>
                forall t :: t != Unrecognized ==> CapacityOf(c, t) == CountType(row.spaces, t)
  {
    match FindZone(garage.zones, space.zoneId)
    case None => EmptyCapacity(Some(RowLevel))
    case Some(zone) =>
      match FindRow(zone.rows, space.rowId)
      case None => EmptyCapacity(Some(RowLevel))
      case Some(row) =>
        CapacityData(CountType(row.spaces, Car), CountType(row.spaces, Handicap),
                     CountType(row.spaces, Motorcycle), Some(RowLevel))
  }

  /** The zone resolver's three counts never exceed the number of spaces in the zone. */
  lemma ZoneCapacityBounded(garage: Garage, space: Space)
    ensures var c := ZoneCapacity(garage, space);
            c.carCapacity + c.handicapCapacity + c.motorcycleCapacity <=
              match FindZone(garage.zones, space.zoneId)
              case None => 0
              case Some(zone) => |AllSpaces(zone.rows)|
  {
    match FindZone(garage.zones, space.zoneId)
    case None =>
    case Some(zone) => CountTypesBounded(AllSpaces(zone.rows));
  }

  predicate DistinctRowIds(rows: seq<Row>) {
    forall i, j :: 0 <= i < j < |rows| ==> rows[i].id != rows[j].id
  }

  /** Sum, over `rows`, of the row capacity of class `t` that the row resolver gives
      a space of the same zone placed in that row. */
  ghost function SumOfRowCapacities(garage: Garage, space: Space, rows: seq<Row>, t: VehicleType): int {
    if rows == [] then 0
    else SumOfRowCapacities(garage, space, rows[..|rows| - 1], t) +
         CapacityOf(CalculateRowCapacity(garage, space.(rowId := rows[|rows| - 1].id)), t)
  }

  lemma FindRowDistinct(rows: seq<Row>, i: int)
    requires DistinctRowIds(rows) && 0 <= i < |rows|
    ensures FindRow(rows, rows[i].id) == Some(rows[i])
  {
    var r := FindRow(rows, rows[i].id);
    var k :| 0 <= k < |rows| && rows[k] == r.value && r.value.id == rows[i].id &&
             forall j :: 0 <= j < k ==> rows[j].id != rows[i].id;
    assert k == i;
  }

  lemma {:induction false} SumOfRowCapacitiesCountsPrefix(garage: Garage, space: Space, zone: Zone, n: nat, t: VehicleType)
    requires FindZone(garage.zones, space.zoneId) == Some(zone)
    requires DistinctRowIds(zone.rows) && n <= |zone.rows| && t != Unrecognized
    ensures SumOfRowCapacities(garage, space, zone.rows[..n], t) == CountType(AllSpaces(zone.rows[..n]), t)
  {
    if n > 0 {
      var rows := zone.rows[..n];
      assert rows[..n - 1] == zone.rows[..n - 1];
      SumOfRowCapacitiesCountsPrefix(garage, space, zone, n - 1, t);
      var s := space.(rowId := zone.rows[n - 1].id);
      FindRowDistinct(zone.rows, n - 1);
      assert FindZone(garage.zones, s.zoneId) == Some(zone);
      assert CapacityOf(CalculateRowCapacity(garage, s), t) == CountType(zone.rows[n - 1].spaces, t);
      CountTypeAppend(AllSpaces(rows[..n - 1]), rows[n - 1].spaces, t);
    }
  }

  /** Zone capacity is the sum of the capacities of the zone's rows (when the rows
      of the zone have distinct ids, so that each row is found by its own id). */
  lemma ZoneCapacityIsSumOfRowCapacities(garage: Garage, space: Space, zone: Zone, t: VehicleType)
    requires FindZone(garage.zones, space.zoneId) == Some(zone)
    requires DistinctRowIds(zone.rows)
    ensures CapacityOf(ZoneCapacity(garage, space), t) == SumOfRowCapacities(garage, space, zone.rows, t)
  {
    if t == Unrecognized {
      ZeroSum(garage, space, zone.rows);
    } else {
      SumOfRowCapacitiesCountsPrefix(garage, space, zone, |zone.rows|, t);
      assert zone.rows[..|zone.rows|] == zone.rows;
    }
  }

  lemma {:induction false} ZeroSum(garage: Garage, space: Space, rows: seq<Row>)
    ensures SumOfRowCapacities(garage, space, rows, Unrecognized) == 0
  {
    if rows != [] {
      ZeroSum(garage, space, rows[..|rows| - 1]);
    }
  }

  /** Spaces that all have one type count fully for that type and not at all for
      any other. */
  lemma {:induction false} CountUniform(spaces: seq<Space>, t: VehicleType, u: VehicleType)
    requires forall i :: 0 <= i < |spaces| ==> spaces[i].vehicleType == t
    ensures CountType(spaces, u) == if u == t then |spaces| else 0
  {
    if spaces != [] {
      CountUniform(spaces[1..], t, u);
    }
  }

  /** Rows that each hold `n` spaces of a type hold `|rows| * n` of them together. */
  lemma {:induction false} CountUniformRows(rows: seq<Row>, t: VehicleType, n: nat)
    requires forall k :: 0 <= k < |rows| ==> CountType(rows[k].spaces, t) == n
    ensures CountType(AllSpaces(rows), t) == |rows| * n
  {
    if rows != [] {
      var init := rows[..|rows| - 1];
      assert forall k :: 0 <= k < |init| ==> init[k] == rows[k];
      CountUniformRows(init, t, n);
      assert AllSpaces(rows) == AllSpaces(init) + rows[|rows| - 1].spaces;
      assert |init| * n + n == |rows| * n by {
        assert |rows| * n == (|init| + 1) * n;
      }
      CountTypeAppend(AllSpaces(init), rows[|rows| - 1].spaces, t);
    }
  }
}
