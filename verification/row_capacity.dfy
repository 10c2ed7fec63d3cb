/** The row-aggregation service's own copy of the row capacity resolver, which
    returns a bare triple of counts instead of a tagged capacity record. */
module RowCapacity {
  import opened Wrappers
  import opened Model
  import opened Capacity
  import opened CapacityCalculator

  /** Every field defaults to 0. */
  datatype RowCapacities = RowCapacities(carCapacity: int, handicapCapacity: int, motorcycleCapacity: int)

  const NoCapacities: RowCapacities := RowCapacities(0, 0, 0)

  /** `findCapacityOfRow`: zeros when the zone or the row is not found, otherwise
      the per-class counts of the found row's spaces. */
  function FindCapacityOfRow(garage: Garage, space: Space): (r: RowCapacities)
    ensures FindZone(garage.zones, space.zoneId).None? ==> r == NoCapacities
    ensures forall zone :: FindZone(garage.zones, space.zoneId) == Some(zone) ==>
              match FindRow(zone.rows, space.rowId)
              case None => r == NoCapacities
              case Some(row) =>
                r.carCapacity + r.handicapCapacity + r.motorcycleCapacity <= |row.spaces| &&
                r.carCapacity == CountType(row.spaces, Car) &&
                r.handicapCapacity == CountType(row.spaces, Handicap) &&
                r.motorcycleCapacity == CountType(row.spaces, Motorcycle)
  {
    match FindZone(garage.zones, space.zoneId)
    case None => NoCapacities
    case Some(zone) =>
      match FindRow(zone.rows, space.rowId)
      case None => NoCapacities
      case Some(row) =>
        CountTypesBounded(row.spaces);
        RowCapacities(CountType(row.spaces, Car), CountType(row.spaces, Handicap), CountType(row.spaces, Motorcycle))
  }

  /** The two row resolvers agree on all three counts for every garage and space. */
  lemma FindCapacityOfRowAgreesWithCalculateRowCapacity(garage: Garage, space: Space)
    ensures var r := FindCapacityOfRow(garage, space);
            var c := CalculateRowCapacity(garage, space);
            r.carCapacity == c.carCapacity && r.handicapCapacity == c.handicapCapacity &&
            r.motorcycleCapacity == c.motorcycleCapacity
  {
    match FindZone(garage.zones, space.zoneId)
    case None =>
    case Some(zone) =>
      match FindRow(zone.rows, space.rowId)
      case None =>
      case Some(row) =>
        assert CapacityOf(CalculateRowCapacity(garage, space), Car) == CountType(row.spaces, Car);
        assert CapacityOf(CalculateRowCapacity(garage, space), Handicap) == CountType(row.spaces, Handicap);
        assert CapacityOf(CalculateRowCapacity(garage, space), Motorcycle) == CountType(row.spaces, Motorcycle);
  }
}
