/** The capacity record returned by the capacity resolver. */
module Capacity {
  import opened Wrappers
  import opened Model

  /** Which resolver produced a record. */
  datatype CapacityType = ZoneLevel | RowLevel

  /** Capacities of the three counted vehicle-type classes; every count defaults
      to 0 and the tag to absent. */
  datatype CapacityData = CapacityData(carCapacity: int, handicapCapacity: int, motorcycleCapacity: int, capacityType: Option<CapacityType>)

  /** `CapacityData(type = t)`: the all-default record with tag `t`. */
  function EmptyCapacity(t: Option<CapacityType>): (c: CapacityData)
    ensures c.carCapacity == 0 && c.handicapCapacity == 0 && c.motorcycleCapacity == 0
    ensures c.capacityType == t
  {
    CapacityData(0, 0, 0, t)
  }

  /** The capacity a record gives a vehicle-type class; classes it does not count get 0. */
  function CapacityOf(c: CapacityData, t: VehicleType): int {
    match t
    case Car => c.carCapacity
    case Handicap => c.handicapCapacity
    case Motorcycle => c.motorcycleCapacity
    case Unrecognized => 0
  }
}
