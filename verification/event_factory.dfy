/** The stateless parking-event factory: entry and exit events for a space, and a
    random choice between them. The clock readings and the random draws are
    parameters. */
module EventFactory {
  import opened Wrappers
  import opened Model
  import opened VehicleFactory

  /** The event timestamp, built from two readings of the millisecond clock: whole
      seconds from the first, the millisecond part of the second as nanoseconds. */
  function TimestampFromClock(firstMillis: nat, secondMillis: nat): (ts: Timestamp)
    ensures ts.seconds * 1000 <= firstMillis < ts.seconds * 1000 + 1000
    ensures 0 <= ts.nanos <= 999_000_000 && ts.nanos % 1_000_000 == 0
    ensures ts.nanos / 1_000_000 == secondMillis % 1000
  {
    Timestamp(firstMillis / 1000, (secondMillis % 1000) * 1_000_000)
  }

  /** `createEntryEvent`: ENTER, the space unchanged, and a new vehicle of the
      space's class. */
  function CreateEntryEvent(garageId: string, space: Space, draw: VehicleDraw, firstMillis: nat, secondMillis: nat): (e: ParkingEvent)
    requires VehicleDrawFor(space.vehicleType, draw)
    ensures e.eventType == Enter && e.space == space
    ensures e.vehicle == CreateVehicle(space.vehicleType, draw) && e.vehicle.vehicleType == space.vehicleType
    ensures e.timestamp == TimestampFromClock(firstMillis, secondMillis)
  {
    ParkingEvent(Enter, space, CreateVehicle(space.vehicleType, draw), TimestampFromClock(firstMillis, secondMillis))
  }

  /** The space an exit event names: no row, and the vehicle's class. */
  function ExitSpace(garageId: string, zoneId: string, spaceId: string, vehicle: Vehicle): Space {
    Space(spaceId, zoneId, "", garageId, vehicle.vehicleType)
  }

  /** `createExitEvent`: EXIT with the given vehicle, in a space rebuilt from the
      given ids, with no row id and the vehicle's class. */
  function CreateExitEvent(garageId: string, zoneId: string, spaceId: string, vehicle: Vehicle, firstMillis: nat, secondMillis: nat): (e: ParkingEvent)
    ensures e.eventType == Exit && e.vehicle == vehicle
    ensures e.space.id == spaceId && e.space.zoneId == zoneId && e.space.garageId == garageId
    ensures e.space.rowId == "" && e.space.vehicleType == vehicle.vehicleType
    ensures e.timestamp == TimestampFromClock(firstMillis, secondMillis)
  {
    ParkingEvent(Exit, ExitSpace(garageId, zoneId, spaceId, vehicle), vehicle, TimestampFromClock(firstMillis, secondMillis))
  }

  /** `createRandomEvent`: an entry when the draw says so (nine times in ten),
      otherwise an exit of a new vehicle of the space's class from that space. */
  function CreateRandomEvent(garageId: string, space: Space, entry: bool, draw: VehicleDraw, firstMillis: nat, secondMillis: nat): (e: ParkingEvent)
    requires VehicleDrawFor(space.vehicleType, draw)
    ensures e.eventType == Enter || e.eventType == Exit
    ensures e.eventType == Enter <==> entry
    ensures e.vehicle.vehicleType == space.vehicleType
    ensures e.space.id == space.id && e.space.zoneId == space.zoneId
    ensures !entry ==> e.space.garageId == garageId && e.space.rowId == ""
  {
    if entry then CreateEntryEvent(garageId, space, draw, firstMillis, secondMillis)
    else CreateExitEvent(garageId, space.zoneId, space.id, CreateVehicle(space.vehicleType, draw), firstMillis, secondMillis)
  }
}
