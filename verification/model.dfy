/** The message types the pipeline exchanges: garage topology, vehicles, parking
    events and per-space status records. Fields follow the protobuf messages as the
    code reads them: a scalar field that was never set reads as its default value
    (the empty string for `rowId`), and a message field reads as the default
    instance, never as null. */
module Model {
  import opened Wrappers

  /** The vehicle-type class of a space or a vehicle. `Car` is the standard class
      (named CAR in most files and DEFAULT in the vehicle factory);
      `Unrecognized` stands for any enum number the code does not list. */
  datatype VehicleType = Car | Handicap | Motorcycle | Unrecognized

  datatype Space = Space(id: string, zoneId: string, rowId: string, garageId: string, vehicleType: VehicleType)

  datatype Row = Row(id: string, spaces: seq<Space>)

  datatype Zone = Zone(id: string, rows: seq<Row>)

  datatype Location = Location(latitude: string, longitude: string)

  datatype Garage = Garage(id: string, zones: seq<Zone>, location: Option<Location>)

  datatype Vehicle = Vehicle(id: string, licensePlate: string, state: string, vehicleType: VehicleType)

  datatype EventType = Enter | Exit | EventUnrecognized

  /** A protobuf Timestamp; the pipeline copies it and never interprets it. */
  datatype Timestamp = Timestamp(seconds: int, nanos: int)

  datatype ParkingEvent = ParkingEvent(eventType: EventType, space: Space, vehicle: Vehicle, timestamp: Timestamp)

  datatype Status = Vacant | Occupied | StatusUnrecognized

  /** A per-space status record; `vehicle` is `None` when the field was never set. */
  datatype SpaceStatus = SpaceStatus(id: string, space: Space, status: Status, vehicle: Option<Vehicle>, lastUpdated: Timestamp)

  /** The protobuf default instance of Vehicle, read from a status whose vehicle
      field is unset (the enum's first value is the standard class). */
  const DefaultVehicle: Vehicle := Vehicle("", "", "", Car)

  /** The protobuf accessor `getVehicle()`. */
  function VehicleOf(s: SpaceStatus): Vehicle {
    s.vehicle.GetOr(DefaultVehicle)
  }

  /** The enum constant's `name`. */
  function VehicleTypeName(t: VehicleType): string {
    match t
    case Car => "CAR"
    case Handicap => "HANDICAP"
    case Motorcycle => "MOTORCYCLE"
    case Unrecognized => "UNRECOGNIZED"
  }

  function EventTypeName(t: EventType): string {
    match t
    case Enter => "ENTER"
    case Exit => "EXIT"
    case EventUnrecognized => "UNRECOGNIZED"
  }

  function StatusName(s: Status): string {
    match s
    case Vacant => "VACANT"
    case Occupied => "OCCUPIED"
    case StatusUnrecognized => "UNRECOGNIZED"
  }
}
