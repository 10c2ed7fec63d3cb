/** The JSON representation of a garage topology served by the application: the
    same tree, with an unset row id shown as absent and the vehicle class by its
    enum name. */
module GarageDto {
  import opened Wrappers
  import opened Model

  datatype LocationDto = LocationDto(latitude: string, longitude: string)

  datatype ParkingSpaceDto = ParkingSpaceDto(id: string, rowId: Option<string>, zoneId: string, garageId: string, vehicleType: string)

  datatype ParkingRowDto = ParkingRowDto(id: string, spaces: seq<ParkingSpaceDto>)

  datatype ParkingZoneDto = ParkingZoneDto(id: string, rows: seq<ParkingRowDto>)

  datatype ParkingGarageDto = ParkingGarageDto(id: string, zones: seq<ParkingZoneDto>, location: Option<LocationDto>)

  function LocationToDto(l: Location): (d: LocationDto)
    ensures d.latitude == l.latitude && d.longitude == l.longitude
  {
    LocationDto(l.latitude, l.longitude)
  }

  /** `ParkingSpace.toDto`: an empty row id becomes absent; the class becomes its
      name. */
  function SpaceToDto(s: Space): (d: ParkingSpaceDto)
    ensures d.rowId.None? <==> s.rowId == ""
    ensures d.rowId.Some? ==> d.rowId.value == s.rowId
    ensures d.id == s.id && d.zoneId == s.zoneId && d.garageId == s.garageId
    ensures d.vehicleType == VehicleTypeName(s.vehicleType)
  {
    ParkingSpaceDto(s.id, if s.rowId != "" then Some(s.rowId) else None, s.zoneId, s.garageId, VehicleTypeName(s.vehicleType))
  }

  function RowToDto(r: Row): (d: ParkingRowDto)
    ensures d.id == r.id && |d.spaces| == |r.spaces|
    ensures forall i :: 0 <= i < |r.spaces| ==> d.spaces[i] == SpaceToDto(r.spaces[i])
  {
    ParkingRowDto(r.id, seq(|r.spaces|, i requires 0 <= i < |r.spaces| => SpaceToDto(r.spaces[i])))
  }

  function ZoneToDto(z: Zone): (d: ParkingZoneDto)
    ensures d.id == z.id && |d.rows| == |z.rows|
    ensures forall i :: 0 <= i < |z.rows| ==> d.rows[i] == RowToDto(z.rows[i])
  {
    ParkingZoneDto(z.id, seq(|z.rows|, i requires 0 <= i < |z.rows| => RowToDto(z.rows[i])))
  }

  /** `ParkingGarage.toDto`: a location only when the garage has one. */
  function GarageToDto(g: Garage): (d: ParkingGarageDto)
    ensures d.id == g.id && |d.zones| == |g.zones|
    ensures forall i :: 0 <= i < |g.zones| ==> d.zones[i] == ZoneToDto(g.zones[i])
    ensures d.location.None? <==> g.location.None?
    ensures g.location.Some? ==> d.location == Some(LocationToDto(g.location.value))
  {
    ParkingGarageDto(g.id, seq(|g.zones|, i requires 0 <= i < |g.zones| => ZoneToDto(g.zones[i])),
                     if g.location.Some? then Some(LocationToDto(g.location.value)) else None)
  }

  /** Reading a DTO back: an absent row id is the empty string, and a class name
      outside the enum is an unrecognized class. */
  function VehicleTypeFromName(name: string): VehicleType {
    if name == "CAR" then Car
    else if name == "HANDICAP" then Handicap
    else if name == "MOTORCYCLE" then Motorcycle
    else Unrecognized
  }

  function SpaceFromDto(d: ParkingSpaceDto): Space {
    Space(d.id, d.zoneId, d.rowId.GetOr(""), d.garageId, VehicleTypeFromName(d.vehicleType))
  }

  function RowFromDto(d: ParkingRowDto): Row {
    Row(d.id, seq(|d.spaces|, i requires 0 <= i < |d.spaces| => SpaceFromDto(d.spaces[i])))
  }

  function ZoneFromDto(d: ParkingZoneDto): Zone {
    Zone(d.id, seq(|d.rows|, i requires 0 <= i < |d.rows| => RowFromDto(d.rows[i])))
  }

  function GarageFromDto(d: ParkingGarageDto): Garage {
    Garage(d.id, seq(|d.zones|, i requires 0 <= i < |d.zones| => ZoneFromDto(d.zones[i])),
           if d.location.Some? then Some(Location(d.location.value.latitude, d.location.value.longitude)) else None)
  }

  /** The DTO loses nothing: the garage can be read back from it. */
  lemma SpaceRoundTrip(s: Space)
    ensures SpaceFromDto(SpaceToDto(s)) == s
  {
  }

  lemma RowRoundTrip(r: Row)
    ensures RowFromDto(RowToDto(r)) == r
  {
    var back := RowFromDto(RowToDto(r));
    forall i | 0 <= i < |r.spaces| ensures back.spaces[i] == r.spaces[i] {
      SpaceRoundTrip(r.spaces[i]);
    }
  }

  lemma ZoneRoundTrip(z: Zone)
    ensures ZoneFromDto(ZoneToDto(z)) == z
  {
    var back := ZoneFromDto(ZoneToDto(z));
    forall i | 0 <= i < |z.rows| ensures back.rows[i] == z.rows[i] {
      RowRoundTrip(z.rows[i]);
    }
  }

  lemma GarageRoundTrip(g: Garage)
    ensures GarageFromDto(GarageToDto(g)) == g
  {
    var back := GarageFromDto(GarageToDto(g));
    forall i | 0 <= i < |g.zones| ensures back.zones[i] == g.zones[i] {
      ZoneRoundTrip(g.zones[i]);
    }
  }
}
