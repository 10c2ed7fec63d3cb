/** The REST representation of space-status records: enum mappings that reject
    values outside the DTO enums, and field-by-field copies. A thrown
    IllegalArgumentException is a `Failure` carrying its message. */
module StatusDto {
  import opened Wrappers
  import opened Model

  datatype SpaceStatusDto = VacantDto | OccupiedDto

  /** The standard class is called DEFAULT on this side. */
  datatype VehicleTypeDto = DefaultDto | HandicapDto | MotorcycleDto

  datatype ParkingSpaceDto = ParkingSpaceDto(id: string, rowId: string, zoneId: string, garageId: string, vehicleType: VehicleTypeDto)

  datatype VehicleDto = VehicleDto(id: string, licensePlate: string, state: string, vehicleType: VehicleTypeDto)

  /** `lastUpdated` is kept as the record's timestamp. */
  datatype ParkingSpaceStatusDto = ParkingSpaceStatusDto(id: string, space: ParkingSpaceDto, status: SpaceStatusDto, vehicle: Option<VehicleDto>, lastUpdated: Timestamp)

  /** `SpaceStatus.toDto`. */
  function StatusToDto(s: Status): (r: Result<SpaceStatusDto>)
    ensures r == Success(VacantDto) <==> s == Vacant
    ensures r == Success(OccupiedDto) <==> s == Occupied
    ensures r.Failure? <==> s == StatusUnrecognized
    ensures r.Failure? ==> r.error == "Unknown SpaceStatus: " + StatusName(s)
  {
    match s
    case Vacant => Success(VacantDto)
    case Occupied => Success(OccupiedDto)
    case StatusUnrecognized => Failure("Unknown SpaceStatus: " + StatusName(s))
  }

  function StatusFromDto(d: SpaceStatusDto): Status {
    match d
    case VacantDto => Vacant
    case OccupiedDto => Occupied
  }

  /** Every DTO status comes from exactly one status, and back. */
  lemma StatusDtoRoundTrip(s: Status, d: SpaceStatusDto)
    ensures StatusToDto(StatusFromDto(d)) == Success(d)
    ensures StatusToDto(s).Success? ==> StatusFromDto(StatusToDto(s).value) == s
  {
  }

  /** `VehicleType.toDto`: CAR becomes DEFAULT. */
  function VehicleTypeToDto(t: VehicleType): (r: Result<VehicleTypeDto>)
    ensures r == Success(DefaultDto) <==> t == Car
    ensures r == Success(HandicapDto) <==> t == Handicap
    ensures r == Success(MotorcycleDto) <==> t == Motorcycle
    ensures r.Failure? <==> t == Unrecognized
    ensures r.Failure? ==> r.error == "Unknown VehicleType: " + VehicleTypeName(t)
  {
    match t
    case Car => Success(DefaultDto)
    case Handicap => Success(HandicapDto)
    case Motorcycle => Success(MotorcycleDto)
    case Unrecognized => Failure("Unknown VehicleType: " + VehicleTypeName(t))
  }

  function VehicleTypeFromDto(d: VehicleTypeDto): VehicleType {
    match d
    case DefaultDto => Car
    case HandicapDto => Handicap
    case MotorcycleDto => Motorcycle
  }

  lemma VehicleTypeDtoRoundTrip(t: VehicleType, d: VehicleTypeDto)
    ensures VehicleTypeToDto(VehicleTypeFromDto(d)) == Success(d)
    ensures VehicleTypeToDto(t).Success? ==> VehicleTypeFromDto(VehicleTypeToDto(t).value) == t
  {
  }

  /** `ParkingSpace.toDto`: the four ids copied, the class mapped. */
  function SpaceToDto(s: Space): (r: Result<ParkingSpaceDto>)
    ensures r.Success? <==> s.vehicleType != Unrecognized
    ensures r.Failure? ==> r.error == VehicleTypeToDto(s.vehicleType).error
    ensures r.Success? ==>
              r.value.id == s.id && r.value.rowId == s.rowId && r.value.zoneId == s.zoneId &&
              r.value.garageId == s.garageId && VehicleTypeFromDto(r.value.vehicleType) == s.vehicleType
  {
    match VehicleTypeToDto(s.vehicleType)
    case Failure(e) => Failure(e)
    case Success(t) => Success(ParkingSpaceDto(s.id, s.rowId, s.zoneId, s.garageId, t))
  }

  /** `Vehicle.toDto`: id, plate and state copied, the class mapped. */
  function VehicleToDto(v: Vehicle): (r: Result<VehicleDto>)
    ensures r.Success? <==> v.vehicleType != Unrecognized
    ensures r.Failure? ==> r.error == VehicleTypeToDto(v.vehicleType).error
    ensures r.Success? ==>
              r.value.id == v.id && r.value.licensePlate == v.licensePlate && r.value.state == v.state &&
              VehicleTypeFromDto(r.value.vehicleType) == v.vehicleType
  {
    match VehicleTypeToDto(v.vehicleType)
    case Failure(e) => Failure(e)
    case Success(t) => Success(VehicleDto(v.id, v.licensePlate, v.state, t))
  }

  /** `ParkingSpaceStatus.toDto` as written: the protobuf accessor never yields
      null, so `vehicle?.toDto()` converts the default vehicle of a record that
      has none. Arguments are converted in order: space, status, vehicle. */
  function StatusRecordToDtoAsWritten(st: SpaceStatus): (r: Result<ParkingSpaceStatusDto>)
    ensures r.Success? ==> r.value.vehicle.Some?
  {
    match SpaceToDto(st.space)
    case Failure(e) => Failure(e)
    case Success(space) =>
      match StatusToDto(st.status)
      case Failure(e) => Failure(e)
      case Success(status) =>
        match VehicleToDto(VehicleOf(st))
        case Failure(e) => Failure(e)
        case Success(vehicle) => Success(ParkingSpaceStatusDto(st.id, space, status, Some(vehicle), st.lastUpdated))
  }

  /** A vacant record, which carries no vehicle, gets a vehicle with empty id,
      plate and state in its DTO. */
  lemma VacantRecordGetsDefaultVehicle()
    ensures var st := SpaceStatus("space-1", Space("space-1", "zone-1", "", "garage-1", Car), Vacant, None, Timestamp(0, 0));
            StatusRecordToDtoAsWritten(st).Success? &&
            StatusRecordToDtoAsWritten(st).value.vehicle == Some(VehicleDto("", "", "", DefaultDto))
  {
  }

  /** `ParkingSpaceStatus.toDto` as intended: a record without a vehicle gets no
      vehicle in its DTO. */
  function StatusRecordToDto(st: SpaceStatus): (r: Result<ParkingSpaceStatusDto>)
    ensures r.Success? <==>
              st.space.vehicleType != Unrecognized && st.status != StatusUnrecognized &&
              (st.vehicle.Some? ==> st.vehicle.value.vehicleType != Unrecognized)
    ensures r.Success? ==>
              r.value.id == st.id && Success(r.value.space) == SpaceToDto(st.space) &&
              StatusFromDto(r.value.status) == st.status && r.value.lastUpdated == st.lastUpdated &&
              (r.value.vehicle.None? <==> st.vehicle.None?) &&
              (st.vehicle.Some? ==> Success(r.value.vehicle.value) == VehicleToDto(st.vehicle.value))
    ensures r.Failure? && st.space.vehicleType == Unrecognized ==> r.error == "Unknown VehicleType: UNRECOGNIZED"
    ensures r.Failure? && st.space.vehicleType != Unrecognized && st.status == StatusUnrecognized ==>
              r.error == "Unknown SpaceStatus: UNRECOGNIZED"
  {
    match SpaceToDto(st.space)
    case Failure(e) => Failure(e)
    case Success(space) =>
      match StatusToDto(st.status)
      case Failure(e) => Failure(e)
      case Success(status) =>
        match st.vehicle
        case None => Success(ParkingSpaceStatusDto(st.id, space, status, None, st.lastUpdated))
        case Some(v) =>
          match VehicleToDto(v)
          case Failure(e) => Failure(e)
          case Success(vehicle) => Success(ParkingSpaceStatusDto(st.id, space, status, Some(vehicle), st.lastUpdated))
  }

  /** The two agree on every record that carries a vehicle. */
  lemma AsWrittenAgreesWithVehicle(st: SpaceStatus)
    requires st.vehicle.Some?
    ensures StatusRecordToDtoAsWritten(st) == StatusRecordToDto(st)
  {
  }

  /** The as-written conversion of each record, as `map { it.toDto() }` applies it. */
  function RecordResults(sts: seq<SpaceStatus>): (rs: seq<Result<ParkingSpaceStatusDto>>)
    ensures |rs| == |sts| && forall i :: 0 <= i < |sts| ==> rs[i] == StatusRecordToDtoAsWritten(sts[i])
  {
    seq(|sts|, i requires 0 <= i < |sts| => StatusRecordToDtoAsWritten(sts[i]))
  }

  /** `toDtoList`: every record converted as written, in order; the first record
      that fails decides the error. Every converted record carries a vehicle. */
  function ToDtoList(sts: seq<SpaceStatus>): (r: Result<seq<ParkingSpaceStatusDto>>)
    ensures r.Success? <==> forall i :: 0 <= i < |sts| ==> StatusRecordToDtoAsWritten(sts[i]).Success?
    ensures r.Success? ==>
              |r.value| == |sts| && forall i :: 0 <= i < |sts| ==> Success(r.value[i]) == StatusRecordToDtoAsWritten(sts[i])
    ensures r.Success? ==> forall i :: 0 <= i < |r.value| ==> r.value[i].vehicle.Some?
    ensures r.Failure? ==>
              exists i :: 0 <= i < |sts| && StatusRecordToDtoAsWritten(sts[i]) == Failure(r.error) &&
                forall j :: 0 <= j < i ==> StatusRecordToDtoAsWritten(sts[j]).Success?
  {
    Collect(RecordResults(sts))
  }

  /** The intended conversion of each record. */
  function IntendedRecordResults(sts: seq<SpaceStatus>): (rs: seq<Result<ParkingSpaceStatusDto>>)
    ensures |rs| == |sts| && forall i :: 0 <= i < |sts| ==> rs[i] == StatusRecordToDto(sts[i])
  {
    seq(|sts|, i requires 0 <= i < |sts| => StatusRecordToDto(sts[i]))
  }

  /** `toDtoList` over the intended record conversion: a record without a vehicle
      keeps none in its DTO. */
  function ToDtoListIntended(sts: seq<SpaceStatus>): (r: Result<seq<ParkingSpaceStatusDto>>)
    ensures r.Success? <==> forall i :: 0 <= i < |sts| ==> StatusRecordToDto(sts[i]).Success?
    ensures r.Success? ==>
              |r.value| == |sts| && forall i :: 0 <= i < |sts| ==> Success(r.value[i]) == StatusRecordToDto(sts[i])
    ensures r.Success? ==> forall i :: 0 <= i < |sts| ==> (r.value[i].vehicle.None? <==> sts[i].vehicle.None?)
    ensures r.Failure? ==>
              exists i :: 0 <= i < |sts| && StatusRecordToDto(sts[i]) == Failure(r.error) &&
                forall j :: 0 <= j < i ==> StatusRecordToDto(sts[j]).Success?
  {
    Collect(IntendedRecordResults(sts))
  }

  /** The two lists agree when every record carries a vehicle. */
  lemma ToDtoListAgreesWithVehicles(sts: seq<SpaceStatus>)
    requires forall i :: 0 <= i < |sts| ==> sts[i].vehicle.Some?
    ensures ToDtoList(sts) == ToDtoListIntended(sts)
  {
    forall i | 0 <= i < |sts| ensures RecordResults(sts)[i] == IntendedRecordResults(sts)[i] {
      AsWrittenAgreesWithVehicle(sts[i]);
    }
    assert RecordResults(sts) == IntendedRecordResults(sts);
  }

  /** A list holding one vacant record without a vehicle converts, as written, to
      a DTO carrying the empty default vehicle, and to one without a vehicle as
      intended. */
  lemma VacantListDiffers()
    ensures var sts := [SpaceStatus("space-1", Space("space-1", "zone-1", "", "garage-1", Car), Vacant, None, Timestamp(0, 0))];
            ToDtoList(sts).Success? && ToDtoList(sts).value[0].vehicle == Some(VehicleDto("", "", "", DefaultDto)) &&
            ToDtoListIntended(sts).Success? && ToDtoListIntended(sts).value[0].vehicle.None?
  {
    var sts := [SpaceStatus("space-1", Space("space-1", "zone-1", "", "garage-1", Car), Vacant, None, Timestamp(0, 0))];
    VacantRecordGetsDefaultVehicle();
    assert StatusRecordToDtoAsWritten(sts[0]).Success?;
    assert StatusRecordToDto(sts[0]).Success?;
  }
}
