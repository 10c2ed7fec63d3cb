/** The JSON representation of a parking event sent by the data generator, with
    the timestamp flattened to epoch milliseconds. */
module EventDto {
  import opened Wrappers
  import opened Model
  import GarageDto
  import EventFactory

  datatype ParkingEventDto = ParkingEventDto(eventType: string, space: GarageDto.ParkingSpaceDto, vehicle: Vehicle, timestamp: int)

  /** `seconds * 1000 + nanos / 1_000_000`, the division truncating toward zero. */
  function TimestampMillis(ts: Timestamp): (ms: int)
    ensures 0 <= ts.nanos < 1_000_000_000 ==> ts.seconds * 1000 <= ms < ts.seconds * 1000 + 1000
    ensures ts.nanos >= 0 ==> ms == ts.seconds * 1000 + ts.nanos / 1_000_000
  {
    ts.seconds * 1000 + TruncDiv(ts.nanos, 1_000_000)
  }

  /** `fromParkingEvent`. */
  function FromParkingEvent(e: ParkingEvent): (d: ParkingEventDto)
    ensures d.eventType == EventTypeName(e.eventType)
    ensures d.space == GarageDto.SpaceToDto(e.space) && d.vehicle == e.vehicle
    ensures d.timestamp == TimestampMillis(e.timestamp)
  {
    ParkingEventDto(EventTypeName(e.eventType), GarageDto.SpaceToDto(e.space), e.vehicle, TimestampMillis(e.timestamp))
  }

  /** For a well-formed timestamp the milliseconds give back the seconds (and, for
      non-negative seconds, so does the truncating division by 1000) and the
      millisecond part of the nanoseconds. */
  lemma MillisKeepSeconds(ts: Timestamp)
    requires 0 <= ts.nanos < 1_000_000_000
    ensures TimestampMillis(ts) / 1000 == ts.seconds
    ensures TimestampMillis(ts) % 1000 == ts.nanos / 1_000_000
    ensures ts.seconds >= 0 ==> TruncDiv(TimestampMillis(ts), 1000) == ts.seconds
  {
    var ms := TimestampMillis(ts);
    var k := ts.nanos / 1_000_000;
    assert ms == ts.seconds * 1000 + k && 0 <= k < 1000;
  }

  /** A timestamp the event factory builds from a single clock reading converts
      back to that reading. */
  lemma FactoryTimestampRoundTrip(millis: nat)
    ensures TimestampMillis(EventFactory.TimestampFromClock(millis, millis)) == millis
  {
    var ts := EventFactory.TimestampFromClock(millis, millis);
    assert ts.nanos / 1_000_000 == millis % 1000;
    assert ts.seconds == millis / 1000;
  }
}
