/** The later stateless space-status processor: the same mapping as the first
    one, built with the shared status builder (whose text is identical in the
    guarded processor). */
module StatelessSpaceStatus {
  import opened Model
  import GuardedSpaceStatus
  import UnguardedSpaceStatus

  /** The `mapValues` step for one record; the key is passed through. */
  function Process(key: string, event: ParkingEvent, now: Timestamp): (out: GuardedSpaceStatus.Output)
    ensures out.key == key
    ensures out.value.id == event.space.id && out.value.space == event.space
    ensures out.value.status == Occupied <==> event.eventType == Enter
    ensures out.value.vehicle.Some? <==> out.value.status == Occupied
  {
    match event.eventType
    case Enter => GuardedSpaceStatus.Output(key, GuardedSpaceStatus.MkStatus(event, Occupied, now))
    case _ => GuardedSpaceStatus.Output(key, GuardedSpaceStatus.MkStatus(event, Vacant, now))
  }

  /** The two stateless processors produce identical records for every input. */
  lemma AgreesWithUnguarded(key: string, event: ParkingEvent, now: Timestamp)
    ensures Process(key, event, now) == UnguardedSpaceStatus.Process(key, event, now)
  {
  }
}
