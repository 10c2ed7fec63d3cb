/** The first space-status processor: a stateless mapping in which every parking
    event becomes exactly one status record under the same key, OCCUPIED for
    ENTER and VACANT for every other type. */
module UnguardedSpaceStatus {
  import opened Wrappers
  import opened Model
  import GuardedSpaceStatus

  /** `createVacantStatus`: no vehicle is attached. */
  function CreateVacantStatus(event: ParkingEvent, now: Timestamp): (s: SpaceStatus)
    ensures s.id == event.space.id && s.space == event.space && s.lastUpdated == now
    ensures s.status == Vacant && s.vehicle.None?
  {
    SpaceStatus(event.space.id, event.space, Vacant, None, now)
  }

  /** `createOccupiedStatus`: the event's vehicle is attached. */
  function CreateOccupiedStatus(event: ParkingEvent, now: Timestamp): (s: SpaceStatus)
    ensures s.id == event.space.id && s.space == event.space && s.lastUpdated == now
    ensures s.status == Occupied && s.vehicle == Some(event.vehicle)
  {
    SpaceStatus(event.space.id, event.space, Occupied, Some(event.vehicle), now)
  }

  /** The `mapValues` step for one record; the key is passed through. */
  function Process(key: string, event: ParkingEvent, now: Timestamp): (out: GuardedSpaceStatus.Output)
    ensures out.key == key
    ensures out.value.id == event.space.id && out.value.space == event.space
    ensures out.value.status == Occupied <==> event.eventType == Enter
    ensures out.value.status != StatusUnrecognized
    ensures out.value.vehicle == (if event.eventType == Enter then Some(event.vehicle) else None)
  {
    match event.eventType
    case Enter => GuardedSpaceStatus.Output(key, CreateOccupiedStatus(event, now))
    case _ => GuardedSpaceStatus.Output(key, CreateVacantStatus(event, now))
  }

  /** Every input record yields exactly one output record, in order. */
  function ProcessAll(inputs: seq<GuardedSpaceStatus.Input>): (outs: seq<GuardedSpaceStatus.Output>)
    ensures |outs| == |inputs|
    ensures forall i :: 0 <= i < |inputs| ==> outs[i] == Process(inputs[i].key, inputs[i].event, inputs[i].now)
  {
    seq(|inputs|, i requires 0 <= i < |inputs| => Process(inputs[i].key, inputs[i].event, inputs[i].now))
  }

  /** Whenever the guarded processor admits an event, it emits exactly what this
      unguarded one emits for it. */
  lemma GuardedAgreesWhenAdmitted(table: GuardedSpaceStatus.StatusTable, input: GuardedSpaceStatus.Input)
    requires GuardedSpaceStatus.Step(table, input).1.Some?
    ensures GuardedSpaceStatus.Step(table, input).1.value == Process(input.key, input.event, input.now)
  {
  }
}
