/** The event factory that remembers which vehicles are parked in each garage,
    so that its random events exit vehicles that entered before. */
module TrackingEventFactory {
  import opened Wrappers
  import opened Strings
  import opened Model
  import opened VehicleFactory
  import EventFactory

  /** Vehicle ids parked per garage id. */
  type ActiveVehicles = map<string, set<string>>

  /** The number of parked vehicles `createRandomEvent` takes a garage to hold. */
  const TotalSpacesForGarage: int := 100

  /** The set of a garage, empty for a garage never seen. */
  function ActiveIn(active: ActiveVehicles, garageId: string): (ids: set<string>)
    ensures garageId !in active ==> ids == {}
  {
    if garageId in active then active[garageId] else {}
  }

  /** After an entry: the vehicle joins its garage's set, created if absent. */
  function AfterEntry(active: ActiveVehicles, garageId: string, vehicleId: string): (r: ActiveVehicles)
    ensures ActiveIn(r, garageId) == ActiveIn(active, garageId) + {vehicleId}
    ensures forall g :: g != garageId ==> ActiveIn(r, g) == ActiveIn(active, g)
  {
    active[garageId := ActiveIn(active, garageId) + {vehicleId}]
  }

  /** After an exit: the vehicle leaves its garage's set; a garage never seen
      stays absent. */
  function AfterExit(active: ActiveVehicles, garageId: string, vehicleId: string): (r: ActiveVehicles)
    ensures ActiveIn(r, garageId) == ActiveIn(active, garageId) - {vehicleId}
    ensures forall g :: g != garageId ==> ActiveIn(r, g) == ActiveIn(active, g)
    ensures r.Keys == active.Keys
  {
    if garageId in active then active[garageId := active[garageId] - {vehicleId}] else active
  }

  /** Whether `createRandomEvent` makes an entry: always for an empty garage, never
      for a full one, otherwise as the draw says (six times in ten). */
  function ShouldCreateEntry(activeCount: nat, entryDraw: bool): bool {
    if activeCount == 0 then true
    else if activeCount >= TotalSpacesForGarage then false
    else entryDraw
  }

  /** The stand-in vehicle of a random exit: the parked id, a plate made of
      `EXIT-` and the id's last six characters, state CA, the space's class. */
  function ExitVehicle(vehicleId: string, t: VehicleType): (v: Vehicle)
    ensures v.id == vehicleId && v.state == "CA" && v.vehicleType == t
    ensures StartsWith(v.licensePlate, "EXIT-") && v.licensePlate[5..] == TakeLast(vehicleId, 6)
    ensures |v.licensePlate| == 5 + Min(|vehicleId|, 6)
  {
    var plate := "EXIT-" + TakeLast(vehicleId, 6);
    assert plate[..5] == "EXIT-" && plate[5..] == TakeLast(vehicleId, 6);
    Vehicle(vehicleId, plate, "CA", t)
  }

  class ParkingEventFactory {
    var activeVehicles: ActiveVehicles

    constructor ()
      ensures activeVehicles == map[]
    {
      activeVehicles := map[];
    }

    /** `getActiveVehicleCount`: the size of the garage's set, 0 for an unknown
        garage. */
    function GetActiveVehicleCount(garageId: string): (n: nat)
      reads this
      ensures garageId !in activeVehicles ==> n == 0
      ensures n == |ActiveIn(activeVehicles, garageId)|
    {
      |ActiveIn(activeVehicles, garageId)|
    }

    /** `createEntryEvent`: the stateless entry event, and the new vehicle recorded
        as parked in that garage. */
    method CreateEntryEvent(garageId: string, space: Space, draw: VehicleDraw, firstMillis: nat, secondMillis: nat)
      returns (e: ParkingEvent)
      requires VehicleDrawFor(space.vehicleType, draw)
      modifies this
      ensures e == EventFactory.CreateEntryEvent(garageId, space, draw, firstMillis, secondMillis)
      ensures activeVehicles == AfterEntry(old(activeVehicles), garageId, e.vehicle.id)
    {
      var vehicle := CreateVehicle(space.vehicleType, draw);
      activeVehicles := activeVehicles[garageId := ActiveIn(activeVehicles, garageId) + {vehicle.id}];
      e := ParkingEvent(Enter, space, vehicle, EventFactory.TimestampFromClock(firstMillis, secondMillis));
    }

    /** `createExitEvent`: the stateless exit event, and the vehicle no longer
        recorded in that garage. */
    method CreateExitEvent(garageId: string, zoneId: string, spaceId: string, vehicle: Vehicle, firstMillis: nat, secondMillis: nat)
      returns (e: ParkingEvent)
      modifies this
      ensures e == EventFactory.CreateExitEvent(garageId, zoneId, spaceId, vehicle, firstMillis, secondMillis)
      ensures activeVehicles == AfterExit(old(activeVehicles), garageId, vehicle.id)
    {
      if garageId in activeVehicles {
        activeVehicles := activeVehicles[garageId := activeVehicles[garageId] - {vehicle.id}];
      }
      var parkingSpace := Space(spaceId, zoneId, "", garageId, vehicle.vehicleType);
      e := ParkingEvent(Exit, parkingSpace, vehicle, EventFactory.TimestampFromClock(firstMillis, secondMillis));
    }

    /** `createRandomEvent`. `pick` is the draw of `random()` over the garage's set.
        An exit is chosen only when the set is non-empty, so it always finds a
        parked vehicle and the entry fallback for a missing one is never taken. */
    method CreateRandomEvent(garageId: string, space: Space, entryDraw: bool, pick: string, draw: VehicleDraw, firstMillis: nat, secondMillis: nat)
      returns (e: ParkingEvent)
      requires VehicleDrawFor(space.vehicleType, draw)
      requires ActiveIn(activeVehicles, garageId) != {} ==> pick in ActiveIn(activeVehicles, garageId)
      modifies this
      ensures var n := |ActiveIn(old(activeVehicles), garageId)|;
              e.eventType == (if ShouldCreateEntry(n, entryDraw) then Enter else Exit)
      ensures e.eventType == Enter ==>
                e == EventFactory.CreateEntryEvent(garageId, space, draw, firstMillis, secondMillis) &&
                activeVehicles == AfterEntry(old(activeVehicles), garageId, e.vehicle.id)
      ensures e.eventType == Exit ==>
                e.vehicle == ExitVehicle(pick, space.vehicleType) &&
                pick in ActiveIn(old(activeVehicles), garageId) &&
                e == EventFactory.CreateExitEvent(garageId, space.zoneId, space.id, e.vehicle, firstMillis, secondMillis) &&
                activeVehicles == AfterExit(old(activeVehicles), garageId, pick)
    {
      var activeVehiclesInGarage := GetActiveVehicleCount(garageId);
      var shouldCreateEntry := ShouldCreateEntry(activeVehiclesInGarage, entryDraw);
      if shouldCreateEntry {
        e := CreateEntryEvent(garageId, space, draw, firstMillis, secondMillis);
      } else {
        var vehicle := ExitVehicle(pick, space.vehicleType);
        e := CreateExitEvent(garageId, space.zoneId, space.id, vehicle, firstMillis, secondMillis);
      }
    }

    /** `clearActiveVehicles`: forgets every garage. */
    method ClearActiveVehicles()
      modifies this
      ensures activeVehicles == map[]
      ensures forall g :: GetActiveVehicleCount(g) == 0
    {
      activeVehicles := map[];
    }
  }

  /** Entering a vehicle not yet parked raises its garage's count by one, and its
      exit brings the count back, with every other garage untouched throughout. */
  lemma EntryThenExit(active: ActiveVehicles, garageId: string, vehicleId: string)
    requires vehicleId !in ActiveIn(active, garageId)
    ensures |ActiveIn(AfterEntry(active, garageId, vehicleId), garageId)| == |ActiveIn(active, garageId)| + 1
    ensures ActiveIn(AfterExit(AfterEntry(active, garageId, vehicleId), garageId, vehicleId), garageId) == ActiveIn(active, garageId)
    ensures forall g :: ActiveIn(AfterExit(AfterEntry(active, garageId, vehicleId), garageId, vehicleId), g) == ActiveIn(active, g)
  {
    var entered := AfterEntry(active, garageId, vehicleId);
    assert ActiveIn(entered, garageId) - {vehicleId} == ActiveIn(active, garageId);
  }

  /** A random event leaves the garage's count within one of where it was: an
      entry adds at most one vehicle and an exit removes exactly one. */
  lemma RandomEventCount(active: ActiveVehicles, garageId: string, pick: string, newId: string)
    requires pick in ActiveIn(active, garageId)
    ensures |ActiveIn(AfterExit(active, garageId, pick), garageId)| == |ActiveIn(active, garageId)| - 1
    ensures |ActiveIn(active, garageId)| <= |ActiveIn(AfterEntry(active, garageId, newId), garageId)| <= |ActiveIn(active, garageId)| + 1
  {
    var s := ActiveIn(active, garageId);
    assert s == (s - {pick}) + {pick};
    if newId in s {
      assert s + {newId} == s;
    }
  }
}
