/** The zone statistics service: space statuses are joined with their garage,
    re-keyed by zone, and folded into a per-zone record of capacities and
    occupancy held in a keyed store. */
module ZoneStatistics {
  import opened Wrappers
  import opened Model
  import opened Capacity
  import opened CapacityCalculator
  import opened Occupancy
  import RowAggregation

  /** The per-zone aggregate record. */
  datatype ZoneAggregate = ZoneAggregate(id: string, zoneId: string, garageId: string, counters: Counters)

  /** The record a key absent from the store starts from: id = key, other ids
      unset, every class at capacity 0 and occupancy 0. */
  function InitialZoneAggregate(key: string): (a: ZoneAggregate)
    ensures a.id == key && a.zoneId == "" && a.garageId == ""
    ensures NonNegative(a.counters) && WithinCapacity(a.counters)
    ensures forall t :: Counted(t) ==> StatusOf(a.counters, t) == TypeStatus(t, 0, 0)
  {
    ZeroCountersProperties();
    ZoneAggregate(key, "", "", ZeroCounters)
  }

  /** `updateZoneStatus`: the zone and garage ids come from the status's space, the
      id is kept, the capacities are those of the space's zone, and only the
      counter of the space's class moves, by the counter rule. */
  function UpdateZoneStatus(spaceStatus: SpaceStatus, current: ZoneAggregate, garage: Garage): (r: ZoneAggregate)
    ensures r.id == current.id
    ensures r.zoneId == spaceStatus.space.zoneId && r.garageId == spaceStatus.space.garageId
    ensures forall u :: Counted(u) ==>
              StatusOf(r.counters, u).vehicleType == u &&
              StatusOf(r.counters, u).capacity == CapacityOf(ZoneCapacity(garage, spaceStatus.space), u)
    ensures forall u :: Counted(u) && u != spaceStatus.space.vehicleType ==>
              StatusOf(r.counters, u).occupied == StatusOf(current.counters, u).occupied
    ensures NonNegative(current.counters) ==> NonNegative(r.counters)
    ensures forall u :: Counted(u) ==>
              StatusOf(r.counters, u).occupied <= Max(StatusOf(current.counters, u).occupied, StatusOf(r.counters, u).capacity)
  {
    var space := spaceStatus.space;
    ZoneAggregate(current.id, space.zoneId, space.garageId,
                  Update(current.counters, ZoneCapacity(garage, space), space.vehicleType, spaceStatus.status))
  }

  /** The zone key of a status: garage id and zone id joined by '-'. */
  function ZoneKey(space: Space): string {
    space.garageId + "-" + space.zoneId
  }

  /** A row key extends the key of the zone the row belongs to. */
  lemma RowKeyExtendsZoneKey(space: Space)
    ensures RowAggregation.RowKey(space) == ZoneKey(space) + "-" + space.rowId
  {
  }

  /** The keyed store behind the aggregation, with its read-modify-write step. */
  class ZoneAggregatorProcessor {
    var store: map<string, ZoneAggregate>

    /** Every stored record carries its own key as id and no negative counter. */
    ghost predicate Valid()
      reads this
    {
      forall k :: k in store ==> store[k].id == k && NonNegative(store[k].counters)
    }

    constructor ()
      ensures store == map[] && Valid()
    {
      store := map[];
    }

    /** `process`: read the key's record or start a new one, update it, write it
        back, and forward it. */
    method Process(key: string, spaceStatus: SpaceStatus, garage: Garage) returns (forwarded: ZoneAggregate)
      requires Valid()
      modifies this
      ensures Valid()
      ensures forwarded == UpdateZoneStatus(spaceStatus, if key in old(store) then old(store)[key] else InitialZoneAggregate(key), garage)
      ensures forwarded.id == key
      ensures store == old(store)[key := forwarded]
    {
      var current := if key in store then store[key] else InitialZoneAggregate(key);
      forwarded := UpdateZoneStatus(spaceStatus, current, garage);
      store := store[key := forwarded];
    }

    /** One record of the topology: the join with the garage table on the space's
        garage id (a status whose garage is absent produces nothing and leaves the
        store alone), the re-keying by zone and the processing step. */
    method OnSpaceStatus(garages: map<string, Garage>, spaceStatus: SpaceStatus) returns (out: Option<(string, ZoneAggregate)>)
      requires Valid()
      modifies this
      ensures Valid()
      ensures spaceStatus.space.garageId !in garages ==> out.None? && store == old(store)
      ensures spaceStatus.space.garageId in garages ==>
                var key := ZoneKey(spaceStatus.space);
                out.Some? && out.value.0 == key &&
                out.value.1 == UpdateZoneStatus(spaceStatus, if key in old(store) then old(store)[key] else InitialZoneAggregate(key),
                                                garages[spaceStatus.space.garageId]) &&
                store == old(store)[key := out.value.1]
    {
      if spaceStatus.space.garageId !in garages {
        return None;
      }
      var key := ZoneKey(spaceStatus.space);
      var forwarded := Process(key, spaceStatus, garages[spaceStatus.space.garageId]);
      out := Some((key, forwarded));
    }
  }

  /** The store contents after a sequence of statuses for one key. */
  function UpdateAll(current: ZoneAggregate, statuses: seq<SpaceStatus>, garage: Garage): ZoneAggregate
    decreases |statuses|
  {
    if statuses == [] then current
    else UpdateAll(UpdateZoneStatus(statuses[0], current, garage), statuses[1..], garage)
  }

  /** OCCUPIED statuses for spaces of one class in one zone raise the counter one at
      a time and stop at the zone's capacity for that class. */
  lemma {:induction false} RepeatedOccupyStopsAtCapacity(current: ZoneAggregate, statuses: seq<SpaceStatus>, garage: Garage, space: Space)
    requires Counted(space.vehicleType)
    requires forall i :: 0 <= i < |statuses| ==>
               statuses[i].status == Occupied && statuses[i].space.vehicleType == space.vehicleType &&
               statuses[i].space.zoneId == space.zoneId
    requires 0 <= StatusOf(current.counters, space.vehicleType).occupied <=
                  CapacityOf(ZoneCapacity(garage, space), space.vehicleType)
    ensures StatusOf(UpdateAll(current, statuses, garage).counters, space.vehicleType).occupied ==
              Min(StatusOf(current.counters, space.vehicleType).occupied + |statuses|,
                  CapacityOf(ZoneCapacity(garage, space), space.vehicleType))
    decreases |statuses|
  {
    if statuses != [] {
      assert ZoneCapacity(garage, statuses[0].space) == ZoneCapacity(garage, space);
      var next := UpdateZoneStatus(statuses[0], current, garage);
      RepeatedOccupyStopsAtCapacity(next, statuses[1..], garage, space);
    }
  }

  /** VACANT statuses for spaces of one class lower the counter one at a time and
      stop at zero. */
  lemma {:induction false} RepeatedVacateStopsAtZero(current: ZoneAggregate, statuses: seq<SpaceStatus>, garage: Garage, t: VehicleType)
    requires Counted(t)
    requires forall i :: 0 <= i < |statuses| ==> statuses[i].status == Vacant && statuses[i].space.vehicleType == t
    requires StatusOf(current.counters, t).occupied >= 0
    ensures StatusOf(UpdateAll(current, statuses, garage).counters, t).occupied ==
              Max(StatusOf(current.counters, t).occupied - |statuses|, 0)
    decreases |statuses|
  {
    if statuses != [] {
      var next := UpdateZoneStatus(statuses[0], current, garage);
      RepeatedVacateStopsAtZero(next, statuses[1..], garage, t);
    }
  }

  /** Occupying every space of one class in a fresh zone record, then one more,
      leaves the occupancy at exactly the zone's capacity for that class. */
  lemma FillingAZoneStopsAtCapacity(key: string, statuses: seq<SpaceStatus>, garage: Garage, space: Space)
    requires Counted(space.vehicleType)
    requires forall i :: 0 <= i < |statuses| ==>
               statuses[i].status == Occupied && statuses[i].space.vehicleType == space.vehicleType &&
               statuses[i].space.zoneId == space.zoneId
    requires |statuses| == CapacityOf(ZoneCapacity(garage, space), space.vehicleType) + 1
    ensures StatusOf(UpdateAll(InitialZoneAggregate(key), statuses, garage).counters, space.vehicleType).occupied ==
              |statuses| - 1
  {
    RepeatedOccupyStopsAtCapacity(InitialZoneAggregate(key), statuses, garage, space);
  }
}
