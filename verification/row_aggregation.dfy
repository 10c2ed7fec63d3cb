/** The row aggregation service: space statuses are joined with their garage,
    re-keyed by row, and folded into a per-row record of capacities and
    occupancy held in a keyed store. */
module RowAggregation {
  import opened Wrappers
  import opened Model
  import opened Capacity
  import opened CapacityCalculator
  import opened Occupancy

  /** The per-row aggregate record. */
  datatype RowAggregate = RowAggregate(id: string, rowId: string, zoneId: string, garageId: string, counters: Counters)

  /** The record a key absent from the store starts from: id = key, other ids
      unset, every class at capacity 0 and occupancy 0. */
  function InitialRowAggregate(key: string): (a: RowAggregate)
    ensures a.id == key && a.rowId == "" && a.zoneId == "" && a.garageId == ""
    ensures NonNegative(a.counters) && WithinCapacity(a.counters)
    ensures forall t :: Counted(t) ==> StatusOf(a.counters, t) == TypeStatus(t, 0, 0)
  {
    ZeroCountersProperties();
    RowAggregate(key, "", "", "", ZeroCounters)
  }

  /** `updateRowStatus`: the row, zone and garage ids come from the status's space,
      the id is kept, the capacities are those of the space's row, and only the
      counter of the space's class moves, by the counter rule. */
  function UpdateRowStatus(spaceStatus: SpaceStatus, current: RowAggregate, garage: Garage): (r: RowAggregate)
    ensures r.id == current.id
    ensures r.rowId == spaceStatus.space.rowId && r.zoneId == spaceStatus.space.zoneId
    ensures r.garageId == spaceStatus.space.garageId
    ensures forall u :: Counted(u) ==>
              StatusOf(r.counters, u).vehicleType == u &&
              StatusOf(r.counters, u).capacity == CapacityOf(CalculateRowCapacity(garage, spaceStatus.space), u)
    ensures forall u :: Counted(u) && u != spaceStatus.space.vehicleType ==>
              StatusOf(r.counters, u).occupied == StatusOf(current.counters, u).occupied
    ensures NonNegative(current.counters) ==> NonNegative(r.counters)
    ensures forall u :: Counted(u) ==>
              StatusOf(r.counters, u).occupied <= Max(StatusOf(current.counters, u).occupied, StatusOf(r.counters, u).capacity)
  {
    var space := spaceStatus.space;
    RowAggregate(current.id, space.rowId, space.zoneId, space.garageId,
                 Update(current.counters, CalculateRowCapacity(garage, space), space.vehicleType, spaceStatus.status))
  }

  /** The row key of a status: garage id, zone id and row id joined by '-'. */
  function RowKey(space: Space): string {
    space.garageId + "-" + space.zoneId + "-" + space.rowId
  }

  /** The keyed store behind the aggregation, with its read-modify-write step. */
  class RowAggregatorProcessor {
    var store: map<string, RowAggregate>

    /** Every stored record carries its own key as id and no negative counter. */
    ghost predicate Valid()
      reads this
    {
      forall k :: k in store ==> store[k].id == k && NonNegative(store[k].counters)
    }

    constructor ()
      ensures store == map[] && Valid()
    {
      store := map[];
    }

    /** `process`: read the key's record or start a new one, update it, write it
        back, and forward it. */
    method Process(key: string, spaceStatus: SpaceStatus, garage: Garage) returns (forwarded: RowAggregate)
      requires Valid()
      modifies this
      ensures Valid()
      ensures forwarded == UpdateRowStatus(spaceStatus, if key in old(store) then old(store)[key] else InitialRowAggregate(key), garage)
      ensures forwarded.id == key
      ensures store == old(store)[key := forwarded]
    {
      var current := if key in store then store[key] else InitialRowAggregate(key);
      forwarded := UpdateRowStatus(spaceStatus, current, garage);
      store := store[key := forwarded];
    }

    /** One record of the topology: the join with the garage table on the space's
        garage id (a status whose garage is absent produces nothing and leaves the
        store alone), the re-keying by row and the processing step. */
    method OnSpaceStatus(garages: map<string, Garage>, spaceStatus: SpaceStatus) returns (out: Option<(string, RowAggregate)>)
      requires Valid()
      modifies this
      ensures Valid()
      ensures spaceStatus.space.garageId !in garages ==> out.None? && store == old(store)
      ensures spaceStatus.space.garageId in garages ==>
                var key := RowKey(spaceStatus.space);
                out.Some? && out.value.0 == key &&
                out.value.1 == UpdateRowStatus(spaceStatus, if key in old(store) then old(store)[key] else InitialRowAggregate(key),
                                               garages[spaceStatus.space.garageId]) &&
                store == old(store)[key := out.value.1]
    {
      if spaceStatus.space.garageId !in garages {
        return None;
      }
      var key := RowKey(spaceStatus.space);
      var forwarded := Process(key, spaceStatus, garages[spaceStatus.space.garageId]);
      out := Some((key, forwarded));
    }
  }

  /** The store contents after a sequence of statuses for one key. */
  function UpdateAll(current: RowAggregate, statuses: seq<SpaceStatus>, garage: Garage): RowAggregate
    decreases |statuses|
  {
    if statuses == [] then current
    else UpdateAll(UpdateRowStatus(statuses[0], current, garage), statuses[1..], garage)
  }

  /** OCCUPIED statuses for spaces of one class in one row raise the counter one at
      a time and stop at the row's capacity for that class. */
  lemma {:induction false} RepeatedOccupyStopsAtCapacity(current: RowAggregate, statuses: seq<SpaceStatus>, garage: Garage, space: Space)
    requires Counted(space.vehicleType)
    requires forall i :: 0 <= i < |statuses| ==>
               statuses[i].status == Occupied && statuses[i].space.vehicleType == space.vehicleType &&
               statuses[i].space.zoneId == space.zoneId && statuses[i].space.rowId == space.rowId
    requires 0 <= StatusOf(current.counters, space.vehicleType).occupied <=
                  CapacityOf(CalculateRowCapacity(garage, space), space.vehicleType)
    ensures StatusOf(UpdateAll(current, statuses, garage).counters, space.vehicleType).occupied ==
              Min(StatusOf(current.counters, space.vehicleType).occupied + |statuses|,
                  CapacityOf(CalculateRowCapacity(garage, space), space.vehicleType))
    decreases |statuses|
  {
    if statuses != [] {
      assert CalculateRowCapacity(garage, statuses[0].space) == CalculateRowCapacity(garage, space);
      var next := UpdateRowStatus(statuses[0], current, garage);
      RepeatedOccupyStopsAtCapacity(next, statuses[1..], garage, space);
    }
  }
}
