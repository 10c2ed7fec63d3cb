/** The per-class occupancy counters shared by the row and zone aggregates, and
    the rule by which a space status moves them. */
module Occupancy {
  import opened Wrappers
  import opened Model
  import opened Capacity

  /** Capacity and occupancy of one vehicle-type class. */
  datatype TypeStatus = TypeStatus(vehicleType: VehicleType, capacity: int, occupied: int)

  /** The three counted classes of an aggregate. */
  datatype Counters = Counters(carStatus: TypeStatus, handicapStatus: TypeStatus, motorcycleStatus: TypeStatus)

  /** The classes that have a counter; any other type is only logged. */
  predicate Counted(t: VehicleType) {
    t != Unrecognized
  }

  function StatusOf(c: Counters, t: VehicleType): TypeStatus
    requires Counted(t)
  {
    match t
    case Car => c.carStatus
    case Handicap => c.handicapStatus
    case Motorcycle => c.motorcycleStatus
  }

  /** The counters of a freshly initialised aggregate: each class tagged with its
      type, capacity 0 and occupancy 0. */
  const ZeroCounters: Counters :=
    Counters(TypeStatus(Car, 0, 0), TypeStatus(Handicap, 0, 0), TypeStatus(Motorcycle, 0, 0))

  /** No counter is negative. */
  predicate NonNegative(c: Counters) {
    forall t :: Counted(t) ==> StatusOf(c, t).occupied >= 0
  }

  /** Every counter is within its capacity. */
  predicate WithinCapacity(c: Counters) {
    forall t :: Counted(t) ==> StatusOf(c, t).occupied <= StatusOf(c, t).capacity
  }

  lemma ZeroCountersProperties()
    ensures NonNegative(ZeroCounters) && WithinCapacity(ZeroCounters)
    ensures forall t :: Counted(t) ==> StatusOf(ZeroCounters, t) == TypeStatus(t, 0, 0)
  {
  }

  /** The counter rule of one class: OCCUPIED adds one only while below capacity,
      VACANT removes one only while above zero, anything else changes nothing. */
  function ApplyStatus(ts: TypeStatus, status: Status): (r: TypeStatus)
    ensures r.vehicleType == ts.vehicleType && r.capacity == ts.capacity
    ensures r.occupied > ts.occupied <==> status == Occupied && ts.occupied < ts.capacity
    ensures r.occupied < ts.occupied <==> status == Vacant && ts.occupied > 0
    ensures ts.occupied - 1 <= r.occupied <= ts.occupied + 1
    ensures ts.occupied >= 0 ==> r.occupied >= 0
    ensures r.occupied <= Max(ts.occupied, ts.capacity)
  {
    match status
    case Occupied => if ts.occupied < ts.capacity then ts.(occupied := ts.occupied + 1) else ts
    case Vacant => if ts.occupied > 0 then ts.(occupied := ts.occupied - 1) else ts
    case StatusUnrecognized => ts
  }

  /** Overwrites the capacity and the type tag of one class. */
  function Refresh(ts: TypeStatus, t: VehicleType, capacity: CapacityData): TypeStatus {
    ts.(vehicleType := t, capacity := CapacityOf(capacity, t))
  }

  /** The shared body of `updateRowStatus` and `updateZoneStatus` on the counters:
      every class gets its freshly resolved capacity, then only the counter of the
      space's class follows the counter rule. */
  function Update(c: Counters, capacity: CapacityData, t: VehicleType, status: Status): (r: Counters)
    ensures forall u :: Counted(u) ==> StatusOf(r, u).vehicleType == u && StatusOf(r, u).capacity == CapacityOf(capacity, u)
    ensures forall u :: Counted(u) && u != t ==> StatusOf(r, u).occupied == StatusOf(c, u).occupied
    ensures Counted(t) ==> StatusOf(r, t) == ApplyStatus(Refresh(StatusOf(c, t), t, capacity), status)
    ensures NonNegative(c) ==> NonNegative(r)
    ensures forall u :: Counted(u) ==> StatusOf(r, u).occupied <= Max(StatusOf(c, u).occupied, StatusOf(r, u).capacity)
    ensures forall u :: Counted(u) && StatusOf(c, u).occupied <= CapacityOf(capacity, u) ==>
              StatusOf(r, u).occupied <= StatusOf(r, u).capacity
  {
    var car := Refresh(c.carStatus, Car, capacity);
    var handicap := Refresh(c.handicapStatus, Handicap, capacity);
    var motorcycle := Refresh(c.motorcycleStatus, Motorcycle, capacity);
    match t
    case Car => Counters(ApplyStatus(car, status), handicap, motorcycle)
    case Handicap => Counters(car, ApplyStatus(handicap, status), motorcycle)
    case Motorcycle => Counters(car, handicap, ApplyStatus(motorcycle, status))
    case Unrecognized => Counters(car, handicap, motorcycle)
  }

  /** With unchanged capacities, `Update` keeps every counter within capacity. */
  lemma UpdatePreservesWithinCapacity(c: Counters, capacity: CapacityData, t: VehicleType, status: Status)
    requires forall u :: Counted(u) ==> StatusOf(c, u).capacity == CapacityOf(capacity, u)
    requires WithinCapacity(c)
    ensures WithinCapacity(Update(c, capacity, t, status))
  {
    var r := Update(c, capacity, t, status);
    forall u | Counted(u) ensures StatusOf(r, u).occupied <= StatusOf(r, u).capacity {
      assert StatusOf(c, u).occupied <= CapacityOf(capacity, u);
    }
  }
}
