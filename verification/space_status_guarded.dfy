/** The guarded space-status processor: each parking event is joined with the
    last status known for its key, ENTER is admitted only onto a space that is
    not OCCUPIED and EXIT only off a space that is OCCUPIED, and an admitted
    event becomes a new status record. The emitted records feed the same table
    that the guard reads, so the table is modelled as a map that each step
    returns updated. */
module GuardedSpaceStatus {
  import opened Wrappers
  import opened Model

  /** The latest status record per key. */
  type StatusTable = map<string, SpaceStatus>

  /** A keyed input record, with the instant at which it is processed. */
  datatype Input = Input(key: string, event: ParkingEvent, now: Timestamp)

  /** A keyed output record. */
  datatype Output = Output(key: string, value: SpaceStatus)

  /** `currentStatus?.status`: absent when the key has no record yet. */
  function LastStatus(table: StatusTable, key: string): Option<Status> {
    if key in table then Some(table[key].status) else None
  }

  predicate OccupiedIn(table: StatusTable, key: string) {
    LastStatus(table, key) == Some(Occupied)
  }

  /** The filter: ENTER needs a last status other than OCCUPIED (no record at all
      qualifies), EXIT needs OCCUPIED, any other type passes. */
  predicate Admits(eventType: EventType, last: Option<Status>) {
    match eventType
    case Enter => last != Some(Occupied)
    case Exit => last == Some(Occupied)
    case EventUnrecognized => true
  }

  /** `mkStatus`: a status record for the event's space; the vehicle is attached
      only to an OCCUPIED record. */
  function MkStatus(event: ParkingEvent, status: Status, now: Timestamp): (s: SpaceStatus)
    ensures s.id == event.space.id && s.space == event.space
    ensures s.status == status && s.lastUpdated == now
    ensures s.vehicle.Some? <==> status == Occupied
    ensures s.vehicle.Some? ==> s.vehicle.value == event.vehicle
  {
    SpaceStatus(event.space.id, event.space, status,
                if status == Occupied then Some(event.vehicle) else None, now)
  }

  /** The status the mapping step assigns: OCCUPIED for ENTER, VACANT otherwise. */
  function StatusFor(eventType: EventType): (s: Status)
    ensures s == Occupied <==> eventType == Enter
    ensures s != StatusUnrecognized
  {
    match eventType
    case Enter => Occupied
    case Exit => Vacant
    case EventUnrecognized => Vacant
  }

  /** One input record: the join, the filter, the mapping and the write-back of the
      emitted record into the table under the same key. */
  function Step(table: StatusTable, input: Input): (r: (StatusTable, Option<Output>))
    ensures input.event.eventType == Enter ==> (r.1.Some? <==> !OccupiedIn(table, input.key))
    ensures input.event.eventType == Exit ==> (r.1.Some? <==> OccupiedIn(table, input.key))
    ensures input.event.eventType == EventUnrecognized ==> r.1.Some?
    ensures r.1.None? ==> r.0 == table
    ensures r.1.Some? ==>
              var s := r.1.value.value;
              r.1.value.key == input.key && r.0 == table[input.key := s] &&
              s.id == input.event.space.id && s.space == input.event.space && s.lastUpdated == input.now &&
              (s.status == Occupied <==> input.event.eventType == Enter) && s.status != StatusUnrecognized &&
              s.vehicle == (if input.event.eventType == Enter then Some(input.event.vehicle) else None)
  {
    if Admits(input.event.eventType, LastStatus(table, input.key)) then
      var status := MkStatus(input.event, StatusFor(input.event.eventType), input.now);
      (table[input.key := status], Some(Output(input.key, status)))
    else
      (table, None)
  }

  /** A stream of input records, processed in order. */
  function Run(table: StatusTable, inputs: seq<Input>): (StatusTable, seq<Output>)
    decreases |inputs|
  {
    if inputs == [] then (table, [])
    else
      var first := Step(table, inputs[0]);
      var rest := Run(first.0, inputs[1..]);
      (rest.0, (if first.1.Some? then [first.1.value] else []) + rest.1)
  }

  /** Inputs for one key carrying only ENTER and EXIT events. */
  predicate EnterExitOnly(inputs: seq<Input>, key: string) {
    forall i :: 0 <= i < |inputs| ==> inputs[i].key == key && inputs[i].event.eventType != EventUnrecognized
  }

  lemma EnterExitOnlyTail(inputs: seq<Input>, key: string)
    requires inputs != [] && EnterExitOnly(inputs, key)
    ensures EnterExitOnly(inputs[1..], key)
  {
    forall i | 0 <= i < |inputs| - 1 ensures inputs[1..][i].key == key && inputs[1..][i].event.eventType != EventUnrecognized {
      assert inputs[1..][i] == inputs[i + 1];
    }
  }

  /** For one key and ENTER/EXIT input, the table ends OCCUPIED exactly when the
      starting occupancy was flipped an odd number of times, once per emitted
      record. */
  lemma {:induction false} RunEndsFlipped(table: StatusTable, key: string, inputs: seq<Input>)
    requires EnterExitOnly(inputs, key)
    decreases |inputs|
    ensures var r := Run(table, inputs);
            OccupiedIn(r.0, key) <==> ((|r.1| % 2 == 1) != OccupiedIn(table, key))
  {
    if inputs != [] {
      var first := Step(table, inputs[0]);
      EnterExitOnlyTail(inputs, key);
      RunEndsFlipped(first.0, key, inputs[1..]);
      if first.1.Some? {
        assert OccupiedIn(first.0, key) != OccupiedIn(table, key);
      }
    }
  }

  /** For one key and ENTER/EXIT input, the emitted statuses alternate, starting
      with OCCUPIED unless the space was already OCCUPIED. */
  lemma {:induction false} RunAlternates(table: StatusTable, key: string, inputs: seq<Input>)
    requires EnterExitOnly(inputs, key)
    decreases |inputs|
    ensures forall i :: 0 <= i < |Run(table, inputs).1| ==>
              Run(table, inputs).1[i].key == key &&
              (Run(table, inputs).1[i].value.status == Occupied <==> ((i % 2 == 0) != OccupiedIn(table, key)))
  {
    if inputs != [] {
      var first := Step(table, inputs[0]);
      EnterExitOnlyTail(inputs, key);
      RunAlternates(first.0, key, inputs[1..]);
      var rest := Run(first.0, inputs[1..]);
      assert inputs[0].key == key;
      if first.1.Some? {
        assert OccupiedIn(first.0, key) != OccupiedIn(table, key);
        var outs := [first.1.value] + rest.1;
        assert Run(table, inputs).1 == outs;
        forall i | 0 <= i < |outs|
          ensures outs[i].key == key && (outs[i].value.status == Occupied <==> ((i % 2 == 0) != OccupiedIn(table, key)))
        {
          if i > 0 {
            assert outs[i] == rest.1[i - 1];
            assert ((i - 1) % 2 == 0) <==> !(i % 2 == 0);
          }
        }
      } else {
        assert Run(table, inputs).1 == [] + rest.1 == rest.1;
      }
    }
  }

  /** Records of keys that no input carries are untouched. */
  lemma {:induction false} RunKeepsOtherKeys(table: StatusTable, key: string, inputs: seq<Input>)
    requires forall i :: 0 <= i < |inputs| ==> inputs[i].key == key
    decreases |inputs|
    ensures forall k :: k != key ==>
              (k in Run(table, inputs).0 <==> k in table) && (k in table ==> Run(table, inputs).0[k] == table[k])
  {
    if inputs != [] {
      assert forall i :: 0 <= i < |inputs[1..]| ==> inputs[1..][i] == inputs[i + 1];
      RunKeepsOtherKeys(Step(table, inputs[0]).0, key, inputs[1..]);
    }
  }

  /** A second ENTER onto an OCCUPIED space is dropped and changes nothing. */
  lemma DuplicateEnterIsNoOp(table: StatusTable, first: Input, second: Input)
    requires first.event.eventType == Enter && second.event.eventType == Enter
    requires first.key == second.key
    requires !OccupiedIn(table, first.key)
    ensures var afterFirst := Step(table, first);
            afterFirst.1.Some? && afterFirst.1.value.value.status == Occupied &&
            Step(afterFirst.0, second) == (afterFirst.0, None)
  {
  }

  /** ENTER then EXIT on a space with no record yields OCCUPIED, then VACANT, and
      an EXIT on such a space on its own yields nothing. */
  lemma EnterThenExit(enter: Input, exit: Input)
    requires enter.event.eventType == Enter && exit.event.eventType == Exit && enter.key == exit.key
    ensures var r := Run(map[], [enter, exit]);
            |r.1| == 2 && r.1[0].value.status == Occupied && r.1[1].value.status == Vacant &&
            r.1[0].value.vehicle == Some(enter.event.vehicle) && r.1[1].value.vehicle.None? &&
            LastStatus(r.0, enter.key) == Some(Vacant)
    ensures Run(map[], [exit]).1 == []
  {
    var first := Step(map[], enter);
    var second := Step(first.0, exit);
    assert [enter, exit][1..] == [exit];
    assert [exit][1..] == [] && [exit][0] == exit;
    assert Run(second.0, []) == (second.0, []);
    assert OccupiedIn(first.0, exit.key);
    assert second.1.Some?;
    assert [second.1.value] + [] == [second.1.value];
    assert Run(first.0, [exit]) == (second.0, [second.1.value]);
  }
}
