# Parking garage streams — a Dafny model of the occupancy pipeline

The modelled system tracks the occupancy of parking garages.

- **Topology.** A garage holds zones, a zone holds rows, and a row holds spaces. Each space has a vehicle-type class: standard (CAR, called DEFAULT in some files), HANDICAP or MOTORCYCLE.
- **Events.** A data generator emits ENTER and EXIT events for spaces.
- **Space status.** A stream processor turns each event into a per-space status record, OCCUPIED or VACANT. The guarded variant checks the event against the last status of that space.
- **Aggregates.** Two more processors fold those records into per-row and per-zone aggregates. Each aggregate holds, for each class, the capacity (resolved from the garage topology) and the number of occupied spaces.

This project models the per-record logic of that pipeline and the builders and conversions around it:

- the capacity resolvers (`CapacityCalculator`, `RowCapacity`, `Capacity`);
- the three space-status processors:
  - `GuardedSpaceStatus`: the table of last statuses is a map that each step returns updated;
  - `UnguardedSpaceStatus` and `StatelessSpaceStatus`;
- the row and zone aggregators (`Occupancy`, `RowAggregation`, `ZoneStatistics`). Their keyed store is a class over a map, with a read-modify-write `Process` method;
- the garage builders:
  - `GarageFactory`;
  - `GarageService`, with `GarageLayout` proving that the layout in rows of ten comes out as described;
- the event and vehicle factories:
  - `EventFactory`;
  - `TrackingEventFactory`: the active-vehicle bookkeeping is a class over a map;
  - `VehicleFactory`;
- the DTO conversions (`StatusDto`, `GarageDto`, `EventDto`);
- the streams property loader (`KafkaConfig`).

Random draws and clock readings are parameters. A `requires` on such a parameter states the range that the corresponding draw returns.

A thrown `IllegalArgumentException` is a `Failure` carrying its message. Protobuf fields read as the code reads them:

- an unset string is `""`;
- an unset message field reads as its default instance, never as null;
- an enum value outside the listed ones is `Unrecognized`.

Behaviour the code chooses, which the model follows:

- A zone or row missing from the garage yields an all-zero capacity record tagged ZONE or ROW. There is no separate "miss" flag.
- The guarded processor admits every event type other than ENTER and EXIT, and maps it to VACANT. The alternation of emitted statuses is therefore proved for ENTER/EXIT input, where it holds.
- A space with no status yet admits ENTER. The first status emitted for a fresh space is OCCUPIED.

## Model

| member | source | states |
|---|---|---|
| Capacity.EmptyCapacity | utils/src/main/kotlin/io/sandonjacobs/streaming/parking/calculator/CapacityData.kt:10-15 | A record built with only a type tag has car, handicap and motorcycle capacity 0 and carries that tag (absent by default). |
| CapacityCalculator.CountType | utils/src/main/kotlin/io/sandonjacobs/streaming/parking/calculator/CapacityCalculator.kt:33-35 | `count { it.type == t }` never exceeds the number of spaces counted. |
| CapacityCalculator.CountTypeAppend | utils/src/main/kotlin/io/sandonjacobs/streaming/parking/calculator/CapacityCalculator.kt:31-36 | Counting over two concatenated lists of spaces is the sum of the two counts, which is what the running totals rely on. |
| CapacityCalculator.CountTypesBounded | utils/src/main/kotlin/io/sandonjacobs/streaming/parking/calculator/CapacityCalculator.kt:69-71 | The car, handicap and motorcycle counts together never exceed the number of spaces, since other types are ignored. |
| CapacityCalculator.FindById | utils/src/main/kotlin/io/sandonjacobs/streaming/parking/calculator/CapacityCalculator.kt:19-61 | `find { it.id == id }`, used for zones (line 19) and rows (line 61): it returns nothing exactly when no element has the id, and otherwise the first element with that id. |
| CapacityCalculator.CalculateZoneCapacity | utils/src/main/kotlin/io/sandonjacobs/streaming/parking/calculator/CapacityCalculator.kt:15-44 | The loop of running totals yields, for the first zone matching the space's zone id, the per-class counts over all spaces of all its rows, tagged ZONE. With no matching zone it yields all zeros tagged ZONE. |
| CapacityCalculator.CalculateRowCapacity | utils/src/main/kotlin/io/sandonjacobs/streaming/parking/calculator/CapacityCalculator.kt:49-74 | Every result is tagged ROW. A missing zone, or a missing row within the found zone, gives all zeros. Otherwise each counted class has the number of spaces of that class in the found row. |
| CapacityCalculator.ZoneCapacityBounded | utils/src/main/kotlin/io/sandonjacobs/streaming/parking/calculator/CapacityCalculator.kt:31-36 | The three zone counts together never exceed the number of spaces in the zone, and are 0 when no zone matches. |
| CapacityCalculator.FindRowDistinct | utils/src/main/kotlin/io/sandonjacobs/streaming/parking/calculator/CapacityCalculator.kt:61 | When row ids are distinct, looking up a row's own id finds that row. |
| CapacityCalculator.SumOfRowCapacitiesCountsPrefix | utils/src/test/kotlin/io/sandonjacobs/streaming/parking/calculator/CapacityCalculatorTest.kt:28-55 | Over the first n rows of a zone with distinct row ids, the row capacities of a class add up to the count of that class in those rows. |
| CapacityCalculator.ZoneCapacityIsSumOfRowCapacities | utils/src/test/kotlin/io/sandonjacobs/streaming/parking/calculator/CapacityCalculatorTest.kt:28-55 | For a zone with distinct row ids, the zone capacity of each class equals the sum of the row capacities of that class over the zone's rows. |
| CapacityCalculator.CountUniform | utils/src/main/kotlin/io/sandonjacobs/streaming/parking/calculator/CapacityCalculator.kt:33-35 | Spaces that all have one class count fully for that class and not at all for any other. |
| CapacityCalculator.CountUniformRows | utils/src/main/kotlin/io/sandonjacobs/streaming/parking/calculator/CapacityCalculator.kt:31-36 | Rows that each hold n spaces of a class hold n times the number of rows of them together. |
| RowCapacity.FindCapacityOfRow | kafka-streams/row-aggregates/src/main/kotlin/io/sandonjacobs/parking/kstreams/CapacityCalculator.kt:12-46 | An unknown zone, or an unknown row in a found zone, gives all zeros. A found row gives the per-class counts of its spaces, which together do not exceed its number of spaces. |
| RowCapacity.FindCapacityOfRowAgreesWithCalculateRowCapacity | kafka-streams/row-aggregates/src/main/kotlin/io/sandonjacobs/parking/kstreams/CapacityCalculator.kt:12-36 | The row-aggregation copy of the resolver and the shared resolver give the same three counts for every garage and space. |
| GuardedSpaceStatus.MkStatus | kafka-streams/parking-space-status/src/main/kotlin/io/sandonjacobs/parking/kstreams/ParkingSpaceStatusTopology.kt:110-130 | The record has the space's id, a copy of the space, the given status and the processing instant. It carries the event's vehicle exactly when the status is OCCUPIED. |
| GuardedSpaceStatus.StatusFor | kafka-streams/parking-space-status/src/main/kotlin/io/sandonjacobs/parking/kstreams/ParkingSpaceStatusTopology.kt:80-99 | The mapping step assigns OCCUPIED exactly to ENTER and VACANT to every other event type. |
| GuardedSpaceStatus.Step | kafka-streams/parking-space-status/src/main/kotlin/io/sandonjacobs/parking/kstreams/ParkingSpaceStatusTopology.kt:43-104 | Admission: ENTER is emitted iff the key's last status is not OCCUPIED (no record at all admits it), EXIT iff it is OCCUPIED, and any other type always. A dropped event leaves the table unchanged. An emitted record keeps the input key, copies the space and its id, is OCCUPIED exactly for ENTER, and carries the event's vehicle only for ENTER. The record is written back under the same key. |
| GuardedSpaceStatus.EnterExitOnlyTail | kafka-streams/parking-space-status/src/main/kotlin/io/sandonjacobs/parking/kstreams/ParkingSpaceStatusTopology.kt:53-79 | A single-key ENTER/EXIT input stream stays so after its first record. |
| GuardedSpaceStatus.RunEndsFlipped | kafka-streams/parking-space-status/src/main/kotlin/io/sandonjacobs/parking/kstreams/ParkingSpaceStatusTopology.kt:53-99 | For one key and ENTER/EXIT input, the key ends OCCUPIED exactly when its starting occupancy was flipped an odd number of times. Each emitted record is one flip. |
| GuardedSpaceStatus.RunAlternates | kafka-streams/parking-space-status/src/test/kotlin/io/sandonjacobs/parking/kstreams/ParkingSpaceStatusTopologyTest.kt:162-182 | For one key and ENTER/EXIT input, the emitted records all carry that key and their statuses alternate. They start with OCCUPIED unless the space was already OCCUPIED. |
| GuardedSpaceStatus.RunKeepsOtherKeys | kafka-streams/parking-space-status/src/main/kotlin/io/sandonjacobs/parking/kstreams/ParkingSpaceStatusTopology.kt:101-104 | Processing inputs for one key leaves the table entry of every other key exactly as it was, present or absent. |
| GuardedSpaceStatus.DuplicateEnterIsNoOp | kafka-streams/parking-space-status/src/main/kotlin/io/sandonjacobs/parking/kstreams/ParkingSpaceStatusTopology.kt:55-65 | After an admitted ENTER, a second ENTER for the same key is dropped and leaves the table unchanged. |
| GuardedSpaceStatus.EnterThenExit | kafka-streams/parking-space-status/src/test/kotlin/io/sandonjacobs/parking/kstreams/ParkingSpaceStatusTopologyTest.kt:162-182 | On a space with no record, ENTER then EXIT emits OCCUPIED with the vehicle and then VACANT without one, and leaves the space VACANT. An EXIT alone emits nothing. |
| UnguardedSpaceStatus.CreateVacantStatus | kafka-streams/src/main/kotlin/io/sandonjacobs/parking/kstreams/ParkingSpaceStatusTopology.kt:68-82 | A VACANT record with the space's id, a copy of the space and no vehicle. |
| UnguardedSpaceStatus.CreateOccupiedStatus | kafka-streams/src/main/kotlin/io/sandonjacobs/parking/kstreams/ParkingSpaceStatusTopology.kt:87-102 | An OCCUPIED record with the space's id, a copy of the space and the event's vehicle. |
| UnguardedSpaceStatus.Process | kafka-streams/src/main/kotlin/io/sandonjacobs/parking/kstreams/ParkingSpaceStatusTopology.kt:44-57 | The key is unchanged. ENTER gives OCCUPIED with the vehicle; every other type gives VACANT without one. The id and space are copied. |
| UnguardedSpaceStatus.ProcessAll | kafka-streams/src/main/kotlin/io/sandonjacobs/parking/kstreams/ParkingSpaceStatusTopology.kt:44-62 | Every input record yields exactly one output record, in order, with no guard. |
| UnguardedSpaceStatus.GuardedAgreesWhenAdmitted | kafka-streams/parking-space-status/src/main/kotlin/io/sandonjacobs/parking/kstreams/ParkingSpaceStatusTopology.kt:80-99 | Whenever the guarded processor emits a record, the record is exactly what the unguarded processor emits for that input. |
| StatelessSpaceStatus.Process | kstreams-parking-space-status/src/main/kotlin/io/sandonjacobs/parking/kstreams/ParkingSpaceStatusTopology.kt:44-88 | The key is unchanged and the id and space are copied. The status is OCCUPIED exactly for ENTER, and the vehicle is set iff the status is OCCUPIED. |
| StatelessSpaceStatus.AgreesWithUnguarded | kstreams-parking-space-status/src/main/kotlin/io/sandonjacobs/parking/kstreams/ParkingSpaceStatusTopology.kt:46-57 | The later stateless processor produces the same record as the first one for every input. |
| Occupancy.ZeroCountersProperties | kafka-streams/row-aggregates/src/main/kotlin/io/sandonjacobs/parking/kstreams/RowAggregationTopology.kt:63-68 | The initial counters tag each class with its type at capacity 0 and occupancy 0. They are non-negative and within capacity. |
| Occupancy.ApplyStatus | kafka-streams/row-aggregates/src/main/kotlin/io/sandonjacobs/parking/kstreams/RowAggregationTopology.kt:124-135 | The counter rises iff the status is OCCUPIED and it is below capacity, and falls iff the status is VACANT and it is above 0. It moves by at most one and never turns negative. It ends no higher than the larger of its old value and the capacity. |
| Occupancy.Update | kafka-streams/row-aggregates/src/main/kotlin/io/sandonjacobs/parking/kstreams/RowAggregationTopology.kt:109-166 | Every class gets its type tag and the freshly resolved capacity. Only the space's class follows the counter rule; the other counters stay, and an unknown class moves none. Non-negativity is kept. Each counter ends at most max(old occupancy, new capacity), and within capacity whenever it started within the new capacity. |
| Occupancy.UpdatePreservesWithinCapacity | kafka-streams/row-aggregates/src/main/kotlin/io/sandonjacobs/parking/kstreams/RowAggregationTopology.kt:125-132 | When the capacities do not change, an update keeps every counter within capacity. |
| RowAggregation.InitialRowAggregate | kafka-streams/row-aggregates/src/main/kotlin/io/sandonjacobs/parking/kstreams/RowAggregationTopology.kt:63-68 | A key absent from the store starts as a record with id = key, unset ids, and every class at capacity 0 and occupancy 0. |
| RowAggregation.UpdateRowStatus | kafka-streams/row-aggregates/src/main/kotlin/io/sandonjacobs/parking/kstreams/RowAggregationTopology.kt:93-169 | The id is kept, and the row, zone and garage ids come from the space. The capacities are those the row resolver gives the space. Only the space's class moves its counter. Non-negativity is kept, and each counter is bounded by max(old occupancy, capacity). |
| RowAggregation.RowAggregatorProcessor.constructor | kafka-streams/row-aggregates/src/main/kotlin/io/sandonjacobs/parking/kstreams/RowAggregationTopology.kt:46-58 | The store starts empty. |
| RowAggregation.RowAggregatorProcessor.Process | kafka-streams/row-aggregates/src/main/kotlin/io/sandonjacobs/parking/kstreams/RowAggregationTopology.kt:60-74 | The record under the key (or a fresh one) is updated, stored back under the key, and forwarded. Every stored record keeps its key as id and no negative counter. |
| RowAggregation.RowAggregatorProcessor.OnSpaceStatus | kafka-streams/row-aggregates/src/main/kotlin/io/sandonjacobs/parking/kstreams/RowAggregationTopology.kt:185-213 | A status whose garage is absent produces nothing and leaves the store alone. Otherwise the record is keyed `<garageId>-<zoneId>-<rowId>` and processed against that garage. |
| RowAggregation.RepeatedOccupyStopsAtCapacity | kafka-streams/row-aggregates/src/main/kotlin/io/sandonjacobs/parking/kstreams/RowAggregationTopology.kt:125-132 | n OCCUPIED statuses of one class in one row raise the counter to min(start + n, row capacity). |
| ZoneStatistics.InitialZoneAggregate | kafka-streams/zone-statistics/src/main/kotlin/io/sandonjacobs/parking/kstreams/ZoneStatisticsTopology.kt:55-60 | A key absent from the store starts as a record with id = key, unset ids, and every class at capacity 0 and occupancy 0. |
| ZoneStatistics.UpdateZoneStatus | kafka-streams/zone-statistics/src/main/kotlin/io/sandonjacobs/parking/kstreams/ZoneStatisticsTopology.kt:90-165 | The id is kept, and the zone and garage ids come from the space. The capacities are those the zone resolver gives the space. Only the space's class moves its counter. Non-negativity is kept, and each counter is bounded by max(old occupancy, capacity). |
| ZoneStatistics.RowKeyExtendsZoneKey | kafka-streams/zone-statistics/src/main/kotlin/io/sandonjacobs/parking/kstreams/ZoneStatisticsTopology.kt:202-204 | The row key of a space is its zone key followed by `-` and the row id. |
| ZoneStatistics.ZoneAggregatorProcessor.constructor | kafka-streams/zone-statistics/src/main/kotlin/io/sandonjacobs/parking/kstreams/ZoneStatisticsTopology.kt:38-50 | The store starts empty. |
| ZoneStatistics.ZoneAggregatorProcessor.Process | kafka-streams/zone-statistics/src/main/kotlin/io/sandonjacobs/parking/kstreams/ZoneStatisticsTopology.kt:52-66 | The record under the key (or a fresh one) is updated, stored back under the key, and forwarded. Every stored record keeps its key as id and no negative counter. |
| ZoneStatistics.ZoneAggregatorProcessor.OnSpaceStatus | kafka-streams/zone-statistics/src/main/kotlin/io/sandonjacobs/parking/kstreams/ZoneStatisticsTopology.kt:181-209 | A status whose garage is absent produces nothing and leaves the store alone. Otherwise the record is keyed `<garageId>-<zoneId>` and processed against that garage. |
| ZoneStatistics.RepeatedOccupyStopsAtCapacity | kafka-streams/zone-statistics/src/main/kotlin/io/sandonjacobs/parking/kstreams/ZoneStatisticsTopology.kt:121-128 | n OCCUPIED statuses of one class in one zone raise the counter to min(start + n, zone capacity). |
| ZoneStatistics.RepeatedVacateStopsAtZero | kafka-streams/zone-statistics/src/main/kotlin/io/sandonjacobs/parking/kstreams/ZoneStatisticsTopology.kt:129-131 | n VACANT statuses of one class lower the counter to max(start − n, 0). |
| ZoneStatistics.FillingAZoneStopsAtCapacity | kafka-streams/zone-statistics/src/test/kotlin/io/sandonjacobs/parking/kstreams/ZoneStatisticsTopologyTest.kt:337-371 | Occupying every space of one class of a fresh zone record, and then one more, leaves occupancy equal to the zone's capacity for that class. |
| GarageFactory.SpaceIdInjective | utils/src/main/kotlin/io/sandonjacobs/streaming/parking/factory/ParkingGarageFactory.kt:135 | Within one owner id, the one-letter prefix and the number can be read back from a space id. |
| GarageFactory.CreateSpaces | utils/src/main/kotlin/io/sandonjacobs/streaming/parking/factory/ParkingGarageFactory.kt:126-141 | `count` spaces of the given class. Space i is numbered i + 1 under the row id if one is given, else under the zone id. Each carries the zone and garage ids, and the row id only when given. |
| GarageFactory.RowSpaces | utils/src/main/kotlin/io/sandonjacobs/streaming/parking/factory/ParkingGarageFactory.kt:55-57 | A row's spaces are the handicap spaces "h", then the motorcycle spaces "m", then the standard spaces "d". Each block is numbered from 1 and carries the zone, garage and row ids. |
| GarageFactory.RowSpacesCountsAndIds | utils/src/main/kotlin/io/sandonjacobs/streaming/parking/factory/ParkingGarageFactory.kt:99-101 | Such a row holds exactly h handicap, m motorcycle and d standard spaces, and no two of its spaces share an id. |
| GarageFactory.CreateParkingGarage | utils/src/main/kotlin/io/sandonjacobs/streaming/parking/factory/ParkingGarageFactory.kt:18-30 | The garage keeps the id and the zones in the given order, and has a location only when one is given. |
| GarageFactory.CreateParkingZone | utils/src/main/kotlin/io/sandonjacobs/streaming/parking/factory/ParkingGarageFactory.kt:43-70 | Fails iff a capacity is negative, with the message of the first failing check in order. Otherwise it builds one row `row-<zoneId>` holding the h/m/d spaces, with no row id on the spaces. |
| GarageFactory.CreateParkingZoneWithRows | utils/src/main/kotlin/io/sandonjacobs/streaming/parking/factory/ParkingGarageFactory.kt:83-113 | Fails iff numRows ≤ 0 or a per-row count is negative, with the message of the first failing check. Otherwise it builds rows `row-<zoneId>-<k>` for k = 1..numRows, each with the h/m/d spaces carrying its own row id. |
| GarageFactory.MultiRowIdsDistinct | utils/src/main/kotlin/io/sandonjacobs/streaming/parking/factory/ParkingGarageFactory.kt:97-98 | The rows of a multi-row zone have pairwise distinct ids. |
| GarageFactory.MultiRowZoneCapacity | utils/src/test/kotlin/io/sandonjacobs/streaming/parking/calculator/CapacityCalculatorTest.kt:28-42 | For a multi-row zone, the zone capacity of each class is numRows times the per-row count. |
| GarageFactory.MultiRowRowCapacity | utils/src/test/kotlin/io/sandonjacobs/streaming/parking/calculator/CapacityCalculatorTest.kt:44-55 | For a space in any row of a multi-row zone, the row capacity is the per-row counts. |
| GarageFactory.TwoRowExample | utils/src/test/kotlin/io/sandonjacobs/streaming/parking/calculator/CapacityCalculatorTest.kt:16-55 | Two rows of (10 standard, 2 handicap, 1 motorcycle) give a zone capacity of (20, 4, 2) and a row capacity of (10, 2, 1). |
| GarageService.NumberOfRows | datagen/src/main/kotlin/io/sandonjacobs/app/service/ParkingGarageService.kt:91-93 | `(total + 9) / 10` is the ceiling of total / 10: for a non-negative total, (n − 1)·10 < total ≤ n·10. |
| GarageService.RunOfSpaces | datagen/src/main/kotlin/io/sandonjacobs/app/service/ParkingGarageService.kt:115-126 | One `repeat(count)` block appends max(0, count) spaces. |
| GarageService.AddSpaces | datagen/src/main/kotlin/io/sandonjacobs/app/service/ParkingGarageService.kt:115-154 | The loop of a `repeat` block appends that block's run of spaces, numbered on from the running index, and advances the index by the number appended. |
| GarageService.BuildRow | datagen/src/main/kotlin/io/sandonjacobs/app/service/ParkingGarageService.kt:99-161 | One pass of the row loop builds the row that the row-by-row description gives, and advances the running index by its size. |
| GarageService.CreateRowsFromSpaces | datagen/src/main/kotlin/io/sandonjacobs/app/service/ParkingGarageService.kt:90-167 | The row loop of the spaces-only branch yields the rows the row-by-row description gives. |
| GarageService.AppendSpaces | datagen/src/main/kotlin/io/sandonjacobs/app/service/ParkingGarageService.kt:188-198 | A `repeat` block of `createParkingSpaces` appends max(0, count) spaces, numbered from 1 under `rowId ?: zoneId`. |
| GarageService.CreateParkingSpaces | datagen/src/main/kotlin/io/sandonjacobs/app/service/ParkingGarageService.kt:179-227 | The spaces are the handicap, motorcycle and standard blocks in that order. Ids use `rowId ?: zoneId`, and the row id is set only when given. |
| GarageService.CreateParkingZone | datagen/src/main/kotlin/io/sandonjacobs/app/service/ParkingGarageService.kt:65-174 | Yields what `ZoneFromConfig` describes: configured rows take precedence, then space counts, and a zone with neither fails. |
| GarageService.ZoneFromConfigOutcome | datagen/src/main/kotlin/io/sandonjacobs/app/service/ParkingGarageService.kt:66-172 | A zone fails iff it has neither rows nor space counts, with the message `Zone <id> must have either 'rows' or 'spaces' configuration`. With rows, each configured row becomes one row in order, with the configured numbers of each class (a negative number counts as none), and every space carries that row's id. |
| GarageService.ZoneResults | datagen/src/main/kotlin/io/sandonjacobs/app/service/ParkingGarageService.kt:51-53 | Each zone definition is converted on its own, in order. |
| GarageService.ZonesFromConfig | datagen/src/main/kotlin/io/sandonjacobs/app/service/ParkingGarageService.kt:51-53 | The result succeeds iff every zone converts, and then holds the converted zones in order. Otherwise it fails with the error of the first zone that fails. |
| GarageService.GarageFromConfig | datagen/src/main/kotlin/io/sandonjacobs/app/service/ParkingGarageService.kt:45-60 | The garage has the configured id, the configured coordinates as its location, and the converted zones. It fails exactly when some zone fails, with that zone's error. |
| GarageService.CreateParkingGarageFromConfig | datagen/src/main/kotlin/io/sandonjacobs/app/service/ParkingGarageService.kt:45-60 | The loop over the zones, which stops at the first exception, yields what `GarageFromConfig` describes. |
| GarageLayout.FlatRefCounts | datagen/src/main/kotlin/io/sandonjacobs/app/service/ParkingGarageService.kt:110-112 | Among the first n spaces of the zone there are min(h, n) handicap spaces, then the motorcycle spaces that fit after them, and standard spaces for the rest. |
| GarageLayout.SplitMatches | datagen/src/main/kotlin/io/sandonjacobs/app/service/ParkingGarageService.kt:103-112 | For each row, the split computed from the rows built so far hands out exactly the handicap, motorcycle and standard spaces that occupy that row's positions in the reference layout. |
| GarageLayout.RowMatches | datagen/src/main/kotlin/io/sandonjacobs/app/service/ParkingGarageService.kt:98-161 | Row k + 1, built after the first k reference rows, is reference row k. |
| GarageLayout.GenerateMatches | datagen/src/main/kotlin/io/sandonjacobs/app/service/ParkingGarageService.kt:98-162 | Generating from row k + 1 on, after the first k reference rows, completes the reference layout. |
| GarageLayout.RowsFromSpacesIsReferenceLayout | datagen/src/main/kotlin/io/sandonjacobs/app/service/ParkingGarageService.kt:90-167 | With non-negative counts, the spaces-only branch builds exactly the reference layout: ⌈total / 10⌉ rows of consecutive spaces. |
| GarageLayout.ReferenceLayoutShape | datagen/src/main/kotlin/io/sandonjacobs/app/service/ParkingGarageService.kt:93-107 | There are ⌈total / 10⌉ rows named `row-<zone>-1`, `row-<zone>-2`, …. Every row but the last holds 10 spaces and the last holds the remainder (1 to 10). Every space names its row, zone and garage. |
| GarageLayout.ReferenceLayoutFlat | datagen/src/main/kotlin/io/sandonjacobs/app/service/ParkingGarageService.kt:96-154 | Read row by row, the layout is the zone's spaces in order of the running index. |
| GarageLayout.ReferenceLayoutContents | datagen/src/main/kotlin/io/sandonjacobs/app/service/ParkingGarageService.kt:110-154 | The layout holds total spaces: all handicap spaces first, then the motorcycle spaces, then the standard ones, exactly as many of each as configured, the i-th numbered i + 1. |
| GarageLayout.ReferenceLayoutIdsDistinct | datagen/src/main/kotlin/io/sandonjacobs/app/service/ParkingGarageService.kt:115-154 | No two spaces of the layout share an id. |
| GarageLayout.SpacesOnlyZone | datagen/src/main/kotlin/io/sandonjacobs/app/service/ParkingGarageService.kt:90-168 | A zone defined only by non-negative space counts is laid out as the reference layout. |
| GarageLayout.SpacesOnlyZoneCapacity | datagen/src/main/kotlin/io/sandonjacobs/app/service/ParkingGarageService.kt:90-112 | The zone capacity the occupancy pipeline finds for such a zone is the configured count of each class. |
| VehicleFactory.GenerateLicensePlate | utils/src/main/kotlin/io/sandonjacobs/streaming/parking/utils/VehicleFactory.kt:75-102 | A handicap plate is HC, DP or HP followed by the drawn 4-digit number (6 characters). A motorcycle plate is two capital letters and the drawn 2-digit number (4 characters). Any other plate is three capital letters and the drawn 3-digit number (6 characters). |
| VehicleFactory.GenerateVehicleId | utils/src/main/kotlin/io/sandonjacobs/streaming/parking/utils/VehicleFactory.kt:107-109 | The id starts with `vehicle-` and ends with `-` and the four digits of the drawn suffix. |
| VehicleFactory.CreateVehicle | utils/src/main/kotlin/io/sandonjacobs/streaming/parking/utils/VehicleFactory.kt:43-53 | The vehicle has exactly the requested class, a plate for that class, one of the fifty state codes, and a generated id. |
| VehicleFactory.VehicleIdParts | utils/src/main/kotlin/io/sandonjacobs/streaming/parking/utils/VehicleFactory.kt:108 | The id splits into the part carrying the clock reading and the part carrying the suffix. |
| VehicleFactory.VehicleIdsDiffer | utils/src/main/kotlin/io/sandonjacobs/streaming/parking/utils/VehicleFactory.kt:108 | Two ids are equal only when the clock readings and the suffixes are. |
| EventFactory.TimestampFromClock | utils/src/main/kotlin/io/sandonjacobs/streaming/parking/factory/ParkingEventFactory.kt:25-29 | The seconds are the first reading's whole seconds. The nanos are (second reading mod 1000)·10⁶, hence within [0, 999 000 000] and a whole number of milliseconds. |
| EventFactory.CreateEntryEvent | utils/src/main/kotlin/io/sandonjacobs/streaming/parking/factory/ParkingEventFactory.kt:15-31 | An ENTER event with the given space unchanged and a new vehicle of the space's class. |
| EventFactory.CreateExitEvent | utils/src/main/kotlin/io/sandonjacobs/streaming/parking/factory/ParkingEventFactory.kt:36-61 | An EXIT event with the given vehicle. Its space has the given space, zone and garage ids, no row id, and the vehicle's class. |
| EventFactory.CreateRandomEvent | utils/src/main/kotlin/io/sandonjacobs/streaming/parking/factory/ParkingEventFactory.kt:67-82 | Only ENTER or EXIT, ENTER exactly when the draw says so. The vehicle is of the space's class. The event names the given space's id and zone; an exit names the garage and no row. |
| TrackingEventFactory.ActiveIn | utils/src/main/kotlin/io/sandonjacobs/streaming/parking/utils/ParkingEventFactory.kt:124 | A garage never seen has no active vehicles. |
| TrackingEventFactory.AfterEntry | utils/src/main/kotlin/io/sandonjacobs/streaming/parking/utils/ParkingEventFactory.kt:25 | The vehicle joins its garage's set, which is created if absent. Every other garage is untouched. |
| TrackingEventFactory.AfterExit | utils/src/main/kotlin/io/sandonjacobs/streaming/parking/utils/ParkingEventFactory.kt:49 | The vehicle leaves its garage's set. Every other garage is untouched, and no garage is added. |
| TrackingEventFactory.ExitVehicle | utils/src/main/kotlin/io/sandonjacobs/streaming/parking/utils/ParkingEventFactory.kt:95-100 | The stand-in vehicle has the parked id, the plate `EXIT-` followed by the id's last six characters, state CA and the space's class. |
| TrackingEventFactory.ParkingEventFactory.constructor | utils/src/main/kotlin/io/sandonjacobs/streaming/parking/utils/ParkingEventFactory.kt:13 | No garage has active vehicles at first. |
| TrackingEventFactory.ParkingEventFactory.GetActiveVehicleCount | utils/src/main/kotlin/io/sandonjacobs/streaming/parking/utils/ParkingEventFactory.kt:123-125 | The size of the garage's set, or 0 for an unknown garage. |
| TrackingEventFactory.ParkingEventFactory.CreateEntryEvent | utils/src/main/kotlin/io/sandonjacobs/streaming/parking/utils/ParkingEventFactory.kt:18-36 | The stateless entry event, with the new vehicle added to that garage's set only. |
| TrackingEventFactory.ParkingEventFactory.CreateExitEvent | utils/src/main/kotlin/io/sandonjacobs/streaming/parking/utils/ParkingEventFactory.kt:41-68 | The stateless exit event, with the vehicle removed from that garage's set only. |
| TrackingEventFactory.ParkingEventFactory.CreateRandomEvent | utils/src/main/kotlin/io/sandonjacobs/streaming/parking/utils/ParkingEventFactory.kt:73-108 | ENTER for a garage with no active vehicles, EXIT for one with 100 or more, and otherwise as drawn. An exit reuses an active vehicle id with the stand-in vehicle and removes it from the set. An entry is the tracked entry event. |
| TrackingEventFactory.ParkingEventFactory.ClearActiveVehicles | utils/src/main/kotlin/io/sandonjacobs/streaming/parking/utils/ParkingEventFactory.kt:130-132 | Every garage's count becomes 0. |
| TrackingEventFactory.EntryThenExit | utils/src/test/kotlin/io/sandonjacobs/streaming/parking/utils/ParkingEventFactoryTest.kt:75-97 | Entering a vehicle not yet parked raises its garage's count by one. Its exit restores every garage's set. |
| TrackingEventFactory.RandomEventCount | utils/src/main/kotlin/io/sandonjacobs/streaming/parking/utils/ParkingEventFactory.kt:88-107 | An exit of an active vehicle lowers the garage's count by exactly one. An entry raises it by at most one. |
| StatusDto.StatusToDto | utils/src/main/kotlin/io/sandonjacobs/streaming/parking/dto/ProtobufToDtoExtensions.kt:54-60 | VACANT maps to VACANT and OCCUPIED to OCCUPIED, each iff. Any other value fails with `Unknown SpaceStatus: <name>`. |
| StatusDto.StatusDtoRoundTrip | utils/src/main/kotlin/io/sandonjacobs/streaming/parking/dto/ProtobufToDtoExtensions.kt:54-60 | Every DTO status comes from exactly one status, and a converted status reads back as itself. |
| StatusDto.VehicleTypeToDto | utils/src/main/kotlin/io/sandonjacobs/streaming/parking/dto/ProtobufToDtoExtensions.kt:65-72 | CAR maps to DEFAULT, HANDICAP to HANDICAP and MOTORCYCLE to MOTORCYCLE, each iff. Anything else fails with `Unknown VehicleType: <name>`. |
| StatusDto.VehicleTypeDtoRoundTrip | utils/src/main/kotlin/io/sandonjacobs/streaming/parking/dto/ProtobufToDtoExtensions.kt:65-72 | Every DTO class comes from exactly one class, and a converted class reads back as itself. |
| StatusDto.SpaceToDto | utils/src/main/kotlin/io/sandonjacobs/streaming/parking/dto/ProtobufToDtoExtensions.kt:29-37 | Succeeds iff the class is known. The id, row id, zone id and garage id are copied and the class is mapped. |
| StatusDto.VehicleToDto | utils/src/main/kotlin/io/sandonjacobs/streaming/parking/dto/ProtobufToDtoExtensions.kt:42-49 | Succeeds iff the class is known. The id, plate and state are copied and the class is mapped. |
| StatusDto.StatusRecordToDtoAsWritten | utils/src/main/kotlin/io/sandonjacobs/streaming/parking/dto/ProtobufToDtoExtensions.kt:13-24 | As written, every successful conversion carries a vehicle. |
| StatusDto.VacantRecordGetsDefaultVehicle | utils/src/main/kotlin/io/sandonjacobs/streaming/parking/dto/ProtobufToDtoExtensions.kt:18 | As written, a VACANT record with no vehicle gets a vehicle DTO with empty id, plate and state. |
| StatusDto.StatusRecordToDto | utils/src/main/kotlin/io/sandonjacobs/streaming/parking/dto/ProtobufToDtoExtensions.kt:13-24 | Succeeds iff the space's class, the status and any vehicle's class are known. Then the id and timestamp are copied, and the space, status and vehicle are converted. The DTO has a vehicle iff the record has one. Failures report the space's class first, then the status. |
| StatusDto.AsWrittenAgreesWithVehicle | utils/src/main/kotlin/io/sandonjacobs/streaming/parking/dto/ProtobufToDtoExtensions.kt:13-24 | On every record that carries a vehicle, the conversion as written and the corrected one agree. |
| StatusDto.RecordResults | utils/src/main/kotlin/io/sandonjacobs/streaming/parking/dto/ProtobufToDtoExtensions.kt:78 | Each record is converted on its own and in order, by the conversion as written. |
| StatusDto.ToDtoList | utils/src/main/kotlin/io/sandonjacobs/streaming/parking/dto/ProtobufToDtoExtensions.kt:77-79 | As written, the result succeeds iff every record converts, and then keeps length and order. Every converted record carries a vehicle, the default one when the record has none. Otherwise it fails with the error of the first record that fails. |
| StatusDto.IntendedRecordResults | utils/src/main/kotlin/io/sandonjacobs/streaming/parking/dto/ProtobufToDtoExtensions.kt:78 | Each record is converted on its own and in order, by the intended conversion. |
| StatusDto.ToDtoListIntended | utils/src/main/kotlin/io/sandonjacobs/streaming/parking/dto/ProtobufToDtoExtensions.kt:77-79 | The intended list succeeds under the same per-record rule and keeps length and order. A DTO has no vehicle exactly when its record has none. The first failing record decides the error. |
| StatusDto.ToDtoListAgreesWithVehicles | utils/src/main/kotlin/io/sandonjacobs/streaming/parking/dto/ProtobufToDtoExtensions.kt:77-79 | On lists where every record carries a vehicle, the list as written and the intended list are equal. |
| StatusDto.VacantListDiffers | utils/src/main/kotlin/io/sandonjacobs/streaming/parking/dto/ProtobufToDtoExtensions.kt:18 | A one-element list holding a VACANT record with no vehicle gets the empty default vehicle as written, and no vehicle as intended. |
| GarageDto.LocationToDto | app/src/main/kotlin/io/sandonjacobs/app/dto/ParkingGarageDto.kt:84-89 | Latitude and longitude are copied. |
| GarageDto.SpaceToDto | app/src/main/kotlin/io/sandonjacobs/app/dto/ParkingGarageDto.kt:74-82 | The row id is absent iff it is empty, and otherwise copied. The ids are copied and the class becomes its enum name. |
| GarageDto.RowToDto | app/src/main/kotlin/io/sandonjacobs/app/dto/ParkingGarageDto.kt:67-72 | The id is copied, and the spaces are converted keeping length and order. |
| GarageDto.ZoneToDto | app/src/main/kotlin/io/sandonjacobs/app/dto/ParkingGarageDto.kt:60-65 | The id is copied, and the rows are converted keeping length and order. |
| GarageDto.GarageToDto | app/src/main/kotlin/io/sandonjacobs/app/dto/ParkingGarageDto.kt:52-58 | The id is copied and the zones are converted keeping length and order. The location is present iff the garage has one. |
| GarageDto.SpaceRoundTrip | app/src/main/kotlin/io/sandonjacobs/app/dto/ParkingGarageDto.kt:74-82 | The space DTO loses nothing: reading it back gives the space. |
| GarageDto.RowRoundTrip | app/src/main/kotlin/io/sandonjacobs/app/dto/ParkingGarageDto.kt:67-72 | Reading a row DTO back gives the row. |
| GarageDto.ZoneRoundTrip | app/src/main/kotlin/io/sandonjacobs/app/dto/ParkingGarageDto.kt:60-65 | Reading a zone DTO back gives the zone. |
| GarageDto.GarageRoundTrip | app/src/main/kotlin/io/sandonjacobs/app/dto/ParkingGarageDto.kt:52-58 | Reading a garage DTO back gives the garage. |
| EventDto.TimestampMillis | datagen/src/main/kotlin/io/sandonjacobs/app/dto/ParkingEventDto.kt:17 | seconds·1000 + nanos / 10⁶, with truncating division. For nanos in [0, 10⁹) it lies in [seconds·1000, seconds·1000 + 1000). |
| EventDto.FromParkingEvent | datagen/src/main/kotlin/io/sandonjacobs/app/dto/ParkingEventDto.kt:12-19 | The type is the event type's name, the space is converted by its `toDto`, the vehicle is kept, and the timestamp is in milliseconds. |
| EventDto.MillisKeepSeconds | datagen/src/main/kotlin/io/sandonjacobs/app/dto/ParkingEventDto.kt:17 | For nanos in [0, 10⁹), the milliseconds divided by 1000 give back the seconds, and modulo 1000 give back the millisecond part of the nanos. |
| EventDto.FactoryTimestampRoundTrip | utils/src/main/kotlin/io/sandonjacobs/streaming/parking/factory/ParkingEventFactory.kt:25-29 | A timestamp the event factory builds from one clock reading converts back to that reading in milliseconds. |
| KafkaConfig.Load | kafka-streams/kstreams-utils/src/main/kotlin/io/sandonjacobs/parking/kstreams/config/KafkaConfigLoader.kt:36-62 | No path gives an empty property set. With a path, the result is the set loaded from the file. |
| KafkaConfig.SetupCloudStreamsConfig | kafka-streams/kstreams-utils/src/main/kotlin/io/sandonjacobs/parking/kstreams/config/KafkaConfigLoader.kt:65-114 | With non-empty cloud settings, the result is the cloud layering over the base set. Otherwise it is the base set plus `application.id`. |
| KafkaConfig.CloudFixedSettings | kafka-streams/kstreams-utils/src/main/kotlin/io/sandonjacobs/parking/kstreams/config/KafkaConfigLoader.kt:72-103 | The cloud branch always sets sasl.mechanism=PLAIN, security.protocol=SASL_SSL, client.dns.lookup=use_all_dns_ips, basic.auth.credentials.source=USER_INFO, auto.register.schemas=true and the application id. |
| KafkaConfig.CloudBroker | kafka-streams/kstreams-utils/src/main/kotlin/io/sandonjacobs/parking/kstreams/config/KafkaConfigLoader.kt:78-80 | CC_BROKER overrides `bootstrap.servers` when present. Otherwise the base value, or its absence, stays. |
| KafkaConfig.CloudRegistryUrl | kafka-streams/kstreams-utils/src/main/kotlin/io/sandonjacobs/parking/kstreams/config/KafkaConfigLoader.kt:88-90 | CC_SCHEMA_REGISTRY_URL overrides `schema.registry.url` when present. Otherwise the base value, or its absence, stays. |
| KafkaConfig.CloudJaas | kafka-streams/kstreams-utils/src/main/kotlin/io/sandonjacobs/parking/kstreams/config/KafkaConfigLoader.kt:81-85 | `sasl.jaas.config` is the PlainLoginModule line with the key and secret iff both are present. Otherwise the base value, or its absence, stays. |
| KafkaConfig.CloudUserInfo | kafka-streams/kstreams-utils/src/main/kotlin/io/sandonjacobs/parking/kstreams/config/KafkaConfigLoader.kt:95-99 | `basic.auth.user.info` is `<id>:<secret>` iff both registry key parts are present. Otherwise the base value, or its absence, stays. |
| KafkaConfig.CloudKeepsBase | kafka-streams/kstreams-utils/src/main/kotlin/io/sandonjacobs/parking/kstreams/config/KafkaConfigLoader.kt:68-69 | The cloud branch drops no base key. It adds only keys it writes, and keeps the base value of every key it does not write. |
| KafkaConfig.MkSerdeConfig | kafka-streams/kstreams-utils/src/main/kotlin/io/sandonjacobs/parking/kstreams/config/KafkaConfigLoader.kt:116-125 | The serde configuration has the registry URL. It has the user info and credentials source USER_INFO exactly when the other properties carry user info, and no other key. |

## Left out

- **Kafka Streams wiring:** topics, serdes, state-store builders, the global garage table, commit, recovery, threads and logging are not modelled. Each processor is modelled by its per-record function, and the keyed store by a map.
- **The `peek` and logging calls** have no observable effect on records and are left out. This includes the capacity warnings.
- **`Instant.now()` and `System.currentTimeMillis()`** are parameters, and so are all `random()` draws.
- **`createRandomVehicle` and `selectRandomVehicleType`** (the weighted choice of a class) are not part of this model. The choice uses floating-point probabilities, and no core operation calls it.
- **`Instant.ofEpochSecond`** in the status DTO is not modelled: the DTO keeps the record's timestamp as seconds and nanos.
- **The file branches of `load`** (an absolute path or a classpath resource, and `FileNotFoundException`) are file I/O. The loaded set is a parameter.
- **Kotlin's 32-bit `Int` and 64-bit `Long`:** integers are unbounded in this model, so overflow of counters, space indexes and millisecond arithmetic is not modelled.
- **The data generator's vehicle DTO** used by `ParkingEventDto` is not part of this model. `EventDto.FromParkingEvent` keeps the vehicle as it is.
- **The producers and controllers** that push garages and events to Kafka are not part of this model, including the generator's initial garage publication.
- **TrackingEventFactory.ParkingEventFactory.CreateRandomEvent:** the fallback to an entry when the garage's set turns out empty is not modelled. The branch is unreachable: an exit is chosen only when the count is non-zero, so the draw always finds a parked vehicle.
- **The protobuf default instance of a vehicle** is taken to have the standard class. It is the enum's first value.
- **Concurrency:** the `ConcurrentHashMap` of the tracking factory and the shared object state are not modelled. The methods run one at a time.
- VehicleFactory.CreateVehicle, EventFactory.CreateExitEvent, TrackingEventFactory.ExitVehicle and GarageFactory.CreateSpaces: these do not model the exception that the protobuf setter `setType` throws for the UNRECOGNIZED vehicle class. The setter asks the enum for its number, which that value does not have. For that class the model returns a vehicle, event or space of class `Unrecognized` instead of failing. The members built on them (the entry, random and tracking events) inherit this. No caller in the system passes that class: garages are built only with the three known classes.
- EventFactory.CreateEntryEvent, EventFactory.CreateRandomEvent and EventDto.FromParkingEvent rely on two callees whose source is not part of this model, so same-named code stands in for them:
  - The stateless event factory (`factory/ParkingEventFactory.kt`) calls a `VehicleFactory` in its own package `...parking.factory`, which is not part of this model. The model uses the vehicle factory of package `...parking.utils` (`VehicleFactory`), so that factory's plate, state and id formats are not promised by the source for these events. What the source does promise is a vehicle of the space's class.
  - The data generator's `ParkingSpace.toDto()` and its own `ParkingGarageDto` are not part of this model. `EventDto.FromParkingEvent` converts the space with the application's `GarageDto.SpaceToDto` instead.

## Findings

| source | as written | input that shows it | evidently intended | confidence | as-written member | corrected member |
|---|---|---|---|---|---|---|
| utils/src/main/kotlin/io/sandonjacobs/streaming/parking/dto/ProtobufToDtoExtensions.kt:18 | `this.vehicle?.toDto()` reads the protobuf accessor. It never returns null, so a record with no vehicle converts the default vehicle instance. | A VACANT record with no vehicle set, as the guarded processor emits for EXIT. Its DTO carries a vehicle with empty id, plate and state. | A record without a vehicle has no vehicle in its DTO, as the nullable DTO field suggests (`hasVehicle()` checked first). | not executed; medium | StatusDto.StatusRecordToDtoAsWritten, StatusDto.VacantRecordGetsDefaultVehicle, StatusDto.ToDtoList, StatusDto.VacantListDiffers | StatusDto.StatusRecordToDto, StatusDto.ToDtoListIntended |
