/** The data generator's garage builder: turns a garage definition into the
    garage topology, either from explicit rows or by laying a zone's space
    counts out in rows of ten. */
module GarageService {
  import opened Wrappers
  import opened Strings
  import opened Model
  import opened CapacityCalculator
  import opened GarageFactory
  import opened GarageConfig

  /** Spaces per generated row. */
  const SpacesPerRow: int := 10

  /** `(total + 9) / 10` with Kotlin's truncating division. */
  function NumberOfRows(total: int): (n: int)
    ensures total >= 0 ==> n >= 0 && (n - 1) * SpacesPerRow < total <= n * SpacesPerRow
    ensures total <= 0 ==> n <= 0
  {
    TruncDiv(total + SpacesPerRow - 1, SpacesPerRow)
  }

  /** `"row-<zoneId>-<n>"`. */
  function GeneratedRowId(zoneId: string, rowNum: nat): string {
    RowTag + zoneId + Dash + NatToString(rowNum)
  }

  /** The spaces one `repeat(count)` block appends, numbered on from `start`; a
      negative count appends nothing. */
  function RunOfSpaces(zoneId: string, garageId: string, rowId: string, t: VehicleType, prefix: string, count: int, start: nat): (s: seq<Space>)
    ensures |s| == Max(0, count)
  {
    seq(Max(0, count), i requires 0 <= i < Max(0, count) =>
      Space(SpaceId(zoneId, prefix, start + i + 1), zoneId, rowId, garageId, t))
  }

  /** The per-row split of the spaces-only branch: how many handicap, motorcycle
      and standard spaces row `rowNum` receives, given the rows built so far. */
  function RowSplit(cfg: SpaceConfig, numberOfRows: int, rowNum: int, spaceIndex: int, built: seq<Row>): (int, int, int) {
    var total := cfg.handicap + cfg.motorcycle + cfg.default;
    var spacesForThisRow := if rowNum == numberOfRows then total - spaceIndex else SpacesPerRow;
    var handicapForRow := Min(cfg.handicap - CountType(AllSpaces(built), Handicap), spacesForThisRow);
    var motorcycleForRow := Min(cfg.motorcycle - CountType(AllSpaces(built), Motorcycle), spacesForThisRow - handicapForRow);
    (handicapForRow, motorcycleForRow, spacesForThisRow - handicapForRow - motorcycleForRow)
  }

  /** The row that row number `rowNum` becomes, its spaces numbered on from
      `spaceIndex`. */
  function GeneratedRow(zoneId: string, garageId: string, cfg: SpaceConfig, numberOfRows: int, rowNum: nat, spaceIndex: nat, built: seq<Row>): Row {
    var rowId := GeneratedRowId(zoneId, rowNum);
    var split := RowSplit(cfg, numberOfRows, rowNum, spaceIndex, built);
    var hs := RunOfSpaces(zoneId, garageId, rowId, Handicap, "h", split.0, spaceIndex);
    var ms := RunOfSpaces(zoneId, garageId, rowId, Motorcycle, "m", split.1, spaceIndex + |hs|);
    var ds := RunOfSpaces(zoneId, garageId, rowId, Car, "d", split.2, spaceIndex + |hs| + |ms|);
    Row(rowId, hs + ms + ds)
  }

  /** The rows built from row number `rowNum` on, after the rows `built` and
      `spaceIndex` spaces. */
  function GenerateRows(zoneId: string, garageId: string, cfg: SpaceConfig, numberOfRows: int, rowNum: nat, spaceIndex: nat, built: seq<Row>): seq<Row>
    decreases numberOfRows - rowNum + 1
  {
    if rowNum == 0 || rowNum > numberOfRows then built
    else
      var row := GeneratedRow(zoneId, garageId, cfg, numberOfRows, rowNum, spaceIndex, built);
      GenerateRows(zoneId, garageId, cfg, numberOfRows, rowNum + 1, spaceIndex + |row.spaces|, built + [row])
  }

  lemma GenerateRowsStep(zoneId: string, garageId: string, cfg: SpaceConfig, numberOfRows: int, rowNum: nat, spaceIndex: nat, built: seq<Row>,
                         row: Row, next: nat, target: seq<Row>)
    requires 1 <= rowNum <= numberOfRows
    requires row == GeneratedRow(zoneId, garageId, cfg, numberOfRows, rowNum, spaceIndex, built)
    requires next == spaceIndex + |row.spaces|
    requires GenerateRows(zoneId, garageId, cfg, numberOfRows, rowNum, spaceIndex, built) == target
    ensures GenerateRows(zoneId, garageId, cfg, numberOfRows, rowNum + 1, next, built + [row]) == target
  {
  }

  lemma GenerateRowsDone(zoneId: string, garageId: string, cfg: SpaceConfig, numberOfRows: int, rowNum: nat, spaceIndex: nat, built: seq<Row>)
    requires rowNum > numberOfRows
    ensures GenerateRows(zoneId, garageId, cfg, numberOfRows, rowNum, spaceIndex, built) == built
  {
  }

  /** What the spaces-only branch builds. */
  function RowsFromSpaces(zoneId: string, garageId: string, cfg: SpaceConfig): seq<Row> {
    GenerateRows(zoneId, garageId, cfg, NumberOfRows(cfg.handicap + cfg.motorcycle + cfg.default), 1, 0, [])
  }

  /** One `repeat(count)` block: appends the spaces and advances the running index. */
  method AddSpaces(row: seq<Space>, zoneId: string, garageId: string, rowId: string, t: VehicleType, prefix: string, count: int, spaceIndex: nat)
    returns (row': seq<Space>, spaceIndex': nat)
    ensures row' == row + RunOfSpaces(zoneId, garageId, rowId, t, prefix, count, spaceIndex)
    ensures spaceIndex' == spaceIndex + Max(0, count)
  {
    row', spaceIndex' := row, spaceIndex;
    var index := 0;
    while index < count
      invariant 0 <= index <= Max(0, count)
      invariant row' == row + RunOfSpaces(zoneId, garageId, rowId, t, prefix, index, spaceIndex)
      invariant spaceIndex' == spaceIndex + index
    {
      row' := row' + [Space(SpaceId(zoneId, prefix, spaceIndex' + 1), zoneId, rowId, garageId, t)];
      spaceIndex' := spaceIndex' + 1;
      index := index + 1;
    }
  }

  /** The body of the row loop: the three `repeat` blocks of one row. */
  method BuildRow(zoneId: string, garageId: string, cfg: SpaceConfig, numberOfRows: int, rowNum: nat, spaceIndex: nat, parkingRows: seq<Row>)
    returns (row: Row, next: nat)
    ensures row == GeneratedRow(zoneId, garageId, cfg, numberOfRows, rowNum, spaceIndex, parkingRows)
    ensures next == spaceIndex + |row.spaces|
  {
    var rowId := GeneratedRowId(zoneId, rowNum);
    var split := RowSplit(cfg, numberOfRows, rowNum, spaceIndex, parkingRows);
    var spacesInThisRow: seq<Space> := [];
    next := spaceIndex;
    spacesInThisRow, next := AddSpaces(spacesInThisRow, zoneId, garageId, rowId, Handicap, "h", split.0, next);
    spacesInThisRow, next := AddSpaces(spacesInThisRow, zoneId, garageId, rowId, Motorcycle, "m", split.1, next);
    spacesInThisRow, next := AddSpaces(spacesInThisRow, zoneId, garageId, rowId, Car, "d", split.2, next);
    row := Row(rowId, spacesInThisRow);
  }

  /** The spaces-only branch of `createParkingZone`: rows of ten spaces, the last
      holding the remainder, each filled with the handicap spaces still to place,
      then the motorcycle spaces, then standard ones, numbered across the zone. */
  method CreateRowsFromSpaces(zoneId: string, garageId: string, cfg: SpaceConfig) returns (parkingRows: seq<Row>)
    ensures parkingRows == RowsFromSpaces(zoneId, garageId, cfg)
  {
    var totalSpaces := cfg.handicap + cfg.motorcycle + cfg.default;
    var numberOfRows := NumberOfRows(totalSpaces);
    parkingRows := [];
    var spaceIndex: nat := 0;
    var rowNum: nat := 1;
    ghost var target := GenerateRows(zoneId, garageId, cfg, numberOfRows, rowNum, spaceIndex, parkingRows);
    while rowNum <= numberOfRows
      invariant rowNum >= 1
      invariant GenerateRows(zoneId, garageId, cfg, numberOfRows, rowNum, spaceIndex, parkingRows) == target
      decreases numberOfRows - rowNum + 1
    {
      var row, next := BuildRow(zoneId, garageId, cfg, numberOfRows, rowNum, spaceIndex, parkingRows);
      GenerateRowsStep(zoneId, garageId, cfg, numberOfRows, rowNum, spaceIndex, parkingRows, row, next, target);
      parkingRows := parkingRows + [row];
      spaceIndex := next;
      rowNum := rowNum + 1;
    }
    GenerateRowsDone(zoneId, garageId, cfg, numberOfRows, rowNum, spaceIndex, parkingRows);
  }

  /** One `repeat(count)` block of `createParkingSpaces`: the block's spaces are
      numbered from 1 on their own; a negative count appends nothing. */
  method AppendSpaces(spaces: seq<Space>, zoneId: string, count: int, t: VehicleType, prefix: string, garageId: string, rowId: Option<string>)
    returns (spaces': seq<Space>)
    ensures spaces' == spaces + CreateSpaces(zoneId, Max(0, count), t, prefix, garageId, rowId)
  {
    spaces' := spaces;
    var index := 0;
    while index < count
      invariant 0 <= index <= Max(0, count)
      invariant spaces' == spaces + CreateSpaces(zoneId, index, t, prefix, garageId, rowId)
    {
      spaces' := spaces' + [Space(SpaceId(rowId.GetOr(zoneId), prefix, index + 1), zoneId, rowId.GetOr(""), garageId, t)];
      index := index + 1;
    }
  }

  /** `createParkingSpaces`: the handicap, motorcycle and standard blocks of a
      row, ids owned by the row id when there is one and by the zone otherwise. */
  method CreateParkingSpaces(zoneId: string, cfg: SpaceConfig, garageId: string, rowId: Option<string>) returns (spaces: seq<Space>)
    ensures spaces == RowSpaces(zoneId, Max(0, cfg.handicap), Max(0, cfg.motorcycle), Max(0, cfg.default), garageId, rowId)
  {
    spaces := [];
    spaces := AppendSpaces(spaces, zoneId, cfg.handicap, Handicap, "h", garageId, rowId);
    spaces := AppendSpaces(spaces, zoneId, cfg.motorcycle, Motorcycle, "m", garageId, rowId);
    spaces := AppendSpaces(spaces, zoneId, cfg.default, Car, "d", garageId, rowId);
  }

  /** A configured row: its id, and its spaces carrying that id. */
  function ConfiguredRow(zoneId: string, rc: RowConfig, garageId: string): Row {
    Row(rc.id, RowSpaces(zoneId, Max(0, rc.spaces.handicap), Max(0, rc.spaces.motorcycle), Max(0, rc.spaces.default), garageId, Some(rc.id)))
  }

  function MissingLayoutMessage(zoneId: string): string {
    "Zone " + zoneId + " must have either 'rows' or 'spaces' configuration"
  }

  /** What `createParkingZone` of the data generator yields: explicit rows win over
      space counts, and a zone with neither is an error. */
  function ZoneFromConfig(zc: ZoneConfig, garageId: string): Result<Zone> {
    match zc.rows
    case Some(rows) =>
      Success(Zone(zc.id, seq(|rows|, i requires 0 <= i < |rows| => ConfiguredRow(zc.id, rows[i], garageId))))
    case None =>
      match zc.spaces
      case Some(cfg) => Success(Zone(zc.id, RowsFromSpaces(zc.id, garageId, cfg)))
      case None => Failure(MissingLayoutMessage(zc.id))
  }

  method CreateParkingZone(zc: ZoneConfig, garageId: string) returns (r: Result<Zone>)
    ensures r == ZoneFromConfig(zc, garageId)
  {
    if zc.rows.Some? {
      var rows := zc.rows.value;
      var parkingRows: seq<Row> := [];
      for i := 0 to |rows|
        invariant parkingRows == seq(i, j requires 0 <= j < i => ConfiguredRow(zc.id, rows[j], garageId))
      {
        var spaces := CreateParkingSpaces(zc.id, rows[i].spaces, garageId, Some(rows[i].id));
        parkingRows := parkingRows + [Row(rows[i].id, spaces)];
      }
      r := Success(Zone(zc.id, parkingRows));
    } else if zc.spaces.Some? {
      var parkingRows := CreateRowsFromSpaces(zc.id, garageId, zc.spaces.value);
      r := Success(Zone(zc.id, parkingRows));
    } else {
      r := Failure(MissingLayoutMessage(zc.id));
    }
  }

  /** A zone definition fails exactly when it has neither rows nor space counts;
      with rows, each configured row becomes one row of the zone, in order, with
      the configured numbers of spaces (a negative number counting as none), each
      space carrying the row's id and numbered within the row. */
  lemma ZoneFromConfigOutcome(zc: ZoneConfig, garageId: string)
    ensures ZoneFromConfig(zc, garageId).Failure? <==> zc.rows.None? && zc.spaces.None?
    ensures ZoneFromConfig(zc, garageId).Failure? ==> ZoneFromConfig(zc, garageId).error == MissingLayoutMessage(zc.id)
    ensures ZoneFromConfig(zc, garageId).Success? ==> ZoneFromConfig(zc, garageId).value.id == zc.id
    ensures zc.rows.Some? ==>
              var rows := ZoneFromConfig(zc, garageId).value.rows;
              var cfgs := zc.rows.value;
              |rows| == |cfgs| &&
              forall i :: 0 <= i < |rows| ==>
                rows[i].id == cfgs[i].id &&
                CountType(rows[i].spaces, Handicap) == Max(0, cfgs[i].spaces.handicap) &&
                CountType(rows[i].spaces, Motorcycle) == Max(0, cfgs[i].spaces.motorcycle) &&
                CountType(rows[i].spaces, Car) == Max(0, cfgs[i].spaces.default) &&
                (forall j :: 0 <= j < |rows[i].spaces| ==>
                   rows[i].spaces[j].rowId == cfgs[i].id && rows[i].spaces[j].zoneId == zc.id &&
                   rows[i].spaces[j].garageId == garageId)
  {
    if zc.rows.Some? {
      var rows := ZoneFromConfig(zc, garageId).value.rows;
      var cfgs := zc.rows.value;
      forall i | 0 <= i < |rows|
        ensures CountType(rows[i].spaces, Handicap) == Max(0, cfgs[i].spaces.handicap) &&
                CountType(rows[i].spaces, Motorcycle) == Max(0, cfgs[i].spaces.motorcycle) &&
                CountType(rows[i].spaces, Car) == Max(0, cfgs[i].spaces.default)
      {
        var c := cfgs[i].spaces;
        RowSpacesCountsAndIds(zc.id, Max(0, c.handicap), Max(0, c.motorcycle), Max(0, c.default), garageId, Some(cfgs[i].id));
      }
    }
  }

  /** The conversion of each zone definition. */
  function ZoneResults(zcs: seq<ZoneConfig>, garageId: string): (rs: seq<Result<Zone>>)
    ensures |rs| == |zcs| && forall i :: 0 <= i < |zcs| ==> rs[i] == ZoneFromConfig(zcs[i], garageId)
  {
    seq(|zcs|, i requires 0 <= i < |zcs| => ZoneFromConfig(zcs[i], garageId))
  }

  /** The zones of a garage definition, converted in order; the first zone that
      fails decides the error. */
  function ZonesFromConfig(zcs: seq<ZoneConfig>, garageId: string): (r: Result<seq<Zone>>)
    ensures r.Success? <==> forall i :: 0 <= i < |zcs| ==> ZoneFromConfig(zcs[i], garageId).Success?
    ensures r.Success? ==>
              |r.value| == |zcs| && forall i :: 0 <= i < |zcs| ==> r.value[i] == ZoneFromConfig(zcs[i], garageId).value
    ensures r.Failure? ==>
              exists i :: 0 <= i < |zcs| && ZoneFromConfig(zcs[i], garageId) == Failure(r.error) &&
                forall j :: 0 <= j < i ==> ZoneFromConfig(zcs[j], garageId).Success?
  {
    Collect(ZoneResults(zcs, garageId))
  }

  /** What the data generator's `createParkingGarage` yields: the garage id, the
      configured coordinates as its location, and the converted zones. */
  function GarageFromConfig(config: ParkingGarageConfig): (r: Result<Garage>)
    ensures r.Success? <==> forall i :: 0 <= i < |config.zones| ==> ZoneFromConfig(config.zones[i], config.id).Success?
    ensures r.Success? ==>
              r.value.id == config.id &&
              r.value.location == Some(Location(config.location.latitude, config.location.longitude)) &&
              Success(r.value.zones) == ZonesFromConfig(config.zones, config.id)
    ensures r.Failure? ==> Failure(r.error) == ZonesFromConfig(config.zones, config.id)
  {
    match ZonesFromConfig(config.zones, config.id)
    case Failure(e) => Failure(e)
    case Success(zones) =>
      Success(CreateParkingGarage(config.id, zones, Some(Location(config.location.latitude, config.location.longitude))))
  }

  method CreateParkingGarageFromConfig(config: ParkingGarageConfig) returns (r: Result<Garage>)
    ensures r == GarageFromConfig(config)
  {
    var location := Location(config.location.latitude, config.location.longitude);
    var parkingZones: seq<Zone> := [];
    ghost var results := ZoneResults(config.zones, config.id);
    for i := 0 to |config.zones|
      invariant Collect(results[..i]) == Success(parkingZones)
    {
      var zone := CreateParkingZone(config.zones[i], config.id);
      CollectStep(results, i);
      if zone.Failure? {
        CollectFailurePersists(results, i + 1);
        return Failure(zone.error);
      }
      parkingZones := parkingZones + [zone.value];
    }
    assert results[..|results|] == results;
    r := Success(CreateParkingGarage(config.id, parkingZones, Some(location)));
  }
}
