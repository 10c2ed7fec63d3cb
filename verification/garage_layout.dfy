/** A direct description of the zone layout the data generator builds from space
    counts, and the proof that the row-by-row construction produces it whenever
    the counts are non-negative. */
module GarageLayout {
  import opened Wrappers
  import opened Strings
  import opened Model
  import opened Capacity
  import opened CapacityCalculator
  import opened GarageFactory
  import opened GarageConfig
  import opened GarageService

  predicate NonNegativeCounts(cfg: SpaceConfig) {
    cfg.handicap >= 0 && cfg.motorcycle >= 0 && cfg.default >= 0
  }

  function Total(cfg: SpaceConfig): int {
    cfg.handicap + cfg.motorcycle + cfg.default
  }

  /** The class of the i-th space of the zone (from 0): all handicap spaces, then
      all motorcycle spaces, then all standard ones. */
  function TypeAt(cfg: SpaceConfig, i: nat): VehicleType {
    if i < cfg.handicap then Handicap
    else if i < cfg.handicap + cfg.motorcycle then Motorcycle
    else Car
  }

  function PrefixFor(t: VehicleType): string {
    match t
    case Handicap => "h"
    case Motorcycle => "m"
    case _ => "d"
  }

  /** The i-th space of the zone (from 0), numbered i + 1, placed in row `rowNum`. */
  function SpaceAt(zoneId: string, garageId: string, cfg: SpaceConfig, rowNum: nat, i: nat): Space {
    Space(SpaceId(zoneId, PrefixFor(TypeAt(cfg, i)), i + 1), zoneId, GeneratedRowId(zoneId, rowNum), garageId, TypeAt(cfg, i))
  }

  /** The i-th space of the zone, in row i / 10 + 1. */
  function RefSpace(zoneId: string, garageId: string, cfg: SpaceConfig, i: nat): Space {
    SpaceAt(zoneId, garageId, cfg, i / SpacesPerRow + 1, i)
  }

  /** The first n spaces of the zone. */
  function FlatRef(zoneId: string, garageId: string, cfg: SpaceConfig, n: nat): seq<Space> {
    seq(n, i requires 0 <= i < n => RefSpace(zoneId, garageId, cfg, i))
  }

  /** Row k (from 0) holds ten spaces, or what is left for the last row. */
  function RowSize(cfg: SpaceConfig, k: nat): nat {
    Max(0, Min(SpacesPerRow, Total(cfg) - SpacesPerRow * k))
  }

  /** The `count` spaces of the zone from position `start` on, placed in row
      `rowNum`. */
  function Stretch(zoneId: string, garageId: string, cfg: SpaceConfig, rowNum: nat, start: nat, count: nat): seq<Space> {
    seq(count, j requires 0 <= j < count => SpaceAt(zoneId, garageId, cfg, rowNum, start + j))
  }

  function RefRow(zoneId: string, garageId: string, cfg: SpaceConfig, k: nat): Row {
    Row(GeneratedRowId(zoneId, k + 1), Stretch(zoneId, garageId, cfg, k + 1, SpacesPerRow * k, RowSize(cfg, k)))
  }

  /** The layout: ⌈total / 10⌉ rows of consecutive spaces. */
  function ReferenceLayout(zoneId: string, garageId: string, cfg: SpaceConfig): seq<Row> {
    var n := Max(0, NumberOfRows(Total(cfg)));
    seq(n, k requires 0 <= k < n => RefRow(zoneId, garageId, cfg, k))
  }

  lemma FlatRefSnoc(zoneId: string, garageId: string, cfg: SpaceConfig, n: nat)
    ensures FlatRef(zoneId, garageId, cfg, n + 1) == FlatRef(zoneId, garageId, cfg, n) + [RefSpace(zoneId, garageId, cfg, n)]
  {
  }

  /** Among the first n spaces there are min(h, n) handicap spaces, then the
      motorcycle spaces that fit after them, and standard spaces for the rest. */
  lemma {:induction false} FlatRefCounts(zoneId: string, garageId: string, cfg: SpaceConfig, n: nat)
    requires NonNegativeCounts(cfg)
    ensures CountType(FlatRef(zoneId, garageId, cfg, n), Handicap) == Min(cfg.handicap, n)
    ensures CountType(FlatRef(zoneId, garageId, cfg, n), Motorcycle) == Min(cfg.motorcycle, Max(0, n - cfg.handicap))
    ensures CountType(FlatRef(zoneId, garageId, cfg, n), Car) == Max(0, n - cfg.handicap - cfg.motorcycle)
  {
    if n > 0 {
      FlatRefCounts(zoneId, garageId, cfg, n - 1);
      FlatRefSnoc(zoneId, garageId, cfg, n - 1);
      var last := [RefSpace(zoneId, garageId, cfg, n - 1)];
      CountTypeAppend(FlatRef(zoneId, garageId, cfg, n - 1), last, Handicap);
      CountTypeAppend(FlatRef(zoneId, garageId, cfg, n - 1), last, Motorcycle);
      CountTypeAppend(FlatRef(zoneId, garageId, cfg, n - 1), last, Car);
    }
  }

  lemma RowOfIndex(k: nat, j: nat)
    requires j < SpacesPerRow
    ensures (SpacesPerRow * k + j) / SpacesPerRow == k
  {
  }

  /** The j-th place of row k holds the zone's space 10k + j. */
  lemma RefSpaceInRow(zoneId: string, garageId: string, cfg: SpaceConfig, k: nat, j: nat)
    requires j < SpacesPerRow
    ensures RefSpace(zoneId, garageId, cfg, SpacesPerRow * k + j) == SpaceAt(zoneId, garageId, cfg, k + 1, SpacesPerRow * k + j)
  {
    RowOfIndex(k, j);
  }

  /** Reference row k is the stretch of the zone's spaces from 10k on. */
  lemma RowStretch(zoneId: string, garageId: string, cfg: SpaceConfig, k: nat)
    ensures FlatRef(zoneId, garageId, cfg, SpacesPerRow * k + RowSize(cfg, k)) ==
            FlatRef(zoneId, garageId, cfg, SpacesPerRow * k) + RefRow(zoneId, garageId, cfg, k).spaces
  {
    var a := SpacesPerRow * k;
    var row := RefRow(zoneId, garageId, cfg, k).spaces;
    var lhs := FlatRef(zoneId, garageId, cfg, a + RowSize(cfg, k));
    var rhs := FlatRef(zoneId, garageId, cfg, a) + row;
    forall i | a <= i < |lhs| ensures lhs[i] == rhs[i] {
      RefSpaceInRow(zoneId, garageId, cfg, k, i - a);
      assert rhs[i] == row[i - a];
    }
  }

  /** The flattened first k reference rows are the first min(10k, total) spaces. */
  lemma {:induction false} FlatPrefix(zoneId: string, garageId: string, cfg: SpaceConfig, k: nat)
    requires NonNegativeCounts(cfg)
    requires k <= NumberOfRows(Total(cfg))
    ensures AllSpaces(ReferenceLayout(zoneId, garageId, cfg)[..k]) == FlatRef(zoneId, garageId, cfg, Min(SpacesPerRow * k, Total(cfg)))
  {
    var rows := ReferenceLayout(zoneId, garageId, cfg);
    if k > 0 {
      FlatPrefix(zoneId, garageId, cfg, k - 1);
      assert rows[..k][..k - 1] == rows[..k - 1];
      var row := RefRow(zoneId, garageId, cfg, k - 1);
      assert rows[..k][k - 1] == row;
      var before := Min(SpacesPerRow * (k - 1), Total(cfg));
      assert before == SpacesPerRow * (k - 1);
      assert before + RowSize(cfg, k - 1) == Min(SpacesPerRow * k, Total(cfg));
      RowStretch(zoneId, garageId, cfg, k - 1);
    } else {
      assert rows[..0] == [];
    }
  }

  /** For each row before the last one built, the row-by-row split hands out the
      handicap, motorcycle and standard spaces that occupy that row's positions in
      the reference layout. */
  lemma SplitMatches(zoneId: string, garageId: string, cfg: SpaceConfig, k: nat)
    requires NonNegativeCounts(cfg)
    requires k < NumberOfRows(Total(cfg))
    ensures var a := SpacesPerRow * k;
            var b := a + RowSize(cfg, k);
            var split := RowSplit(cfg, NumberOfRows(Total(cfg)), k + 1, a, ReferenceLayout(zoneId, garageId, cfg)[..k]);
            split.0 == Min(cfg.handicap, b) - Min(cfg.handicap, a) &&
            split.1 == Min(cfg.motorcycle, Max(0, b - cfg.handicap)) - Min(cfg.motorcycle, Max(0, a - cfg.handicap)) &&
            split.2 == Max(0, b - cfg.handicap - cfg.motorcycle) - Max(0, a - cfg.handicap - cfg.motorcycle)
  {
    var a := SpacesPerRow * k;
    FlatPrefix(zoneId, garageId, cfg, k);
    assert Min(SpacesPerRow * k, Total(cfg)) == a;
    FlatRefCounts(zoneId, garageId, cfg, a);
  }

  /** Positions lo .. hi - 1 (none when lo == hi) all have class t. */
  predicate RunTyped(cfg: SpaceConfig, t: VehicleType, lo: int, hi: int) {
    lo == hi ||
    match t
    case Handicap => hi <= cfg.handicap
    case Motorcycle => cfg.handicap <= lo && hi <= cfg.handicap + cfg.motorcycle
    case _ => cfg.handicap + cfg.motorcycle <= lo
  }

  /** The row built for row number k + 1 is the concatenation of its three runs. */
  lemma GeneratedRowParts(zoneId: string, garageId: string, cfg: SpaceConfig, n: int, k: nat, built: seq<Row>, h: nat, m: nat, d: nat)
    requires RowSplit(cfg, n, k + 1, SpacesPerRow * k, built) == (h, m, d)
    ensures var rowId := GeneratedRowId(zoneId, k + 1);
            var a := SpacesPerRow * k;
            GeneratedRow(zoneId, garageId, cfg, n, k + 1, a, built) ==
            Row(rowId, RunOfSpaces(zoneId, garageId, rowId, Handicap, "h", h, a) +
                       RunOfSpaces(zoneId, garageId, rowId, Motorcycle, "m", m, a + h) +
                       RunOfSpaces(zoneId, garageId, rowId, Car, "d", d, a + h + m))
  {
  }

  /** The three parts of that split are non-negative, fill the row, and cover
      positions of their own class. */
  lemma SplitTyped(zoneId: string, garageId: string, cfg: SpaceConfig, k: nat)
    requires NonNegativeCounts(cfg)
    requires k < NumberOfRows(Total(cfg))
    ensures var a := SpacesPerRow * k;
            var split := RowSplit(cfg, NumberOfRows(Total(cfg)), k + 1, a, ReferenceLayout(zoneId, garageId, cfg)[..k]);
            0 <= split.0 && 0 <= split.1 && 0 <= split.2 && split.0 + split.1 + split.2 == RowSize(cfg, k) &&
            RunTyped(cfg, Handicap, a, a + split.0) &&
            RunTyped(cfg, Motorcycle, a + split.0, a + split.0 + split.1) &&
            RunTyped(cfg, Car, a + split.0 + split.1, a + RowSize(cfg, k))
  {
    SplitMatches(zoneId, garageId, cfg, k);
  }

  /** A run of class t over positions of class t is the stretch of the zone at
      those positions. */
  lemma RunIsStretch(zoneId: string, garageId: string, cfg: SpaceConfig, rowNum: nat, t: VehicleType, prefix: string, start: nat, count: nat)
    requires NonNegativeCounts(cfg) && t != Unrecognized && prefix == PrefixFor(t)
    requires RunTyped(cfg, t, start, start + count)
    ensures RunOfSpaces(zoneId, garageId, GeneratedRowId(zoneId, rowNum), t, prefix, count, start) ==
            Stretch(zoneId, garageId, cfg, rowNum, start, count)
  {
    var run := RunOfSpaces(zoneId, garageId, GeneratedRowId(zoneId, rowNum), t, prefix, count, start);
    var st := Stretch(zoneId, garageId, cfg, rowNum, start, count);
    forall j | 0 <= j < count ensures run[j] == st[j] {
      match t
      case Handicap => assert TypeAt(cfg, start + j) == Handicap;
      case Motorcycle => assert TypeAt(cfg, start + j) == Motorcycle;
      case Car => assert TypeAt(cfg, start + j) == Car;
    }
  }

  /** Two adjacent stretches of one row make one. */
  lemma StretchAppend(zoneId: string, garageId: string, cfg: SpaceConfig, rowNum: nat, start: nat, p: nat, q: nat)
    ensures Stretch(zoneId, garageId, cfg, rowNum, start, p) + Stretch(zoneId, garageId, cfg, rowNum, start + p, q) ==
            Stretch(zoneId, garageId, cfg, rowNum, start, p + q)
  {
    var left := Stretch(zoneId, garageId, cfg, rowNum, start, p);
    var right := Stretch(zoneId, garageId, cfg, rowNum, start + p, q);
    var both := Stretch(zoneId, garageId, cfg, rowNum, start, p + q);
    forall j | p <= j < p + q ensures (left + right)[j] == both[j] {
      assert (left + right)[j] == right[j - p];
    }
  }

  /** Three runs that cover row k with positions of their own class make up
      reference row k. */
  lemma RunsMakeRow(zoneId: string, garageId: string, cfg: SpaceConfig, k: nat, h: nat, m: nat, d: nat)
    requires NonNegativeCounts(cfg)
    requires h + m + d == RowSize(cfg, k)
    requires RunTyped(cfg, Handicap, SpacesPerRow * k, SpacesPerRow * k + h)
    requires RunTyped(cfg, Motorcycle, SpacesPerRow * k + h, SpacesPerRow * k + h + m)
    requires RunTyped(cfg, Car, SpacesPerRow * k + h + m, SpacesPerRow * k + RowSize(cfg, k))
    ensures var rowId := GeneratedRowId(zoneId, k + 1);
            var a := SpacesPerRow * k;
            RunOfSpaces(zoneId, garageId, rowId, Handicap, "h", h, a) +
            RunOfSpaces(zoneId, garageId, rowId, Motorcycle, "m", m, a + h) +
            RunOfSpaces(zoneId, garageId, rowId, Car, "d", d, a + h + m) == RefRow(zoneId, garageId, cfg, k).spaces
  {
    var a := SpacesPerRow * k;
    RunIsStretch(zoneId, garageId, cfg, k + 1, Handicap, "h", a, h);
    RunIsStretch(zoneId, garageId, cfg, k + 1, Motorcycle, "m", a + h, m);
    RunIsStretch(zoneId, garageId, cfg, k + 1, Car, "d", a + h + m, d);
    StretchAppend(zoneId, garageId, cfg, k + 1, a, h, m);
    StretchAppend(zoneId, garageId, cfg, k + 1, a, h + m, d);
  }

  /** Row k + 1 built after the first k reference rows is reference row k. */
  lemma RowMatches(zoneId: string, garageId: string, cfg: SpaceConfig, k: nat)
    requires NonNegativeCounts(cfg)
    requires k < NumberOfRows(Total(cfg))
    ensures GeneratedRow(zoneId, garageId, cfg, NumberOfRows(Total(cfg)), k + 1, SpacesPerRow * k, ReferenceLayout(zoneId, garageId, cfg)[..k])
            == RefRow(zoneId, garageId, cfg, k)
  {
    var n := NumberOfRows(Total(cfg));
    var built := ReferenceLayout(zoneId, garageId, cfg)[..k];
    var split := RowSplit(cfg, n, k + 1, SpacesPerRow * k, built);
    SplitTyped(zoneId, garageId, cfg, k);
    var h: nat, m: nat, d: nat := split.0, split.1, split.2;
    GeneratedRowParts(zoneId, garageId, cfg, n, k, built, h, m, d);
    RunsMakeRow(zoneId, garageId, cfg, k, h, m, d);
  }

  /** Before the last row, k full rows hold 10k spaces, and row k takes the count
      to min(10(k + 1), total). */
  lemma RowIndexes(cfg: SpaceConfig, k: nat)
    requires NonNegativeCounts(cfg)
    requires k < NumberOfRows(Total(cfg))
    ensures Min(SpacesPerRow * k, Total(cfg)) == SpacesPerRow * k
    ensures SpacesPerRow * k + RowSize(cfg, k) == Min(SpacesPerRow * (k + 1), Total(cfg))
  {
  }

  lemma LayoutSnoc(zoneId: string, garageId: string, cfg: SpaceConfig, k: nat)
    requires k < |ReferenceLayout(zoneId, garageId, cfg)|
    ensures ReferenceLayout(zoneId, garageId, cfg)[..k] + [RefRow(zoneId, garageId, cfg, k)] ==
            ReferenceLayout(zoneId, garageId, cfg)[..k + 1]
  {
    var layout := ReferenceLayout(zoneId, garageId, cfg);
    assert layout[..k + 1] == layout[..k] + [layout[k]];
  }

  /** Generating from row k + 1 on, after the first k reference rows, completes
      the reference layout. */
  lemma {:induction false} GenerateMatches(zoneId: string, garageId: string, cfg: SpaceConfig, k: nat)
    requires NonNegativeCounts(cfg)
    requires k <= NumberOfRows(Total(cfg))
    ensures GenerateRows(zoneId, garageId, cfg, NumberOfRows(Total(cfg)), k + 1, Min(SpacesPerRow * k, Total(cfg)),
                         ReferenceLayout(zoneId, garageId, cfg)[..k]) == ReferenceLayout(zoneId, garageId, cfg)
    decreases NumberOfRows(Total(cfg)) - k
  {
    var n := NumberOfRows(Total(cfg));
    var layout := ReferenceLayout(zoneId, garageId, cfg);
    if k == n {
      assert layout[..k] == layout;
      GenerateRowsDone(zoneId, garageId, cfg, n, k + 1, Min(SpacesPerRow * k, Total(cfg)), layout[..k]);
    } else {
      RowIndexes(cfg, k);
      RowMatches(zoneId, garageId, cfg, k);
      var row := RefRow(zoneId, garageId, cfg, k);
      LayoutSnoc(zoneId, garageId, cfg, k);
      GenerateMatches(zoneId, garageId, cfg, k + 1);
    }
  }

  /** With non-negative counts, the spaces-only branch builds exactly the
      reference layout. */
  lemma RowsFromSpacesIsReferenceLayout(zoneId: string, garageId: string, cfg: SpaceConfig)
    requires NonNegativeCounts(cfg)
    ensures RowsFromSpaces(zoneId, garageId, cfg) == ReferenceLayout(zoneId, garageId, cfg)
  {
    var layout := ReferenceLayout(zoneId, garageId, cfg);
    assert layout[..0] == [];
    GenerateMatches(zoneId, garageId, cfg, 0);
  }

  /** The shape of the layout: ⌈total / 10⌉ rows named `row-<zone>-1`, `row-<zone>-2`,
      …; every row but the last holds ten spaces, the last holds the remainder
      (between one and ten), and every space names the row that holds it. */
  lemma ReferenceLayoutShape(zoneId: string, garageId: string, cfg: SpaceConfig)
    requires NonNegativeCounts(cfg)
    ensures var rows := ReferenceLayout(zoneId, garageId, cfg);
            |rows| == NumberOfRows(Total(cfg)) &&
            (|rows| - 1) * SpacesPerRow < Total(cfg) <= |rows| * SpacesPerRow &&
            (forall k :: 0 <= k < |rows| ==> rows[k].id == GeneratedRowId(zoneId, k + 1)) &&
            (forall k :: 0 <= k < |rows| - 1 ==> |rows[k].spaces| == SpacesPerRow) &&
            (|rows| > 0 ==> 1 <= |rows[|rows| - 1].spaces| == Total(cfg) - (|rows| - 1) * SpacesPerRow <= SpacesPerRow) &&
            (forall k, j :: 0 <= k < |rows| && 0 <= j < |rows[k].spaces| ==>
               rows[k].spaces[j].rowId == rows[k].id && rows[k].spaces[j].zoneId == zoneId && rows[k].spaces[j].garageId == garageId)
  {
    var rows := ReferenceLayout(zoneId, garageId, cfg);
    forall k, j | 0 <= k < |rows| && 0 <= j < |rows[k].spaces|
      ensures rows[k].spaces[j].rowId == rows[k].id && rows[k].spaces[j].zoneId == zoneId && rows[k].spaces[j].garageId == garageId
    {
      assert rows[k] == RefRow(zoneId, garageId, cfg, k);
      assert rows[k].spaces[j] == SpaceAt(zoneId, garageId, cfg, k + 1, SpacesPerRow * k + j);
    }
  }

  /** Read row by row, the layout is the zone's spaces in order. */
  lemma ReferenceLayoutFlat(zoneId: string, garageId: string, cfg: SpaceConfig)
    requires NonNegativeCounts(cfg)
    ensures AllSpaces(ReferenceLayout(zoneId, garageId, cfg)) == FlatRef(zoneId, garageId, cfg, Total(cfg))
  {
    var n := NumberOfRows(Total(cfg));
    var layout := ReferenceLayout(zoneId, garageId, cfg);
    FlatPrefix(zoneId, garageId, cfg, n);
    assert layout[..n] == layout;
  }

  /** Read row by row, the layout holds all handicap spaces, then all motorcycle
      spaces, then the standard ones, exactly as many of each as configured, the
      i-th numbered i + 1. */
  lemma ReferenceLayoutContents(zoneId: string, garageId: string, cfg: SpaceConfig)
    requires NonNegativeCounts(cfg)
    ensures var all := AllSpaces(ReferenceLayout(zoneId, garageId, cfg));
            |all| == Total(cfg) &&
            CountType(all, Handicap) == cfg.handicap &&
            CountType(all, Motorcycle) == cfg.motorcycle &&
            CountType(all, Car) == cfg.default &&
            (forall i :: 0 <= i < |all| ==> all[i] == RefSpace(zoneId, garageId, cfg, i)) &&
            (forall i :: 0 <= i < |all| ==> (all[i].vehicleType == Handicap <==> i < cfg.handicap)) &&
            (forall i :: 0 <= i < |all| ==> (all[i].vehicleType == Car <==> cfg.handicap + cfg.motorcycle <= i))
  {
    ReferenceLayoutFlat(zoneId, garageId, cfg);
    FlatRefCounts(zoneId, garageId, cfg, Total(cfg));
  }

  lemma FlatRefIdsDistinct(zoneId: string, garageId: string, cfg: SpaceConfig, n: nat)
    ensures var all := FlatRef(zoneId, garageId, cfg, n);
            forall i, j :: 0 <= i < j < n ==> all[i].id != all[j].id
  {
    var all := FlatRef(zoneId, garageId, cfg, n);
    forall i, j | 0 <= i < j < n ensures all[i].id != all[j].id {
      if all[i].id == all[j].id {
        SpaceIdInjective(zoneId, PrefixFor(TypeAt(cfg, i)), i + 1, PrefixFor(TypeAt(cfg, j)), j + 1);
        assert false;
      }
    }
  }

  /** No two spaces of the layout share an id. */
  lemma ReferenceLayoutIdsDistinct(zoneId: string, garageId: string, cfg: SpaceConfig)
    requires NonNegativeCounts(cfg)
    ensures var all := AllSpaces(ReferenceLayout(zoneId, garageId, cfg));
            forall i, j :: 0 <= i < j < |all| ==> all[i].id != all[j].id
  {
    ReferenceLayoutFlat(zoneId, garageId, cfg);
    FlatRefIdsDistinct(zoneId, garageId, cfg, Total(cfg));
  }

  /** A zone defined by space counts alone, with none negative, is laid out as the
      reference layout. */
  lemma SpacesOnlyZone(zc: ZoneConfig, garageId: string)
    requires zc.rows.None? && zc.spaces.Some? && NonNegativeCounts(zc.spaces.value)
    ensures ZoneFromConfig(zc, garageId) == Success(Zone(zc.id, ReferenceLayout(zc.id, garageId, zc.spaces.value)))
  {
    RowsFromSpacesIsReferenceLayout(zc.id, garageId, zc.spaces.value);
  }

  /** The capacity the occupancy pipeline finds for such a zone is the configured
      number of spaces of each class. */
  lemma SpacesOnlyZoneCapacity(garage: Garage, space: Space, cfg: SpaceConfig)
    requires NonNegativeCounts(cfg)
    requires FindZone(garage.zones, space.zoneId) == Some(Zone(space.zoneId, ReferenceLayout(space.zoneId, garage.id, cfg)))
    ensures ZoneCapacity(garage, space) == CapacityData(cfg.default, cfg.handicap, cfg.motorcycle, Some(ZoneLevel))
  {
    ReferenceLayoutContents(space.zoneId, garage.id, cfg);
  }
}
