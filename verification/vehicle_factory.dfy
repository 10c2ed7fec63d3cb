/** The vehicle factory: vehicles with a licence plate shaped by their class, a
    state code and a generated id. Every random draw and the clock reading are
    parameters, each ranging over the values the corresponding draw can return. */
module VehicleFactory {
  import opened Strings
  import opened Model

  /** The fifty two-letter state codes a vehicle is registered in. */
  const States: seq<string> := [
    "AL", "AK", "AZ", "AR", "CA", "CO", "CT", "DE", "FL", "GA",
    "HI", "ID", "IL", "IN", "IA", "KS", "KY", "LA", "ME", "MD",
    "MA", "MI", "MN", "MS", "MO", "MT", "NE", "NV", "NH", "NJ",
    "NM", "NY", "NC", "ND", "OH", "OK", "OR", "PA", "RI", "SC",
    "SD", "TN", "TX", "UT", "VT", "VA", "WA", "WV", "WI", "WY"
  ]

  /** The prefixes of a handicap plate. */
  const HandicapPrefixes: seq<string> := ["HC", "DP", "HP"]

  predicate IsUpper(c: char) {
    'A' <= c <= 'Z'
  }

  predicate AllUpper(s: string) {
    forall i :: 0 <= i < |s| ==> IsUpper(s[i])
  }

  /** The random choices behind one plate: which handicap prefix, the letters and
      the number. */
  datatype PlateDraw = PlateDraw(prefix: nat, letters: string, number: int)

  /** The draws `generateLicensePlate` can make for a vehicle class: a prefix out of
      three and 1000..9999 for handicap, two letters and 10..99 for motorcycles,
      three letters and 100..999 otherwise. */
  predicate PlateDrawFor(t: VehicleType, d: PlateDraw) {
    match t
    case Handicap => d.prefix < |HandicapPrefixes| && 1000 <= d.number <= 9999
    case Motorcycle => |d.letters| == 2 && AllUpper(d.letters) && 10 <= d.number <= 99
    case _ => |d.letters| == 3 && AllUpper(d.letters) && 100 <= d.number <= 999
  }

  /** `generateLicensePlate`: the plate's letter part, then the drawn number,
      which can be read back from the plate's digits. */
  function GenerateLicensePlate(t: VehicleType, d: PlateDraw): (plate: string)
    requires PlateDrawFor(t, d)
    ensures t == Handicap ==>
              |plate| == 6 && plate[..2] in HandicapPrefixes &&
              IsDigits(plate[2..]) && DigitsValue(plate[2..]) == d.number
    ensures t == Motorcycle ==>
              |plate| == 4 && AllUpper(plate[..2]) &&
              IsDigits(plate[2..]) && DigitsValue(plate[2..]) == d.number
    ensures t != Handicap && t != Motorcycle ==>
              |plate| == 6 && AllUpper(plate[..3]) &&
              IsDigits(plate[3..]) && DigitsValue(plate[3..]) == d.number
  {
    var letters := if t == Handicap then HandicapPrefixes[d.prefix] else d.letters;
    var numbers := NatToString(d.number);
    NatToStringRoundTrip(d.number);
    if t == Handicap then
      NatToStringLength(d.number, 3);
      assert (letters + numbers)[..2] == letters && (letters + numbers)[2..] == numbers;
      letters + numbers
    else if t == Motorcycle then
      NatToStringLength(d.number, 1);
      assert (letters + numbers)[..2] == letters && (letters + numbers)[2..] == numbers;
      letters + numbers
    else
      NatToStringLength(d.number, 2);
      assert (letters + numbers)[..3] == letters && (letters + numbers)[3..] == numbers;
      letters + numbers
  }

  /** `generateVehicleId`: `"vehicle-<millis>-<suffix>"`, the suffix drawn from
      1000..9999. */
  function GenerateVehicleId(millis: nat, suffix: int): (id: string)
    requires 1000 <= suffix <= 9999
    ensures StartsWith(id, "vehicle-")
    ensures |id| >= 14 && id[|id| - 5] == '-'
    ensures IsDigits(id[|id| - 4..]) && DigitsValue(id[|id| - 4..]) == suffix
  {
    var tail := NatToString(suffix);
    NatToStringLength(suffix, 3);
    NatToStringRoundTrip(suffix);
    var id := "vehicle-" + NatToString(millis) + "-" + tail;
    assert id[|id| - 4..] == tail;
    assert id[..8] == "vehicle-";
    id
  }

  /** The random choices and the clock reading behind one vehicle. */
  datatype VehicleDraw = VehicleDraw(plate: PlateDraw, stateChoice: nat, millis: nat, suffix: int)

  /** The draws `createVehicle` can make for a vehicle class. */
  predicate VehicleDrawFor(t: VehicleType, d: VehicleDraw) {
    PlateDrawFor(t, d.plate) && d.stateChoice < |States| && 1000 <= d.suffix <= 9999
  }

  /** `createVehicle`: a vehicle of exactly the requested class, with a plate for
      that class and one of the fifty state codes. */
  function CreateVehicle(t: VehicleType, d: VehicleDraw): (v: Vehicle)
    requires VehicleDrawFor(t, d)
    ensures v.vehicleType == t
    ensures v.state in States
    ensures v.licensePlate == GenerateLicensePlate(t, d.plate)
    ensures v.id == GenerateVehicleId(d.millis, d.suffix)
  {
    Vehicle(GenerateVehicleId(d.millis, d.suffix), GenerateLicensePlate(t, d.plate), States[d.stateChoice], t)
  }

  /** The id splits into the part carrying the clock reading and the part carrying
      the suffix. */
  lemma VehicleIdParts(millis: nat, suffix: int)
    requires 1000 <= suffix <= 9999
    ensures GenerateVehicleId(millis, suffix) == ("vehicle-" + NatToString(millis)) + ("-" + NatToString(suffix))
  {
  }

  /** Vehicles made at different clock readings, or with different suffixes,
      have different ids. */
  lemma VehicleIdsDiffer(m1: nat, s1: int, m2: nat, s2: int)
    requires 1000 <= s1 <= 9999 && 1000 <= s2 <= 9999
    requires GenerateVehicleId(m1, s1) == GenerateVehicleId(m2, s2)
    ensures m1 == m2 && s1 == s2
  {
    var a, b := GenerateVehicleId(m1, s1), GenerateVehicleId(m2, s2);
    assert s1 == s2 by {
      assert DigitsValue(a[|a| - 4..]) == DigitsValue(b[|b| - 4..]);
    }
    VehicleIdParts(m1, s1);
    VehicleIdParts(m2, s2);
    SuffixCancel("vehicle-" + NatToString(m1), "vehicle-" + NatToString(m2), "-" + NatToString(s1));
    PrefixCancel("vehicle-", NatToString(m1), NatToString(m2));
    NatToStringInjective(m1, m2);
  }
}
