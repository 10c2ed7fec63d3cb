/** The garage definitions the data generator reads from its configuration. */
module GarageConfig {
  import opened Wrappers

  /** Numbers of handicap, motorcycle and standard spaces; each defaults to 0. */
  datatype SpaceConfig = SpaceConfig(handicap: int, motorcycle: int, default: int)

  datatype RowConfig = RowConfig(id: string, name: Option<string>, spaces: SpaceConfig)

  /** A zone lists its rows, or only its space counts. */
  datatype ZoneConfig = ZoneConfig(id: string, name: string, rows: Option<seq<RowConfig>>, spaces: Option<SpaceConfig>)

  datatype LocationConfig = LocationConfig(latitude: string, longitude: string, address: Option<string>, description: Option<string>)

  datatype ParkingGarageConfig = ParkingGarageConfig(id: string, name: string, location: LocationConfig, zones: seq<ZoneConfig>)
}
