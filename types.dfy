/**
 * The application's records (renderer/utils/types.ts). Every JavaScript
 * `number` here is an integer; `T | null` and optional fields are Options.
 */
module Types {
  import opened Wrappers

  datatype Vehicle = Vehicle(id: string, name: string)

  datatype Player = Player(id: string, name: string, teamName: Option<string>, vehicle: Option<Vehicle>)

  /** One of the racing lanes and who (and what) is assigned to it. */
  datatype Course = Course(id: int, playerId: Option<string>, vehicleId: Option<string>)

  /** One completed lap; `time` is the formatted `mm:ss.cc` text of `timestamp` milliseconds. */
  datatype RaceLap = RaceLap(lapNumber: int, time: string, timestamp: int)

  datatype RaceResult = RaceResult(
    id: string,
    raceId: string,
    position: int,
    playerId: Option<string>,
    playerName: string,
    teamName: Option<string>,
    vehicleId: Option<string>,
    vehicleName: string,
    totalTime: string,
    laps: seq<RaceLap>,
    bestLap: Option<RaceLap>,
    isCompleted: Option<bool>)

  datatype Race = Race(
    id: string,
    name: string,
    date: string,
    raceNumber: int,
    raceType: Option<string>,
    totalLaps: int,
    results: seq<RaceResult>)

  /** The root aggregate that is persisted as one unit. */
  datatype AppSettings = AppSettings(
    courses: seq<Course>,
    players: seq<Player>,
    lapCount: int,
    soundEnabled: bool,
    races: seq<Race>)
}
