/** The application's own health model: what the repository hands to the UI. */
module SleepModel {
  import opened JavaTime

  /** The calendar day a read is for. */
  datatype Day = Day(time: LocalDate)

  /** Which devices' records a read returns. */
  datatype DeviceFilterEnum = Watch | Ring | AllDevices

  /** One labelled interval of a session. */
  datatype SleepStage = SleepStage(startTime: Instant, endTime: Instant, stage: string)

  /** One sleep episode; `hours` and `minutes` split its duration. */
  datatype Session = Session(
    name: string,
    hours: int,
    minutes: int,
    startTime: Instant,
    endTime: Instant,
    stages: seq<SleepStage>)

  /** One day's sleep aggregate. */
  datatype SleepData = SleepData(
    score: int,
    sessionCount: int,
    hours: int,
    minutes: int,
    startTime: Instant,
    endTime: Instant,
    sessions: seq<Session>)
}
