/** The health platform's types that the sleep path reads and builds,
    as plain values. */
module HealthPlatform {
  import opened Completions
  import opened JavaTime

  /** `DataTypes.*`: sleep, and every other data type. */
  datatype DataType = Sleep | OtherDataType(name: string)

  /** `AccessType` */
  datatype AccessType = Read | Write

  /** `Permission.of(dataType, accessType)` */
  datatype Permission = Permission(dataType: DataType, accessType: AccessType)

  /** `DeviceGroup`, the device classes a read can be restricted to. */
  datatype DeviceGroup = Watch | Ring | Mobile

  /** `LocalTimeFilter.of(start, end)`: the half-open window [start, end). */
  datatype LocalTimeFilter = LocalTimeFilter(start: LocalDateTime, end: LocalDateTime)

  /** `ReadSourceFilter.of(applicationPackage, deviceType)` */
  datatype ReadSourceFilter = ReadSourceFilter(applicationPackage: Option<string>, deviceType: DeviceGroup)

  /** A built `ReadDataRequest`: one data type, a time window, and an optional source filter. */
  datatype ReadRequest = ReadRequest(
    dataType: DataType,
    localTimeFilter: LocalTimeFilter,
    sourceFilter: Option<ReadSourceFilter>)

  /** `SleepSession.StageType`, an enum constant known by its `name`. */
  datatype StageType = StageType(name: string)

  /** `SleepSession.SleepStage` */
  datatype SleepSessionStage = SleepSessionStage(startTime: Instant, endTime: Instant, stage: StageType)

  /** `SleepSession`: its stage list is nullable. */
  datatype SleepSession = SleepSession(
    startTime: Instant,
    endTime: Instant,
    duration: Duration,
    stages: Option<seq<SleepSessionStage>>)

  /** A sleep `HealthDataPoint`: the values read with `getValue(DataType.SleepType.*)`
      are nullable. */
  datatype HealthDataPoint = HealthDataPoint(
    startTime: Instant,
    endTime: Instant,
    sleepScore: Option<int>,
    duration: Option<Duration>,
    sessions: Option<seq<SleepSession>>)
}
