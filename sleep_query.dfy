/** Builds the platform read request for one day's sleep records. */
module SleepQuery {
  import opened Completions
  import opened JavaTime
  import opened HealthPlatform
  import opened SleepModel

  /** `LocalTimeFilter.of(day.time.atStartOfDay(), day.time.plusDays(1).atStartOfDay())` */
  function DayWindow(day: Day): (w: LocalTimeFilter)
    ensures w.end - w.start == SecondsPerDay
    ensures ToLocalDate(w.start) == day.time
  {
    LocalTimeFilter(AtStartOfDay(day.time), AtStartOfDay(PlusDays(day.time, 1)))
  }

  /** A moment lies in a day's window exactly when it falls on that day, so the
      windows of consecutive days abut and never overlap. */
  lemma DayWindowContains(day: Day, t: LocalDateTime)
    ensures DayWindow(day).start <= t < DayWindow(day).end <==> ToLocalDate(t) == day.time
  {
  }

  lemma DayWindowsAbut(day: Day)
    ensures DayWindow(day).end == DayWindow(Day(PlusDays(day.time, 1))).start
  {
  }

  /** The device-class token a device filter asks for (the `when` over `DeviceFilterEnum`). */
  function DeviceTypeOf(device: DeviceFilterEnum): (t: Option<DeviceGroup>)
    ensures t.None? <==> device == AllDevices
  {
    match device
    case Watch => Some(DeviceGroup.Watch)
    case Ring => Some(DeviceGroup.Ring)
    case AllDevices => None
  }

  /** Different filters never ask for the same restriction. */
  lemma DeviceTypeOfInjective(a: DeviceFilterEnum, b: DeviceFilterEnum)
    requires DeviceTypeOf(a) == DeviceTypeOf(b)
    ensures a == b
  {
  }

  /** The request `readSleep` issues for a day and a device filter: a sleep read
      over the day's window, restricted to the filter's device class when it names one. */
  function SleepReadRequest(day: Day, device: DeviceFilterEnum): (request: ReadRequest)
    ensures request.dataType == Sleep
    ensures request.localTimeFilter == DayWindow(day)
    ensures request.sourceFilter.None? <==> device == AllDevices
    ensures device == DeviceFilterEnum.Watch ==> request.sourceFilter == Some(ReadSourceFilter(None, DeviceGroup.Watch))
    ensures device == DeviceFilterEnum.Ring ==> request.sourceFilter == Some(ReadSourceFilter(None, DeviceGroup.Ring))
  {
    match DeviceTypeOf(device)
    case None => ReadRequest(Sleep, DayWindow(day), None)
    case Some(group) => ReadRequest(Sleep, DayWindow(day), Some(ReadSourceFilter(None, group)))
  }

  /** `prepareReadSleepRequest`: a sleep read over the window, with the source
      filter set on the builder only when there is one. */
  method PrepareReadSleepRequest(localTimeFilter: LocalTimeFilter, readSourceFilter: Option<ReadSourceFilter>)
    returns (request: ReadRequest)
    ensures request.dataType == Sleep
    ensures request.localTimeFilter == localTimeFilter
    ensures request.sourceFilter == readSourceFilter
  {
    var readRequestBuilder := ReadRequest(Sleep, localTimeFilter, None);
    if readSourceFilter.Some? {
      readRequestBuilder := readRequestBuilder.(sourceFilter := readSourceFilter);
    }
    request := readRequestBuilder;
  }
}
