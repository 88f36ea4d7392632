/** The read path the UI calls: one day's sleep records, mapped. */
module SleepRepository {
  import opened Completions
  import opened HealthPlatform
  import opened SleepModel
  import opened SleepQuery
  import opened RecordMapper

  /** `readSleep`. The platform's `readData` is given as a parameter; it is called
      with `SleepReadRequest(day, device)`. */
  method ReadSleep(day: Day, device: DeviceFilterEnum, readData: ReadRequest -> Completion<seq<HealthDataPoint>>)
    returns (r: Completion<seq<SleepData>>)
    // a failed read is re-thrown unchanged
    ensures readData(SleepReadRequest(day, device)).Threw? ==>
              r == Threw(readData(SleepReadRequest(day, device)).failure)
    // a successful read maps every record, in the platform's order
    ensures readData(SleepReadRequest(day, device)).Returned? ==>
              var records := readData(SleepReadRequest(day, device)).value;
              r.Returned? && |r.value| == |records| &&
              forall i :: 0 <= i < |r.value| ==> r.value[i] == PrepareSleepResult(records[i])
  {
    var localTimeFilter := DayWindow(day);
    var deviceType := DeviceTypeOf(device);
    var readSourceFilter: Option<ReadSourceFilter> := None;
    if deviceType.Some? {
      readSourceFilter := Some(ReadSourceFilter(None, deviceType.value));
    }
    var readRequest := PrepareReadSleepRequest(localTimeFilter, readSourceFilter);
    assert readRequest == SleepReadRequest(day, device);
    match readData(readRequest) {
      case Threw(failure) =>
        return Threw(failure);
      case Returned(healthDataList) =>
        var sleepResults := seq(|healthDataList|, i requires 0 <= i < |healthDataList| => PrepareSleepResult(healthDataList[i]));
        return Returned(sleepResults);
    }
    // the trailing `return emptyList()` cannot be reached
    assert false;
  }
}
