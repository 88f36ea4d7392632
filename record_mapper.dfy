/** Turns the platform's nested sleep records into the application's flat model. */
module RecordMapper {
  import opened Completions
  import opened JavaTime
  import opened HealthPlatform
  import opened SleepModel
  import opened StageLabels

  const TwoTo31: int := 0x8000_0000
  const TwoTo32: int := 0x1_0000_0000

  /** Kotlin's `Long.toInt()`: keeps the low 32 bits, as a signed value. */
  function LongToInt(x: int): (r: int)
    ensures -TwoTo31 <= r < TwoTo31
    ensures (x - r) % TwoTo32 == 0
    ensures -TwoTo31 <= x < TwoTo31 ==> r == x
  {
    var m := x % TwoTo32;
    if m < TwoTo31 then m else m - TwoTo32
  }

  /** Whole hours of a duration, the `toHours()` half of the split. */
  function SplitHours(d: Duration): nat {
    d.ToHours()
  }

  /** Minutes left over once the whole hours are taken away,
      `minusHours(toHours()).toMinutes()`. */
  function SplitMinutes(d: Duration): nat {
    d.MinusHours(d.ToHours()).ToMinutes()
  }

  /** A duration splits into whole hours and the remaining minutes; leftover
      seconds are truncated, not rounded. */
  lemma DurationSplit(d: Duration)
    ensures SplitMinutes(d) < 60
    ensures SplitHours(d) * 60 + SplitMinutes(d) == d.ToMinutes()
    ensures (SplitHours(d) * 60 + SplitMinutes(d)) * 60 <= d.seconds
              < (SplitHours(d) * 60 + SplitMinutes(d) + 1) * 60
  {
  }

  /** `prepareSleepScore`: the record's sleep score, when it has one. */
  function PrepareSleepScore(healthDataPoint: HealthDataPoint): (score: Option<int>)
    ensures healthDataPoint.sleepScore.None? ==> score.None?
    ensures healthDataPoint.sleepScore.Some? ==> score == Some(healthDataPoint.sleepScore.value)
  {
    healthDataPoint.sleepScore
  }

  /** The mapping `extractStages` applies to each stage. */
  function MapStage(stage: SleepSessionStage): (r: SleepStage)
    ensures r.startTime == stage.startTime && r.endTime == stage.endTime
    ensures IsCanonical(r.stage) && EqualIgnoringCase(r.stage, stage.stage.name)
  {
    StageLabelCanonical(stage.stage.name);
    SleepStage(stage.startTime, stage.endTime, StageLabel(stage.stage.name))
  }

  /** `extractStages`: one stage per raw stage, in the same order. */
  function ExtractStages(stagesList: seq<SleepSessionStage>): (r: seq<SleepStage>)
    ensures |r| == |stagesList|
    ensures forall i :: 0 <= i < |r| ==> r[i] == MapStage(stagesList[i])
  {
    if stagesList == [] then []
    else [MapStage(stagesList[0])] + ExtractStages(stagesList[1..])
  }

  /** The mapping `extractSessions` applies to each session. */
  function MapSession(session: SleepSession): (r: Session)
    ensures r.name == "Session"
    ensures r.startTime == session.startTime && r.endTime == session.endTime
    ensures 0 <= r.hours && 0 <= r.minutes < 60
    ensures r.hours * 60 + r.minutes == session.duration.ToMinutes()
    ensures session.stages.None? ==> r.stages == []
    ensures session.stages.Some? ==> r.stages == ExtractStages(session.stages.value)
  {
    DurationSplit(session.duration);
    Session(
      "Session",
      SplitHours(session.duration),
      SplitMinutes(session.duration),
      session.startTime,
      session.endTime,
      ExtractStages(session.stages.GetOr([])))
  }

  /** `extractSessions`: one session per raw session, in the same order. */
  function ExtractSessions(sleepSessionList: seq<SleepSession>): (r: seq<Session>)
    ensures |r| == |sleepSessionList|
    ensures forall i :: 0 <= i < |r| ==> r[i] == MapSession(sleepSessionList[i])
  {
    if sleepSessionList == [] then []
    else [MapSession(sleepSessionList[0])] + ExtractSessions(sleepSessionList[1..])
  }

  /** `prepareSleepResult`: absent values default to a zero score, a zero
      duration and no sessions. */
  function PrepareSleepResult(healthData: HealthDataPoint): (r: SleepData)
    ensures healthData.sleepScore.None? ==> r.score == 0
    ensures healthData.sleepScore.Some? ==> r.score == healthData.sleepScore.value
    ensures healthData.duration.None? ==> r.hours == 0 && r.minutes == 0
    ensures healthData.duration.Some? ==> r.hours == LongToInt(healthData.duration.value.ToHours())
    ensures 0 <= r.minutes < 60
    ensures healthData.duration.Some? ==>
              healthData.duration.value.ToHours() * 60 + r.minutes == healthData.duration.value.ToMinutes()
    ensures healthData.duration.Some? && healthData.duration.value.ToHours() < TwoTo31 ==>
              r.hours * 60 + r.minutes == healthData.duration.value.ToMinutes()
    ensures r.startTime == healthData.startTime && r.endTime == healthData.endTime
    ensures r.sessionCount == |r.sessions|
    ensures healthData.sessions.None? ==> r.sessions == []
    ensures healthData.sessions.Some? ==> r.sessions == ExtractSessions(healthData.sessions.value)
  {
    var score := PrepareSleepScore(healthData).GetOr(0);
    var duration := healthData.duration.GetOr(Zero);
    var sleepSessionList := healthData.sessions.GetOr([]);
    DurationSplit(duration);
    SleepData(
      score,
      |sleepSessionList|,
      LongToInt(SplitHours(duration)),
      LongToInt(SplitMinutes(duration)),
      healthData.startTime,
      healthData.endTime,
      ExtractSessions(sleepSessionList))
  }

  /** What every mapped record satisfies, whatever the platform sent. */
  ghost predicate WellFormed(data: SleepData) {
    && data.sessionCount == |data.sessions|
    && 0 <= data.minutes < 60
    && (forall i :: 0 <= i < |data.sessions| ==> WellFormedSession(data.sessions[i]))
  }

  ghost predicate WellFormedSession(session: Session) {
    && session.name == "Session"
    && 0 <= session.hours && 0 <= session.minutes < 60
    && forall j :: 0 <= j < |session.stages| ==> IsCanonical(session.stages[j].stage)
  }

  /** Every record the platform sends maps to a well-formed aggregate. */
  lemma PrepareSleepResultWellFormed(healthData: HealthDataPoint)
    ensures WellFormed(PrepareSleepResult(healthData))
  {
  }

  /** One night of 7h30m with score 82 and a light and a deep stage. */
  lemma SevenAndAHalfHourNight()
    ensures
      var bedtime, lightEnd, wakeup := 1709247600, 1709254800, 1709274600;
      var night := Duration(27000);
      PrepareSleepResult(HealthDataPoint(bedtime, wakeup, Some(82), Some(night),
        Some([SleepSession(bedtime, wakeup, night, Some([
          SleepSessionStage(bedtime, lightEnd, StageType("LIGHT")),
          SleepSessionStage(lightEnd, wakeup, StageType("DEEP"))]))])))
      == SleepData(82, 1, 7, 30, bedtime, wakeup, [
           Session("Session", 7, 30, bedtime, wakeup, [
             SleepStage(bedtime, lightEnd, "Light"),
             SleepStage(lightEnd, wakeup, "Deep")])])
  {
    var bedtime, lightEnd, wakeup := 1709247600, 1709254800, 1709274600;
    var night := Duration(27000);
    var stages := [
      SleepSessionStage(bedtime, lightEnd, StageType("LIGHT")),
      SleepSessionStage(lightEnd, wakeup, StageType("DEEP"))];
    var session := SleepSession(bedtime, wakeup, night, Some(stages));
    StageLabelExamples();
    assert ExtractStages(stages) == [
      SleepStage(bedtime, lightEnd, "Light"),
      SleepStage(lightEnd, wakeup, "Deep")];
    assert SplitHours(night) == 7 && SplitMinutes(night) == 30;
    assert ExtractSessions([session]) == [MapSession(session)];
  }
}
