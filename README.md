# Sleep-data path of My Alarm App, in Dafny

My Alarm App is an Android alarm clock that also shows sleep metrics from the Samsung Health
data platform. All of its logic lives in one repository class, `HealthDataStoreRepository`.
This project models that class's sleep-data path:

- **Permission negotiation** (`SleepPermissions`). The required set holds exactly one
  permission: read access to sleep data. If the platform already reports it granted, the answer
  is `true` and the grant flow never runs. Otherwise the interactive grant flow runs.
  A `HealthDataException` from that flow is re-thrown. Any other throwable is swallowed. The
  answer is whether the granted set then holds the required one.
- **Query construction** (`SleepQuery`). The time window is `[day 00:00, day+1 00:00)`. A
  three-way device filter maps to an optional device-group token. A source filter is attached only
  when there is a token.
- **Record mapping** (`RecordMapper`, `StageLabels`). This turns a platform sleep record into
  the app's `SleepData`, with its sessions and stages. Absent values default to score 0, a zero
  duration, and empty session and stage lists. Durations split into whole hours plus the
  remaining minutes. Every session is named `"Session"`. Stage labels are the enum name in
  lower case, with the first character upper-cased. Order is kept.
- **Read orchestration** (`SleepRepository`). Every returned record is mapped, in order. A failed
  read is re-thrown. The trailing `return emptyList()` is proved unreachable.

The platform's calls (`getGrantedPermissions`, `requestPermissions`, `readData`) are
parameters of function type. Each returns a `Completion`: either a returned value or a thrown
`Throwable`. The platform's records are plain datatypes (`HealthPlatform`). Java time is
counted in whole seconds (`JavaTime`):

- an `Instant` is seconds since the epoch;
- a `LocalDate` is days since 1970-01-01;
- a `LocalDateTime` is local seconds since 1970-01-01T00:00;
- a `Duration` is a non-negative number of seconds.

## Model

| member | source | states |
|---|---|---|
| RecordMapper.LongToInt | app/src/main/java/com/example/myalarmapp/repository/HealthDataStoreRepository.kt:93-94 | `Long.toInt()` gives a signed 32-bit value congruent to its input modulo 2^32, and the input itself when it already fits |
| RecordMapper.DurationSplit | app/src/main/java/com/example/myalarmapp/repository/HealthDataStoreRepository.kt:93-94 | hours*60 + minutes equals the duration's whole minutes; 0 <= minutes < 60; leftover seconds are truncated (the split minutes lie within one minute below the raw seconds) |
| RecordMapper.MapStage | app/src/main/java/com/example/myalarmapp/repository/HealthDataStoreRepository.kt:117-122 | a mapped stage keeps its start and end times; its label is in canonical form and equals the enum name up to letter case |
| RecordMapper.ExtractStages | app/src/main/java/com/example/myalarmapp/repository/HealthDataStoreRepository.kt:115-123 | one mapped stage per raw stage, same length, same order |
| RecordMapper.MapSession | app/src/main/java/com/example/myalarmapp/repository/HealthDataStoreRepository.kt:104-112 | name is "Session"; start and end are unchanged; the session's own duration splits as hours*60 + minutes == its whole minutes, with 0 <= minutes < 60; an absent stage list gives no stages; otherwise the stages are the mapped raw stages |
| RecordMapper.ExtractSessions | app/src/main/java/com/example/myalarmapp/repository/HealthDataStoreRepository.kt:102-113 | one mapped session per raw session, same length, same order |
| RecordMapper.PrepareSleepScore | app/src/main/java/com/example/myalarmapp/repository/HealthDataStoreRepository.kt:172-175 | the record's sleep score when it has one, and none when the record has none |
| RecordMapper.PrepareSleepResult | app/src/main/java/com/example/myalarmapp/repository/HealthDataStoreRepository.kt:83-100 | an absent score gives 0 and a present one is kept; an absent duration gives 0 h 0 min; for every present duration, whole hours (before the 32-bit cast) times 60 plus minutes equals the record's whole minutes, with minutes in [0, 60); hours are the 32-bit truncation of whole hours, so when they fit, hours*60 + minutes == the record's whole minutes; sessionCount equals the number of mapped sessions; absent sessions give []; otherwise the sessions are the mapped raw sessions; start and end are unchanged |
| RecordMapper.PrepareSleepResultWellFormed | app/src/main/java/com/example/myalarmapp/repository/HealthDataStoreRepository.kt:83-123 | every mapped record is well formed: count matches list, minutes below 60 at both levels, every session named "Session", every stage label canonical |
| RecordMapper.SevenAndAHalfHourNight | app/src/main/java/com/example/myalarmapp/repository/HealthDataStoreRepository.kt:83-123 | a 7h30m night with score 82 and a LIGHT and a DEEP stage maps to SleepData(82, 1, 7, 30, …) with stages "Light" and "Deep" |
| StageLabels.StageLabelCanonical | app/src/main/java/com/example/myalarmapp/repository/HealthDataStoreRepository.kt:121 | the label of any enum name is canonical (no lower-case letter first, no upper-case letter after) and spells the name up to case |
| StageLabels.StageLabelUnique | app/src/main/java/com/example/myalarmapp/repository/HealthDataStoreRepository.kt:121 | any canonical string equal to a name up to case is that name's label |
| StageLabels.StageLabelIdempotent | app/src/main/java/com/example/myalarmapp/repository/HealthDataStoreRepository.kt:121 | labelling a label again changes nothing |
| StageLabels.StageLabelIgnoresCase | app/src/main/java/com/example/myalarmapp/repository/HealthDataStoreRepository.kt:121 | names equal up to case get the same label |
| StageLabels.StageLabelExamples | app/src/main/java/com/example/myalarmapp/repository/HealthDataStoreRepository.kt:121 | "DEEP" and "deep" both give "Deep"; LIGHT, AWAKE, REM give Light, Awake, Rem; "" stays "" |
| SleepQuery.DayWindow | app/src/main/java/com/example/myalarmapp/repository/HealthDataStoreRepository.kt:56-57 | the window spans exactly 86400 seconds and starts on the requested day |
| SleepQuery.DayWindowContains | app/src/main/java/com/example/myalarmapp/repository/HealthDataStoreRepository.kt:56-57 | a moment lies in the day's window if and only if it falls on that day |
| SleepQuery.DayWindowsAbut | app/src/main/java/com/example/myalarmapp/repository/HealthDataStoreRepository.kt:56-57 | a day's window ends where the next day's begins |
| SleepQuery.DeviceTypeOf | app/src/main/java/com/example/myalarmapp/repository/HealthDataStoreRepository.kt:58-62 | only ALL_DEVICES yields no device-group token |
| SleepQuery.DeviceTypeOfInjective | app/src/main/java/com/example/myalarmapp/repository/HealthDataStoreRepository.kt:58-62 | different device filters never yield the same token |
| SleepQuery.SleepReadRequest | app/src/main/java/com/example/myalarmapp/repository/HealthDataStoreRepository.kt:56-70 | the request readSleep issues reads sleep data over the day's window; it has no source filter iff the filter is ALL_DEVICES; WATCH and RING give a source filter with no package and exactly DeviceGroup.WATCH or DeviceGroup.RING |
| SleepQuery.PrepareReadSleepRequest | app/src/main/java/com/example/myalarmapp/repository/HealthDataStoreRepository.kt:152-161 | the request reads sleep data over the given window, and its source filter is exactly the one given (none when none is given) |
| SleepPermissions.PreparePermissionSet | app/src/main/java/com/example/myalarmapp/repository/HealthDataStoreRepository.kt:135-142 | the required set is exactly {sleep/read}: it contains it, holds only sleep/read permissions and has one element |
| SleepPermissions.RequestSleepPermissions | app/src/main/java/com/example/myalarmapp/repository/HealthDataStoreRepository.kt:33-52 | a throwing first query propagates; already granted gives true with no prompt; otherwise it prompts, and the answer is whether the flow's granted set holds sleep/read; a HealthDataException is re-thrown; any other throwable gives false (granted set unchanged); true only when the platform reported the permission granted |
| SleepRepository.ReadSleep | app/src/main/java/com/example/myalarmapp/repository/HealthDataStoreRepository.kt:54-80 | the platform is read with SleepQuery.SleepReadRequest(day, device); a failed read is re-thrown unchanged; a successful one gives one SleepData per record, mapped by prepareSleepResult, in the platform's order; the final empty-list return is proved unreachable |

## Left out

- The Samsung Health SDK itself is not part of this model. This covers `HealthDataService.getStore`, the real `getGrantedPermissions`, `requestPermissions` and `readData`, and the request builder's internals. They appear as function parameters and plain datatypes. `LocalTimeFilter.of` and `ReadSourceFilter.of` are taken to store their arguments. The request builder's setters (`setLocalTimeFilter`, `setSourceFilter`) are taken to update the builder in place, because the source discards what `setSourceFilter` returns.
- The `Activity` passed to the grant flow is left out, since it only hosts the UI. Also left out: the lazily created store handle, coroutine suspension and cancellation, and `printStackTrace` logging.
- A failure of `getStore` when the handle is first used is not modelled.
- Time zones and calendars are left out. A `LocalDate` is an epoch-day number. A local day is always 86400 seconds, which holds for `LocalDateTime` because it has no zone.
- Durations are non-negative whole seconds. Nanoseconds never change `toHours` or `toMinutes` of a non-negative duration. Negative durations are not modelled.
- Stage enum constants are represented by their names, because the SDK's enum is not visible. Letter case is mapped for ASCII letters only. Kotlin's full Unicode `lowercase` and `uppercaseChar` are not modelled.
- SleepQuery.DeviceTypeOf: its own contract only says which filter gives no token. The exact WATCH and RING tokens are stated on SleepQuery.SleepReadRequest, the request actually issued.
- The Compose UI, the preferences DataStore, the alarm broadcast receiver, the alarm entity and the Room database stub have no logic on the sleep path. They are not part of this model.
