# Balance (FocusPosture): a verified model of the measurement core

Balance listens to the head motion reported by AirPods, turns every motion
sample into a focus score, plots a live chart while a session runs and, when
the user finishes, stores the session and shows how many minutes of it were
focused. This project models that core in Dafny and proves what it promises:

- `optional.dfy` — `Optional.Option`.
- `motion.dfy` — `Motion`: the parts of a `CMDeviceMotion` sample the core
  reads (timestamp, user acceleration, gravity, rotation rate, attitude) and
  the absolute sums the scores are made of.
- `session_metrics.dfy` — `SessionMetrics`: `FocusSessionData` from
  `Balance/SwiftData/Repository.swift`. A session is a value. The module covers
  its stored scores, the per-entry focus test (`score * 100 < threshold`), the
  adaptive sliding window of `focusScoresForGraph` (a method with the app's
  running sum, proved equal to the reference curve `FocusCurve`),
  `focusRatio`, `totalFocusTime`, the three initialisers and the `Codable`
  round trip.
- `sensor_measurement.dfy` — `SensorMeasurement`: the live pipeline
  `SensorMeasurementManager`. It is a class with the fields of the Swift
  `SensorMeasurementManager`. Its invariant ties the score log, the time base, the elapsed times and
  the chart trace to a replay of the samples registered since the last reset.
  That replay is `Replay`, a fold of `Register`. The live chart is the trace
  filtered to the trailing ten seconds. It always ends with the newest point,
  and when the timestamps are non-decreasing it is a suffix of the trace.
- `legacy_measurement.dfy` — `LegacyMeasurement`: the older screen's
  `MeasurementViewController` and `SettingInfo` from `Balance/ContentView.swift`.
  Sensor readings are recorded according to the switches. The plotted value is
  chosen by a fixed priority. The chart buffer holds at most 100 points and
  always equals the most recent points made. The time base and the elapsed
  times always follow the timestamps registered since the last reset, exactly
  as in the newer manager.
- `legacy_csv.dfy` — `LegacyCsv`: the CSV text that controller writes. It is
  the header, then one row per sample built with `zip2Array`. Every data row has
  exactly as many fields as the header, provided the number formatter emits no
  commas.
- `measurement_view.dfy` — `MeasurementView`: `FocusState`'s five bands, the
  alert edge detector of the `onChange` handler, `saveToDB` and the finish
  button.

Modelling conventions:

- `Double` is `real`.
- A session's `UUID` is a `nat` supplied by the caller.
- The clock is a parameter `now`.
- Turning a `Double` into text is a parameter `format: real -> string`.
- The `DispatchQueue.main.async` blocks are taken to run at once and in order.
- The device-motion subscription is a boolean field `receivingUpdates`. The
  handler does nothing while it is unset.
- The displayed score that drives `FocusState` and the alert is an input.

`threshold` is not defined in the modelled files; the model fixes it at 50.0
(`SessionMetrics.Threshold`).

In three places the model follows the code as written:

- The time base `nowTime` is the first nonzero timestamp, not simply the first
  one, because the code tests `nowTime == 0.0`.
- The smoothed curve is empty whenever the window is not smaller than the
  number of entries. For a session of one entry, the code computes the seed
  value and then discards it.
- Decoding a stored session does not restore its scores. See Findings.

In the legacy controller, `resetMeasureStatus` does not clear `rawTime`. After
a second measurement, the CSV's first column still starts with the first
measurement's raw timestamps. The model keeps this as written:
`StartCalc` ensures `rawTime == old(rawTime)`.

## Model

| member | source | states |
|---|---|---|
| Motion.Abs | Balance/ViewModel/SensorMeasurementManager.swift:75-76 | `abs` is non-negative and is either the argument or its negation |
| Motion.AbsSum | Balance/ViewModel/SensorMeasurementManager.swift:75-76 | the sum of a vector's absolute components is non-negative, and zero exactly for the zero vector |
| SessionMetrics.Indicators | Balance/SwiftData/Repository.swift:43 | entry i is 1.0 when entry i is focused (`score * 100 < 50`) and 0.0 otherwise, same length |
| SessionMetrics.FocusedCountBounds | Balance/SwiftData/Repository.swift:43 | the focused count is at most the length; it is 0 iff no entry is focused and equals the length iff every entry is |
| SessionMetrics.FocusedCountAppend | Balance/SwiftData/Repository.swift:43 | appending an entry raises the focused count by one exactly when that entry is focused |
| SessionMetrics.SumIndicators | Balance/SwiftData/Repository.swift:43-70 | the sum of the 1.0/0.0 indicators is the number of focused entries, the rule shared by the curve and the ratio |
| SessionMetrics.SlideWindow | Balance/SwiftData/Repository.swift:61 | sliding a window by one adds the entering indicator and subtracts the leaving one |
| SessionMetrics.SlideShare | Balance/SwiftData/Repository.swift:61-62 | the running-sum update yields the focused count of the next window, and its share is that window's curve value |
| SessionMetrics.WindowSize | Balance/SwiftData/Repository.swift:45-51 | the window is between 1 and 100, and reaches the entry count only for sessions of at most one entry |
| SessionMetrics.FocusScoresForGraph | Balance/SwiftData/Repository.swift:42-65 | the seed, the guard and the running-sum loop compute exactly the reference curve `FocusCurve` |
| SessionMetrics.FocusCurveLength | Balance/SwiftData/Repository.swift:45-63 | the curve is empty for at most one entry, otherwise it has `count - w + 1` values |
| SessionMetrics.FocusCurveInUnitInterval | Balance/SwiftData/Repository.swift:55-62 | every curve value lies in [0, 1] |
| SessionMetrics.FocusCurveUnfocused | Balance/SwiftData/Repository.swift:43-62 | a session without focused entries has an all-zero curve |
| SessionMetrics.FocusCurveShortSession | Balance/SwiftData/Repository.swift:45-62 | for 2 to 10 entries the window is 1, so the curve is the indicator sequence itself and sums to ratio times count |
| SessionMetrics.FocusCurveSingleEntry | Balance/SwiftData/Repository.swift:55-59 | a one-entry session has an empty curve: the seed value is computed and then discarded by the guard |
| SessionMetrics.FocusCurveUniformUnfocused | Balance/SwiftData/Repository.swift:45-75 | 11 to 100 equal unfocused entries use a window of 10, give `n - 9` curve values that are all 0, and a ratio of 0 |
| SessionMetrics.FocusRatio | Balance/SwiftData/Repository.swift:68-75 | the ratio lies in [0, 1], is 0 for an empty session (the NaN guard), and otherwise times the count equals the focused count |
| SessionMetrics.WithScores | Balance/SwiftData/Repository.swift:33-36 | the setter stores the given scores and leaves identifier and dates alone, so the getter returns them |
| SessionMetrics.Scores | Balance/SwiftData/Repository.swift:33-34 | the getter yields the decoded list, and `[]` when the stored text does not decode |
| SessionMetrics.NewSession | Balance/SwiftData/Repository.swift:113-118 | `init(startDate:endDate:scores:)` keeps the given identifier, dates and scores |
| SessionMetrics.TestSession | Balance/SwiftData/Repository.swift:121-126 | `init()` starts and ends at `now` and always holds the scores [1.0, 2.0] |
| SessionMetrics.EncodeSession | Balance/SwiftData/Repository.swift:97-103 | `encode(to:)` writes the identifier, both dates and the decoded scores |
| SessionMetrics.DecodeSession | Balance/SwiftData/Repository.swift:105-111 | `init(from:)` as written restores identifier and dates but always stores [1.0, 2.0] |
| SessionMetrics.CodableRoundTrip | Balance/SwiftData/Repository.swift:97-111 | the round trip as written replaces the scores by [1.0, 2.0], so every session with other scores loses them |
| SessionMetrics.DecodeSessionWithScores | Balance/SwiftData/Repository.swift:105-111 | the corrected decoder also restores the encoded scores |
| SessionMetrics.CodableRoundTripWithScores | Balance/SwiftData/Repository.swift:97-111 | with the corrected decoder the scores survive the round trip, a readable session survives whole, and decoding then encoding is the identity |
| SessionMetrics.TotalFocusTime | Balance/SwiftData/Repository.swift:78-87 | 0 minutes below 60 s; otherwise a whole number of minutes between 0 and the session's whole minutes |
| SessionMetrics.TotalFocusTimeAllFocused | Balance/SwiftData/Repository.swift:78-87 | a session of at least a minute with every entry focused earns all of its whole minutes |
| SessionMetrics.TotalFocusTimeNoneFocused | Balance/SwiftData/Repository.swift:68-87 | a session without a focused entry earns 0 minutes however long it ran |
| SensorMeasurement.FocusScore | Balance/ViewModel/SensorMeasurementManager.swift:74-81 | a sample's score is non-negative and zero exactly for a sample with no acceleration and no rotation |
| SensorMeasurement.GraphValue | Balance/ViewModel/SensorMeasurementManager.swift:87-90 | the plotted value lies between 0 and the score, and is zero exactly when the score is |
| SensorMeasurement.ElapsedTimes | Balance/ViewModel/SensorMeasurementManager.swift:103-108 | one elapsed time per timestamp |
| SensorMeasurement.TimeBaseAllZero | Balance/ViewModel/SensorMeasurementManager.swift:104-106 | while every timestamp is 0 the time base stays 0 |
| SensorMeasurement.TimeBaseFirstNonzero | Balance/ViewModel/SensorMeasurementManager.swift:104-106 | the time base is the first nonzero timestamp |
| SensorMeasurement.TimeBaseZero | Balance/ViewModel/SensorMeasurementManager.swift:104-106 | the time base is 0 exactly when every timestamp is 0 |
| SensorMeasurement.ElapsedTimesAppend | Balance/ViewModel/SensorMeasurementManager.swift:103-108 | a new timestamp fixes the time base if it is still 0 and appends its offset from the base, leaving earlier entries unchanged |
| SensorMeasurement.FirstElapsedIsZero | Balance/ViewModel/SensorMeasurementManager.swift:68-108 | the first elapsed time is 0 |
| SensorMeasurement.ElapsedFromFirst | Balance/ViewModel/SensorMeasurementManager.swift:103-108 | when the first timestamp is nonzero, elapsed time i is `t_i - t_0` |
| SensorMeasurement.ElapsedNonDecreasing | Balance/ViewModel/SensorMeasurementManager.swift:103-108 | non-decreasing timestamps give non-decreasing elapsed times, leading zero timestamps included |
| SensorMeasurement.PointsSince | Balance/ViewModel/SensorMeasurementManager.swift:97-99 | the filter never adds points |
| SensorMeasurement.PointsSinceMembers | Balance/ViewModel/SensorMeasurementManager.swift:97-99 | a point is kept iff it is in the trace and no older than the cutoff |
| SensorMeasurement.PointsSinceKeepsLast | Balance/ViewModel/SensorMeasurementManager.swift:97-99 | when the newest point is within the window, the filtered list is non-empty and ends with it |
| SensorMeasurement.PointsSinceAll | Balance/ViewModel/SensorMeasurementManager.swift:97-99 | when every point is within the window, the filter keeps the whole trace |
| SensorMeasurement.FirstSince | Balance/ViewModel/SensorMeasurementManager.swift:97-99 | the index of the first point within the window: all points before it are older |
| SensorMeasurement.PointsSinceSuffix | Balance/ViewModel/SensorMeasurementManager.swift:97-99 | on a trace in time order, the filtered list is the contiguous suffix from the first point within the window |
| SensorMeasurement.FocusLog | Balance/ViewModel/SensorMeasurementManager.swift:74-81 | one score entry per sample |
| SensorMeasurement.RegisterAppends | Balance/ViewModel/SensorMeasurementManager.swift:68-108 | one `registData` step fixes the time base at the first nonzero timestamp and otherwise keeps it, and appends exactly one score, one elapsed time (the timestamp less the base) and one chart point at that time, keeping all earlier entries |
| SensorMeasurement.ReplayAppend | Balance/ViewModel/SensorMeasurementManager.swift:68-72 | replaying one more sample is one `registData` step on the replayed logs |
| SensorMeasurement.LogsAgreeAppend | Balance/ViewModel/SensorMeasurementManager.swift:68-108 | one `registData` step keeps the logs in agreement with the samples: one score, one elapsed time and one chart point per sample |
| SensorMeasurement.ReplayAgrees | Balance/ViewModel/SensorMeasurementManager.swift:68-108 | the replayed logs hold each sample's score, its elapsed time against the time base and its chart point at that time |
| SensorMeasurement.ReplayOrderedTrace | Balance/ViewModel/SensorMeasurementManager.swift:85-95 | samples in time order give a chart trace in time order |
| SensorMeasurement.LiveWindowIsSuffix | Balance/ViewModel/SensorMeasurementManager.swift:85-99 | for samples in time order, the live chart is a contiguous suffix of the trace |
| SensorMeasurement.SensorMeasurementManager.constructor | Balance/ViewModel/SensorMeasurementManager.swift:12-23 | the manager starts with empty logs, zero offsets, no start time and no subscription |
| SensorMeasurement.SensorMeasurementManager.StartCalc | Balance/ViewModel/SensorMeasurementManager.swift:36-41 | clears scores, trace, elapsed times and time base, keeps the chart on screen, records the start time, and starts only when motion is available |
| SensorMeasurement.SensorMeasurementManager.ResetMeasureStatus | Balance/ViewModel/SensorMeasurementManager.swift:43-49 | clears the start time, the logs and the time base |
| SensorMeasurement.SensorMeasurementManager.StartGettingData | Balance/ViewModel/SensorMeasurementManager.swift:51-66 | without device motion the measurement is marked as stopped and no handler is installed |
| SensorMeasurement.SensorMeasurementManager.OnMotionUpdate | Balance/ViewModel/SensorMeasurementManager.swift:58-65 | an error, a missing sample or no subscription changes nothing; otherwise the sample joins the replayed samples, the live chart is the trace's trailing 10 s, and the subscription, start flag, start time and the three offsets stay |
| SensorMeasurement.SensorMeasurementManager.RegistData | Balance/ViewModel/SensorMeasurementManager.swift:68-72 | appends one score, one elapsed time and one chart point, keeps every earlier entry, refilters the live chart to the trailing 10 s ending with the new point, and keeps the replay invariant |
| SensorMeasurement.SensorMeasurementManager.CalculateFocusData | Balance/ViewModel/SensorMeasurementManager.swift:74-81 | appends the sample's score and attitude |
| SensorMeasurement.SensorMeasurementManager.UpdateGraphDataPoints | Balance/ViewModel/SensorMeasurementManager.swift:84-101 | appends the point at the elapsed time with value `accel + 0.3 * rotation`, and sets the chart to the trace's trailing 10 s |
| SensorMeasurement.SensorMeasurementManager.UpdateTime | Balance/ViewModel/SensorMeasurementManager.swift:103-108 | fixes the time base at the first nonzero timestamp and appends the elapsed time |
| SensorMeasurement.SensorMeasurementManager.StopCalc | Balance/ViewModel/SensorMeasurementManager.swift:111-118 | unsubscribes, shows the whole trace, marks the measurement stopped and keeps the logs |
| SensorMeasurement.SensorMeasurementManager.ResetOrientation | Balance/ViewModel/SensorMeasurementManager.swift:121-128 | without points it changes nothing; otherwise the offsets take the last point's angles, and the displayed roll, pitch and yaw (as `EmojiRotationView` derives them) read 0 |
| SensorMeasurement.SensorMeasurementManager.DisplayedRoll | Balance/View/EmojiRotationView.swift:21-27 | 0 without chart points; otherwise the angle plus the roll offset is the last point's roll |
| SensorMeasurement.SensorMeasurementManager.DisplayedPitch | Balance/View/EmojiRotationView.swift:29-35 | 0 without chart points; otherwise the angle plus the pitch offset is the last point's pitch |
| SensorMeasurement.SensorMeasurementManager.DisplayedYaw | Balance/View/EmojiRotationView.swift:37-43 | 0 without chart points; otherwise the angle plus the yaw offset is the last point's yaw |
| LegacyCsv.SensorData.Append | Balance/ContentView.swift:248-269 | adding a reading to all three axes keeps the axes of equal length |
| LegacyCsv.Texts | Balance/ContentView.swift:400-401 | each number is formatted in place, same length |
| LegacyCsv.Zip2 | Balance/ContentView.swift:399-402 | `zip2Array` yields `min(len1, len2)` rows, row i being `a[i] + ", " + b[i]` |
| LegacyCsv.ZipSensorData | Balance/ContentView.swift:393-397 | one `"x, y, z"` row per reading |
| LegacyCsv.EnabledGroups | Balance/ContentView.swift:373-388 | one written sensor per switch that is on |
| LegacyCsv.AddGroup | Balance/ContentView.swift:373-388 | a sensor is added exactly when its switch is on |
| LegacyCsv.CsvHeaderColumns | Balance/ContentView.swift:370-386 | the header opens with the time columns; it is only those with every switch off, and with every switch on the groups follow in the order acceleration, gravity, rotation, attitude |
| LegacyCsv.RowLimit | Balance/ContentView.swift:371-387 | the number of data rows is the shortest of the time columns and of every written sensor |
| LegacyCsv.CsvRows | Balance/ContentView.swift:369-390 | the data rows number as many as the shortest zipped column |
| LegacyCsv.OccurrencesAppend | Balance/ContentView.swift:390 | counts of a character add up over concatenation |
| LegacyCsv.Absent | Balance/ContentView.swift:370-386 | a string without the character contains it zero times |
| LegacyCsv.JoinedThree | Balance/ContentView.swift:393-402 | three comma-free fields joined by `", "` hold two commas |
| LegacyCsv.LedThree | Balance/ContentView.swift:374-386 | a column group `", a, b, c"` of comma-free names holds three commas |
| LegacyCsv.PairCommas | Balance/ContentView.swift:370 | a pair `"a, b"` of comma-free names holds one comma |
| LegacyCsv.ZipGroupStep | Balance/ContentView.swift:373-388 | zipping the rows with one more sensor's rows gives the rows with that sensor written |
| LegacyCsv.TimeRows | Balance/ContentView.swift:371 | the first zip of raw and elapsed times gives the rows with no sensor written |
| LegacyCsv.JoinLinesBreaks | Balance/ContentView.swift:390 | joining n single-line rows adds n - 1 line breaks |
| LegacyCsv.CsvRowCommas | Balance/ContentView.swift:371-388 | a data row has 1 + 3 per written sensor commas when the formatter emits none |
| LegacyCsv.ColumnLiteralsCommas | Balance/ContentView.swift:370-386 | the time column pair holds one comma and each sensor column group literal three |
| LegacyCsv.AddColumnsCommas | Balance/ContentView.swift:373-388 | adding a column group adds its commas exactly when the switch is on |
| LegacyCsv.HeaderCommas | Balance/ContentView.swift:370-388 | the header has 1 + 3 per enabled sensor commas |
| LegacyCsv.CsvColumnsAgree | Balance/ContentView.swift:369-390 | every data row has exactly as many fields as the header |
| LegacyCsv.FullRecordingRows | Balance/ContentView.swift:371-388 | when every written column holds n readings, the CSV has n data rows |
| LegacyMeasurement.SettingInfo.constructor | Balance/ContentView.swift:405-414 | all four sensor switches start on |
| LegacyMeasurement.SettingInfo.Toggle | Balance/ContentView.swift:436 | toggling flips exactly one switch and leaves the others |
| LegacyMeasurement.FirstEnabled | Balance/ContentView.swift:273-281 | the first switched-on sensor in priority order, or none iff none is on |
| LegacyMeasurement.GraphValue | Balance/ContentView.swift:271-283 | the plotted value is non-negative unless acceleration, rotation rate and gravity are all switched off |
| LegacyMeasurement.GraphValueFollowsPriority | Balance/ContentView.swift:271-283 | the plotted value is the first enabled sensor's value in the order acceleration, rotation, gravity, else roll + 0.3 |
| LegacyMeasurement.GraphValueOnlyLeadingSensor | Balance/ContentView.swift:271-283 | switches below the first enabled sensor do not change the plotted value |
| LegacyMeasurement.Recent | Balance/ContentView.swift:302-309 | the chart buffer never holds more than 100 points |
| LegacyMeasurement.RecentIsSuffix | Balance/ContentView.swift:302-309 | the buffer holds the last min(100, n) points of the n made, in arrival order |
| LegacyMeasurement.RecentAppend | Balance/ContentView.swift:302-309 | appending and then dropping the oldest over 100 keeps exactly the most recent points |
| LegacyMeasurement.PushBuffer | Balance/ContentView.swift:302-309 | a push ends with the new point and never takes the buffer past 100 points: below 100 it appends, at 100 it also drops the oldest |
| LegacyMeasurement.Recorded | Balance/ContentView.swift:248-269 | recording a sensor that is on, or leaving one that is off, keeps its three axes of equal length |
| LegacyMeasurement.TimeAgreesReplay | Balance/ContentView.swift:312-318 | the legacy time fields follow the samples' timestamps exactly when they are the time base and elapsed times the newer manager's `registData` keeps for the same samples |
| LegacyMeasurement.MeasurementViewController.constructor | Balance/ContentView.swift:169-189 | the controller starts empty, waiting for a measurement, with no alert shown |
| LegacyMeasurement.MeasurementViewController.StartCalc | Balance/ContentView.swift:202-206 | resets the alerts, graph values, buffer, time base, elapsed times and sensors, and keeps `rawTime` and `stopSave`; with device motion it starts measuring, otherwise it shows the AirPods alert |
| LegacyMeasurement.MeasurementViewController.ResetMeasureStatus | Balance/ContentView.swift:208-219 | clears alerts, graph values, the buffer, the time base, elapsed times and all four sensors, and not `rawTime` |
| LegacyMeasurement.MeasurementViewController.StartGettingData | Balance/ContentView.swift:221-239 | without device motion the status says so, the alert shows and the measurement is marked as stopped |
| LegacyMeasurement.MeasurementViewController.OnMotionUpdate | Balance/ContentView.swift:231-238 | an error, a missing sample or no subscription changes nothing; otherwise the sample is registered with the same new state as `RegistData` (timestamps, time base, raw and elapsed times, graph values, points, buffer end and the four sensors), and subscription, status, start flag, stop-and-save flag and both alerts stay |
| LegacyMeasurement.MeasurementViewController.RegistData | Balance/ContentView.swift:241-246 | records the enabled sensors, appends the raw and elapsed time, and appends the same plotted value to the value log and the buffer, which ends with the new point and stays the most recent points; the time fields keep following the registered timestamps |
| LegacyMeasurement.MeasurementViewController.UpdateSensorData | Balance/ContentView.swift:248-269 | each enabled sensor gains one reading on all three axes (attitude as pitch, roll, yaw); disabled sensors are unchanged |
| LegacyMeasurement.MeasurementViewController.UpdateGraphValue | Balance/ContentView.swift:271-283 | appends the priority-rule value |
| LegacyMeasurement.MeasurementViewController.UpdateGraphDataPoints | Balance/ContentView.swift:286-310 | pushes the point at the elapsed time with the priority-rule value onto the capped buffer |
| LegacyMeasurement.MeasurementViewController.UpdateTime | Balance/ContentView.swift:312-318 | fixes the time base at the first nonzero timestamp and appends the raw and the elapsed time, so time fields that followed the earlier timestamps follow them with the new one |
| LegacyMeasurement.MeasurementViewController.StopCalc | Balance/ContentView.swift:326-338 | unsubscribes; before any nonzero timestamp it shows the alert and waits, otherwise it ends the measurement and offers saving |
| LegacyMeasurement.MeasurementViewController.CreateCsv | Balance/ContentView.swift:369-391 | the text is the header, a line break and the data rows joined by line breaks, with column groups in the order acceleration, gravity, rotation, attitude |
| MeasurementView.FocusStateOf | Balance/View/MeasurementView.swift:64-76 | below 20 is state20, [20, 40) state40, [40, 60) state60, [60, 80) state80, 80 and above state100 |
| MeasurementView.FocusStateMonotone | Balance/View/MeasurementView.swift:64-76 | a higher score never yields a lower state |
| MeasurementView.FocusStateBand | Balance/View/MeasurementView.swift:64-76 | a state of rank r covers exactly the scores in [20 r, 20 r + 20), open-ended at both extremes |
| MeasurementView.AlertTrace | Balance/View/MeasurementView.swift:168-177 | one alert decision per score change |
| MeasurementView.AlertTraceAt | Balance/View/MeasurementView.swift:168-177 | change k alerts iff its score is below 20 and the previous one (or the starting state) was not in state20 |
| MeasurementView.AlertOncePerRun | Balance/View/MeasurementView.swift:169-176 | a run of scores all below 20 alerts at most once, on its first change, and only if it did not start in state20 |
| MeasurementView.ScoreValues | Balance/View/MeasurementView.swift:182 | the session's scores are the log's `.score` values, same order and length |
| MeasurementView.MeasurementScreen.constructor | Balance/View/MeasurementView.swift:81-86 | the screen starts measuring with no minutes and no previous state |
| MeasurementView.MeasurementScreen.ShowsFocusMinutes | Balance/View/MeasurementView.swift:111-116 | the focus-minutes line shows iff measuring has ended and at least one minute was earned |
| MeasurementView.MeasurementScreen.OnAppear | Balance/View/MeasurementView.swift:165-167 | appearing starts the measurement at `now`: empty logs and time base, start flag iff motion is available, chart and offsets kept |
| MeasurementView.MeasurementScreen.OnDisplayScoreChange | Balance/View/MeasurementView.swift:168-177 | the alert plays iff the new score is below 20 and the previous state was not state20 (including none); the new state becomes the previous one |
| MeasurementView.MeasurementScreen.SaveToDB | Balance/View/MeasurementView.swift:181-189 | the saved session holds the log's scores, runs from the start time (or `now`) to `now`, and its focus time becomes the minutes shown |
| MeasurementView.MeasurementScreen.Finish | Balance/View/MeasurementView.swift:136-141 | stops the measurement with samples, logs, time base, start time and offsets kept, saves the session and ends measuring, so the minutes show iff the saved session has a focused minute |
| MeasurementView.NoMinutesShown | Balance/View/MeasurementView.swift:111-116 | minutes from a session shorter than a minute, or from one without a focused entry, never show the focus-minutes line |

## Left out

- Persistence: `FocusSessionDataRepository` (SwiftData, `ModelContainer`, `Calendar`) is not part of this model. `saveToDB`'s asynchronous `save` is reduced to returning the session it would store.
- The JSON text of `scoresJSON` is a decoded sequence or `Unreadable`. The encoder and decoder themselves are not modelled.
- The producer of `displayScore` is not in the modelled files. The displayed score is an input to `FocusStateOf` and `OnDisplayScoreChange`.
- Audio playback (`AudioManager`) is reduced to the decision whether the alert plays. The finish sound is not modelled.
- User interface: colours, icons, explanations, charts, Lottie, `SettingView`'s layout, the legacy `timeCounter` text and `status` strings (an enumeration here).
- File output: the CSV file write, `NSHomeDirectory`, `DateFormatter` file names, and `save`/`saveFile`.
- CoreMotion plumbing: delegate registration, `OperationQueue` and the `DispatchQueue.main.async` hops. Deliveries are ordered method calls, and the queued blocks run at once.
- Floating point: `Double` is `real`. NaN and infinity appear only as the empty-session guard of `focusRatio`. `Int(...)` of a non-negative value is `Floor`.
- SessionMetrics.TestSession: `init()` reads `Date.now` twice (Balance/SwiftData/Repository.swift:123-124); the model uses one `now`.
- MeasurementView.MeasurementScreen.SaveToDB: `startedTime ?? .now` and `Date.now` are one clock reading `now`, not two successive ones.
- Fixture generators (`Repository+DummyData.swift`, `FakeFocusSessionDataRepository.swift`): random and trigonometric data, outside the core.
- UUIDs are a caller-supplied `nat`.

## Findings

| source | as written | input that shows it | evidently intended | confidence | as-written member | corrected member |
|---|---|---|---|---|---|---|
| Balance/SwiftData/Repository.swift:105-111 | `init(from:)` decodes identifier and dates but stores the constant scores [1.0, 2.0], ignoring the `scores` key that `encode(to:)` writes at line 102 | a session with scores [0.3] is encoded and decoded back as one with scores [1.0, 2.0] | decode the `scores` key, so that decoding an encoded session restores its scores | not executed | SessionMetrics.CodableRoundTrip | SessionMetrics.CodableRoundTripWithScores |
