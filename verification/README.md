# Sensor suite logging core, modelled in Dafny

This project models the sequential logic inside a Unity sensor-logging app for a
mixed-reality headset. Three pieces are covered:

- **The buffered CSV writer.** It covers the recording state machine, RFC 4180
  field quoting, the line buffer and its three flush triggers, the subject id
  and the file name.
- **The sensor suite.** It covers the 60 + N column header and the four row
  builders that fill it. It also covers the snapshot of every sensor taken per
  row, and the start/stop state machine with its task gating. The remaining
  pieces are one iteration of each periodic task, the event loggers, the audio
  tag threshold, audio segment naming and the RIFF/WAVE byte layout of saved
  audio.
- **The main-thread dispatcher's action queue.**

Every state is an immutable record and every operation a pure function of it. The
exception is the dispatcher's `Update`, which is also written as a loop. Time is
an explicit `now` parameter. Numeric text (`ToString("F4")`, `"F2"`, integer
`ToString()`) and quaternion-to-Euler conversion are opaque function values in a
`Format` record. What a device reports at an instant is a `Readings` value.

Modules:

| file | module | models |
|---|---|---|
| wrappers.dfy | `Wrappers` | `Option` |
| csv_field.dfy | `CsvField` | field quoting, comma join, and an RFC 4180-style record reader to state round trips against |
| csv_writer.dfy | `CsvWriter` | `CSVWriter`: writer state, writes, flushing, start/stop, subject id, file name |
| decimal.dfy | `Decimal` | the `{n:D4}` zero-padded counter and reading it back |
| wav.dfy | `Wav` | the bytes `SaveAudioClipAsWAV` writes, and a decoder to state the round trip against |
| sensor_rows.dfy | `SensorRows` | header, sensor snapshot, row builders |
| sensor_suite.dfy | `SensorSuite` | collection state machine, task gating, task iterations, event logging, audio segments |
| dispatcher.dfy | `Dispatcher` | `MainThreadDispatcher`: `Enqueue` and the draining `Update` |

Facts about the code that a reader of the rows may not expect:

- **Fixed columns.** The code declares 60 fixed columns; the list ends with seven
  gaze-pose columns.
- **Missing vectors.** An unavailable accelerometer, gyroscope, linear
  accelerometer, attitude sensor or camera leaves the snapshot's vector at zero.
  Its columns then hold the formatted zero. Only a missing lux reading becomes
  "N/A".
- **No subject row.** No `SUBJECT_ID` row is ever written; see Findings.
- **`LUX_READING` overwrite.** The code writes the event's value a second time,
  over the `LuxValue` column, and the model does the same.

## Model

| member | source | states |
|---|---|---|
| CsvField.Escape | Assets/Scripts/CSVWriter.cs:119-122 | a field holding a comma, a double quote or a line feed is wrapped in quotes with every inner quote doubled; any other field is unchanged |
| CsvField.Render | Assets/Scripts/CSVWriter.cs:117-124 | a null entry renders as the empty field, any other as its escaped text |
| CsvField.ParseQuotedDoubled | Assets/Scripts/CSVWriter.cs:121 | a field body with its quotes doubled and a closing quote reads back, under the RFC 4180-style reader, as the original field |
| CsvField.FieldRoundTrip | Assets/Scripts/CSVWriter.cs:117-123 | an escaped field followed by a comma or the end of the line reads back as exactly the original field |
| CsvField.FieldAloneRoundTrip | Assets/Scripts/CSVWriter.cs:117-124 | a one-field line reads back as that field |
| CsvField.RecordRoundTrip | Assets/Scripts/CSVWriter.cs:117-124 | the comma-joined line of escaped cells reads back as the cell values, null as empty |
| CsvWriter.Initial | Assets/Scripts/CSVWriter.cs:41-46 | a fresh writer is idle, with no stream, an empty buffer and a zero count |
| CsvWriter.FlushBuffer | Assets/Scripts/CSVWriter.cs:157-171 | no-op without a stream or with an empty buffer; otherwise the open file gains exactly the buffer, the buffer empties and the flush time becomes `now`; other files are untouched and file-plus-buffer is preserved |
| CsvWriter.WriteLineInternal | Assets/Scripts/CSVWriter.cs:136-156 | the line and a terminator are appended to file-plus-buffer and the count grows by one; the file grows exactly when the count is a multiple of `flushInterval`, the buffer exceeds `bufferSize`, or more than `autoFlushTime` has passed |
| CsvWriter.WriteHeader | Assets/Scripts/CSVWriter.cs:100-109 | nothing changes while not recording; otherwise the unescaped comma-joined names become one more counted line |
| CsvWriter.WriteDataRow | Assets/Scripts/CSVWriter.cs:110-126 | nothing changes while not recording; otherwise the escaped, joined row becomes one more counted line |
| CsvWriter.WriteLine | Assets/Scripts/CSVWriter.cs:127-135 | nothing changes while not recording; otherwise the line is appended as is and counted |
| CsvWriter.Tick | Assets/Scripts/CSVWriter.cs:225-234 | the per-frame update changes nothing unless recording with more than `autoFlushTime` elapsed, and then only flushes, keeping file-plus-buffer and the count |
| CsvWriter.StopRecording | Assets/Scripts/CSVWriter.cs:79-99 | no-op while idle; otherwise the file ends holding its content plus the buffer, the buffer is empty, the stream is released and recording is off; other files are untouched |
| CsvWriter.StopIdempotent | Assets/Scripts/CSVWriter.cs:79-99 | stopping twice is the same as stopping once |
| CsvWriter.GenerateSubjectId | Assets/Scripts/CSVWriter.cs:214-224 | a generated id is 6 characters, each from A-Z0-9 |
| CsvWriter.SubjectIdReachable | Assets/Scripts/CSVWriter.cs:214-224 | every 6-character string over A-Z0-9 is some draw's generated id |
| CsvWriter.ResolveSubjectId | Assets/Scripts/CSVWriter.cs:55 | a given non-empty id is used as is; otherwise the id is a generated one |
| CsvWriter.FileName | Assets/Scripts/CSVWriter.cs:176 | the name is `SensorData_`, the id, `_`, the 15-character timestamp and `.csv`, with the id and timestamp recoverable from their positions |
| CsvWriter.StartRecording | Assets/Scripts/CSVWriter.cs:47-78 | a running session is stopped first; the result is true exactly when the directory and the stream could be created; on success recording is on, the count is 0, the flush time is `now` and the named file is created empty (truncated); on failure the writer is idle and only the subject id changes |
| CsvWriter.OneOpKeepsLog | Assets/Scripts/CSVWriter.cs:100-171 | one write or frame tick keeps "file plus buffer equals every line written", extended by the line written |
| CsvWriter.RunKeepsLog | Assets/Scripts/CSVWriter.cs:100-171 | any sequence of writes and ticks keeps that invariant, extended by exactly the lines written, in order |
| CsvWriter.StartOpensEmptyLog | Assets/Scripts/CSVWriter.cs:47-78 | a successful start begins the invariant with no lines |
| CsvWriter.StopClosesLog | Assets/Scripts/CSVWriter.cs:79-99 | stopping a session leaves exactly its logged lines in its file |
| CsvWriter.SessionFileHoldsEveryLine | Assets/Scripts/CSVWriter.cs:47-171 | start, any writes and ticks, then stop: the session's file holds exactly the written lines in order, nothing left buffered |
| CsvWriter.ValidKept | Assets/Scripts/CSVWriter.cs:47-171 | every public operation keeps "a stream exactly while recording, and an empty buffer while idle" |
| Decimal.D4 | Assets/Scripts/SensorSuite.cs:646 | the counter's rendering is all digits, at least four long |
| Decimal.D4RoundTrip | Assets/Scripts/SensorSuite.cs:646 | reading the padded rendering gives the counter back |
| Decimal.D4Injective | Assets/Scripts/SensorSuite.cs:646 | distinct counters render differently |
| Wav.LEModValue | Assets/Scripts/SensorSuite.cs:741-752 | a 32-bit field reads back, little-endian, as its value modulo 2^32 and a 16-bit field as its value modulo 2^16, which is how the code's casts truncate |
| Wav.Encode | Assets/Scripts/SensorSuite.cs:737-757 | n samples give a file of 44 + 2n bytes |
| Wav.Layout | Assets/Scripts/SensorSuite.cs:740-756 | the bytes are "RIFF", LE32(36+2n), "WAVE", "fmt ", LE32(16), LE16(1), LE16(channels), LE32(rate), LE32(rate·channels·2), LE16(channels·2), LE16(16), "data", LE32(2n), then sample i at offset 44+2i |
| Wav.RoundTrip | Assets/Scripts/SensorSuite.cs:737-757 | decoding the written bytes as RIFF/WAVE PCM gives back the channels, the rate and every sample, whenever the sizes fit their fields |
| SensorRows.HeaderNames | Assets/Scripts/SensorSuite.cs:62-75 | the fixed header has 60 names; Event, Value, Eye, AccelX, LuxValue (= length − 12), AudioLevel, AudioRecording, GazePosX and GazeRotW sit at the positions the row builders fill |
| SensorRows.FullHeader | Assets/Scripts/SensorSuite.cs:301 | the header written is the 60 fixed names followed by one name per blend shape |
| SensorRows.LuxValue | Assets/Scripts/SensorSuite.cs:955-962 | −1 whenever the light sensor is unavailable, has no reading or is disabled; a value other than −1 only comes from an available, enabled sensor |
| SensorRows.FacialValues | Assets/Scripts/SensorSuite.cs:789-816 | exactly one value per blend shape: the weight when facial data is on, permitted, available and initialised and the shape is valid and tracked; "0" otherwise, including when the read throws |
| SensorRows.CollectAllSensorData | Assets/Scripts/SensorSuite.cs:759-818 | the snapshot carries the reading timestamp and the fixed study context (DefaultStudy, Medium, Default). The accelerometer, gyroscope, linear-acceleration and attitude readings appear exactly when that sensor is available and reporting, with zero otherwise. The camera position, rotation and forward appear when camera data is on and a camera exists, with zero otherwise. It also carries the lux value and the facial values, one per blend shape |
| SensorRows.ImuRowShowsReadings | Assets/Scripts/SensorSuite.cs:855-871 | an IMU row built from a snapshot shows the reading time, the accelerometer and gyroscope components (zero when unavailable), the lux text and the facial values in their header columns |
| SensorRows.RecordingText | Assets/Scripts/SensorSuite.cs:900 | the recording column shows the current segment name, or "N/A" between segments |
| SensorRows.SensorColumns | Assets/Scripts/SensorSuite.cs:872-912 | after the 21 motion/camera columns come lux (two decimals or "N/A"), the three audio columns, the recording column, seven "N/A" and the facial values |
| SensorRows.AddSensorDataToRow | Assets/Scripts/SensorSuite.cs:872-912 | the plain tail has "N/A" in the three audio columns |
| SensorRows.AddSensorDataToRowWithAudio | Assets/Scripts/SensorSuite.cs:913-954 | the audio tail carries level, peak and RMS in the audio columns |
| SensorRows.EyeColumns | Assets/Scripts/SensorSuite.cs:830-851 | the 21 eye columns: the eye, openness, eye-in-skull x and y, and the pupil diameter. With valid gaze metadata they hold the behaviour type, amplitude, direction, velocity, onset time and duration, and with invalid metadata "Invalid" and five "N/A". The static-data columns hold "N/A" exactly when the static data equals the struct's all-zero default, and the two maxima otherwise; the last eight are never-filled "N/A" |
| SensorRows.EyeRow | Assets/Scripts/SensorSuite.cs:819-854 | a gaze row is 60 + N wide, tagged PUPIL_DATA with an empty value, carries the eye columns at 6..26 and the shared tail from 27 on |
| SensorRows.ImuRow | Assets/Scripts/SensorSuite.cs:855-871 | an IMU row is 60 + N wide, tagged IMU_DATA with an empty value, "N/A" in 6..26 and the shared tail from 27 on |
| SensorRows.EventRow | Assets/Scripts/SensorSuite.cs:971-989 | an event row is 60 + N wide, carries the name at 4 and value at 5, "N/A" in 6..26; for LUX_READING the LuxValue column holds the value |
| SensorRows.AudioEventRow | Assets/Scripts/SensorSuite.cs:520-530 | an audio-event row is 60 + N wide, carries the tag at 4 and the peak at 5, "N/A" in 6..26 and level, peak, RMS in the audio columns |
| SensorRows.RowWidthMatchesHeader | Assets/Scripts/SensorSuite.cs:301 | every row kind built from a snapshot the suite took is exactly as wide as the header written |
| SensorRows.LuxReadingPlacement | Assets/Scripts/SensorSuite.cs:976-983 | a LUX_READING value lands in both Value and LuxValue, with columns 6..26 "N/A" |
| SensorSuite.RowReadsBack | Assets/Scripts/CSVWriter.cs:117-124 | the line a suite row becomes reads back as that row |
| SensorSuite.LogEvent | Assets/Scripts/SensorSuite.cs:967-992 | while not collecting nothing changes; otherwise exactly that event's row is appended, the count grows by one and nothing else changes |
| SensorSuite.LogAudioEvent | Assets/Scripts/SensorSuite.cs:517-533 | the same guard and counting, appending the audio-event row |
| SensorSuite.LoggedEventRow | Assets/Scripts/SensorSuite.cs:967-991 | a logged event's row is as wide as the header, names the event in Event and the value in Value, and reads back unchanged |
| SensorSuite.AudioTag | Assets/Scripts/SensorSuite.cs:503-510 | the tag is AUDIO_ACTIVITY exactly when the peak exceeds the single-precision 0.02, else AUDIO_LEVEL |
| SensorSuite.AudioTagThreshold | Assets/Scripts/SensorSuite.cs:52 | a peak equal to the threshold is AUDIO_LEVEL, the threshold lies just below 0.02, and the tag is monotone in the peak |
| SensorSuite.AudioFrame | Assets/Scripts/SensorSuite.cs:477-516 | nothing without a buffer clip; otherwise the RMS becomes the current level and, while collecting, one audio event is logged with the peak's tag and level = RMS. Nothing but the writer, the count and the current level changes |
| SensorSuite.ValidPairs | Assets/Scripts/SensorSuite.cs:406-411 | the indices selected are exactly those below both array lengths where both entries are valid, in increasing order |
| SensorSuite.PairLoop | Assets/Scripts/SensorSuite.cs:406-415 | the loop appends one gaze row per selected index, in index order, and counts each |
| SensorSuite.EyeTrackingFrame | Assets/Scripts/SensorSuite.cs:398-421 | no rows without the feature, for default data or a missing array; otherwise one counted row per valid pair, in order |
| SensorSuite.ImuSample | Assets/Scripts/SensorSuite.cs:427-432 | one IMU iteration appends one IMU row and counts it |
| SensorSuite.LightSample | Assets/Scripts/SensorSuite.cs:448-452 | one light iteration logs LUX_READING with the two-decimal lux exactly when the reading is non-negative |
| SensorSuite.Gated | Assets/Scripts/SensorSuite.cs:322-348 | a task is started exactly when its setting, permissions and device/initialisation flags hold |
| SensorSuite.Launch | Assets/Scripts/SensorSuite.cs:322-348 | a started task stays alive exactly when its loop condition already holds at its first iteration |
| SensorSuite.Wake | Assets/Scripts/SensorSuite.cs:385 | a dead task does nothing; a live task whose loop condition fails ends; otherwise one iteration runs |
| SensorSuite.LaunchWhileCollecting | Assets/Scripts/SensorSuite.cs:322-348 | launched once collecting, every gated task survives its first step |
| SensorSuite.StartDataCollection | Assets/Scripts/SensorSuite.cs:284-309 | refused without change while collecting or unwired; true exactly when the writer starts; on success collecting with count 0, the header the only line, and no task alive |
| SensorSuite.StartDataCollectionFixed | Assets/Scripts/SensorSuite.cs:284-309 | the same guards and failure paths as the code. On success the suite is collecting and exactly the gated tasks are alive, with the start conditions unchanged. The count covers the subject row plus every row the first iterations wrote, and the writer counts each of these lines after the header. With IMU gated, the count is at least two: the subject row and the first IMU row |
| SensorSuite.SubjectRowFirst | Assets/Scripts/SensorSuite.cs:301-305 | after the corrected start, the log text begins with the header line followed directly by the SUBJECT_ID row carrying the session's subject id |
| SensorSuite.LogSubject | Assets/Scripts/SensorSuite.cs:303-306 | marks the suite collecting, restarts the count at 1, and while recording appends exactly the SUBJECT_ID line to the log text and counts it, keeping the task set and the start conditions |
| SensorSuite.FirstSegmentName | Assets/Scripts/SensorSuite.cs:643-682 | the audio-file task's first iteration advances the counter; the new segment's name stays current when the clip was created, and is already cleared again when it could not be, since that path ends without a yield |
| SensorSuite.LaunchTasks | Assets/Scripts/SensorSuite.cs:322-348 | on a collecting suite every gated task is started and alive after its first iteration; the text only grows, every added line is counted, and an IMU task adds at least one row |
| SensorSuite.RunFirst | Assets/Scripts/SensorSuite.cs:322-348 | the first iterations, in launch order and each only when allowed, keep the run's flags and task set, only append text, count each appended line, and with IMU allowed add at least one row |
| SensorSuite.StopDataCollection | Assets/Scripts/SensorSuite.cs:310-321 | no-op while idle; otherwise no task alive, not collecting, writer stopped with its file holding everything it had accepted |
| SensorSuite.AudioFileName | Assets/Scripts/SensorSuite.cs:646 | the name is `audio_`, the timestamp, `_`, the padded counter and `.wav` |
| SensorSuite.AudioFileNameCounter | Assets/Scripts/SensorSuite.cs:646 | the counter is read back from the name |
| SensorSuite.AudioFileNamesDistinct | Assets/Scripts/SensorSuite.cs:646 | names from equal-length timestamps coincide only for equal counters |
| SensorSuite.BeginAudioSegment | Assets/Scripts/SensorSuite.cs:645-661 | the segment is named after the counter, the counter grows by exactly one, and the name becomes current. A created clip logs AUDIO_RECORDING_START while collecting, and its recording column already shows the name; otherwise nothing is written. Nothing else in the suite changes |
| SensorSuite.EndAudioSegment | Assets/Scripts/SensorSuite.cs:667-682 | a recorded segment logs AUDIO_RECORDING_END with its name, and the current name is cleared in every case. Nothing but the writer, the count and the name changes |
| SensorSuite.SegmentsNamedApart | Assets/Scripts/SensorSuite.cs:645-648 | two consecutive segments never share a name |
| SensorSuite.NothingAfterStop | Assets/Scripts/SensorSuite.cs:310-321 | after a stop, no task wake-up and no late main-thread completion writes or counts anything |
| SensorSuite.NoSamplesAfterStart | Assets/Scripts/SensorSuite.cs:303-305 | after the start as written, no sequence of task wake-ups changes anything |
| SensorSuite.ImuSamplesAfterFixedStart | Assets/Scripts/SensorSuite.cs:327-330 | after the corrected start with IMU gated, the IMU task is still alive: its next wake-up appends one IMU row and counts it |
| Dispatcher.Enqueue | Assets/Scripts/MainThreadDispatcher.cs:47-54 | a null action leaves the queue unchanged; any other is appended at the back with the rest unchanged |
| Dispatcher.EnqueueAll | Assets/Scripts/MainThreadDispatcher.cs:47-54 | a series of enqueues appends exactly its non-null actions, in call order |
| Dispatcher.DrainFacts | Assets/Scripts/MainThreadDispatcher.cs:37-46 | the actions run, followed by those left queued, are the initial queue followed by everything the run actions enqueued; a drain that ends normally leaves the queue empty, and one that throws stops at the throwing action |
| Dispatcher.Update | Assets/Scripts/MainThreadDispatcher.cs:37-46 | the dequeue-and-invoke loop computes exactly that drain |
| Dispatcher.OnlyLastThrows | Assets/Scripts/MainThreadDispatcher.cs:43 | every action invoked returned normally, except the last of a drain that ended by an exception |
| Dispatcher.FifoOrder | Assets/Scripts/MainThreadDispatcher.cs:41-44 | when actions enqueue nothing, those invoked are a prefix of the queue in queue order and the rest stay queued in order |
| Dispatcher.SpawnedRunLast | Assets/Scripts/MainThreadDispatcher.cs:41-44 | actions enqueued during a drain run in that same drain, after all that were already queued, in enqueue order |
| Dispatcher.QuietDrains | Assets/Scripts/MainThreadDispatcher.cs:39-45 | a queue of actions that neither enqueue nor throw is run completely, in order, and left empty (given fuel for every action) |
| Dispatcher.EnqueuesThenUpdate | Assets/Scripts/MainThreadDispatcher.cs:39-54 | for actions that neither enqueue nor throw, a series of enqueues into an empty queue and one update invoke exactly the non-null actions, in call order, leaving the queue empty |

## Left out

- The sensor-access component (permission requests, device enabling, callbacks). Its flags are opaque booleans in `Access`.
- Camera connection and video capture. They are hardware callbacks. `cameraConnected` is only an input to gating.
- The peak and RMS computation over audio samples, and float-to-int16 scaling before the WAV write. Both are floating point, so `AudioFrame` takes peak and RMS as reals and `Wav.Encode` takes int16 samples directly.
- `ToString("F4")`, `ToString("F2")`, enum `ToString()` and `Quaternion.eulerAngles`. They are opaque functions in `Format`.
- Coroutine scheduling, wait intervals, `Time.time` and `DateTime.Now`. Each periodic task is one iteration function plus membership in `running`. The time is an integer `now`, so the flush trigger compares the elapsed value with `autoFlushTime` in whatever unit `now` uses. `Defaults` uses milliseconds (5000); the code uses seconds (5.0).
- Exceptions thrown inside the writer by stream I/O. The model's file writes always succeed.
- Exceptions thrown by device reads inside the sampling loops. These are the eye-tracker read, the per-pair snapshot, the IMU, light and audio reads, and the facial read caught inside the snapshot. The model's readings are total values. An eye frame that throws part-way therefore keeps the rows for the pairs before the throw in the code, but in the model every valid pair gets its row. The facial read is the one exception modelled: it turns the facial values to "0".
- CsvWriter.WriteLineInternal: the terminator is `NewLine`, a single line feed. The code's `AppendLine` writes `Environment.NewLine`, which is carriage return plus line feed on Windows, where the editor can start sessions. Text written there ends each line with two characters.
- CsvWriter.WriteLineInternal: the size trigger compares the buffer's length in characters (code points). The code's `buffer.Length` counts UTF-16 code units, so with characters outside the Basic Multilingual Plane the code's size flush fires earlier than the model's.
- CsvWriter.SessionFileHoldsEveryLine: the file content is the accepted lines as text. The code's UTF-8 `StreamWriter` writes a byte-order mark before the header and encodes the characters as bytes; neither the mark nor the encoding is modelled.
- The audio-file task's later wake-ups and the end of each segment are not steps of `RunSteps`. The segment is a child coroutine that stopping the parent does not stop. It can later clear `currentAudioFileName`, even during a new session, and log `AUDIO_RECORDING_END`, which `LogEvent`'s guard drops after a stop. `BeginAudioSegment` and `EndAudioSegment` model the two halves on their own. The launch's first iteration starts the first segment. When its clip cannot be created, that same iteration also ends it, since that path has no `yield`.
- CsvWriter.WriteLineInternal: with `flushInterval` 0 the code's modulus throws inside its try block, after the append and the count. The model therefore appends, counts and never flushes, and `Triggered` is false.
- Locks, `Task.Run` and thread ids. The dispatcher and the writer are sequential. The unused `writeQueue` and `isWriting` fields are omitted.
- Pause, focus, quit and destroy hooks. They only call the flush and stop operations already modelled.
- `SaveAudioClip`'s background save and its dispatched `AUDIO_FILE_SAVED` event. This is a `Completion` step, that is, a `LogEvent` run later from the queue. The null-clip guard of `SaveAudioClipAsWAV` is not modelled.
- CsvWriter.StartRecording and SensorSuite.StartDataCollection: 32-bit wrap-around of `entryCount` and `totalDataPointsCollected` is not modelled. Counts are unbounded integers.
- SensorSuite.BeginAudioSegment: 32-bit wrap-around of `audioFileCounter` is not modelled, so past 2^31 the code's names would differ from the model's.
- `WriteDataRow` escapes into the caller's array in place. The model returns the line and leaves the row unchanged.
- Dispatcher.DrainQueue: a `fuel` bound caps the number of invocations. An action that re-enqueues itself forever makes the code's drain loop forever, and the model reports `OutOfFuel` instead.
- SensorRows.CollectAllSensorData: the number of blend-shape properties is taken to equal the number of blend-shape names. The code allocates the array from the same enumeration.
- SensorRows.EyeColumns: `StaticData` carries only the two fields the row shows, so the default-value test compares those two fields with zero. A platform struct with further fields would also count as default only when those fields are default too.

## Findings

| source | as written | input that shows it | evidently intended | confidence | as-written member | corrected member |
|---|---|---|---|---|---|---|
| Assets/Scripts/SensorSuite.cs:303-305 | `LogEvent("SUBJECT_ID", …)` and `StartDataCollectionCoroutines()` run before `isCollecting = true`. The event is dropped by `LogEvent`'s guard. Each coroutine starts at once, sees its `while (isCollecting…)` false and ends. | Any successful start, for example with every setting, permission and device flag true and `collectIMUData` on. The file gets only the header, and no IMU, eye, light or audio row ever follows. | Mark the suite collecting first. Then the subject row follows the header, each gated task samples once at launch, and it keeps sampling afterwards. | not executed; medium-high (relies on `StartCoroutine` running a coroutine synchronously up to its first `yield`) | SensorSuite.StartDataCollection (see SensorSuite.NoSamplesAfterStart) | SensorSuite.StartDataCollectionFixed (see SensorSuite.ImuSamplesAfterFixedStart) |
