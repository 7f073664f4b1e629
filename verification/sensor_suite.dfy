/**
 * The collection state machine of the sensor suite: starting and stopping a
 * session, which periodic tasks run, one tick of each task, and the two event
 * loggers. A periodic task is modelled by the set of tasks whose coroutine is
 * alive plus one function per loop iteration; the coroutine scheduler, the
 * interval waits and the devices are outside the model, and what a device
 * reports arrives as a `Readings` parameter.
 */
module SensorSuite {
  import opened Wrappers
  import CsvField
  import CsvWriter
  import opened SensorRows
  import Decimal

  datatype Task = EyeTracking | ImuData | LightSensor | AudioLevel | VideoCapture | AudioFiles

  datatype Suite = Suite(
    settings: Settings,
    access: Access,
    /** The sensor-access component and the writer were both found at start-up. */
    wired: bool,
    /** The names of the facial blend shapes, one column each. */
    facialNames: seq<string>,
    /** The blend-shape property array has been allocated. */
    facialReady: bool,
    /** The microphone buffer clip exists. */
    audioRecordingActive: bool,
    cameraConnected: bool,
    audioFileRecordingActive: bool,
    isCollecting: bool,
    total: int,
    /** The periodic tasks whose coroutine is alive. */
    running: set<Task>,
    audioFileCounter: nat,
    currentAudioFileName: string,
    currentAudioLevel: real,
    writer: CsvWriter.Writer)

  // ---------------------------------------------------------------------------
  // What one row adds to the file
  // ---------------------------------------------------------------------------

  /** Everything the writer has accepted for its open file: the flushed part, then the buffer. */
  function Text(w: CsvWriter.Writer): string {
    CsvWriter.OpenContent(w) + w.buffer
  }

  /** A row as the writer receives it: every column a non-null string. */
  function Cells(row: seq<string>): (c: seq<CsvField.Cell>)
    ensures |c| == |row|
    ensures forall i :: 0 <= i < |row| ==> c[i] == Some(row[i])
  {
    seq(|row|, i requires 0 <= i < |row| => Some(row[i]))
  }

  /** The lines a sequence of rows becomes in the file. */
  function RowTexts(rows: seq<seq<string>>): (t: seq<string>)
    ensures |t| == |rows|
    ensures forall i :: 0 <= i < |rows| ==> t[i] == CsvField.DataLine(Cells(rows[i]))
  {
    seq(|rows|, i requires 0 <= i < |rows| => CsvField.DataLine(Cells(rows[i])))
  }

  /**
   * `w2` is `w1` with `rows` appended: while recording, the accepted text grows
   * by exactly those lines in order and each counts as one entry; while not
   * recording, nothing changes.
   */
  predicate Appended(w1: CsvWriter.Writer, w2: CsvWriter.Writer, rows: seq<seq<string>>) {
    && (w1.isRecording ==>
          && w2.isRecording && w2.stream == w1.stream
          && Text(w2) == Text(w1) + CsvWriter.Lines(RowTexts(rows))
          && w2.entryCount == w1.entryCount + |rows|)
    && (!w1.isRecording ==> w2 == w1)
  }

  lemma AppendedNothing(w: CsvWriter.Writer)
    ensures Appended(w, w, [])
  {
    assert Text(w) + CsvWriter.Lines([]) == Text(w);
  }

  lemma AppendedChain(w1: CsvWriter.Writer, w2: CsvWriter.Writer, w3: CsvWriter.Writer,
                      a: seq<seq<string>>, b: seq<seq<string>>)
    requires Appended(w1, w2, a) && Appended(w2, w3, b)
    ensures Appended(w1, w3, a + b)
  {
    if w1.isRecording {
      RowTextsAppend(a, b);
      CsvWriter.LinesAppend(RowTexts(a), RowTexts(b));
      Grows(Text(w1), Text(w2), Text(w3), CsvWriter.Lines(RowTexts(a)), CsvWriter.Lines(RowTexts(b)),
            CsvWriter.Lines(RowTexts(a + b)));
    }
  }

  lemma Grows(t1: string, t2: string, t3: string, x: string, y: string, xy: string)
    requires t2 == t1 + x && t3 == t2 + y && xy == x + y
    ensures t3 == t1 + xy
  {
  }

  lemma RowTextsAppend(a: seq<seq<string>>, b: seq<seq<string>>)
    ensures RowTexts(a + b) == RowTexts(a) + RowTexts(b)
  {
  }

  /** `csvWriter.WriteDataRow(row)`. */
  function WriteRow(w: CsvWriter.Writer, row: seq<string>, now: int): (r: CsvWriter.Writer)
    ensures Appended(w, r, [row])
  {
    var r := CsvWriter.WriteDataRow(w, Cells(row), now);
    assert RowTexts([row]) == [CsvField.DataLine(Cells(row))];
    assert CsvWriter.Lines([CsvField.DataLine(Cells(row))]) == CsvField.DataLine(Cells(row)) + CsvWriter.NewLine;
    r
  }

  /** The line a row becomes reads back, under the RFC 4180-style reader, as exactly that row. */
  lemma RowReadsBack(row: seq<string>)
    requires |row| > 0
    ensures CsvField.ParseRecord(CsvField.DataLine(Cells(row))) == Some(row)
  {
    CsvField.RecordRoundTrip(Cells(row));
    assert CsvField.Values(Cells(row)) == row;
  }

  // ---------------------------------------------------------------------------
  // Snapshot context
  // ---------------------------------------------------------------------------

  /** The part of the suite every row builder reads; no logging step changes it. */
  datatype Context = Context(
    access: Access,
    settings: Settings,
    facialReady: bool,
    facialNames: seq<string>,
    currentAudioFileName: string)

  function Ctx(s: Suite): Context {
    Context(s.access, s.settings, s.facialReady, s.facialNames, s.currentAudioFileName)
  }

  /** `CollectAllSensorData` as the suite calls it. */
  function Snap(c: Context, rd: Readings, fmt: Format): (snap: Snapshot)
    ensures |snap.facialExpressions| == |c.facialNames|
  {
    CollectAllSensorData(c.access, c.settings, c.facialReady, |c.facialNames|, rd, fmt)
  }

  // ---------------------------------------------------------------------------
  // Event loggers
  // ---------------------------------------------------------------------------

  /** The row `LogEvent(name, value)` writes. */
  function EventRowOf(s: Suite, name: string, value: string, rd: Readings, fmt: Format): seq<string> {
    EventRow(name, value, Snap(Ctx(s), rd, fmt), s.currentAudioFileName, fmt)
  }

  /**
   * `LogEvent`: nothing at all while not collecting; otherwise exactly one event
   * row appended and one more data point counted, and nothing else changes.
   */
  function LogEvent(s: Suite, name: string, value: string, rd: Readings, fmt: Format): (r: Suite)
    ensures !s.isCollecting ==> r == s
    ensures s.isCollecting ==>
      && r.total == s.total + 1
      && Appended(s.writer, r.writer, [EventRowOf(s, name, value, rd, fmt)])
      && r == s.(writer := r.writer, total := r.total)
  {
    if !s.isCollecting then s
    else s.(writer := WriteRow(s.writer, EventRowOf(s, name, value, rd, fmt), rd.now), total := s.total + 1)
  }

  /** The row `LogAudioEvent(tag, peak, rms)` writes; the level column carries `currentAudioLevel`. */
  function AudioRowOf(s: Suite, tag: string, peak: real, rms: real, rd: Readings, fmt: Format): seq<string> {
    AudioEventRow(tag, peak, rms, s.currentAudioLevel, Snap(Ctx(s), rd, fmt), s.currentAudioFileName, fmt)
  }

  /** `LogAudioEvent`: the same guard and counting as `LogEvent`, with an audio-event row. */
  function LogAudioEvent(s: Suite, tag: string, peak: real, rms: real, rd: Readings, fmt: Format): (r: Suite)
    ensures !s.isCollecting ==> r == s
    ensures s.isCollecting ==>
      && r.total == s.total + 1
      && Appended(s.writer, r.writer, [AudioRowOf(s, tag, peak, rms, rd, fmt)])
      && r == s.(writer := r.writer, total := r.total)
  {
    if !s.isCollecting then s
    else s.(writer := WriteRow(s.writer, AudioRowOf(s, tag, peak, rms, rd, fmt), rd.now), total := s.total + 1)
  }

  /**
   * The row a logged event adds names the event in the Event column, carries
   * the value in Value, is as wide as the header, and reads back unchanged.
   */
  lemma LoggedEventRow(s: Suite, name: string, value: string, rd: Readings, fmt: Format)
    ensures var row := EventRowOf(s, name, value, rd, fmt);
            && |row| == |FullHeader(s.facialNames)|
            && row[EventColumn] == name && row[ValueColumn] == value
            && CsvField.ParseRecord(CsvField.DataLine(Cells(row))) == Some(row)
  {
    RowReadsBack(EventRowOf(s, name, value, rd, fmt));
  }

  // ---------------------------------------------------------------------------
  // Audio level
  // ---------------------------------------------------------------------------

  /** `AUDIO_SENSITIVITY = 0.02f`: the single-precision value nearest to 0.02, written out exactly. */
  const AudioSensitivity: real := 0.0199999995529651641845703125

  /** The tag `CollectAudioDataFrame` picks for a frame whose loudest sample is `peak`. */
  function AudioTag(peak: real): (tag: string)
    ensures tag == "AUDIO_ACTIVITY" || tag == "AUDIO_LEVEL"
    ensures tag == "AUDIO_ACTIVITY" <==> peak > AudioSensitivity
  {
    if peak > AudioSensitivity then "AUDIO_ACTIVITY" else "AUDIO_LEVEL"
  }

  /** The tag is monotone in the peak, and a peak equal to the threshold is not activity. */
  lemma AudioTagThreshold(p: real, q: real)
    ensures AudioTag(AudioSensitivity) == "AUDIO_LEVEL"
    ensures AudioSensitivity < 0.02 && AudioTag(0.02) == "AUDIO_ACTIVITY"
    ensures p <= q && AudioTag(p) == "AUDIO_ACTIVITY" ==> AudioTag(q) == "AUDIO_ACTIVITY"
  {
  }

  /** The loudest absolute sample and the RMS of one audio frame, computed outside the model. */
  datatype AudioLevels = AudioLevels(peak: real, rms: real)

  /**
   * `CollectAudioDataFrame`: nothing without a buffer clip; otherwise the RMS
   * becomes the current level and one audio event is logged under the tag the
   * peak selects.
   */
  function AudioFrame(s: Suite, levels: Option<AudioLevels>, rd: Readings, fmt: Format): (r: Suite)
    ensures levels.None? ==> r == s
    ensures levels.Some? ==> r.currentAudioLevel == levels.value.rms
    ensures levels.Some? ==> r == s.(writer := r.writer, total := r.total, currentAudioLevel := levels.value.rms)
    ensures levels.Some? && s.isCollecting ==>
      var l := levels.value;
      var row := AudioRowOf(s.(currentAudioLevel := l.rms), AudioTag(l.peak), l.peak, l.rms, rd, fmt);
      && r.total == s.total + 1
      && Appended(s.writer, r.writer, [row])
      && row[EventColumn] == AudioTag(l.peak)
      && row[FirstAudioColumn..RecordingColumn] == [fmt.f4(l.rms), fmt.f4(l.peak), fmt.f4(l.rms)]
    ensures levels.Some? && !s.isCollecting ==> r == s.(currentAudioLevel := levels.value.rms)
  {
    match levels
    case None => s
    case Some(l) =>
      var s1 := s.(currentAudioLevel := l.rms);
      LogAudioEvent(s1, AudioTag(l.peak), l.peak, l.rms, rd, fmt)
  }

  // ---------------------------------------------------------------------------
  // Eye tracking
  // ---------------------------------------------------------------------------

  /** What the eye-tracker feature gives for one frame. */
  datatype EyeRead =
    | NoFeature
    | DefaultData
    | EyeFrame(pupil: Option<seq<Pupil>>, geometric: Option<seq<Geometric>>,
               gaze: GazeBehavior, staticData: StaticData)

  /** The indices from `i` on, below both lengths, where the pupil and the geometric entry are valid, in order. */
  function ValidPairs(p: seq<Pupil>, g: seq<Geometric>, i: nat): (ks: seq<nat>)
    ensures forall k :: k in ks <==> i <= k < |p| && k < |g| && p[k].valid && g[k].valid
    ensures forall a, b :: 0 <= a < b < |ks| ==> ks[a] < ks[b]
    ensures forall a :: 0 <= a < |ks| ==> i <= ks[a] && ks[a] < |p| && ks[a] < |g|
    decreases |p| - i
  {
    if i >= |p| || i >= |g| then []
    else if p[i].valid && g[i].valid then [i] + ValidPairs(p, g, i + 1)
    else ValidPairs(p, g, i + 1)
  }

  /** The gaze row for pair `k`, with the sensors read at that loop iteration. */
  function GazeRows(c: Context, p: seq<Pupil>, g: seq<Geometric>, gaze: GazeBehavior, st: StaticData,
                    rd: nat -> Readings, fmt: Format): nat -> seq<string>
  {
    (k: nat) => if k < |p| && k < |g| then EyeRow(p[k], g[k], gaze, st, Snap(c, rd(k), fmt), c.currentAudioFileName, fmt) else []
  }

  /** The rows a builder gives for the indices `ks`, in order. */
  function Rows(ks: seq<nat>, row: nat -> seq<string>): (rows: seq<seq<string>>)
    ensures |rows| == |ks|
  {
    if ks == [] then [] else [row(ks[0])] + Rows(ks[1..], row)
  }

  lemma {:induction false} RowsAt(ks: seq<nat>, row: nat -> seq<string>)
    ensures forall a :: 0 <= a < |ks| ==> Rows(ks, row)[a] == row(ks[a])
    decreases |ks|
  {
    if ks != [] {
      RowsAt(ks[1..], row);
    }
  }

  /** The loop of `CollectEyeTrackingDataFrame` from index `i` on, writing `row(k)` for each valid pair `k`. */
  function PairLoop(s: Suite, p: seq<Pupil>, g: seq<Geometric>, i: nat, row: nat -> seq<string>,
                    rd: nat -> Readings): (r: Suite)
    ensures r.total == s.total + |ValidPairs(p, g, i)|
    ensures Appended(s.writer, r.writer, Rows(ValidPairs(p, g, i), row))
    ensures r == s.(writer := r.writer, total := r.total)
    decreases |p| - i
  {
    if i >= |p| || i >= |g| then
      AppendedNothing(s.writer);
      s
    else if p[i].valid && g[i].valid then
      var s1 := s.(writer := WriteRow(s.writer, row(i), rd(i).now), total := s.total + 1);
      var r := PairLoop(s1, p, g, i + 1, row, rd);
      PairStep(s, s1, r, p, g, i, row);
      r
    else
      PairLoop(s, p, g, i + 1, row, rd)
  }

  /** One written pair followed by the rest of the loop is the loop from the pair on. */
  lemma PairStep(s: Suite, s1: Suite, r: Suite, p: seq<Pupil>, g: seq<Geometric>, i: nat, row: nat -> seq<string>)
    requires i < |p| && i < |g| && p[i].valid && g[i].valid
    requires s1 == s.(writer := s1.writer, total := s.total + 1)
    requires Appended(s.writer, s1.writer, [row(i)])
    requires r.total == s1.total + |ValidPairs(p, g, i + 1)|
    requires Appended(s1.writer, r.writer, Rows(ValidPairs(p, g, i + 1), row))
    requires r == s1.(writer := r.writer, total := r.total)
    ensures r.total == s.total + |ValidPairs(p, g, i)|
    ensures Appended(s.writer, r.writer, Rows(ValidPairs(p, g, i), row))
    ensures r == s.(writer := r.writer, total := r.total)
  {
    var rest := ValidPairs(p, g, i + 1);
    assert ValidPairs(p, g, i) == [i] + rest;
    AppendedChain(s.writer, s1.writer, r.writer, [row(i)], Rows(rest, row));
    assert ([i] + rest)[1..] == rest;
  }

  /**
   * `CollectEyeTrackingDataFrame`: one gaze row per index below both array
   * lengths where both entries are valid, in index order, each counted; no row
   * without the feature, for default data or when either array is missing.
   */
  function EyeTrackingFrame(s: Suite, read: EyeRead, rd: nat -> Readings, fmt: Format): (r: Suite)
    ensures (read.NoFeature? || read.DefaultData? || read.pupil.None? || read.geometric.None?) ==> r == s
    ensures read.EyeFrame? && read.pupil.Some? && read.geometric.Some? ==>
      var ks := ValidPairs(read.pupil.value, read.geometric.value, 0);
      && r.total == s.total + |ks|
      && Appended(s.writer, r.writer, Rows(ks, GazeRows(Ctx(s), read.pupil.value, read.geometric.value, read.gaze, read.staticData, rd, fmt)))
      && r == s.(writer := r.writer, total := r.total)
  {
    match read
    case NoFeature => s
    case DefaultData => s
    case EyeFrame(pupil, geometric, gaze, st) =>
      if pupil.None? || geometric.None? then s
      else PairLoop(s, pupil.value, geometric.value, 0, GazeRows(Ctx(s), pupil.value, geometric.value, gaze, st, rd, fmt), rd)
  }

  // ---------------------------------------------------------------------------
  // IMU and light
  // ---------------------------------------------------------------------------

  /** One iteration of the IMU loop: an IMU row, counted; the loop itself does not check `isCollecting` again. */
  function ImuSample(s: Suite, rd: Readings, fmt: Format): (r: Suite)
    ensures r.total == s.total + 1
    ensures Appended(s.writer, r.writer, [ImuRow(Snap(Ctx(s), rd, fmt), s.currentAudioFileName, fmt)])
    ensures r == s.(writer := r.writer, total := r.total)
  {
    s.(writer := WriteRow(s.writer, ImuRow(Snap(Ctx(s), rd, fmt), s.currentAudioFileName, fmt), rd.now),
       total := s.total + 1)
  }

  /** One iteration of the light loop: a `LUX_READING` event with the two-decimal lux text, only when there is a reading. */
  function LightSample(s: Suite, rd: Readings, fmt: Format): (r: Suite)
    ensures LuxValue(s.access, rd) < 0.0 ==> r == s
    ensures LuxValue(s.access, rd) >= 0.0 ==> r == LogEvent(s, "LUX_READING", fmt.f2(LuxValue(s.access, rd)), rd, fmt)
  {
    var lux := LuxValue(s.access, rd);
    if lux >= 0.0 then LogEvent(s, "LUX_READING", fmt.f2(lux), rd, fmt) else s
  }

  // ---------------------------------------------------------------------------
  // Periodic tasks
  // ---------------------------------------------------------------------------

  /** Everything the start conditions of the tasks read. */
  datatype Conditions = Conditions(
    settings: Settings,
    access: Access,
    audioRecordingActive: bool,
    cameraConnected: bool,
    audioFileRecordingActive: bool)

  function Conds(s: Suite): Conditions {
    Conditions(s.settings, s.access, s.audioRecordingActive, s.cameraConnected, s.audioFileRecordingActive)
  }

  /** `StartDataCollectionCoroutines`: the conditions under which each task is started. */
  predicate Allowed(c: Conditions, t: Task) {
    match t
    case EyeTracking => c.settings.collectEye && c.access.eyePermission && c.access.eyeTracker
    case ImuData => c.settings.collectImu
    case LightSensor => c.settings.collectLight && c.access.lightSensor
    case AudioLevel => c.settings.collectAudio && c.access.audioPermission && c.audioRecordingActive
    case VideoCapture => c.settings.collectVideo && c.access.cameraPermission && c.cameraConnected
    case AudioFiles => c.settings.recordAudioFiles && c.access.audioPermission && c.audioFileRecordingActive
  }

  predicate Gate(s: Suite, t: Task) {
    Allowed(Conds(s), t)
  }

  /** The `while` condition of each task's loop. */
  predicate LoopGuard(s: Suite, t: Task) {
    match t
    case AudioLevel => s.isCollecting && s.audioRecordingActive
    case VideoCapture => s.isCollecting && s.cameraConnected
    case AudioFiles => s.isCollecting && s.audioFileRecordingActive
    case _ => s.isCollecting
  }

  const AllTasks: set<Task> := {EyeTracking, ImuData, LightSensor, AudioLevel, VideoCapture, AudioFiles}

  lemma EveryTask(t: Task)
    ensures t in AllTasks
  {
    match t
    case EyeTracking =>
    case ImuData =>
    case LightSensor =>
    case AudioLevel =>
    case VideoCapture =>
    case AudioFiles =>
  }

  function Gated(s: Suite): (ts: set<Task>)
    ensures forall t :: t in ts <==> Gate(s, t)
  {
    AllowedTasks(Conds(s))
  }

  function AllowedTasks(c: Conditions): (ts: set<Task>)
    ensures forall t :: t in ts <==> Allowed(c, t)
  {
    forall t: Task ensures t in AllTasks { EveryTask(t); }
    set t | t in AllTasks && Allowed(c, t)
  }

  /**
   * The tasks alive after `StartDataCollectionCoroutines` in state `s`: a
   * started coroutine runs at once up to its first wait, so one whose loop
   * condition is already false ends there.
   */
  function Launch(s: Suite): (ts: set<Task>)
    ensures forall t :: t in ts <==> Gate(s, t) && LoopGuard(s, t)
  {
    forall t: Task ensures t in AllTasks { EveryTask(t); }
    set t | t in AllTasks && Gate(s, t) && LoopGuard(s, t)
  }

  /** A task's coroutine wakes up: it ends if its loop condition has become false, else runs one iteration. */
  function Wake(s: Suite, t: Task, body: Suite -> Suite): (r: Suite)
    ensures t !in s.running ==> r == s
    ensures t in s.running && !LoopGuard(s, t) ==> r == s.(running := s.running - {t})
    ensures t in s.running && LoopGuard(s, t) ==> r == body(s)
  {
    if t !in s.running then s
    else if !LoopGuard(s, t) then s.(running := s.running - {t})
    else body(s)
  }

  /** The inputs one task iteration consumes. */
  datatype Step =
    | EyeTick(read: EyeRead, eyeReadings: nat -> Readings)
    | ImuTick(rd: Readings)
    | LightTick(rd: Readings)
    | AudioTick(levels: Option<AudioLevels>, rd: Readings)
    | Completion(name: string, value: string, rd: Readings)

  /** One scheduled step: a task wake-up, or a main-thread completion that logs an event. */
  function StepSuite(s: Suite, step: Step, fmt: Format): Suite {
    match step
    case EyeTick(read, rds) => Wake(s, EyeTracking, s' => EyeTrackingFrame(s', read, rds, fmt))
    case ImuTick(rd) => Wake(s, ImuData, s' => ImuSample(s', rd, fmt))
    case LightTick(rd) => Wake(s, LightSensor, s' => LightSample(s', rd, fmt))
    case AudioTick(levels, rd) => Wake(s, AudioLevel, s' => AudioFrame(s', levels, rd, fmt))
    case Completion(name, value, rd) => LogEvent(s, name, value, rd, fmt)
  }

  function RunSteps(s: Suite, steps: seq<Step>, fmt: Format): Suite
    decreases |steps|
  {
    if steps == [] then s else RunSteps(StepSuite(s, steps[0], fmt), steps[1..], fmt)
  }

  // ---------------------------------------------------------------------------
  // Start and stop
  // ---------------------------------------------------------------------------

  /** The header `StartDataCollection` writes, as one line of text. */
  function HeaderLine(s: Suite): string {
    CsvField.Join(FullHeader(s.facialNames)) + CsvWriter.NewLine
  }

  /** Steps shared by both versions of the start: the guards, then the writer's start and the header. */
  function OpenSession(s: Suite, given: Option<string>, env: CsvWriter.StartEnv): (r: (bool, Suite))
    requires !s.isCollecting && s.wired
    ensures r.0 <==> env.directoryOk && env.openOk
    ensures r.1 == s.(writer := r.1.writer)
    ensures !r.0 ==> !r.1.writer.isRecording
    ensures r.0 ==> r.1.writer.isRecording && r.1.writer.entryCount == 1
    ensures r.0 && CsvWriter.Valid(s.writer) ==> Text(r.1.writer) == HeaderLine(s)
    ensures r.0 ==> r.1.writer.subjectId == Some(CsvWriter.ResolveSubjectId(given, env.draw))
  {
    var start := CsvWriter.StartRecording(s.writer, given, env);
    if !start.0 then (false, s.(writer := start.1))
    else
      HeaderOpens(s.writer, given, env, FullHeader(s.facialNames));
      (true, s.(writer := CsvWriter.WriteHeader(start.1, FullHeader(s.facialNames), env.now)))
  }

  /** The header written right after a successful start is the first and only entry. */
  lemma HeaderOpens(w: CsvWriter.Writer, given: Option<string>, env: CsvWriter.StartEnv, names: seq<string>)
    requires CsvWriter.StartRecording(w, given, env).0
    ensures var h := CsvWriter.WriteHeader(CsvWriter.StartRecording(w, given, env).1, names, env.now);
            && h.isRecording && h.entryCount == 1
            && (CsvWriter.Valid(w) ==> Text(h) == CsvField.Join(names) + CsvWriter.NewLine)
  {
    var started := CsvWriter.StartRecording(w, given, env).1;
    StartedEmpty(w, given, env);
    var h := CsvWriter.WriteHeader(started, names, env.now);
    assert Text(h) == Text(started) + CsvField.Join(names) + CsvWriter.NewLine;
  }

  lemma StartedEmpty(w: CsvWriter.Writer, given: Option<string>, env: CsvWriter.StartEnv)
    ensures CsvWriter.Valid(w) && CsvWriter.StartRecording(w, given, env).0 ==>
      Text(CsvWriter.StartRecording(w, given, env).1) == ""
  {
    if CsvWriter.Valid(w) && CsvWriter.StartRecording(w, given, env).0 {
      CsvWriter.StartOpensEmptyLog(w, given, env);
    }
  }

  /**
   * `StartDataCollection` as written: refused while collecting or unwired; a
   * writer failure leaves the suite idle; on success the header is the only
   * line, because the `SUBJECT_ID` event and the coroutine launch both happen
   * while `isCollecting` is still false.
   */
  function StartDataCollection(s: Suite, given: Option<string>, env: CsvWriter.StartEnv,
                               rd: Readings, fmt: Format): (r: (bool, Suite))
    ensures r.0 <==> !s.isCollecting && s.wired && env.directoryOk && env.openOk
    ensures s.isCollecting || !s.wired ==> r.1 == s
    ensures !r.0 && !s.isCollecting && s.wired ==>
      r.1 == s.(writer := r.1.writer) && !r.1.writer.isRecording
    ensures r.0 ==>
      && r.1.isCollecting && r.1.total == 0
      && r.1.writer.entryCount == 1
      && r.1.running == {}
      && r.1 == s.(writer := r.1.writer, isCollecting := true, total := 0, running := {})
    ensures r.0 && CsvWriter.Valid(s.writer) ==> Text(r.1.writer) == HeaderLine(s)
  {
    if s.isCollecting || !s.wired then (false, s)
    else
      var (ok, session) := OpenSession(s, given, env);
      if !ok then (false, session)
      else
        var logged := LogEvent(session, "SUBJECT_ID", session.writer.subjectId.GetOr(""), rd, fmt);
        var launched := logged.(running := Launch(logged));
        (true, launched.(isCollecting := true, total := 0))
  }

  /**
   * The evidently intended start: the suite is marked collecting and the counter
   * reset before the subject id is logged and the tasks are launched. The
   * subject row then directly follows the header, every gated task is alive,
   * each has already run its first iteration, and every row is counted; with
   * the IMU task gated at least one sample row follows the subject row.
   */
  function StartDataCollectionFixed(s: Suite, given: Option<string>, env: CsvWriter.StartEnv,
                                    rd: Readings, first: FirstInputs, fmt: Format): (r: (bool, Suite))
    ensures r.0 <==> !s.isCollecting && s.wired && env.directoryOk && env.openOk
    ensures s.isCollecting || !s.wired ==> r.1 == s
    ensures !r.0 && !s.isCollecting && s.wired ==>
      r.1 == s.(writer := r.1.writer) && !r.1.writer.isRecording
    ensures r.0 ==>
      && r.1.isCollecting && r.1.running == Gated(s) && Conds(r.1) == Conds(s)
      && 1 <= r.1.total && r.1.writer.isRecording && r.1.writer.entryCount == r.1.total + 1
    ensures r.0 && s.settings.collectImu ==> 2 <= r.1.total
  {
    if s.isCollecting || !s.wired then (false, s)
    else
      var (ok, session) := OpenSession(s, given, env);
      if !ok then (false, session)
      else
        var id := CsvWriter.ResolveSubjectId(given, env.draw);
        (true, CommenceOpened(s, session, id, rd, first, fmt))
  }

  /** After the corrected start the subject row directly follows the header. */
  lemma SubjectRowFirst(s: Suite, given: Option<string>, env: CsvWriter.StartEnv,
                        rd: Readings, first: FirstInputs, fmt: Format)
    requires !s.isCollecting && s.wired && env.directoryOk && env.openOk && CsvWriter.Valid(s.writer)
    ensures var subject := EventRowOf(s, "SUBJECT_ID", CsvWriter.ResolveSubjectId(given, env.draw), rd, fmt);
            && subject[EventColumn] == "SUBJECT_ID"
            && HeaderLine(s) + CsvField.DataLine(Cells(subject)) + CsvWriter.NewLine
               <= Text(StartDataCollectionFixed(s, given, env, rd, first, fmt).1.writer)
  {
    var (ok, session) := OpenSession(s, given, env);
    var id := CsvWriter.ResolveSubjectId(given, env.draw);
    assert StartDataCollectionFixed(s, given, env, rd, first, fmt).1 == CommenceOpened(s, session, id, rd, first, fmt);
  }

  /** `Commence` on the suite `OpenSession` left, stated against the suite before the start. */
  function CommenceOpened(s: Suite, session: Suite, id: string, rd: Readings, first: FirstInputs, fmt: Format): (r: Suite)
    requires session == s.(writer := session.writer)
    requires session.writer.isRecording && session.writer.entryCount == 1
    ensures r.isCollecting && r.running == Gated(s) && Conds(r) == Conds(s)
    ensures 1 <= r.total && r.writer.isRecording && r.writer.entryCount == r.total + 1
    ensures s.settings.collectImu ==> 2 <= r.total
    ensures Text(session.writer) + CsvField.DataLine(Cells(EventRowOf(s, "SUBJECT_ID", id, rd, fmt))) + CsvWriter.NewLine
            <= Text(r.writer)
  {
    var r := Commence(session, id, rd, first, fmt);
    SameEventRow(session, s, "SUBJECT_ID", id, rd, fmt);
    SameGates(session, s);
    r
  }

  /**
   * The corrected order after the header: mark the suite collecting, reset the
   * counter, log the subject id, then launch the gated tasks, each of which
   * runs its first iteration at once and stays alive.
   */
  function Commence(s: Suite, id: string, rd: Readings, first: FirstInputs, fmt: Format): (r: Suite)
    ensures r.isCollecting && r.running == Gated(s) && Conds(r) == Conds(s)
    ensures 1 <= r.total
    ensures s.settings.collectImu ==> 2 <= r.total
    ensures s.writer.isRecording ==>
      && r.writer.isRecording && r.writer.entryCount == s.writer.entryCount + r.total
      && Text(s.writer) + CsvField.DataLine(Cells(EventRowOf(s, "SUBJECT_ID", id, rd, fmt))) + CsvWriter.NewLine
         <= Text(r.writer)
  {
    var logged := LogSubject(s, id, rd, fmt);
    var r := LaunchTasks(logged, first, fmt);
    SameGates(logged, s);
    PrefixTrans(Text(s.writer) + CsvField.DataLine(Cells(EventRowOf(s, "SUBJECT_ID", id, rd, fmt))) + CsvWriter.NewLine,
                Text(logged.writer), Text(r.writer));
    r
  }

  /** Mark the suite collecting, reset the counter, and log the subject id as the first counted row. */
  function LogSubject(s: Suite, id: string, rd: Readings, fmt: Format): (r: Suite)
    ensures r.isCollecting && r.total == 1 && r.running == s.running && Conds(r) == Conds(s)
    ensures s.writer.isRecording ==>
      && r.writer.isRecording && r.writer.entryCount == s.writer.entryCount + 1
      && Text(r.writer) == Text(s.writer) + CsvField.DataLine(Cells(EventRowOf(s, "SUBJECT_ID", id, rd, fmt))) + CsvWriter.NewLine
  {
    var collecting := s.(isCollecting := true, total := 0);
    var logged := LogEvent(collecting, "SUBJECT_ID", id, rd, fmt);
    SameEventRow(collecting, s, "SUBJECT_ID", id, rd, fmt);
    OneRow(collecting.writer, logged.writer, EventRowOf(s, "SUBJECT_ID", id, rd, fmt));
    logged
  }

  /**
   * `StartDataCollectionCoroutines` on a collecting suite: every gated task is
   * started and alive, and each has run its first iteration.
   */
  function LaunchTasks(s: Suite, first: FirstInputs, fmt: Format): (r: Suite)
    requires s.isCollecting
    ensures r.isCollecting && r.running == Gated(s) && Conds(r) == Conds(s)
    ensures s.total <= r.total
    ensures s.settings.collectImu ==> s.total < r.total
    ensures s.writer.isRecording ==>
      && r.writer.isRecording && Text(s.writer) <= Text(r.writer)
      && r.writer.entryCount - s.writer.entryCount == r.total - s.total
  {
    LaunchWhileCollecting(s, s);
    var launched := s.(running := Launch(s));
    assert Conds(launched) == Conds(s);
    RunFirst(launched, LaunchOrder, Conds(launched), first, fmt)
  }

  lemma PrefixTrans(a: string, b: string, c: string)
    ensures a <= b && b <= c ==> a <= c
  {
    if a <= b && b <= c {
      assert c[..|a|] == b[..|a|];
    }
  }

  // ---------------------------------------------------------------------------
  // First iterations at launch
  // ---------------------------------------------------------------------------

  /**
   * What each task's first iteration reads. A started coroutine runs its body
   * up to the first wait, so with the suite collecting every launched task
   * samples once inside the launch itself.
   */
  datatype FirstInputs = FirstInputs(
    eye: EyeRead,
    eyeReadings: nat -> Readings,
    imu: Readings,
    light: Readings,
    audio: Option<AudioLevels>,
    audioReadings: Readings,
    segmentTimestamp: string,
    clipCreated: bool,
    segmentReadings: Readings)

  /**
   * `y` is `x` after some task iterations: the run's flags, conditions and
   * task set are as they were, the text only grew, and every appended line
   * was counted in both the writer and the suite.
   */
  predicate Extends(x: Suite, y: Suite) {
    && y.isCollecting == x.isCollecting && y.running == x.running && Conds(y) == Conds(x)
    && x.total <= y.total
    && (x.writer.isRecording ==>
          && y.writer.isRecording
          && Text(x.writer) <= Text(y.writer)
          && y.writer.entryCount - x.writer.entryCount == y.total - x.total)
    && (!x.writer.isRecording ==> y.writer == x.writer)
  }

  /** The order in which `StartDataCollectionCoroutines` starts the tasks. */
  const LaunchOrder: seq<Task> := [EyeTracking, ImuData, LightSensor, AudioLevel, VideoCapture, AudioFiles]

  /**
   * One task's first iteration. The video task only starts an asynchronous
   * capture, whose frame is logged later through the dispatcher, so it writes
   * nothing here; the audio-file task starts its first segment. A segment
   * whose clip cannot be created has no `yield` on its way out, so it also
   * ends within the launch and clears the segment name again.
   */
  function Iteration(s: Suite, t: Task, f: FirstInputs, fmt: Format): Suite {
    match t
    case EyeTracking => EyeTrackingFrame(s, f.eye, f.eyeReadings, fmt)
    case ImuData => ImuSample(s, f.imu, fmt)
    case LightSensor => LightSample(s, f.light, fmt)
    case AudioLevel => AudioFrame(s, f.audio, f.audioReadings, fmt)
    case VideoCapture => s
    case AudioFiles =>
      var (name, s1) := BeginAudioSegment(s, f.segmentTimestamp, f.clipCreated, f.segmentReadings, fmt);
      if f.clipCreated then s1 else EndAudioSegment(s1, name, false, f.segmentReadings, fmt)
  }

  /**
   * The first iterations of the tasks `ts`, in order, each run only when the
   * start conditions `c` allow its task: the result extends the suite, and an
   * allowed IMU task adds at least one counted row.
   */
  function RunFirst(s: Suite, ts: seq<Task>, c: Conditions, f: FirstInputs, fmt: Format): (r: Suite)
    ensures Extends(s, r)
    ensures ImuData in ts && Allowed(c, ImuData) ==> s.total < r.total
    decreases |ts|
  {
    if ts == [] then
      AppendedNothing(s.writer);
      AppendedExtends(s, s, []);
      s
    else
      var s1 := if Allowed(c, ts[0]) then Iteration(s, ts[0], f, fmt) else s;
      IterationExtends(s, ts[0], f, fmt);
      AppendedNothing(s.writer);
      AppendedExtends(s, s, []);
      var r := RunFirst(s1, ts[1..], c, f, fmt);
      ExtendsTrans(s, s1, r);
      assert ImuData in ts ==> ts[0] == ImuData || ImuData in ts[1..];
      r
  }

  /** Each first iteration extends the suite, and the IMU one adds a row. */
  lemma IterationExtends(s: Suite, t: Task, f: FirstInputs, fmt: Format)
    ensures Extends(s, Iteration(s, t, f, fmt))
    ensures t == ImuData ==> s.total < Iteration(s, t, f, fmt).total
  {
    match t
    case EyeTracking => EyeExtends(s, f.eye, f.eyeReadings, fmt);
    case ImuData => ImuExtends(s, f.imu, fmt);
    case LightSensor => LightExtends(s, f.light, fmt);
    case AudioLevel => AudioExtends(s, f.audio, f.audioReadings, fmt);
    case VideoCapture =>
      AppendedNothing(s.writer);
      AppendedExtends(s, s, []);
    case AudioFiles => SegmentExtends(s, f.segmentTimestamp, f.clipCreated, f.segmentReadings, fmt);
  }

  /**
   * The audio-file task's first iteration names a segment and advances the
   * counter; the name stays current only when the clip was created.
   */
  lemma FirstSegmentName(s: Suite, f: FirstInputs, fmt: Format)
    ensures var r := Iteration(s, AudioFiles, f, fmt);
            && r.audioFileCounter == s.audioFileCounter + 1
            && r.currentAudioFileName == (if f.clipCreated then AudioFileName(f.segmentTimestamp, s.audioFileCounter) else "")
  {
  }

  lemma ExtendsTrans(x: Suite, y: Suite, z: Suite)
    requires Extends(x, y) && Extends(y, z)
    ensures Extends(x, z)
  {
    if x.writer.isRecording {
      PrefixTrans(Text(x.writer), Text(y.writer), Text(z.writer));
    }
  }

  /** Rows appended and counted, with the run's flags kept, make an extension. */
  lemma AppendedExtends(x: Suite, y: Suite, rows: seq<seq<string>>)
    requires Appended(x.writer, y.writer, rows)
    requires y.total == x.total + |rows|
    requires y.isCollecting == x.isCollecting && y.running == x.running && Conds(y) == Conds(x)
    ensures Extends(x, y)
  {
    if x.writer.isRecording {
      assert Text(y.writer)[..|Text(x.writer)|] == Text(x.writer);
    }
  }

  lemma EyeExtends(s: Suite, read: EyeRead, rd: nat -> Readings, fmt: Format)
    ensures Extends(s, EyeTrackingFrame(s, read, rd, fmt))
  {
    var r := EyeTrackingFrame(s, read, rd, fmt);
    if read.EyeFrame? && read.pupil.Some? && read.geometric.Some? {
      var ks := ValidPairs(read.pupil.value, read.geometric.value, 0);
      AppendedExtends(s, r, Rows(ks, GazeRows(Ctx(s), read.pupil.value, read.geometric.value, read.gaze, read.staticData, rd, fmt)));
    } else {
      AppendedNothing(s.writer);
      AppendedExtends(s, r, []);
    }
  }

  lemma ImuExtends(s: Suite, rd: Readings, fmt: Format)
    ensures Extends(s, ImuSample(s, rd, fmt))
    ensures s.total < ImuSample(s, rd, fmt).total
  {
    AppendedExtends(s, ImuSample(s, rd, fmt), [ImuRow(Snap(Ctx(s), rd, fmt), s.currentAudioFileName, fmt)]);
  }

  lemma LogExtends(s: Suite, name: string, value: string, rd: Readings, fmt: Format)
    ensures Extends(s, LogEvent(s, name, value, rd, fmt))
  {
    var r := LogEvent(s, name, value, rd, fmt);
    if s.isCollecting {
      AppendedExtends(s, r, [EventRowOf(s, name, value, rd, fmt)]);
    } else {
      AppendedNothing(s.writer);
      AppendedExtends(s, r, []);
    }
  }

  lemma LightExtends(s: Suite, rd: Readings, fmt: Format)
    ensures Extends(s, LightSample(s, rd, fmt))
  {
    var lux := LuxValue(s.access, rd);
    if lux >= 0.0 {
      LogExtends(s, "LUX_READING", fmt.f2(lux), rd, fmt);
    } else {
      AppendedNothing(s.writer);
      AppendedExtends(s, s, []);
    }
  }

  lemma AudioExtends(s: Suite, levels: Option<AudioLevels>, rd: Readings, fmt: Format)
    ensures Extends(s, AudioFrame(s, levels, rd, fmt))
  {
    var r := AudioFrame(s, levels, rd, fmt);
    if levels.Some? && s.isCollecting {
      var l := levels.value;
      AppendedExtends(s, r, [AudioRowOf(s.(currentAudioLevel := l.rms), AudioTag(l.peak), l.peak, l.rms, rd, fmt)]);
    } else {
      AppendedNothing(s.writer);
      AppendedExtends(s, r, []);
    }
  }

  lemma SegmentExtends(s: Suite, timestamp: string, clipCreated: bool, rd: Readings, fmt: Format)
    ensures Extends(s, BeginAudioSegment(s, timestamp, clipCreated, rd, fmt).1)
    ensures !clipCreated ==>
      var (name, r) := BeginAudioSegment(s, timestamp, clipCreated, rd, fmt);
      Extends(s, EndAudioSegment(r, name, false, rd, fmt))
  {
    var (name, r) := BeginAudioSegment(s, timestamp, clipCreated, rd, fmt);
    if !clipCreated {
      var e := EndAudioSegment(r, name, false, rd, fmt);
      assert Conds(e) == Conds(s);
      AppendedNothing(s.writer);
      AppendedExtends(s, e, []);
    }
    assert Conds(r) == Conds(s);
    if clipCreated && s.isCollecting {
      AppendedExtends(s, r, [EventRowOf(r, "AUDIO_RECORDING_START", name, rd, fmt)]);
    } else {
      AppendedNothing(s.writer);
      AppendedExtends(s, r, []);
    }
  }


  /** Suites that agree on the context and the segment name log the same event row. */
  lemma SameEventRow(x: Suite, y: Suite, name: string, value: string, rd: Readings, fmt: Format)
    requires Ctx(x) == Ctx(y)
    ensures EventRowOf(x, name, value, rd, fmt) == EventRowOf(y, name, value, rd, fmt)
  {
  }

  /** One appended row is one more data line of text and one more entry. */
  lemma OneRow(w1: CsvWriter.Writer, w2: CsvWriter.Writer, row: seq<string>)
    requires Appended(w1, w2, [row])
    ensures w1.isRecording ==>
      && w2.isRecording && w2.entryCount == w1.entryCount + 1
      && Text(w2) == Text(w1) + CsvField.DataLine(Cells(row)) + CsvWriter.NewLine
  {
    var line := CsvField.DataLine(Cells(row));
    assert RowTexts([row]) == [line];
    assert [line][..0] == [];
    assert CsvWriter.Lines([line]) == line + CsvWriter.NewLine;
    CsvField.Regroup3(Text(w1), line, CsvWriter.NewLine);
  }

  lemma SameGates(x: Suite, y: Suite)
    requires x.settings == y.settings && x.access == y.access
    requires x.audioRecordingActive == y.audioRecordingActive && x.cameraConnected == y.cameraConnected
    requires x.audioFileRecordingActive == y.audioFileRecordingActive
    ensures Gated(x) == Gated(y)
  {
    assert Conds(x) == Conds(y);
  }

  /** Once the suite is collecting, every gated task survives its launch. */
  lemma LaunchWhileCollecting(x: Suite, y: Suite)
    requires x.isCollecting
    requires x.settings == y.settings && x.access == y.access
    requires x.audioRecordingActive == y.audioRecordingActive && x.cameraConnected == y.cameraConnected
    requires x.audioFileRecordingActive == y.audioFileRecordingActive
    ensures Launch(x) == Gated(y)
  {
    forall t: Task
      ensures t in Launch(x) <==> t in Gated(y)
    {
      assert Gate(x, t) == Gate(y, t);
    }
  }

  /** `StopDataCollection`: refused while idle; otherwise every task ends, the writer stops, collection ends. */
  function StopDataCollection(s: Suite, now: int): (r: Suite)
    ensures !s.isCollecting ==> r == s
    ensures s.isCollecting ==>
      && !r.isCollecting && r.running == {} && !r.writer.isRecording
      && r.total == s.total
      && (s.writer.isRecording && s.writer.stream.Some? ==>
            CsvWriter.Content(r.writer.disk, s.writer.stream.value) == Text(s.writer) && r.writer.buffer == [])
  {
    if !s.isCollecting then s
    else s.(running := {}, writer := CsvWriter.StopRecording(s.writer, now), isCollecting := false)
  }

  // ---------------------------------------------------------------------------
  // Audio segments
  // ---------------------------------------------------------------------------

  /** `audio_<timestamp>_<counter, at least four digits>.wav`. */
  function AudioFileName(timestamp: string, counter: nat): (name: string)
    ensures |name| == |timestamp| + |Decimal.D4(counter)| + 11
    ensures name[..6] == "audio_" && name[|name| - 4..] == ".wav"
    ensures name[6..6 + |timestamp|] == timestamp
    ensures name[7 + |timestamp|..|name| - 4] == Decimal.D4(counter)
  {
    var name := "audio_" + timestamp + "_" + Decimal.D4(counter) + ".wav";
    FiveParts("audio_", timestamp, "_", Decimal.D4(counter), ".wav");
    name
  }

  /** Where each of five joined pieces sits in the result. */
  lemma FiveParts(p1: string, p2: string, p3: string, p4: string, p5: string)
    ensures var j := p1 + p2 + p3 + p4 + p5;
            var o4 := |p1| + |p2| + |p3|;
            && |j| == o4 + |p4| + |p5|
            && j[..|p1|] == p1
            && j[|p1|..|p1| + |p2|] == p2
            && j[o4..o4 + |p4|] == p4
            && j[o4 + |p4|..] == p5
  {
  }

  /** The counter can be read back from a segment name. */
  lemma AudioFileNameCounter(timestamp: string, counter: nat)
    ensures var name := AudioFileName(timestamp, counter);
            Decimal.ParseDigits(name[7 + |timestamp|..|name| - 4]) == counter
  {
    Decimal.D4RoundTrip(counter);
  }

  /** Two segments named from timestamps of the same length share a name only if they share the counter. */
  lemma AudioFileNamesDistinct(t1: string, t2: string, c1: nat, c2: nat)
    requires |t1| == |t2|
    requires AudioFileName(t1, c1) == AudioFileName(t2, c2)
    ensures c1 == c2
  {
    var n := AudioFileName(t1, c1);
    assert n[7 + |t1|..|n| - 4] == Decimal.D4(c1) == Decimal.D4(c2);
    Decimal.D4Injective(c1, c2);
  }

  /**
   * The first half of `RecordAudioSegment`: name the segment after the counter,
   * advance the counter, and log `AUDIO_RECORDING_START` when the clip could be
   * created; the logged row already shows the new name in its recording column.
   */
  function BeginAudioSegment(s: Suite, timestamp: string, clipCreated: bool, rd: Readings, fmt: Format): (r: (string, Suite))
    ensures r.0 == AudioFileName(timestamp, s.audioFileCounter)
    ensures r.1.audioFileCounter == s.audioFileCounter + 1
    ensures r.1.currentAudioFileName == r.0
    ensures !(clipCreated && s.isCollecting) ==> r.1.writer == s.writer && r.1.total == s.total
    ensures r.1 == s.(writer := r.1.writer, total := r.1.total, currentAudioFileName := r.0,
                      audioFileCounter := s.audioFileCounter + 1)
    ensures clipCreated && s.isCollecting ==>
      var row := EventRowOf(r.1, "AUDIO_RECORDING_START", r.0, rd, fmt);
      && r.1.total == s.total + 1
      && Appended(s.writer, r.1.writer, [row])
      && row[EventColumn] == "AUDIO_RECORDING_START" && row[ValueColumn] == r.0
      && row[RecordingColumn] == r.0
  {
    var name := AudioFileName(timestamp, s.audioFileCounter);
    var named := s.(currentAudioFileName := name, audioFileCounter := s.audioFileCounter + 1);
    if clipCreated then
      var logged := LogEvent(named, "AUDIO_RECORDING_START", name, rd, fmt);
      SegmentStartRow(named, logged, name, rd, fmt);
      (name, logged)
    else (name, named)
  }

  /** The row that opens a segment names it in both the Value and the recording column. */
  lemma SegmentStartRow(named: Suite, logged: Suite, name: string, rd: Readings, fmt: Format)
    requires named.currentAudioFileName == name && name != []
    requires logged == named.(writer := logged.writer, total := logged.total)
    ensures var row := EventRowOf(logged, "AUDIO_RECORDING_START", name, rd, fmt);
            && row == EventRowOf(named, "AUDIO_RECORDING_START", name, rd, fmt)
            && row[EventColumn] == "AUDIO_RECORDING_START" && row[ValueColumn] == name
            && row[RecordingColumn] == name
  {
    SameEventRow(logged, named, "AUDIO_RECORDING_START", name, rd, fmt);
    var row := EventRowOf(named, "AUDIO_RECORDING_START", name, rd, fmt);
    assert row[RecordingColumn] == RecordingText(name);
  }

  /** The second half of `RecordAudioSegment`: log `AUDIO_RECORDING_END` for a recorded segment, then clear the name. */
  function EndAudioSegment(s: Suite, name: string, recorded: bool, rd: Readings, fmt: Format): (r: Suite)
    ensures r.currentAudioFileName == "" && r.audioFileCounter == s.audioFileCounter
    ensures !recorded || !s.isCollecting ==> r == s.(currentAudioFileName := "")
    ensures r == s.(writer := r.writer, total := r.total, currentAudioFileName := "")
    ensures recorded && s.isCollecting ==>
      && r.total == s.total + 1
      && Appended(s.writer, r.writer, [EventRowOf(s, "AUDIO_RECORDING_END", name, rd, fmt)])
  {
    var logged := if recorded then LogEvent(s, "AUDIO_RECORDING_END", name, rd, fmt) else s;
    logged.(currentAudioFileName := "")
  }

  /** Consecutive segments carry consecutive counters, so their names differ. */
  lemma SegmentsNamedApart(s: Suite, t1: string, t2: string, ok1: bool, ok2: bool, rd: Readings, fmt: Format)
    requires |t1| == |t2|
    ensures var (n1, s1) := BeginAudioSegment(s, t1, ok1, rd, fmt);
            var (n2, _) := BeginAudioSegment(s1, t2, ok2, rd, fmt);
            n1 != n2
  {
    var (n1, s1) := BeginAudioSegment(s, t1, ok1, rd, fmt);
    var (n2, _) := BeginAudioSegment(s1, t2, ok2, rd, fmt);
    if n1 == n2 {
      AudioFileNamesDistinct(t1, t2, s.audioFileCounter, s1.audioFileCounter);
    }
  }

  // ---------------------------------------------------------------------------
  // Properties across operations
  // ---------------------------------------------------------------------------

  /**
   * After a stop, no task wake-up and no late completion (a saved audio file,
   * say) writes anything or counts anything: the stopped suite is a fixed point.
   */
  lemma {:induction false} NothingAfterStop(s: Suite, now: int, steps: seq<Step>, fmt: Format)
    requires s.isCollecting
    ensures RunSteps(StopDataCollection(s, now), steps, fmt) == StopDataCollection(s, now)
    decreases |steps|
  {
    var stopped := StopDataCollection(s, now);
    if steps != [] {
      assert StepSuite(stopped, steps[0], fmt) == stopped;
      IdleStaysIdle(stopped, steps[1..], fmt);
    }
  }

  lemma {:induction false} IdleStaysIdle(s: Suite, steps: seq<Step>, fmt: Format)
    requires !s.isCollecting && s.running == {}
    ensures RunSteps(s, steps, fmt) == s
    decreases |steps|
  {
    if steps != [] {
      assert StepSuite(s, steps[0], fmt) == s;
      IdleStaysIdle(s, steps[1..], fmt);
    }
  }

  /**
   * The consequence of the start order as written: even with every gate open,
   * the session never gets a data row from any periodic task.
   */
  lemma {:induction false} NoSamplesAfterStart(s: Suite, given: Option<string>, env: CsvWriter.StartEnv,
                                              rd: Readings, fmt: Format, steps: seq<Step>)
    requires StartDataCollection(s, given, env, rd, fmt).0
    requires forall k :: 0 <= k < |steps| ==> !steps[k].Completion?
    ensures var started := StartDataCollection(s, given, env, rd, fmt).1;
            RunSteps(started, steps, fmt) == started
    decreases |steps|
  {
    var started := StartDataCollection(s, given, env, rd, fmt).1;
    TasklessStaysPut(started, steps, fmt);
  }

  lemma {:induction false} TasklessStaysPut(s: Suite, steps: seq<Step>, fmt: Format)
    requires s.running == {}
    requires forall k :: 0 <= k < |steps| ==> !steps[k].Completion?
    ensures RunSteps(s, steps, fmt) == s
    decreases |steps|
  {
    if steps != [] {
      assert StepSuite(s, steps[0], fmt) == s;
      TasklessStaysPut(s, steps[1..], fmt);
    }
  }

  /** With the corrected start, an IMU wake-up right after the start writes one IMU row. */
  lemma ImuSamplesAfterFixedStart(s: Suite, given: Option<string>, env: CsvWriter.StartEnv,
                                  rd: Readings, first: FirstInputs, tick: Readings, fmt: Format)
    requires !s.isCollecting && s.wired && env.directoryOk && env.openOk
    requires s.settings.collectImu
    ensures var started := StartDataCollectionFixed(s, given, env, rd, first, fmt).1;
            var r := StepSuite(started, ImuTick(tick), fmt);
            && r.total == started.total + 1
            && Appended(started.writer, r.writer, [ImuRow(Snap(Ctx(started), tick, fmt), started.currentAudioFileName, fmt)])
  {
    var started := StartDataCollectionFixed(s, given, env, rd, first, fmt).1;
    assert Gate(s, ImuData);
    ImuWake(started, tick, fmt);
  }

  /** A live IMU task wakes into one IMU sample. */
  lemma ImuWake(s: Suite, tick: Readings, fmt: Format)
    requires s.isCollecting && ImuData in s.running
    ensures StepSuite(s, ImuTick(tick), fmt) == ImuSample(s, tick, fmt)
  {
  }
}
