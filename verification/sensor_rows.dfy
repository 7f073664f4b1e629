/**
 * Row assembly of the sensor suite: the fixed 60-column header plus one column
 * per facial blend shape, the "all sensors" snapshot taken for every row, and
 * the builders that lay eye-tracking, IMU, event and audio-event rows onto
 * that one wide schema, filling the columns a row kind does not use with "N/A".
 * Numbers are rendered by an opaque `Format`, so the width and placement
 * properties below are purely about positions.
 */
module SensorRows {
  import opened Wrappers

  datatype Vec3 = Vec3(x: real, y: real, z: real)
  datatype Quat = Quat(x: real, y: real, z: real, w: real)

  /** The default (all-zero) values an unread vector or quaternion keeps. */
  const Zero3: Vec3 := Vec3(0.0, 0.0, 0.0)
  const ZeroQuat: Quat := Quat(0.0, 0.0, 0.0, 0.0)

  /**
   * The numeric renderings the builders use, all outside the model:
   * `ToString("F4")`, `ToString("F2")`, the integer `ToString()` and
   * `Quaternion.eulerAngles`.
   */
  datatype Format = Format(
    f4: real -> string,
    f2: real -> string,
    integer: int -> string,
    euler: Quat -> Vec3)

  const NA: string := "N/A"

  /** The fixed columns, in file order, in the groups the row builders fill. */
  const ContextHeader: seq<string> := ["Timestamp", "StudySelection", "TaskLoad", "PathType", "Event", "Value"]
  const EyeHeader: seq<string> := [
    "Eye", "Openness", "EyeInSkullX", "EyeInSkullY", "PupilDiameter",
    "GazeBehaviorType", "GazeAmplitude", "GazeDirection", "GazeVelocity",
    "GazeOnsetTime", "GazeDuration", "EyeWidthMax", "EyeHeightMax",
    "VergenceX", "VergenceY", "VergenceZ", "FixationConfidence",
    "LeftBlink", "RightBlink", "LeftCenterConfidence", "RightCenterConfidence"]
  const MotionHeader: seq<string> := [
    "AccelX", "AccelY", "AccelZ", "GyroX", "GyroY", "GyroZ",
    "LinearAccelX", "LinearAccelY", "LinearAccelZ", "Pitch", "Yaw", "Roll",
    "CamPosX", "CamPosY", "CamPosZ", "CamPitch", "CamYaw", "CamRoll",
    "CamForwardX", "CamForwardY", "CamForwardZ"]
  const AudioHeader: seq<string> := ["LuxValue", "AudioLevel", "AudioPeak", "AudioRMS", "AudioRecording"]
  const GazePoseHeader: seq<string> := ["GazePosX", "GazePosY", "GazePosZ", "GazeRotX", "GazeRotY", "GazeRotZ", "GazeRotW"]

  const FixedHeader: seq<string> := ContextHeader + EyeHeader + MotionHeader + AudioHeader + GazePoseHeader

  /** Positions of the columns the properties talk about. */
  const EventColumn: nat := 4
  const ValueColumn: nat := 5
  const FirstEyeColumn: nat := 6
  const FirstMotionColumn: nat := 27
  const LuxColumn: nat := 48
  const FirstAudioColumn: nat := 49
  const RecordingColumn: nat := 52
  const FirstGazePoseColumn: nat := 53
  const FixedWidth: nat := 60

  /** The header row names each of those positions as the source does. */
  lemma HeaderNames()
    ensures |FixedHeader| == FixedWidth
    ensures FixedHeader[EventColumn] == "Event" && FixedHeader[ValueColumn] == "Value"
    ensures FixedHeader[FirstEyeColumn] == "Eye" && FixedHeader[FirstMotionColumn] == "AccelX"
    ensures FixedHeader[LuxColumn] == "LuxValue" && FixedHeader[LuxColumn] == FixedHeader[|FixedHeader| - 12]
    ensures FixedHeader[FirstAudioColumn] == "AudioLevel" && FixedHeader[RecordingColumn] == "AudioRecording"
    ensures FixedHeader[FirstGazePoseColumn] == "GazePosX" && FixedHeader[FixedWidth - 1] == "GazeRotW"
  {
    var h := FixedHeader;
    assert h[..6] == ContextHeader;
    assert h[6..27] == EyeHeader;
    assert h[27..48] == MotionHeader;
    assert h[48..53] == AudioHeader;
    assert h[53..] == GazePoseHeader;
  }

  /** `csvHeaders.Concat(GetFacialExpressionHeaders())`. */
  function FullHeader(facialNames: seq<string>): (h: seq<string>)
    ensures |h| == FixedWidth + |facialNames|
    ensures h[..FixedWidth] == FixedHeader && h[FixedWidth..] == facialNames
  {
    FixedHeader + facialNames
  }

  // ---------------------------------------------------------------------------
  // The "all sensors" snapshot
  // ---------------------------------------------------------------------------

  /** `SensorDataFrame`. */
  datatype Snapshot = Snapshot(
    timestamp: string,
    studySelection: string,
    taskLoad: string,
    pathType: string,
    acceleration: Vec3,
    angularVelocity: Vec3,
    linearAcceleration: Vec3,
    attitude: Quat,
    cameraPosition: Vec3,
    cameraRotation: Vec3,
    cameraForward: Vec3,
    luxValue: real,
    facialExpressions: seq<string>)

  /** The capability flags of the platform's permission and device layer, as opaque inputs. */
  datatype Access = Access(
    accelerometer: bool,
    gyroscope: bool,
    linearAcceleration: bool,
    attitude: bool,
    lightSensor: bool,
    facialPermission: bool,
    facialAvailable: bool,
    eyePermission: bool,
    eyeTracker: bool,
    audioPermission: bool,
    cameraPermission: bool)

  /** The inspector's collection switches. */
  datatype Settings = Settings(
    collectEye: bool,
    collectImu: bool,
    collectFacial: bool,
    collectLight: bool,
    collectCamera: bool,
    collectAudio: bool,
    collectVideo: bool,
    recordAudioFiles: bool)

  const DefaultSettings: Settings := Settings(true, true, true, true, true, true, true, true)

  datatype Pose = Pose(position: Vec3, eulerAngles: Vec3, forward: Vec3)
  datatype LightReading = LightReading(enabled: bool, level: real)
  datatype BlendShape = BlendShape(valid: bool, tracked: bool, weight: real)

  /**
   * What the devices report at one instant. A `None` device is one whose
   * `current` is null (for the camera: no main camera); `blendShapes` is None
   * when `GetBlendShapesInfo` throws, else the i-th blend shape's properties.
   */
  datatype Readings = Readings(
    now: int,
    timestamp: string,
    accelerometer: Option<Vec3>,
    gyroscope: Option<Vec3>,
    linearAcceleration: Option<Vec3>,
    attitude: Option<Quat>,
    camera: Option<Pose>,
    light: Option<LightReading>,
    blendShapes: Option<nat -> BlendShape>)

  /** `GetLuxValue`: the light level when the sensor is there and enabled, else -1. */
  function LuxValue(access: Access, rd: Readings): (lux: real)
    ensures lux != -1.0 ==> access.lightSensor && rd.light.Some? && rd.light.value.enabled
    ensures !(access.lightSensor && rd.light.Some? && rd.light.value.enabled) ==> lux == -1.0
  {
    if access.lightSensor && rd.light.Some? && rd.light.value.enabled then rd.light.value.level else -1.0
  }

  function Zeros(n: nat): (z: seq<string>)
    ensures |z| == n && forall i :: 0 <= i < n ==> z[i] == "0"
  {
    seq(n, _ => "0")
  }

  /**
   * The facial columns of a snapshot: a tracked and valid blend shape shows its
   * weight, any other shows "0"; every value is "0" when facial data is off,
   * not permitted, unavailable, not initialised, or the read throws.
   */
  function FacialValues(access: Access, settings: Settings, facialReady: bool, count: nat,
                        rd: Readings, fmt: Format): (f: seq<string>)
    ensures |f| == count
    ensures forall i :: 0 <= i < count ==>
      f[i] == (if && settings.collectFacial && access.facialPermission && access.facialAvailable
                  && facialReady && rd.blendShapes.Some?
                  && rd.blendShapes.value(i).valid && rd.blendShapes.value(i).tracked
               then fmt.f4(rd.blendShapes.value(i).weight) else "0")
  {
    if settings.collectFacial && access.facialPermission && access.facialAvailable && facialReady then
      match rd.blendShapes
      case None => Zeros(count)
      case Some(shape) =>
        seq(count, i requires 0 <= i < count =>
          if shape(i).valid && shape(i).tracked then fmt.f4(shape(i).weight) else "0")
    else Zeros(count)
  }

  function ReadVec(available: bool, v: Option<Vec3>): Vec3 {
    if available && v.Some? then v.value else Zero3
  }

  /**
   * `CollectAllSensorData`: the study context constants, every available device
   * read (an unread vector stays zero), the lux value, and exactly one facial
   * value per blend shape.
   */
  function CollectAllSensorData(access: Access, settings: Settings, facialReady: bool, facialCount: nat,
                                rd: Readings, fmt: Format): (s: Snapshot)
    ensures |s.facialExpressions| == facialCount
    ensures s.timestamp == rd.timestamp
    ensures s.studySelection == "DefaultStudy" && s.taskLoad == "Medium" && s.pathType == "Default"
    ensures s.luxValue == LuxValue(access, rd)
    ensures !(access.accelerometer && rd.accelerometer.Some?) ==> s.acceleration == Zero3
    ensures access.accelerometer && rd.accelerometer.Some? ==> s.acceleration == rd.accelerometer.value
    ensures !(access.gyroscope && rd.gyroscope.Some?) ==> s.angularVelocity == Zero3
    ensures access.gyroscope && rd.gyroscope.Some? ==> s.angularVelocity == rd.gyroscope.value
    ensures !(access.linearAcceleration && rd.linearAcceleration.Some?) ==> s.linearAcceleration == Zero3
    ensures access.linearAcceleration && rd.linearAcceleration.Some? ==> s.linearAcceleration == rd.linearAcceleration.value
    ensures !(access.attitude && rd.attitude.Some?) ==> s.attitude == ZeroQuat
    ensures access.attitude && rd.attitude.Some? ==> s.attitude == rd.attitude.value
    ensures !(settings.collectCamera && rd.camera.Some?) ==>
      s.cameraPosition == Zero3 && s.cameraRotation == Zero3 && s.cameraForward == Zero3
    ensures settings.collectCamera && rd.camera.Some? ==>
      && s.cameraPosition == rd.camera.value.position
      && s.cameraRotation == rd.camera.value.eulerAngles
      && s.cameraForward == rd.camera.value.forward
    ensures s.facialExpressions == FacialValues(access, settings, facialReady, facialCount, rd, fmt)
  {
    var pose := if settings.collectCamera && rd.camera.Some? then rd.camera.value else Pose(Zero3, Zero3, Zero3);
    Snapshot(
      rd.timestamp, "DefaultStudy", "Medium", "Default",
      ReadVec(access.accelerometer, rd.accelerometer),
      ReadVec(access.gyroscope, rd.gyroscope),
      ReadVec(access.linearAcceleration, rd.linearAcceleration),
      if access.attitude && rd.attitude.Some? then rd.attitude.value else ZeroQuat,
      pose.position, pose.eulerAngles, pose.forward,
      LuxValue(access, rd),
      FacialValues(access, settings, facialReady, facialCount, rd, fmt))
  }

  // ---------------------------------------------------------------------------
  // Column groups
  // ---------------------------------------------------------------------------

  function NAs(k: nat): (r: seq<string>)
    ensures |r| == k && forall i :: 0 <= i < k ==> r[i] == NA
  {
    seq(k, _ => NA)
  }

  /** Timestamp, the three study-context columns, Event and Value. */
  function Common(s: Snapshot, event: string, value: string): (r: seq<string>)
    ensures |r| == 6 && r[EventColumn] == event && r[ValueColumn] == value && r[0] == s.timestamp
  {
    [s.timestamp, s.studySelection, s.taskLoad, s.pathType, event, value]
  }

  function F4s(v: Vec3, fmt: Format): (r: seq<string>)
    ensures |r| == 3
  {
    [fmt.f4(v.x), fmt.f4(v.y), fmt.f4(v.z)]
  }

  /** Acceleration, angular velocity, linear acceleration, attitude angles, camera position, rotation and forward. */
  function MotionColumns(s: Snapshot, fmt: Format): (r: seq<string>)
    ensures |r| == 21
  {
    F4s(s.acceleration, fmt) + F4s(s.angularVelocity, fmt) + F4s(s.linearAcceleration, fmt)
    + F4s(fmt.euler(s.attitude), fmt)
    + F4s(s.cameraPosition, fmt) + F4s(s.cameraRotation, fmt) + F4s(s.cameraForward, fmt)
  }

  /** A negative lux value means "no reading". */
  function LuxText(lux: real, fmt: Format): string {
    if lux >= 0.0 then fmt.f2(lux) else NA
  }

  /** The AudioRecording column: the segment being recorded, or "N/A" between segments. */
  function RecordingText(currentAudioFile: string): (t: string)
    ensures currentAudioFile != [] ==> t == currentAudioFile
    ensures currentAudioFile == [] ==> t == NA
  {
    if |currentAudioFile| > 0 then currentAudioFile else NA
  }

  /**
   * The shared tail both `AddSensorDataToRow` variants write after column 26:
   * 21 motion columns, lux, three audio columns, the recording column, seven
   * unused gaze-pose columns, then the facial values.
   */
  function SensorColumns(s: Snapshot, audio: seq<string>, currentAudioFile: string, fmt: Format): (r: seq<string>)
    requires |audio| == 3
    ensures |r| == 33 + |s.facialExpressions|
    ensures r[..21] == MotionColumns(s, fmt)
    ensures r[21] == LuxText(s.luxValue, fmt)
    ensures r[22..25] == audio
    ensures r[25] == RecordingText(currentAudioFile)
    ensures forall i :: 26 <= i < 33 ==> r[i] == NA
    ensures r[33..] == s.facialExpressions
  {
    var r := MotionColumns(s, fmt) + [LuxText(s.luxValue, fmt)] + audio
             + [RecordingText(currentAudioFile)] + NAs(7) + s.facialExpressions;
    assert r[33..] == s.facialExpressions;
    r
  }

  /** `AddSensorDataToRow`: the audio columns are "N/A". */
  function AddSensorDataToRow(s: Snapshot, currentAudioFile: string, fmt: Format): (r: seq<string>)
    ensures |r| == 33 + |s.facialExpressions|
    ensures r[22..25] == NAs(3)
  {
    SensorColumns(s, NAs(3), currentAudioFile, fmt)
  }

  /** `AddSensorDataToRowWithAudio`: level, peak and RMS in the audio columns. */
  function AddSensorDataToRowWithAudio(s: Snapshot, currentAudioFile: string,
                                       level: real, peak: real, rms: real, fmt: Format): (r: seq<string>)
    ensures |r| == 33 + |s.facialExpressions|
    ensures r[22..25] == [fmt.f4(level), fmt.f4(peak), fmt.f4(rms)]
  {
    SensorColumns(s, [fmt.f4(level), fmt.f4(peak), fmt.f4(rms)], currentAudioFile, fmt)
  }

  // ---------------------------------------------------------------------------
  // Eye-tracking inputs
  // ---------------------------------------------------------------------------

  datatype Pupil = Pupil(eye: string, valid: bool, diameter: real)
  datatype Geometric = Geometric(valid: bool, openness: real, eyeInSkullX: real, eyeInSkullY: real)
  datatype GazeBehavior = GazeBehavior(
    valid: bool,
    behaviorType: string,
    amplitude: real,
    direction: real,
    velocity: real,
    onsetTime: int,
    duration: real)
  /** Per-user static eye data: the two fields a gaze row shows. */
  datatype StaticData = StaticData(eyeWidthMax: real, eyeHeightMax: real)

  /** The struct's default value, which the row treats as "no static data". */
  const DefaultStaticData := StaticData(0.0, 0.0)

  /** The 21 eye columns of a gaze row: 13 measured, 8 never filled. */
  function EyeColumns(p: Pupil, g: Geometric, gaze: GazeBehavior, st: StaticData, fmt: Format): (r: seq<string>)
    ensures |r| == 21
    ensures r[0] == p.eye && r[4] == fmt.f4(p.diameter)
    ensures r[1] == fmt.f4(g.openness) && r[2] == fmt.f4(g.eyeInSkullX) && r[3] == fmt.f4(g.eyeInSkullY)
    ensures r[5] == (if gaze.valid then gaze.behaviorType else "Invalid")
    ensures !gaze.valid ==> forall i :: 6 <= i < 11 ==> r[i] == NA
    ensures gaze.valid ==> r[6] == fmt.f4(gaze.amplitude) && r[9] == fmt.integer(gaze.onsetTime)
    ensures gaze.valid ==> r[7] == fmt.f4(gaze.direction) && r[8] == fmt.f4(gaze.velocity)
    ensures gaze.valid ==> r[10] == fmt.f4(gaze.duration)
    ensures st == DefaultStaticData ==> r[11] == NA && r[12] == NA
    ensures st != DefaultStaticData ==> r[11] == fmt.f4(st.eyeWidthMax) && r[12] == fmt.f4(st.eyeHeightMax)
    ensures forall i :: 13 <= i < 21 ==> r[i] == NA
  {
    [ p.eye, fmt.f4(g.openness), fmt.f4(g.eyeInSkullX), fmt.f4(g.eyeInSkullY), fmt.f4(p.diameter),
      if gaze.valid then gaze.behaviorType else "Invalid",
      if gaze.valid then fmt.f4(gaze.amplitude) else NA,
      if gaze.valid then fmt.f4(gaze.direction) else NA,
      if gaze.valid then fmt.f4(gaze.velocity) else NA,
      if gaze.valid then fmt.integer(gaze.onsetTime) else NA,
      if gaze.valid then fmt.f4(gaze.duration) else NA,
      if st != DefaultStaticData then fmt.f4(st.eyeWidthMax) else NA,
      if st != DefaultStaticData then fmt.f4(st.eyeHeightMax) else NA ]
    + NAs(8)
  }

  // ---------------------------------------------------------------------------
  // Rows
  // ---------------------------------------------------------------------------

  /** The layout every row kind shares from column 27 on. */
  predicate SharedTail(r: seq<string>, s: Snapshot, currentAudioFile: string, fmt: Format) {
    && |r| == FixedWidth + |s.facialExpressions|
    && r[FirstMotionColumn..LuxColumn] == MotionColumns(s, fmt)
    && r[RecordingColumn] == RecordingText(currentAudioFile)
    && (forall i :: FirstGazePoseColumn <= i < FixedWidth ==> r[i] == NA)
    && r[FixedWidth..] == s.facialExpressions
  }

  /** Columns 6 to 26 all "N/A": the row is not a gaze sample. */
  predicate NoEyeColumns(r: seq<string>)
    requires |r| >= FirstMotionColumn
  {
    forall i :: FirstEyeColumn <= i < FirstMotionColumn ==> r[i] == NA
  }

  lemma {:induction false} RowParts(a: seq<string>, b: seq<string>, c: seq<string>, s: Snapshot,
                                    currentAudioFile: string, audio: seq<string>, fmt: Format)
    requires |a| == 6 && |b| == 21 && |audio| == 3
    requires c == SensorColumns(s, audio, currentAudioFile, fmt)
    ensures SharedTail(a + b + c, s, currentAudioFile, fmt)
    ensures (a + b + c)[..6] == a && (a + b + c)[6..27] == b
    ensures (a + b + c)[LuxColumn] == LuxText(s.luxValue, fmt)
    ensures (a + b + c)[FirstAudioColumn..RecordingColumn] == audio
  {
    var r := a + b + c;
    assert r[27..] == c;
    assert r[FirstMotionColumn..LuxColumn] == c[..21];
    assert r[FirstAudioColumn..RecordingColumn] == c[22..25];
    assert r[FixedWidth..] == c[33..];
    forall i | FirstGazePoseColumn <= i < FixedWidth
      ensures r[i] == NA
    {
      assert r[i] == c[i - 27];
    }
  }

  /** `CreateEyeTrackingDataRow`. */
  function EyeRow(p: Pupil, g: Geometric, gaze: GazeBehavior, st: StaticData,
                  s: Snapshot, currentAudioFile: string, fmt: Format): (r: seq<string>)
    ensures SharedTail(r, s, currentAudioFile, fmt)
    ensures r[EventColumn] == "PUPIL_DATA" && r[ValueColumn] == ""
    ensures r[FirstEyeColumn..FirstMotionColumn] == EyeColumns(p, g, gaze, st, fmt)
    ensures r[LuxColumn] == LuxText(s.luxValue, fmt)
    ensures r[FirstAudioColumn..RecordingColumn] == NAs(3)
  {
    var a, b, c := Common(s, "PUPIL_DATA", ""), EyeColumns(p, g, gaze, st, fmt), AddSensorDataToRow(s, currentAudioFile, fmt);
    RowParts(a, b, c, s, currentAudioFile, NAs(3), fmt);
    a + b + c
  }

  /** `CreateIMUDataRow`. */
  function ImuRow(s: Snapshot, currentAudioFile: string, fmt: Format): (r: seq<string>)
    ensures SharedTail(r, s, currentAudioFile, fmt)
    ensures r[EventColumn] == "IMU_DATA" && r[ValueColumn] == ""
    ensures NoEyeColumns(r)
    ensures r[LuxColumn] == LuxText(s.luxValue, fmt)
    ensures r[FirstAudioColumn..RecordingColumn] == NAs(3)
  {
    var a, b, c := Common(s, "IMU_DATA", ""), NAs(21), AddSensorDataToRow(s, currentAudioFile, fmt);
    RowParts(a, b, c, s, currentAudioFile, NAs(3), fmt);
    a + b + c
  }
  /**
   * What the devices report reaches an IMU row: the reading time, the
   * accelerometer and gyroscope vectors (zero when unavailable), the lux text
   * and one facial value per blend shape, each in its header column.
   */
  lemma ImuRowShowsReadings(access: Access, settings: Settings, facialReady: bool, count: nat,
                            rd: Readings, currentAudioFile: string, fmt: Format)
    ensures var row := ImuRow(CollectAllSensorData(access, settings, facialReady, count, rd, fmt), currentAudioFile, fmt);
            var acc := ReadVec(access.accelerometer, rd.accelerometer);
            var gyro := ReadVec(access.gyroscope, rd.gyroscope);
            && row[0] == rd.timestamp
            && row[FirstMotionColumn] == fmt.f4(acc.x) && row[FirstMotionColumn + 1] == fmt.f4(acc.y)
            && row[FirstMotionColumn + 2] == fmt.f4(acc.z)
            && row[FirstMotionColumn + 3] == fmt.f4(gyro.x) && row[FirstMotionColumn + 4] == fmt.f4(gyro.y)
            && row[FirstMotionColumn + 5] == fmt.f4(gyro.z)
            && row[LuxColumn] == LuxText(LuxValue(access, rd), fmt)
            && row[FixedWidth..] == FacialValues(access, settings, facialReady, count, rd, fmt)
  {
    var snap := CollectAllSensorData(access, settings, facialReady, count, rd, fmt);
    var row := ImuRow(snap, currentAudioFile, fmt);
    var m := MotionColumns(snap, fmt);
    assert row[FirstMotionColumn..LuxColumn] == m;
    forall k | 0 <= k < 6
      ensures row[FirstMotionColumn + k] == m[k]
    {
      assert row[FirstMotionColumn..LuxColumn][k] == m[k];
    }
    assert m[..6] == F4s(snap.acceleration, fmt) + F4s(snap.angularVelocity, fmt);
  }



  /**
   * The row `LogEvent` writes. For `LUX_READING` the value is written a second
   * time, over the LuxValue column (`csvHeaders.Length - 12`).
   */
  function EventRow(name: string, value: string, s: Snapshot, currentAudioFile: string, fmt: Format): (r: seq<string>)
    ensures SharedTail(r, s, currentAudioFile, fmt)
    ensures r[EventColumn] == name && r[ValueColumn] == value
    ensures NoEyeColumns(r)
    ensures r[LuxColumn] == (if name == "LUX_READING" then value else LuxText(s.luxValue, fmt))
    ensures r[FirstAudioColumn..RecordingColumn] == NAs(3)
  {
    var a, b, c := Common(s, name, value), NAs(21), AddSensorDataToRow(s, currentAudioFile, fmt);
    RowParts(a, b, c, s, currentAudioFile, NAs(3), fmt);
    var row := a + b + c;
    if name == "LUX_READING" then row[LuxColumn := value] else row
  }

  /** The row `LogAudioEvent` writes: the peak in Value, and level, peak and RMS in the audio columns. */
  function AudioEventRow(tag: string, peak: real, rms: real, level: real,
                         s: Snapshot, currentAudioFile: string, fmt: Format): (r: seq<string>)
    ensures SharedTail(r, s, currentAudioFile, fmt)
    ensures r[EventColumn] == tag && r[ValueColumn] == fmt.f4(peak)
    ensures NoEyeColumns(r)
    ensures r[LuxColumn] == LuxText(s.luxValue, fmt)
    ensures r[FirstAudioColumn..RecordingColumn] == [fmt.f4(level), fmt.f4(peak), fmt.f4(rms)]
  {
    var audio := [fmt.f4(level), fmt.f4(peak), fmt.f4(rms)];
    var a, b, c := Common(s, tag, fmt.f4(peak)), NAs(21), AddSensorDataToRowWithAudio(s, currentAudioFile, level, peak, rms, fmt);
    RowParts(a, b, c, s, currentAudioFile, audio, fmt);
    a + b + c
  }

  /**
   * Every row built from a snapshot the suite took is exactly as wide as the
   * header it wrote: 60 fixed columns plus one per blend shape.
   */
  lemma RowWidthMatchesHeader(access: Access, settings: Settings, facialReady: bool, facialNames: seq<string>,
                              rd: Readings, fmt: Format, currentAudioFile: string,
                              p: Pupil, g: Geometric, gaze: GazeBehavior, st: StaticData,
                              name: string, value: string, tag: string, peak: real, rms: real, level: real)
    ensures var s := CollectAllSensorData(access, settings, facialReady, |facialNames|, rd, fmt);
            var width := |FullHeader(facialNames)|;
            && |EyeRow(p, g, gaze, st, s, currentAudioFile, fmt)| == width
            && |ImuRow(s, currentAudioFile, fmt)| == width
            && |EventRow(name, value, s, currentAudioFile, fmt)| == width
            && |AudioEventRow(tag, peak, rms, level, s, currentAudioFile, fmt)| == width
  {
  }

  /** A `LUX_READING` event carries its value both in Value and in LuxValue, whatever the snapshot's own light reading. */
  lemma LuxReadingPlacement(value: string, s: Snapshot, currentAudioFile: string, fmt: Format)
    ensures var r := EventRow("LUX_READING", value, s, currentAudioFile, fmt);
            && r[ValueColumn] == value && r[LuxColumn] == value
            && (forall i :: FirstEyeColumn <= i < FirstMotionColumn ==> r[i] == NA)
  {
  }
}
