/**
 * The buffered CSV writer: a recording/not-recording state machine that
 * appends one line per write to an in-memory buffer and moves the buffer to
 * the open file when one of three flush triggers fires (entry count, buffer
 * length, elapsed time). Time is an explicit parameter `now`, counted in
 * milliseconds; the file system is a map from file name to file content.
 */
module CsvWriter {
  import opened Wrappers
  import opened CsvField

  /** The terminator `StringBuilder.AppendLine` adds (the platform's newline on the device). */
  const NewLine: string := "\n"

  datatype Config = Config(bufferSize: int, flushInterval: int, autoFlushTime: int)

  /** Inspector defaults: 8192 characters, every 100 entries, 5 seconds. */
  const Defaults: Config := Config(8192, 100, 5000)

  datatype Writer = Writer(
    config: Config,
    isRecording: bool,
    entryCount: int,
    buffer: string,
    lastFlushTime: int,
    /** Name of the file the stream writer has open; None while the stream writer is null. */
    stream: Option<string>,
    subjectId: Option<string>,
    /** Content of every CSV file created so far, by file name. */
    disk: map<string, string>)

  /** The writer as `Awake`/`InitializeWriter` leave it. */
  function Initial(config: Config, now: int): (w: Writer)
    ensures !w.isRecording && w.stream.None? && w.buffer == [] && w.entryCount == 0
  {
    Writer(config, false, 0, "", now, None, None, map[])
  }

  function Content(disk: map<string, string>, name: string): string {
    if name in disk then disk[name] else ""
  }

  /** Content of the file the stream writer has open (empty when there is none). */
  function OpenContent(w: Writer): string {
    match w.stream
    case None => ""
    case Some(name) => Content(w.disk, name)
  }

  /** Lines as they appear in the text: each followed by its terminator. */
  function Lines(ls: seq<string>): string {
    if ls == [] then "" else Lines(ls[..|ls| - 1]) + ls[|ls| - 1] + NewLine
  }

  /** The states the public operations keep: a stream exactly while recording, and an empty buffer when idle. */
  predicate Valid(w: Writer) {
    && (w.isRecording <==> w.stream.Some?)
    && (!w.isRecording ==> w.buffer == [])
  }

  // ---------------------------------------------------------------------------
  // Flushing
  // ---------------------------------------------------------------------------

  /** `FlushBuffer`: move the whole buffer to the open file, or do nothing. */
  function FlushBuffer(w: Writer, now: int): (r: Writer)
    ensures w.stream.None? || w.buffer == [] ==> r == w
    ensures w.stream.Some? && w.buffer != [] ==>
      && Content(r.disk, w.stream.value) == Content(w.disk, w.stream.value) + w.buffer
      && r.buffer == []
      && r.lastFlushTime == now
    ensures forall name :: (w.stream != Some(name)) ==> Content(r.disk, name) == Content(w.disk, name)
    ensures OpenContent(r) + r.buffer == OpenContent(w) + w.buffer
    ensures r.config == w.config && r.isRecording == w.isRecording && r.entryCount == w.entryCount
    ensures r.stream == w.stream && r.subjectId == w.subjectId
  {
    match w.stream
    case None => w
    case Some(name) =>
      if |w.buffer| == 0 then w
      else w.(disk := w.disk[name := Content(w.disk, name) + w.buffer], buffer := "", lastFlushTime := now)
  }

  /**
   * The flush condition of `WriteLineInternal`, stated on the state BEFORE the
   * line is appended. `entryCount % flushInterval` is evaluated first; with a zero
   * interval it throws inside the try, after the append and the count, so nothing
   * is flushed at all.
   */
  predicate Triggered(w: Writer, line: string, now: int) {
    var c := w.config;
    && c.flushInterval != 0
    && ( || (w.entryCount + 1) % c.flushInterval == 0
         || |w.buffer| + |line| + |NewLine| > c.bufferSize
         || now - w.lastFlushTime > c.autoFlushTime)
  }

  /** `WriteLineInternal`: append one line, count it, flush if a trigger fires. */
  function WriteLineInternal(w: Writer, line: string, now: int): (r: Writer)
    ensures r.entryCount == w.entryCount + 1
    ensures OpenContent(r) + r.buffer == OpenContent(w) + w.buffer + line + NewLine
    ensures Triggered(w, line, now) && w.stream.Some? ==> r.buffer == [] && r.lastFlushTime == now
    ensures !Triggered(w, line, now) ==>
      r.buffer == w.buffer + line + NewLine && r.disk == w.disk && r.lastFlushTime == w.lastFlushTime
    ensures w.stream.Some? ==> (|OpenContent(r)| > |OpenContent(w)| <==> Triggered(w, line, now))
    ensures r.config == w.config && r.isRecording == w.isRecording
    ensures r.stream == w.stream && r.subjectId == w.subjectId
  {
    var appended := w.(buffer := w.buffer + line + NewLine, entryCount := w.entryCount + 1);
    var c := w.config;
    if c.flushInterval == 0 then appended
    else if || appended.entryCount % c.flushInterval == 0
            || |appended.buffer| > c.bufferSize
            || now - appended.lastFlushTime > c.autoFlushTime
    then FlushBuffer(appended, now)
    else appended
  }

  // ---------------------------------------------------------------------------
  // Public writes
  // ---------------------------------------------------------------------------

  /** `WriteHeader`: the names joined by commas, unescaped, as one counted entry. */
  function WriteHeader(w: Writer, headers: seq<string>, now: int): (r: Writer)
    ensures !w.isRecording ==> r == w
    ensures w.isRecording ==>
      && r.entryCount == w.entryCount + 1
      && OpenContent(r) + r.buffer == OpenContent(w) + w.buffer + Join(headers) + NewLine
    ensures r.isRecording == w.isRecording && r.stream == w.stream
  {
    if !w.isRecording then w else WriteLineInternal(w, Join(headers), now)
  }

  /** `WriteDataRow`: every field escaped, joined by commas, appended as one entry. */
  function WriteDataRow(w: Writer, cells: seq<Cell>, now: int): (r: Writer)
    ensures !w.isRecording ==> r == w
    ensures w.isRecording ==>
      && r.entryCount == w.entryCount + 1
      && OpenContent(r) + r.buffer == OpenContent(w) + w.buffer + DataLine(cells) + NewLine
    ensures r.isRecording == w.isRecording && r.stream == w.stream
  {
    if !w.isRecording then w else WriteLineInternal(w, DataLine(cells), now)
  }

  /** `WriteLine`: a pre-formatted line, appended as is. */
  function WriteLine(w: Writer, line: string, now: int): (r: Writer)
    ensures !w.isRecording ==> r == w
    ensures w.isRecording ==>
      && r.entryCount == w.entryCount + 1
      && OpenContent(r) + r.buffer == OpenContent(w) + w.buffer + line + NewLine
    ensures r.isRecording == w.isRecording && r.stream == w.stream
  {
    if !w.isRecording then w else WriteLineInternal(w, line, now)
  }

  /** `Update`, once per frame: flush when recording and the auto-flush time has passed. */
  function Tick(w: Writer, now: int): (r: Writer)
    ensures !(w.isRecording && now - w.lastFlushTime > w.config.autoFlushTime) ==> r == w
    ensures w.isRecording && now - w.lastFlushTime > w.config.autoFlushTime && w.stream.Some? ==>
      r.buffer == [] && (w.buffer != [] ==> r.lastFlushTime == now)
    ensures OpenContent(r) + r.buffer == OpenContent(w) + w.buffer
    ensures r.config == w.config && r.isRecording == w.isRecording && r.entryCount == w.entryCount
    ensures r.stream == w.stream && r.subjectId == w.subjectId
  {
    if w.isRecording && now - w.lastFlushTime > w.config.autoFlushTime then FlushBuffer(w, now) else w
  }

  // ---------------------------------------------------------------------------
  // Session lifecycle
  // ---------------------------------------------------------------------------

  /** `StopRecording`: flush, release the stream, stop. */
  function StopRecording(w: Writer, now: int): (r: Writer)
    ensures !w.isRecording ==> r == w
    ensures !r.isRecording && (w.isRecording ==> r.stream.None?)
    ensures w.isRecording && w.stream.Some? ==>
      r.buffer == [] && Content(r.disk, w.stream.value) == OpenContent(w) + w.buffer
    ensures forall name :: (w.stream != Some(name)) ==> Content(r.disk, name) == Content(w.disk, name)
    ensures r.config == w.config && r.entryCount == w.entryCount && r.subjectId == w.subjectId
  {
    if !w.isRecording then w
    else FlushBuffer(w, now).(stream := None, isRecording := false)
  }

  /** The characters `GenerateSubjectID` draws from. */
  const Alphabet: string := "ABCDEFGHIJKLMNOPQRSTUVWXYZ0123456789"

  /** One result of `random.Next(chars.Length)`. */
  type Draw = d: int | 0 <= d < 36

  /** `GenerateSubjectID`, with the i-th random draw given as `draw(i)`. */
  function GenerateSubjectId(draw: nat -> Draw): (id: string)
    ensures |id| == 6
    ensures forall i :: 0 <= i < 6 ==> id[i] in Alphabet
  {
    seq(6, i requires 0 <= i < 6 => Alphabet[draw(i)])
  }

  function IndexIn(s: string, c: char): (k: nat)
    requires c in s
    ensures k < |s| && s[k] == c
  {
    if s[0] == c then 0 else 1 + IndexIn(s[1..], c)
  }

  /** Every six-character string over the alphabet is a possible generated subject id. */
  lemma SubjectIdReachable(id: string)
    requires |id| == 6
    requires forall i :: 0 <= i < 6 ==> id[i] in Alphabet
    ensures exists draw: nat -> Draw :: GenerateSubjectId(draw) == id
  {
    var draw: nat -> Draw := (i: nat) => if i < 6 then IndexIn(Alphabet, id[i]) as Draw else 0;
    assert GenerateSubjectId(draw) == id;
  }

  /** The subject id a session uses: the given one when non-empty, else a generated one. */
  function ResolveSubjectId(given: Option<string>, draw: nat -> Draw): (id: string)
    ensures given.Some? && given.value != [] ==> id == given.value
    ensures (given.None? || given.value == []) ==> |id| == 6 && forall i :: 0 <= i < 6 ==> id[i] in Alphabet
  {
    if given.Some? && |given.value| > 0 then given.value else GenerateSubjectId(draw)
  }

  /** `SensorData_<id>_<yyyyMMdd_HHmmss>.csv`; the id can be read back from its fixed position. */
  function FileName(id: string, timestamp: string): (name: string)
    ensures |name| == |id| + |timestamp| + 16
    ensures name[..11] == "SensorData_" && name[|name| - 4..] == ".csv"
    ensures |timestamp| == 15 ==> |name| == |id| + 31 && name[11..|name| - 20] == id
    ensures |timestamp| == 15 ==> name[|name| - 19..|name| - 4] == timestamp
  {
    "SensorData_" + id + "_" + timestamp + ".csv"
  }

  /** What `StartRecording` gets from outside: the clock, the formatted date, the random draws, and whether the file system cooperates. */
  datatype StartEnv = StartEnv(
    now: int,
    timestamp: string,
    draw: nat -> Draw,
    directoryOk: bool,
    openOk: bool)

  /**
   * `StartRecording`: stop a running session, resolve the subject id, create the
   * file (FileMode.Create truncates it) and start counting from zero.
   */
  function StartRecording(w: Writer, given: Option<string>, env: StartEnv): (r: (bool, Writer))
    ensures r.0 <==> env.directoryOk && env.openOk
    ensures r.1.subjectId == Some(ResolveSubjectId(given, env.draw))
    ensures !r.0 ==>
      && !r.1.isRecording
      && r.1.stream == StopRecording(w, env.now).stream
      && r.1.disk == StopRecording(w, env.now).disk
    ensures r.0 ==>
      && r.1.isRecording
      && r.1.entryCount == 0
      && r.1.lastFlushTime == env.now
      && r.1.stream == Some(FileName(ResolveSubjectId(given, env.draw), env.timestamp))
      && OpenContent(r.1) == ""
    ensures r.0 ==> forall name :: name != FileName(ResolveSubjectId(given, env.draw), env.timestamp) ==>
      Content(r.1.disk, name) == Content(StopRecording(w, env.now).disk, name)
    ensures r.1.buffer == StopRecording(w, env.now).buffer && r.1.config == w.config
  {
    var stopped := if w.isRecording then StopRecording(w, env.now) else w;
    var id := ResolveSubjectId(given, env.draw);
    var named := stopped.(subjectId := Some(id));
    if !env.directoryOk then (false, named)
    else
      var name := FileName(id, env.timestamp);
      if !env.openOk then (false, named)
      else
        (true, named.(stream := Some(name), disk := named.disk[name := ""],
                      isRecording := true, entryCount := 0, lastFlushTime := env.now))
  }

  // ---------------------------------------------------------------------------
  // Properties across operations
  // ---------------------------------------------------------------------------

  /** Stopping twice is stopping once. */
  lemma StopIdempotent(w: Writer, t1: int, t2: int)
    ensures StopRecording(StopRecording(w, t1), t2) == StopRecording(w, t1)
  {
  }

  /** The operations a session is driven by. */
  datatype Op =
    | Header(names: seq<string>, at: int)
    | Row(cells: seq<Cell>, at: int)
    | Line(text: string, at: int)
    | Frame(at: int)

  function Apply(w: Writer, op: Op): Writer {
    match op
    case Header(names, at) => WriteHeader(w, names, at)
    case Row(cells, at) => WriteDataRow(w, cells, at)
    case Line(text, at) => WriteLine(w, text, at)
    case Frame(at) => Tick(w, at)
  }

  function Run(w: Writer, ops: seq<Op>): Writer
    decreases |ops|
  {
    if ops == [] then w else Run(Apply(w, ops[0]), ops[1..])
  }

  /** The lines a sequence of operations writes while recording, in order. */
  function Written(ops: seq<Op>): seq<string> {
    if ops == [] then []
    else
      (match ops[0]
       case Header(names, _) => [Join(names)]
       case Row(cells, _) => [DataLine(cells)]
       case Line(text, _) => [text]
       case Frame(_) => []) + Written(ops[1..])
  }

  /** The session invariant: file content followed by the buffer is every line written since the start. */
  predicate Logged(w: Writer, ls: seq<string>) {
    w.isRecording && w.stream.Some? && OpenContent(w) + w.buffer == Lines(ls)
  }

  lemma {:induction false} LinesAppend(a: seq<string>, b: seq<string>)
    ensures Lines(a + b) == Lines(a) + Lines(b)
    decreases |b|
  {
    if b == [] {
      assert a + b == a;
    } else {
      var b' := b[..|b| - 1];
      LinesAppend(a, b');
      assert (a + b)[..|a + b| - 1] == a + b';
      assert (a + b)[|a + b| - 1] == b[|b| - 1];
    }
  }

  lemma OneOpKeepsLog(w: Writer, ls: seq<string>, op: Op)
    requires Logged(w, ls)
    ensures Logged(Apply(w, op), ls + Written([op]))
    ensures Apply(w, op).stream == w.stream
  {
    assert [op][1..] == [];
    match op
    case Header(names, _) =>
      LinesAppend(ls, [Join(names)]);
      assert Lines([Join(names)]) == Lines([]) + Join(names) + NewLine;
    case Row(cells, _) =>
      LinesAppend(ls, [DataLine(cells)]);
      assert Lines([DataLine(cells)]) == Lines([]) + DataLine(cells) + NewLine;
    case Line(text, _) =>
      LinesAppend(ls, [text]);
      assert Lines([text]) == Lines([]) + text + NewLine;
    case Frame(_) =>
      assert ls + [] == ls;
  }

  /** Any run of writes and frame ticks keeps the invariant, extending the line log by exactly what was written. */
  lemma {:induction false} RunKeepsLog(w: Writer, ls: seq<string>, ops: seq<Op>)
    requires Logged(w, ls)
    ensures Logged(Run(w, ops), ls + Written(ops))
    ensures Run(w, ops).stream == w.stream
    decreases |ops|
  {
    if ops == [] {
      assert ls + [] == ls;
    } else {
      var w1 := Apply(w, ops[0]);
      OneOpKeepsLog(w, ls, ops[0]);
      RunKeepsLog(w1, ls + Written([ops[0]]), ops[1..]);
      ConsStep(w, ls, ops);
    }
  }

  lemma ConsStep(w: Writer, ls: seq<string>, ops: seq<Op>)
    requires ops != []
    requires Logged(Run(Apply(w, ops[0]), ops[1..]), ls + Written([ops[0]]) + Written(ops[1..]))
    ensures Logged(Run(w, ops), ls + Written(ops))
  {
    WrittenHead(ops);
    assert ls + Written([ops[0]]) + Written(ops[1..]) == ls + Written(ops);
  }

  lemma WrittenHead(ops: seq<Op>)
    requires ops != []
    ensures Written(ops) == Written([ops[0]]) + Written(ops[1..])
  {
    assert [ops[0]][1..] == [];
  }

  /** A successful start opens an empty log. */
  lemma StartOpensEmptyLog(w: Writer, given: Option<string>, env: StartEnv)
    requires Valid(w)
    requires StartRecording(w, given, env).0
    ensures Logged(StartRecording(w, given, env).1, [])
  {
  }

  /** Stopping a logged session leaves exactly the logged lines in its file. */
  lemma StopClosesLog(w: Writer, ls: seq<string>, now: int)
    requires Logged(w, ls)
    ensures var r := StopRecording(w, now);
            Content(r.disk, w.stream.value) == Lines(ls) && r.buffer == [] && !r.isRecording && r.stream.None?
  {
  }

  /**
   * A whole session: after a successful start, any writes and ticks, and a stop,
   * the session's file holds exactly the written lines in order and nothing is
   * left in the buffer.
   */
  lemma SessionFileHoldsEveryLine(w: Writer, given: Option<string>, env: StartEnv, ops: seq<Op>, stopAt: int)
    requires Valid(w)
    requires StartRecording(w, given, env).0
    ensures var started := StartRecording(w, given, env).1;
            var stopped := StopRecording(Run(started, ops), stopAt);
            && Content(stopped.disk, started.stream.value) == Lines(Written(ops))
            && stopped.buffer == []
            && !stopped.isRecording
  {
    var started := StartRecording(w, given, env).1;
    StartOpensEmptyLog(w, given, env);
    RunKeepsLog(started, [], ops);
    assert [] + Written(ops) == Written(ops);
    StopClosesLog(Run(started, ops), Written(ops), stopAt);
  }

  /** Every public operation keeps `Valid`. */
  lemma ValidKept(w: Writer, op: Op, given: Option<string>, env: StartEnv, now: int)
    requires Valid(w)
    ensures Valid(Apply(w, op))
    ensures Valid(StopRecording(w, now))
    ensures Valid(StartRecording(w, given, env).1)
  {
  }
}
