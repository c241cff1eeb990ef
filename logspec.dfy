/** A value model of the rotating log-file writer of log/log.go.

    The writer's state is a `State` value; the worker goroutine becomes the
    function `Step` (one message) and `Drain` (the `for f.closed == false`
    loop), rotation becomes `Rotate`. The file system is a map from path to
    contents, the clock and the outcome of `os.OpenFile` are supplied by an
    `Env` per step, and the background compression is a recorded request.
    The imperative class in module LogWriter is proved to compute exactly
    these functions. */
module LogSpec {
  import opened GoTypes
  import opened Digits

  const Separator: char := '/'

  // ---------------------------------------------------------------------------
  // Configuration and the Option constructors
  // ---------------------------------------------------------------------------

  /** The fields of `logFile` that the options assign. */
  datatype Config = Config(
    fileName: string,
    filePath: string,
    sizeFlag: bool,
    sizeValue: Int64,
    timeFlag: bool,
    compressFlag: bool)

  /** The zero values `NewLogFile` starts from. */
  const Defaults: Config := Config("", "", false, 0, false, false)

  /** One `Option` closure, named after the constructor that builds it. */
  datatype Option =
    | LogFileName(name: string)
    | LogFilePath(path: string)
    | LogFileSize(size: Int64, unit: string)
    | LogFileTime(flag: bool)
    | LogFileCompress(enabled: bool)

  /** The part of the configuration an option assigns. */
  datatype Field = NameField | PathField | SizeField | TimeField | CompressField

  function FieldOf(o: Option): Field {
    match o
    case LogFileName(_) => NameField
    case LogFilePath(_) => PathField
    case LogFileSize(_, _) => SizeField
    case LogFileTime(_) => TimeField
    case LogFileCompress(_) => CompressField
  }

  /** Two configurations agree on a field. */
  predicate Agree(a: Config, b: Config, f: Field) {
    match f
    case NameField => a.fileName == b.fileName
    case PathField => a.filePath == b.filePath
    case SizeField => a.sizeFlag == b.sizeFlag && a.sizeValue == b.sizeValue
    case TimeField => a.timeFlag == b.timeFlag
    case CompressField => a.compressFlag == b.compressFlag
  }

  /** The byte count a unit letter of `LogFileSize` stands for. */
  function UnitMultiplier(unit: string): nat {
    if unit == "K" then 1024
    else if unit == "M" then 1024 * 1024
    else if unit == "G" then 1024 * 1024 * 1024
    else 1
  }

  /** The threshold `LogFileSize(size, unit)` stores, computed as the source
      does: `int64(size) * 1024 ...`, each product wrapping at 64 bits. */
  function SizeValue(size: Int64, unit: string): Int64 {
    if unit == "K" then Mul64(size, 1024)
    else if unit == "M" then Mul64(Mul64(size, 1024), 1024)
    else if unit == "G" then Mul64(Mul64(Mul64(size, 1024), 1024), 1024)
    else size
  }

  /** `strings.TrimRight(s, string(c))`: drop every trailing `c`. */
  function TrimRight(s: string, c: char): (r: string)
    ensures r <= s
    ensures r == [] || r[|r| - 1] != c
    ensures forall i :: |r| <= i < |s| ==> s[i] == c
  {
    if s != [] && s[|s| - 1] == c then TrimRight(s[..|s| - 1], c) else s
  }

  /** The directory `LogFilePath(path)` stores: trailing separators trimmed,
      then exactly one separator appended (`filepath.Abs` is taken to be the
      identity on the trimmed path). */
  function DirPath(path: string): string {
    TrimRight(path, Separator) + [Separator]
  }

  /** Running one option closure on the configuration. */
  function ApplyOption(c: Config, o: Option): (r: Config)
    ensures forall f :: f != FieldOf(o) ==> Agree(r, c, f)
  {
    match o
    case LogFileName(name) => c.(fileName := name)
    case LogFilePath(path) => c.(filePath := DirPath(path))
    case LogFileSize(size, unit) => c.(sizeFlag := true, sizeValue := SizeValue(size, unit))
    case LogFileTime(_) => c.(timeFlag := true)
    case LogFileCompress(enabled) => c.(compressFlag := enabled)
  }

  /** Running the options in argument order, as the `range` loop of
      `NewLogFile` does. */
  function ApplyOptions(c: Config, options: seq<Option>): Config
    decreases |options|
  {
    if options == [] then c else ApplyOptions(ApplyOption(c, options[0]), options[1..])
  }

  // ---------------------------------------------------------------------------
  // Dates and file names
  // ---------------------------------------------------------------------------

  /** The calendar date `time.Now().Date()` reports. */
  datatype Date = Date(year: int, month: int, day: int)

  predicate ValidDate(d: Date) {
    0 <= d.year <= 9999 && 1 <= d.month <= 12 && 1 <= d.day <= 31
  }

  /** `Format("2006-01-02")`: the ISO 8601 calendar date `YYYY-MM-DD`. */
  function IsoDate(d: Date): (r: string)
    requires ValidDate(d)
    ensures |r| == 10
  {
    Padded(d.year, 4) + "-" + Padded(d.month, 2) + "-" + Padded(d.day, 2)
  }

  /** `fmt.Sprintf("%.4d%.2d%.2d", y, m, d)`. */
  function CompactDate(d: Date): (r: string)
    requires ValidDate(d)
    ensures |r| == 8
  {
    Padded(d.year, 4) + Padded(d.month, 2) + Padded(d.day, 2)
  }

  /** The name a rotation renames the active file to:
      `active + "." + YYYYMMDD + decimal(cnt)`. */
  function RotatedName(active: string, d: Date, cnt: nat): string
    requires ValidDate(d)
  {
    active + "." + CompactDate(d) + Decimal(cnt)
  }

  // ---------------------------------------------------------------------------
  // Writer state
  // ---------------------------------------------------------------------------

  /** What `curFile` holds: nil (a failed open), `os.Stdout`, an open file at
      a path, or a file that has been closed. */
  datatype Handle = NilFile | Stdout | OpenFile(path: string) | ClosedFile

  /** `(*os.File).Stat()` succeeds on an open handle and fails on a closed one. */
  predicate StatOk(h: Handle) {
    h.Stdout? || h.OpenFile?
  }

  /** One rotation whose stat succeeded: the date and counter used, and the
      name the active file was renamed to. With an empty file name the
      rename finds no file and changes nothing. */
  datatype Rotation = Rotation(date: Date, cnt: Uint32, name: string)

  /** One `go f.compressFile(src, dst)` request. */
  datatype Compression = Compression(src: string, dst: string)

  /** What the environment supplies to a worker step: today's date and
      whether `os.OpenFile` succeeds. */
  datatype Env = Env(today: Date, openOk: bool)

  datatype State = State(
    conf: Config,
    curFile: Handle,
    todayDate: string,
    queue: seq<Bytes>,
    closed: bool,
    cnt: Uint32,
    files: map<string, Bytes>,
    stdout: Bytes,
    compressions: seq<Compression>,
    rotations: seq<Rotation>,
    crashed: bool)

  /** The path `filePath + fileName` of the active log file. */
  function Active(s: State): string {
    s.conf.filePath + s.conf.fileName
  }

  /** The worker loop continues while `closed` is false and the process has
      not died. */
  predicate Running(s: State) {
    !s.closed && !s.crashed
  }

  /** `os.OpenFile(path, O_WRONLY|O_CREATE|O_APPEND)`: creates an empty file
      if there is none, keeps the contents of one that exists, and touches
      no other path. */
  function Open(files: map<string, Bytes>, path: string): (r: map<string, Bytes>)
    ensures path in r && r[path] == (if path in files then files[path] else [])
    ensures forall p :: p != path ==> (p in r <==> p in files)
    ensures forall p :: p != path && p in files ==> r[p] == files[p]
  {
    if path in files then files else files[path := []]
  }

  /** `os.Rename(from, to)`: fails, changing nothing, when `from` is missing;
      replaces `to` otherwise. */
  function Rename(files: map<string, Bytes>, from: string, to: string): (r: map<string, Bytes>)
    ensures from in files && from != to ==> from !in r && to in r && r[to] == files[from]
    ensures from in files ==> forall p :: p != from && p != to ==> (p in r <==> p in files)
    ensures forall p :: p != from && p != to && p in files ==> p in r && r[p] == files[p]
    ensures from !in files ==> r == files
  {
    if from in files then (files - {from})[to := files[from]] else files
  }

  /** The invariant every reachable state keeps. */
  ghost predicate Inv(s: State) {
    && (s.curFile.OpenFile? ==> s.conf.fileName != "" && s.curFile.path == Active(s) && Active(s) in s.files)
    && (s.curFile.Stdout? ==> s.conf.fileName == "")
    && (s.conf.fileName != "" ==> s.curFile.OpenFile? || s.curFile.NilFile?)
    && (s.closed <==> s.curFile.ClosedFile?)
    && (s.curFile.ClosedFile? ==> s.conf.fileName == "")
    && History(s)
  }

  /** The counter counts the rotations, and each rotation is recorded with
      the counter value and the name it used. */
  ghost predicate History(s: State) {
    && s.cnt == |s.rotations| % TwoTo32
    && forall i :: 0 <= i < |s.rotations| ==> RotationAt(s, i)
  }

  /** The i-th rotation used counter value i + 1 (wrapping at 32 bits) and
      named the active file after it. */
  ghost predicate RotationAt(s: State, i: nat)
    requires i < |s.rotations|
  {
    var r := s.rotations[i];
    ValidDate(r.date) && r.cnt == (i + 1) % TwoTo32 && r.name == RotatedName(Active(s), r.date, r.cnt)
  }

  // ---------------------------------------------------------------------------
  // Operations
  // ---------------------------------------------------------------------------

  /** `NewLogFile(options...)` on a file system, at a date: the zero values,
      then the options, then the date stamp and the first open. */
  function Init(options: seq<Option>, files: map<string, Bytes>, today: Date, openOk: bool): (s: State)
    requires ValidDate(today)
    ensures Inv(s) && Running(s)
    ensures s.conf == ApplyOptions(Defaults, options)
    ensures s.queue == [] && s.cnt == 0 && s.rotations == [] && s.todayDate == IsoDate(today)
    ensures s.conf.fileName == "" ==> s.curFile == Stdout
    ensures s.conf.fileName != "" && openOk ==> s.curFile == OpenFile(Active(s)) && Active(s) in s.files
  {
    var conf := ApplyOptions(Defaults, options);
    var path := conf.filePath + conf.fileName;
    State(
      conf,
      if conf.fileName == "" then Stdout else if openOk then OpenFile(path) else NilFile,
      IsoDate(today),
      [],
      false,
      0,
      if conf.fileName != "" && openOk then Open(files, path) else files,
      [],
      [],
      [],
      false)
  }

  /** `Write(p)`: the record goes to the tail of the queue. */
  function Enqueue(s: State, p: Bytes): State {
    s.(queue := s.queue + [p])
  }

  /** `f.curFile.WriteString(msg)`; errors (nil or closed handle) are dropped. */
  function WriteTo(s: State, msg: Bytes): State {
    match s.curFile
    case OpenFile(path) =>
      if path in s.files then s.(files := s.files[path := s.files[path] + msg]) else s
    case Stdout => s.(stdout := s.stdout + msg)
    case _ => s
  }

  /** The name `doRotate` renames to: "" unless the stat succeeds. */
  function RotatedAs(s: State, env: Env): string
    requires ValidDate(env.today)
  {
    if StatOk(s.curFile) then RotatedName(Active(s), env.today, Inc32(s.cnt)) else ""
  }

  /** The first half of `doRotate`: when the stat succeeds, mark `closed`,
      close the handle, bump the counter and rename the active file. */
  function CloseAndRename(s: State, env: Env): State
    requires ValidDate(env.today)
  {
    if StatOk(s.curFile) then
      var c := Inc32(s.cnt);
      var name := RotatedName(Active(s), env.today, c);
      s.(closed := true, curFile := ClosedFile, cnt := c,
         files := Rename(s.files, Active(s), name),
         rotations := s.rotations + [Rotation(env.today, c, name)])
    else s
  }

  /** The second half: with a file name, reopen the active path, clear
      `closed` and stamp today's date. */
  function Reopen(s: State, env: Env): State
    requires ValidDate(env.today)
  {
    if s.conf.fileName != "" then
      s.(files := if env.openOk then Open(s.files, Active(s)) else s.files,
         curFile := if env.openOk then OpenFile(Active(s)) else NilFile,
         closed := false,
         todayDate := IsoDate(env.today))
    else s
  }

  /** `go f.compressFile(name, name + ".gz")` when compression is on. */
  function RequestCompression(s: State, name: string): State {
    if s.conf.compressFlag then s.(compressions := s.compressions + [Compression(name, name + ".gz")]) else s
  }

  /** `doRotate`: nothing at all when `curFile` is nil. */
  function Rotate(s: State, env: Env): State
    requires ValidDate(env.today)
  {
    if s.curFile.NilFile? then s
    else RequestCompression(Reopen(CloseAndRename(s, env), env), RotatedAs(s, env))
  }

  /** The size check after a write: stat the active path, rotate when it has
      reached the threshold. A failed stat leaves `curInfo` nil, and the
      dereference kills the process. */
  function SizeCheck(s: State, env: Env): State
    requires ValidDate(env.today)
  {
    if !s.conf.sizeFlag then s
    else if Active(s) !in s.files then s.(crashed := true)
    else if |s.files[Active(s)]| >= s.conf.sizeValue then Rotate(s, env)
    else s
  }

  /** The calendar check: rotate when today's date differs from `todayDate`. */
  function TimeCheck(s: State, env: Env): State
    requires ValidDate(env.today)
  {
    if s.conf.timeFlag && IsoDate(env.today) != s.todayDate then Rotate(s, env) else s
  }

  /** The two checks after a write. The panic of a failed stat in the size
      check ends the process before the calendar check. */
  function Checks(s: State, env: Env): State
    requires ValidDate(env.today)
  {
    var sized := SizeCheck(s, env);
    if sized.crashed then sized else TimeCheck(sized, env)
  }

  /** One iteration of the worker loop: dequeue, write, size check, calendar
      check. */
  function Step(s: State, env: Env): State
    requires s.queue != [] && ValidDate(env.today)
  {
    Checks(WriteTo(s.(queue := s.queue[1..]), s.queue[0]), env)
  }

  predicate ValidEnvs(envs: seq<Env>) {
    forall i :: 0 <= i < |envs| ==> ValidDate(envs[i].today)
  }

  /** The worker loop, one environment per message, until the queue is empty
      (the receive would block), the environments run out, or the loop ends. */
  function Drain(s: State, envs: seq<Env>): State
    requires ValidEnvs(envs)
    decreases |envs|
  {
    if envs == [] || !Running(s) || s.queue == [] then s
    else Drain(Step(s, envs[0]), envs[1..])
  }

  /** The records concatenated in order. */
  function Concat(msgs: seq<Bytes>): Bytes {
    if msgs == [] then [] else msgs[0] + Concat(msgs[1..])
  }
}
