/** The writer of log/log.go as an object whose methods change its fields
    step by step, as `logFile`'s methods do. Each method is proved to
    compute the corresponding function of LogSpec, so everything proved in
    LogProperties holds of the object. The file system, stdout and the
    compression requests are fields too: they are the part of the world the
    writer changes. */
module LogWriter {
  import opened GoTypes
  import opened LogSpec
  import LogProperties

  class LogFile {
    var curFile: Handle
    var fileName: string
    var sizeFlag: bool
    var timeFlag: bool
    var compressFlag: bool
    var filePath: string
    var sizeValue: Int64
    var todayDate: string
    var msgQueue: seq<Bytes>
    var closed: bool
    var cnt: Uint32

    var files: map<string, Bytes>
    var stdout: Bytes
    var compressions: seq<Compression>
    var crashed: bool
    ghost var rotations: seq<Rotation>

    function Conf(): Config
      reads this
    {
      Config(fileName, filePath, sizeFlag, sizeValue, timeFlag, compressFlag)
    }

    ghost function State(): LogSpec.State
      reads this
    {
      LogSpec.State(Conf(), curFile, todayDate, msgQueue, closed, cnt,
                    files, stdout, compressions, rotations, crashed)
    }

    ghost predicate Valid()
      reads this
    {
      Inv(State())
    }

    /** Everything but the configuration. */
    ghost function Rest(): LogSpec.State
      reads this
    {
      State().(conf := Defaults)
    }

    /** One option closure run on the object. */
    method Apply(o: Option)
      modifies this
      ensures Conf() == ApplyOption(old(Conf()), o)
      ensures curFile == old(curFile) && todayDate == old(todayDate) && msgQueue == old(msgQueue)
      ensures closed == old(closed) && cnt == old(cnt) && files == old(files) && stdout == old(stdout)
      ensures compressions == old(compressions) && rotations == old(rotations) && crashed == old(crashed)
    {
      match o
      case LogFileName(name) =>
        fileName := name;
      case LogFilePath(path) =>
        var trimmed := TrimRight(path, Separator);
        filePath := trimmed + [Separator];
      case LogFileSize(size, unit) =>
        sizeFlag := true;
        if unit == "K" {
          sizeValue := Mul64(size, 1024);
        } else if unit == "M" {
          sizeValue := Mul64(Mul64(size, 1024), 1024);
        } else if unit == "G" {
          sizeValue := Mul64(Mul64(Mul64(size, 1024), 1024), 1024);
        } else {
          sizeValue := size;
        }
      case LogFileTime(_) =>
        timeFlag := true;
      case LogFileCompress(enabled) =>
        compressFlag := enabled;
    }

    /** The `for _, o := range options { o(f) }` loop of `NewLogFile`. */
    method ApplyAll(options: seq<Option>)
      modifies this
      ensures Conf() == ApplyOptions(old(Conf()), options)
      ensures Rest() == old(Rest())
    {
      for i := 0 to |options|
        invariant Conf() == ApplyOptions(old(Conf()), options[..i])
        invariant Rest() == old(Rest())
      {
        LogProperties.ApplyOptionsSnoc(old(Conf()), options[..i], options[i]);
        assert options[..i + 1] == options[..i] + [options[i]];
        Apply(options[i]);
      }
      assert options[..|options|] == options;
    }

    /** `NewLogFile(options...)`, on a file system and at a date; the worker
        is not started here but driven through `Step` and `Worker`. */
    constructor (options: seq<Option>, fs: map<string, Bytes>, today: Date, openOk: bool)
      requires ValidDate(today)
      ensures Valid()
      ensures State() == Init(options, fs, today, openOk)
    {
      curFile := NilFile;
      fileName, sizeFlag, timeFlag, closed := "", false, false, false;
      compressFlag, filePath, sizeValue := false, "", 0;
      msgQueue, cnt := [], 0;
      files, stdout, compressions, crashed := fs, [], [], false;
      rotations := [];
      todayDate := "";
      new;
      ApplyAll(options);
      todayDate := IsoDate(today);
      if fileName != "" {
        if openOk {
          files := Open(files, filePath + fileName);
          curFile := OpenFile(filePath + fileName);
        } else {
          curFile := NilFile;
        }
      } else {
        curFile := Stdout;
      }
    }

    /** `Write(p)`: always reports the whole length and no error. */
    method Write(p: Bytes) returns (n: nat, err: Error)
      requires Valid()
      modifies this
      ensures Valid()
      ensures n == |p| && err == Nil
      ensures State() == Enqueue(old(State()), p)
    {
      LogProperties.EnqueueInv(State(), p);
      msgQueue := msgQueue + [p];
      n, err := |p|, Nil;
    }

    /** The first phase of `doRotate`: when `prefile.Stat()` succeeds, set
        `closed`, close the file, bump the counter and rename the active
        file aside. Returns the rotated name, "" when the stat failed. The
        object invariant is restored only once the reopen has run. */
    method CloseAndRenameActive(env: Env) returns (prefileName: string)
      requires ValidDate(env.today)
      modifies this
      ensures prefileName == RotatedAs(old(State()), env)
      ensures State() == CloseAndRename(old(State()), env)
    {
      prefileName := "";
      if StatOk(curFile) {
        var path := filePath + fileName;
        closed := true;
        curFile := ClosedFile;
        cnt := Inc32(cnt);
        prefileName := RotatedName(path, env.today, cnt);
        files := Rename(files, path, prefileName);
        rotations := rotations + [Rotation(env.today, cnt, prefileName)];
      }
    }

    /** `doRotate`, the reopen: only with a non-empty file name. */
    method ReopenActive(env: Env)
      requires ValidDate(env.today)
      modifies this
      ensures State() == Reopen(old(State()), env)
    {
      if fileName != "" {
        if env.openOk {
          files := Open(files, filePath + fileName);
          curFile := OpenFile(filePath + fileName);
        } else {
          curFile := NilFile;
        }
        closed := false;
        todayDate := IsoDate(env.today);
      }
    }

    /** `doRotate`, the last step: the compression request. */
    method RequestCompress(prefileName: string)
      modifies this
      ensures State() == RequestCompression(old(State()), prefileName)
    {
      if compressFlag {
        compressions := compressions + [Compression(prefileName, prefileName + ".gz")];
      }
    }

    /** `doRotate`. */
    method DoRotate(env: Env)
      requires Valid() && ValidDate(env.today)
      modifies this
      ensures Valid()
      ensures State() == Rotate(old(State()), env)
    {
      if curFile != NilFile {
        LogProperties.RotateEffects(State(), env);
      }
      if curFile == NilFile {
        return;
      }
      var prefileName := CloseAndRenameActive(env);
      ReopenActive(env);
      RequestCompress(prefileName);
    }

    /** `f.curFile.WriteString(msg)`: errors are dropped. */
    method WriteString(msg: Bytes)
      requires Valid()
      modifies this
      ensures Valid()
      ensures State() == WriteTo(old(State()), msg)
    {
      LogProperties.WriteToEffects(State(), msg);
      match curFile {
        case OpenFile(path) =>
          if path in files {
            files := files[path := files[path] + msg];
          }
        case Stdout =>
          stdout := stdout + msg;
        case _ =>
      }
    }

    /** The size check of `worker`. */
    method CheckSize(env: Env)
      requires Valid() && ValidDate(env.today)
      modifies this
      ensures Valid()
      ensures State() == SizeCheck(old(State()), env)
    {
      if sizeFlag {
        var path := filePath + fileName;
        if path !in files {
          LogProperties.CrashInv(State());
          crashed := true;
        } else if |files[path]| >= sizeValue {
          DoRotate(env);
        }
      }
    }

    /** The calendar check of `worker`. */
    method CheckTime(env: Env)
      requires Valid() && ValidDate(env.today)
      modifies this
      ensures Valid()
      ensures State() == TimeCheck(old(State()), env)
    {
      if timeFlag && IsoDate(env.today) != todayDate {
        DoRotate(env);
      }
    }

    /** One iteration of `worker`: receive, write, size check, calendar
        check. */
    method Step(env: Env)
      requires Valid() && msgQueue != [] && ValidDate(env.today)
      modifies this
      ensures Valid()
      ensures State() == LogSpec.Step(old(State()), env)
    {
      LogProperties.DequeueInv(State());
      var msg := msgQueue[0];
      msgQueue := msgQueue[1..];
      WriteString(msg);
      CheckSize(env);
      if !crashed {
        CheckTime(env);
      }
    }

    /** The `for f.closed == false` loop of `worker`, one environment per
        received record, until the queue is empty or the environments run
        out. */
    method Worker(envs: seq<Env>)
      requires Valid() && ValidEnvs(envs)
      modifies this
      ensures Valid()
      ensures State() == Drain(old(State()), envs)
    {
      var i := 0;
      while i < |envs| && !closed && !crashed && msgQueue != []
        invariant 0 <= i <= |envs|
        invariant Valid()
        invariant Drain(State(), envs[i..]) == Drain(old(State()), envs)
        decreases |envs| - i
      {
        assert envs[i..][1..] == envs[i + 1..];
        Step(envs[i]);
        i := i + 1;
      }
    }
  }
}
