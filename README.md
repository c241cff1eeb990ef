# Rotating log writer and cache-aside helpers, modelled in Dafny

This project models two sequential cores of the dayan-be/golibs Go
repository and proves properties of the models.

**The rotating log-file writer (`log/log.go`).** A `logFile` is built by
`NewLogFile` from `Option` closures (`LogFileName`, `LogFilePath`,
`LogFileSize`, `LogFileTime`, `LogFileCompress`). Its `Write` enqueues a
record and always reports the whole length with a nil error. A worker
takes records from the head of the queue and appends each one to the
active file `filePath + fileName`. After each write it runs two checks:

- the size check: the file has reached `sizeValue` bytes;
- the calendar check: today's `YYYY-MM-DD` differs from `todayDate`.

Either check calls `doRotate`. It closes the file, increments the `uint32`
counter `cnt`, and renames the file to
`filePath + fileName + "." + YYYYMMDD + cnt`. With a non-empty file name it
then reopens the active path and stores today's date. When compression is
on, it requests compression of the rotated name into `name + ".gz"`.

- `LogSpec` (logspec.dfy) is the model as values. It defines the
  configuration, the option table, the date and name formats, the writer
  `State`, and the functions `Init`, `Enqueue`, `Rotate`, `Step` (one worker
  iteration) and `Drain` (the worker loop).
- `LogSpec.Inv` is the invariant that every reachable state keeps.
- `LogWriter.LogFile` (logfile.dfy) is the imperative object. Its fields are
  those of `logFile`, and its methods change them step by step. Each method
  is proved to compute the matching `LogSpec` function.
- `LogProperties` (logprops.dfy) proves the writer's properties about
  `LogSpec`.
- `Digits` (digits.dfy) models `fmt`'s `%.Nd` and `strconv.FormatInt`, with
  readers that prove both formats injective.
- `GoTypes` (gotypes.dfy) models Go's `int64` and `uint32` wrap-around and the
  `error` value.

The file system is a map from path to contents. Each worker step takes an
`Env` with two fields: the date the clock reports, and whether
`os.OpenFile` succeeds. Standard output is a byte sequence. Compression is
a recorded request. The state also keeps a history of the rotations whose
stat succeeded, each with the date, the counter and the name it used. With
an empty file name the active path is the directory itself, so nothing is
actually renamed, but the counter still advances and the rotation is still
recorded. The uniqueness of the rotated names is stated over that history.

**The cache-aside helpers (`etcd-util/util.go`)**, in module `EtcdUtil`
(etcdutil.dfy). `GetWithCacheAndOpts` answers from the shared cache when it
can. On a miss it asks the remote store and caches the answer, or the
default value when the store has nothing. `SetWithOptions` writes the
value to the cache only after the store accepted it. Client
initialisation is an input error. When it fails, both `GetWithOptions` and
`SetWithOptions` return at once. The store's answer is an input datatype,
the cache is a `map<string,string>` field of class `Util`, and its methods
are proved against the functions `Lookup`, `LookupWithClient` and `Store`.

In places the code behaves differently from what a reader might expect.
There the model follows the code:

- `LogFileTime(flag)` enables calendar rotation whatever `flag` is.
- The stat in `doRotate` fails only on a closed handle. A closed handle
  remains only with an empty file name: it is the stdout handle that an
  earlier rotation in the same iteration closed. Such a rotation renames
  and reopens nothing, leaves `closed` true and `todayDate` unchanged, and
  with compression on it still requests compression of the name `""`.
- The calendar check runs after the record is written. So the first
  record of a new day still goes into the file that is then rotated. That
  file's name carries the new day's digits.
- The counter is a `uint32`. It comes round to 0 after 2^32 rotations, so
  names are proved unique for at most 2^32 rotations.
- `SetWithOptions` returns `("", nil)` when the store returns no response
  and no error.
- `SetWithOptions` caches the value that was sent but returns the value in
  the store's node.

## Model

| member | source | states |
|---|---|---|
| `GoTypes.Wrap64` | log/log.go:115-121 | truncation to int64 differs from the exact value by a multiple of 2^64 and is the identity in range |
| `GoTypes.WrapMul` | log/log.go:115-119 | truncating an intermediate product leaves the truncated final product unchanged, so Go's chained int64 products equal one truncation of the exact product |
| `GoTypes.Inc32` | log/log.go:171 | `cnt++` on a uint32 adds one below 2^32 - 1 and wraps to 0 there |
| `Digits.Padded` | log/log.go:172 | `%.Nd` of a number below 10^N is exactly N decimal digits |
| `Digits.Decimal` | log/log.go:172 | `strconv.FormatInt(n, 10)` is a non-empty digit string without a leading zero |
| `Digits.PaddedValue` | log/log.go:172 | reading a zero-padded field back gives the number |
| `Digits.DecimalValue` | log/log.go:172 | reading the decimal form back gives the number |
| `Digits.PaddedInjective` | log/log.go:172 | two numbers have the same padded form exactly when they are equal |
| `Digits.DecimalInjective` | log/log.go:172 | two counters have the same decimal form exactly when they are equal |
| `LogSpec.TrimRight` | log/log.go:102 | the result is a prefix of the input, does not end in the separator, and only separators were dropped |
| `LogSpec.ApplyOption` | log/log.go:92-137 | an option closure leaves every field other than its own unchanged |
| `LogSpec.IsoDate` | log/log.go:185 | `Format("2006-01-02")` is a 10-character string |
| `LogSpec.CompactDate` | log/log.go:172 | `%.4d%.2d%.2d` is exactly 8 characters |
| `LogSpec.Rename` | log/log.go:173 | rename moves the contents to the new name and removes the old one; every other file keeps its presence and contents; with the source missing nothing changes |
| `LogSpec.Init` | log/log.go:53-89 | the state is the defaults with the options applied in order, an empty queue, `cnt` 0, `closed` false and today's date; an empty file name selects stdout; the invariant holds |
| `LogProperties.SizeValueMeaning` | log/log.go:109-123 | `LogFileSize` stores size x 1024, 1024^2 or 1024^3 for K, M, G and the plain size otherwise, wrapped to int64; without overflow it is the exact product |
| `LogProperties.OptionEffects` | log/log.go:92-137 | each option sets its field; `LogFileTime` sets `timeFlag` whatever its argument; `LogFileCompress` sets exactly its argument; `LogFilePath` stores the trimmed path plus one separator |
| `LogProperties.ApplyOptionsAppend` | log/log.go:64-66 | applying two option lists in turn equals applying their concatenation |
| `LogProperties.ApplyOptionsSnoc` | log/log.go:64-66 | options are applied left to right: the last option runs on the result of the others |
| `LogProperties.UntouchedField` | log/log.go:64-66 | options that assign other fields leave a field as it was |
| `LogProperties.LastOptionWins` | log/log.go:64-66 | a field holds what the last option assigning it stored |
| `LogProperties.NewLogFileDefaults` | log/log.go:55-84 | with no options, both triggers are off, compression is off, `closed` is false, `cnt` is 0 and output goes to stdout |
| `LogProperties.IsoDateInjective` | log/log.go:204-206 | two valid dates have the same `YYYY-MM-DD` string exactly when they are equal |
| `LogProperties.RotatedNameTail` | log/log.go:172 | the date part of a rotated name has fixed width, so the counter can be read back from the name's tail |
| `LogProperties.RotatedNamesDistinct` | log/log.go:170-173 | rotations with different counter values get different names, whatever their dates |
| `LogProperties.CounterValuesDistinct` | log/log.go:171 | the first 2^32 counter values after increment are pairwise distinct |
| `LogProperties.UniqueRotatedNames` | log/log.go:170-173 | no two rotations of the process produce the same name, up to 2^32 rotations |
| `LogProperties.RotateNilFile` | log/log.go:156-159 | `doRotate` with a nil `curFile` changes nothing and requests no compression |
| `LogProperties.RotatedNameIsNew` | log/log.go:172-173 | the rotated name differs from the active path |
| `LogProperties.RotateEffects` | log/log.go:160-191 | a successful stat bumps `cnt` by exactly 1 and renames the active file to the rotated name, keeping its contents; with a file name the writer reopens an empty active file, clears `closed` and stores today; with an empty name `closed` stays true; compression of the rotated name is requested exactly when enabled; the invariant is kept |
| `LogProperties.RotateFrame` | log/log.go:160-191 | `doRotate` touches only the active path and the rotated name; every other file, earlier rotated files included, keeps its presence and contents |
| `LogProperties.RotateInv` | log/log.go:156-191 | `doRotate` on a non-nil handle keeps the invariant |
| `LogProperties.CloseAndRenameHistory` | log/log.go:162-174 | the close-and-rename phase records the rotation with the incremented counter and the name it used, so the history stays consistent |
| `LogProperties.FailedStatRotation` | log/log.go:160-191 | a rotation whose stat fails happens only with an empty file name; it leaves `closed` true, the handle, `todayDate`, the counter and the files unchanged, and requests compression of `""` exactly when compression is on |
| `LogProperties.EmptyNameRotationRenamesNothing` | log/log.go:162-174 | with an empty file name the rename of the directory path finds no file and changes nothing, yet the counter advances by one and the rotation is recorded with its name |
| `LogProperties.EmptyNameRotationEndsWorker` | log/log.go:165-195 | with an empty file name a rotation leaves `closed` true, so the worker loop ends |
| `LogProperties.WriteToEffects` | log/log.go:197 | a record goes to the end of the active file, or to stdout for an empty name; a nil or closed handle drops it |
| `LogProperties.EnqueueInv` | log/log.go:140-144 | `Write` keeps the invariant |
| `LogProperties.DequeueInv` | log/log.go:196 | taking the head record keeps the invariant |
| `LogProperties.CrashInv` | log/log.go:199-200 | the failed-stat panic keeps the invariant |
| `LogProperties.StepEffects` | log/log.go:195-209 | a worker step keeps the invariant, consumes the head record, performs at most one rotation and only extends the history; after a rotation with a file name `todayDate` is today |
| `LogProperties.StepFiles` | log/log.go:195-209 | after a step the files are those after the write, or those after one rotation of the written state |
| `LogProperties.StepFrame` | log/log.go:195-209 | a step changes at most the active file and the name its rotation uses; every other file, earlier rotated files included, keeps its presence and contents |
| `LogProperties.DrainInv` | log/log.go:194-210 | the invariant holds after any run of the worker loop |
| `LogProperties.SizeTrigger` | log/log.go:198-203 | with the calendar check idle, a step rotates exactly when `sizeFlag` is set and the file with the new record has at least `sizeValue` bytes; the rotated file holds everything written and the reopened active file is empty |
| `LogProperties.CalendarTrigger` | log/log.go:198-208 | when the size check does not fire (off, or under the threshold), a step rotates exactly when `timeFlag` is set and the date differs from the stored one; the record just written is in the rotated file, named with the new date |
| `LogProperties.StepTriggers` | log/log.go:195-209 | with both checks as configured, a step on an open file rotates exactly when the size check or the calendar check fires, and then once, with counter `cnt + 1` and today's date; the rotated file holds everything written and today's date is stored; otherwise the record is only appended |
| `LogProperties.CloseAndRenameIgnoresQueue` | log/log.go:160-174 | the close-and-rename phase neither reads nor changes the queue |
| `LogProperties.ReopenIgnoresQueue` | log/log.go:176-187 | the reopen phase neither reads nor changes the queue |
| `LogProperties.RotateIgnoresQueue` | log/log.go:147-192 | `doRotate` neither reads nor changes the queue |
| `LogProperties.WriteToIgnoresQueue` | log/log.go:197 | writing a record neither reads nor changes the queue |
| `LogProperties.ChecksIgnoreQueue` | log/log.go:198-208 | the two rotation checks neither read nor change the queue |
| `LogProperties.ChecksIgnoreQueueTogether` | log/log.go:198-208 | the size check followed by the calendar check, skipped after the panic, neither reads nor changes the queue |
| `LogProperties.EnqueueStepCommute` | log/log.go:140-197 | a `Write` at the tail does not change what the step on the head record does |
| `LogProperties.QuietStep` | log/log.go:196-208 | a step whose checks do not fire only dequeues the record and appends it to the active file |
| `LogProperties.DrainAppendsInOrder` | log/log.go:194-210 | while the size stays under the threshold and the date stays the stored one, the active file becomes its old contents followed by the processed records in enqueue order |
| `LogProperties.ScenarioConfig` | log/log.go:92-123 | the options name, path "/var/log" and size 10 with an unknown unit give the configuration "app.log", "/var/log/", a 10-byte threshold |
| `LogProperties.ScenarioName` | log/log.go:172 | the first rotation on 2026-10-14 is named "/var/log/app.log.202610141" |
| `LogProperties.ScenarioStart` | log/log.go:53-89 | after `NewLogFile` with those options and two `Write` calls, the writer holds an open empty "/var/log/app.log", both records queued, and the invariant |
| `LogProperties.HelloWorldScenario` | log/log.go:194-210 | with a 10-byte threshold, "hello" then "world!" rotates once, the rotated file holds "helloworld!" and the active file is empty |
| `LogWriter.LogFile.Apply` | log/log.go:92-137 | running an option closure on the object changes its configuration as `ApplyOption` says and nothing else |
| `LogWriter.LogFile.ApplyAll` | log/log.go:64-66 | the `range` loop over the options leaves the configuration `ApplyOptions` of the old one, and nothing else changed |
| `LogWriter.LogFile.constructor` | log/log.go:53-89 | `NewLogFile`'s loop over the options and its first open produce `Init`'s state, which satisfies the object invariant |
| `LogWriter.LogFile.Write` | log/log.go:140-144 | returns the record's length and a nil error, appends the record to the queue tail, and keeps the object invariant |
| `LogWriter.LogFile.CloseAndRenameActive` | log/log.go:160-174 | the stat, close, counter bump and rename phase of `doRotate`, returning the rotated name; the object invariant is restored only after the reopen |
| `LogWriter.LogFile.ReopenActive` | log/log.go:176-187 | the reopen phase of `doRotate` |
| `LogWriter.LogFile.RequestCompress` | log/log.go:189-191 | the compression request phase of `doRotate` |
| `LogWriter.LogFile.DoRotate` | log/log.go:147-192 | the object's new state is `Rotate` of its old state, keeping the object invariant |
| `LogWriter.LogFile.WriteString` | log/log.go:197 | the object's new state is `WriteTo` of its old state, keeping the object invariant |
| `LogWriter.LogFile.CheckSize` | log/log.go:198-203 | the object's new state is `SizeCheck` of its old state, keeping the object invariant |
| `LogWriter.LogFile.CheckTime` | log/log.go:204-208 | the object's new state is `TimeCheck` of its old state, keeping the object invariant |
| `LogWriter.LogFile.Step` | log/log.go:195-209 | one loop iteration leaves the object in `Step` of its old state, keeping the object invariant |
| `LogWriter.LogFile.Worker` | log/log.go:194-210 | the loop leaves the object in `Drain` of its old state, keeping the object invariant |
| `EtcdUtil.Util.constructor` | etcd-util/util.go:20 | the shared cache starts empty |
| `EtcdUtil.Util.GetWithCacheAndOpts` | etcd-util/util.go:84-110 | returns and caches what `Lookup` says |
| `EtcdUtil.Util.GetWithOptions` | etcd-util/util.go:52-57 | returns and caches what `LookupWithClient` says |
| `EtcdUtil.Util.SetWithOptions` | etcd-util/util.go:65-78 | returns and caches what `Store` says |
| `EtcdUtil.EmptyKeyLookup` | etcd-util/util.go:85-87 | an empty key returns the default with an error and leaves the cache unchanged |
| `EtcdUtil.CacheHit` | etcd-util/util.go:90-94 | a cached key returns the cached value with a nil error, independent of the store, with the cache unchanged |
| `EtcdUtil.MissOutcomes` | etcd-util/util.go:101-109 | on a miss: a non-empty node value is returned; an error returns the default and the error; no response, no node or an empty value returns the default with nil; the returned value is cached |
| `EtcdUtil.LookupFrame` | etcd-util/util.go:90-108 | a lookup changes the cache only at its key, and a non-empty key is cached afterwards with the returned value |
| `EtcdUtil.RepeatedLookupHits` | etcd-util/util.go:90-108 | a second lookup of the same key is a hit returning the first value with a nil error |
| `EtcdUtil.InitFailure` | etcd-util/util.go:52-68 | a failed client initialisation returns the default or "" with that error and leaves the cache unchanged |
| `EtcdUtil.StoreOutcomes` | etcd-util/util.go:70-77 | a failed or empty set returns "" and leaves the cache alone; a successful set caches the sent value and returns the node's value |
| `EtcdUtil.SetThenGet` | etcd-util/util.go:76-94 | after a successful set, a lookup of that key returns the value set without consulting the store |

## Left out

- Goroutines, the 1000-slot channel and its blocking, and the unsynchronised `closed` flag: the queue is a sequence and the worker runs one step at a time. A step needs a non-empty queue, because an empty queue blocks the receive.
- The `unsafe.Pointer` reinterpretation in `Write`: the record is the bytes passed to `Write`.
- `os.MkdirAll`: directories are not modelled, so the file system holds regular files only.
- The size check with an empty file name stats the directory `filePath` itself. The model has no directories, so that stat fails, which the model treats as the process-ending panic.
- `os.Stat` failing in the size check: the source dereferences a nil `curInfo`. The model records this as `crashed`, and the worker stops.
- `filepath.Abs` in `LogFilePath`: taken as the identity, i.e. the trimmed path is assumed absolute and clean. The separator is `/`.
- Errors from `Close` have no effect. `Rename` fails only when the active file is missing. `OpenFile` success is an input.
- `compressFile`: the gzip stream, the removal of the uncompressed file and the `recover` guard are not modelled. Only the request `(name, name + ".gz")` is recorded.
- `time.Now()`: the date is an input. Dates are limited to years 0-9999, months 1-12 and days 1-31; month lengths are not checked.
- One loop iteration reads the clock up to three times: in the rotated name, in the reopen, and in the calendar check (log/log.go:170, 185, 204). The model reads one `env.today` for all three. So it does not capture a step that crosses midnight between those reads. In the source such a step can stamp the old day in the reopen, see the new day in the calendar check, and rotate a second time, so "at most one rotation per step" (`StepEffects`) holds only for a single clock reading per step.
- `_defaultFile` and `init`, built from `os.Args`: process-environment setup, not part of this model.
- `fmt` and logrus diagnostics: output only.
- ttlcache expiry: an expired entry is an absent key.
- `initEtcdClient`'s locking: concurrency. Its outcome is an input error.
- Request options (`opts`): not modelled, since the store's answer is an input. The wrappers `Get` and `GetWithCache` are not modelled separately. `Set` drops its options and calls `SetWithOptions(key, value, nil)`, and `GetWithCache` passes a single nil option. Neither changes a modelled result, because the model has no options.
- The store call with its timeout is not modelled. Its answer is an input.
- The panic when a successful set returns a response without a node is not modelled: `SetReply` has no such case.
- etcd-util/client.go is not part of this model.
