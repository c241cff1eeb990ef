/** Properties of the log writer model in LogSpec: the option table and its
    order, the rotation triggers, the counter and the rotated names, and the
    ordering of records in the active file. */
module LogProperties {
  import opened GoTypes
  import opened Digits
  import opened LogSpec

  // ---------------------------------------------------------------------------
  // Options
  // ---------------------------------------------------------------------------

  /** `LogFileSize` stores size x 1024^k for K, M, G and the plain size for any
      other unit, truncated to 64 bits exactly as Go's step-by-step `int64`
      products are; without overflow the threshold is the exact product. */
  lemma SizeValueMeaning(size: Int64, unit: string)
    ensures SizeValue(size, unit) == Wrap64(size * UnitMultiplier(unit))
    ensures -TwoTo63 <= size * UnitMultiplier(unit) < TwoTo63 ==> SizeValue(size, unit) == size * UnitMultiplier(unit)
  {
    if unit == "M" {
      WrapMul(size * 1024, 1024);
      assert size * 1024 * 1024 == size * 1048576;
    } else if unit == "G" {
      WrapMul(size * 1024, 1024);
      WrapMul(size * 1024 * 1024, 1024);
      assert Mul64(Mul64(size, 1024), 1024) == Wrap64(size * 1024 * 1024);
      assert size * 1024 * 1024 * 1024 == size * 1073741824;
    }
  }

  /** What each option closure assigns. `LogFileTime` enables calendar
      rotation whatever its argument; `LogFilePath` stores the trimmed path
      followed by exactly one separator. */
  lemma OptionEffects(c: Config, o: Option)
    ensures o.LogFileName? ==> ApplyOption(c, o).fileName == o.name
    ensures o.LogFilePath? ==>
      var p := ApplyOption(c, o).filePath;
      && p == TrimRight(o.path, Separator) + [Separator]
      && p[|p| - 1] == Separator
      && (|p| == 1 || p[|p| - 2] != Separator)
      && p[..|p| - 1] <= o.path
    ensures o.LogFileSize? ==> ApplyOption(c, o).sizeFlag && ApplyOption(c, o).sizeValue == SizeValue(o.size, o.unit)
    ensures o.LogFileTime? ==> ApplyOption(c, o).timeFlag
    ensures o.LogFileCompress? ==> ApplyOption(c, o).compressFlag == o.enabled
  {
    if o.LogFilePath? {
      var t := TrimRight(o.path, Separator);
      assert (t + [Separator])[..|t|] == t;
    }
  }

  lemma {:induction false} ApplyOptionsAppend(c: Config, a: seq<Option>, b: seq<Option>)
    ensures ApplyOptions(c, a + b) == ApplyOptions(ApplyOptions(c, a), b)
    decreases |a|
  {
    if a != [] {
      var c1 := ApplyOption(c, a[0]);
      assert (a + b)[0] == a[0];
      assert (a + b)[1..] == a[1..] + b;
      calc {
        ApplyOptions(c, a + b);
        ApplyOptions(c1, a[1..] + b);
        { ApplyOptionsAppend(c1, a[1..], b); }
        ApplyOptions(ApplyOptions(c1, a[1..]), b);
      }
    } else {
      assert a + b == b;
    }
  }

  /** Options are applied left to right: the last one is applied last. */
  lemma ApplyOptionsSnoc(c: Config, options: seq<Option>, o: Option)
    ensures ApplyOptions(c, options + [o]) == ApplyOption(ApplyOptions(c, options), o)
  {
    ApplyOptionsAppend(c, options, [o]);
    assert [o][1..] == [];
  }

  /** Options that assign other fields leave a field alone. */
  lemma {:induction false} UntouchedField(c: Config, options: seq<Option>, f: Field)
    requires forall i :: 0 <= i < |options| ==> FieldOf(options[i]) != f
    ensures Agree(ApplyOptions(c, options), c, f)
    decreases |options|
  {
    if options != [] {
      UntouchedField(ApplyOption(c, options[0]), options[1..], f);
    }
  }

  /** A later option for the same field wins: the field holds what the last
      option assigning it put there. */
  lemma LastOptionWins(c: Config, before: seq<Option>, o: Option, after: seq<Option>)
    requires forall i :: 0 <= i < |after| ==> FieldOf(after[i]) != FieldOf(o)
    ensures Agree(ApplyOptions(c, before + [o] + after), ApplyOption(ApplyOptions(c, before), o), FieldOf(o))
  {
    ApplyOptionsAppend(c, before + [o], after);
    ApplyOptionsSnoc(c, before, o);
    UntouchedField(ApplyOptions(c, before + [o]), after, FieldOf(o));
  }

  /** Without options the writer has neither trigger, no compression and an
      empty file name, and so writes to stdout. */
  lemma NewLogFileDefaults(files: map<string, Bytes>, today: Date, openOk: bool)
    requires ValidDate(today)
    ensures var s := Init([], files, today, openOk);
      && !s.conf.sizeFlag && !s.conf.timeFlag && !s.conf.compressFlag
      && !s.closed && s.cnt == 0 && s.curFile == Stdout && s.files == files
  {
  }

  // ---------------------------------------------------------------------------
  // Dates and names
  // ---------------------------------------------------------------------------

  /** Distinct dates have distinct `YYYY-MM-DD` strings. */
  lemma IsoDateInjective(a: Date, b: Date)
    requires ValidDate(a) && ValidDate(b)
    ensures IsoDate(a) == IsoDate(b) <==> a == b
  {
    if IsoDate(a) == IsoDate(b) {
      var x, y := IsoDate(a), IsoDate(b);
      assert x[..4] == Padded(a.year, 4) && y[..4] == Padded(b.year, 4);
      assert x[5..7] == Padded(a.month, 2) && y[5..7] == Padded(b.month, 2);
      assert x[8..] == Padded(a.day, 2) && y[8..] == Padded(b.day, 2);
      PaddedInjective(a.year, b.year, 4);
      PaddedInjective(a.month, b.month, 2);
      PaddedInjective(a.day, b.day, 2);
    }
  }

  /** The date part of a rotated name has fixed width, so the counter can be
      read back from the name's tail. */
  lemma RotatedNameTail(active: string, d: Date, cnt: nat)
    requires ValidDate(d)
    ensures |RotatedName(active, d, cnt)| == |active| + 9 + |Decimal(cnt)|
    ensures RotatedName(active, d, cnt)[|active| + 9..] == Decimal(cnt)
    ensures Value(RotatedName(active, d, cnt)[|active| + 9..]) == cnt
  {
    DecimalValue(cnt);
  }

  /** Two rotations with different counter values never produce the same
      name, whatever their dates. */
  lemma RotatedNamesDistinct(active: string, d1: Date, c1: nat, d2: Date, c2: nat)
    requires ValidDate(d1) && ValidDate(d2) && c1 != c2
    ensures RotatedName(active, d1, c1) != RotatedName(active, d2, c2)
  {
    RotatedNameTail(active, d1, c1);
    RotatedNameTail(active, d2, c2);
  }

  lemma CounterValuesDistinct(i: nat, j: nat)
    requires i < j < TwoTo32
    ensures (i + 1) % TwoTo32 != (j + 1) % TwoTo32
  {
  }

  /** No two rotations of a process produce the same name, as long as the
      32-bit counter has not come round again. */
  lemma UniqueRotatedNames(s: State)
    requires Inv(s) && |s.rotations| <= TwoTo32
    ensures forall i, j :: 0 <= i < j < |s.rotations| ==> s.rotations[i].name != s.rotations[j].name
  {
    forall i, j | 0 <= i < j < |s.rotations|
      ensures s.rotations[i].name != s.rotations[j].name
    {
      assert RotationAt(s, i) && RotationAt(s, j);
      var a, b := s.rotations[i], s.rotations[j];
      CounterValuesDistinct(i, j);
      RotatedNamesDistinct(Active(s), a.date, a.cnt, b.date, b.cnt);
    }
  }

  // ---------------------------------------------------------------------------
  // Rotation
  // ---------------------------------------------------------------------------

  predicate Rotated(s: State, t: State) {
    |t.rotations| == |s.rotations| + 1
  }

  /** `doRotate` with a nil `curFile` changes nothing, and requests no
      compression. */
  lemma RotateNilFile(s: State, env: Env)
    requires ValidDate(env.today) && s.curFile.NilFile?
    ensures Rotate(s, env) == s
  {
  }

  lemma RotatedNameIsNew(active: string, d: Date, cnt: nat)
    requires ValidDate(d)
    ensures RotatedName(active, d, cnt) != active
  {
    RotatedNameTail(active, d, cnt);
  }

  /** What `doRotate` does to a non-nil handle. A stat that succeeds bumps
      the counter by exactly one and renames the active file to the rotated
      name; with a file name the file is reopened, empty, `closed` is false
      and `todayDate` is today; with an empty file name `closed` stays true;
      compression is requested, of the rotated name ("" when the stat
      failed), exactly when it is enabled. The invariant is kept. */
  lemma RotateEffects(s: State, env: Env)
    requires Inv(s) && ValidDate(env.today) && !s.curFile.NilFile?
    ensures var t := Rotate(s, env);
      && Inv(t) && t.conf == s.conf && t.queue == s.queue && t.stdout == s.stdout && t.crashed == s.crashed
      && (StatOk(s.curFile) ==>
            && t.cnt == Inc32(s.cnt)
            && t.rotations == s.rotations + [Rotation(env.today, t.cnt, RotatedName(Active(s), env.today, t.cnt))]
            && (Active(s) in s.files ==>
                  (RotatedName(Active(s), env.today, t.cnt) in t.files
                   && t.files[RotatedName(Active(s), env.today, t.cnt)] == s.files[Active(s)])))
      && (!StatOk(s.curFile) ==> t.cnt == s.cnt && t.rotations == s.rotations && t.files == s.files)
      && (s.conf.fileName != "" ==>
            && !t.closed && t.todayDate == IsoDate(env.today)
            && t.curFile == (if env.openOk then OpenFile(Active(s)) else NilFile)
            && (env.openOk ==> t.files[Active(s)] == []))
      && (s.conf.fileName == "" ==> t.closed && t.curFile == ClosedFile && t.todayDate == s.todayDate)
      && (s.conf.compressFlag ==>
            var name := if StatOk(s.curFile) then RotatedName(Active(s), env.today, t.cnt) else "";
            t.compressions == s.compressions + [Compression(name, name + ".gz")])
      && (!s.conf.compressFlag ==> t.compressions == s.compressions)
  {
    RotateInv(s, env);
    if StatOk(s.curFile) {
      RotatedNameIsNew(Active(s), env.today, Inc32(s.cnt));
    }
  }

  lemma RotateInv(s: State, env: Env)
    requires Inv(s) && ValidDate(env.today) && !s.curFile.NilFile?
    ensures Inv(Rotate(s, env))
  {
    var r := CloseAndRename(s, env);
    CloseAndRenameHistory(s, env);
    var u := Reopen(r, env);
    HistoryFrame(r, u);
    HistoryFrame(u, RequestCompression(u, RotatedAs(s, env)));
  }

  /** Renaming the active file aside records the rotation with the counter
      value it used. */
  lemma CloseAndRenameHistory(s: State, env: Env)
    requires History(s) && ValidDate(env.today)
    ensures History(CloseAndRename(s, env))
  {
    var r := CloseAndRename(s, env);
    if StatOk(s.curFile) {
      assert r.cnt == (|s.rotations| + 1) % TwoTo32;
      forall i | 0 <= i < |r.rotations| ensures RotationAt(r, i) {
        if i < |s.rotations| {
          assert RotationAt(s, i);
        }
      }
    }
  }

  /** The history only depends on the counter, the rotations and the active
      path. */
  lemma HistoryFrame(a: State, b: State)
    requires History(a)
    requires b.cnt == a.cnt && b.rotations == a.rotations && Active(b) == Active(a)
    ensures History(b)
  {
    forall i | 0 <= i < |b.rotations| ensures RotationAt(b, i) {
      assert RotationAt(a, i);
    }
  }

  /** `doRotate` touches only the active path and the rotated name: every
      other file, an earlier rotated file among them, keeps its presence and
      its contents. */
  lemma RotateFrame(s: State, env: Env)
    requires ValidDate(env.today)
    ensures var t := Rotate(s, env);
      forall p :: p != Active(s) && p != RotatedAs(s, env) ==>
        (p in t.files <==> p in s.files) && (p in s.files ==> t.files[p] == s.files[p])
  {
  }

  /** A stat in `doRotate` fails only on a closed handle, which only an
      empty file name leaves behind. Such a rotation renames and reopens
      nothing; it only requests compression of "" when that is enabled. */
  lemma FailedStatRotation(s: State, env: Env)
    requires Inv(s) && ValidDate(env.today) && !s.curFile.NilFile? && !StatOk(s.curFile)
    ensures var t := Rotate(s, env);
      && s.conf.fileName == "" && t.closed && t.curFile == s.curFile
      && t.todayDate == s.todayDate && t.files == s.files && t.cnt == s.cnt
      && t.rotations == s.rotations
      && t.compressions == s.compressions + (if s.conf.compressFlag then [Compression("", ".gz")] else [])
  {
    assert "" + ".gz" == ".gz";
    assert s.compressions + [] == s.compressions;
  }

  /** With an empty file name the active path is the directory, which is
      not a file, so the rename changes nothing; the counter still advances
      and the rotation is still recorded. */
  lemma EmptyNameRotationRenamesNothing(s: State, env: Env)
    requires Inv(s) && ValidDate(env.today) && s.curFile == Stdout && Active(s) !in s.files
    ensures var t := Rotate(s, env);
      && s.conf.fileName == ""
      && t.files == s.files
      && t.cnt == Inc32(s.cnt)
      && t.rotations == s.rotations + [Rotation(env.today, t.cnt, RotatedName(Active(s), env.today, t.cnt))]
  {
  }

  /** When the file name is empty, a rotation whose stat succeeds leaves
      `closed` true, which ends the worker loop. */
  lemma EmptyNameRotationEndsWorker(s: State, env: Env, envs: seq<Env>)
    requires Inv(s) && ValidDate(env.today) && ValidEnvs(envs)
    requires s.conf.fileName == "" && s.curFile == Stdout
    ensures !Running(Rotate(s, env))
    ensures Drain(Rotate(s, env), envs) == Rotate(s, env)
  {
    RotateEffects(s, env);
  }

  // ---------------------------------------------------------------------------
  // The worker step
  // ---------------------------------------------------------------------------

  lemma WriteToEffects(s: State, msg: Bytes)
    requires Inv(s)
    ensures var t := WriteTo(s, msg);
      && Inv(t)
      && t == s.(files := t.files, stdout := t.stdout)
      && (s.curFile.OpenFile? ==> t.files == s.files[Active(s) := s.files[Active(s)] + msg] && t.stdout == s.stdout)
      && (s.curFile.Stdout? ==> t.files == s.files && t.stdout == s.stdout + msg)
      && (s.curFile.NilFile? || s.curFile.ClosedFile? ==> t == s)
  {
    HistoryFrame(s, WriteTo(s, msg));
  }

  /** `Write` keeps the invariant. */
  lemma EnqueueInv(s: State, p: Bytes)
    requires Inv(s)
    ensures Inv(Enqueue(s, p))
  {
    HistoryFrame(s, Enqueue(s, p));
  }

  lemma DequeueInv(s: State)
    requires Inv(s) && s.queue != []
    ensures Inv(s.(queue := s.queue[1..]))
  {
    HistoryFrame(s, s.(queue := s.queue[1..]));
  }

  lemma CrashInv(s: State)
    requires Inv(s)
    ensures Inv(s.(crashed := true))
  {
    HistoryFrame(s, s.(crashed := true));
  }

  /** A worker step keeps the invariant, performs at most one rotation, only
      extends the rotation history, and after a rotation with a file name
      today's date is stored, so the calendar check cannot fire again on the
      same date. */
  lemma StepEffects(s: State, env: Env)
    requires Inv(s) && s.queue != [] && ValidDate(env.today)
    ensures var t := Step(s, env);
      && Inv(t)
      && t.conf == s.conf
      && t.queue == s.queue[1..]
      && s.rotations <= t.rotations
      && |t.rotations| <= |s.rotations| + 1
      && (s.conf.fileName != "" && Rotated(s, t) ==> t.todayDate == IsoDate(env.today))
  {
    var d := s.(queue := s.queue[1..]);
    DequeueInv(s);
    var w := WriteTo(d, s.queue[0]);
    WriteToEffects(d, s.queue[0]);
    var z := SizeCheck(w, env);
    if w.conf.sizeFlag && Active(w) !in w.files {
      CrashInv(w);
      assert z == w.(crashed := true);
    } else if w.conf.sizeFlag && |w.files[Active(w)]| >= w.conf.sizeValue {
      if !w.curFile.NilFile? {
        RotateEffects(w, env);
      }
      if !z.crashed && z.conf.timeFlag && IsoDate(env.today) != z.todayDate && !z.curFile.NilFile? {
        RotateEffects(z, env);
      }
    } else {
      if !z.crashed && z.conf.timeFlag && IsoDate(env.today) != z.todayDate && !z.curFile.NilFile? {
        RotateEffects(z, env);
      }
    }
  }

  /** The files after a step are those after the write, or those after
      one rotation of the written state. */
  lemma StepFiles(s: State, env: Env)
    requires Inv(s) && s.queue != [] && ValidDate(env.today)
    ensures var w := WriteTo(s.(queue := s.queue[1..]), s.queue[0]);
      Step(s, env).files == w.files || Step(s, env).files == Rotate(w, env).files
  {
    var d := s.(queue := s.queue[1..]);
    DequeueInv(s);
    var w := WriteTo(d, s.queue[0]);
    WriteToEffects(d, s.queue[0]);
    var z := SizeCheck(w, env);
    if w.conf.sizeFlag && Active(w) in w.files && |w.files[Active(w)]| >= w.conf.sizeValue
       && !w.curFile.NilFile? {
      RotateEffects(w, env);
      if !z.crashed && z.conf.timeFlag && IsoDate(env.today) != z.todayDate && !z.curFile.NilFile? {
        RotateEffects(z, env);
      }
    }
  }

  /** A worker step changes at most two files: the active one and the name
      its rotation would use. Files rotated earlier keep their contents. */
  lemma StepFrame(s: State, env: Env)
    requires Inv(s) && s.queue != [] && ValidDate(env.today)
    ensures var t := Step(s, env);
      var name := RotatedName(Active(s), env.today, Inc32(s.cnt));
      forall p :: p != Active(s) && p != name ==>
        (p in t.files <==> p in s.files) && (p in s.files ==> t.files[p] == s.files[p])
  {
    var d := s.(queue := s.queue[1..]);
    DequeueInv(s);
    var w := WriteTo(d, s.queue[0]);
    WriteToEffects(d, s.queue[0]);
    StepFiles(s, env);
    RotateFrame(w, env);
    assert RotatedAs(w, env) == "" || RotatedAs(w, env) == RotatedName(Active(s), env.today, Inc32(s.cnt));
  }

  /** The invariant holds after any run of the worker loop. */
  lemma {:induction false} DrainInv(s: State, envs: seq<Env>)
    requires Inv(s) && ValidEnvs(envs)
    ensures Inv(Drain(s, envs))
    decreases |envs|
  {
    if envs != [] && Running(s) && s.queue != [] {
      StepEffects(s, envs[0]);
      DrainInv(Step(s, envs[0]), envs[1..]);
    }
  }

  /** Size trigger: when the calendar check has nothing to do, the step whose
      record brings the active file to the threshold rotates, and no other
      step does. The rotated file holds everything written, the triggering
      record included; the reopened active file is empty. */
  lemma SizeTrigger(s: State, env: Env)
    requires Inv(s) && s.queue != [] && ValidDate(env.today) && s.curFile.OpenFile?
    requires !s.conf.timeFlag || s.todayDate == IsoDate(env.today)
    ensures var t := Step(s, env);
      var written := s.files[Active(s)] + s.queue[0];
      && (Rotated(s, t) <==> s.conf.sizeFlag && |written| >= s.conf.sizeValue)
      && (!Rotated(s, t) ==> t == s.(queue := s.queue[1..], files := s.files[Active(s) := written]))
      && (Rotated(s, t) ==>
            var name := t.rotations[|s.rotations|].name;
            && name == RotatedName(Active(s), env.today, Inc32(s.cnt))
            && name in t.files && t.files[name] == written
            && !t.closed && t.crashed == s.crashed
            && (env.openOk ==> t.curFile == OpenFile(Active(s)) && Active(s) in t.files && t.files[Active(s)] == []))
  {
    var d := s.(queue := s.queue[1..]);
    DequeueInv(s);
    var w := WriteTo(d, s.queue[0]);
    WriteToEffects(d, s.queue[0]);
    if w.conf.sizeFlag && |w.files[Active(w)]| >= w.conf.sizeValue {
      RotateEffects(w, env);
    }
  }

  /** Calendar trigger: when the size check does not fire (it is off, or the
      record leaves the file under the threshold), a step rotates exactly
      when calendar rotation is enabled and the date differs from the stored
      one. The record that is written first still lands in the file that is
      rotated, whose name carries the new date. */
  lemma CalendarTrigger(s: State, env: Env, stored: Date)
    requires Inv(s) && s.queue != [] && ValidDate(env.today) && ValidDate(stored)
    requires !s.crashed && s.curFile.OpenFile? && s.todayDate == IsoDate(stored)
    requires !s.conf.sizeFlag || |s.files[Active(s)] + s.queue[0]| < s.conf.sizeValue
    ensures var t := Step(s, env);
      var written := s.files[Active(s)] + s.queue[0];
      && (Rotated(s, t) <==> s.conf.timeFlag && stored != env.today)
      && (!Rotated(s, t) ==> t == s.(queue := s.queue[1..], files := s.files[Active(s) := written]))
      && (Rotated(s, t) ==>
            var name := t.rotations[|s.rotations|].name;
            && name == RotatedName(Active(s), env.today, Inc32(s.cnt))
            && name in t.files && t.files[name] == written
            && t.todayDate == IsoDate(env.today))
  {
    IsoDateInjective(stored, env.today);
    var d := s.(queue := s.queue[1..]);
    DequeueInv(s);
    var w := WriteTo(d, s.queue[0]);
    WriteToEffects(d, s.queue[0]);
    assert SizeCheck(w, env) == w;
    assert Step(s, env) == TimeCheck(w, env);
    if w.conf.timeFlag && IsoDate(env.today) != w.todayDate {
      RotateEffects(w, env);
    } else {
      assert Step(s, env) == w;
    }
  }

  /** The two checks together, as the default writer has them: a step on an
      open file rotates exactly when the size check or the calendar check
      fires, and then exactly once, with counter `cnt + 1` and today's date
      in the name. The rotated file holds everything written, the record of
      this step included, and today's date is stored. */
  lemma StepTriggers(s: State, env: Env)
    requires Inv(s) && s.queue != [] && ValidDate(env.today)
    requires !s.crashed && s.curFile.OpenFile?
    ensures var t := Step(s, env);
      var written := s.files[Active(s)] + s.queue[0];
      var name := RotatedName(Active(s), env.today, Inc32(s.cnt));
      && (Rotated(s, t) <==>
            (s.conf.sizeFlag && |written| >= s.conf.sizeValue)
            || (s.conf.timeFlag && IsoDate(env.today) != s.todayDate))
      && (Rotated(s, t) ==>
            && t.rotations == s.rotations + [Rotation(env.today, Inc32(s.cnt), name)]
            && name in t.files && t.files[name] == written
            && t.todayDate == IsoDate(env.today))
      && (!Rotated(s, t) ==> t == s.(queue := s.queue[1..], files := s.files[Active(s) := written]))
  {
    var d := s.(queue := s.queue[1..]);
    DequeueInv(s);
    var w := WriteTo(d, s.queue[0]);
    WriteToEffects(d, s.queue[0]);
    if w.conf.sizeFlag && |w.files[Active(w)]| >= w.conf.sizeValue {
      RotateEffects(w, env);
      var z := SizeCheck(w, env);
      assert z == Rotate(w, env);
      assert !z.crashed;
      if z.curFile.OpenFile? {
        assert z.todayDate == IsoDate(env.today);
      }
      assert TimeCheck(z, env) == z;
      assert Step(s, env) == z;
    } else {
      assert SizeCheck(w, env) == w;
      assert Step(s, env) == TimeCheck(w, env);
      if w.conf.timeFlag && IsoDate(env.today) != w.todayDate {
        RotateEffects(w, env);
      } else {
        assert Step(s, env) == w;
      }
    }
  }

  lemma CloseAndRenameIgnoresQueue(s: State, env: Env, q: seq<Bytes>)
    requires ValidDate(env.today)
    ensures CloseAndRename(s.(queue := q), env) == CloseAndRename(s, env).(queue := q)
    ensures CloseAndRename(s, env).queue == s.queue
  {
  }

  lemma ReopenIgnoresQueue(s: State, env: Env, q: seq<Bytes>)
    requires ValidDate(env.today)
    ensures Reopen(s.(queue := q), env) == Reopen(s, env).(queue := q)
    ensures Reopen(s, env).queue == s.queue
  {
  }

  lemma RotateIgnoresQueue(s: State, env: Env, q: seq<Bytes>)
    requires ValidDate(env.today)
    ensures Rotate(s.(queue := q), env) == Rotate(s, env).(queue := q)
    ensures Rotate(s, env).queue == s.queue
  {
    assert RotatedAs(s.(queue := q), env) == RotatedAs(s, env);
    CloseAndRenameIgnoresQueue(s, env, q);
    ReopenIgnoresQueue(CloseAndRename(s, env), env, q);
  }

  lemma WriteToIgnoresQueue(s: State, msg: Bytes, q: seq<Bytes>)
    ensures WriteTo(s.(queue := q), msg) == WriteTo(s, msg).(queue := q)
  {
  }

  lemma ChecksIgnoreQueue(s: State, env: Env, q: seq<Bytes>)
    requires ValidDate(env.today)
    ensures SizeCheck(s.(queue := q), env) == SizeCheck(s, env).(queue := q)
    ensures TimeCheck(s.(queue := q), env) == TimeCheck(s, env).(queue := q)
    ensures SizeCheck(s, env).queue == s.queue && TimeCheck(s, env).queue == s.queue
  {
    RotateIgnoresQueue(s, env, q);
  }

  lemma ChecksIgnoreQueueTogether(s: State, env: Env, q: seq<Bytes>)
    requires ValidDate(env.today)
    ensures Checks(s.(queue := q), env) == Checks(s, env).(queue := q)
    ensures Checks(s, env).queue == s.queue
  {
    ChecksIgnoreQueue(s, env, q);
    ChecksIgnoreQueue(SizeCheck(s, env), env, q);
  }

  /** The worker takes records from the head of the queue, so a `Write` at
      the tail does not affect the step that runs before it is reached. */
  lemma EnqueueStepCommute(s: State, env: Env, p: Bytes)
    requires s.queue != [] && ValidDate(env.today)
    ensures Step(Enqueue(s, p), env) == Enqueue(Step(s, env), p)
  {
    var q := s.queue[1..] + [p];
    var d := s.(queue := s.queue[1..]);
    var w := WriteTo(d, s.queue[0]);
    var c := Checks(w, env);
    assert Step(Enqueue(s, p), env) == Checks(w.(queue := q), env) by {
      var e := Enqueue(s, p);
      assert e.queue[0] == s.queue[0] && e.queue[1..] == q;
      assert e.(queue := q) == d.(queue := q);
      WriteToIgnoresQueue(d, s.queue[0], q);
    }
    assert Checks(w.(queue := q), env) == c.(queue := q) && c.queue == s.queue[1..] by {
      ChecksIgnoreQueueTogether(w, env, q);
    }
  }

  function Min(a: nat, b: nat): nat {
    if a < b then a else b
  }

  /** A step with no trigger to fire only dequeues and appends. */
  lemma QuietStep(s: State, env: Env)
    requires Inv(s) && s.queue != [] && ValidDate(env.today) && s.curFile.OpenFile?
    requires s.conf.sizeFlag ==> |s.files[Active(s)]| + |s.queue[0]| < s.conf.sizeValue
    requires s.conf.timeFlag ==> IsoDate(env.today) == s.todayDate
    ensures Step(s, env) == s.(queue := s.queue[1..], files := s.files[Active(s) := s.files[Active(s)] + s.queue[0]])
  {
    DequeueInv(s);
    WriteToEffects(s.(queue := s.queue[1..]), s.queue[0]);
  }

  /** While the cumulative size stays under the threshold and the date stays
      the stored one, the active file receives exactly the concatenation of
      the processed records, in the order they were written. */
  lemma {:induction false} DrainAppendsInOrder(s: State, envs: seq<Env>)
    requires Inv(s) && !s.crashed && s.curFile.OpenFile? && ValidEnvs(envs)
    requires var k := Min(|envs|, |s.queue|);
      s.conf.sizeFlag ==> |s.files[Active(s)]| + |Concat(s.queue[..k])| < s.conf.sizeValue
    requires s.conf.timeFlag ==>
      forall i :: 0 <= i < Min(|envs|, |s.queue|) ==> IsoDate(envs[i].today) == s.todayDate
    ensures var k := Min(|envs|, |s.queue|);
      var t := Drain(s, envs);
      && t.files == s.files[Active(s) := s.files[Active(s)] + Concat(s.queue[..k])]
      && t.queue == s.queue[k..]
      && t.rotations == s.rotations && t.curFile == s.curFile && Running(t)
    decreases |envs|
  {
    var k := Min(|envs|, |s.queue|);
    if envs == [] || s.queue == [] {
      assert s.queue[..k] == [];
      assert s.files[Active(s)] + [] == s.files[Active(s)];
      assert s.files[Active(s) := s.files[Active(s)]] == s.files;
    } else {
      var q := s.queue;
      assert q[..k] == [q[0]] + q[1..][..k - 1];
      assert Concat(q[..k]) == q[0] + Concat(q[1..][..k - 1]);
      QuietStep(s, envs[0]);
      var t1 := Step(s, envs[0]);
      StepEffects(s, envs[0]);
      assert Min(|envs[1..]|, |t1.queue|) == k - 1;
      forall i | 0 <= i < k - 1 ensures envs[1..][i] == envs[i + 1] { }
      DrainAppendsInOrder(t1, envs[1..]);
      assert q[1..][k - 1..] == q[k..];
      var rest := Concat(q[1..][..k - 1]);
      assert s.files[Active(s)] + q[0] + rest == s.files[Active(s)] + Concat(q[..k]);
    }
  }

  // ---------------------------------------------------------------------------
  // A worked example
  // ---------------------------------------------------------------------------

  lemma ScenarioConfig()
    ensures ApplyOptions(Defaults, [LogFileName("app.log"), LogFilePath("/var/log"), LogFileSize(10, "B")])
         == Config("app.log", "/var/log/", true, 10, false, false)
  {
    var options := [LogFileName("app.log"), LogFilePath("/var/log"), LogFileSize(10, "B")];
    var c1 := ApplyOption(Defaults, options[0]);
    var c2 := ApplyOption(c1, options[1]);
    var c3 := ApplyOption(c2, options[2]);
    assert TrimRight("/var/log", Separator) == "/var/log";
    assert c3 == Config("app.log", "/var/log/", true, 10, false, false);
    assert options[1..][1..][1..] == [];
  }

  lemma ScenarioName()
    ensures RotatedName("/var/log/app.log", Date(2026, 10, 14), 1) == "/var/log/app.log.202610141"
  {
    assert Padded(2026, 4) == "2026" && Padded(10, 2) == "10" && Padded(14, 2) == "14";
    assert Decimal(1) == "1";
  }

  /** The example writer after `NewLogFile` and the two `Write` calls. */
  lemma ScenarioStart(options: seq<Option>, today: Date, hello: Bytes, world: Bytes)
    requires options == [LogFileName("app.log"), LogFilePath("/var/log"), LogFileSize(10, "B")]
    requires today == Date(2026, 10, 14)
    ensures var s := Enqueue(Enqueue(Init(options, map[], today, true), hello), world);
      && Inv(s) && !s.crashed && !s.closed && s.curFile == OpenFile("/var/log/app.log")
      && s.conf == Config("app.log", "/var/log/", true, 10, false, false)
      && Active(s) == "/var/log/app.log" && s.files == map["/var/log/app.log" := []]
      && s.queue == [hello, world] && s.cnt == 0
  {
    ScenarioConfig();
    var s0 := Init(options, map[], today, true);
    EnqueueInv(s0, hello);
    EnqueueInv(Enqueue(s0, hello), world);
  }

  /** A 10-byte threshold (an unrecognised unit counts plain bytes), no
      calendar rotation, no compression: writing "hello" and then "world!"
      rotates after the second record. The rotated file, named with the date
      and counter 1, holds "helloworld!" and the reopened active file is
      empty. */
  lemma HelloWorldScenario(options: seq<Option>, today: Date, hello: Bytes, world: Bytes)
    requires options == [LogFileName("app.log"), LogFilePath("/var/log"), LogFileSize(10, "B")]
    requires today == Date(2026, 10, 14)
    requires hello == [104, 101, 108, 108, 111] && world == [119, 111, 114, 108, 100, 33]
    ensures
      var env := Env(today, true);
      var t := Drain(Enqueue(Enqueue(Init(options, map[], today, true), hello), world), [env, env]);
      && t.queue == [] && Running(t) && t.cnt == 1
      && "/var/log/app.log.202610141" in t.files
      && t.files["/var/log/app.log.202610141"] == hello + world
      && "/var/log/app.log" in t.files
      && t.files["/var/log/app.log"] == []
  {
    var env := Env(today, true);
    ScenarioStart(options, today, hello, world);
    var active := "/var/log/app.log";
    var s2 := Enqueue(Enqueue(Init(options, map[], today, true), hello), world);
    QuietStep(s2, env);
    var s3 := Step(s2, env);
    assert s3.files[active] == hello;
    assert s3.queue == [world];
    StepEffects(s2, env);
    SizeTrigger(s3, env);
    var t := Step(s3, env);
    ScenarioName();
    assert Drain(s2, [env, env]) == Drain(s3, [env]);
    assert Drain(s3, [env]) == Drain(t, []);
  }
}
