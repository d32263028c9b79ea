/** The Docker auto-fix pipeline: run a command while logging its output into
    a cache entry (or reuse the logs an earlier run left there), and hand a
    failure to the general fixer. The process, the digest naming the entry,
    `json.dumps` and the model are inputs. */
module DockerFixer {
  import opened Wrappers
  import opened Errors
  import opened Text
  import opened Json
  import opened Files
  import opened Schema
  import Executor
  import CacheIo
  import Brain
  import GeneralFixer

  // ------------------------------------------------------------------
  // _execute_with_logging
  // ------------------------------------------------------------------

  /** `_execute_with_logging(cmd, cwd, stdout_file, stderr_file)`: both files
      are opened for writing (emptied) first; an exited process leaves its
      whole standard output in the one and its standard error in the other. */
  function ExecuteWithLogging(d: Disk, readOnly: set<Path>, host: Executor.Host, cmd: seq<string>, cwd: string,
                              outFile: Path, errFile: Path, p: Executor.Process): Step<CommandResult>
  {
    match d.Write(readOnly, outFile, "")
    case None => Step(d, Err(Raised("cannot open " + outFile)))
    case Some(d1) =>
      match d1.Write(readOnly, errFile, "")
      case None => Step(d1, Err(Raised("cannot open " + errFile)))
      case Some(d2) =>
        if cmd == [] then
          // Popen indexes the empty list
          Step(d2, Err(Raised("list index out of range")))
        else
          match p
          case NotFound => Step(d2, Err(FileNotFound(cmd[0])))
          case LaunchFailed(m) => Step(d2, Err(Raised(m)))
          case Interrupted => Step(d2, Err(Interrupt))
          case Exited(code, _, _, err) =>
            var out := Executor.AllOutput(p);
            Step(Disk(d2.files[outFile := out][errFile := err], d2.dirs),
                 Ok(CommandResult(code, out, err, code == 0, host.shlexJoin(cmd), cwd)))
  }

  /** The same, writing each line to the open file as it is read. */
  method ExecuteWithLoggingOn(fs: FileSystem, host: Executor.Host, cmd: seq<string>, cwd: string,
                              outFile: Path, errFile: Path, p: Executor.Process)
    returns (r: Result<CommandResult, Error>)
    requires outFile != errFile
    modifies fs
    ensures Step(fs.State(), r) == ExecuteWithLogging(old(fs.State()), fs.readOnly, host, cmd, cwd, outFile, errFile, p)
  {
    var cmdStr := host.shlexJoin(cmd);
    var ok := fs.WriteText(outFile, "");
    if !ok {
      return Err(Raised("cannot open " + outFile));
    }
    ok := fs.WriteText(errFile, "");
    if !ok {
      return Err(Raised("cannot open " + errFile));
    }
    if cmd == [] {
      return Err(Raised("list index out of range"));
    }
    match p {
      case NotFound =>
        r := Err(FileNotFound(cmd[0]));
      case LaunchFailed(m) =>
        r := Err(Raised(m));
      case Interrupted =>
        r := Err(Interrupt);
      case Exited(code, lines, rest, err) =>
        var stdout, stderr := StreamOutput(fs, outFile, errFile, lines, rest, err);
        r := Ok(CommandResult(code, stdout, stderr, code == 0, cmdStr, cwd));
    }
  }

  /** The read loop: each non-empty line read is kept and written to the
      open stdout file at once, then what is left in the pipe, then all of
      standard error to its file. */
  method StreamOutput(fs: FileSystem, outFile: Path, errFile: Path, lines: seq<string>, rest: string, err: string)
    returns (stdout: string, stderr: string)
    requires outFile != errFile
    requires outFile in fs.files && fs.files[outFile] == "" && errFile in fs.files && fs.files[errFile] == ""
    modifies fs
    ensures stdout == Join(lines, "") + rest && stderr == err
    ensures fs.State() == Disk(old(fs.files)[outFile := stdout][errFile := stderr], old(fs.dirs))
  {
    ghost var f0 := fs.files;
    var stdoutLines := LogLines(fs, outFile, lines);
    if rest != "" {
      JoinSnoc(stdoutLines, rest, "");
      stdoutLines := stdoutLines + [rest];
    } else {
      assert Join(lines, "") + rest == Join(lines, "");
    }
    WriteIfAny(fs, outFile, rest);
    stdout := Join(stdoutLines, "");
    assert stdout == Join(lines, "") + rest;
    assert fs.files == f0[outFile := stdout];
    var stderrLines: seq<string> := [];
    if err != "" {
      stderrLines := [err];
    }
    JoinSnoc([], err, "");
    stderr := Join(stderrLines, "");
    assert stderr == err;
    assert f0[outFile := stdout][errFile] + err == err;
    WriteIfAny(fs, errFile, err);
    assert fs.files == f0[outFile := stdout][errFile := stderr];
  }

  /** The loop over the lines read: the non-empty ones are kept, in order,
      and each is written to the open file as it comes. */
  method LogLines(fs: FileSystem, outFile: Path, lines: seq<string>) returns (kept: seq<string>)
    requires outFile in fs.files && fs.files[outFile] == ""
    modifies fs
    ensures Join(kept, "") == Join(lines, "")
    ensures fs.State() == Disk(old(fs.files)[outFile := Join(lines, "")], old(fs.dirs))
  {
    ghost var f0 := fs.files;
    ghost var d0 := fs.dirs;
    kept := [];
    var i := 0;
    while i < |lines|
      invariant 0 <= i <= |lines|
      invariant Join(kept, "") == Join(lines[..i], "")
      invariant fs.files == f0[outFile := Join(lines[..i], "")] && fs.dirs == d0
    {
      var line := lines[i];
      PrefixJoinStep(lines, i);
      if line != "" {
        JoinSnoc(kept, line, "");
        kept := kept + [line];
        fs.Append(outFile, line);
      }
      i := i + 1;
    }
    assert lines[..i] == lines;
  }

  /** One more line of the stream, joined onto what came before it. */
  lemma PrefixJoinStep(lines: seq<string>, i: nat)
    requires i < |lines|
    ensures Join(lines[..i + 1], "") == Join(lines[..i], "") + lines[i]
  {
    assert lines[..i + 1] == lines[..i] + [lines[i]];
    JoinSnoc(lines[..i], lines[i], "");
  }

  method WriteIfAny(fs: FileSystem, file: Path, text: string)
    requires file in fs.files
    modifies fs
    ensures fs.State() == Disk(old(fs.files)[file := old(fs.files)[file] + text], old(fs.dirs))
  {
    if text != "" {
      fs.Append(file, text);
    } else {
      assert fs.files[file] + text == fs.files[file];
    }
  }

  /** The result reports exactly what the two files hold afterwards: all of
      standard output, read-loop lines and remainder in order, and standard
      error; it succeeds exactly when the exit code is 0. */
  lemma LoggedOutputIsReturned(d: Disk, readOnly: set<Path>, host: Executor.Host, cmd: seq<string>, cwd: string,
                               outFile: Path, errFile: Path, p: Executor.Process)
    requires outFile != errFile
    ensures var x := ExecuteWithLogging(d, readOnly, host, cmd, cwd, outFile, errFile, p);
      (x.result.Ok? <==> d.CanWrite(readOnly, outFile) && d.CanWrite(readOnly, errFile) && cmd != [] && p.Exited?)
      && (x.result.Ok? ==>
            x.result.value.stdout == Join(p.lines, "") + p.rest && x.result.value.stderr == p.stderr
            && x.disk.files[outFile] == x.result.value.stdout && x.disk.files[errFile] == x.result.value.stderr
            && (x.result.value.success <==> x.result.value.exitCode == 0) && x.result.value.exitCode == p.exitCode
            && x.result.value.command == host.shlexJoin(cmd) && x.result.value.cwd == cwd)
  {
  }

  // ------------------------------------------------------------------
  // The cache entry
  // ------------------------------------------------------------------

  /** `cache_dir / cmd2hash(cmd, cwd)`. */
  function LogDir(cacheDir: Path, cmd2hash: (seq<string>, string) -> string, cmd: seq<string>, cwd: Path): Path {
    JoinPath(cacheDir, cmd2hash(cmd, cwd))
  }

  function MetadataFile(dir: Path): Path { JoinPath(dir, "metadata.json") }

  /** The three files of an entry are three different paths. */
  lemma EntryFilesDistinct(dir: Path)
    ensures CacheIo.StdoutFile(dir) != CacheIo.StderrFile(dir)
    ensures MetadataFile(dir) != CacheIo.StdoutFile(dir) && MetadataFile(dir) != CacheIo.StderrFile(dir)
  {
    var k := |dir| + 4;
    assert CacheIo.StdoutFile(dir)[k] == 'o' && CacheIo.StderrFile(dir)[k] == 'e';
    assert MetadataFile(dir)[|dir| + 1] == 'm' && CacheIo.StdoutFile(dir)[|dir| + 1] == 's';
  }

  /** The error log and whether the command succeeded. */
  datatype RunOutcome = RunOutcome(errorLog: string, success: bool)

  /** Whether the logs of an earlier run are used instead of running. */
  predicate CacheHit(d: Disk, dir: Path, forceRerun: bool) {
    !forceRerun && d.Exists(CacheIo.StdoutFile(dir)) && d.Exists(CacheIo.StderrFile(dir))
  }

  /** Step 3 of `run_pipeline`: read both logs back on a hit, taking the run
      for a failure; otherwise create the entry, run the command with
      logging, and write `metadata.json`. */
  function Obtain(d: Disk, readOnly: set<Path>, host: Executor.Host, dumps: Json -> string,
                  dir: Path, cmd: seq<string>, cwd: Path, forceRerun: bool, p: Executor.Process): Step<RunOutcome>
  {
    if CacheHit(d, dir, forceRerun) then ReadBack(d, dir)
    else
      match d.Mkdir(readOnly, dir)
      case None => Step(d, Err(Raised("cannot create " + dir)))
      case Some(d1) => RunAndRecord(d1, readOnly, host, dumps, dir, cmd, cwd, p)
  }

  /** A hit: both logs read back, the run taken for a failure. */
  function ReadBack(d: Disk, dir: Path): Step<RunOutcome> {
    var out := CacheIo.StdoutFile(dir);
    var err := CacheIo.StderrFile(dir);
    match (d.Read(out), d.Read(err))
    case (Some(o), Some(e)) => Step(d, Ok(RunOutcome(o + e, false)))
    case (None, _) => Step(d, Err(Raised("Is a directory: " + out)))
    case (_, None) => Step(d, Err(Raised("Is a directory: " + err)))
  }

  /** A miss, once the entry directory exists: run with logging, then
      write `metadata.json`. */
  function RunAndRecord(d1: Disk, readOnly: set<Path>, host: Executor.Host, dumps: Json -> string,
                        dir: Path, cmd: seq<string>, cwd: Path, p: Executor.Process): Step<RunOutcome>
  {
    var x := ExecuteWithLogging(d1, readOnly, host, cmd, cwd, CacheIo.StdoutFile(dir), CacheIo.StderrFile(dir), p);
    match x.result
    case Err(e) => Step(x.disk, Err(e))
    case Ok(c) =>
      match x.disk.Write(readOnly, MetadataFile(dir), dumps(JObject(CacheIo.Meta(c))))
      case None => Step(x.disk, Err(Raised("cannot write " + MetadataFile(dir))))
      case Some(d3) => Step(d3, Ok(RunOutcome(c.stdout + c.stderr, c.success)))
  }

  /** On a hit nothing is run and nothing is written: whatever the process
      would have done, the outcome is the two stored logs concatenated, and
      never a success. */
  lemma HitReusesLogs(d: Disk, readOnly: set<Path>, host: Executor.Host, dumps: Json -> string,
                      dir: Path, cmd: seq<string>, cwd: Path, forceRerun: bool, p: Executor.Process,
                      other: Executor.Process)
    requires CacheHit(d, dir, forceRerun)
    ensures var o := Obtain(d, readOnly, host, dumps, dir, cmd, cwd, forceRerun, p);
      o == Obtain(d, readOnly, host, dumps, dir, cmd, cwd, forceRerun, other) && o.disk == d
      && (o.result.Ok? <==> CacheIo.StdoutFile(dir) in d.files && CacheIo.StderrFile(dir) in d.files)
      && (o.result.Ok? ==>
            o.result.value == RunOutcome(d.files[CacheIo.StdoutFile(dir)] + d.files[CacheIo.StderrFile(dir)], false))
  {
  }

  /** On a miss the entry directory is created, both logs and
      `metadata.json` are written, and the metadata holds exactly the exit
      code, the success flag, the command and the directory, no stream. */
  lemma MissRunsAndRecords(d: Disk, readOnly: set<Path>, host: Executor.Host, dumps: Json -> string,
                           dir: Path, cmd: seq<string>, cwd: Path, forceRerun: bool, p: Executor.Process)
    requires !CacheHit(d, dir, forceRerun)
    ensures var o := Obtain(d, readOnly, host, dumps, dir, cmd, cwd, forceRerun, p);
      o.result.Ok? ==>
        cmd != [] && p.Exited? && dir in o.disk.dirs
        && var c := CommandResult(p.exitCode, Executor.AllOutput(p), p.stderr, p.exitCode == 0, host.shlexJoin(cmd), cwd);
           o.disk.files == d.files[CacheIo.StdoutFile(dir) := c.stdout][CacheIo.StderrFile(dir) := c.stderr]
                                  [MetadataFile(dir) := dumps(JObject(CacheIo.Meta(c)))]
           && CacheIo.Meta(c).Keys == {"exit_code", "success", "command", "cwd"}
           && o.result.value == RunOutcome(c.stdout + c.stderr, c.success)
           && (o.result.value.success <==> p.exitCode == 0)
    ensures var o := Obtain(d, readOnly, host, dumps, dir, cmd, cwd, forceRerun, p);
      cmd != [] && o.result.Err? && o.result.error == Interrupt ==> p.Interrupted?
  {
    EntryFilesDistinct(dir);
    var m := d.Mkdir(readOnly, dir);
    if m.Some? {
      RecordOutcome(m.value, readOnly, host, dumps, dir, cmd, cwd, p);
    }
  }

  /** What running and recording leave, once the entry directory exists. */
  lemma RecordOutcome(d1: Disk, readOnly: set<Path>, host: Executor.Host, dumps: Json -> string,
                      dir: Path, cmd: seq<string>, cwd: Path, p: Executor.Process)
    requires CacheIo.StdoutFile(dir) != CacheIo.StderrFile(dir)
    ensures var o := RunAndRecord(d1, readOnly, host, dumps, dir, cmd, cwd, p);
      o.result.Ok? ==>
        cmd != [] && p.Exited? && o.disk.dirs == d1.dirs
        && var c := CommandResult(p.exitCode, Executor.AllOutput(p), p.stderr, p.exitCode == 0, host.shlexJoin(cmd), cwd);
           o.disk.files == d1.files[CacheIo.StdoutFile(dir) := c.stdout][CacheIo.StderrFile(dir) := c.stderr]
                                   [MetadataFile(dir) := dumps(JObject(CacheIo.Meta(c)))]
           && o.result.value == RunOutcome(c.stdout + c.stderr, c.success)
    ensures var o := RunAndRecord(d1, readOnly, host, dumps, dir, cmd, cwd, p);
      cmd != [] && o.result.Err? && o.result.error == Interrupt ==> p.Interrupted?
  {
    var x := ExecuteWithLogging(d1, readOnly, host, cmd, cwd, CacheIo.StdoutFile(dir), CacheIo.StderrFile(dir), p);
    if x.result.Ok? {
      var c := x.result.value;
      assert cmd != [] && p.Exited?;
      assert c == CommandResult(p.exitCode, Executor.AllOutput(p), p.stderr, p.exitCode == 0, host.shlexJoin(cmd), cwd);
      assert x.disk.files == d1.files[CacheIo.StdoutFile(dir) := c.stdout][CacheIo.StderrFile(dir) := c.stderr];
      assert x.disk.dirs == d1.dirs;
    }
  }

  /** Running touches no file outside the entry's three. */
  lemma ObtainFrame(d: Disk, readOnly: set<Path>, host: Executor.Host, dumps: Json -> string,
                    dir: Path, cmd: seq<string>, cwd: Path, forceRerun: bool, p: Executor.Process, q: Path)
    requires q != CacheIo.StdoutFile(dir) && q != CacheIo.StderrFile(dir) && q != MetadataFile(dir)
    ensures var o := Obtain(d, readOnly, host, dumps, dir, cmd, cwd, forceRerun, p);
      (q in o.disk.files <==> q in d.files) && (q in d.files ==> o.disk.files[q] == d.files[q])
  {
    if !CacheHit(d, dir, forceRerun) {
      var m := d.Mkdir(readOnly, dir);
      if m.Some? {
        var d1 := m.value;
        ExecuteFrame(d1, readOnly, host, cmd, cwd, CacheIo.StdoutFile(dir), CacheIo.StderrFile(dir), p, q);
        RecordFrame(d1, readOnly, host, dumps, dir, cmd, cwd, p, q);
      }
    }
  }

  /** Recording writes only the metadata file besides the two logs. */
  lemma RecordFrame(d1: Disk, readOnly: set<Path>, host: Executor.Host, dumps: Json -> string,
                    dir: Path, cmd: seq<string>, cwd: Path, p: Executor.Process, q: Path)
    requires q != MetadataFile(dir)
    ensures var x := ExecuteWithLogging(d1, readOnly, host, cmd, cwd, CacheIo.StdoutFile(dir), CacheIo.StderrFile(dir), p);
      var o := RunAndRecord(d1, readOnly, host, dumps, dir, cmd, cwd, p);
      (q in o.disk.files <==> q in x.disk.files) && (q in x.disk.files ==> o.disk.files[q] == x.disk.files[q])
  {
  }

  /** Running with logging touches only its two files. */
  lemma ExecuteFrame(d: Disk, readOnly: set<Path>, host: Executor.Host, cmd: seq<string>, cwd: string,
                     outFile: Path, errFile: Path, p: Executor.Process, q: Path)
    requires q != outFile && q != errFile
    ensures var x := ExecuteWithLogging(d, readOnly, host, cmd, cwd, outFile, errFile, p);
      (q in x.disk.files <==> q in d.files) && (q in d.files ==> x.disk.files[q] == d.files[q])
  {
  }

  // ------------------------------------------------------------------
  // The analysis context
  // ------------------------------------------------------------------

  /** `OperationType.BUILD if "build" in cmd else OperationType.RUN`. */
  function OperationOf(cmd: seq<string>): OperationType {
    if "build" in cmd then Build else Run
  }

  /** Only an element equal to `build` counts, not one containing it. */
  lemma OperationOfElements()
    ensures OperationOf(["docker", "buildx"]) == Run
    ensures OperationOf(["docker", "build", "."]) == Build
  {
    assert ["docker", "build", "."][1] == "build";
  }

  /** The Dockerfile read when a path is given and exists: None when there
      is nothing to read, an error when the path is a directory. */
  function ReadDockerfile(d: Disk, path: Option<Path>): (r: Result<Option<(Path, string)>, Error>)
    ensures r.Ok? && r.value.Some? <==> path.Some? && path.value in d.files
    ensures r.Ok? && r.value.Some? ==> r.value.value == (path.value, d.files[path.value])
    ensures r.Err? <==> path.Some? && path.value !in d.files && path.value in d.dirs
  {
    match path
    case None => Ok(None)
    case Some(q) =>
      if !d.Exists(q) then Ok(None)
      else match d.Read(q)
        case None => Err(Raised("Is a directory: " + q))
        case Some(text) => Ok(Some((q, text)))
  }

  /** The context handed to the fixer: a Docker one exactly when a
      non-empty Dockerfile was read. */
  function Context(errorLog: string, cwd: Path, dockerfile: Option<(Path, string)>, cmd: seq<string>)
    : AnalysisContext
  {
    if dockerfile.Some? && dockerfile.value.1 != "" then
      Docker(DockerAnalysisContext(dockerfile.value.1, errorLog, OperationOf(cmd), dockerfile.value.0, cwd, 0), cwd)
    else
      General(GeneralAnalysisContext(errorLog, cwd, 0))
  }

  /** Which context is built, and that either carries the error log, the
      working directory and no earlier attempts. */
  lemma ContextChoice(errorLog: string, cwd: Path, dockerfile: Option<(Path, string)>, cmd: seq<string>)
    ensures var ctx := Context(errorLog, cwd, dockerfile, cmd);
      (ctx.Docker? <==> dockerfile.Some? && dockerfile.value.1 != "")
      && ctx.ErrorLog() == errorLog && ctx.PreviousAttempts() == 0 && GeneralFixer.ContextCwd(ctx) == cwd
      && (ctx.Docker? ==>
            ctx.docker.dockerfileContent == dockerfile.value.1 && ctx.docker.dockerfilePath == dockerfile.value.0
            && ctx.docker.buildContext == cwd && (ctx.docker.operationType == Build <==> "build" in cmd))
  {
  }

  /** As written, the fixer reads `context.cwd`, which a Docker context
      lacks: every run that read a non-empty Dockerfile would stop there. */
  lemma DockerContextFailsAsWritten(errorLog: string, cwd: Path, dockerfile: Option<(Path, string)>, cmd: seq<string>)
    requires dockerfile.Some? && dockerfile.value.1 != ""
    ensures GeneralFixer.ContextCwdAsWritten(Context(errorLog, cwd, dockerfile, cmd)) == Err(AttributeError("cwd"))
  {
  }

  // ------------------------------------------------------------------
  // run_pipeline
  // ------------------------------------------------------------------

  /** How the pipeline ends when nothing is raised. */
  datatype PipelineEnd = Succeeded | FixDisabled | Suggested(suggestion: FixSuggestion)

  /** `DockerFixer.run_pipeline(cmd, cwd, dockerfile_path, no_fix, force_rerun)`,
      with `fixer` the one built over the configured custom prompt. */
  function RunPipeline(d: Disk, readOnly: set<Path>, host: Executor.Host, dumps: Json -> string,
                       cacheDir: Path, cmd2hash: (seq<string>, string) -> string, fixer: GeneralFixer.Fixer,
                       cmd: seq<string>, cwd: Path, dockerfilePath: Option<Path>, noFix: bool, forceRerun: bool,
                       p: Executor.Process): Step<PipelineEnd>
  {
    var o := Obtain(d, readOnly, host, dumps, LogDir(cacheDir, cmd2hash, cmd, cwd), cmd, cwd, forceRerun, p);
    match o.result
    case Err(e) => Step(o.disk, Err(e))
    case Ok(run) =>
      if run.success then Step(o.disk, Ok(Succeeded))
      else if noFix then Step(o.disk, Ok(FixDisabled))
      else match ReadDockerfile(o.disk, dockerfilePath)
        case Err(e) => Step(o.disk, Err(e))
        case Ok(df) =>
          match GeneralFixer.Analyze(fixer, Context(run.errorLog, cwd, df, cmd))
          case Err(e) => Step(o.disk, Err(e))
          case Ok(s) => Step(o.disk, Ok(Suggested(s)))
  }

  /** A success, or a failure with fixing disabled, ends the pipeline before
      the model is consulted: any fixer gives the same end. */
  lemma EndsBeforeAnalysis(d: Disk, readOnly: set<Path>, host: Executor.Host, dumps: Json -> string,
                           cacheDir: Path, cmd2hash: (seq<string>, string) -> string, fixer: GeneralFixer.Fixer,
                           other: GeneralFixer.Fixer,
                           cmd: seq<string>, cwd: Path, dockerfilePath: Option<Path>, noFix: bool, forceRerun: bool,
                           p: Executor.Process)
    ensures var o := Obtain(d, readOnly, host, dumps, LogDir(cacheDir, cmd2hash, cmd, cwd), cmd, cwd, forceRerun, p);
      var r := RunPipeline(d, readOnly, host, dumps, cacheDir, cmd2hash, fixer, cmd, cwd, dockerfilePath,
                           noFix, forceRerun, p);
      o.result.Ok? && (o.result.value.success || noFix) ==>
        r == RunPipeline(d, readOnly, host, dumps, cacheDir, cmd2hash, other, cmd, cwd, dockerfilePath,
                         noFix, forceRerun, p)
        && r == Step(o.disk, Ok(if o.result.value.success then Succeeded else FixDisabled))
  {
  }

  /** Otherwise the suggestion is the general fixer's answer for the context
      built from the error log, and the disk is the one the run left. */
  lemma AnalyzesFailure(d: Disk, readOnly: set<Path>, host: Executor.Host, dumps: Json -> string,
                        cacheDir: Path, cmd2hash: (seq<string>, string) -> string, fixer: GeneralFixer.Fixer,
                        cmd: seq<string>, cwd: Path, dockerfilePath: Option<Path>, noFix: bool, forceRerun: bool,
                        p: Executor.Process)
    ensures var o := Obtain(d, readOnly, host, dumps, LogDir(cacheDir, cmd2hash, cmd, cwd), cmd, cwd, forceRerun, p);
      var r := RunPipeline(d, readOnly, host, dumps, cacheDir, cmd2hash, fixer, cmd, cwd, dockerfilePath,
                           noFix, forceRerun, p);
      var df := ReadDockerfile(o.disk, dockerfilePath);
      r.disk == o.disk
      && (o.result.Ok? && !o.result.value.success && !noFix && df.Ok? ==>
            var a := GeneralFixer.Analyze(fixer,
                                          Context(o.result.value.errorLog, cwd, df.value, cmd));
            (a.Ok? ==> r.result == Ok(Suggested(a.value))) && (a.Err? ==> r.result == Err(a.error)))
      && (r.result.Ok? && r.result.value.Suggested? ==> o.result.Ok? && !o.result.value.success && !noFix)
  {
  }

  /** A pipeline that reused the logs never reports a success. */
  lemma HitNeverSucceeds(d: Disk, readOnly: set<Path>, host: Executor.Host, dumps: Json -> string,
                         cacheDir: Path, cmd2hash: (seq<string>, string) -> string, fixer: GeneralFixer.Fixer,
                         cmd: seq<string>, cwd: Path, dockerfilePath: Option<Path>, noFix: bool, forceRerun: bool,
                         p: Executor.Process)
    requires CacheHit(d, LogDir(cacheDir, cmd2hash, cmd, cwd), forceRerun)
    ensures RunPipeline(d, readOnly, host, dumps, cacheDir, cmd2hash, fixer, cmd, cwd, dockerfilePath,
                        noFix, forceRerun, p).result != Ok(Succeeded)
  {
    HitReusesLogs(d, readOnly, host, dumps, LogDir(cacheDir, cmd2hash, cmd, cwd), cmd, cwd, forceRerun, p, p);
  }

  /** Step 3 on the file system. */
  method ObtainOn(fs: FileSystem, host: Executor.Host, dumps: Json -> string,
                  dir: Path, cmd: seq<string>, cwd: Path, forceRerun: bool, p: Executor.Process)
    returns (r: Result<RunOutcome, Error>)
    modifies fs
    ensures Step(fs.State(), r) == Obtain(old(fs.State()), fs.readOnly, host, dumps, dir, cmd, cwd, forceRerun, p)
  {
    var out := CacheIo.StdoutFile(dir);
    var err := CacheIo.StderrFile(dir);
    if !forceRerun && fs.Exists(out) && fs.Exists(err) {
      if out !in fs.files {
        return Err(Raised("Is a directory: " + out));
      }
      if err !in fs.files {
        return Err(Raised("Is a directory: " + err));
      }
      return Ok(RunOutcome(fs.files[out] + fs.files[err], false));
    }
    var ok := fs.Mkdir(dir);
    if !ok {
      return Err(Raised("cannot create " + dir));
    }
    EntryFilesDistinct(dir);
    var result := ExecuteWithLoggingOn(fs, host, cmd, cwd, out, err, p);
    if result.Err? {
      return Err(result.error);
    }
    var c := result.value;
    ok := fs.WriteText(MetadataFile(dir), dumps(JObject(CacheIo.Meta(c))));
    if !ok {
      return Err(Raised("cannot write " + MetadataFile(dir)));
    }
    r := Ok(RunOutcome(c.stdout + c.stderr, c.success));
  }

  /** `run_pipeline` on the file system. */
  method RunPipelineOn(fs: FileSystem, host: Executor.Host, dumps: Json -> string,
                       cacheDir: Path, cmd2hash: (seq<string>, string) -> string, fixer: GeneralFixer.Fixer,
                       cmd: seq<string>, cwd: Path, dockerfilePath: Option<Path>, noFix: bool, forceRerun: bool,
                       p: Executor.Process)
    returns (r: Result<PipelineEnd, Error>)
    modifies fs
    ensures Step(fs.State(), r) == RunPipeline(old(fs.State()), fs.readOnly, host, dumps, cacheDir, cmd2hash, fixer,
                                               cmd, cwd, dockerfilePath, noFix, forceRerun, p)
  {
    var dir := LogDir(cacheDir, cmd2hash, cmd, cwd);
    var run := ObtainOn(fs, host, dumps, dir, cmd, cwd, forceRerun, p);
    if run.Err? {
      return Err(run.error);
    }
    if run.value.success {
      return Ok(Succeeded);
    }
    if noFix {
      return Ok(FixDisabled);
    }
    var dockerfile: Option<(Path, string)> := None;
    if dockerfilePath.Some? && fs.Exists(dockerfilePath.value) {
      if dockerfilePath.value !in fs.files {
        return Err(Raised("Is a directory: " + dockerfilePath.value));
      }
      dockerfile := Some((dockerfilePath.value, fs.files[dockerfilePath.value]));
    }
    var context := Context(run.value.errorLog, cwd, dockerfile, cmd);
    var suggestion := GeneralFixer.Analyze(fixer, context);
    if suggestion.Err? {
      return Err(suggestion.error);
    }
    r := Ok(Suggested(suggestion.value));
  }
}
