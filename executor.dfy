/** The executor ("the Hand"): assembles Docker command lines, turns a
    finished process into a `CommandResult`, and reads and writes files. The
    process itself is an input: what it printed and how it ended. */
module Executor {
  import opened Wrappers
  import opened Errors
  import opened Text
  import opened Files
  import opened Schema

  /** What the host supplies: `shlex.join` and the current directory. */
  datatype Host = Host(shlexJoin: seq<string> -> string, cwd: string)

  /** How a launched command behaves, as seen by the executor. */
  datatype Process =
    | Exited(exitCode: int, lines: seq<string>, rest: string, stderr: string)
        // `lines` are read one by one until the process has exited; `rest` is
        // what was still in the pipe at that moment
    | NotFound                  // the executable does not exist
    | LaunchFailed(message: string)
    | Interrupted               // the user pressed Ctrl-C meanwhile

  /** The whole standard output of an exited process. */
  function AllOutput(p: Process): string
    requires p.Exited?
  {
    Join(p.lines, "") + p.rest
  }

  /** `cwd or str(Path.cwd())`. */
  function CwdOrCurrent(host: Host, cwd: Option<string>): (r: string)
    ensures cwd.Some? && cwd.value != "" ==> r == cwd.value
    ensures (cwd.None? || cwd.value == "") ==> r == host.cwd
  {
    if cwd.Some? && cwd.value != "" then cwd.value else host.cwd
  }

  /** What `execute` returns or raises in streaming mode, as written: the
      lines read in the loop make up stdout, and `rest` is never read. */
  function ExecuteResultAsWritten(host: Host, cmd: seq<string>, cwd: Option<string>, p: Process)
    : (r: Result<CommandResult, Error>)
    ensures r.Ok? <==> cmd != [] && p.Exited?
    ensures r.Ok? ==> r.value.stdout == Join(p.lines, "")
  {
    if cmd == [] then
      // Popen indexes the empty list
      Err(ExecutionError("Failed to execute command: list index out of range"))
    else
      match p
      case Exited(code, lines, _, err) =>
        Ok(CommandResult(code, Join(lines, ""), err, code == 0, host.shlexJoin(cmd), CwdOrCurrent(host, cwd)))
      case NotFound => Err(ExecutionError("Command not found: " + cmd[0]))
      case LaunchFailed(m) => Err(ExecutionError("Failed to execute command: " + m))
      case Interrupted => Err(Interrupt)
  }

  /** What `execute` returns or raises in streaming mode once the output
      still in the pipe is read too, as `_execute_with_logging` does. */
  function ExecuteResult(host: Host, cmd: seq<string>, cwd: Option<string>, p: Process)
    : (r: Result<CommandResult, Error>)
    ensures r.Ok? <==> cmd != [] && p.Exited?
    ensures r.Ok? ==> (r.value.success <==> r.value.exitCode == 0)
    ensures r.Ok? ==> r.value.exitCode == p.exitCode && r.value.stderr == p.stderr
    ensures r.Ok? ==> r.value.stdout == AllOutput(p)
    ensures r.Ok? ==> r.value.command == host.shlexJoin(cmd) && r.value.cwd == CwdOrCurrent(host, cwd)
    ensures cmd != [] && p.NotFound? ==> r == Err(ExecutionError("Command not found: " + cmd[0]))
    ensures r.Err? ==> r.error.ExecutionError? || (p.Interrupted? && r.error == Interrupt)
  {
    match ExecuteResultAsWritten(host, cmd, cwd, p)
    case Ok(c) => Ok(c.(stdout := AllOutput(p)))
    case Err(e) => Err(e)
  }

  /** As written, output that is still in the pipe when the process is seen
      to exit is lost; the corrected result keeps it, and the two agree
      whenever nothing was left. */
  lemma ExecuteDropsRest(host: Host, cmd: seq<string>, cwd: Option<string>, p: Process)
    requires cmd != [] && p.Exited?
    ensures p.rest != "" ==> ExecuteResultAsWritten(host, cmd, cwd, p).value.stdout != AllOutput(p)
    ensures p.rest == "" ==> ExecuteResultAsWritten(host, cmd, cwd, p) == ExecuteResult(host, cmd, cwd, p)
  {
    if p.rest != "" {
      assert |AllOutput(p)| > |Join(p.lines, "")|;
    } else {
      assert AllOutput(p) == Join(p.lines, "");
    }
  }

  /** The streaming loop: each line read is appended to the output. */
  method ReadLines(lines: seq<string>) returns (stdout: string)
    ensures stdout == Join(lines, "")
  {
    stdout := "";
    var i := 0;
    while i < |lines|
      invariant 0 <= i <= |lines|
      invariant stdout == Join(lines[..i], "")
    {
      JoinSnoc(lines[..i], lines[i], "");
      assert lines[..i + 1] == lines[..i] + [lines[i]];
      stdout := stdout + lines[i];
      i := i + 1;
    }
    assert lines[..i] == lines;
  }

  /** `Executor.execute(cmd, cwd, stream=True)`, reading the rest of the
      pipe after the loop; the loop gathers the lines. */
  method Execute(host: Host, cmd: seq<string>, cwd: Option<string>, p: Process)
    returns (r: Result<CommandResult, Error>)
    ensures r == ExecuteResult(host, cmd, cwd, p)
  {
    if cmd == [] {
      return Err(ExecutionError("Failed to execute command: list index out of range"));
    }
    match p {
      case Exited(code, lines, rest, err) =>
        var stdout := ReadLines(lines);
        stdout := stdout + rest;
        r := Ok(CommandResult(code, stdout, err, code == 0, host.shlexJoin(cmd), CwdOrCurrent(host, cwd)));
      case NotFound =>
        r := Err(ExecutionError("Command not found: " + cmd[0]));
      case LaunchFailed(m) =>
        r := Err(ExecutionError("Failed to execute command: " + m));
      case Interrupted =>
        r := Err(Interrupt);
    }
  }

  // ------------------------------------------------------------------
  // docker build
  // ------------------------------------------------------------------

  /** `if config.tag:` — a tag counts only when it is non-empty. */
  predicate HasTag(c: DockerBuildConfig) {
    c.tag.Some? && c.tag.value != ""
  }

  function BuildArgFlags(args: seq<(string, string)>): seq<string> {
    if args == [] then []
    else ["--build-arg", args[0].0 + "=" + args[0].1] + BuildArgFlags(args[1..])
  }

  lemma {:induction false} BuildArgFlagsSnoc(args: seq<(string, string)>, kv: (string, string))
    ensures BuildArgFlags(args + [kv]) == BuildArgFlags(args) + ["--build-arg", kv.0 + "=" + kv.1]
  {
    if args == [] {
      assert args + [kv] == [kv];
      assert BuildArgFlags([kv][1..]) == [];
    } else {
      assert (args + [kv])[1..] == args[1..] + [kv];
      BuildArgFlagsSnoc(args[1..], kv);
    }
  }

  /** The command line `docker_build` runs. */
  function BuildCommand(c: DockerBuildConfig): seq<string> {
    ["docker", "build"] + TagFlags(c) + NoCacheFlags(c) + FileFlags(c)
    + BuildArgFlags(c.buildArgs) + [c.context]
  }

  /** The list `docker_build` grows with append and extend. */
  method AssembleBuildCommand(c: DockerBuildConfig) returns (cmd: seq<string>)
    ensures cmd == BuildCommand(c)
  {
    cmd := ["docker", "build"];
    if HasTag(c) {
      cmd := cmd + ["-t", c.tag.value];
    }
    assert cmd == ["docker", "build"] + TagFlags(c);
    if c.noCache {
      cmd := cmd + ["--no-cache"];
    }
    assert cmd == ["docker", "build"] + TagFlags(c) + NoCacheFlags(c);
    if c.dockerfile != "Dockerfile" {
      cmd := cmd + ["-f", c.dockerfile];
    }
    assert cmd == ["docker", "build"] + TagFlags(c) + NoCacheFlags(c) + FileFlags(c);
    cmd := AppendBuildArgs(cmd, c.buildArgs);
    cmd := cmd + [c.context];
  }

  /** The loop over `build_args`: two words per pair, in order. */
  method AppendBuildArgs(head: seq<string>, args: seq<(string, string)>) returns (cmd: seq<string>)
    ensures cmd == head + BuildArgFlags(args)
  {
    cmd := head;
    var i := 0;
    while i < |args|
      invariant 0 <= i <= |args|
      invariant cmd == head + BuildArgFlags(args[..i])
    {
      var (key, value) := args[i];
      BuildArgFlagsSnoc(args[..i], args[i]);
      assert args[..i + 1] == args[..i] + [args[i]];
      cmd := cmd + ["--build-arg", key + "=" + value];
      i := i + 1;
    }
    assert args[..i] == args;
  }

  /** `Executor.docker_build(config)`. */
  method DockerBuild(host: Host, c: DockerBuildConfig, p: Process) returns (r: Result<CommandResult, Error>)
    ensures r == ExecuteResult(host, BuildCommand(c), None, p)
  {
    var cmd := AssembleBuildCommand(c);
    r := Execute(host, cmd, None, p);
  }

  /** The part of a `k=v` argument before its first `=`. */
  function KeyPart(s: string): (k: string)
    ensures |k| <= |s| && k == s[..|k|] && '=' !in k
    ensures |k| < |s| ==> s[|k|] == '='
  {
    if s == [] || s[0] == '=' then [] else [s[0]] + KeyPart(s[1..])
  }

  lemma {:induction false} KeyPartOf(k: string, v: string)
    requires '=' !in k
    ensures KeyPart(k + "=" + v) == k
  {
    if k != [] {
      assert (k + "=" + v)[1..] == k[1..] + "=" + v;
      KeyPartOf(k[1..], v);
    }
  }

  function ParseBuildArgs(flags: seq<string>): Option<seq<(string, string)>>
    decreases |flags|
  {
    if flags == [] then Some([])
    else if |flags| >= 2 && flags[0] == "--build-arg" && '=' in flags[1] then
      var k := KeyPart(flags[1]);
      match ParseBuildArgs(flags[2..])
      case None => None
      case Some(rest) => Some([(k, flags[1][|k| + 1..])] + rest)
    else None
  }

  predicate KeysWithoutEq(args: seq<(string, string)>) {
    forall i :: 0 <= i < |args| ==> '=' !in args[i].0
  }

  lemma {:induction false} ParseBuildArgFlags(args: seq<(string, string)>)
    requires KeysWithoutEq(args)
    ensures ParseBuildArgs(BuildArgFlags(args)) == Some(args)
  {
    if args != [] {
      var (k, v) := args[0];
      var flags := BuildArgFlags(args);
      assert flags[0] == "--build-arg" && flags[1] == k + "=" + v;
      assert (k + "=" + v)[|k|] == '=';
      KeyPartOf(k, v);
      assert (k + "=" + v)[|k| + 1..] == v;
      assert flags[2..] == BuildArgFlags(args[1..]);
      ParseBuildArgFlags(args[1..]);
      assert [args[0]] + args[1..] == args;
    }
  }

  /** The optional `-t tag` at the front of the flags. */
  function ParseTag(flags: seq<string>): (Option<string>, seq<string>) {
    if |flags| >= 2 && flags[0] == "-t" then (Some(flags[1]), flags[2..]) else (None, flags)
  }

  /** The optional `--no-cache` next. */
  function ParseNoCache(flags: seq<string>): (bool, seq<string>) {
    if |flags| >= 1 && flags[0] == "--no-cache" then (true, flags[1..]) else (false, flags)
  }

  /** The optional `-f dockerfile` next; without it the default name. */
  function ParseFile(flags: seq<string>): (string, seq<string>) {
    if |flags| >= 2 && flags[0] == "-f" then (flags[1], flags[2..]) else ("Dockerfile", flags)
  }

  /** Reads a build command line back into the configuration it came from. */
  function ParseBuildCommand(cmd: seq<string>): Option<DockerBuildConfig> {
    if |cmd| < 3 || cmd[..2] != ["docker", "build"] then None
    else
      var (tag, f1) := ParseTag(cmd[2..|cmd| - 1]);
      var (noCache, f2) := ParseNoCache(f1);
      var (dockerfile, f3) := ParseFile(f2);
      match ParseBuildArgs(f3)
      case None => None
      case Some(args) => Some(DockerBuildConfig(cmd[|cmd| - 1], dockerfile, tag, args, noCache))
  }

  function TagFlags(c: DockerBuildConfig): seq<string> {
    if HasTag(c) then ["-t", c.tag.value] else []
  }

  function NoCacheFlags(c: DockerBuildConfig): seq<string> {
    if c.noCache then ["--no-cache"] else []
  }

  function FileFlags(c: DockerBuildConfig): seq<string> {
    if c.dockerfile != "Dockerfile" then ["-f", c.dockerfile] else []
  }

  /** An empty tag behaves as no tag. */
  function NormalTag(c: DockerBuildConfig): DockerBuildConfig {
    if HasTag(c) then c else c.(tag := None)
  }

  lemma ParseFileStage(c: DockerBuildConfig)
    ensures ParseFile(FileFlags(c) + BuildArgFlags(c.buildArgs)) == (c.dockerfile, BuildArgFlags(c.buildArgs))
  {
    var a := BuildArgFlags(c.buildArgs);
    assert a != [] ==> a[0] == "--build-arg";
    var f := FileFlags(c) + a;
    if c.dockerfile != "Dockerfile" {
      assert f[0] == "-f" && f[1] == c.dockerfile && f[2..] == a;
    } else {
      assert f == a;
      assert a != [] ==> a[0] != "-f";
    }
  }

  lemma ParseNoCacheStage(c: DockerBuildConfig, rest: seq<string>)
    requires rest == [] || rest[0] in {"-f", "--build-arg"}
    ensures ParseNoCache(NoCacheFlags(c) + rest) == (c.noCache, rest)
  {
    var f := NoCacheFlags(c) + rest;
    if c.noCache {
      assert f[0] == "--no-cache" && f[1..] == rest;
    } else {
      assert f == rest;
      assert rest != [] ==> rest[0] != "--no-cache";
    }
  }

  lemma ParseTagStage(c: DockerBuildConfig, rest: seq<string>)
    requires rest == [] || rest[0] in {"--no-cache", "-f", "--build-arg"}
    ensures ParseTag(TagFlags(c) + rest) == (NormalTag(c).tag, rest)
  {
    var f := TagFlags(c) + rest;
    if HasTag(c) {
      assert f[0] == "-t" && f[1] == c.tag.value && f[2..] == rest;
    } else {
      assert f == rest;
      assert rest != [] ==> rest[0] != "-t";
    }
  }

  /** The build command determines the configuration: tag (when non-empty),
      `--no-cache`, the Dockerfile, every build argument in order, and the
      context can all be read back from it. */
  lemma {:induction false} BuildCommandRoundTrip(c: DockerBuildConfig)
    requires KeysWithoutEq(c.buildArgs)
    ensures ParseBuildCommand(BuildCommand(c)) == Some(NormalTag(c))
  {
    var a := BuildArgFlags(c.buildArgs);
    var f2 := FileFlags(c) + a;
    var f1 := NoCacheFlags(c) + f2;
    var flags := TagFlags(c) + f1;
    assert BuildCommand(c) == ["docker", "build"] + flags + [c.context];
    CommandLineParts(flags, c.context);
    assert a != [] ==> a[0] == "--build-arg";
    ParseFileStage(c);
    ParseNoCacheStage(c, f2);
    ParseTagStage(c, f1);
    ParseBuildArgFlags(c.buildArgs);
  }

  /** The flags and the context of a `docker build` command line. */
  lemma CommandLineParts(flags: seq<string>, context: string)
    ensures var cmd := ["docker", "build"] + flags + [context];
      |cmd| >= 3 && cmd[..2] == ["docker", "build"] && cmd[2..|cmd| - 1] == flags && cmd[|cmd| - 1] == context
  {
    var cmd := ["docker", "build"] + flags + [context];
    assert cmd[2..|cmd| - 1] == flags;
  }

  /** Two configurations with the same command line differ at most in an
      empty versus absent tag. */
  lemma BuildCommandInjective(c1: DockerBuildConfig, c2: DockerBuildConfig)
    requires KeysWithoutEq(c1.buildArgs) && KeysWithoutEq(c2.buildArgs)
    requires BuildCommand(c1) == BuildCommand(c2)
    ensures NormalTag(c1) == NormalTag(c2)
  {
    BuildCommandRoundTrip(c1);
    BuildCommandRoundTrip(c2);
  }

  /** Where each part of a build command sits. */
  lemma BuildCommandShape(c: DockerBuildConfig)
    ensures var cmd := BuildCommand(c);
      |cmd| >= 3 && cmd[..2] == ["docker", "build"] && cmd[|cmd| - 1] == c.context
      && (HasTag(c) ==> cmd[2..4] == ["-t", c.tag.value])
  {
  }

  // ------------------------------------------------------------------
  // docker run
  // ------------------------------------------------------------------

  /** The command line `docker_run` runs: `--rm` iff `remove`, then `-d` iff
      `detach`, then the user arguments in order, then the image. */
  function RunCommand(c: DockerRunConfig): (cmd: seq<string>)
    ensures var flags := (if c.remove then 1 else 0) + (if c.detach then 1 else 0);
      |cmd| == 3 + flags + |c.args|
      && cmd[..2] == ["docker", "run"]
      && (c.remove ==> cmd[2] == "--rm")
      && (c.detach ==> cmd[2 + (if c.remove then 1 else 0)] == "-d")
      && cmd[2 + flags..|cmd| - 1] == c.args
      && cmd[|cmd| - 1] == c.image
  {
    ["docker", "run"]
    + (if c.remove then ["--rm"] else [])
    + (if c.detach then ["-d"] else [])
    + c.args
    + [c.image]
  }

  /** `Executor.docker_run(config)`. */
  method DockerRun(host: Host, c: DockerRunConfig, p: Process) returns (r: Result<CommandResult, Error>)
    ensures r == ExecuteResult(host, RunCommand(c), None, p)
  {
    r := Execute(host, RunCommand(c), None, p);
  }

  // ------------------------------------------------------------------
  // Files
  // ------------------------------------------------------------------

  /** A failed file operation leaves an error; a successful one none. */
  datatype Outcome = Outcome(disk: Disk, failure: Option<Error>)

  /** The directory part of a path. */
  function Parent(p: Path): Path {
    match LastSlash(p, |p|)
    case None => "."
    case Some(i) => if i == 0 then "/" else p[..i]
  }

  function LastSlash(p: Path, n: nat): (r: Option<nat>)
    requires n <= |p|
    ensures r.Some? ==> r.value < n && p[r.value] == '/'
    ensures r.Some? ==> forall k :: r.value < k < n ==> p[k] != '/'
    ensures r.None? ==> forall k :: 0 <= k < n ==> p[k] != '/'
  {
    if n == 0 then None
    else if p[n - 1] == '/' then Some(n - 1)
    else LastSlash(p, n - 1)
  }

  /** `Executor.read_file(p)`. */
  function ReadFile(d: Disk, p: Path): (r: Result<string, Error>)
    ensures r.Ok? <==> p in d.files
    ensures r.Ok? ==> r.value == d.files[p]
    ensures r.Err? ==> r.error.ExecutionError?
  {
    if p in d.files then Ok(d.files[p])
    else if p in d.dirs then Err(ExecutionError("Failed to read " + p + ": Is a directory"))
    else Err(ExecutionError("File not found: " + p))
  }

  /** `Executor.write_file(p, content)`: create the parent directory, then
      write. `None` stands for a missing value, which `write_text` refuses. */
  function WriteFile(d: Disk, readOnly: set<Path>, p: Option<Path>, content: Option<string>): (r: Outcome)
    ensures r.failure.None? <==>
      p.Some? && content.Some? && d.Mkdir(readOnly, Parent(p.value)).Some?
      && d.Mkdir(readOnly, Parent(p.value)).value.CanWrite(readOnly, p.value)
    ensures r.failure.None? ==> r.disk.files == d.files[p.value := content.value]
    ensures r.failure.Some? ==> r.failure.value.ExecutionError? && r.disk.files == d.files
    ensures d.dirs <= r.disk.dirs && forall q :: q in r.disk.dirs && q !in d.dirs ==> p.Some? && q in Chain(Parent(p.value))
  {
    if p.None? then Outcome(d, Some(ExecutionError("Failed to write None")))
    else
      var path := p.value;
      match d.Mkdir(readOnly, Parent(path))
      case None => Outcome(d, Some(ExecutionError("Failed to write " + path + ": cannot create parent directory")))
      case Some(d1) =>
        if content.None? then Outcome(d1, Some(ExecutionError("Failed to write " + path + ": no content")))
        else
          match d1.Write(readOnly, path, content.value)
          case None => Outcome(d1, Some(ExecutionError("Failed to write " + path + ": not writable")))
          case Some(d2) => Outcome(d2, None)
  }

  /** A fix whose path lies under an existing file is refused: with a file
      `Dockerfile`, writing `Dockerfile/sub/x` raises and changes nothing. */
  lemma WriteUnderFileFails(text: string, content: string)
    ensures var d := Disk(map["Dockerfile" := text], {});
      var r := WriteFile(d, {}, Some("Dockerfile/sub/x"), Some(content));
      r.failure.Some? && r.failure.value.ExecutionError? && r.disk == d
  {
    var p := "Dockerfile/sub/x";
    assert LastSlash(p, |p|) == Some(14);
    assert Parent(p) == "Dockerfile/sub";
    assert "Dockerfile/sub"[..10] == "Dockerfile";
    MkdirUnderFile(Disk(map["Dockerfile" := text], {}), {}, "Dockerfile/sub", 10);
  }

  method WriteFileOn(fs: FileSystem, p: Option<Path>, content: Option<string>) returns (failure: Option<Error>)
    modifies fs
    ensures Outcome(fs.State(), failure) == WriteFile(old(fs.State()), fs.readOnly, p, content)
  {
    if p.None? {
      return Some(ExecutionError("Failed to write None"));
    }
    var path := p.value;
    var made := fs.Mkdir(Parent(path));
    if !made {
      return Some(ExecutionError("Failed to write " + path + ": cannot create parent directory"));
    }
    if content.None? {
      return Some(ExecutionError("Failed to write " + path + ": no content"));
    }
    var wrote := fs.WriteText(path, content.value);
    failure := if wrote then None else Some(ExecutionError("Failed to write " + path + ": not writable"));
  }

  function BackupPath(p: Path): Path {
    p + ".backup"
  }

  /** The backup sits in the target's directory: the suffix holds no "/". */
  lemma BackupSameParent(p: Path)
    ensures Parent(BackupPath(p)) == Parent(p)
  {
    var q := BackupPath(p);
    LastSlashSkip(q, |q|, |p|);
    assert q[..|p|] == p[..|p|];
    LastSlashPrefix(p, q, |p|);
    match LastSlash(p, |p|)
    case None =>
    case Some(i) => assert q[..i] == p[..i];
  }

  /** Past the end of a run without "/", the search starts where the run does. */
  lemma {:induction false} LastSlashSkip(q: Path, n: nat, m: nat)
    requires m <= n <= |q|
    requires forall k :: m <= k < n ==> q[k] != '/'
    ensures LastSlash(q, n) == LastSlash(q, m)
    decreases n - m
  {
    if n > m {
      LastSlashSkip(q, n - 1, m);
    }
  }

  /** The search sees only the first `n` characters. */
  lemma {:induction false} LastSlashPrefix(p: Path, q: Path, n: nat)
    requires n <= |p| && n <= |q| && p[..n] == q[..n]
    ensures LastSlash(p, n) == LastSlash(q, n)
    decreases n
  {
    if n > 0 {
      assert p[n - 1] == p[..n][n - 1] == q[..n][n - 1] == q[n - 1];
      assert p[..n - 1] == p[..n][..n - 1];
      assert q[..n - 1] == q[..n][..n - 1];
      LastSlashPrefix(p, q, n - 1);
    }
  }

  /** `Executor.apply_fix(fix)`: copy the target to its `.backup` sibling when
      it can be read and copied (a failure there is ignored), then write the
      new content; only the last write can fail the call. The fix type plays
      no part. */
  function ApplyFix(d: Disk, readOnly: set<Path>, fix: FixSuggestion): Outcome {
    var afterBackup :=
      if fix.filePath.None? then d
      else match ReadFile(d, fix.filePath.value)
        case Err(_) => d
        case Ok(original) => WriteFile(d, readOnly, Some(BackupPath(fix.filePath.value)), Some(original)).disk;
    WriteFile(afterBackup, readOnly, fix.filePath, fix.newContent)
  }

  method ApplyFixOn(fs: FileSystem, fix: FixSuggestion) returns (failure: Option<Error>)
    modifies fs
    ensures Outcome(fs.State(), failure) == ApplyFix(old(fs.State()), fs.readOnly, fix)
  {
    if fix.filePath.Some? {
      var original := ReadFile(fs.State(), fix.filePath.value);
      if original.Ok? {
        var _ := WriteFileOn(fs, Some(BackupPath(fix.filePath.value)), Some(original.value));
      }
    }
    failure := WriteFileOn(fs, fix.filePath, fix.newContent);
  }

  /** A write can go ahead: the parent directory exists or can be made, and
      the path itself is writable. */
  predicate Writable(d: Disk, readOnly: set<Path>, p: Path) {
    d.Mkdir(readOnly, Parent(p)).Some? && d.Mkdir(readOnly, Parent(p)).value.CanWrite(readOnly, p)
  }

  /** On a readable target whose backup and target writes go through, the
      backup holds the old content and the target the new one. */
  lemma ApplyFixOnExisting(d: Disk, readOnly: set<Path>, fix: FixSuggestion)
    requires d.Valid()
    requires fix.filePath.Some? && fix.newContent.Some?
    requires fix.filePath.value in d.files
    requires Writable(d, readOnly, BackupPath(fix.filePath.value))
    requires fix.filePath.value !in readOnly
    ensures var p := fix.filePath.value;
      ApplyFix(d, readOnly, fix).failure.None?
      && ApplyFix(d, readOnly, fix).disk.files
         == d.files[BackupPath(p) := d.files[p]][p := fix.newContent.value]
  {
    var p := fix.filePath.value;
    BackupSameParent(p);
    ChainHolds(Parent(p));
    var d1 := WriteFile(d, readOnly, Some(BackupPath(p)), Some(d.files[p])).disk;
    assert d1.dirs == d.Mkdir(readOnly, Parent(p)).value.dirs;
    assert p !in d1.dirs;
  }

  /** When the target cannot be read, no backup is written and the outcome
      is that of writing the target alone. */
  lemma ApplyFixWithoutBackup(d: Disk, readOnly: set<Path>, fix: FixSuggestion)
    requires fix.filePath.None? || fix.filePath.value !in d.files
    ensures ApplyFix(d, readOnly, fix) == WriteFile(d, readOnly, fix.filePath, fix.newContent)
  {
  }

  /** A fix changes no file but its target and the target's backup; a fix
      without a path changes nothing and fails. */
  lemma ApplyFixFrame(d: Disk, readOnly: set<Path>, fix: FixSuggestion, q: Path)
    requires fix.filePath.None? || (q != fix.filePath.value && q != BackupPath(fix.filePath.value))
    ensures var r := ApplyFix(d, readOnly, fix);
      (q in r.disk.files <==> q in d.files) && (q in d.files ==> r.disk.files[q] == d.files[q])
    ensures fix.filePath.None? ==> ApplyFix(d, readOnly, fix) == Outcome(d, Some(ExecutionError("Failed to write None")))
  {
  }

  /** The fix type does not influence what `apply_fix` does. */
  lemma ApplyFixIgnoresType(d: Disk, readOnly: set<Path>, fix: FixSuggestion, t: FixType)
    ensures ApplyFix(d, readOnly, fix.(fixType := t)) == ApplyFix(d, readOnly, fix)
  {
  }
}
