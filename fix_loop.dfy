/** The auto-fix loop of the `docker` command: build (and then run) the
    image; after each failure read the Dockerfile, ask the analyzer for a
    fix, have the user confirm it, apply it and try again, within a budget
    of attempts kept in a `LoopState`. */
module FixLoop {
  import opened Wrappers
  import opened Errors
  import opened Text
  import opened Files
  import opened Schema
  import Executor
  import Brain

  /** Everything the loop does not decide itself: the host, how the process
      of each attempt behaves, the analyzer's model, the decoding of its
      replies and its system prompt, and the user's answers, by phase and
      attempt number. */
  datatype World = World(
    host: Executor.Host,
    process: (OperationType, int) -> Executor.Process,
    chat: (OperationType, int) -> ((string, string) -> Brain.Reply),
    decode: string -> Result<FixSuggestion, Error>,
    confirm: (OperationType, int) -> bool,
    systemPrompt: string)

  /** The analyzer as it answers at an attempt of a phase. */
  function AnalyzerAt(w: World, op: OperationType, attempt: int): Brain.Analyzer {
    Brain.Analyzer(w.systemPrompt, w.chat(op, attempt), w.decode)
  }

  /** The world of `docker_command`, which creates an `Analyzer()`: its
      system prompt is the class's. */
  function DockerWorld(host: Executor.Host, process: (OperationType, int) -> Executor.Process,
                       chat: (OperationType, int) -> ((string, string) -> Brain.Reply),
                       decode: string -> Result<FixSuggestion, Error>,
                       confirm: (OperationType, int) -> bool): World
  {
    World(host, process, chat, decode, confirm, Brain.SystemPrompt)
  }

  /** In that world every analysis is asked of the analyzer `Analyzer()`
      builds, with `SYSTEM_PROMPT`. */
  lemma DockerWorldAnalyzer(host: Executor.Host, process: (OperationType, int) -> Executor.Process,
                            chat: (OperationType, int) -> ((string, string) -> Brain.Reply),
                            decode: string -> Result<FixSuggestion, Error>,
                            confirm: (OperationType, int) -> bool, op: OperationType, attempt: int)
    ensures var a := AnalyzerAt(DockerWorld(host, process, chat, decode, confirm), op, attempt);
      a == Brain.NewAnalyzer(chat(op, attempt), decode) && a.systemPrompt == Brain.SystemPrompt
  {
  }

  /** What a phase of `docker_command` passes to its loop. */
  datatype Phase = Phase(op: OperationType, file: Path, contextPath: string, tag: Option<string>,
                         runArgs: string, noCache: bool, yes: bool)

  /** The command a phase runs: `docker build` over the context, or
      `docker run --rm` with the split run arguments and the tag. */
  function PhaseCommand(ph: Phase): seq<string>
    requires ph.op == Run ==> ph.tag.Some?
  {
    match ph.op
    case Build => Executor.BuildCommand(DockerBuildConfig(ph.contextPath, ph.file, ph.tag, [], ph.noCache))
    case Run => Executor.RunCommand(DockerRunConfig(ph.tag.value, Words(ph.runArgs), false, true))
  }

  // ------------------------------------------------------------------
  // _analyze_and_fix
  // ------------------------------------------------------------------

  /** The context the analyzer is given at attempt `attempt`. */
  function FixContext(ph: Phase, attempt: int, content: string, errorLog: string): (ctx: DockerAnalysisContext)
    ensures ctx.previousAttempts == attempt - 1 && ctx.operationType == ph.op
    ensures ctx.dockerfileContent == content && ctx.errorLog == errorLog
    ensures ctx.dockerfilePath == ph.file && ctx.buildContext == ph.contextPath
  {
    DockerAnalysisContext(content, errorLog, ph.op, ph.file, ph.contextPath, attempt - 1)
  }

  /** `_analyze_and_fix`: true once a fix is applied; false when the
      Dockerfile cannot be read, the analysis fails, the user declines, or
      applying fails. An interrupt passes through. */
  function AnalyzeAndFix(d: Disk, readOnly: set<Path>, w: World, ph: Phase, attempt: int, errorLog: string)
    : Step<bool>
  {
    match Executor.ReadFile(d, ph.file)
    case Err(_) => Step(d, Ok(false))
    case Ok(content) =>
      match Brain.Analyze(AnalyzerAt(w, ph.op, attempt), FixContext(ph, attempt, content, errorLog))
      case Err(e) => if e.AnalysisError? then Step(d, Ok(false)) else Step(d, Err(e))
      case Ok(fix) =>
        if !ph.yes && !w.confirm(ph.op, attempt) then Step(d, Ok(false))
        else
          var o := Executor.ApplyFix(d, readOnly, fix);
          Step(o.disk, Ok(o.failure.None?))
  }

  /** The step applies a fix exactly when the Dockerfile is read, the
      analysis of it (told of the `attempt - 1` earlier attempts) succeeds,
      the user agrees or `yes` is set, and the fix is written; it raises
      only an interrupt; and a declined fix leaves the disk alone. */
  lemma AnalyzeAndFixOutcome(d: Disk, readOnly: set<Path>, w: World, ph: Phase, attempt: int, errorLog: string)
    ensures var s := AnalyzeAndFix(d, readOnly, w, ph, attempt, errorLog);
      var read := Executor.ReadFile(d, ph.file);
      var a := if read.Ok? then Brain.Analyze(AnalyzerAt(w, ph.op, attempt), FixContext(ph, attempt, read.value, errorLog))
               else Err(read.error);
      (s.result == Ok(true) <==>
         read.Ok? && a.Ok? && (ph.yes || w.confirm(ph.op, attempt))
         && Executor.ApplyFix(d, readOnly, a.value).failure.None?)
      && (s.result.Err? ==> s.result.error == Interrupt)
      && (read.Ok? && a.Ok? && (ph.yes || w.confirm(ph.op, attempt)) ==>
            s.disk == Executor.ApplyFix(d, readOnly, a.value).disk)
      && (read.Err? || a.Err? || !(ph.yes || w.confirm(ph.op, attempt)) ==> s.disk == d)
  {
    var read := Executor.ReadFile(d, ph.file);
    if read.Ok? {
      Brain.AnalyzeErrors(AnalyzerAt(w, ph.op, attempt), FixContext(ph, attempt, read.value, errorLog));
    }
  }

  /** With `yes` the user is never asked. */
  lemma YesSkipsConfirmation(d: Disk, readOnly: set<Path>, w: World, ph: Phase, attempt: int, errorLog: string,
                             confirm: (OperationType, int) -> bool)
    requires ph.yes
    ensures AnalyzeAndFix(d, readOnly, w.(confirm := confirm), ph, attempt, errorLog)
         == AnalyzeAndFix(d, readOnly, w, ph, attempt, errorLog)
  {
  }

  /** `_analyze_and_fix` on the file system. */
  method AnalyzeAndFixOn(fs: FileSystem, w: World, ph: Phase, attempt: int, errorLog: string)
    returns (r: Result<bool, Error>)
    modifies fs
    ensures Step(fs.State(), r) == AnalyzeAndFix(old(fs.State()), fs.readOnly, w, ph, attempt, errorLog)
  {
    var content := Executor.ReadFile(fs.State(), ph.file);
    if content.Err? {
      return Ok(false);
    }
    var context := FixContext(ph, attempt, content.value, errorLog);
    var suggestion := Brain.Analyze(AnalyzerAt(w, ph.op, attempt), context);
    if suggestion.Err? {
      if suggestion.error.AnalysisError? {
        return Ok(false);
      }
      return Err(suggestion.error);
    }
    if !ph.yes {
      var apply := w.confirm(ph.op, attempt);
      if !apply {
        return Ok(false);
      }
    }
    var failure := Executor.ApplyFixOn(fs, suggestion.value);
    r := Ok(failure.None?);
  }

  // ------------------------------------------------------------------
  // _build_loop and _run_loop
  // ------------------------------------------------------------------

  /** Where a phase loop stops: the disk, the attempt counter, how many
      commands were run, and the phase's verdict or the exception. */
  datatype LoopEnd = LoopEnd(disk: Disk, attempt: int, runs: nat, result: Result<bool, Error>)

  /** The error pydantic raises for `DockerRunConfig(image=None)`. */
  const NoImage: Error := ValidationError("image: none is not an allowed value")

  /** The outcome of the command of attempt `n`. */
  function Attempt(w: World, ph: Phase, n: int): Result<CommandResult, Error>
    requires ph.op == Run ==> ph.tag.Some?
  {
    Executor.ExecuteResult(w.host, PhaseCommand(ph), None, w.process(ph.op, n))
  }

  /** One turn of the loop at attempt `n` (the counter already raised):
      the loop stops with its end, or goes round again on a new disk. */
  datatype Turn = Stop(end: LoopEnd) | Again(disk: Disk)

  function TakeTurn(d: Disk, readOnly: set<Path>, w: World, ph: Phase, n: int, maxAttempts: int): (t: Turn)
    ensures t.Stop? ==> t.end.attempt == n && t.end.runs <= 1
    ensures t.Stop? && t.end.result == Ok(true) ==>
      t.end.runs == 1 && (ph.op == Run ==> ph.tag.Some?) && Attempt(w, ph, n).Ok? && Attempt(w, ph, n).value.success
    ensures t.Stop? && t.end.runs == 1 && (ph.op == Run ==> ph.tag.Some?) ==>
      (Attempt(w, ph, n).Ok? && Attempt(w, ph, n).value.success ==> t.end.result == Ok(true))
    ensures t.Again? ==>
      n < maxAttempts && (ph.op == Run ==> ph.tag.Some?) && Attempt(w, ph, n).Ok? && !Attempt(w, ph, n).value.success
  {
    if ph.op == Run && ph.tag.None? then Stop(LoopEnd(d, n, 0, Err(NoImage)))
    else
      match Attempt(w, ph, n)
      case Err(e) => Stop(LoopEnd(d, n, 1, Err(e)))
      case Ok(c) =>
        if c.success then Stop(LoopEnd(d, n, 1, Ok(true)))
        else if n >= maxAttempts then Stop(LoopEnd(d, n, 1, Ok(false)))
        else
          var f := AnalyzeAndFix(d, readOnly, w, ph, n, c.Output());
          match f.result
          case Err(e) => Stop(LoopEnd(f.disk, n, 1, Err(e)))
          case Ok(applied) => if applied then Again(f.disk) else Stop(LoopEnd(f.disk, n, 1, Ok(false)))
  }

  /** `_build_loop` / `_run_loop` from counter `attempt`: increment, run,
      stop on success, stop on a failure when the budget is spent, else
      try to fix and go round again only if a fix was applied. */
  function PhaseLoop(d: Disk, readOnly: set<Path>, w: World, ph: Phase, attempt: int, maxAttempts: int): LoopEnd
    decreases maxAttempts - attempt
  {
    if attempt >= maxAttempts then LoopEnd(d, attempt, 0, Ok(false))
    else
      match TakeTurn(d, readOnly, w, ph, attempt + 1, maxAttempts)
      case Stop(e) => e
      case Again(d1) =>
        var rest := PhaseLoop(d1, readOnly, w, ph, attempt + 1, maxAttempts);
        rest.(runs := rest.runs + 1)
  }

  /** The budget: with none left nothing runs; otherwise the counter ends
      above where it started and at most at the maximum, and every command
      run used up one attempt. */
  lemma {:induction false} AttemptBound(d: Disk, readOnly: set<Path>, w: World, ph: Phase, attempt: int,
                                        maxAttempts: int)
    ensures var e := PhaseLoop(d, readOnly, w, ph, attempt, maxAttempts);
      (attempt >= maxAttempts ==> e == LoopEnd(d, attempt, 0, Ok(false)))
      && (attempt < maxAttempts ==> attempt < e.attempt <= maxAttempts && e.runs <= e.attempt - attempt)
    decreases maxAttempts - attempt
  {
    if attempt < maxAttempts {
      var t := TakeTurn(d, readOnly, w, ph, attempt + 1, maxAttempts);
      if t.Again? {
        AttemptBound(t.disk, readOnly, w, ph, attempt + 1, maxAttempts);
      }
    }
  }

  /** The loop reports success exactly when the command of its last
      attempt succeeded; that attempt is the last one run. */
  lemma {:induction false} SuccessIsLastAttempt(d: Disk, readOnly: set<Path>, w: World, ph: Phase, attempt: int,
                                                maxAttempts: int)
    ensures var e := PhaseLoop(d, readOnly, w, ph, attempt, maxAttempts);
      e.result == Ok(true) <==>
        e.runs >= 1 && (ph.op == Run ==> ph.tag.Some?)
        && Attempt(w, ph, e.attempt).Ok? && Attempt(w, ph, e.attempt).value.success
    decreases maxAttempts - attempt
  {
    if attempt < maxAttempts {
      var t := TakeTurn(d, readOnly, w, ph, attempt + 1, maxAttempts);
      if t.Again? {
        SuccessIsLastAttempt(t.disk, readOnly, w, ph, attempt + 1, maxAttempts);
      }
    }
  }

  /** A failure on the last attempt of the budget ends the loop with false
      before the analyzer is asked: the model and the user play no part. */
  lemma ExhaustedSkipsAnalysis(d: Disk, readOnly: set<Path>, w: World, ph: Phase, attempt: int, maxAttempts: int,
                               chat: (OperationType, int) -> ((string, string) -> Brain.Reply),
                               confirm: (OperationType, int) -> bool)
    requires attempt < maxAttempts <= attempt + 1 && (ph.op == Run ==> ph.tag.Some?)
    requires Attempt(w, ph, attempt + 1).Ok? && !Attempt(w, ph, attempt + 1).value.success
    ensures PhaseLoop(d, readOnly, w, ph, attempt, maxAttempts) == LoopEnd(d, attempt + 1, 1, Ok(false))
    ensures PhaseLoop(d, readOnly, w.(chat := chat, confirm := confirm), ph, attempt, maxAttempts)
         == PhaseLoop(d, readOnly, w, ph, attempt, maxAttempts)
  {
  }

  /** A second command is run only after the first failed, budget remained,
      and a fix was applied; the rest of the loop then starts from the disk
      the fix left. */
  lemma RetryNeedsAppliedFix(d: Disk, readOnly: set<Path>, w: World, ph: Phase, attempt: int, maxAttempts: int)
    ensures var e := PhaseLoop(d, readOnly, w, ph, attempt, maxAttempts);
      e.runs >= 2 ==>
        (ph.op == Run ==> ph.tag.Some?) && attempt + 1 < maxAttempts
        && Attempt(w, ph, attempt + 1).Ok? && !Attempt(w, ph, attempt + 1).value.success
        && var f := AnalyzeAndFix(d, readOnly, w, ph, attempt + 1, Attempt(w, ph, attempt + 1).value.Output());
           f.result == Ok(true)
           && e == PhaseLoop(f.disk, readOnly, w, ph, attempt + 1, maxAttempts).(runs := e.runs)
  {
  }

  /** `executor.docker_build(config)` or `executor.docker_run(config)` with
      the configuration the loop builds. */
  method RunAttempt(w: World, ph: Phase, n: int) returns (result: Result<CommandResult, Error>)
    requires ph.op == Run ==> ph.tag.Some?
    ensures result == Attempt(w, ph, n)
  {
    if ph.op == Build {
      var config := DockerBuildConfig(ph.contextPath, ph.file, ph.tag, [], ph.noCache);
      result := Executor.DockerBuild(w.host, config, w.process(ph.op, n));
    } else {
      var config := DockerRunConfig(ph.tag.value, Words(ph.runArgs), false, true);
      result := Executor.DockerRun(w.host, config, w.process(ph.op, n));
    }
  }

  /** A failed command with budget left hands the turn to the fix step. */
  lemma TurnAfterFailure(d: Disk, readOnly: set<Path>, w: World, ph: Phase, n: int, maxAttempts: int)
    requires (ph.op == Run ==> ph.tag.Some?) && n < maxAttempts
    requires Attempt(w, ph, n).Ok? && !Attempt(w, ph, n).value.success
    ensures var f := AnalyzeAndFix(d, readOnly, w, ph, n, Attempt(w, ph, n).value.Output());
      TakeTurn(d, readOnly, w, ph, n, maxAttempts)
      == if f.result == Ok(true) then Again(f.disk)
         else Stop(LoopEnd(f.disk, n, 1, if f.result.Err? then f.result else Ok(false)))
  {
  }

  /** The body of the loop after the counter was raised: run the command,
      and on a failure with budget left, analyze and fix. */
  method TakeTurnOn(fs: FileSystem, state: LoopState, w: World, ph: Phase) returns (stop: bool, r: Result<bool, Error>)
    requires state.operationType == ph.op
    modifies fs
    ensures var t := TakeTurn(old(fs.State()), fs.readOnly, w, ph, state.currentAttempt, state.maxAttempts);
      stop == t.Stop? && (stop ==> fs.State() == t.end.disk && r == t.end.result)
      && (!stop ==> fs.State() == t.disk)
  {
    var n := state.currentAttempt;
    ghost var d := fs.State();
    if ph.op == Run && ph.tag.None? {
      return true, Err(NoImage);
    }
    var result := RunAttempt(w, ph, n);
    if result.Err? {
      return true, Err(result.error);
    }
    if result.value.success {
      return true, Ok(true);
    }
    if !state.CanRetry() {
      return true, Ok(false);
    }
    TurnAfterFailure(d, fs.readOnly, w, ph, n, state.maxAttempts);
    var fixed := AnalyzeAndFixOn(fs, w, ph, n, result.value.Output());
    if fixed.Err? {
      return true, Err(fixed.error);
    }
    stop, r := !fixed.value, Ok(false);
  }

  /** `_build_loop` (for a Build phase) and `_run_loop` (for a Run phase)
      on the shared `LoopState`; the success flag of the phase is set when
      it succeeds. */
  method PhaseLoopOn(fs: FileSystem, state: LoopState, w: World, ph: Phase) returns (r: Result<bool, Error>)
    requires state.operationType == ph.op
    modifies fs, state
    ensures var e := PhaseLoop(old(fs.State()), fs.readOnly, w, ph, old(state.currentAttempt), old(state.maxAttempts));
      fs.State() == e.disk && state.currentAttempt == e.attempt && r == e.result
    ensures state.maxAttempts == old(state.maxAttempts) && state.operationType == old(state.operationType)
    ensures state.lastError == old(state.lastError)
    ensures state.buildSucceeded == (old(state.buildSucceeded) || (ph.op == Build && r == Ok(true)))
    ensures state.runSucceeded == (old(state.runSucceeded) || (ph.op == Run && r == Ok(true)))
    ensures old(state.currentAttempt) <= old(state.maxAttempts) ==>
      old(state.currentAttempt) <= state.currentAttempt <= state.maxAttempts
    ensures old(state.currentAttempt) >= old(state.maxAttempts) ==> state.currentAttempt == old(state.currentAttempt)
  {
    ghost var e0 := PhaseLoop(fs.State(), fs.readOnly, w, ph, state.currentAttempt, state.maxAttempts);
    AttemptBound(fs.State(), fs.readOnly, w, ph, state.currentAttempt, state.maxAttempts);
    while state.CanRetry()
      invariant state.maxAttempts == old(state.maxAttempts) && state.operationType == ph.op
      invariant state.lastError == old(state.lastError)
      invariant state.buildSucceeded == old(state.buildSucceeded) && state.runSucceeded == old(state.runSucceeded)
      invariant SameEnd(PhaseLoop(fs.State(), fs.readOnly, w, ph, state.currentAttempt, state.maxAttempts), e0)
      decreases state.maxAttempts - state.currentAttempt
    {
      var stop, result := LoopBodyOn(fs, state, w, ph, e0);
      if stop {
        if result == Ok(true) {
          if ph.op == Build {
            state.buildSucceeded := true;
          } else {
            state.runSucceeded := true;
          }
        }
        return result;
      }
    }
    r := Ok(false);
  }

  /** One round of the loop: raise the counter and take the turn. A turn
      that stops leaves the loop's end; otherwise the loop from the new
      counter still ends there. */
  method LoopBodyOn(fs: FileSystem, state: LoopState, w: World, ph: Phase, ghost e0: LoopEnd)
    returns (stop: bool, r: Result<bool, Error>)
    requires state.operationType == ph.op && state.CanRetry()
    requires SameEnd(PhaseLoop(fs.State(), fs.readOnly, w, ph, state.currentAttempt, state.maxAttempts), e0)
    modifies fs, state
    ensures state.currentAttempt == old(state.currentAttempt) + 1
    ensures state.maxAttempts == old(state.maxAttempts) && state.operationType == old(state.operationType)
    ensures state.lastError == old(state.lastError)
    ensures state.buildSucceeded == old(state.buildSucceeded) && state.runSucceeded == old(state.runSucceeded)
    ensures stop ==> fs.State() == e0.disk && state.currentAttempt == e0.attempt && r == e0.result
    ensures !stop ==> SameEnd(PhaseLoop(fs.State(), fs.readOnly, w, ph, state.currentAttempt, state.maxAttempts), e0)
  {
    ghost var before := fs.State();
    ghost var attempt := state.currentAttempt;
    state.IncrementAttempt();
    stop, r := TakeTurnOn(fs, state, w, ph);
    if stop {
      TurnStops(before, fs.readOnly, w, ph, attempt, state.maxAttempts, e0);
    } else {
      TurnContinues(before, fs.readOnly, w, ph, attempt, state.maxAttempts, e0);
    }
  }

  /** Two loop ends that agree on all but the number of commands run. */
  predicate SameEnd(e: LoopEnd, e': LoopEnd) {
    e.disk == e'.disk && e.attempt == e'.attempt && e.result == e'.result
  }

  /** A turn that stops ends the loop where the turn ended. */
  lemma TurnStops(d: Disk, readOnly: set<Path>, w: World, ph: Phase, attempt: int, maxAttempts: int, e0: LoopEnd)
    requires attempt < maxAttempts && SameEnd(PhaseLoop(d, readOnly, w, ph, attempt, maxAttempts), e0)
    requires TakeTurn(d, readOnly, w, ph, attempt + 1, maxAttempts).Stop?
    ensures SameEnd(TakeTurn(d, readOnly, w, ph, attempt + 1, maxAttempts).end, e0)
  {
  }

  /** A turn that goes on leaves the rest of the loop to end as the whole
      loop does. */
  lemma TurnContinues(d: Disk, readOnly: set<Path>, w: World, ph: Phase, attempt: int, maxAttempts: int,
                      e0: LoopEnd)
    requires attempt < maxAttempts && SameEnd(PhaseLoop(d, readOnly, w, ph, attempt, maxAttempts), e0)
    ensures var t := TakeTurn(d, readOnly, w, ph, attempt + 1, maxAttempts);
      t.Again? ==> SameEnd(PhaseLoop(t.disk, readOnly, w, ph, attempt + 1, maxAttempts), e0)
  {
  }

  // ------------------------------------------------------------------
  // docker_command
  // ------------------------------------------------------------------

  /** The options of the `docker` command. */
  datatype Options = Options(contextPath: string, file: Path, tag: Option<string>, buildOnly: bool, runOnly: bool,
                             runArgs: string, retry: int, yes: bool, noCache: bool)

  const DefaultTag: string := "fix-compile:latest"

  /** The tag after defaulting: a missing or empty tag becomes the default
      unless only the run phase is wanted. */
  function EffectiveTag(o: Options): (t: Option<string>)
    ensures !o.runOnly && (o.tag.None? || o.tag.value == "") ==> t == Some(DefaultTag)
    ensures o.runOnly || (o.tag.Some? && o.tag.value != "") ==> t == o.tag
  {
    if !o.runOnly && (o.tag.None? || o.tag.value == "") then Some(DefaultTag) else o.tag
  }

  function PhaseOf(o: Options, op: OperationType): Phase {
    Phase(op, o.file, o.contextPath, EffectiveTag(o), o.runArgs, o.noCache, o.yes)
  }

  /** The exit status a phase verdict leads to: an interrupt gives 130,
      any other exception or a failed phase 1. */
  function ExitStatus(r: Result<bool, Error>): int {
    if r == Ok(true) then 0 else if r == Err(Interrupt) then 130 else 1
  }

  /** How `docker_command` ends: the disk, the exit status, and the end of
      each phase that ran. */
  datatype CommandEnd = CommandEnd(disk: Disk, exitCode: int, build: Option<LoopEnd>, run: Option<LoopEnd>)

  /** `docker_command`: check the flags and the Dockerfile, then the build
      phase unless `--run-only`, then the run phase unless `--build-only`,
      the run phase starting again from attempt 0. */
  function DockerCommand(d: Disk, readOnly: set<Path>, w: World, o: Options): CommandEnd {
    if o.runOnly && o.buildOnly then CommandEnd(d, 1, None, None)
    else if !d.Exists(o.file) then CommandEnd(d, 1, None, None)
    else
      var b := if o.runOnly then None else Some(PhaseLoop(d, readOnly, w, PhaseOf(o, Build), 0, o.retry));
      if b.Some? && b.value.result != Ok(true) then CommandEnd(b.value.disk, ExitStatus(b.value.result), b, None)
      else
        var d1 := if b.Some? then b.value.disk else d;
        if o.buildOnly then CommandEnd(d1, 0, b, None)
        else
          var r := PhaseLoop(d1, readOnly, w, PhaseOf(o, Run), 0, o.retry);
          CommandEnd(r.disk, ExitStatus(r.result), b, Some(r))
  }

  /** Both `--run-only` and `--build-only` exit with 1 before anything runs. */
  lemma ConflictingFlags(d: Disk, readOnly: set<Path>, w: World, o: Options)
    requires o.runOnly && o.buildOnly
    ensures DockerCommand(d, readOnly, w, o) == CommandEnd(d, 1, None, None)
  {
  }

  /** The run phase happens only when the build phase succeeded or was
      skipped, and it starts from attempt 0 on the disk the build left;
      each phase runs at most `retry` commands. */
  lemma PhaseSequencing(d: Disk, readOnly: set<Path>, w: World, o: Options)
    ensures var e := DockerCommand(d, readOnly, w, o);
      (e.run.Some? ==> !o.buildOnly && (o.runOnly || (e.build.Some? && e.build.value.result == Ok(true))))
      && (e.run.Some? ==>
            e.run.value == PhaseLoop(if e.build.Some? then e.build.value.disk else d, readOnly, w, PhaseOf(o, Run), 0, o.retry))
      && (e.build.Some? ==> !o.runOnly && e.build.value.runs <= if o.retry > 0 then o.retry else 0)
      && (e.run.Some? ==> e.run.value.runs <= if o.retry > 0 then o.retry else 0)
  {
    var e := DockerCommand(d, readOnly, w, o);
    if !(o.runOnly && o.buildOnly) && d.Exists(o.file) {
      if !o.runOnly {
        AttemptBound(d, readOnly, w, PhaseOf(o, Build), 0, o.retry);
      }
      if e.run.Some? {
        AttemptBound(if e.build.Some? then e.build.value.disk else d, readOnly, w, PhaseOf(o, Run), 0, o.retry);
      }
    }
  }

  /** The command exits with 0 exactly when every phase it was asked for
      succeeded, and with 130 when the phase that ended it was interrupted. */
  lemma ExitCodes(d: Disk, readOnly: set<Path>, w: World, o: Options)
    ensures var e := DockerCommand(d, readOnly, w, o);
      (e.exitCode == 0 <==>
         !(o.runOnly && o.buildOnly) && d.Exists(o.file)
         && (o.runOnly || (e.build.Some? && e.build.value.result == Ok(true)))
         && (o.buildOnly || (e.run.Some? && e.run.value.result == Ok(true))))
      && ((e.build.Some? && e.build.value.result == Err(Interrupt)) ==> e.exitCode == 130)
      && ((e.run.Some? && e.run.value.result == Err(Interrupt)) ==> e.exitCode == 130)
  {
  }

  /** `docker_command` on the file system, with one `LoopState` shared by
      the two phases and reset in between. */
  method DockerCommandOn(fs: FileSystem, w: World, o: Options) returns (exitCode: int)
    modifies fs
    ensures var e := DockerCommand(old(fs.State()), fs.readOnly, w, o);
      fs.State() == e.disk && exitCode == e.exitCode
  {
    if o.runOnly && o.buildOnly {
      return 1;
    }
    var tag := o.tag;
    if !o.runOnly && (tag.None? || tag.value == "") {
      tag := Some(DefaultTag);
    }
    assert tag == EffectiveTag(o);
    if !fs.Exists(o.file) {
      return 1;
    }
    var state := new LoopState(o.retry, Build);
    if !o.runOnly {
      var built := PhaseOn(fs, state, w, o, tag, Build);
      if built != Ok(true) {
        return ExitStatus(built);
      }
    }
    if !o.buildOnly {
      var ran := PhaseOn(fs, state, w, o, tag, Run);
      return ExitStatus(ran);
    }
    exitCode := 0;
  }

  /** One phase of `docker_command`: the shared state is pointed at the
      phase and its counter restarted before the phase's loop runs. */
  method PhaseOn(fs: FileSystem, state: LoopState, w: World, o: Options, tag: Option<string>, op: OperationType)
    returns (r: Result<bool, Error>)
    requires tag == EffectiveTag(o) && state.maxAttempts == o.retry
    modifies fs, state
    ensures var e := PhaseLoop(old(fs.State()), fs.readOnly, w, PhaseOf(o, op), 0, o.retry);
      fs.State() == e.disk && r == e.result
    ensures state.maxAttempts == o.retry
    ensures 0 <= o.retry ==> 0 <= state.currentAttempt <= o.retry
    ensures o.retry <= 0 ==> state.currentAttempt == 0
  {
    state.operationType := op;
    state.currentAttempt := 0;
    r := PhaseLoopOn(fs, state, w, Phase(op, o.file, o.contextPath, tag, o.runArgs, o.noCache, o.yes));
  }
}
