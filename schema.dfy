/** The data model shared by every component: enumerations, the fix
    suggestion an analyzer returns, the result of running a command, the
    configurations of a Docker build and run, the inputs of the analyzers, and
    the mutable state of the retry loop. */
module Schema {
  import opened Wrappers
  import opened Errors

  // ------------------------------------------------------------------
  // Enumerations, each with the string value it has in Python
  // ------------------------------------------------------------------

  datatype ProblemType =
    | PathNotFound | PermissionDenied | InvalidSyntax | MissingDependency
    | ImageNotFound | BuildContextError | UnknownProblem
  {
    function Value(): string {
      match this
      case PathNotFound => "path_not_found"
      case PermissionDenied => "permission_denied"
      case InvalidSyntax => "invalid_syntax"
      case MissingDependency => "missing_dependency"
      case ImageNotFound => "image_not_found"
      case BuildContextError => "build_context_error"
      case UnknownProblem => "unknown"
    }
  }

  datatype OperationType = Build | Run {
    function Value(): string {
      match this
      case Build => "build"
      case Run => "run"
    }
  }

  datatype FixType = CommandFix | FileFix | DockerFix {
    function Value(): string {
      match this
      case CommandFix => "command"
      case FileFix => "file"
      case DockerFix => "docker"
    }
  }

  // ------------------------------------------------------------------
  // Records of the rule-based fixer
  // ------------------------------------------------------------------

  datatype DockerfileProblem = DockerfileProblem(
    dockerfilePath: string,
    errorMessage: string,
    problemType: Option<ProblemType>,
    buildContext: Option<string>)

  datatype FixResult = FixResult(
    success: bool,
    originalDockerfile: string,
    fixedDockerfile: string,
    explanation: string,
    confidence: real)

  // ------------------------------------------------------------------
  // Analyzer inputs
  // ------------------------------------------------------------------

  datatype GeneralAnalysisContext = GeneralAnalysisContext(
    errorLog: string,
    cwd: string,
    previousAttempts: int)

  datatype DockerAnalysisContext = DockerAnalysisContext(
    dockerfileContent: string,
    errorLog: string,
    operationType: OperationType,
    dockerfilePath: string,
    buildContext: string,
    previousAttempts: int)

  /** Either kind of context, as handed to a fixer that accepts both. A
      Docker context also records the `cwd` keyword its caller passed:
      `DockerAnalysisContext` declares no such field, so pydantic drops it. */
  datatype AnalysisContext =
    | General(general: GeneralAnalysisContext)
    | Docker(docker: DockerAnalysisContext, cwdArgument: string)
  {
    function PreviousAttempts(): int {
      match this
      case General(g) => g.previousAttempts
      case Docker(d, _) => d.previousAttempts
    }

    function ErrorLog(): string {
      match this
      case General(g) => g.errorLog
      case Docker(d, _) => d.errorLog
    }
  }

  // ------------------------------------------------------------------
  // Analyzer output
  // ------------------------------------------------------------------

  /** The range pydantic enforces on `confidence`. */
  type Confidence = r: real | 0.0 <= r <= 1.0

  datatype FixSuggestion = FixSuggestion(
    reason: string,
    fixType: FixType,
    command: Option<string>,
    commandExplanation: Option<string>,
    filePath: Option<string>,
    newContent: Option<string>,
    fileExplanation: Option<string>,
    dockerfilePath: Option<string>,
    dockerfileContent: Option<string>,
    confidence: Confidence,
    changesSummary: string)

  /** The keyword arguments of a `FixSuggestion(...)` call before pydantic
      has checked them. */
  datatype FixFields = FixFields(
    reason: string,
    fixType: FixType,
    command: Option<string>,
    commandExplanation: Option<string>,
    filePath: Option<string>,
    newContent: Option<string>,
    fileExplanation: Option<string>,
    dockerfilePath: Option<string>,
    dockerfileContent: Option<string>,
    confidence: real,
    changesSummary: string)

  /** The fields a suggestion was made from. */
  function FieldsOf(s: FixSuggestion): FixFields {
    FixFields(s.reason, s.fixType, s.command, s.commandExplanation, s.filePath,
              s.newContent, s.fileExplanation, s.dockerfilePath, s.dockerfileContent,
              s.confidence, s.changesSummary)
  }

  /** Constructing a `FixSuggestion`: a ValidationError unless the
      confidence lies in [0, 1]; otherwise every field is kept. */
  function NewFixSuggestion(f: FixFields): (r: Result<FixSuggestion, Error>)
    ensures r.Ok? <==> 0.0 <= f.confidence <= 1.0
    ensures r.Ok? ==> FieldsOf(r.value) == f
    ensures r.Err? ==> r.error.ValidationError?
  {
    if 0.0 <= f.confidence <= 1.0 then
      Ok(FixSuggestion(f.reason, f.fixType, f.command, f.commandExplanation, f.filePath,
                       f.newContent, f.fileExplanation, f.dockerfilePath, f.dockerfileContent,
                       f.confidence, f.changesSummary))
    else
      Err(ValidationError("confidence must be between 0.0 and 1.0"))
  }

  /** Every suggestion passes validation again unchanged. */
  lemma RevalidateSuggestion(s: FixSuggestion)
    ensures NewFixSuggestion(FieldsOf(s)) == Ok(s)
  {
  }

  // ------------------------------------------------------------------
  // Command execution
  // ------------------------------------------------------------------

  datatype CommandResult = CommandResult(
    exitCode: int,
    stdout: string,
    stderr: string,
    success: bool,
    command: string,
    cwd: string)
  {
    /** The combined output: stderr for a failure that wrote to it, otherwise
        stdout when non-empty, otherwise stderr. */
    function Output(): (r: string)
      ensures r == stdout || r == stderr
      ensures r == "" <==> stdout == "" && stderr == ""
    {
      if !success && stderr != "" then stderr
      else if stdout != "" then stdout
      else stderr
    }
  }

  /** A failed command that wrote to stderr reports stderr. */
  lemma OutputOfFailure(c: CommandResult)
    requires !c.success && c.stderr != ""
    ensures c.Output() == c.stderr
  {
  }

  /** In every other case stdout wins unless it is empty. */
  lemma OutputOtherwise(c: CommandResult)
    requires c.success || c.stderr == ""
    ensures c.stdout != "" ==> c.Output() == c.stdout
    ensures c.stdout == "" ==> c.Output() == c.stderr
  {
  }

  /** The two results of the architecture tests and their outputs. */
  method OutputExamples() returns (succeeded: string, failed: string)
    ensures succeeded == "Success"
    ensures failed == "Build failed"
  {
    var ok := CommandResult(0, "Success", "", true, "docker build .", "/home/user/project");
    var bad := CommandResult(1, "", "Build failed", false, "docker build .", "/home/user/project");
    succeeded := ok.Output();
    failed := bad.Output();
  }

  // ------------------------------------------------------------------
  // Docker configurations
  // ------------------------------------------------------------------

  /** `build_args` is a dictionary; its items are kept in insertion order. */
  datatype DockerBuildConfig = DockerBuildConfig(
    context: string,
    dockerfile: string,
    tag: Option<string>,
    buildArgs: seq<(string, string)>,
    noCache: bool)

  function DefaultBuildConfig(): DockerBuildConfig {
    DockerBuildConfig(".", "Dockerfile", None, [], false)
  }

  datatype DockerRunConfig = DockerRunConfig(
    image: string,
    args: seq<string>,
    detach: bool,
    remove: bool)

  // ------------------------------------------------------------------
  // Loop state
  // ------------------------------------------------------------------

  class LoopState {
    var currentAttempt: int
    var maxAttempts: int
    var lastError: Option<string>
    var operationType: OperationType
    var buildSucceeded: bool
    var runSucceeded: bool

    constructor (maxAttempts: int, operationType: OperationType)
      ensures currentAttempt == 0 && this.maxAttempts == maxAttempts
      ensures lastError == None && this.operationType == operationType
      ensures !buildSucceeded && !runSucceeded
    {
      currentAttempt := 0;
      this.maxAttempts := maxAttempts;
      lastError := None;
      this.operationType := operationType;
      buildSucceeded := false;
      runSucceeded := false;
    }

    predicate CanRetry()
      reads this
    {
      currentAttempt < maxAttempts
    }

    method IncrementAttempt()
      modifies this
      ensures currentAttempt == old(currentAttempt) + 1
      ensures maxAttempts == old(maxAttempts) && lastError == old(lastError)
      ensures operationType == old(operationType)
      ensures buildSucceeded == old(buildSucceeded) && runSucceeded == old(runSucceeded)
    {
      currentAttempt := currentAttempt + 1;
    }
  }

  /** A fresh state with three attempts may retry, still may after one
      increment, and may not after three. */
  method LoopStateExample() returns (fresh0: bool, afterOne: bool, afterThree: bool, attempts: int)
    ensures fresh0 && afterOne && !afterThree
    ensures attempts == 3
  {
    var state := new LoopState(3, Build);
    fresh0 := state.CanRetry();
    state.IncrementAttempt();
    afterOne := state.CanRetry();
    state.IncrementAttempt();
    state.IncrementAttempt();
    afterThree := state.CanRetry();
    attempts := state.currentAttempt;
  }
}
