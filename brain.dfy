/** The Docker analyzer: the user prompt it sends with its fixed system
    prompt, and how the outcome of the model call becomes a suggestion or an
    `AnalysisError`. The call and the decoding of its JSON reply are given
    as functions. */
module Brain {
  import opened Wrappers
  import opened Errors
  import opened Text
  import opened Schema

  /** `Analyzer.SYSTEM_PROMPT`. */
  const SystemPromptLines: seq<string> := [
    "You are an expert Docker and DevOps engineer specialized in diagnosing and fixing Docker build and runtime errors.",
    "",
    "Your task is to analyze Docker errors and provide precise, actionable fixes.",
    "",
    "Guidelines:",
    "1. Analyze the error log carefully to identify the root cause",
    "2. Provide a fix that addresses the root cause, not just symptoms",
    "3. Maintain the original functionality and intent of the Dockerfile",
    "4. Follow Docker best practices (layer caching, minimal layers, security)",
    "5. Be minimal - only change what's necessary",
    "6. Always provide a clear explanation of what went wrong and why your fix works",
    "",
    "You MUST respond with valid JSON matching this exact schema:",
    "{",
    "    \"reason\": \"Detailed explanation of the error and why it occurred\",",
    "    \"file_path\": \"Path to the file to modify (usually 'Dockerfile')\",",
    "    \"new_content\": \"Complete new content of the file\",",
    "    \"confidence\": 0.85,",
    "    \"changes_summary\": \"Brief summary of changes made\"",
    "}"]

  const SystemPrompt: string := Join(SystemPromptLines, "\n")

  const EmptyReply: string := "LLM returned empty response"

  const RequestLine: string := "Please analyze this error and provide a fix as JSON."

  /** The caution line added after earlier attempts. */
  function WarningLine(previousAttempts: int): string {
    "\U{26A0}\U{FE0F} Previous fix attempts: " + IntToString(previousAttempts) + " (be more careful!)"
  }

  /** The opening lines: the operation, the Dockerfile and the context, then
      the caution line when there were earlier attempts. */
  function Header(ctx: DockerAnalysisContext): seq<string> {
    ["Operation: Docker " + ctx.operationType.Value(),
     "Dockerfile path: " + ctx.dockerfilePath,
     "Build context: " + ctx.buildContext]
    + if ctx.previousAttempts > 0 then [WarningLine(ctx.previousAttempts)] else []
  }

  /** The fenced Dockerfile and error log and the closing request. */
  function Body(ctx: DockerAnalysisContext): seq<string> {
    ["", "=== DOCKERFILE ===", "```dockerfile", ctx.dockerfileContent, "```",
     "", "=== ERROR LOG ===", "```", ctx.errorLog, "```",
     "", RequestLine]
  }

  /** The list `_build_user_prompt` assembles. */
  function UserPromptParts(ctx: DockerAnalysisContext): seq<string> {
    Header(ctx) + Body(ctx)
  }

  /** `Analyzer._build_user_prompt(context)`. */
  function UserPrompt(ctx: DockerAnalysisContext): string {
    Join(UserPromptParts(ctx), "\n")
  }

  /** Where the parts sit: the three opening lines in order, the caution
      line exactly when there were earlier attempts, the Dockerfile between
      its fences, then the error log between its own, and the request last. */
  lemma UserPromptLayout(ctx: DockerAnalysisContext)
    ensures var parts := UserPromptParts(ctx);
      var k := if ctx.previousAttempts > 0 then 4 else 3;
      |parts| == k + 12
      && parts[0] == "Operation: Docker " + ctx.operationType.Value()
      && parts[1] == "Dockerfile path: " + ctx.dockerfilePath
      && parts[2] == "Build context: " + ctx.buildContext
      && (ctx.previousAttempts > 0 <==> k == 4)
      && (k == 4 ==> parts[3] == WarningLine(ctx.previousAttempts))
      && parts[k + 2] == "```dockerfile" && parts[k + 3] == ctx.dockerfileContent && parts[k + 4] == "```"
      && parts[k + 6] == "=== ERROR LOG ===" && parts[k + 7] == "```" && parts[k + 8] == ctx.errorLog
      && parts[k + 9] == "```"
      && parts[k + 11] == RequestLine
  {
  }

  /** The caution line is present exactly when there were earlier attempts:
      without them the fourth part is the blank line before the Dockerfile. */
  lemma WarningIff(ctx: DockerAnalysisContext)
    ensures UserPromptParts(ctx)[3] == WarningLine(ctx.previousAttempts) <==> ctx.previousAttempts > 0
  {
    assert |WarningLine(ctx.previousAttempts)| > 0;
  }

  /** The prompt ends with the request line. */
  lemma UserPromptEnds(ctx: DockerAnalysisContext)
    ensures var p := UserPrompt(ctx);
      |p| >= |RequestLine| && p[|p| - |RequestLine|..] == RequestLine
  {
    var parts := UserPromptParts(ctx);
    assert parts[|parts| - 1] == RequestLine;
    JoinLast(parts, "\n");
  }

  /** What the model call comes back with: the message content (None or
      text), or the exception the client raised. */
  datatype Reply = Answered(content: Option<string>) | CallFailed(error: Error)

  /** An `Analyzer`: the system prompt it sends (its `SYSTEM_PROMPT`), the
      model it calls with the system and user prompts, and the decoding of
      a reply, which is `json.loads` followed by `FixSuggestion(**...)` and
      fails with a JsonDecodeError, a ValidationError or another exception. */
  datatype Analyzer = Analyzer(systemPrompt: string, chat: (string, string) -> Reply,
                               decode: string -> Result<FixSuggestion, Error>)

  /** `Analyzer()`: the class's own system prompt. */
  function NewAnalyzer(chat: (string, string) -> Reply, decode: string -> Result<FixSuggestion, Error>): Analyzer {
    Analyzer(SystemPrompt, chat, decode)
  }

  /** `Analyzer.analyze(context)`. Every exception is reported as an
      `AnalysisError`, except an interrupt, which passes through. */
  function Analyze(a: Analyzer, ctx: DockerAnalysisContext): Result<FixSuggestion, Error>
  {
    match a.chat(a.systemPrompt, UserPrompt(ctx))
    case CallFailed(e) => Err(Translate(e))
    case Answered(content) =>
      if content.None? || content.value == "" then
        Err(Translate(AnalysisError(EmptyReply)))
      else
        match a.decode(content.value)
        case Ok(fix) => Ok(fix)
        case Err(e) => Err(Translate(e))
  }

  /** The three `except` clauses of `analyze`, in order. */
  function Translate(e: Error): (r: Error)
    ensures r.AnalysisError? || (r.Interrupt? && e.Interrupt?)
  {
    match e
    case ValidationError(m) => AnalysisError("LLM response validation failed: " + m)
    case JsonDecodeError(m) => AnalysisError("Failed to parse LLM JSON response: " + m)
    case Interrupt => Interrupt
    case _ => AnalysisError("Analysis failed: " + e.Text())
  }

  /** The analysis succeeds exactly when the model answers with non-empty
      content that decodes, and then it returns the decoded suggestion. */
  lemma AnalyzeOk(a: Analyzer, ctx: DockerAnalysisContext)
    ensures var reply := a.chat(a.systemPrompt, UserPrompt(ctx));
      Analyze(a, ctx).Ok? <==>
        reply.Answered? && reply.content.Some? && reply.content.value != ""
        && a.decode(reply.content.value).Ok?
    ensures Analyze(a, ctx).Ok? ==>
      Analyze(a, ctx) == a.decode(a.chat(a.systemPrompt, UserPrompt(ctx)).content.value)
  {
  }

  /** Every failure surfaces as an `AnalysisError`, an empty reply
      included; only an interrupt of the call or of decoding is not. */
  lemma AnalyzeErrors(a: Analyzer, ctx: DockerAnalysisContext)
    ensures var r := Analyze(a, ctx);
      r.Err? ==> r.error.AnalysisError? || r.error.Interrupt?
    ensures var reply := a.chat(a.systemPrompt, UserPrompt(ctx));
      reply.Answered? && (reply.content.None? || reply.content.value == "") ==>
        Analyze(a, ctx) == Err(AnalysisError("Analysis failed: " + EmptyReply))
  {
  }
}
