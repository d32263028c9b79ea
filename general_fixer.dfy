/** The general fixer: the user prompt it builds from the error log and a
    listing of the working directory, and how a reply becomes a suggestion.
    The model call, the decoding of its reply and the `ls -la` run are
    given as functions. */
module GeneralFixer {
  import opened Wrappers
  import opened Errors
  import opened Text
  import opened Schema
  import PromptBuilder
  import Brain

  // ------------------------------------------------------------------
  // The working directory of a context
  // ------------------------------------------------------------------

  /** `context.cwd` as the code reads it: a Docker context has no such
      attribute, whatever its caller passed. */
  function ContextCwdAsWritten(ctx: AnalysisContext): Result<string, Error> {
    match ctx
    case General(g) => Ok(g.cwd)
    case Docker(_, _) => Err(AttributeError("cwd"))
  }

  /** Every Docker context makes the attribute read fail. */
  lemma DockerContextLosesCwd(d: DockerAnalysisContext, cwd: string)
    ensures ContextCwdAsWritten(Docker(d, cwd)) == Err(AttributeError("cwd"))
    ensures ContextCwdAsWritten(General(GeneralAnalysisContext(d.errorLog, cwd, 0))) == Ok(cwd)
  {
  }

  /** The working directory the caller meant: the one it passed, for
      either kind of context. */
  function ContextCwd(ctx: AnalysisContext): (r: string)
    ensures ctx.General? ==> r == ctx.general.cwd
    ensures ctx.Docker? ==> r == ctx.cwdArgument
  {
    match ctx
    case General(g) => g.cwd
    case Docker(_, cwd) => cwd
  }

  /** Where the code as written succeeds, the intended reading agrees with it. */
  lemma ContextCwdAgrees(ctx: AnalysisContext)
    ensures ContextCwdAsWritten(ctx).Ok? <==> ctx.General?
    ensures ContextCwdAsWritten(ctx).Ok? ==> ContextCwdAsWritten(ctx).value == ContextCwd(ctx)
  {
  }

  // ------------------------------------------------------------------
  // The directory listing
  // ------------------------------------------------------------------

  /** What `execute_command("ls -la", cwd=...)` gives back: a success flag
      and the output, or an exception. */
  datatype ListOutcome = Listed(success: bool, output: string) | ListRaised

  /** The listing is shown only for a successful run with output. */
  predicate ShowsListing(ls: ListOutcome) {
    ls.Listed? && ls.success && ls.output != ""
  }

  const ListLimit: nat := 25

  function MoreItemsLine(k: nat): string {
    "... (" + NatToString(k) + " more items)"
  }

  /** The listing cut to its first 25 lines, followed by a count of the
      lines left out; a shorter listing is kept as it is. */
  function Listing(output: string): string {
    var lines := SplitLines(output);
    if |lines| > ListLimit then
      Join(lines[..ListLimit], "\n") + "\n" + MoreItemsLine(|lines| - ListLimit)
    else output
  }

  lemma MoreItemsNoNewline(k: nat)
    ensures '\n' !in MoreItemsLine(k) && MoreItemsLine(k) != ""
  {
    var digits := NatToString(k);
    assert forall i :: 0 <= i < |digits| ==> IsDigit(digits[i]);
    assert '\n' !in "... (" && '\n' !in " more items)";
  }

  /** A long listing is the join of the lines it keeps and the count line. */
  lemma ListingJoined(output: string)
    requires |SplitLines(output)| > ListLimit
    ensures var lines := SplitLines(output);
      Listing(output) == Join(lines[..ListLimit] + [MoreItemsLine(|lines| - ListLimit)], "\n")
  {
    var lines := SplitLines(output);
    JoinSnoc(lines[..ListLimit], MoreItemsLine(|lines| - ListLimit), "\n");
  }

  /** The first `n` of some lines without a line break, followed by one
      more such line, have none. */
  lemma KeptHaveNoBreak(lines: seq<string>, n: nat, m: string)
    requires n <= |lines| && '\n' !in m
    requires forall k :: 0 <= k < |lines| ==> '\n' !in lines[k]
    ensures forall k :: 0 <= k < n + 1 ==> '\n' !in (lines[..n] + [m])[k]
  {
    forall k | 0 <= k < n + 1 ensures '\n' !in (lines[..n] + [m])[k] {
      if k < n {
        assert (lines[..n] + [m])[k] == lines[k];
      }
    }
  }

  /** A long listing keeps exactly its first 25 lines and adds one line
      counting the rest. */
  lemma {:induction false} ListingTruncated(output: string)
    requires |SplitLines(output)| > ListLimit
    ensures var lines := SplitLines(output);
      SplitLines(Listing(output)) == lines[..ListLimit] + [MoreItemsLine(|lines| - ListLimit)]
  {
    var lines := SplitLines(output);
    var m := MoreItemsLine(|lines| - ListLimit);
    ListingJoined(output);
    SplitLinesNoNewline(output);
    MoreItemsNoNewline(|lines| - ListLimit);
    KeptHaveNoBreak(lines, ListLimit, m);
    SplitLinesJoin(lines[..ListLimit] + [m]);
  }

  /** A listing of at most 25 lines is included verbatim. */
  lemma ListingVerbatim(output: string)
    requires |SplitLines(output)| <= ListLimit
    ensures Listing(output) == output
  {
  }

  // ------------------------------------------------------------------
  // The user prompt
  // ------------------------------------------------------------------

  const ErrorLogHeader: string := "=== ERROR LOG ==="
  const FixTypeLine: string := "Include the appropriate fix_type (command, file, or docker) based on the error."

  /** The lines of `_build_user_prompt`, stated as one concatenation: the
      caution line first when there were earlier attempts, the environment
      header and working directory, the listing when shown, the error log,
      and the two closing instructions. */
  function UserPromptParts(cwd: string, errorLog: string, previousAttempts: int,
                           ls: ListOutcome): seq<string>
  {
    (if previousAttempts > 0 then [Brain.WarningLine(previousAttempts)] else [])
    + ["=== ENVIRONMENT CONTEXT ===", "Working Directory: " + cwd]
    + (if ShowsListing(ls) then ["Directory listing:\n" + Listing(ls.output)] else [])
    + ["", ErrorLogHeader, errorLog]
    + ["", Brain.RequestLine, FixTypeLine]
  }

  lemma RegroupParts(w: seq<string>, e: seq<string>, l: seq<string>, g: seq<string>, f: seq<string>)
    ensures w + (e + l + g) + f == w + e + l + g + f
  {
  }

  /** `GeneralFixer._build_user_prompt(context)`, with `ls` the outcome of
      listing the working directory. A failing listing is skipped. */
  method BuildUserPrompt(cwd: string, errorLog: string, previousAttempts: int, ls: ListOutcome)
    returns (prompt: string)
    ensures prompt == Join(UserPromptParts(cwd, errorLog, previousAttempts, ls), "\n")
  {
    var parts := ["=== ENVIRONMENT CONTEXT ===", "Working Directory: " + cwd];
    ghost var env := parts;
    ghost var listing: seq<string> := [];
    if ls.Listed? && ls.success && ls.output != "" {
      var output := Listing(ls.output);
      parts := parts + ["Directory listing:\n" + output];
      listing := ["Directory listing:\n" + output];
    }
    assert parts == env + listing;
    parts := parts + ["", ErrorLogHeader, errorLog];
    ghost var warning: seq<string> := [];
    if previousAttempts > 0 {
      parts := [Brain.WarningLine(previousAttempts)] + parts;
      warning := [Brain.WarningLine(previousAttempts)];
    }
    assert parts == warning + (env + listing + ["", ErrorLogHeader, errorLog]);
    parts := parts + ["", Brain.RequestLine, FixTypeLine];
    RegroupParts(warning, env, listing, ["", ErrorLogHeader, errorLog], ["", Brain.RequestLine, FixTypeLine]);
    prompt := Join(parts, "\n");
  }

  /** The caution line is first exactly when there were earlier attempts. */
  lemma WarningFirst(cwd: string, errorLog: string, previousAttempts: int, ls: ListOutcome)
    ensures var parts := UserPromptParts(cwd, errorLog, previousAttempts, ls);
      parts[0] == Brain.WarningLine(previousAttempts) <==> previousAttempts > 0
  {
    var parts := UserPromptParts(cwd, errorLog, previousAttempts, ls);
    if previousAttempts <= 0 {
      assert parts[0] == "=== ENVIRONMENT CONTEXT ===";
      assert parts[0][0] != Brain.WarningLine(previousAttempts)[0];
    }
  }

  /** The error log follows its header, the two fixed instructions come
      last, and the listing is there exactly when `ls` succeeded with
      output. */
  lemma UserPromptLayout(cwd: string, errorLog: string, previousAttempts: int, ls: ListOutcome)
    ensures var parts := UserPromptParts(cwd, errorLog, previousAttempts, ls);
      var w := if previousAttempts > 0 then 1 else 0;
      var l := if ShowsListing(ls) then 1 else 0;
      |parts| == w + l + 8
      && parts[w] == "=== ENVIRONMENT CONTEXT ===" && parts[w + 1] == "Working Directory: " + cwd
      && (l == 1 ==> parts[w + 2] == "Directory listing:\n" + Listing(ls.output))
      && parts[w + l + 3] == ErrorLogHeader && parts[w + l + 4] == errorLog
      && parts[|parts| - 2..] == [Brain.RequestLine, FixTypeLine]
  {
    var w: seq<string> := if previousAttempts > 0 then [Brain.WarningLine(previousAttempts)] else [];
    var l: seq<string> := if ShowsListing(ls) then ["Directory listing:\n" + Listing(ls.output)] else [];
    LayoutOf(w, "=== ENVIRONMENT CONTEXT ===", "Working Directory: " + cwd, l, ErrorLogHeader, errorLog,
             Brain.RequestLine, FixTypeLine);
  }

  /** The positions of the prompt's sections, whatever their text. */
  lemma LayoutOf(w: seq<string>, e0: string, e1: string, l: seq<string>, h: string, log: string,
                 r: string, f: string)
    requires |w| <= 1 && |l| <= 1
    ensures var parts := w + [e0, e1] + l + ["", h, log] + ["", r, f];
      |parts| == |w| + |l| + 8 && parts[|w|] == e0 && parts[|w| + 1] == e1
      && (|l| == 1 ==> parts[|w| + 2] == l[0])
      && parts[|w| + |l| + 3] == h && parts[|w| + |l| + 4] == log
      && parts[|parts| - 2..] == [r, f]
  {
  }

  // ------------------------------------------------------------------
  // analyze
  // ------------------------------------------------------------------

  /** The suggestion returned for an empty reply. */
  function EmptyReplySuggestion(): (s: FixSuggestion)
    ensures s.fixType == CommandFix && s.command == Some("") && s.confidence == 0.0
    ensures s.reason == Brain.EmptyReply && s.changesSummary == ""
    ensures s.filePath.None? && s.newContent.None? && s.dockerfileContent.None?
  {
    NewFixSuggestion(FixFields(Brain.EmptyReply, CommandFix, Some(""), None, None, None,
                               None, None, None, 0.0, "")).value
  }

  /** The user prompt for a context, listing the directory it names. */
  function ContextPrompt(ctx: AnalysisContext, ls: string -> ListOutcome): string {
    var cwd := ContextCwd(ctx);
    Join(UserPromptParts(cwd, ctx.ErrorLog(), ctx.PreviousAttempts(), ls(cwd)), "\n")
  }

  /** A `GeneralFixer`: the system prompt its `analyze` builds from the
      `custom_prompt` fixed at construction, and the model behind it: the
      chat call, the decoding of a reply, and the directory listing. */
  datatype Fixer = Fixer(systemPrompt: string, chat: (string, string) -> Brain.Reply,
                         decode: string -> Result<FixSuggestion, Error>, ls: string -> ListOutcome)

  /** `GeneralFixer(custom_prompt=custom)` over the given model. */
  function NewFixer(custom: Option<string>, chat: (string, string) -> Brain.Reply,
                    decode: string -> Result<FixSuggestion, Error>, ls: string -> ListOutcome): Fixer
  {
    Fixer(PromptBuilder.BuildSystemPrompt(custom), chat, decode, ls)
  }

  /** The fixer's system prompt is the base text, extended exactly when a
      non-blank custom prompt was configured. */
  lemma NewFixerPrompt(custom: Option<string>, chat: (string, string) -> Brain.Reply,
                       decode: string -> Result<FixSuggestion, Error>, ls: string -> ListOutcome)
    ensures NewFixer(custom, chat, decode, ls).systemPrompt
         == if PromptBuilder.IsCustom(custom)
            then PromptBuilder.CustomPrefix(PromptBuilder.BaseSystemPrompt) + Text.Strip(custom.value)
                 + PromptBuilder.CustomSuffix
            else PromptBuilder.BaseSystemPrompt
  {
    PromptBuilder.SystemPrompt(custom);
  }

  /** `GeneralFixer.analyze(context)`. An empty reply gives the placeholder
      suggestion; every exception is re-raised unchanged. */
  function Analyze(f: Fixer, ctx: AnalysisContext): Result<FixSuggestion, Error> {
    match f.chat(f.systemPrompt, ContextPrompt(ctx, f.ls))
    case CallFailed(e) => Err(e)
    case Answered(content) =>
      if content.None? || content.value == "" then Ok(EmptyReplySuggestion())
      else f.decode(content.value)
  }

  /** Only a failed call or a reply that does not decode is an error, and
      the error is the one raised; an empty reply is not an error. */
  lemma AnalyzeOutcome(f: Fixer, ctx: AnalysisContext)
    ensures var reply := f.chat(f.systemPrompt, ContextPrompt(ctx, f.ls));
      var r := Analyze(f, ctx);
      (reply.CallFailed? ==> r == Err(reply.error))
      && (reply.Answered? && (reply.content.None? || reply.content.value == "") ==>
            r == Ok(EmptyReplySuggestion()))
      && (reply.Answered? && reply.content.Some? && reply.content.value != "" ==>
            r == f.decode(reply.content.value))
  {
  }
}
