# fix-compile, modelled in Dafny

fix-compile is a command-line tool that builds (and optionally runs) a
Docker image. When a step fails, it reads the Dockerfile, asks a language
model for a fix, shows the fix to the user, writes it with a backup, and
tries again, within a budget of attempts. A second pipeline runs any
command and logs its output to a cache directory keyed by a hash of the
command. On a failure it asks a general fixer for a suggestion. A small
configuration file under `~/.config/fix-compile` holds the user's settings.

This project models that core: one Dafny module per source file.

- `Schema` (schema.py):
  - the enumerations, the two analysis contexts and `FixSuggestion`, with
    its confidence range checked as pydantic checks it;
  - `CommandResult.output`;
  - `LoopState`, a class whose counter the loops advance in place.
- `Executor` (executor.py): the `docker build` / `docker run` command
  lines, the streaming `execute`, and `read_file` / `write_file` /
  `apply_fix` on a file system.
- `ErrorAnalyzer` (workflows/analyzer.py): the ordered table of error
  patterns and their first-match classification.
- `Fixer` (fixer.py): the fix prompt, and how a model reply is read
  (fenced blocks, the explanation with the fenced spans removed).
- `Brain` (workflows/brain.py): the Docker analyzer's user prompt, and how
  its reply and its errors are turned into a suggestion or an
  `AnalysisError`.
- `PromptBuilder` (utils/prompt_builder.py): the general fixer's system
  prompt, with and without a custom requirement.
- `GeneralFixer` (workflows/general_fixer.py): the user prompt, including
  the directory listing cut to 25 lines, and `analyze`.
- `CacheIo` (utils/io.py): `save_exec_output` into a cache entry.
- `DockerFixer` (workflows/docker_fixer.py): `_execute_with_logging`,
  which streams output into two log files, and `run_pipeline`, with its
  cache hit and miss and the choice of analysis context.
- `ConfigManager` (config_manager.py): load, save, get, set and delete on
  the JSON configuration file.
- `FixLoop` (main.py): `docker_command` with its two phases.
  - `_build_loop` and `_run_loop` on one shared `LoopState`.
  - `_analyze_and_fix`.
  - The exit statuses 0, 1 and 130.

Helper modules:

- `Wrappers` holds `Option` and `Result`.
- `Errors` holds the exceptions the core raises or catches, as one datatype.
- `Text` models the `str` operations the core relies on: `split`,
  `splitlines`, `strip`, `lower`, `join`, `in` and `str(int)`.
- `Json` models a JSON value, with the `dumps` / `loads` pair as a parameter.
- `Files` holds the disk: a map of files and a set of directories, with a
  set of paths that cannot be written.
  - `Disk` is its value.
  - `FileSystem` is the class the imperative members change in place.

Each operation that changes the disk comes twice:

- a function on `Disk` values, which states what the operation
  returns and leaves behind;
- a method on a `FileSystem`, proved to end in exactly that state.

The properties are lemmas about the functions.

Things outside the program are parameters:

- the subprocess, given as a `Process` value: the lines it writes, what
  is left in the pipe, its exit code, or a launch failure / interrupt;
- the host's `shlex.join` and current directory;
- SHA-256 and `cmd2hash`;
- the language model, as a function from the two prompts to a reply;
- JSON decoding into a suggestion;
- the user's answers, by phase and attempt;
- the environment variables and the home directory.

## Model

| member | source | states |
|---|---|---|
| Schema.NewFixSuggestion | src/fix_compile/schema.py:120-156 | constructing a suggestion succeeds exactly when the confidence lies in [0, 1], keeps every field given, and otherwise raises a ValidationError |
| Schema.RevalidateSuggestion | src/fix_compile/schema.py:120-156 | every valid suggestion passes validation again and comes back unchanged |
| Schema.CommandResult.Output | src/fix_compile/schema.py:187-192 | the combined output is one of the two streams, and is empty only when both are |
| Schema.OutputOfFailure | src/fix_compile/schema.py:189-191 | a failed command that wrote to stderr reports stderr |
| Schema.OutputOtherwise | src/fix_compile/schema.py:192 | otherwise stdout is reported unless it is empty, in which case stderr is |
| Schema.OutputExamples | tests/test_architecture.py:46-72 | the two results of the architecture tests report "Success" and "Build failed" |
| Schema.LoopState.constructor | src/fix_compile/schema.py:223-233 | a new state starts at attempt 0 with no error and neither phase succeeded |
| Schema.LoopState.IncrementAttempt | src/fix_compile/schema.py:239-241 | the counter goes up by one and nothing else changes |
| Schema.LoopStateExample | tests/test_architecture.py:74-91 | with three attempts a state may retry when fresh and after one attempt, and not after three |
| Files.Disk.Read | src/fix_compile/executor.py:189 | reading gives a file's text exactly when the path is a file |
| Files.Disk.Write | src/fix_compile/executor.py:209 | a write succeeds exactly when the path is writable, replaces only that file, and keeps the disk well formed |
| Files.Disk.Mkdir | src/fix_compile/executor.py:208 | `mkdir(parents=True, exist_ok=True)` succeeds at once on an existing directory; otherwise it succeeds exactly when neither the path nor any ancestor is a file and none that is missing is read-only, and then it creates the path and every missing ancestor and nothing else, keeping the disk well formed |
| Files.MkdirMakesParents | src/fix_compile/executor.py:208 | after a successful mkdir every ancestor of the path exists, on a disk whose directories have their parents |
| Files.MkdirUnderFile | src/fix_compile/executor.py:208 | a file at any level above a path that is not yet a directory makes mkdir raise |
| Files.MkdirUnderFileExample | src/fix_compile/executor.py:208 | with a file `Dockerfile`, making `Dockerfile/sub` raises |
| Files.FileSystem.constructor | src/fix_compile/utils/io.py:41-58 | the file system starts in the given disk state |
| Files.FileSystem.WriteText | src/fix_compile/utils/io.py:47-57 | the in-place write reports success exactly when the value-level write succeeds, and leaves its disk, or the old one on failure |
| Files.FileSystem.Append | src/fix_compile/workflows/docker_fixer.py:93-94 | writing to an open file appends the text to that file only |
| Files.FileSystem.Mkdir | src/fix_compile/executor.py:208 | the in-place mkdir, ancestors included, agrees with the value-level one, on success and on failure |
| Text.SeparatorsAreSpace | src/fix_compile/main.py:384 | the ASCII separators \x1c to \x1f split words as whitespace does, as `str.split()` treats them |
| Text.WordsAreWords | src/fix_compile/main.py:384 | every piece of `split()` is a non-empty run without whitespace |
| Text.WordsJoin | src/fix_compile/main.py:384 | splitting a space-joined list of words gives that list back |
| Text.StripEmptyIffBlank | src/fix_compile/utils/prompt_builder.py:81 | `strip()` is empty exactly for an all-whitespace string |
| Text.StripIsSlice | src/fix_compile/fixer.py:171 | `strip()` keeps a contiguous slice of its input |
| Text.StripEnds | src/fix_compile/fixer.py:171 | a stripped string neither starts nor ends with whitespace |
| Text.Lower | src/fix_compile/workflows/analyzer.py:71 | `lower()` keeps the length and lowers each character |
| Text.LowerIdempotent | src/fix_compile/workflows/analyzer.py:71 | lowering twice is lowering once |
| Text.SplitLinesJoin | src/fix_compile/workflows/general_fixer.py:153 | `splitlines()` of newline-joined lines gives them back |
| Text.SplitLinesNoNewline | src/fix_compile/workflows/general_fixer.py:153 | no line from `splitlines()` holds a line break |
| Text.JoinSplit | src/fix_compile/workflows/brain.py:150 | joining the pieces of a split with the separator gives the string back |
| Text.SplitJoin | src/fix_compile/workflows/brain.py:150 | splitting a join of separator-free pieces gives the pieces back |
| Text.IndexFrom | src/fix_compile/fixer.py:166 | the search finds the leftmost occurrence at or after a position, or reports that there is none |
| Text.ContainsIff | src/fix_compile/workflows/analyzer.py:75 | `sub in s` holds exactly when `sub` occurs at some position |
| Text.NatToString | src/fix_compile/workflows/general_fixer.py:156 | `str(n)` is a non-empty string of digits with no leading zero |
| Text.ParseNatToString | src/fix_compile/workflows/general_fixer.py:156 | reading the rendered count back gives the count |
| Text.NatToStringInjective | src/fix_compile/workflows/general_fixer.py:156 | different counts render differently |
| ErrorAnalyzer.GapSearchSound | src/fix_compile/workflows/analyzer.py:75 | whatever the `a.*b` search finds is an occurrence of `a` followed by `b` on the same line |
| ErrorAnalyzer.GapSearchComplete | src/fix_compile/workflows/analyzer.py:75 | every such occurrence is found |
| ErrorAnalyzer.GapMatchesIff | src/fix_compile/workflows/analyzer.py:15-40 | a gap pattern matches exactly when the regular expression `a.*b` (dot not matching a line break) does |
| ErrorAnalyzer.FirstMatch | src/fix_compile/workflows/analyzer.py:73-78 | nothing is found only when no rule matches; otherwise the answer is the problem of a matching rule with no matching rule before it |
| ErrorAnalyzer.TableProblems | src/fix_compile/workflows/analyzer.py:13-42 | the table has six rules, in the order PATH_NOT_FOUND, PERMISSION_DENIED, MISSING_DEPENDENCY, IMAGE_NOT_FOUND, INVALID_SYNTAX, BUILD_CONTEXT_ERROR |
| ErrorAnalyzer.TableKnown | src/fix_compile/workflows/analyzer.py:13-42 | no rule of the table reports UNKNOWN |
| ErrorAnalyzer.DefaultIffNoMatch | src/fix_compile/workflows/analyzer.py:71-78 | over any table without UNKNOWN, the default is taken exactly when no rule matches |
| ErrorAnalyzer.UnknownIff | src/fix_compile/workflows/analyzer.py:71-78 | a message is classified UNKNOWN exactly when no pattern of any rule matches its lower-cased text |
| ErrorAnalyzer.FirstMatchWins | src/fix_compile/workflows/analyzer.py:73-76 | a message is classified as the earliest rule that matches it |
| ErrorAnalyzer.IgnoresCase | src/fix_compile/workflows/analyzer.py:71 | the classification does not depend on letter case |
| ErrorAnalyzer.CopyIsPathNotFound | src/fix_compile/workflows/analyzer.py:15 | any message holding `copy`, in any case, is PATH_NOT_FOUND, because the alternation's first branch is a bare `COPY` |
| ErrorAnalyzer.Analyze | src/fix_compile/workflows/analyzer.py:59-66 | the problem carries the path, message and build context unchanged, with the identified type |
| Executor.CwdOrCurrent | src/fix_compile/executor.py:115 | a given non-empty directory is reported, else the current one |
| Executor.ExecuteResultAsWritten | src/fix_compile/executor.py:55-121 | as written, `execute` returns a result exactly when the command is non-empty and the process exited, with only the lines read in the loop as stdout |
| Executor.ExecuteResult | src/fix_compile/executor.py:109-121 | the corrected result holds all of stdout, the exit code, stderr, the quoted command and the directory; `success` means exit code 0; a missing program gives "Command not found"; every other error is an ExecutionError, or the interrupt itself |
| Executor.ExecuteDropsRest | src/fix_compile/executor.py:77-94 | the as-written result loses output still in the pipe, and agrees with the corrected one when nothing was left |
| Executor.ReadLines | src/fix_compile/executor.py:73-94 | the read loop concatenates every line read, in order |
| Executor.Execute | src/fix_compile/executor.py:41-121 | the streaming `execute` returns or raises what the corrected result describes |
| Executor.BuildArgFlagsSnoc | src/fix_compile/executor.py:144-145 | each build argument adds `--build-arg k=v` after the earlier ones |
| Executor.AssembleBuildCommand | src/fix_compile/executor.py:133-147 | the list grown by append and extend is the build command line |
| Executor.AppendBuildArgs | src/fix_compile/executor.py:144-145 | the loop over build arguments appends two words per pair, in order |
| Executor.DockerBuild | src/fix_compile/executor.py:123-149 | `docker_build` executes the build command line in the current directory |
| Executor.ParseBuildArgFlags | src/fix_compile/executor.py:144-145 | the build-argument flags can be read back into the pairs when no key holds `=` |
| Executor.ParseTagStage | src/fix_compile/executor.py:135-136 | `-t tag` is present exactly when the tag is non-empty, and is read back |
| Executor.ParseNoCacheStage | src/fix_compile/executor.py:138-139 | `--no-cache` is present exactly when asked for |
| Executor.ParseFileStage | src/fix_compile/executor.py:141-142 | `-f` names the Dockerfile whenever it is not the default name |
| Executor.BuildCommandRoundTrip | src/fix_compile/executor.py:133-147 | a build command line determines its configuration, an empty tag read as none |
| Executor.BuildCommandInjective | src/fix_compile/executor.py:133-147 | two configurations with one command line agree, up to an empty tag |
| Executor.BuildCommandShape | src/fix_compile/executor.py:133-147 | the command starts `docker build` and ends with the context |
| Executor.RunCommand | src/fix_compile/executor.py:161-170 | `docker run`, then `--rm` exactly when removing, `-d` exactly when detached, the arguments in order, then the image |
| Executor.DockerRun | src/fix_compile/executor.py:151-172 | `docker_run` executes that command line |
| Executor.ReadFile | src/fix_compile/executor.py:174-193 | reading succeeds exactly on an existing file and gives its text, otherwise raises an ExecutionError |
| Executor.WriteFile | src/fix_compile/executor.py:195-215 | a write either replaces exactly that file's text or raises an ExecutionError leaving the files alone; the only directories added are the parent and its missing ancestors |
| Executor.WriteUnderFileFails | src/fix_compile/executor.py:206-215 | with a file `Dockerfile`, writing `Dockerfile/sub/x` raises an ExecutionError and changes nothing |
| Executor.WriteFileOn | src/fix_compile/executor.py:195-215 | the in-place write ends in the state `write_file` describes |
| Executor.ApplyFixOn | src/fix_compile/executor.py:217-240 | the in-place `apply_fix` ends in the state the value-level one describes |
| Executor.BackupSameParent | src/fix_compile/executor.py:231-233 | the backup `<path>.backup` lies in the same directory as its target |
| Executor.ApplyFixOnExisting | src/fix_compile/executor.py:231-240 | on a readable target the old text goes to `<path>.backup` and the new text to the target |
| Executor.ApplyFixWithoutBackup | src/fix_compile/executor.py:232-240 | without a readable target no backup is written and the outcome is the plain write |
| Executor.ApplyFixFrame | src/fix_compile/executor.py:217-240 | no file but the target and its backup changes; a fix without a path fails and changes nothing |
| Executor.ApplyFixIgnoresType | src/fix_compile/executor.py:217-240 | the fix type plays no part in applying a fix |
| CacheIo.EntryName | src/fix_compile/utils/io.py:38-40 | the entry name is the first eight hex digits of the digest of the command and the directory joined by a vertical bar |
| CacheIo.CacheKeyCollides | src/fix_compile/utils/io.py:39 | two different command/directory pairs can share an entry when a command holds a vertical bar |
| CacheIo.CacheKeyInjective | src/fix_compile/utils/io.py:39 | without a vertical bar in the commands, the key identifies the pair |
| CacheIo.Meta | src/fix_compile/utils/io.py:51-57 | the metadata holds exactly exit code, success, command and directory |
| CacheIo.SaveExecOutputOn | src/fix_compile/utils/io.py:36-64 | the in-place save ends in the state the value-level save describes |
| CacheIo.SaveContents | src/fix_compile/utils/io.py:47-57 | a completed save holds stdout, stderr and the JSON metadata in the entry's three files; the entry directory exists and no directory is added outside its chain of ancestors |
| CacheIo.SaveCompleteIff | src/fix_compile/utils/io.py:46-64 | the save completes exactly when the entry directory can be made and none of its three files is read-only or an existing directory |
| CacheIo.SaveFrame | src/fix_compile/utils/io.py:41-58 | no file outside the entry's three changes |
| CacheIo.EntryPathsDistinct | src/fix_compile/utils/io.py:42-44 | the entry directory and its three files are four different paths |
| CacheIo.RewriteSame | src/fix_compile/utils/io.py:49-51 | writing a file with the text it holds changes nothing |
| CacheIo.SaveIdempotent | src/fix_compile/utils/io.py:47-57 | saving the same result twice leaves what saving once does |
| DockerFixer.ExecuteWithLoggingOn | src/fix_compile/workflows/docker_fixer.py:38-122 | logging a run in place ends in the state and result the value-level function describes |
| DockerFixer.StreamOutput | src/fix_compile/workflows/docker_fixer.py:81-111 | the read loop returns every line and the rest of the pipe, and leaves them in the stdout file and stderr in its file |
| DockerFixer.LogLines | src/fix_compile/workflows/docker_fixer.py:84-98 | every line read is kept, in order, and appended to the stdout file, which ends holding their concatenation |
| DockerFixer.WriteIfAny | src/fix_compile/workflows/docker_fixer.py:100-111 | a non-empty remainder is appended to its file; an empty one leaves the file unchanged |
| DockerFixer.ExecuteFrame | src/fix_compile/workflows/docker_fixer.py:64-111 | running with logging changes no file other than its two logs |
| DockerFixer.LoggedOutputIsReturned | src/fix_compile/workflows/docker_fixer.py:81-122 | the returned result reports exactly what the two log files hold |
| DockerFixer.EntryFilesDistinct | src/fix_compile/workflows/docker_fixer.py:151-153 | the entry's stdout, stderr and metadata files are three paths |
| DockerFixer.HitReusesLogs | src/fix_compile/workflows/docker_fixer.py:157-162 | on a cache hit nothing is run and nothing is written: the error log is read back and the run counts as failed |
| DockerFixer.MissRunsAndRecords | src/fix_compile/workflows/docker_fixer.py:163-189 | on a miss the command is run, both logs and the metadata are written, and the outcome is the run's |
| DockerFixer.RecordOutcome | src/fix_compile/workflows/docker_fixer.py:167-189 | once the entry directory exists, a run that completes leaves both logs and the metadata file and yields the run's output and success flag |
| DockerFixer.RecordFrame | src/fix_compile/workflows/docker_fixer.py:176-185 | recording the metadata writes no file but `metadata.json` |
| DockerFixer.ObtainFrame | src/fix_compile/workflows/docker_fixer.py:147-189 | that step touches no file outside the entry's three |
| DockerFixer.OperationOfElements | src/fix_compile/workflows/docker_fixer.py:213 | only an element equal to `build` makes a build, not one containing it |
| DockerFixer.ReadDockerfile | src/fix_compile/workflows/docker_fixer.py:207-210 | a given existing Dockerfile is read; a missing one is skipped; a directory raises |
| DockerFixer.ContextChoice | src/fix_compile/workflows/docker_fixer.py:215-231 | a Docker context is built exactly when a non-empty Dockerfile was read, and either context carries the error log and the directory |
| DockerFixer.DockerContextFailsAsWritten | src/fix_compile/workflows/docker_fixer.py:218-225 | as written, every run that read a non-empty Dockerfile fails on `context.cwd` |
| DockerFixer.EndsBeforeAnalysis | src/fix_compile/workflows/docker_fixer.py:191-202 | a success, or a failure with fixing disabled, ends the pipeline before any analysis |
| DockerFixer.AnalyzesFailure | src/fix_compile/workflows/docker_fixer.py:204-234 | otherwise the suggestion is the general fixer's answer for the chosen context |
| DockerFixer.HitNeverSucceeds | src/fix_compile/workflows/docker_fixer.py:162 | a pipeline that reused the logs never reports success |
| DockerFixer.ObtainOn | src/fix_compile/workflows/docker_fixer.py:155-189 | the in-place cache step ends as the value-level one describes |
| DockerFixer.RunPipelineOn | src/fix_compile/workflows/docker_fixer.py:124-237 | the in-place pipeline ends as the value-level one describes |
| GeneralFixer.DockerContextLosesCwd | src/fix_compile/workflows/general_fixer.py:145 | reading `cwd` fails on every Docker context and succeeds on a general one |
| GeneralFixer.ContextCwd | src/fix_compile/workflows/general_fixer.py:145 | the intended directory is the one the caller passed, for either kind of context |
| GeneralFixer.ContextCwdAgrees | src/fix_compile/workflows/general_fixer.py:145 | where the code as written succeeds, it agrees with the intended directory |
| GeneralFixer.MoreItemsNoNewline | src/fix_compile/workflows/general_fixer.py:156 | the count line is one non-empty line |
| GeneralFixer.ListingJoined | src/fix_compile/workflows/general_fixer.py:153-157 | a long listing is its first 25 lines joined, then the count line |
| GeneralFixer.ListingTruncated | src/fix_compile/workflows/general_fixer.py:153-157 | a long listing reads back as exactly its first 25 lines plus one line counting the others |
| GeneralFixer.ListingVerbatim | src/fix_compile/workflows/general_fixer.py:158-160 | a listing of at most 25 lines is included as it is |
| GeneralFixer.BuildUserPrompt | src/fix_compile/workflows/general_fixer.py:141-188 | the prompt is the newline join of the parts, in order |
| GeneralFixer.WarningFirst | src/fix_compile/workflows/general_fixer.py:174-178 | the caution line comes first exactly when there were earlier attempts |
| GeneralFixer.UserPromptLayout | src/fix_compile/workflows/general_fixer.py:143-186 | the error log follows its header, the listing appears only for a successful non-empty `ls`, and the two fixed instructions close the prompt |
| GeneralFixer.EmptyReplySuggestion | src/fix_compile/workflows/general_fixer.py:95-103 | an empty reply gives a command fix with an empty command and confidence 0 |
| GeneralFixer.NewFixerPrompt | src/fix_compile/workflows/general_fixer.py:31-51 | the fixer's system prompt is the prompt builder's, with the custom requirement if given |
| GeneralFixer.AnalyzeOutcome | src/fix_compile/workflows/general_fixer.py:59-139 | only a failed call or an undecodable reply is an error; an empty reply gives the placeholder; otherwise the decoded suggestion |
| Brain.UserPromptLayout | src/fix_compile/workflows/brain.py:120-148 | the operation, Dockerfile path and context lines come first, then the caution line if any, then the fenced Dockerfile and error log |
| Brain.WarningIff | src/fix_compile/workflows/brain.py:128-131 | the caution line is present exactly when there were earlier attempts |
| Brain.UserPromptEnds | src/fix_compile/workflows/brain.py:146-150 | the prompt ends with the request line |
| Brain.Translate | src/fix_compile/workflows/brain.py:113-118 | every exception becomes an AnalysisError except an interrupt, which passes through |
| Brain.AnalyzeOk | src/fix_compile/workflows/brain.py:84-111 | the analysis succeeds exactly when the model answers with non-empty content that decodes, and gives the decoded suggestion |
| Brain.AnalyzeErrors | src/fix_compile/workflows/brain.py:99-118 | every failure is an AnalysisError (an empty reply among them) or the interrupt |
| PromptBuilder.CustomParts | src/fix_compile/utils/prompt_builder.py:78-93 | with a non-blank custom requirement the prompt has seven parts: the base, the header, the stripped requirement and the footer |
| PromptBuilder.PlainPrompt | src/fix_compile/utils/prompt_builder.py:78-81 | without a custom requirement, or with a blank one, the base prompt is used unchanged |
| PromptBuilder.FooterText | src/fix_compile/utils/prompt_builder.py:88-89 | the footer is a blank line, then the closing instruction |
| PromptBuilder.CustomPromptText | src/fix_compile/utils/prompt_builder.py:78-93 | the prompt with a requirement is the base and header, the stripped requirement, then the footer |
| PromptBuilder.CustomPrompt | src/fix_compile/utils/prompt_builder.py:78-93 | that prompt starts with the base and ends with the closing instruction |
| PromptBuilder.CustomRequirementRoundTrip | src/fix_compile/utils/prompt_builder.py:81-93 | the requirement can be read back out of the prompt exactly when one was given, stripped |
| PromptBuilder.SystemPrompt | src/fix_compile/utils/prompt_builder.py:62-93 | `build_system_prompt` is the base prompt, or the base prompt extended with the requirement |
| Fixer.FindBlock | src/fix_compile/fixer.py:166-168 | a found block's group lies within the text |
| Fixer.FindBlockLeftmost | src/fix_compile/fixer.py:166-168 | the block found is the leftmost, shortest match of the fenced pattern, and none is found only when there is no match |
| Fixer.RemoveFenced | src/fix_compile/fixer.py:180 | removing fenced spans never lengthens the text |
| Fixer.RemoveFencedPlain | src/fix_compile/fixer.py:180 | text without a backtick is left as it is |
| Fixer.RemoveFencedSpan | src/fix_compile/fixer.py:180 | one fenced span is cut out with its fences |
| Fixer.RemoveOnlySpan | src/fix_compile/fixer.py:180 | cutting the only fenced span leaves the text around it |
| Fixer.PlacedBlockExplanation | src/fix_compile/fixer.py:180 | the explanation of a reply with one block is the prose around it |
| Fixer.ParseFirstChoice | src/fix_compile/fixer.py:166-171 | a `dockerfile` block wins, stripped, and the explanation is the reply without fenced spans, stripped |
| Fixer.ParseSecondChoice | src/fix_compile/fixer.py:173-176 | failing that, a plain block is taken |
| Fixer.ParseDockerBlock | src/fix_compile/fixer.py:166-171 | a reply of prose around one `dockerfile` block gives that block and that prose |
| Fixer.NoDockerBlock | src/fix_compile/fixer.py:166-176 | a reply whose only block is plain has no `dockerfile` block |
| Fixer.ParsePlainBlock | src/fix_compile/fixer.py:173-176 | a reply of prose around one plain block gives that block and that prose |
| Fixer.ParseNoFence | src/fix_compile/fixer.py:175-177 | a reply without a backtick is its own Dockerfile and, stripped, its own explanation |
| Fixer.FixPromptQuotesOriginal | src/fix_compile/fixer.py:17-40 | the fix prompt quotes the original Dockerfile as its `dockerfile` block |
| Fixer.PromptDefaults | src/fix_compile/fixer.py:136-139 | a missing build context reads "root" and a missing problem type "unknown" |
| Fixer.FixOutcome | src/fix_compile/fixer.py:86-108 | a fix succeeds exactly when the file can be read and the model answers, and then holds the parsed reply |
| ConfigManager.FileIsNotDir | src/fix_compile/config_manager.py:9-10 | the configuration file is not its directory |
| ConfigManager.LoadConfigFile | src/fix_compile/config_manager.py:18-31 | loading in place ends as the value-level load describes |
| ConfigManager.SaveConfigFile | src/fix_compile/config_manager.py:34-42 | saving in place ends as the value-level save describes |
| ConfigManager.SetConfigValue | src/fix_compile/config_manager.py:72-82 | setting in place ends as the value-level set describes, raising on a document that is not an object |
| ConfigManager.DeleteConfigValue | src/fix_compile/config_manager.py:85-95 | deleting in place ends as the value-level delete describes, raising where `in` or `del` raise |
| ConfigManager.LoadEmpty | src/fix_compile/config_manager.py:25-31 | a missing or undecodable file loads as `{}` |
| ConfigManager.LoadKeepsDocument | src/fix_compile/config_manager.py:28 | a file that decodes loads as its document, object or not; nothing checks its type |
| ConfigManager.LoadWritesNothing | src/fix_compile/config_manager.py:18-31 | loading changes no file |
| ConfigManager.FileBeatsEnv | src/fix_compile/config_manager.py:60-63 | a key the file's object holds is returned, whatever the environment and `env_var` are |
| ConfigManager.GetRaisesIff | src/fix_compile/config_manager.py:61-63 | get raises exactly on a number, boolean or null, or on a list or string holding the key; always a TypeError, and no file changes |
| ConfigManager.SaveThenLoad | src/fix_compile/config_manager.py:34-42 | a completed save loads back as the configuration saved, given a JSON codec that reads back what it writes |
| ConfigManager.SetThenLoad | src/fix_compile/config_manager.py:72-82 | a set succeeds only on an object, and afterwards the file loads as before with that key bound to the value |
| ConfigManager.SetThenGet | src/fix_compile/config_manager.py:45-82 | after a set, getting the key gives the value for every environment: the file comes before the variable |
| ConfigManager.SetNonObjectRaises | src/fix_compile/config_manager.py:80-81 | on a list, string, number, boolean or null, set raises a TypeError and writes nothing |
| ConfigManager.DeleteThenLoad | src/fix_compile/config_manager.py:85-95 | after deleting a present key from an object, the file loads as before without it |
| ConfigManager.DeleteThenGet | src/fix_compile/config_manager.py:45-95 | after deleting a key from an object, getting it falls back to the environment variable |
| ConfigManager.DeleteAbsentWritesNothing | src/fix_compile/config_manager.py:93-95 | deleting a key the document does not hold writes nothing |
| ConfigManager.DeleteRaisesIff | src/fix_compile/config_manager.py:92-94 | on a document that is not an object, delete raises exactly on a number, boolean or null, or on a list or string holding the key; always a TypeError, and nothing is written |
| ConfigManager.ChangesFrame | src/fix_compile/config_manager.py:72-95 | set and delete touch no file but the configuration file |
| ConfigManager.ValidKeysExact | src/fix_compile/config_manager.py:108-136 | the seven names are compared exactly, so a lower-case spelling is refused |
| FixLoop.FixContext | src/fix_compile/main.py:436-443 | the analyzer is told of `attempt - 1` earlier attempts, with the phase, the Dockerfile, its text and the error log |
| FixLoop.DockerWorldAnalyzer | src/fix_compile/main.py:237 | in the world `docker_command` builds, every analysis is asked of `Analyzer()`, with the class's system prompt |
| FixLoop.AnalyzeAndFixOutcome | src/fix_compile/main.py:420-470 | a fix is applied exactly when the Dockerfile is read, the analysis succeeds, the user agrees or `--yes` is given, and the write succeeds; only an interrupt escapes; a declined or failed analysis leaves the disk alone |
| FixLoop.YesSkipsConfirmation | src/fix_compile/main.py:455-459 | with `--yes` the user's answers play no part |
| FixLoop.AnalyzeAndFixOn | src/fix_compile/main.py:420-470 | `_analyze_and_fix` on the file system ends as the value-level step describes |
| FixLoop.TakeTurn | src/fix_compile/main.py:325-361 | a turn reports success exactly when its command succeeded, and goes round again only after a failure with budget left |
| FixLoop.AttemptBound | src/fix_compile/main.py:325-363 | with no budget nothing runs; otherwise the counter ends above where it started and at most at the maximum, and each command used one attempt |
| FixLoop.SuccessIsLastAttempt | src/fix_compile/main.py:340-343 | a phase succeeds exactly when the command of its last attempt succeeded |
| FixLoop.ExhaustedSkipsAnalysis | src/fix_compile/main.py:348-349 | a failure on the last attempt of the budget ends the phase before the analyzer or the user is asked |
| FixLoop.RetryNeedsAppliedFix | src/fix_compile/main.py:352-361 | a second command runs only after a failure with budget left and an applied fix, on the disk the fix left |
| FixLoop.RunAttempt | src/fix_compile/main.py:331-338 | each attempt runs `docker_build` or `docker_run` with the phase's configuration |
| FixLoop.TakeTurnOn | src/fix_compile/main.py:330-361 | the in-place body of a loop ends as the value-level turn describes |
| FixLoop.PhaseLoopOn | src/fix_compile/main.py:313-417 | `_build_loop` / `_run_loop` on the shared state end as the value-level loop describes, set the phase's success flag exactly on success, and leave the counter between its start and the maximum (or at its start when no attempt is left) |
| FixLoop.LoopBodyOn | src/fix_compile/main.py:325-327 | one round raises the counter and leaves the rest of the loop ending where the whole loop ends |
| FixLoop.TurnStops | src/fix_compile/main.py:340-361 | a turn that stops is where the loop ends |
| FixLoop.TurnContinues | src/fix_compile/main.py:352-361 | a turn that goes on leaves the rest of the loop to end as the whole loop does |
| FixLoop.EffectiveTag | src/fix_compile/main.py:231-233 | a missing or empty tag becomes `fix-compile:latest` unless only running |
| FixLoop.ConflictingFlags | src/fix_compile/main.py:227-229 | `--run-only` with `--build-only` exits with 1 before anything runs |
| FixLoop.PhaseSequencing | src/fix_compile/main.py:252-291 | the run phase happens only after a successful or skipped build, starts again from attempt 0 on the disk the build left, and each phase runs at most `retry` commands |
| FixLoop.ExitCodes | src/fix_compile/main.py:250-305 | the exit status is 0 exactly when every phase asked for succeeded, and 130 when the phase that ended it was interrupted |
| FixLoop.DockerCommandOn | src/fix_compile/main.py:226-305 | `docker_command` on the file system ends with the disk and exit status the value-level command describes |
| FixLoop.PhaseOn | src/fix_compile/main.py:274-287 | a phase points the shared state at itself and restarts its counter before its loop runs; afterwards the counter lies between 0 and `--retry` |

## Left out

- I/O that is not the disk is not modelled: the console UI, colours and logging.
- The subprocess, the language-model clients (OpenAI, LangChain), SHA-256, `shlex.join`, the environment and the user's confirmations are parameters of the model.
- JSON encoding and decoding and pydantic's parsing of a reply into a suggestion are parameters (a codec and a `decode` function).
- Floating-point formatting (`{confidence:.0%}`) is not modelled; only the confidence range is checked.
- `str.lower`, `str.strip` and `str.split` are modelled on ASCII: whitespace is the ten ASCII characters `str.isspace` accepts, and the non-ASCII ones (such as U+0085, U+00A0 and U+2000 to U+200A) are not whitespace in the model.
- `splitlines` is modelled with "\n" as its only line boundary.
- The long prompt texts are kept whole but not evaluated.
  - Brain.Analyzer and GeneralFixer.Fixer hold their system prompt as a field, set once to the module's constant.
  - FixLoop.World carries the analyzer's system prompt, so the loop is stated for any prompt; `FixLoop.DockerWorld` is the world of `docker_command`, whose prompt is `SYSTEM_PROMPT`.
- ErrorAnalyzer: only the two regular-expression shapes the table uses are modelled.
  - The shapes are a literal and `a.*b`.
  - The test classifications in tests/__init__.py:7-41 are not proved for their literal messages; the classification is stated for all messages instead.
- Fixer.FixPromptQuotesOriginal: stated only for a prompt head and an original without backticks, because a backtick before the block's end would change where the block is found.
- Executor: `file_exists` and `get_absolute_path` are not modelled.
  - The silent mode of `execute` (`stream=False`) is not modelled.
- CacheIo: `format_json` and `load_file` are not modelled.
- DockerFixer: the `DOCKER_BUILDKIT` environment setting is not modelled, nor is `_display_suggestion`.
- Brain `quick_analyze` is not modelled, nor is GeneralFixer `quick_analyze`.
- PromptBuilder `get_example_custom_prompts` is not modelled.
- ConfigManager `list_all_config` is not modelled; it returns the loaded configuration, which `Load` states.
- The module-loading errors in the sources are not modelled; the model assumes they are wired as intended:
  - main.py:31 uses `app` and `config_app` before defining them.
  - main.py imports an `AnalysisContext` that schema.py does not define; the model uses `DockerAnalysisContext`.
  - brain.py:58 reads an undefined `config`; the model and key are parameters.
  - main.py:27 imports `.workflows.executor`, but executor.py lies in the package itself; the model uses that module.
  - docker_fixer.py:19 imports `cmd2hash`, which utils/io.py does not define; it is a parameter.
- FixLoop: the checks for a missing Dockerfile and for conflicting flags are modelled; typer's argument parsing is not.
- The loops use the corrected `execute` (see Findings); `Executor.ExecuteResultAsWritten` records the code as written.
- GeneralFixer.Analyze and DockerFixer.RunPipeline use the corrected `ContextCwd` (see Findings), so a Docker context's prompt names the working directory; `DockerFixer.DockerContextFailsAsWritten` records the code as written, where the prompt raises AttributeError.
- FixLoop.World gives each confirmation as a plain yes or no: a Ctrl-C at `typer.confirm` (click.Abort, which main.py:299 turns into exit status 1) is not modelled.
- Brain.SystemPrompt: the schema it shows the model (src/fix_compile/workflows/brain.py:41-48) has no `fix_type`, which a suggestion requires (src/fix_compile/schema.py:124). Whether a reply therefore fails to decode is up to the `decode` parameter, so the model does not decide it.
- JSON numbers with a fraction or exponent are not modelled: the decoded document holds null, booleans, integers, strings, lists and objects.
- Concurrency is left out: the model has one process at a time.

## Findings

| source | as written | input that shows it | evidently intended | confidence | as-written member | corrected member |
|---|---|---|---|---|---|---|
| src/fix_compile/workflows/general_fixer.py:145 | the user prompt reads `context.cwd`, but the `DockerAnalysisContext` that `run_pipeline` builds (docker_fixer.py:218-225) has no `cwd` field, so an AttributeError ends the analysis | any failing run of the pipeline with fixing enabled and a non-empty Dockerfile | the prompt names the working directory the pipeline passed | not executed | DockerFixer.DockerContextFailsAsWritten | GeneralFixer.ContextCwd |
| src/fix_compile/executor.py:77-94 | the streaming loop stops reading once `poll()` reports an exit, so stdout still in the pipe is lost | a process that exits while output it wrote is still unread (`rest` non-empty) | all of stdout is returned, as `_execute_with_logging` does at docker_fixer.py:100-105 | not executed | Executor.ExecuteResultAsWritten | Executor.ExecuteResult |
