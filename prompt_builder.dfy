/** The system prompt of the general fixer: a fixed base text, extended by
    the user's own requirements when there are any. */
module PromptBuilder {
  import opened Wrappers
  import opened Text

  /** `BASE_SYSTEM_PROMPT`: the fixed instructions and the JSON shape of a
      reply. */
  const BaseSystemPromptLines: seq<string> := [
    "You are an expert problem solver for general errors in computing environments.",
    "",
    "Your task is to analyze error logs and provide precise, actionable fixes.",
    "The fix can be one of three types:",
    "1. COMMAND: Modify or run a shell command",
    "2. FILE: Modify a file in the current working directory",
    "3. DOCKER: Modify a Dockerfile (for Docker-specific errors)",
    "",
    "Guidelines:",
    "1. Analyze the error log carefully to identify the root cause",
    "2. Provide a fix that addresses the root cause, not just symptoms",
    "3. Choose the most appropriate fix type:",
    "   - Use COMMAND if the fix is to change/run a command",
    "   - Use FILE if the fix requires modifying application files (config, source code, requirements, etc.)",
    "   - Use DOCKER if the error is Docker-related and needs Dockerfile changes",
    "4. Be minimal - only change what's necessary",
    "5. Always provide a clear explanation of what went wrong and why your fix works",
    "6. Consider the current working directory when specifying file paths (use relative paths)",
    "",
    "You MUST respond with valid JSON matching this exact schema based on the fix type:",
    "",
    "For COMMAND fixes:",
    "{",
    "    \"reason\": \"Detailed explanation of the root cause\",",
    "    \"fix_type\": \"command\",",
    "    \"command\": \"The complete command to execute or the modified command\",",
    "    \"command_explanation\": \"Explanation of what this command does and why it fixes the issue\",",
    "    \"confidence\": 0.85,",
    "    \"changes_summary\": \"Brief summary of the command change\"",
    "}",
    "",
    "For FILE fixes:",
    "{",
    "    \"reason\": \"Detailed explanation of the root cause\",",
    "    \"fix_type\": \"file\",",
    "    \"file_path\": \"Path to file (relative to cwd, e.g., 'src/config.py' or 'requirements.txt')\",",
    "    \"new_content\": \"Complete new content of the file\",",
    "    \"file_explanation\": \"Explanation of what was changed in the file and why\",",
    "    \"confidence\": 0.85,",
    "    \"changes_summary\": \"Brief summary of file changes\"",
    "}",
    "",
    "For DOCKER fixes:",
    "{",
    "    \"reason\": \"Detailed explanation of the Docker error\",",
    "    \"fix_type\": \"docker\",",
    "    \"dockerfile_path\": \"Path to Dockerfile (e.g., 'Dockerfile')\",",
    "    \"dockerfile_content\": \"Complete new Dockerfile content\",",
    "    \"confidence\": 0.85,",
    "    \"changes_summary\": \"Brief summary of Dockerfile changes\"",
    "}"]

  const BaseSystemPrompt: string := Join(BaseSystemPromptLines, "\n")

  /** The lines placed before and after the user's requirements. */
  const CustomHeader: seq<string> :=
    ["", "=== USER CUSTOM REQUIREMENTS ===",
     "The following are user-specific requirements that MUST be followed in all fixes:"]

  const CustomFooter: seq<string> :=
    ["", "IMPORTANT: All fixes MUST comply with the above custom requirements."]

  /** `custom_prompt and custom_prompt.strip()`. */
  predicate IsCustom(custom: Option<string>) {
    custom.Some? && Strip(custom.value) != ""
  }

  /** The list `build_system_prompt` assembles before joining it, over a
      given base text. */
  function PromptParts(base: string, custom: Option<string>): seq<string> {
    [base] + if IsCustom(custom) then CustomHeader + [Strip(custom.value)] + CustomFooter else []
  }

  /** The joined prompt over a given base text. */
  function BuildPrompt(base: string, custom: Option<string>): string {
    Join(PromptParts(base, custom), "\n")
  }

  /** `PromptBuilder.build_system_prompt(custom_prompt)`. */
  function BuildSystemPrompt(custom: Option<string>): string {
    BuildPrompt(BaseSystemPrompt, custom)
  }

  /** The text between the base and the requirement. */
  function CustomPrefix(base: string): string {
    base + "\n" + Join(CustomHeader, "\n") + "\n"
  }

  /** The text after the requirement. */
  const CustomSuffix: string := "\n" + Join(CustomFooter, "\n")

  /** With a non-blank custom prompt there are seven parts: the base, the
      three header lines, the stripped requirement, and the two footer lines. */
  lemma CustomParts(base: string, custom: Option<string>)
    requires IsCustom(custom)
    ensures var parts := PromptParts(base, custom);
      |parts| == 7 && parts[0] == base && parts[1..4] == CustomHeader
      && parts[4] == Strip(custom.value) && parts[5..] == CustomFooter
  {
  }

  /** Without a non-blank custom prompt the base is used as it is. */
  lemma PlainPrompt(base: string, custom: Option<string>)
    requires !IsCustom(custom)
    ensures BuildPrompt(base, custom) == base
  {
  }

  /** The footer joined: a blank line, then the closing instruction. */
  lemma FooterText()
    ensures CustomSuffix == "\n\n" + ClosingLine
  {
    assert CustomFooter == [""] + [ClosingLine];
    JoinCons("", [ClosingLine], "\n");
  }

  const ClosingLine: string := "IMPORTANT: All fixes MUST comply with the above custom requirements."

  /** Joining a base, some header lines, a requirement and some footer
      lines, for any such lines. */
  lemma JoinAround(base: string, header: seq<string>, req: string, footer: seq<string>, sep: string)
    requires header != [] && footer != []
    ensures Join([base] + header + [req] + footer, sep)
         == (base + sep + Join(header, sep) + sep) + req + (sep + Join(footer, sep))
  {
    var tailParts := header + ([req] + footer);
    assert [base] + header + [req] + footer == [base] + tailParts;
    JoinCons(base, tailParts, sep);
    JoinAppend(header, [req] + footer, sep);
    JoinCons(req, footer, sep);
    Reassociate(base, Join(header, sep), req, Join(footer, sep), sep);
  }

  lemma Reassociate(b: string, h: string, r: string, f: string, sep: string)
    ensures b + sep + (h + sep + (r + sep + f)) == (b + sep + h + sep) + r + (sep + f)
  {
  }

  /** The prompt with a requirement, as one concatenation. */
  lemma CustomPromptText(base: string, custom: Option<string>)
    requires IsCustom(custom)
    ensures BuildPrompt(base, custom) == CustomPrefix(base) + Strip(custom.value) + CustomSuffix
  {
    PartsAround(base, custom);
    JoinAround(base, CustomHeader, Strip(custom.value), CustomFooter, "\n");
  }

  lemma PartsAround(base: string, custom: Option<string>)
    requires IsCustom(custom)
    ensures PromptParts(base, custom) == [base] + CustomHeader + [Strip(custom.value)] + CustomFooter
  {
  }

  /** With one, the base comes first, then a newline, the header, the
      stripped requirement, and the footer, whose last line ends the prompt. */
  lemma CustomPrompt(base: string, custom: Option<string>)
    requires IsCustom(custom)
    ensures BuildPrompt(base, custom) == CustomPrefix(base) + Strip(custom.value) + CustomSuffix
    ensures var p := BuildPrompt(base, custom);
      |p| >= |base| + 1 && p[..|base| + 1] == base + "\n"
      && |p| >= |ClosingLine| && p[|p| - |ClosingLine|..] == ClosingLine
  {
    CustomPromptText(base, custom);
    var mid := Join(CustomHeader, "\n") + "\n" + Strip(custom.value) + "\n\n";
    calc {
      BuildPrompt(base, custom);
      CustomPrefix(base) + Strip(custom.value) + CustomSuffix;
      { FooterText(); }
      (base + "\n" + Join(CustomHeader, "\n") + "\n") + Strip(custom.value) + ("\n\n" + ClosingLine);
      { Regroup(base, Join(CustomHeader, "\n"), Strip(custom.value), ClosingLine); }
      (base + "\n") + mid + ClosingLine;
    }
    Ends(base + "\n", mid, ClosingLine);
  }

  lemma Regroup(b: string, h: string, r: string, c: string)
    ensures (b + "\n" + h + "\n") + r + ("\n\n" + c) == (b + "\n") + (h + "\n" + r + "\n\n") + c
  {
  }

  /** The two ends of a concatenation of three. */
  lemma Ends(x: string, y: string, z: string)
    ensures (x + y + z)[..|x|] == x && (x + y + z)[|x + y + z| - |z|..] == z
  {
    assert (x + y + z) == x + (y + z);
  }

  /** The three parts of a concatenation of three, sliced back out. */
  lemma Parts(x: string, y: string, z: string)
    ensures var s := x + y + z;
      |s| == |x| + |y| + |z| && s[..|x|] == x && s[|s| - |z|..] == z && s[|x|..|s| - |z|] == y
  {
  }

  /** Reads the user's requirement back out of a prompt over `base`. */
  function CustomRequirement(base: string, prompt: string): Option<string> {
    var pre := CustomPrefix(base);
    if |prompt| >= |pre| + |CustomSuffix| && prompt[..|pre|] == pre
       && prompt[|prompt| - |CustomSuffix|..] == CustomSuffix
    then Some(prompt[|pre|..|prompt| - |CustomSuffix|])
    else None
  }

  /** The requirement is recovered from the prompt exactly when one was
      given, and then it is the stripped custom prompt. */
  lemma CustomRequirementRoundTrip(base: string, custom: Option<string>)
    ensures CustomRequirement(base, BuildPrompt(base, custom))
         == if IsCustom(custom) then Some(Strip(custom.value)) else None
  {
    if IsCustom(custom) {
      CustomPromptText(base, custom);
      Parts(CustomPrefix(base), Strip(custom.value), CustomSuffix);
    } else {
      PlainPrompt(base, custom);
      assert |CustomPrefix(base)| > |base|;
    }
  }

  /** `build_system_prompt` itself: the base prompt, or the base prompt
      with the requirement section appended. */
  lemma SystemPrompt(custom: Option<string>)
    ensures BuildSystemPrompt(custom)
         == if IsCustom(custom) then CustomPrefix(BaseSystemPrompt) + Strip(custom.value) + CustomSuffix
            else BaseSystemPrompt
  {
    if IsCustom(custom) {
      CustomPrompt(BaseSystemPrompt, custom);
    } else {
      PlainPrompt(BaseSystemPrompt, custom);
    }
  }
}
