/** The rule-based Dockerfile fixer: the prompt it sends, how it reads the
    fixed Dockerfile and the explanation out of the reply, and the result it
    returns. The model call is a function from prompt to reply text. */
module Fixer {
  import opened Wrappers
  import opened Errors
  import opened Text
  import opened Files
  import opened Schema
  import ErrorAnalyzer

  const Fence: string := "```"
  const DockerOpen: string := "```dockerfile\n"
  const AnyOpen: string := "```\n"
  const Close: string := "\n```"

  // ------------------------------------------------------------------
  // `re.search(open + r"(.*?)\n```", text, re.DOTALL)`
  // ------------------------------------------------------------------

  /** A match of `open`, any text, then the closing fence, starting at `i`
      and closing at `j`. */
  predicate BlockAt(text: string, open: string, i: int, j: int) {
    OccursAt(text, open, i) && i + |open| <= j && OccursAt(text, Close, j)
  }

  /** The span of the group of the leftmost match, the group being as short
      as possible: the first opener, then the first closing fence after it. */
  function FindBlock(text: string, open: string): (r: Option<(nat, nat)>)
    ensures r.Some? ==> r.value.0 <= r.value.1 <= |text|
  {
    match IndexFrom(text, open, 0)
    case None => None
    case Some(i) =>
      match IndexFrom(text, Close, i + |open|)
      case None => None
      case Some(j) => Some((i + |open|, j))
  }

  /** FindBlock finds the match a leftmost, non-greedy search finds: a
      match starting at no earlier position, closing at no earlier fence,
      and none at all when there is no match anywhere. */
  lemma FindBlockLeftmost(text: string, open: string)
    ensures FindBlock(text, open).Some? ==>
      var (g, j) := FindBlock(text, open).value;
      BlockAt(text, open, g - |open|, j)
      && (forall i, j' :: 0 <= i < g - |open| ==> !BlockAt(text, open, i, j'))
      && (forall j' :: g <= j' < j ==> !OccursAt(text, Close, j'))
    ensures FindBlock(text, open).None? ==> forall i, j :: !BlockAt(text, open, i, j)
  {
    if FindBlock(text, open).None? {
      forall i, j ensures !BlockAt(text, open, i, j) {
        if OccursAt(text, open, i) {
          var i0 := IndexFrom(text, open, 0).value;
          assert i0 <= i;
        }
      }
    }
  }

  // ------------------------------------------------------------------
  // `re.sub(r"```[\s\S]*?```", "", text)`
  // ------------------------------------------------------------------

  /** The text with every span from a fence to the next fence removed,
      scanning left to right; an opening fence with no partner stays. */
  function RemoveFenced(s: string): (r: string)
    ensures |r| <= |s|
    decreases |s|
  {
    match IndexFrom(s, Fence, 0)
    case None => s
    case Some(i) =>
      match IndexFrom(s, Fence, i + |Fence|)
      case None => s
      case Some(j) => s[..i] + RemoveFenced(s[j + |Fence|..])
  }

  /** The leftmost occurrence at or after `from` is `x` when `x` is an
      occurrence and there is none between. */
  lemma IndexFromIs(s: string, sub: string, from: nat, x: nat)
    requires from <= x && OccursAt(s, sub, x)
    requires forall k :: from <= k < x ==> !OccursAt(s, sub, k)
    ensures IndexFrom(s, sub, from) == Some(x)
  {
  }

  /** A fence needs a backtick at its first position. */
  lemma NoFenceIn(s: string, lo: nat, hi: nat)
    requires lo <= hi <= |s|
    requires forall k :: lo <= k < hi ==> s[k] != '`'
    ensures forall k :: lo <= k < hi ==> !OccursAt(s, Fence, k)
  {
    forall k | lo <= k < hi ensures !OccursAt(s, Fence, k) {
      if k + 3 <= |s| {
        assert s[k..k + 3][0] == s[k];
      }
    }
  }

  /** An occurrence of `x + y` is an occurrence of `x`. */
  lemma OccursPrefix(s: string, x: string, y: string, k: int)
    ensures OccursAt(s, x + y, k) ==> OccursAt(s, x, k)
  {
    if OccursAt(s, x + y, k) {
      assert s[k..k + |x|] == s[k..k + |x + y|][..|x|];
    }
  }

  /** Text without a fence is left as it is. */
  lemma RemoveFencedPlain(s: string)
    requires '`' !in s
    ensures RemoveFenced(s) == s
  {
    NoFenceIn(s, 0, |s|);
  }

  /** One fenced span, with no backtick before it or inside it, is cut out
      whole, and the removal goes on after it. */
  lemma RemoveFencedSpan(a: string, b: string, c: string)
    requires '`' !in a && '`' !in b
    ensures RemoveFenced(a + Fence + b + Fence + c) == a + RemoveFenced(c)
  {
    var s := a + Fence + b + Fence + c;
    var j := |a| + 3 + |b|;
    assert forall k :: 0 <= k < |a| ==> s[k] == a[k];
    assert forall k :: |a| + 3 <= k < j ==> s[k] == b[k - |a| - 3];
    NoFenceIn(s, 0, |a|);
    assert s[|a|..|a| + 3] == Fence;
    IndexFromIs(s, Fence, 0, |a|);
    NoFenceIn(s, |a| + 3, j);
    assert s[j..j + 3] == Fence;
    IndexFromIs(s, Fence, |a| + 3, j);
    assert s[..|a|] == a && s[j + 3..] == c;
  }

  // ------------------------------------------------------------------
  // `_parse_response`
  // ------------------------------------------------------------------

  /** The stripped group of a block found by FindBlock. */
  function BlockText(text: string, open: string): Option<string> {
    match FindBlock(text, open)
    case None => None
    case Some((g, j)) => Some(Strip(text[g..j]))
  }

  /** `DockerfileFixer._parse_response(text)`: the fixed Dockerfile is
      the first `dockerfile` block, else the first plain block, else the
      whole reply; the explanation is the reply without its fenced spans. */
  function ParseResponse(text: string): (string, string) {
    var fixed :=
      match BlockText(text, DockerOpen)
      case Some(code) => code
      case None => BlockText(text, AnyOpen).GetOr(text);
    (fixed, Strip(RemoveFenced(text)))
  }

  /** A closing fence needs a backtick at its second position. */
  lemma NoCloseIn(s: string, lo: nat, hi: nat)
    requires lo <= hi < |s|
    requires forall k :: lo < k <= hi ==> s[k] != '`'
    ensures forall k :: lo <= k < hi ==> !OccursAt(s, Close, k)
  {
    forall k | lo <= k < hi ensures !OccursAt(s, Close, k) {
      if k + 4 <= |s| {
        assert s[k..k + 4][1] == s[k + 1];
      }
    }
  }

  /** An opener at `p` with no backtick before it is the first opener. */
  lemma FindPlacedOpener(t: string, open: string, p: nat)
    requires |open| >= 3 && open[..3] == Fence
    requires p + |open| <= |t| && t[p..p + |open|] == open
    requires forall k :: 0 <= k < p ==> t[k] != '`'
    ensures IndexFrom(t, open, 0) == Some(p)
  {
    assert open == Fence + open[3..];
    NoFenceIn(t, 0, p);
    forall k | 0 <= k < p ensures !OccursAt(t, open, k) {
      OccursPrefix(t, Fence, open[3..], k);
    }
    IndexFromIs(t, open, 0, p);
  }

  /** A closing fence at `j` with no backtick between `g` and it is the
      first one from `g` on. */
  lemma FindPlacedCloser(t: string, g: nat, j: nat)
    requires g <= j && j + 4 <= |t| && t[j..j + 4] == Close
    requires forall k :: g <= k < j ==> t[k] != '`'
    ensures IndexFrom(t, Close, g) == Some(j)
  {
    assert t[j] == t[j..j + 4][0];
    NoCloseIn(t, g, j);
    IndexFromIs(t, Close, g, j);
  }

  /** The block of a reply made of backtick-free prose, an opener, a
      backtick-free body and a closing fence is found where it was put. */
  lemma FindPlacedBlock(before: string, open: string, code: string, after: string)
    requires |open| >= 3 && open[..3] == Fence
    requires '`' !in before && '`' !in code
    ensures var t := before + open + code + Close + after;
      FindBlock(t, open) == Some((|before| + |open|, |before| + |open| + |code|))
  {
    var t := before + open + code + Close + after;
    var p := |before|;
    var g := p + |open|;
    var j := g + |code|;
    assert t[p..g] == open;
    assert t[j..j + 4] == Close;
    assert forall k :: 0 <= k < p ==> t[k] == before[k];
    assert forall k :: g <= k < j ==> t[k] == code[k - g];
    FindBlockAt(t, open, p, j);
  }

  /** An opener at `p` and a closing fence at `j`, with no backtick before
      the opener or between the two, make the block FindBlock finds. */
  lemma FindBlockAt(t: string, open: string, p: nat, j: nat)
    requires |open| >= 3 && open[..3] == Fence
    requires p + |open| <= j && j + 4 <= |t| && t[p..p + |open|] == open && t[j..j + 4] == Close
    requires forall k :: 0 <= k < p ==> t[k] != '`'
    requires forall k :: p + |open| <= k < j ==> t[k] != '`'
    ensures FindBlock(t, open) == Some((p + |open|, j))
  {
    FindPlacedOpener(t, open, p);
    FindPlacedCloser(t, p + |open|, j);
    FindBlockIs(t, open, p, p + |open|, j);
  }

  /** FindBlock pairs the first opener with the first closing fence after it. */
  lemma FindBlockIs(t: string, open: string, i: nat, g: nat, j: nat)
    requires IndexFrom(t, open, 0) == Some(i) && g == i + |open| && IndexFrom(t, Close, g) == Some(j)
    ensures FindBlock(t, open) == Some((g, j))
  {
    var r := FindBlock(t, open);
    assert r.Some?;
    assert r.value.0 == g;
    assert r.value.1 == j;
  }

  lemma Regroup(a: string, f: string, r: string, c: string, e: string)
    ensures a + (f + r) + c + ("\n" + f) + e == a + f + (r + c + "\n") + f + e
  {
  }

  /** The fenced span lies between the two fences of the block. */
  lemma PlacedSpan(before: string, rest: string, code: string, after: string)
    ensures before + (Fence + rest) + code + Close + after == before + Fence + (rest + code + "\n") + Fence + after
  {
    assert Close == "\n" + Fence;
    Regroup(before, Fence, rest, code, after);
  }

  lemma NoTickConcat(rest: string, code: string)
    requires '`' !in rest && '`' !in code
    ensures '`' !in rest + code + "\n"
  {
  }

  /** Removing one fenced span from a reply with no other backtick leaves
      the prose around it. */
  lemma RemoveOnlySpan(before: string, inner: string, after: string)
    requires '`' !in before && '`' !in inner && '`' !in after
    ensures RemoveFenced(before + Fence + inner + Fence + after) == before + after
  {
    RemoveFencedSpan(before, inner, after);
    RemoveFencedPlain(after);
  }

  /** The explanation of such a reply is the prose around the block. */
  lemma PlacedBlockExplanation(before: string, open: string, code: string, after: string)
    requires |open| >= 3 && open[..3] == Fence && '`' !in open[3..]
    requires '`' !in before && '`' !in code && '`' !in after
    ensures RemoveFenced(before + open + code + Close + after) == before + after
  {
    var rest := open[3..];
    assert open == Fence + rest;
    PlacedSpan(before, rest, code, after);
    NoTickConcat(rest, code);
    RemoveOnlySpan(before, rest + code + "\n", after);
  }

  lemma BlockTextIs(t: string, open: string, code: string, g: nat)
    requires g + |code| <= |t| && t[g..g + |code|] == code
    requires FindBlock(t, open) == Some((g, g + |code|))
    ensures BlockText(t, open) == Some(Strip(code))
  {
  }

  /** The block text of a reply built around a block is that block, stripped. */
  lemma PlacedBlockText(before: string, open: string, code: string, after: string)
    requires |open| >= 3 && open[..3] == Fence
    requires '`' !in before && '`' !in code
    ensures BlockText(before + open + code + Close + after, open) == Some(Strip(code))
  {
    var t := before + open + code + Close + after;
    var g := |before| + |open|;
    FindPlacedBlock(before, open, code, after);
    assert t[g..g + |code|] == code;
    BlockTextIs(t, open, code, g);
  }

  /** A reply with a `dockerfile` block answers with that block. */
  lemma ParseFirstChoice(t: string, code: string)
    requires BlockText(t, DockerOpen) == Some(code)
    ensures ParseResponse(t) == (code, Strip(RemoveFenced(t)))
  {
  }

  /** A reply with only a plain block answers with that block. */
  lemma ParseSecondChoice(t: string, code: string)
    requires BlockText(t, DockerOpen).None? && BlockText(t, AnyOpen) == Some(code)
    ensures ParseResponse(t) == (code, Strip(RemoveFenced(t)))
  {
  }

  /** A reply of prose, one `dockerfile` block and more prose gives the
      stripped block and the stripped prose around it. */
  lemma ParseDockerBlock(before: string, code: string, after: string)
    requires '`' !in before && '`' !in code && '`' !in after
    ensures ParseResponse(before + DockerOpen + code + Close + after)
         == (Strip(code), Strip(before + after))
  {
    var t := before + DockerOpen + code + Close + after;
    PlacedBlockText(before, DockerOpen, code, after);
    assert DockerOpen[3..] == "dockerfile\n";
    PlacedBlockExplanation(before, DockerOpen, code, after);
    ParseFirstChoice(t, Strip(code));
  }

  /** No `dockerfile` opener starts at or before the closing fence of a
      plain block with no backtick before it or inside it. */
  lemma NoDockerOpenUpTo(t: string, p: nat, j: nat)
    requires p + 4 <= j < |t| && t[p + 3] == '\n' && t[j] == '\n'
    requires forall k :: 0 <= k < p ==> t[k] != '`'
    requires forall k :: p + 4 <= k < j ==> t[k] != '`'
    ensures forall k :: 0 <= k <= j ==> !OccursAt(t, DockerOpen, k)
  {
    assert DockerOpen == Fence + "dockerfile\n";
    forall k | 0 <= k <= j ensures !OccursAt(t, DockerOpen, k) {
      OccursPrefix(t, Fence, "dockerfile\n", k);
      if k == p && k + 14 <= |t| {
        assert t[k..k + 14][3] == t[p + 3];
      } else if p < k < p + 3 && k + 3 <= |t| {
        assert t[k..k + 3][p + 3 - k] == t[p + 3];
      } else if k + 3 <= |t| {
        assert t[k..k + 3][0] == t[k];
      }
    }
  }

  /** No closing fence starts at or after `lo` when no backtick follows `lo`. */
  lemma NoCloseFrom(t: string, lo: nat)
    requires forall k :: lo < k < |t| ==> t[k] != '`'
    ensures forall k :: lo <= k <= |t| ==> !OccursAt(t, Close, k)
  {
    forall k | lo <= k <= |t| ensures !OccursAt(t, Close, k) {
      if k + 4 <= |t| {
        assert t[k..k + 4][1] == t[k + 1];
      }
    }
  }

  /** A reply whose only block is a plain one has no `dockerfile` block:
      no opener precedes the closing fence, and none after it is closed. */
  lemma NoDockerBlock(before: string, code: string, after: string)
    requires '`' !in before && '`' !in code && '`' !in after
    ensures FindBlock(before + AnyOpen + code + Close + after, DockerOpen).None?
  {
    var t := before + AnyOpen + code + Close + after;
    var p := |before|;
    var j := p + 4 + |code|;
    assert t[p + 3] == '\n' && t[j] == '\n';
    assert forall k :: 0 <= k < p ==> t[k] == before[k];
    assert forall k :: p + 4 <= k < j ==> t[k] == code[k - p - 4];
    NoDockerOpenUpTo(t, p, j);
    match IndexFrom(t, DockerOpen, 0)
    case None =>
    case Some(i) =>
      assert j < i;
      assert forall k :: j + 4 <= k < |t| ==> t[k] == after[k - j - 4];
      NoCloseFrom(t, i + 14);
  }

  /** A reply of prose, one plain block and more prose gives the stripped
      block and the stripped prose around it. */
  lemma ParsePlainBlock(before: string, code: string, after: string)
    requires '`' !in before && '`' !in code && '`' !in after
    ensures ParseResponse(before + AnyOpen + code + Close + after)
         == (Strip(code), Strip(before + after))
  {
    var t := before + AnyOpen + code + Close + after;
    NoDockerBlock(before, code, after);
    PlacedBlockText(before, AnyOpen, code, after);
    assert AnyOpen[3..] == "\n";
    PlacedBlockExplanation(before, AnyOpen, code, after);
    ParseSecondChoice(t, Strip(code));
  }

  /** Text without a backtick holds no block. */
  lemma NoBlockWithoutTick(text: string, open: string)
    requires '`' !in text && |open| >= 3 && open[..3] == Fence
    ensures FindBlock(text, open).None?
  {
    assert open == Fence + open[3..];
    NoFenceIn(text, 0, |text|);
    forall k | 0 <= k <= |text| ensures !OccursAt(text, open, k) {
      OccursPrefix(text, Fence, open[3..], k);
    }
  }

  /** A reply without any backtick is its own fixed Dockerfile, and its
      explanation is the reply stripped. */
  lemma ParseNoFence(text: string)
    requires '`' !in text
    ensures ParseResponse(text) == (text, Strip(text))
  {
    assert DockerOpen[..3] == Fence && AnyOpen[..3] == Fence;
    NoBlockWithoutTick(text, DockerOpen);
    NoBlockWithoutTick(text, AnyOpen);
    RemoveFencedPlain(text);
    var r := ParseResponse(text);
    assert r.0 == text;
    assert r.1 == Strip(text);
  }

  // ------------------------------------------------------------------
  // `fix`
  // ------------------------------------------------------------------

  const PromptIntro: string := "You are an expert Docker and DevOps engineer. Your task is to fix a Dockerfile that has build errors.\n\nDockerfile path: "
  const PromptOutro: string := "\n```\n\nPlease analyze the error and provide a fixed version of the Dockerfile that will resolve the build issue.\nThe fix should:\n1. Address the root cause of the error\n2. Maintain the original functionality\n3. Follow Docker best practices\n4. Be minimal and focused\n\nProvide the fixed Dockerfile and a brief explanation of the changes made."

  /** `problem.build_context or "root"`. */
  function ContextText(buildContext: Option<string>): string {
    if buildContext.None? || buildContext.value == "" then "root" else buildContext.value
  }

  /** The problem type's value, or "unknown" without one. */
  function ProblemText(problemType: Option<ProblemType>): string {
    if problemType.Some? then problemType.value.Value() else "unknown"
  }

  /** The template up to the opening fence of the original Dockerfile. */
  function PromptHead(p: DockerfileProblem): string {
    PromptIntro + p.dockerfilePath
    + "\nBuild context: " + ContextText(p.buildContext)
    + "\nProblem type: " + ProblemText(p.problemType)
    + "\n\nOriginal Dockerfile:\n"
  }

  /** The template after the closing fence of the original Dockerfile: the
      build error in a plain fence, then the instructions. */
  function PromptTail(p: DockerfileProblem): string {
    "\n\nBuild error:\n" + AnyOpen + p.errorMessage + PromptOutro
  }

  /** `FIX_PROMPT_TEMPLATE` filled in for a problem and the Dockerfile read:
      the original Dockerfile sits inside a `dockerfile` fence. */
  function FixPrompt(p: DockerfileProblem, original: string): string {
    PromptHead(p) + DockerOpen + original + Close + PromptTail(p)
  }

  /** Read back the way a reply is read, the prompt gives the original
      Dockerfile, stripped, as its `dockerfile` block, as long as no
      backtick comes before the block's end: the fixed text, the path, the
      build context and the problem type hold none, nor does the original. */
  lemma FixPromptQuotesOriginal(p: DockerfileProblem, original: string)
    requires '`' !in PromptHead(p) && '`' !in original
    ensures BlockText(FixPrompt(p, original), DockerOpen) == Some(Strip(original))
  {
    assert DockerOpen[..3] == Fence;
    PlacedBlockText(PromptHead(p), DockerOpen, original, PromptTail(p));
  }

  /** Without a build context the prompt says "root"; an unclassified
      problem says "unknown". */
  lemma PromptDefaults(buildContext: Option<string>, problemType: Option<ProblemType>)
    ensures ContextText(buildContext) == "root" <==>
      buildContext.None? || buildContext.value == "" || buildContext.value == "root"
    ensures problemType.None? ==> ProblemText(problemType) == "unknown"
    ensures problemType.Some? ==> ProblemText(problemType) == problemType.value.Value()
  {
  }

  const Confidence: real := 0.8

  /** `DockerfileFixer.fix(path, error_message, build_context)` on a disk,
      with `llm` the model's reply to a prompt. A missing file raises
      FileNotFoundError with the path; a directory raises as `open` does;
      an error of the model call propagates. */
  function Fix(d: Disk, llm: string -> Result<string, Error>, path: Path,
               errorMessage: string, buildContext: Option<string>): Result<FixResult, Error>
  {
    if path in d.dirs then Err(Raised("Is a directory: " + path))
    else match d.Read(path)
      case None => Err(FileNotFound("Dockerfile not found at " + path))
      case Some(original) =>
        var problem := ErrorAnalyzer.Analyze(path, errorMessage, buildContext);
        match llm(FixPrompt(problem, original))
        case Err(e) => Err(e)
        case Ok(reply) =>
          var (fixed, explanation) := ParseResponse(reply);
          Ok(FixResult(true, original, fixed, explanation, Confidence))
  }

  /** A fix succeeds exactly when the file can be read and the model
      replies; then it reports success with confidence 0.8, the content
      read, and the parse of the reply to the prompt for the classified
      problem. */
  lemma FixOutcome(d: Disk, llm: string -> Result<string, Error>, path: Path,
                   errorMessage: string, buildContext: Option<string>)
    requires d.Valid()
    ensures var r := Fix(d, llm, path, errorMessage, buildContext);
      (path !in d.files && path !in d.dirs ==>
         r == Err(FileNotFound("Dockerfile not found at " + path)))
      && (path in d.files ==>
            var problem := ErrorAnalyzer.Analyze(path, errorMessage, buildContext);
            var reply := llm(FixPrompt(problem, d.files[path]));
            (r.Ok? <==> reply.Ok?)
            && (reply.Err? ==> r == Err(reply.error))
            && (reply.Ok? ==>
                  r.value.success && r.value.confidence == 0.8
                  && r.value.originalDockerfile == d.files[path]
                  && (r.value.fixedDockerfile, r.value.explanation) == ParseResponse(reply.value)))
  {
  }
}
