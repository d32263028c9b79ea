/** The rule-based classifier of Docker build errors: an ordered table of
    problem types, each with its patterns; the first type with a matching
    pattern wins. */
module ErrorAnalyzer {
  import opened Wrappers
  import opened Text
  import opened Schema

  // ------------------------------------------------------------------
  // Patterns
  // ------------------------------------------------------------------

  /** The two regular-expression shapes the table uses: a literal, and
      `a.*b`, where `.` matches any character but a line break. */
  datatype Pattern = Lit(text: string) | Gap(left: string, right: string)

  /** No line break in `s[lo..hi]`. */
  predicate NoBreak(s: string, lo: int, hi: int)
    requires 0 <= lo <= hi <= |s|
  {
    forall k :: lo <= k < hi ==> s[k] != '\n'
  }

  /** What `re.search` decides for `left.*right`: some occurrence of `left`
      followed, on the same line, by an occurrence of `right`. */
  ghost predicate GapMatches(s: string, left: string, right: string) {
    exists i, j :: GapMatchAt(s, left, right, i, j)
  }

  /** Whether `right` follows the occurrence of `left` at `i` on its line:
      only the first later `right` needs to be looked at. */
  predicate GapAt(s: string, left: string, right: string, i: nat)
  {
    match IndexFrom(s, right, i + |left|)
    case None => false
    case Some(j) => i + |left| <= j <= |s| && NoBreak(s, i + |left|, j)
  }

  /** The search for `left.*right`, trying each occurrence of `left` from
      `from` on. */
  predicate GapSearch(s: string, left: string, right: string, from: nat)
    decreases |s| - from
  {
    match IndexFrom(s, left, from)
    case None => false
    case Some(i) => GapAt(s, left, right, i) || GapSearch(s, left, right, i + 1)
  }

  /** The `left.*right` matches that start at or after `from`. */
  ghost predicate GapMatchAt(s: string, left: string, right: string, i: int, j: int) {
    0 <= i && OccursAt(s, left, i) && i + |left| <= j && OccursAt(s, right, j) && NoBreak(s, i + |left|, j)
  }

  /** Whatever the search finds is a match. */
  lemma {:induction false} GapSearchSound(s: string, left: string, right: string, from: nat)
    requires GapSearch(s, left, right, from)
    ensures exists i, j :: from <= i && GapMatchAt(s, left, right, i, j)
    decreases |s| - from
  {
    var i0 := IndexFrom(s, left, from).value;
    if GapAt(s, left, right, i0) {
      var j0 := IndexFrom(s, right, i0 + |left|).value;
      assert GapMatchAt(s, left, right, i0, j0);
    } else {
      GapSearchSound(s, left, right, i0 + 1);
    }
  }

  /** Every match starting at or after `from` is found. */
  lemma {:induction false} GapSearchComplete(s: string, left: string, right: string, from: nat, i: nat, j: nat)
    requires from <= i && GapMatchAt(s, left, right, i, j)
    ensures GapSearch(s, left, right, from)
    decreases |s| - from
  {
    var first := IndexFrom(s, left, from);
    assert OccursAt(s, left, i);
    assert first.Some?;
    var i0 := first.value;
    assert i0 <= i;
    if i0 == i {
      var next := IndexFrom(s, right, i0 + |left|);
      assert OccursAt(s, right, j);
      assert next.Some?;
      var j0 := next.value;
      assert j0 <= j;
      assert NoBreak(s, i0 + |left|, j0);
      assert GapAt(s, left, right, i0);
    } else {
      GapSearchComplete(s, left, right, i0 + 1, i, j);
      assert GapSearch(s, left, right, i0 + 1);
    }
  }

  /** `re.search(pattern, s)` for the two shapes. */
  predicate Matches(p: Pattern, s: string) {
    match p
    case Lit(t) => Contains(s, t)
    case Gap(a, b) => GapSearch(s, a, b, 0)
  }

  /** A gap pattern matches exactly when the regular expression would. */
  lemma GapMatchesIff(s: string, left: string, right: string)
    ensures Matches(Gap(left, right), s) <==> GapMatches(s, left, right)
  {
    if GapSearch(s, left, right, 0) {
      GapSearchSound(s, left, right, 0);
    }
    if GapMatches(s, left, right) {
      var i, j :| GapMatchAt(s, left, right, i, j);
      GapSearchComplete(s, left, right, 0, i, j);
    }
  }

  /** `re.search(pattern, s, re.IGNORECASE)` on an already lower-cased `s`. */
  predicate MatchesIgnoringCase(p: Pattern, s: string) {
    match p
    case Lit(t) => Matches(Lit(Lower(t)), s)
    case Gap(a, b) => Matches(Gap(Lower(a), Lower(b)), s)
  }

  // ------------------------------------------------------------------
  // The table
  // ------------------------------------------------------------------

  datatype Rule = Rule(problem: ProblemType, patterns: seq<Pattern>)

  /** `ERROR_PATTERNS`, in its order. The first entry is the alternation
      `COPY|ADD.*No such file or directory`, written as its two branches. */
  const ErrorPatterns: seq<Rule> := [
    Rule(PathNotFound, [Lit("COPY"), Gap("ADD", "No such file or directory"),
                        Gap("stat", "no such file or directory"), Lit("cannot find path")]),
    Rule(PermissionDenied, [Lit("permission denied"), Lit("Permission denied while trying to connect")]),
    Rule(MissingDependency, [Gap("Command", "not found"), Lit("ModuleNotFoundError"),
                             Lit("ImportError"), Lit("cannot find -l")]),
    Rule(ImageNotFound, [Lit("image not found"), Gap("Error response from daemon", "not found")]),
    Rule(InvalidSyntax, [Lit("syntax error"), Lit("invalid syntax"), Lit("Unexpected token")]),
    Rule(BuildContextError, [Lit("build context"), Lit("context outside of")])
  ]

  /** Some pattern of the rule matches the lower-cased message. */
  predicate RuleMatches(r: Rule, lowered: string) {
    exists p :: p in r.patterns && MatchesIgnoringCase(p, lowered)
  }

  /** The problem of the first matching rule, if any. */
  function FirstMatch(rules: seq<Rule>, lowered: string): (r: Option<ProblemType>)
    ensures r.None? <==> forall k :: 0 <= k < |rules| ==> !RuleMatches(rules[k], lowered)
    ensures r.Some? ==>
      exists k :: 0 <= k < |rules| && RuleMatches(rules[k], lowered) && rules[k].problem == r.value
                  && forall k' :: 0 <= k' < k ==> !RuleMatches(rules[k'], lowered)
  {
    if |rules| == 0 then None
    else if RuleMatches(rules[0], lowered) then Some(rules[0].problem)
    else
      var rest := FirstMatch(rules[1..], lowered);
      assert forall k :: 1 <= k < |rules| ==> rules[k] == rules[1..][k - 1];
      rest
  }

  /** `DockerfileAnalyzer._identify_problem_type(error_message)`. */
  function IdentifyProblemType(message: string): ProblemType {
    FirstMatch(ErrorPatterns, Lower(message)).GetOr(UnknownProblem)
  }

  /** The problem type of each rule, by position. */
  lemma TableProblems()
    ensures |ErrorPatterns| == 6
    ensures ErrorPatterns[0].problem == PathNotFound && ErrorPatterns[1].problem == PermissionDenied
    ensures ErrorPatterns[2].problem == MissingDependency && ErrorPatterns[3].problem == ImageNotFound
    ensures ErrorPatterns[4].problem == InvalidSyntax && ErrorPatterns[5].problem == BuildContextError
  {
  }

  /** No rule of the table reports UNKNOWN. */
  predicate AllKnown(rules: seq<Rule>) {
    forall k :: 0 <= k < |rules| ==> rules[k].problem != UnknownProblem
  }

  lemma TableKnown()
    ensures AllKnown(ErrorPatterns)
  {
    TableProblems();
  }

  /** Over a table without UNKNOWN, the default is taken exactly when no
      rule matches. */
  lemma DefaultIffNoMatch(rules: seq<Rule>, lowered: string)
    requires AllKnown(rules)
    ensures FirstMatch(rules, lowered).GetOr(UnknownProblem) == UnknownProblem <==>
      forall k :: 0 <= k < |rules| ==> !RuleMatches(rules[k], lowered)
  {
  }

  /** The message is UNKNOWN exactly when no pattern of any rule matches. */
  lemma UnknownIff(message: string)
    ensures IdentifyProblemType(message) == UnknownProblem <==>
      forall k :: 0 <= k < |ErrorPatterns| ==> !RuleMatches(ErrorPatterns[k], Lower(message))
  {
    TableKnown();
    DefaultIffNoMatch(ErrorPatterns, Lower(message));
  }

  /** Otherwise the result is the problem of the earliest matching rule. */
  lemma {:induction false} FirstMatchWins(message: string, k: nat)
    requires k < |ErrorPatterns| && RuleMatches(ErrorPatterns[k], Lower(message))
    requires forall k' :: 0 <= k' < k ==> !RuleMatches(ErrorPatterns[k'], Lower(message))
    ensures IdentifyProblemType(message) == ErrorPatterns[k].problem
  {
    var r := FirstMatch(ErrorPatterns, Lower(message));
    var k2 :| 0 <= k2 < |ErrorPatterns| && RuleMatches(ErrorPatterns[k2], Lower(message))
      && ErrorPatterns[k2].problem == r.value
      && forall k' :: 0 <= k' < k2 ==> !RuleMatches(ErrorPatterns[k'], Lower(message));
    assert k2 == k;
  }

  /** Matching ignores case: only the lower-cased message matters. */
  lemma IgnoresCase(message: string)
    ensures IdentifyProblemType(Lower(message)) == IdentifyProblemType(message)
  {
    LowerIdempotent(message);
  }

  /** Any message containing `copy`, in any case, is a missing path. */
  lemma CopyIsPathNotFound(message: string)
    requires Contains(Lower(message), "copy")
    ensures IdentifyProblemType(message) == PathNotFound
  {
    assert Lower("COPY") == "copy";
    assert MatchesIgnoringCase(Lit("COPY"), Lower(message));
    assert RuleMatches(ErrorPatterns[0], Lower(message));
  }

  /** `DockerfileAnalyzer.analyze`: the inputs are copied into the problem
      unchanged, with the identified type. */
  function Analyze(dockerfilePath: string, errorMessage: string, buildContext: Option<string>)
    : (p: DockerfileProblem)
    ensures p.dockerfilePath == dockerfilePath && p.errorMessage == errorMessage
    ensures p.buildContext == buildContext
    ensures p.problemType == Some(IdentifyProblemType(errorMessage))
  {
    DockerfileProblem(dockerfilePath, errorMessage, Some(IdentifyProblemType(errorMessage)), buildContext)
  }
}
