/** `smart-validator.py`: a regex-driven scan of Kotlin sources for empty,
    TODO-marked and fake function bodies, view-model functions that call an
    API without updating state or handling errors, navigation targets
    without a screen and a few file-wide smells, followed by a report whose
    verdict is "no BLOCKER and no CRITICAL issue". */
module SmartValidation {
  import opened Text
  import opened Seqs
  import opened KotlinPatterns

  datatype Level = Blocker | Critical | Major | Minor

  /** An issue as the report keeps it: the file (or a pseudo-file such as
      "Navigation"), the line (always 0 in this validator), the issue type,
      the level and the name it is about (a function, a route, or empty).
      The human-readable description, evidence and fix texts are not kept. */
  datatype Issue = Issue(file: string, line: int, issueType: string, level: Level, subject: string)

  datatype SourceFile = SourceFile(path: string, content: string)

  // ---------------------------------------------------------------
  // The function-header pattern of `extract_functions`
  // (override\s+)?(suspend\s+)?fun\s+(\w+)\s*\(([^)]*)\)(\s*:\s*[^{]+)?\s*(\{[^}]*\}|=)
  // ---------------------------------------------------------------

  /** One match: group 3 (the name), whether group 2 (`suspend`) took part,
      group 4 (the parameters), group 5 (the return type) when it took part
      and group 6 (the body). */
  datatype FuncMatch = FuncMatch(name: string, isSuspend: bool, params: string, returnType: Option<string>, body: string)

  /** What group 6 can hold: `=`, or a brace block with no `}` inside. */
  predicate IsBodyGroup(b: string)
  {
    b == "=" || (|b| >= 2 && b[0] == '{' && b[|b| - 1] == '}' && forall q :: 0 < q < |b| - 1 ==> b[q] != '}')
  }

  /** `\{[^}]*\}` at `b`: the end of the block, just after its first `}`. */
  function BraceBlockAt(s: string, b: nat): (r: Option<nat>)
    ensures r.Some? ==> b + 2 <= r.value <= |s| && IsBodyGroup(s[b..r.value])
  {
    if b < |s| && s[b] == '{' then
      match FindChar(s, '}', b + 1)
      case Some(c) =>
        Some(c + 1)
      case None => None
    else None
  }

  /** The last index in `[lo, hi)` holding `c`. */
  function LastCharIn(s: string, c: char, lo: nat, hi: nat): (r: Option<nat>)
    requires hi <= |s|
    decreases hi
    ensures r.Some? ==> lo <= r.value < hi && s[r.value] == c
    ensures r.Some? ==> forall q :: r.value < q < hi ==> s[q] != c
    ensures r.None? ==> forall q :: lo <= q < hi ==> s[q] != c
  {
    if hi <= lo then None
    else if s[hi - 1] == c then Some(hi - 1)
    else LastCharIn(s, c, lo, hi - 1)
  }

  /** The pattern from just after `)` with group 5 taking part: its text,
      where group 6 starts and where the match ends. `[^{]+` runs greedily
      to the first `{` (or the end of the text) and backs off from there;
      only at that `{` can the block alternative start, so group 6 is that
      block when it closes and otherwise the last `=` before the `{`. The
      run after `:` needs one character of its own, so that `=` stands two
      or more places after the colon. */
  function ReturnTypeBody(s: string, t: nat): (r: Option<(string, nat, nat)>)
    requires t <= |s|
    ensures r.Some? ==> t < r.value.1 < r.value.2 <= |s| && IsBodyGroup(s[r.value.1..r.value.2])
    ensures r.Some? ==> r.value.0 == s[t..r.value.1]
  {
    var w := SkipSpace(s, t);
    if w == |s| || s[w] != ':' then None
    else
      var e := if FindChar(s, '{', w + 1).Some? then FindChar(s, '{', w + 1).value else |s|;
      if e >= w + 2 && BraceBlockAt(s, e).Some? then
        Some((s[t..e], e, BraceBlockAt(s, e).value))
      else
        match LastCharIn(s, '=', w + 2, e)
        case Some(z) =>
          assert s[z..z + 1] == "=";
          Some((s[t..z], z, z + 1))
        case None => None
  }

  /** The pattern from just after `)` without group 5: `\s*` and group 6
      (neither alternative of which starts with whitespace). */
  function PlainBody(s: string, t: nat): (r: Option<(nat, nat)>)
    requires t <= |s|
    ensures r.Some? ==> t <= r.value.0 < r.value.1 <= |s| && IsBodyGroup(s[r.value.0..r.value.1])
  {
    var b := SkipSpace(s, t);
    match BraceBlockAt(s, b)
    case Some(e) => Some((b, e))
    case None =>
      if b < |s| && s[b] == '=' then
        assert s[b..b + 1] == "=";
        Some((b, b + 1))
      else None
  }

  /** The header pattern attempted at `p`: the match and its end. The
      greedy `\s+`, `\w+` and `[^)]*` are each followed by a character they
      cannot match, so backing them off never helps; the optional group 5
      is tried first and dropped only when no match uses it. */
  function FuncMatchAt(s: string, p: nat): (r: Option<(FuncMatch, nat)>)
    requires p <= |s|
    ensures r.Some? ==> p < r.value.1 <= |s|
    ensures r.Some? ==> IsBodyGroup(r.value.0.body) && |r.value.0.name| > 0
  {
    match OptionalKeyword(s, p, "override")
    case None => None
    case Some((_, q)) =>
      match OptionalKeyword(s, q, "suspend")
      case None => None
      case Some((suspend, f)) =>
        if !HasAt(s, f, "fun") then None
        else
          var n := SkipSpace(s, f + 3);
          var ne := WordEnd(s, n);
          var a := SkipSpace(s, ne);
          if n == f + 3 || ne == n || a == |s| || s[a] != '(' then None
          else
            match FindChar(s, ')', a + 1)
            case None => None
            case Some(c) => HeaderTail(s, c, FuncMatch(s[n..ne], suspend, s[a + 1..c], None, ""))
  }

  /** After the parameter list closes at `c`: the return type and the
      body, or the body alone, completing `head`. */
  function HeaderTail(s: string, c: nat, head: FuncMatch): (r: Option<(FuncMatch, nat)>)
    requires c < |s|
    ensures r.Some? ==> c < r.value.1 <= |s| && IsBodyGroup(r.value.0.body) && r.value.0.name == head.name
  {
    match ReturnTypeBody(s, c + 1)
    case Some((rt, b, e)) => Some((head.(returnType := Some(rt), body := s[b..e]), e))
    case None =>
      match PlainBody(s, c + 1)
      case Some((b, e)) => Some((head.(body := s[b..e]), e))
      case None => None
  }

  /** `re.finditer` of the header pattern from `p`: the matches, left to
      right, each search resuming where the previous match ended. */
  function FuncMatches(s: string, p: nat): (r: seq<FuncMatch>)
    requires p <= |s|
    decreases |s| - p
    ensures forall k :: 0 <= k < |r| ==> IsBodyGroup(r[k].body) && |r[k].name| > 0
  {
    if p == |s| then []
    else match FuncMatchAt(s, p)
      case Some((m, e)) => [m] + FuncMatches(s, e)
      case None => FuncMatches(s, p + 1)
  }

  // ---------------------------------------------------------------
  // Body classification
  // ---------------------------------------------------------------

  // The block-comment substitution of `is_empty_function` passes
  // `re.DOTALL` (whose value is 16) as the count argument and sets no flag.
  const DotAllAsCount: nat := 16

  // A block comment (slash-star, lazy `.*?`, star-slash) at `p` without
  // DOTALL: the end of the comment. The lazy `.*?` stops at the first
  // closing star-slash; a line break before it cannot be crossed, and every
  // later closing mark lies beyond that break too.
  function OneLineCommentAt(s: string, p: nat): (r: Option<nat>)
    ensures r.Some? ==> p + 4 <= r.value <= |s| && HasAt(s, p, "/*") && HasAt(s, r.value - 2, "*/")
    ensures r.Some? ==> forall q :: p + 2 <= q < r.value - 2 ==> s[q] != '\n'
  {
    if !HasAt(s, p, "/*") then None
    else
      match FindFrom(s, "*/", p + 2)
      case None => None
      case Some(q) =>
        if '\n' in s[p + 2..q] then None
        else
          assert forall k :: p + 2 <= k < q ==> s[k] == s[p + 2..q][k - p - 2];
          Some(q + 2)
  }

  /** `re.sub` of the block-comment pattern with at most `count` replacements. */
  function StripOneLineComments(s: string, count: nat): (r: string)
    decreases |s|
    ensures |r| <= |s|
  {
    if |s| == 0 then ""
    else if count > 0 && OneLineCommentAt(s, 0).Some? then
      StripOneLineComments(s[OneLineCommentAt(s, 0).value..], count - 1)
    else [s[0]] + StripOneLineComments(s[1..], count)
  }

  /** The text `is_empty_function` inspects: line comments removed, then
      one-line block comments, then surrounding whitespace. */
  function CleanBody(body: string): string
  {
    Strip(StripOneLineComments(StripLineComments(body), DotAllAsCount))
  }

  /** `s.replace('{', '').replace('}', '')`. */
  function WithoutBraces(s: string): string
  {
    Replace(Replace(s, "{", ""), "}", "")
  }

  /** `is_empty_function`. */
  predicate IsEmptyFunction(body: string)
  {
    body == "" || body == "=" ||
    (var clean := CleanBody(body); clean == "{}" || clean == "{ }" || Strip(WithoutBraces(clean)) == "")
  }

  /** `has_todo_marker`: the upper-cased body contains one of the markers. */
  predicate HasTodoMarker(body: string)
  {
    var u := Upper(body);
    Contains(u, "TODO") || Contains(u, "FIXME") || Contains(u, "XXX") || Contains(u, "HACK") || Contains(u, "TBD")
  }

  /** The patterns of `is_fake_implementation`, in their order there. */
  datatype FakePattern =
    | ReturnsString    // return\s+"[^"]*"$
    | ReturnsNumber    // return\s+\d+$
    | ReturnsBool      // return\s+(true|false)$
    | FixedDelay       // delay\s*\(\s*\d+\s*\)
    | ReturnsMock      // return\s+.*[Mm]ock
    | ReturnsFake      // return\s+.*[Ff]ake
    | TodoComment      // //\s*TODO
    | NotImplemented   // throw\s+NotImplementedError

  /** `$` in MULTILINE mode at `e`: the end of a line or of the text. */
  predicate LineEndAt(t: string, e: nat)
  {
    e == |t| || (e < |t| && t[e] == '\n')
  }

  /** Each pattern attempted at `p` of the lower-cased body; IGNORECASE on
      ASCII letters is matching the lower-cased text against the lower-cased
      pattern. `.*` in `return\s+.*mock` cannot cross a line break, and the
      whitespace `\s+` gives back could only shift where `.*` starts. */
  predicate FakeAt(pat: FakePattern, t: string, p: nat)
    requires p <= |t|
  {
    match pat
    case ReturnsString =>
      ReturnAt(t, p).Some? &&
      var a := ReturnAt(t, p).value;
      a < |t| && t[a] == '"' && FindChar(t, '"', a + 1).Some? && LineEndAt(t, FindChar(t, '"', a + 1).value + 1)
    case ReturnsNumber =>
      ReturnAt(t, p).Some? &&
      var a := ReturnAt(t, p).value;
      DigitEnd(t, a) > a && LineEndAt(t, DigitEnd(t, a))
    case ReturnsBool =>
      ReturnAt(t, p).Some? &&
      var a := ReturnAt(t, p).value;
      (HasAt(t, a, "true") && LineEndAt(t, a + 4)) || (HasAt(t, a, "false") && LineEndAt(t, a + 5))
    case FixedDelay => DelayDigitsAt(t, p, 1)
    case ReturnsMock =>
      ReturnAt(t, p).Some? && var a := ReturnAt(t, p).value; Contains(t[a..LineEnd(t, a)], "mock")
    case ReturnsFake =>
      ReturnAt(t, p).Some? && var a := ReturnAt(t, p).value; Contains(t[a..LineEnd(t, a)], "fake")
    case TodoComment =>
      HasAt(t, p, "//") && HasAt(t, SkipSpace(t, p + 2), "todo")
    case NotImplemented =>
      HasAt(t, p, "throw") &&
      var a := SkipSpace(t, p + 5);
      a > p + 5 && HasAt(t, a, "notimplementederror")
  }

  /** `is_fake_implementation`: a non-empty body that some pattern matches
      somewhere. */
  predicate IsFakeImplementation(body: string)
  {
    body != "" && exists pat: FakePattern, p: nat :: p <= |body| && FakeAt(pat, Lower(body), p)
  }

  /** The per-function record `extract_functions` stores. */
  datatype FunctionInfo = FunctionInfo(
    name: string, file: string, isSuspend: bool, hasParams: bool, hasReturn: bool, body: string,
    isEmpty: bool, hasTodo: bool, isFake: bool, callsApi: bool, handlesError: bool, updatesUi: bool)

  function Describe(file: string, m: FuncMatch): (f: FunctionInfo)
    ensures f.name == m.name && f.file == file && f.body == m.body
  {
    var lower := Lower(m.body);
    FunctionInfo(
      m.name, file, m.isSuspend, Strip(m.params) != "", m.returnType.Some?, m.body,
      IsEmptyFunction(m.body), HasTodoMarker(m.body), IsFakeImplementation(m.body),
      Contains(lower, "api") || Contains(lower, "service"),
      Contains(m.body, "try") || Contains(m.body, "catch") || Contains(m.body, "onFailure"),
      Contains(m.body, "_state") || Contains(m.body, "mutableStateOf"))
  }

  /** The records of a file's matches, in match order. */
  function Describes(file: string, ms: seq<FuncMatch>): (r: seq<FunctionInfo>)
    ensures |r| == |ms| && forall k :: 0 <= k < |ms| ==> r[k] == Describe(file, ms[k])
  {
    seq(|ms|, k requires 0 <= k < |ms| => Describe(file, ms[k]))
  }

  function FunctionKey(file: string, name: string): string
  {
    file + "::" + name
  }

  // ---------------------------------------------------------------
  // Issues of one function
  // ---------------------------------------------------------------

  predicate IsChainIssue(i: Issue)
  {
    i.issueType == "empty_function" || i.issueType == "todo_marker" || i.issueType == "fake_implementation"
  }

  /** The if/elif chain of `check_function_issues`: empty before TODO
      before fake, and at most one of them. */
  function ChainIssues(f: FunctionInfo): (r: seq<Issue>)
    ensures |r| <= 1 && forall i :: i in r ==> IsChainIssue(i)
    ensures Issue(f.file, 0, "empty_function", Critical, f.name) in r <==> f.isEmpty
    ensures Issue(f.file, 0, "todo_marker", Major, f.name) in r <==> !f.isEmpty && f.hasTodo
    ensures Issue(f.file, 0, "fake_implementation", Critical, f.name) in r <==> !f.isEmpty && !f.hasTodo && f.isFake
    ensures r == [] <==> !f.isEmpty && !f.hasTodo && !f.isFake
  {
    if f.isEmpty then [Issue(f.file, 0, "empty_function", Critical, f.name)]
    else if f.hasTodo then [Issue(f.file, 0, "todo_marker", Major, f.name)]
    else if f.isFake then [Issue(f.file, 0, "fake_implementation", Critical, f.name)]
    else []
  }

  /** The view-model checks of `check_function_issues`: each raised on its
      own, both only for functions that call an API. */
  function ViewModelIssues(f: FunctionInfo): (r: seq<Issue>)
    ensures forall i :: i in r ==> !IsChainIssue(i) && f.callsApi && Contains(f.file, "ViewModel")
    ensures Issue(f.file, 0, "missing_ui_update", Major, f.name) in r <==>
              Contains(f.file, "ViewModel") && f.callsApi && !f.updatesUi
    ensures Issue(f.file, 0, "missing_error_handling", Major, f.name) in r <==>
              Contains(f.file, "ViewModel") && f.callsApi && !f.handlesError
  {
    if !Contains(f.file, "ViewModel") then []
    else
      (if f.callsApi && !f.updatesUi then [Issue(f.file, 0, "missing_ui_update", Major, f.name)] else [])
      + (if f.callsApi && !f.handlesError then [Issue(f.file, 0, "missing_error_handling", Major, f.name)] else [])
  }

  /** `check_function_issues`: the chain issue, if any, first. */
  function FunctionIssues(f: FunctionInfo): (r: seq<Issue>)
    ensures forall i, j :: 0 <= i < j < |r| ==> !(IsChainIssue(r[i]) && IsChainIssue(r[j]))
    ensures forall i :: i in r ==> i.file == f.file && i.line == 0 && i.subject == f.name
  {
    ChainIssues(f) + ViewModelIssues(f)
  }

  /** The issues of the functions matched in one file, in match order. */
  function FunctionsIssues(fs: seq<FunctionInfo>): seq<Issue>
  {
    if |fs| == 0 then []
    else FunctionsIssues(fs[..|fs| - 1]) + FunctionIssues(fs[|fs| - 1])
  }

  /** The functions map after the matches of one file are stored in order. */
  function Record(m: map<string, FunctionInfo>, file: string, fs: seq<FunctionInfo>): map<string, FunctionInfo>
  {
    if |fs| == 0 then m
    else Record(m, file, fs[..|fs| - 1])[FunctionKey(file, fs[|fs| - 1].name) := fs[|fs| - 1]]
  }

  // ---------------------------------------------------------------
  // Navigation and file-wide checks
  // ---------------------------------------------------------------

  /** `[^"']`, the character class of a route argument. */
  predicate NotQuote(c: char) { !IsQuote(c) }

  /** `re.findall(r'<callee>\s*\(\s*["\']([^"\']+)["\']', content)`, for
      `navigate` (navigation targets) and `composable` (screen routes). */
  function RouteCalls(content: string, callee: string): seq<string>
  {
    QuotedCalls(content, 0, callee, NotQuote)
  }

  predicate HasLongDelay(content: string)
  {
    exists p: nat :: p <= |content| && DelayDigitsAt(content, p, 3)
  }

  /** `check_common_issues`: a long literal delay, a local address (when
      the text also has `://`; without it the check returns early and skips
      what follows) and `println(`. */
  function CommonIssues(file: string, content: string): (r: seq<Issue>)
    ensures |r| <= 3
    ensures Issue(file, 0, "hardcoded_delay", Minor, "") in r <==> HasLongDelay(content)
    ensures Issue(file, 0, "local_url", Critical, "") in r <==> HasLocalAddress(content) && Contains(content, "://")
    ensures Issue(file, 0, "debug_print", Minor, "") in r <==>
              Contains(content, "println(") && !(HasLocalAddress(content) && !Contains(content, "://"))
    ensures forall k :: 0 <= k < |r| ==> r[k].file == file && r[k].line == 0
  {
    var delay := if HasLongDelay(content) then [Issue(file, 0, "hardcoded_delay", Minor, "")] else [];
    var url := if HasLocalAddress(content) then [Issue(file, 0, "local_url", Critical, "")] else [];
    var debug := if Contains(content, "println(") then [Issue(file, 0, "debug_print", Minor, "")] else [];
    if HasLocalAddress(content) && !Contains(content, "://") then delay
    else delay + url + debug
  }

  /** Everything `analyze_file` adds to the issue list for one file. */
  function FileIssues(f: SourceFile): seq<Issue>
  {
    FunctionsIssues(Describes(f.path, FuncMatches(f.content, 0))) + CommonIssues(f.path, f.content)
  }

  function ScanIssues(files: seq<SourceFile>): seq<Issue>
  {
    if |files| == 0 then []
    else ScanIssues(files[..|files| - 1]) + FileIssues(files[|files| - 1])
  }

  function ScanFunctions(m: map<string, FunctionInfo>, files: seq<SourceFile>): map<string, FunctionInfo>
  {
    if |files| == 0 then m
    else
      var last := files[|files| - 1];
      Record(ScanFunctions(m, files[..|files| - 1]), last.path, Describes(last.path, FuncMatches(last.content, 0)))
  }

  /** The routes passed to `callee` anywhere in the files. */
  function ScanCalls(files: seq<SourceFile>, callee: string): set<string>
  {
    if |files| == 0 then {}
    else ScanCalls(files[..|files| - 1], callee) + Elems(RouteCalls(files[|files| - 1].content, callee))
  }

  /** One more file in the scan. */
  lemma ScanStep(m: map<string, FunctionInfo>, files: seq<SourceFile>, k: nat)
    requires k < |files|
    ensures ScanIssues(files[..k + 1]) == ScanIssues(files[..k]) + FileIssues(files[k])
    ensures ScanFunctions(m, files[..k + 1]) == Record(ScanFunctions(m, files[..k]), files[k].path, Describes(files[k].path, FuncMatches(files[k].content, 0)))
  {
    assert files[..k + 1][..k] == files[..k];
  }

  lemma ScanCallsStep(files: seq<SourceFile>, k: nat, callee: string)
    requires k < |files|
    ensures ScanCalls(files[..k + 1], callee) == ScanCalls(files[..k], callee) + Elems(RouteCalls(files[k].content, callee))
  {
    assert files[..k + 1][..k] == files[..k];
  }

  function MissingScreenIssue(route: string): Issue
  {
    Issue("Navigation", 0, "missing_screen", Blocker, route)
  }

  function MissingScreenIssues(order: seq<string>): (r: seq<Issue>)
    ensures |r| == |order|
    ensures forall i :: 0 <= i < |r| ==> r[i] == MissingScreenIssue(order[i])
  {
    if |order| == 0 then [] else MissingScreenIssues(order[..|order| - 1]) + [MissingScreenIssue(order[|order| - 1])]
  }

  lemma ScreenIssuesSnoc(order: seq<string>, r: string)
    ensures MissingScreenIssues(order + [r]) == MissingScreenIssues(order) + [MissingScreenIssue(r)]
  {
    assert (order + [r])[..|order|] == order;
  }

  // ---------------------------------------------------------------
  // Report
  // ---------------------------------------------------------------

  function LevelCount(issues: seq<Issue>, level: Level): (n: nat)
    ensures n <= |issues|
    ensures n == 0 <==> forall i :: i in issues ==> i.level != level
  {
    if |issues| == 0 then 0
    else LevelCount(issues[..|issues| - 1], level) + (if issues[|issues| - 1].level == level then 1 else 0)
  }

  datatype Report = Report(
    success: bool, functions: nat, screens: nat, navigations: nat,
    blocker: nat, critical: nat, major: nat, minor: nat, total: nat, details: seq<Issue>)

  // ---------------------------------------------------------------
  // The validator
  // ---------------------------------------------------------------

  class SmartValidator {
    var issues: seq<Issue>
    var functions: map<string, FunctionInfo>
    var screens: set<string>
    var navigations: set<string>

    constructor()
      ensures issues == [] && functions == map[] && screens == {} && navigations == {}
    {
      issues := [];
      functions := map[];
      screens := {};
      navigations := {};
    }

    method AddIssue(i: Issue)
      modifies this
      ensures issues == old(issues) + [i]
      ensures functions == old(functions) && screens == old(screens) && navigations == old(navigations)
    {
      issues := issues + [i];
    }

    /** `check_function_issues`. */
    method CheckFunctionIssues(f: FunctionInfo)
      modifies this
      ensures issues == old(issues) + FunctionIssues(f)
      ensures functions == old(functions) && screens == old(screens) && navigations == old(navigations)
    {
      if f.isEmpty {
        AddIssue(Issue(f.file, 0, "empty_function", Critical, f.name));
      } else if f.hasTodo {
        AddIssue(Issue(f.file, 0, "todo_marker", Major, f.name));
      } else if f.isFake {
        AddIssue(Issue(f.file, 0, "fake_implementation", Critical, f.name));
      }
      assert issues == old(issues) + ChainIssues(f);
      CheckViewModel(f);
      AppendAssoc(old(issues), ChainIssues(f), ViewModelIssues(f));
    }

    /** The view-model part of `check_function_issues`. */
    method CheckViewModel(f: FunctionInfo)
      modifies this
      ensures issues == old(issues) + ViewModelIssues(f)
      ensures functions == old(functions) && screens == old(screens) && navigations == old(navigations)
    {
      if Contains(f.file, "ViewModel") {
        if f.callsApi && !f.updatesUi {
          AddIssue(Issue(f.file, 0, "missing_ui_update", Major, f.name));
        }
        if f.callsApi && !f.handlesError {
          AddIssue(Issue(f.file, 0, "missing_error_handling", Major, f.name));
        }
      }
    }

    /** `extract_functions`: every match is stored under `file::name` and
        checked. */
    method ExtractFunctions(file: string, content: string)
      modifies this
      ensures functions == Record(old(functions), file, Describes(file, FuncMatches(content, 0)))
      ensures issues == old(issues) + FunctionsIssues(Describes(file, FuncMatches(content, 0)))
      ensures screens == old(screens) && navigations == old(navigations)
    {
      RecordFunctions(file, Describes(file, FuncMatches(content, 0)));
    }

    /** The loop over the matches, each already described. */
    method RecordFunctions(file: string, fs: seq<FunctionInfo>)
      modifies this
      ensures functions == Record(old(functions), file, fs)
      ensures issues == old(issues) + FunctionsIssues(fs)
      ensures screens == old(screens) && navigations == old(navigations)
    {
      var k := 0;
      while k < |fs|
        invariant 0 <= k <= |fs|
        invariant functions == Record(old(functions), file, fs[..k])
        invariant issues == old(issues) + FunctionsIssues(fs[..k])
        invariant screens == old(screens) && navigations == old(navigations)
      {
        assert fs[..k + 1][..k] == fs[..k];
        functions := functions[FunctionKey(file, fs[k].name) := fs[k]];
        CheckFunctionIssues(fs[k]);
        AppendAssoc(old(issues), FunctionsIssues(fs[..k]), FunctionIssues(fs[k]));
        k := k + 1;
      }
      assert fs[..|fs|] == fs;
    }

    /** `extract_navigation`: the navigation targets and composable routes
        of the file join the sets gathered so far. */
    method ExtractNavigation(file: string, content: string)
      modifies this
      ensures navigations == old(navigations) + Elems(RouteCalls(content, "navigate"))
      ensures screens == old(screens) + Elems(RouteCalls(content, "composable"))
      ensures issues == old(issues) && functions == old(functions)
    {
      navigations := navigations + Elems(RouteCalls(content, "navigate"));
      screens := screens + Elems(RouteCalls(content, "composable"));
    }

    /** `check_common_issues`, with its early return. */
    method CheckCommonIssues(file: string, content: string)
      modifies this
      ensures issues == old(issues) + CommonIssues(file, content)
      ensures functions == old(functions) && screens == old(screens) && navigations == old(navigations)
    {
      ghost var delay: seq<Issue> := if HasLongDelay(content) then [Issue(file, 0, "hardcoded_delay", Minor, "")] else [];
      ghost var url: seq<Issue> := if HasLocalAddress(content) then [Issue(file, 0, "local_url", Critical, "")] else [];
      ghost var debug: seq<Issue> := if Contains(content, "println(") then [Issue(file, 0, "debug_print", Minor, "")] else [];
      if HasLongDelay(content) {
        AddIssue(Issue(file, 0, "hardcoded_delay", Minor, ""));
      }
      assert issues == old(issues) + delay;
      if HasLocalAddress(content) {
        if !Contains(content, "://") {
          assert CommonIssues(file, content) == delay;
          return;
        }
        AddIssue(Issue(file, 0, "local_url", Critical, ""));
      }
      assert issues == old(issues) + delay + url;
      if Contains(content, "println(") {
        AddIssue(Issue(file, 0, "debug_print", Minor, ""));
      }
      assert issues == old(issues) + delay + url + debug;
      assert CommonIssues(file, content) == delay + url + debug;
      AppendAssoc(old(issues), delay, url);
      AppendAssoc(old(issues), delay + url, debug);
    }

    /** `analyze_file` on a file already read. */
    method AnalyzeFile(f: SourceFile)
      modifies this
      ensures functions == Record(old(functions), f.path, Describes(f.path, FuncMatches(f.content, 0)))
      ensures issues == old(issues) + FileIssues(f)
      ensures navigations == old(navigations) + Elems(RouteCalls(f.content, "navigate"))
      ensures screens == old(screens) + Elems(RouteCalls(f.content, "composable"))
    {
      ExtractFunctions(f.path, f.content);
      ExtractNavigation(f.path, f.content);
      CheckCommonIssues(f.path, f.content);
      AppendAssoc(old(issues), FunctionsIssues(Describes(f.path, FuncMatches(f.content, 0))), CommonIssues(f.path, f.content));
    }

    /** `scan_project` over the files it found, in order. */
    method ScanProject(files: seq<SourceFile>)
      modifies this
      ensures functions == ScanFunctions(old(functions), files)
      ensures issues == old(issues) + ScanIssues(files)
      ensures navigations == old(navigations) + ScanCalls(files, "navigate")
      ensures screens == old(screens) + ScanCalls(files, "composable")
    {
      var k := 0;
      while k < |files|
        invariant 0 <= k <= |files|
        invariant functions == ScanFunctions(old(functions), files[..k])
        invariant issues == old(issues) + ScanIssues(files[..k])
        invariant navigations == old(navigations) + ScanCalls(files[..k], "navigate")
        invariant screens == old(screens) + ScanCalls(files[..k], "composable")
      {
        ScanStep(old(functions), files, k);
        ScanCallsStep(files, k, "navigate");
        ScanCallsStep(files, k, "composable");
        ghost var navs := Elems(RouteCalls(files[k].content, "navigate"));
        ghost var defs := Elems(RouteCalls(files[k].content, "composable"));
        AnalyzeFile(files[k]);
        AppendAssoc(old(issues), ScanIssues(files[..k]), FileIssues(files[k]));
        UnionAssoc(old(navigations), ScanCalls(files[..k], "navigate"), navs);
        UnionAssoc(old(screens), ScanCalls(files[..k], "composable"), defs);
        k := k + 1;
      }
      assert files[..|files|] == files;
    }

    /** `check_navigation_completeness`: one BLOCKER per navigation target
        no composable defines, in the set's iteration order. */
    method CheckNavigationCompleteness() returns (ghost order: seq<string>)
      modifies this
      ensures Distinct(order)
      ensures forall r :: r in order <==> r in old(navigations) && r !in old(screens)
      ensures issues == old(issues) + MissingScreenIssues(order)
      ensures functions == old(functions) && screens == old(screens) && navigations == old(navigations)
    {
      var left := navigations - screens;
      order := [];
      ghost var reported: seq<Issue> := [];
      while left != {}
        invariant left <= old(navigations) - old(screens)
        invariant Distinct(order)
        invariant forall r :: r in order <==> r in old(navigations) && r !in old(screens) && r !in left
        invariant reported == MissingScreenIssues(order)
        invariant issues == old(issues) + reported
        invariant functions == old(functions) && screens == old(screens) && navigations == old(navigations)
        decreases |left|
      {
        var r :| r in left;
        AddIssue(MissingScreenIssue(r));
        DistinctSnoc(order, r);
        ScreenIssuesSnoc(order, r);
        left := left - {r};
        order := order + [r];
        reported := reported + [MissingScreenIssue(r)];
      }
    }

    /** `generate_report`: counts by level, the statistics, the verdict and
        the first 50 issues. */
    method GenerateReport() returns (r: Report)
      ensures r.success <==> forall i :: i in issues ==> i.level != Blocker && i.level != Critical
      ensures r.blocker + r.critical + r.major + r.minor == r.total == |issues|
      ensures r.blocker == LevelCount(issues, Blocker) && r.critical == LevelCount(issues, Critical)
      ensures r.major == LevelCount(issues, Major) && r.minor == LevelCount(issues, Minor)
      ensures r.functions == |functions| && r.screens == |screens| && r.navigations == |navigations|
      ensures |r.details| == (if |issues| < 50 then |issues| else 50) && r.details == issues[..|r.details|]
    {
      var blockers := LevelCount(issues, Blocker);
      var criticals := LevelCount(issues, Critical);
      LevelCountsSum(issues);
      r := Report(blockers + criticals == 0, |functions|, |screens|, |navigations|,
                  blockers, criticals, LevelCount(issues, Major), LevelCount(issues, Minor), |issues|,
                  Take(issues, 50));
    }
  }

  // ---------------------------------------------------------------
  // Properties
  // ---------------------------------------------------------------

  /** The four level counts add up to the number of issues. */
  lemma {:induction false} LevelCountsSum(issues: seq<Issue>)
    ensures LevelCount(issues, Blocker) + LevelCount(issues, Critical)
            + LevelCount(issues, Major) + LevelCount(issues, Minor) == |issues|
  {
    if |issues| > 0 {
      LevelCountsSum(issues[..|issues| - 1]);
    }
  }

  // The header pattern

  /** Every function's issues appear in the file's issue list. */
  lemma {:induction false} FunctionIssuesIncluded(fs: seq<FunctionInfo>, k: nat)
    requires k < |fs|
    decreases |fs|
    ensures forall i :: i in FunctionIssues(fs[k]) ==> i in FunctionsIssues(fs)
  {
    if k < |fs| - 1 {
      assert fs[..|fs| - 1][k] == fs[k];
      FunctionIssuesIncluded(fs[..|fs| - 1], k);
    }
  }

  /** Group 6 holds only `=` for a single-expression function, and `=` is
      an empty body: every such function is reported as an empty
      implementation. */
  lemma ExpressionFunctionsReportedEmpty(file: string, ms: seq<FuncMatch>, k: nat)
    requires k < |ms| && ms[k].body == "="
    ensures Issue(file, 0, "empty_function", Critical, ms[k].name) in FunctionsIssues(Describes(file, ms))
  {
    var fs := Describes(file, ms);
    FunctionIssuesIncluded(fs, k);
    var f := fs[k];
    assert f == Describe(file, ms[k]);
    assert f.isEmpty && f.name == ms[k].name && f.file == file;
    assert Issue(file, 0, "empty_function", Critical, f.name) in FunctionIssues(f);
  }

  lemma KeyInjective(file: string, a: string, b: string)
    requires a != b
    ensures FunctionKey(file, a) != FunctionKey(file, b)
  {
    assert FunctionKey(file, a)[|file| + 2..] == a;
    assert FunctionKey(file, b)[|file| + 2..] == b;
  }

  /** Storing the functions of a file keeps, for each name, the last
      function of that name. */
  lemma {:induction false} RecordLastWins(m: map<string, FunctionInfo>, file: string, fs: seq<FunctionInfo>, j: nat)
    requires j < |fs|
    requires forall k :: j < k < |fs| ==> fs[k].name != fs[j].name
    decreases |fs|
    ensures FunctionKey(file, fs[j].name) in Record(m, file, fs)
    ensures Record(m, file, fs)[FunctionKey(file, fs[j].name)] == fs[j]
  {
    var last := |fs| - 1;
    if j < last {
      assert fs[..last][j] == fs[j];
      RecordLastWins(m, file, fs[..last], j);
      KeyInjective(file, fs[last].name, fs[j].name);
    }
  }

  /** Storing adds exactly the keys `file::name` of the functions. */
  lemma {:induction false} RecordKeys(m: map<string, FunctionInfo>, file: string, fs: seq<FunctionInfo>)
    decreases |fs|
    ensures Record(m, file, fs).Keys == m.Keys + set f | f in fs :: FunctionKey(file, f.name)
  {
    if |fs| > 0 {
      var init := fs[..|fs| - 1];
      RecordKeys(m, file, init);
      assert forall f :: f in fs <==> f in init || f == fs[|fs| - 1];
    }
  }

  // Body classification

  // Without an opening `/*`, removing block comments changes nothing.
  lemma {:induction false} NoOpenerBlockText(s: string, count: nat)
    requires NoCommentOpener(s)
    decreases |s|
    ensures StripOneLineComments(s, count) == s
  {
    if |s| > 0 {
      assert !HasAt(s, 0, "/*") by {
        if 2 <= |s| { assert s[0..2][0] == s[0] && s[0..2][1] == s[1]; }
      }
      NoCommentOpenerSlice(s, 1, |s|);
      NoOpenerBlockText(s[1..], count);
      assert s == [s[0]] + s[1..];
    }
  }

  predicate IsBraceOrSpace(c: char)
  {
    c == '{' || c == '}' || IsSpace(c)
  }

  predicate BracesAndSpaceOnly(s: string)
  {
    forall i :: 0 <= i < |s| ==> IsBraceOrSpace(s[i])
  }

  lemma WithoutBracesMembers(s: string, x: char)
    ensures x in WithoutBraces(s) <==> x in s && x != '{' && x != '}'
  {
    RemoveCharMembers(s, '{', x);
    RemoveCharMembers(Replace(s, "{", ""), '}', x);
  }

  /** A slice holds only characters of the text, and all of those in its range. */
  lemma SliceMembers(s: string, a: nat, b: nat)
    requires a <= b <= |s|
    ensures forall x :: x in s[a..b] ==> x in s
    ensures forall i :: a <= i < b ==> s[i] in s[a..b]
  {
    forall x | x in s[a..b]
      ensures x in s
    {
      var k :| 0 <= k < b - a && s[a..b][k] == x;
      assert s[a + k] == x;
    }
    forall i | a <= i < b
      ensures s[i] in s[a..b]
    {
      assert s[a..b][i - a] == s[i];
    }
  }

  /** Stripping keeps every character that is not whitespace and adds none. */
  lemma StripMembers(s: string)
    ensures forall x :: x in Strip(s) ==> x in s
    ensures forall i :: 0 <= i < |s| && !IsSpace(s[i]) ==> s[i] in Strip(s)
  {
    var a: nat, b: nat :| a <= b <= |s| && Strip(s) == s[a..b]
      && (forall q :: 0 <= q < a ==> IsSpace(s[q]))
      && (forall q :: b <= q < |s| ==> IsSpace(s[q]));
    SliceMembers(s, a, b);
  }

  /** The last two tests of `is_empty_function` on the cleaned text accept
      exactly the texts made of braces and whitespace. */
  lemma CleanVerdict(clean: string)
    ensures (clean == "{}" || clean == "{ }" || Strip(WithoutBraces(clean)) == "") <==> BracesAndSpaceOnly(clean)
  {
    var w := WithoutBraces(clean);
    forall x
      ensures x in w <==> x in clean && x != '{' && x != '}'
    {
      WithoutBracesMembers(clean, x);
    }
    if BracesAndSpaceOnly(clean) {
      forall q | 0 <= q < |w|
        ensures IsSpace(w[q])
      {
        assert w[q] in clean;
      }
    } else {
      var i :| 0 <= i < |clean| && !IsBraceOrSpace(clean[i]);
      assert clean[i] in w;
      var q :| 0 <= q < |w| && w[q] == clean[i];
      assert !IsSpace(w[q]);
    }
  }

  /** Without a `/` there is no comment to remove: only whitespace is trimmed. */
  lemma NoSlashCleanBody(body: string)
    requires '/' !in body
    ensures CleanBody(body) == Strip(body)
  {
    assert forall i :: 0 <= i < |body| ==> body[i] != '/' by {
      forall i | 0 <= i < |body| ensures body[i] != '/' { assert body[i] in body; }
    }
    NoDoubleSlashLineText(body);
    NoOpenerBlockText(body, DotAllAsCount);
  }

  /** Trimming whitespace neither adds nor removes a character other than
      braces and whitespace. */
  lemma StripBracesAndSpace(s: string)
    ensures BracesAndSpaceOnly(Strip(s)) <==> BracesAndSpaceOnly(s)
  {
    var clean := Strip(s);
    StripMembers(s);
    if !BracesAndSpaceOnly(s) {
      var i :| 0 <= i < |s| && !IsBraceOrSpace(s[i]);
      assert s[i] in clean;
    } else {
      forall j | 0 <= j < |clean|
        ensures IsBraceOrSpace(clean[j])
      {
        assert clean[j] in s;
      }
    }
  }

  /** Without comments to strip, a body is empty exactly when it is made of
      braces and whitespace. */
  lemma EmptyIffBracesAndSpace(body: string)
    requires '/' !in body && body != "="
    ensures IsEmptyFunction(body) <==> BracesAndSpaceOnly(body)
  {
    NoSlashCleanBody(body);
    CleanVerdict(Strip(body));
    StripBracesAndSpace(body);
  }

  /** `{ return x }` is not empty. */
  lemma ReturnBodyIsNotEmpty()
    ensures !IsEmptyFunction("{ return x }")
  {
    var body := "{ return x }";
    assert body[2] == 'r';
    assert !BracesAndSpaceOnly(body);
    assert '/' !in body;
    EmptyIffBracesAndSpace(body);
  }

  /** A text that neither starts nor ends with whitespace strips to itself. */
  lemma StripUntrimmed(s: string)
    requires |s| > 0 && !IsSpace(s[0]) && !IsSpace(s[|s| - 1])
    ensures Strip(s) == s
  {
    var a: nat, b: nat :| a <= b <= |s| && Strip(s) == s[a..b]
      && (forall q :: 0 <= q < a ==> IsSpace(s[q]))
      && (forall q :: b <= q < |s| ==> IsSpace(s[q]));
    assert a == 0 && b == |s|;
  }

  // The body `{/*c*/}` with a comment text `c` free of `*`, `/` and line
  // breaks: the comment is removed and the body is empty.
  lemma OneLineCommentIgnored(c: string)
    requires '*' !in c && '/' !in c && '\n' !in c
    ensures IsEmptyFunction("{/*" + c + "*/}")
  {
    var s := "{/*" + c + "*/}";
    CommentBodyFacts(s, c);
    NoDoubleSlashLineText(s);
    OneLineCommentStripped(s, s[1..], c);
    StripUntrimmed("{}");
  }

  /** With a line break inside the comment the comment stays, and the body
      is not empty. */
  lemma MultiLineCommentKept(c: string)
    requires '*' !in c && '/' !in c && '\n' in c
    ensures !IsEmptyFunction("{/*" + c + "*/}")
  {
    var s := "{/*" + c + "*/}";
    CommentBodyFacts(s, c);
    NoDoubleSlashLineText(s);
    MultiLineCommentUnstripped(s, c);
    StripUntrimmed(s);
    assert !IsBraceOrSpace(s[1]);
    CleanTextNotEmpty(s);
  }

  /** A text that cleaning leaves unchanged and that holds a character
      other than braces and whitespace is not empty. */
  lemma CleanTextNotEmpty(s: string)
    requires |s| > 1 && !IsBraceOrSpace(s[1])
    requires StripOneLineComments(StripLineComments(s), DotAllAsCount) == s && Strip(s) == s
    ensures !IsEmptyFunction(s)
  {
    assert |s| != 0 && |s| != 1;
    assert CleanBody(s) == s;
    assert !BracesAndSpaceOnly(s);
    CleanVerdict(s);
  }

  // `{/*c*/}` loses its one-line comment.
  lemma OneLineCommentStripped(s: string, t: string, c: string)
    requires '*' !in c && '\n' !in c
    requires s == "{/*" + c + "*/}" && t == "/*" + c + "*/}"
    ensures StripOneLineComments(s, DotAllAsCount) == "{}"
  {
    CommentCloses(t, c);
    assert t[2..|c| + 2] == c;
    assert OneLineCommentAt(t, 0) == Some(|c| + 4);
    assert t[|c| + 4..] == "}";
    assert StripOneLineComments("}", DotAllAsCount - 1) == "}";
    assert StripOneLineComments(t, DotAllAsCount) == "}";
    assert OneLineCommentAt(s, 0).None? by {
      assert s[0] == '{' && s[0..2][0] == s[0];
    }
    assert s[1..] == t;
    assert StripOneLineComments(s, DotAllAsCount) == [s[0]] + StripOneLineComments(t, DotAllAsCount);
    assert [s[0]] + "}" == "{}";
  }

  // A line break in `c` keeps `{/*c*/}` as it is.
  lemma MultiLineCommentUnstripped(s: string, c: string)
    requires '*' !in c && '/' !in c && '\n' in c
    requires s == "{/*" + c + "*/}"
    ensures StripOneLineComments(s, DotAllAsCount) == s
  {
    var t := "/*" + c + "*/}";
    assert StripOneLineComments(t, DotAllAsCount) == t by {
      assert OneLineCommentAt(t, 0).None? by {
        CommentCloses(t, c);
        assert t[2..|c| + 2] == c;
      }
      CommentTailNoOpener(t, c);
      NoOpenerBlockText(t[1..], DotAllAsCount);
      assert t == [t[0]] + t[1..];
    }
    assert s[0] == '{' && s[1..] == t;
  }

  // After its first character, `/*c*/}` has no comment opener.
  lemma CommentTailNoOpener(t: string, c: string)
    requires '*' !in c && '/' !in c
    requires t == "/*" + c + "*/}"
    ensures NoCommentOpener(t[1..])
  {
    forall i | 0 < i < |t| - 1
      ensures !(t[1..][i - 1] == '/' && t[1..][i] == '*')
    {
      assert t[1..][i - 1] == t[i];
      if 2 <= i < |c| + 2 {
        assert t[i] == c[i - 2] && c[i - 2] in c;
      }
    }
  }

  // Where `/` and `*` stand in `{/*c*/}`, and that it has no `//`.
  lemma CommentBodyFacts(s: string, c: string)
    requires '*' !in c && '/' !in c
    requires s == "{/*" + c + "*/}"
    ensures |s| == |c| + 6 && s[0] == '{' && s[1] == '/' && s[2] == '*'
      && s[|c| + 3] == '*' && s[|c| + 4] == '/' && s[|s| - 1] == '}'
      && (forall i :: 3 <= i < |c| + 3 ==> s[i] == c[i - 3])
      && NoDoubleSlash(s)
  {
    forall i | 3 <= i < |c| + 3
      ensures s[i] == c[i - 3] && s[i] != '/' && s[i] != '*'
    {
      assert c[i - 3] in c;
    }
  }

  // In `/*c*/}`, the first `*/` after the opener closes right after `c`.
  lemma CommentCloses(t: string, c: string)
    requires '*' !in c
    requires t == "/*" + c + "*/}"
    ensures FindFrom(t, "*/", 2) == Some(|c| + 2)
  {
    assert |t| == |c| + 5 && t[|c| + 2] == '*' && t[|c| + 3] == '/';
    assert t[|c| + 2..|c| + 4] == "*/";
    forall q: nat | 2 <= q < |c| + 2
      ensures t[q] != '*'
    {
      assert t[q] == c[q - 2];
      assert c[q - 2] in c;
    }
    forall q: nat | 2 <= q < |c| + 2
      ensures !HasAt(t, q, "*/")
    {
      assert t[q..q + 2][0] == t[q];
    }
    FindFromFirst(t, "*/", 2, |c| + 2);
  }

  /** Upper-casing first makes the marker test blind to case. */
  lemma TodoMarkerIgnoresCase(body: string)
    ensures HasTodoMarker(Lower(body)) == HasTodoMarker(body)
  {
    UpperOfLower(body);
  }

  /** The `//\s*TODO` fake pattern never decides an issue: whenever it
      matches, the TODO marker test holds too, and it comes first. */
  lemma TodoCommentIsTodoMarker(file: string, m: FuncMatch, p: nat)
    requires p <= |m.body| && FakeAt(TodoComment, Lower(m.body), p)
    ensures HasTodoMarker(m.body)
    ensures Issue(file, 0, "fake_implementation", Critical, m.name) !in FunctionIssues(Describe(file, m))
  {
    TodoCommentHasMarker(m.body, p);
  }

  /** Where `//\s*todo` matches the lower-cased body, the upper-cased body holds `TODO`. */
  lemma TodoCommentHasMarker(body: string, p: nat)
    requires p <= |body| && FakeAt(TodoComment, Lower(body), p)
    ensures HasTodoMarker(body)
  {
    var t := Lower(body);
    var a := SkipSpace(t, p + 2);
    UpperOfLower(body);
    TodoUpper(t, a);
    ContainsIffOccurs(Upper(body), "TODO");
  }

  /** Upper-casing turns `todo` into `TODO` in place. */
  lemma TodoUpper(t: string, a: nat)
    requires HasAt(t, a, "todo")
    ensures HasAt(Upper(t), a, "TODO")
  {
    var u := Upper(t);
    forall k | 0 <= k < 4
      ensures u[a + k] == "TODO"[k]
    {
      assert t[a..a + 4][k] == "todo"[k];
    }
    assert u[a..a + 4] == "TODO";
  }

  // Navigation

  /** A route is gathered exactly when some file passes it to `callee`. */
  lemma ScanCallsMembers(files: seq<SourceFile>, callee: string, x: string)
    ensures x in ScanCalls(files, callee) <==> exists k :: 0 <= k < |files| && CalledIn(files[k], callee, x)
  {
    if x in ScanCalls(files, callee) {
      var k := ScanCallsSound(files, callee, x);
    }
    if exists k :: 0 <= k < |files| && CalledIn(files[k], callee, x) {
      var k :| 0 <= k < |files| && CalledIn(files[k], callee, x);
      ScanCallsComplete(files, callee, x, k);
    }
  }

  lemma {:induction false} ScanCallsSound(files: seq<SourceFile>, callee: string, x: string) returns (k: nat)
    requires x in ScanCalls(files, callee)
    ensures k < |files| && CalledIn(files[k], callee, x)
  {
    var init := files[..|files| - 1];
    if x in ScanCalls(init, callee) {
      k := ScanCallsSound(init, callee, x);
      assert files[k] == init[k];
    } else {
      k := |files| - 1;
    }
  }

  lemma {:induction false} ScanCallsComplete(files: seq<SourceFile>, callee: string, x: string, k: nat)
    requires k < |files| && CalledIn(files[k], callee, x)
    ensures x in ScanCalls(files, callee)
  {
    var init := files[..|files| - 1];
    if k < |files| - 1 {
      assert init[k] == files[k];
      ScanCallsComplete(init, callee, x, k);
    }
  }

  /** `x` is passed to `callee` somewhere in the file. */
  predicate CalledIn(f: SourceFile, callee: string, x: string)
  {
    x in RouteCalls(f.content, callee)
  }

  /** Each missing route is reported exactly once, and nothing else is. */
  lemma {:induction false} MissingScreenOnce(order: seq<string>, route: string)
    requires Distinct(order)
    ensures multiset(MissingScreenIssues(order))[MissingScreenIssue(route)] == if route in order then 1 else 0
  {
    if |order| > 0 {
      var init := order[..|order| - 1];
      var last := order[|order| - 1];
      MissingScreenOnce(init, route);
      assert order == init + [last];
      assert MissingScreenIssues(order) == MissingScreenIssues(init) + [MissingScreenIssue(last)];
      if route == last {
        assert route !in init;
      }
    }
  }
}
