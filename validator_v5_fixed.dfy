/** The repaired version 5 validator: a line-by-line scan of every Kotlin
    file under `app/src/main` for empty one-line functions, task markers in
    line comments, long hard-coded delays and `NotImplementedError`, then
    a report that fails on any BLOCKER or CRITICAL issue. */
module ValidatorV5Fixed {
  import opened Text
  import opened Seqs

  datatype Level = Blocker | Critical | Major | Minor

  /** What an issue reports; the message and fix texts are left out. */
  datatype IssueType =
    | EmptyFunction(name: string)
    | TodoMarker
    | HardcodedDelay(millis: nat)
    | NotImplemented

  datatype Issue = Issue(file: string, line: nat, issueType: IssueType, level: Level, evidence: string)

  /** A file the walk finds: its path and its text, or `None` when reading
      it fails (the script prints the error and goes on). */
  datatype SourceFile = SourceFile(path: string, content: Option<string>)

  datatype Report = Report(
    success: bool,
    filesAnalyzed: nat,
    functionsFound: nat,
    totalIssues: nat,
    criticalIssues: nat,
    issues: seq<Issue>)

  /** What the per-line rules need to know about the file. */
  datatype FileFlags = FileFlags(path: string, checkBodies: bool, isTest: bool)

  // ---------------------------------------------------------------
  // The line patterns
  // ---------------------------------------------------------------

  /** `\bfun\s+\w+\s*\(` at `p`. The spaces are followed by a word
      character and the name by a space or `(`, so no shorter repetition
      could match instead. */
  predicate FunHeaderAt(line: string, p: nat)
    requires p <= |line|
  {
    (p == 0 || !IsWordChar(line[p - 1])) && HasAt(line, p, "fun") &&
    p + 3 < |line| && IsSpace(line[p + 3]) &&
    var b := SkipSpace(line, p + 3);
    var c := WordEnd(line, b);
    c > b &&
    var d := SkipSpace(line, c);
    d < |line| && line[d] == '('
  }

  predicate HasFunHeader(line: string)
  {
    exists p :: 0 <= p <= |line| && FunHeaderAt(line, p)
  }

  /** `fun\s+(\w+)` attempted at `p`: the captured name. The space run is
      greedy, and giving back a space leaves a space where `\w` must be. */
  function FunNameAt(line: string, p: nat): (r: Option<string>)
    requires p <= |line|
    ensures r.Some? ==> |r.value| > 0
  {
    if HasAt(line, p, "fun") && p + 3 < |line| && IsSpace(line[p + 3])
       && WordEnd(line, SkipSpace(line, p + 3)) > SkipSpace(line, p + 3) then
      Some(line[SkipSpace(line, p + 3)..WordEnd(line, SkipSpace(line, p + 3))])
    else None
  }

  /** `re.search(r'fun\s+(\w+)', line)` from `p`: the first name found. */
  function FunNameFrom(line: string, p: nat): (r: Option<string>)
    requires p <= |line|
    decreases |line| - p
    ensures r.Some? ==> |r.value| > 0
  {
    if p == |line| then None
    else if FunNameAt(line, p).Some? then FunNameAt(line, p)
    else FunNameFrom(line, p + 1)
  }

  /** The search finds nothing exactly when no position matches ... */
  lemma {:induction false} FunNameFromNone(line: string, p: nat)
    requires p <= |line|
    decreases |line| - p
    ensures FunNameFrom(line, p).None? <==> forall q :: p <= q < |line| ==> FunNameAt(line, q).None?
  {
    if p < |line| && FunNameAt(line, p).None? {
      FunNameFromNone(line, p + 1);
    }
  }

  /** ... and otherwise returns the name of the leftmost match. */
  lemma {:induction false} FunNameFromLeftmost(line: string, p: nat) returns (q: nat)
    requires p <= |line| && FunNameFrom(line, p).Some?
    decreases |line| - p
    ensures p <= q < |line| && FunNameAt(line, q) == FunNameFrom(line, p)
    ensures forall q' :: p <= q' < q ==> FunNameAt(line, q').None?
  {
    var here := FunNameAt(line, p);
    if here.None? {
      assert FunNameFrom(line, p) == FunNameFrom(line, p + 1);
      q := FunNameFromLeftmost(line, p + 1);
      forall q' | p <= q' < q
        ensures FunNameAt(line, q').None?
      {
        if q' == p {
          assert FunNameAt(line, q') == here;
        }
      }
    } else {
      q := p;
    }
  }

  /** `line.count('{') == line.count('}') and line.strip().endswith('{}')`. */
  predicate OneLineEmptyBody(line: string)
  {
    CountChar(line, '{') == CountChar(line, '}') && EndsWith(Strip(line), "{}")
  }

  /** The functions that may be empty: lifecycle and text-watcher hooks
      anywhere, set-up and tear-down only in test paths. */
  predicate IsExpectedEmpty(name: string, path: string)
  {
    name == "onCleared" || name == "onCreate" || name == "onDestroy"
    || name == "beforeTextChanged" || name == "onTextChanged"
    || (Contains(path, "/test/") && (name == "setUp" || name == "tearDown"))
  }

  predicate IsTaskWord(u: string, q: nat)
  {
    HasAt(u, q, "TODO") || HasAt(u, q, "FIXME") || HasAt(u, q, "XXX") || HasAt(u, q, "HACK")
  }

  /** `//\s*(TODO|FIXME|XXX|HACK)` at `p`, ignoring case. */
  predicate TaskCommentAt(line: string, p: nat)
    requires p <= |line|
  {
    HasAt(line, p, "//") && IsTaskWord(Upper(line), SkipSpace(line, p + 2))
  }

  predicate HasTaskComment(line: string)
  {
    exists p :: 0 <= p <= |line| && TaskCommentAt(line, p)
  }

  /** `delay\s*\(\s*(\d+)\s*\)` at `p`: the literal's value. */
  function DelayAt(line: string, p: nat): Option<nat>
    requires p <= |line|
  {
    if !HasAt(line, p, "delay") then None
    else
      var a := SkipSpace(line, p + 5);
      if a == |line| || line[a] != '(' then None
      else
        var b := SkipSpace(line, a + 1);
        var c := DigitEnd(line, b);
        var d := SkipSpace(line, c);
        if c == b || d == |line| || line[d] != ')' then None
        else Some(DecimalValue(line[b..c]))
  }

  /** `re.search` of the delay pattern from `p`: the first literal found. */
  function FirstDelay(line: string, p: nat): Option<nat>
    requires p <= |line|
    decreases |line| - p
  {
    if p == |line| then None
    else if DelayAt(line, p).Some? then DelayAt(line, p)
    else FirstDelay(line, p + 1)
  }

  /** The search finds nothing exactly when no position matches ... */
  lemma {:induction false} FirstDelayNone(line: string, p: nat)
    requires p <= |line|
    decreases |line| - p
    ensures FirstDelay(line, p).None? <==> forall q :: p <= q < |line| ==> DelayAt(line, q).None?
  {
    if p < |line| && DelayAt(line, p).None? {
      FirstDelayNone(line, p + 1);
    }
  }

  /** ... and otherwise returns the literal of the leftmost match. */
  lemma {:induction false} FirstDelayLeftmost(line: string, p: nat) returns (q: nat)
    requires p <= |line| && FirstDelay(line, p).Some?
    decreases |line| - p
    ensures p <= q < |line| && DelayAt(line, q) == FirstDelay(line, p)
    ensures forall q' :: p <= q' < q ==> DelayAt(line, q').None?
  {
    var here := DelayAt(line, p);
    if here.None? {
      assert FirstDelay(line, p) == FirstDelay(line, p + 1);
      q := FirstDelayLeftmost(line, p + 1);
      forall q' | p <= q' < q
        ensures DelayAt(line, q').None?
      {
        if q' == p {
          assert DelayAt(line, q') == here;
        }
      }
    } else {
      q := p;
    }
  }

  // ---------------------------------------------------------------
  // The per-line rules
  // ---------------------------------------------------------------

  /** What the rules find on one line. */
  datatype LineFacts = LineFacts(
    header: bool,
    emptyName: Option<string>,
    taskComment: bool,
    longDelay: Option<nat>,
    notImplemented: bool)

  /** The empty-function rule: on a header line of a file that is neither
      an interface nor abstract, a line holding `{` whose braces balance
      and that ends with `{}`, the name `fun\s+(\w+)` finds, unless exempt. */
  function EmptyCandidate(ff: FileFlags, line: string): Option<string>
  {
    if HasFunHeader(line) && ff.checkBodies && Contains(line, "{") && OneLineEmptyBody(line) then
      match FunNameFrom(line, 0)
      case Some(name) => if IsExpectedEmpty(name, ff.path) then None else Some(name)
      case None => None
    else None
  }

  /** The delay rule: outside test paths, on a line holding `delay(`, the
      first delay literal when it is at least 1000. */
  function LongDelay(ff: FileFlags, line: string): Option<nat>
  {
    if Contains(line, "delay(") && !ff.isTest then
      match FirstDelay(line, 0)
      case Some(v) => if v >= 1000 then Some(v) else None
      case None => None
    else None
  }

  function FactsOf(ff: FileFlags, line: string): LineFacts
  {
    LineFacts(HasFunHeader(line), EmptyCandidate(ff, line), HasTaskComment(line),
              LongDelay(ff, line), Contains(line, "NotImplementedError"))
  }

  /** The issues the facts of line `i` (counted from 0) give, in the order
      the rules run: empty function, task marker, delay, not implemented. */
  function IssuesOf(path: string, i: nat, evidence: string, f: LineFacts): (r: seq<Issue>)
    ensures |r| <= 4
  {
    (if f.emptyName.Some? then [Issue(path, i + 1, EmptyFunction(f.emptyName.value), Critical, evidence)] else [])
    + (if f.taskComment then [Issue(path, i + 1, TodoMarker, Major, evidence)] else [])
    + (if f.longDelay.Some? then [Issue(path, i + 1, HardcodedDelay(f.longDelay.value), Minor, evidence)] else [])
    + (if f.notImplemented then [Issue(path, i + 1, NotImplemented, Critical, evidence)] else [])
  }

  function LineIssues(ff: FileFlags, i: nat, line: string): seq<Issue>
  {
    IssuesOf(ff.path, i, Strip(line), FactsOf(ff, line))
  }

  /** Every issue of a line carries the file, the line's number and its
      text; each rule contributes at most one, with its fixed severity. */
  lemma IssuesOfAt(path: string, i: nat, evidence: string, f: LineFacts, x: Issue)
    requires x in IssuesOf(path, i, evidence, f)
    ensures x.file == path && x.line == i + 1 && x.evidence == evidence
    ensures x.issueType.EmptyFunction? <==> f.emptyName.Some? && x == Issue(path, i + 1, EmptyFunction(f.emptyName.value), Critical, evidence)
    ensures x.issueType == TodoMarker ==> f.taskComment && x.level == Major
    ensures x.issueType.HardcodedDelay? ==> f.longDelay == Some(x.issueType.millis) && x.level == Minor
    ensures x.issueType == NotImplemented ==> f.notImplemented && x.level == Critical
  {
  }

  /** An empty-function issue arises exactly on a checked header line
      whose braces balance and which ends with `{}`, for a name not exempt. */
  lemma EmptyCandidateIff(ff: FileFlags, line: string)
    ensures EmptyCandidate(ff, line).Some? <==>
      ff.checkBodies && HasFunHeader(line) && OneLineEmptyBody(line) &&
      FunNameFrom(line, 0).Some? && !IsExpectedEmpty(FunNameFrom(line, 0).value, ff.path)
  {
    if OneLineEmptyBody(line) {
      var s := Strip(line);
      assert s[|s| - 2..][0] == '{';
      StripContains(line, |s| - 2);
      ContainsChar(line, '{');
    }
  }

  /** A character of the stripped text is a character of the text. */
  lemma StripContains(line: string, k: nat)
    requires k < |Strip(line)|
    ensures Strip(line)[k] in line
  {
    var a: nat, b: nat :| a <= b <= |line| && Strip(line) == line[a..b];
    assert Strip(line)[k] == line[a + k];
  }

  lemma ContainsChar(s: string, c: char)
    requires c in s
    ensures Contains(s, [c])
  {
    var k :| 0 <= k < |s| && s[k] == c;
    HasAtChar(s, k, c);
    ContainsIffOccurs(s, [c]);
  }

  /** The delay rule fires only outside test paths, on a line holding
      `delay(`, and it reports the literal of the leftmost delay call,
      which is at least 1000 ... */
  lemma LongDelayLeftmost(ff: FileFlags, line: string) returns (p: nat)
    requires LongDelay(ff, line).Some?
    ensures !ff.isTest && Contains(line, "delay(")
    ensures p < |line| && DelayAt(line, p) == LongDelay(ff, line) && LongDelay(ff, line).value >= 1000
    ensures forall q :: 0 <= q < p ==> DelayAt(line, q).None?
  {
    p := FirstDelayLeftmost(line, 0);
  }

  /** ... and conversely, outside test paths on a line holding `delay(`,
      a leftmost delay call of at least 1000 is what it reports. */
  lemma LongDelayOfLeftmost(ff: FileFlags, line: string, p: nat)
    requires !ff.isTest && Contains(line, "delay(")
    requires p < |line| && DelayAt(line, p).Some? && DelayAt(line, p).value >= 1000
    requires forall q :: 0 <= q < p ==> DelayAt(line, q).None?
    ensures LongDelay(ff, line) == DelayAt(line, p)
  {
    FirstDelayNone(line, 0);
    var w := FirstDelayLeftmost(line, 0);
    assert w == p;
  }

  /** A delay literal of four or more digits that does not start with `0`
      is at least a thousand ... */
  lemma DelayAtLong(line: string, p: nat)
    requires p <= |line| && DelayAt(line, p).Some?
    requires var b := SkipSpace(line, SkipSpace(line, p + 5) + 1);
             DigitEnd(line, b) >= b + 4 && line[b] != '0'
    ensures DelayAt(line, p).value >= 1000
  {
    var b := SkipSpace(line, SkipSpace(line, p + 5) + 1);
    var digits := line[b..DigitEnd(line, b)];
    forall k | 0 <= k < |digits|
      ensures IsDigit(digits[k])
    {
      assert digits[k] == line[b + k];
    }
    DecimalValueLong(digits);
  }

  /** ... so, when it is the first on the line, it is always reported
      outside test paths. */
  lemma LongDelayReported(ff: FileFlags, line: string, p: nat)
    requires !ff.isTest && Contains(line, "delay(")
    requires p < |line| && DelayAt(line, p).Some?
    requires forall q :: 0 <= q < p ==> DelayAt(line, q).None?
    requires var b := SkipSpace(line, SkipSpace(line, p + 5) + 1);
             DigitEnd(line, b) >= b + 4 && line[b] != '0'
    ensures LongDelay(ff, line) == DelayAt(line, p)
  {
    DelayAtLong(line, p);
    LongDelayOfLeftmost(ff, line, p);
  }

  /** Lower-casing a line changes neither `//` nor the spaces. */
  lemma LowerKeepsLayout(line: string, p: nat)
    requires p <= |line|
    ensures HasAt(Lower(line), p, "//") <==> HasAt(line, p, "//")
    ensures p + 2 <= |line| ==> SkipSpace(Lower(line), p + 2) == SkipSpace(line, p + 2)
  {
    if p + 2 <= |line| {
      assert Lower(line)[p..p + 2][0] == LowerChar(line[p]) && Lower(line)[p..p + 2][1] == LowerChar(line[p + 1]);
      assert line[p..p + 2][0] == line[p] && line[p..p + 2][1] == line[p + 1];
      SkipSpaceLower(line, p + 2);
    }
  }

  lemma SkipSpaceLower(line: string, q: nat)
    requires q <= |line|
    ensures SkipSpace(Lower(line), q) == SkipSpace(line, q)
  {
    forall k | 0 <= k < |line|
      ensures IsSpace(Lower(line)[k]) <==> IsSpace(line[k])
    {
    }
  }

  /** The task-marker test ignores case: a line and its lower-cased copy
      are flagged alike. */
  lemma TaskCommentIgnoresCase(line: string)
    ensures HasTaskComment(Lower(line)) <==> HasTaskComment(line)
  {
    UpperOfLower(line);
    if HasTaskComment(line) {
      var p :| 0 <= p <= |line| && TaskCommentAt(line, p);
      LowerKeepsLayout(line, p);
      assert TaskCommentAt(Lower(line), p);
    }
    if HasTaskComment(Lower(line)) {
      var p :| 0 <= p <= |Lower(line)| && TaskCommentAt(Lower(line), p);
      LowerKeepsLayout(line, p);
      assert TaskCommentAt(line, p);
    }
  }

  // ---------------------------------------------------------------
  // Files
  // ---------------------------------------------------------------

  /** `'interface ' in content and 'class' not in lines[0]`. */
  predicate IsInterfaceFile(content: string)
  {
    Contains(content, "interface ") && !Contains(Split(content, '\n')[0], "class")
  }

  predicate IsAbstractFile(content: string)
  {
    Contains(content, "abstract class")
  }

  function FlagsOf(path: string, content: string): FileFlags
  {
    FileFlags(path, !IsInterfaceFile(content) && !IsAbstractFile(content), Contains(path, "/test/"))
  }

  /** The issues of each line, in line order. */
  function PerLine(ff: FileFlags, lines: seq<string>): (r: seq<seq<Issue>>)
    ensures |r| == |lines|
  {
    if |lines| == 0 then []
    else PerLine(ff, lines[..|lines| - 1]) + [LineIssues(ff, |lines| - 1, lines[|lines| - 1])]
  }

  lemma {:induction false} PerLineAt(ff: FileFlags, lines: seq<string>, i: nat)
    requires i < |lines|
    ensures PerLine(ff, lines)[i] == LineIssues(ff, i, lines[i])
  {
    var init := lines[..|lines| - 1];
    if i < |lines| - 1 {
      PerLineAt(ff, init, i);
      assert init[i] == lines[i];
    }
  }

  /** How many of the first `n` lines hold a function header. */
  function HeaderCount(lines: seq<string>, n: nat): (c: nat)
    requires n <= |lines|
    ensures c <= n
  {
    if n == 0 then 0 else HeaderCount(lines, n - 1) + (if HasFunHeader(lines[n - 1]) then 1 else 0)
  }

  /** What `analyze_file` appends for one file. */
  function FileIssues(f: SourceFile): seq<Issue>
  {
    match f.content
    case None => []
    case Some(content) =>
      Concat(PerLine(FlagsOf(f.path, content), Split(content, '\n')))
  }

  /** How much `analyze_file` adds to `functions_found` for one file. */
  function FileFunctions(f: SourceFile): nat
  {
    match f.content
    case None => 0
    case Some(content) => HeaderCount(Split(content, '\n'), |Split(content, '\n')|)
  }

  /** An issue of a file comes from one of its lines, and carries that
      line's number and the file's path. */
  lemma LinesIssuesSound(ff: FileFlags, lines: seq<string>, x: Issue) returns (i: nat)
    requires x in Concat(PerLine(ff, lines))
    ensures i < |lines| && x in LineIssues(ff, i, lines[i])
    ensures x.line == i + 1 && x.file == ff.path
  {
    i := ConcatSound(PerLine(ff, lines), x);
    PerLineAt(ff, lines, i);
    IssuesOfAt(ff.path, i, Strip(lines[i]), FactsOf(ff, lines[i]), x);
  }

  /** Every issue of every line is reported. */
  lemma LinesIssuesComplete(ff: FileFlags, lines: seq<string>, i: nat, x: Issue)
    requires i < |lines| && x in LineIssues(ff, i, lines[i])
    ensures x in Concat(PerLine(ff, lines))
  {
    PerLineAt(ff, lines, i);
    ConcatComplete(PerLine(ff, lines), i, x);
  }

  /** Interface and abstract files never get empty-function issues. */
  lemma NoEmptyIssuesInAbstractions(ff: FileFlags, lines: seq<string>, x: Issue)
    requires !ff.checkBodies && x in Concat(PerLine(ff, lines))
    ensures !x.issueType.EmptyFunction?
  {
    var i := ConcatSound(PerLine(ff, lines), x);
    PerLineAt(ff, lines, i);
    IssuesOfAt(ff.path, i, Strip(lines[i]), FactsOf(ff, lines[i]), x);
  }

  /** The Kotlin files of the walk, in walk order. */
  predicate IsKotlin(f: SourceFile)
  {
    EndsWith(f.path, ".kt")
  }

  function ScanIssues(files: seq<SourceFile>): seq<Issue>
  {
    if |files| == 0 then [] else ScanIssues(files[..|files| - 1]) + FileIssues(files[|files| - 1])
  }

  function ScanFunctions(files: seq<SourceFile>): nat
  {
    if |files| == 0 then 0 else ScanFunctions(files[..|files| - 1]) + FileFunctions(files[|files| - 1])
  }

  /** Scanning one more file appends what that file gives. */
  lemma ScanStep(files: seq<SourceFile>, k: nat)
    requires k < |files|
    ensures ScanIssues(files[..k + 1]) == ScanIssues(files[..k]) + FileIssues(files[k])
    ensures ScanFunctions(files[..k + 1]) == ScanFunctions(files[..k]) + FileFunctions(files[k])
  {
    assert files[..k + 1][..k] == files[..k];
  }

  // ---------------------------------------------------------------
  // Report
  // ---------------------------------------------------------------

  predicate IsSevere(i: Issue)
  {
    i.level == Blocker || i.level == Critical
  }

  function ReportOf(issues: seq<Issue>, filesAnalyzed: nat, functionsFound: nat): (r: Report)
    ensures r.criticalIssues <= r.totalIssues == |issues|
    ensures r.issues == issues
  {
    var severe := Count(issues, IsSevere);
    Report(severe == 0, filesAnalyzed, functionsFound, |issues|, severe, issues)
  }

  /** The run succeeds exactly when no issue is BLOCKER or CRITICAL. */
  lemma {:induction false} SuccessIff(issues: seq<Issue>, files: nat, functions: nat)
    decreases |issues|
    ensures ReportOf(issues, files, functions).success <==>
      forall k :: 0 <= k < |issues| ==> issues[k].level != Blocker && issues[k].level != Critical
  {
    if |issues| > 0 {
      SuccessIff(issues[1..], files, functions);
      assert forall k :: 1 <= k < |issues| ==> issues[k] == issues[1..][k - 1];
    }
  }

  // ---------------------------------------------------------------
  // The loops
  // ---------------------------------------------------------------

  /** The empty-function check of one line. */
  method CheckEmptyBody(ff: FileFlags, line: string) returns (emptyName: Option<string>)
    ensures emptyName == EmptyCandidate(ff, line)
  {
    emptyName := None;
    if HasFunHeader(line) && ff.checkBodies && Contains(line, "{") && OneLineEmptyBody(line) {
      var name := FunNameFrom(line, 0);
      if name.Some? && !IsExpectedEmpty(name.value, ff.path) {
        emptyName := name;
      }
    }
  }

  /** The delay check of one line. */
  method CheckDelay(ff: FileFlags, line: string) returns (delay: Option<nat>)
    ensures delay == LongDelay(ff, line)
  {
    delay := None;
    if Contains(line, "delay(") && !ff.isTest {
      var value := FirstDelay(line, 0);
      if value.Some? && value.value >= 1000 {
        delay := value;
      }
    }
  }

  /** The checks on one line, and whether it counts as a function. */
  method ScanLine(ff: FileFlags, lines: seq<string>, i: nat) returns (found: seq<Issue>, isHeader: bool)
    requires i < |lines|
    ensures found == PerLine(ff, lines)[i]
    ensures HeaderCount(lines, i + 1) == HeaderCount(lines, i) + (if isHeader then 1 else 0)
  {
    var line := lines[i];
    isHeader := HasFunHeader(line);
    var emptyName := CheckEmptyBody(ff, line);
    var delay := CheckDelay(ff, line);
    var facts := LineFacts(isHeader, emptyName, HasTaskComment(line), delay, Contains(line, "NotImplementedError"));
    found := IssuesOf(ff.path, i, Strip(line), facts);
    PerLineAt(ff, lines, i);
  }

  /** The per-line loop of `analyze_file`. */
  method ScanLines(ff: FileFlags, lines: seq<string>) returns (found: seq<Issue>, headers: nat)
    ensures found == Concat(PerLine(ff, lines)) && headers == HeaderCount(lines, |lines|)
  {
    found, headers := [], 0;
    var i := 0;
    while i < |lines|
      invariant 0 <= i <= |lines|
      invariant found == Concat(PerLine(ff, lines)[..i]) && headers == HeaderCount(lines, i)
    {
      var lineIssues, isHeader := ScanLine(ff, lines, i);
      ConcatPrefixSnoc(PerLine(ff, lines), i);
      found := found + lineIssues;
      headers := headers + if isHeader then 1 else 0;
      i := i + 1;
    }
    assert PerLine(ff, lines)[..|lines|] == PerLine(ff, lines);
  }

  class ValidatorV5Fixed {
    var issues: seq<Issue>
    var filesAnalyzed: nat
    var functionsFound: nat

    constructor ()
      ensures issues == [] && filesAnalyzed == 0 && functionsFound == 0
    {
      issues, filesAnalyzed, functionsFound := [], 0, 0;
    }

    /** `analyze_file`: the line rules, and one more function per header. */
    method AnalyzeFile(f: SourceFile)
      modifies this
      ensures issues == old(issues) + FileIssues(f)
      ensures functionsFound == old(functionsFound) + FileFunctions(f)
      ensures filesAnalyzed == old(filesAnalyzed)
    {
      match f.content {
        case None =>
        case Some(content) =>
          var lines := Split(content, '\n');
          var ff := FileFlags(f.path, !IsInterfaceFile(content) && !IsAbstractFile(content), Contains(f.path, "/test/"));
          var found, headers := ScanLines(ff, lines);
          issues := issues + found;
          functionsFound := functionsFound + headers;
      }
    }

    /** `scan_code` over the files the walk yields. */
    method ScanCode(files: seq<SourceFile>)
      modifies this
      ensures filesAnalyzed == |Filter(files, IsKotlin)|
      ensures issues == old(issues) + ScanIssues(Filter(files, IsKotlin))
      ensures functionsFound == old(functionsFound) + ScanFunctions(Filter(files, IsKotlin))
    {
      var kotlinFiles := Filter(files, IsKotlin);
      filesAnalyzed := |kotlinFiles|;
      var k := 0;
      while k < |kotlinFiles|
        invariant 0 <= k <= |kotlinFiles| && filesAnalyzed == |kotlinFiles|
        invariant issues == old(issues) + ScanIssues(kotlinFiles[..k])
        invariant functionsFound == old(functionsFound) + ScanFunctions(kotlinFiles[..k])
      {
        ScanStep(kotlinFiles, k);
        AppendAssoc(old(issues), ScanIssues(kotlinFiles[..k]), FileIssues(kotlinFiles[k]));
        AnalyzeFile(kotlinFiles[k]);
        k := k + 1;
      }
      assert kotlinFiles[..|kotlinFiles|] == kotlinFiles;
    }

    /** `generate_report`. */
    method GenerateReport() returns (report: Report)
      ensures report == ReportOf(issues, filesAnalyzed, functionsFound)
    {
      var critical := 0;
      var k := 0;
      while k < |issues|
        invariant 0 <= k <= |issues|
        invariant critical == Count(issues[..k], IsSevere)
      {
        CountSnoc(issues[..k], issues[k], IsSevere);
        assert issues[..k + 1] == issues[..k] + [issues[k]];
        if issues[k].level == Blocker || issues[k].level == Critical {
          critical := critical + 1;
        }
        k := k + 1;
      }
      assert issues[..|issues|] == issues;
      report := Report(critical == 0, filesAnalyzed, functionsFound, |issues|, critical, issues);
    }
  }
}
