/** The recursive validator: each round clears the issue list, scans every
    Kotlin file line by line against a table of patterns, runs semantic
    checks over navigation hosts, repositories, screens, API services and
    the Gradle build script, and ends the run when nothing CRITICAL or HIGH
    is left, when the automatic fixer gives up, or after `maxIterations`
    rounds. */
module RecursiveValidator {
  import opened Text
  import opened Seqs
  import opened KotlinPatterns
  import opened RecursivePatterns

  datatype Level = Critical | High | Medium | Low

  datatype IssueType =
    | PatternHit(pattern: Pattern)
    | MissingNavigationTarget
    | MissingPersistence
    | EmptyClickHandler
    | LocalApiUrl

  /** An issue; the description and suggested-fix texts are left out. */
  datatype Issue = Issue(filePath: string, lineNumber: nat, issueType: IssueType, level: Level, snippet: string)

  /** The severity the pattern table gives each entry. */
  function LevelOf(pat: Pattern): Level
  {
    match pat
    case MockData => High
    case DelaySimulation => High
    case LocalhostUrls => High
    case MissingErrorHandling => Medium
    case _ => Critical
  }

  // ---------------------------------------------------------------
  // find_files
  // ---------------------------------------------------------------

  /** A file of a directory: its name and its text, or `None` when opening
      or decoding it fails. */
  datatype FileEntry = FileEntry(name: string, content: Option<string>)

  /** A directory of the project tree in top-down walk order: its path, the
      names of the directories leading to it from the project root, and its
      files. */
  datatype DirVisit = DirVisit(root: string, names: seq<string>, files: seq<FileEntry>)

  datatype FoundFile = FoundFile(path: string, content: Option<string>)

  const DefaultExclude: seq<string> := ["build", ".gradle", ".git"]
  const SyntaxExclude: seq<string> := ["build", "test"]

  /** `os.path.join(root, name)` for a relative `name`. */
  function JoinPath(root: string, name: string): string
  {
    if root == "" || EndsWith(root, "/") then root + name else root + "/" + name
  }

  /** The walk reaches a directory iff no directory on the way to it, itself
      included, has an excluded name: pruning `dirs` drops whole subtrees. */
  predicate Reached(d: DirVisit, exclude: seq<string>)
  {
    forall k :: 0 <= k < |d.names| ==> d.names[k] !in exclude
  }

  predicate Included(d: DirVisit, within: string)
  {
    within == "" || Contains(d.root, within)
  }

  /** A name matches when it ends with the pattern with every `*` removed. */
  predicate NameMatches(name: string, pattern: string)
  {
    EndsWith(name, Replace(pattern, "*", ""))
  }

  function DirFiles(root: string, files: seq<FileEntry>, pattern: string): seq<FoundFile>
  {
    if |files| == 0 then []
    else
      var f := files[|files| - 1];
      DirFiles(root, files[..|files| - 1], pattern)
      + (if NameMatches(f.name, pattern) then [FoundFile(JoinPath(root, f.name), f.content)] else [])
  }

  function FilesOf(tree: seq<DirVisit>, pattern: string, within: string, exclude: seq<string>): seq<FoundFile>
  {
    if |tree| == 0 then []
    else
      var d := tree[|tree| - 1];
      FilesOf(tree[..|tree| - 1], pattern, within, exclude)
      + (if Reached(d, exclude) && Included(d, within) then DirFiles(d.root, d.files, pattern) else [])
  }

  lemma DirFilesStep(root: string, files: seq<FileEntry>, pattern: string, j: nat)
    requires j < |files|
    ensures DirFiles(root, files[..j + 1], pattern) == DirFiles(root, files[..j], pattern)
      + (if NameMatches(files[j].name, pattern) then [FoundFile(JoinPath(root, files[j].name), files[j].content)] else [])
  {
    assert files[..j + 1][..j] == files[..j];
  }

  lemma FilesOfStep(tree: seq<DirVisit>, pattern: string, within: string, exclude: seq<string>, k: nat)
    requires k < |tree|
    ensures FilesOf(tree[..k + 1], pattern, within, exclude) == FilesOf(tree[..k], pattern, within, exclude)
      + (if Reached(tree[k], exclude) && Included(tree[k], within) then DirFiles(tree[k].root, tree[k].files, pattern) else [])
  {
    assert tree[..k + 1][..k] == tree[..k];
  }

  lemma {:induction false} DirFilesSound(root: string, files: seq<FileEntry>, pattern: string, x: FoundFile) returns (j: nat)
    requires x in DirFiles(root, files, pattern)
    ensures j < |files| && NameMatches(files[j].name, pattern)
    ensures x == FoundFile(JoinPath(root, files[j].name), files[j].content)
  {
    var init := files[..|files| - 1];
    if x in DirFiles(root, init, pattern) {
      j := DirFilesSound(root, init, pattern, x);
      assert init[j] == files[j];
    } else {
      j := |files| - 1;
    }
  }

  lemma {:induction false} DirFilesComplete(root: string, files: seq<FileEntry>, pattern: string, j: nat)
    requires j < |files| && NameMatches(files[j].name, pattern)
    ensures FoundFile(JoinPath(root, files[j].name), files[j].content) in DirFiles(root, files, pattern)
  {
    var init := files[..|files| - 1];
    if j < |files| - 1 {
      assert init[j] == files[j];
      DirFilesComplete(root, init, pattern, j);
    }
  }

  /** Every file found sits in a reached, included directory, and its name
      matches. */
  lemma {:induction false} FilesOfSound(tree: seq<DirVisit>, pattern: string, within: string, exclude: seq<string>, x: FoundFile)
    returns (k: nat, j: nat)
    requires x in FilesOf(tree, pattern, within, exclude)
    ensures k < |tree| && Reached(tree[k], exclude) && Included(tree[k], within)
    ensures j < |tree[k].files| && NameMatches(tree[k].files[j].name, pattern)
    ensures x == FoundFile(JoinPath(tree[k].root, tree[k].files[j].name), tree[k].files[j].content)
  {
    var init := tree[..|tree| - 1];
    if x in FilesOf(init, pattern, within, exclude) {
      k, j := FilesOfSound(init, pattern, within, exclude, x);
      assert init[k] == tree[k];
    } else {
      k := |tree| - 1;
      j := DirFilesSound(tree[k].root, tree[k].files, pattern, x);
    }
  }

  /** Every matching file of a reached, included directory is found. */
  lemma {:induction false} FilesOfComplete(tree: seq<DirVisit>, pattern: string, within: string, exclude: seq<string>, k: nat, j: nat)
    requires k < |tree| && Reached(tree[k], exclude) && Included(tree[k], within)
    requires j < |tree[k].files| && NameMatches(tree[k].files[j].name, pattern)
    ensures FoundFile(JoinPath(tree[k].root, tree[k].files[j].name), tree[k].files[j].content)
      in FilesOf(tree, pattern, within, exclude)
  {
    var init := tree[..|tree| - 1];
    if k < |tree| - 1 {
      assert init[k] == tree[k];
      FilesOfComplete(init, pattern, within, exclude, k, j);
    } else {
      DirFilesComplete(tree[k].root, tree[k].files, pattern, j);
    }
  }

  /** The `*` are dropped, not matched: `*Repository*.kt` finds the names
      ending in `Repository.kt` and no others. */
  lemma RepositoryPatternIsSuffix(name: string)
    ensures NameMatches(name, "*Repository*.kt") <==> EndsWith(name, "Repository.kt")
  {
    var pat := "*Repository*.kt";
    assert StartsWith(pat, "*");
    assert pat[1..] == "Repository" + "*" + ".kt";
    ReplaceNoStar("Repository", ".kt");
  }

  /** Removing `*` from a starless word followed by `*` and a starless tail. */
  lemma {:induction false} ReplaceNoStar(word: string, tail: string)
    requires forall k :: 0 <= k < |word| ==> word[k] != '*'
    requires forall k :: 0 <= k < |tail| ==> tail[k] != '*'
    decreases |word|
    ensures Replace(word + "*" + tail, "*", "") == word + tail
  {
    if |word| == 0 {
      assert word + "*" + tail == "*" + tail;
      assert ("*" + tail)[1..] == tail;
      StarlessUnchanged(tail);
    } else {
      assert (word + "*" + tail)[1..] == word[1..] + "*" + tail;
      assert (word + "*" + tail)[0..1][0] == word[0];
      ReplaceNoStar(word[1..], tail);
      assert [word[0]] + (word[1..] + tail) == word + tail;
    }
  }

  lemma {:induction false} StarlessUnchanged(s: string)
    requires forall k :: 0 <= k < |s| ==> s[k] != '*'
    decreases |s|
    ensures Replace(s, "*", "") == s
  {
    if |s| > 0 {
      assert s[0..1][0] == s[0];
      StarlessUnchanged(s[1..]);
      assert [s[0]] + s[1..] == s;
    }
  }

  /** `*.kt` finds exactly the names ending in `.kt`. */
  lemma KotlinPatternIsSuffix(name: string)
    ensures NameMatches(name, "*.kt") <==> EndsWith(name, ".kt")
  {
    assert "*.kt" == "" + "*" + ".kt";
    ReplaceNoStar("", ".kt");
  }

  // ---------------------------------------------------------------
  // scan_file_patterns
  // ---------------------------------------------------------------

  /** A line the pattern matches is reported unless it is a mock-data hit in
      a file whose lower-cased path contains `test`, or a local-URL hit on a
      line that starts with `//` once stripped. The `exclude_if` words of the
      delay entry are never consulted. */
  predicate Reported(path: string, pat: Pattern, line: string)
  {
    Matches(pat, line)
    && !(Contains(Lower(path), "test") && pat == MockData)
    && !(pat == LocalhostUrls && StartsWith(Strip(line), "//"))
  }

  /** What line `i` (0-based) adds for one pattern. */
  function LineHit(path: string, pat: Pattern, i: nat, line: string): seq<Issue>
  {
    if Reported(path, pat, line) then [Issue(path, i + 1, PatternHit(pat), LevelOf(pat), Strip(line))] else []
  }

  /** The hits of one pattern, line by line. */
  function LineHits(path: string, pat: Pattern, lines: seq<string>): (r: seq<seq<Issue>>)
    ensures |r| == |lines|
  {
    if |lines| == 0 then []
    else LineHits(path, pat, lines[..|lines| - 1]) + [LineHit(path, pat, |lines| - 1, lines[|lines| - 1])]
  }

  lemma {:induction false} LineHitsAt(path: string, pat: Pattern, lines: seq<string>, i: nat)
    requires i < |lines|
    ensures LineHits(path, pat, lines)[i] == LineHit(path, pat, i, lines[i])
  {
    var init := lines[..|lines| - 1];
    if i < |lines| - 1 {
      LineHitsAt(path, pat, init, i);
      assert init[i] == lines[i];
    }
  }

  /** The inner loop of `scan_file_patterns` for one pattern. */
  function PatternHits(path: string, pat: Pattern, lines: seq<string>): seq<Issue>
  {
    Concat(LineHits(path, pat, lines))
  }

  /** The hits of each pattern of `pats`, in table order. */
  function PatternScans(path: string, lines: seq<string>, pats: seq<Pattern>): (r: seq<seq<Issue>>)
    ensures |r| == |pats|
  {
    if |pats| == 0 then []
    else PatternScans(path, lines, pats[..|pats| - 1]) + [PatternHits(path, pats[|pats| - 1], lines)]
  }

  lemma {:induction false} PatternScansAt(path: string, lines: seq<string>, pats: seq<Pattern>, j: nat)
    requires j < |pats|
    ensures PatternScans(path, lines, pats)[j] == PatternHits(path, pats[j], lines)
  {
    var init := pats[..|pats| - 1];
    if j < |pats| - 1 {
      PatternScansAt(path, lines, init, j);
      assert init[j] == pats[j];
    }
  }

  /** What `scan_file_patterns` appends for a file's lines: pattern by
      pattern, and line by line within a pattern. */
  function FileScan(path: string, lines: seq<string>): seq<Issue>
  {
    Concat(PatternScans(path, lines, Patterns))
  }

  /** An unreadable file is reported on the console and adds nothing. */
  function ScanOf(f: FoundFile): seq<Issue>
  {
    match f.content
    case None => []
    case Some(content) => FileScan(f.path, Split(content, '\n'))
  }

  function FileScans(files: seq<FoundFile>): (r: seq<seq<Issue>>)
    ensures |r| == |files|
  {
    if |files| == 0 then [] else FileScans(files[..|files| - 1]) + [ScanOf(files[|files| - 1])]
  }

  lemma {:induction false} FileScansAt(files: seq<FoundFile>, k: nat)
    requires k < |files|
    ensures FileScans(files)[k] == ScanOf(files[k])
  {
    var init := files[..|files| - 1];
    if k < |files| - 1 {
      FileScansAt(init, k);
      assert init[k] == files[k];
    }
  }

  /** What `run_syntax_validation` appends. */
  function SyntaxIssues(files: seq<FoundFile>): seq<Issue>
  {
    Concat(FileScans(files))
  }

  /** Every hit of a pattern is a reported line, with its 1-based number,
      the pattern's level and the stripped line. */
  lemma PatternHitsSound(path: string, pat: Pattern, lines: seq<string>, x: Issue) returns (i: nat)
    requires x in PatternHits(path, pat, lines)
    ensures i < |lines| && Reported(path, pat, lines[i])
    ensures x == Issue(path, i + 1, PatternHit(pat), LevelOf(pat), Strip(lines[i]))
  {
    i := ConcatSound(LineHits(path, pat, lines), x);
    LineHitsAt(path, pat, lines, i);
  }

  lemma PatternHitsComplete(path: string, pat: Pattern, lines: seq<string>, i: nat)
    requires i < |lines| && Reported(path, pat, lines[i])
    ensures Issue(path, i + 1, PatternHit(pat), LevelOf(pat), Strip(lines[i])) in PatternHits(path, pat, lines)
  {
    LineHitsAt(path, pat, lines, i);
    ConcatComplete(LineHits(path, pat, lines), i, Issue(path, i + 1, PatternHit(pat), LevelOf(pat), Strip(lines[i])));
  }

  /** Every issue of a file scan is a reported (pattern, line) pair. */
  lemma FileScanSound(path: string, lines: seq<string>, x: Issue) returns (j: nat, i: nat)
    requires x in FileScan(path, lines)
    ensures j < |Patterns| && i < |lines| && Reported(path, Patterns[j], lines[i])
    ensures x == Issue(path, i + 1, PatternHit(Patterns[j]), LevelOf(Patterns[j]), Strip(lines[i]))
  {
    j := ConcatSound(PatternScans(path, lines, Patterns), x);
    PatternScansAt(path, lines, Patterns, j);
    i := PatternHitsSound(path, Patterns[j], lines, x);
  }

  /** Every reported (pattern, line) pair is an issue of the file scan. */
  lemma FileScanComplete(path: string, lines: seq<string>, j: nat, i: nat)
    requires j < |Patterns| && i < |lines| && Reported(path, Patterns[j], lines[i])
    ensures Issue(path, i + 1, PatternHit(Patterns[j]), LevelOf(Patterns[j]), Strip(lines[i])) in FileScan(path, lines)
  {
    PatternHitsComplete(path, Patterns[j], lines, i);
    PatternScansAt(path, lines, Patterns, j);
    ConcatComplete(PatternScans(path, lines, Patterns), j,
      Issue(path, i + 1, PatternHit(Patterns[j]), LevelOf(Patterns[j]), Strip(lines[i])));
  }

  /** No mock-data issue is raised for a path containing `test` in any case. */
  lemma MockSkippedInTestPaths(path: string, lines: seq<string>, x: Issue)
    requires x in FileScan(path, lines) && Contains(Lower(path), "test")
    ensures x.issueType != PatternHit(MockData)
  {
    var j, i := FileScanSound(path, lines, x);
  }

  /** A local-URL issue never quotes a line that is a `//` comment. */
  lemma CommentedUrlSkipped(path: string, lines: seq<string>, x: Issue)
    requires x in FileScan(path, lines) && x.issueType == PatternHit(LocalhostUrls)
    ensures !StartsWith(x.snippet, "//")
  {
    var j, i := FileScanSound(path, lines, x);
  }

  /** A delay call is reported on every line it occurs in, whatever else
      the line holds (`withTimeoutOrNull`, `timer`, `schedule` included). */
  lemma DelayAlwaysReported(path: string, lines: seq<string>, i: nat)
    requires i < |lines| && DelayCallFrom(lines[i], 0)
    ensures Issue(path, i + 1, PatternHit(DelaySimulation), High, Strip(lines[i])) in FileScan(path, lines)
  {
    FileScanComplete(path, lines, 5, i);
  }

  /** Every issue of the syntax layer comes from one file's scan. */
  lemma SyntaxIssuesSound(files: seq<FoundFile>, x: Issue) returns (k: nat)
    requires x in SyntaxIssues(files)
    ensures k < |files| && files[k].content.Some? && x in FileScan(files[k].path, Split(files[k].content.value, '\n'))
  {
    k := ConcatSound(FileScans(files), x);
    FileScansAt(files, k);
  }

  lemma SyntaxIssuesComplete(files: seq<FoundFile>, k: nat, x: Issue)
    requires k < |files| && x in ScanOf(files[k])
    ensures x in SyntaxIssues(files)
  {
    FileScansAt(files, k);
    ConcatComplete(FileScans(files), k, x);
  }

  // The loops of the scan

  /** One line against one pattern. */
  method CheckLine(path: string, pat: Pattern, lines: seq<string>, i: nat) returns (hit: seq<Issue>)
    requires i < |lines|
    ensures hit == LineHits(path, pat, lines)[i]
  {
    var line := lines[i];
    hit := [];
    if Matches(pat, line) {
      if Contains(Lower(path), "test") && pat == MockData {
      } else if pat == LocalhostUrls && StartsWith(Strip(line), "//") {
      } else {
        hit := [Issue(path, i + 1, PatternHit(pat), LevelOf(pat), Strip(line))];
      }
    }
    LineHitsAt(path, pat, lines, i);
  }

  method ScanPattern(path: string, pat: Pattern, lines: seq<string>) returns (found: seq<Issue>)
    ensures found == PatternHits(path, pat, lines)
  {
    found := [];
    var i := 0;
    while i < |lines|
      invariant 0 <= i <= |lines|
      invariant found == Concat(LineHits(path, pat, lines)[..i])
    {
      var hit := CheckLine(path, pat, lines, i);
      ConcatPrefixSnoc(LineHits(path, pat, lines), i);
      found := found + hit;
      i := i + 1;
    }
    assert LineHits(path, pat, lines)[..|lines|] == LineHits(path, pat, lines);
  }

  method ScanPatterns(path: string, lines: seq<string>) returns (found: seq<Issue>)
    ensures found == FileScan(path, lines)
  {
    found := [];
    var j := 0;
    while j < |Patterns|
      invariant 0 <= j <= |Patterns|
      invariant found == Concat(PatternScans(path, lines, Patterns)[..j])
    {
      var hits := ScanPattern(path, Patterns[j], lines);
      PatternScansAt(path, lines, Patterns, j);
      ConcatPrefixSnoc(PatternScans(path, lines, Patterns), j);
      found := found + hits;
      j := j + 1;
    }
    assert PatternScans(path, lines, Patterns)[..|Patterns|] == PatternScans(path, lines, Patterns);
  }

  /** The walk with its filters, directory by directory. */
  method MatchFiles(root: string, files: seq<FileEntry>, pattern: string) returns (found: seq<FoundFile>)
    ensures found == DirFiles(root, files, pattern)
  {
    found := [];
    var suffix := Replace(pattern, "*", "");
    var j := 0;
    while j < |files|
      invariant 0 <= j <= |files|
      invariant found == DirFiles(root, files[..j], pattern)
    {
      DirFilesStep(root, files, pattern, j);
      if EndsWith(files[j].name, suffix) {
        found := found + [FoundFile(JoinPath(root, files[j].name), files[j].content)];
      }
      j := j + 1;
    }
    assert files[..|files|] == files;
  }

  method FindFiles(tree: seq<DirVisit>, pattern: string, within: string, exclude: seq<string>) returns (found: seq<FoundFile>)
    ensures found == FilesOf(tree, pattern, within, exclude)
  {
    found := [];
    var k := 0;
    while k < |tree|
      invariant 0 <= k <= |tree|
      invariant found == FilesOf(tree[..k], pattern, within, exclude)
    {
      FilesOfStep(tree, pattern, within, exclude, k);
      if Reached(tree[k], exclude) && (within == "" || Contains(tree[k].root, within)) {
        var here := MatchFiles(tree[k].root, tree[k].files, pattern);
        found := found + here;
      }
      k := k + 1;
    }
    assert tree[..|tree|] == tree;
  }

  // ---------------------------------------------------------------
  // Checks that can raise
  // ---------------------------------------------------------------

  /** What a check appended, and whether it raised. A check that opens a
      file it cannot read, outside any `try`, raises, and the exception ends
      the whole run. */
  datatype Step = Step(issues: seq<Issue>, crashed: bool)

  /** Running `b` after `a`: nothing runs after an exception. */
  function Then(a: Step, b: Step): Step
  {
    if a.crashed then a else Step(a.issues + b.issues, b.crashed)
  }

  /** Three checks in a row, the first of which does not raise. */
  lemma ThenThen(a: Step, b: Step, c: Step)
    requires !a.crashed
    ensures Then(Then(a, b), c) ==
      if b.crashed then Step(a.issues + b.issues, true) else Step(a.issues + b.issues + c.issues, c.crashed)
  {
  }

  /** The parts run one after another. */
  function Steps(parts: seq<Step>): Step
  {
    if |parts| == 0 then Step([], false) else Then(Steps(parts[..|parts| - 1]), parts[|parts| - 1])
  }

  lemma StepsPrefixSnoc(parts: seq<Step>, i: nat)
    requires i < |parts|
    ensures Steps(parts[..i + 1]) == Then(Steps(parts[..i]), parts[i])
  {
    assert parts[..i + 1][..i] == parts[..i];
  }

  /** Once a part has raised, the later parts change nothing. */
  lemma {:induction false} StepsCrashed(parts: seq<Step>, i: nat)
    requires i <= |parts| && Steps(parts[..i]).crashed
    ensures Steps(parts) == Steps(parts[..i])
  {
    if i == |parts| {
      assert parts[..i] == parts;
    } else {
      var init := parts[..|parts| - 1];
      assert init[..i] == parts[..i];
      StepsCrashed(init, i);
    }
  }

  /** The run raises exactly when one of its parts does. */
  lemma {:induction false} StepsCrashIff(parts: seq<Step>)
    ensures Steps(parts).crashed <==> exists j :: 0 <= j < |parts| && parts[j].crashed
  {
    if |parts| > 0 {
      var init := parts[..|parts| - 1];
      StepsCrashIff(init);
      assert forall j :: 0 <= j < |init| ==> init[j] == parts[j];
    }
  }

  /** Every issue of the run comes from a part that ran, with no exception
      before it. */
  lemma {:induction false} StepsSound(parts: seq<Step>, x: Issue) returns (i: nat)
    requires x in Steps(parts).issues
    ensures i < |parts| && x in parts[i].issues
    ensures forall j :: 0 <= j < i ==> !parts[j].crashed
  {
    var init := parts[..|parts| - 1];
    if x in Steps(init).issues {
      i := StepsSound(init, x);
      assert forall j :: 0 <= j < |init| ==> init[j] == parts[j];
    } else {
      i := |parts| - 1;
      StepsCrashIff(init);
      assert forall j :: 0 <= j < |init| ==> init[j] == parts[j];
    }
  }

  /** Every issue of a part that runs is an issue of the run. */
  lemma {:induction false} StepsComplete(parts: seq<Step>, i: nat, x: Issue)
    requires i < |parts| && x in parts[i].issues
    requires forall j :: 0 <= j < i ==> !parts[j].crashed
    ensures x in Steps(parts).issues
  {
    var init := parts[..|parts| - 1];
    assert forall j :: 0 <= j < |init| ==> init[j] == parts[j];
    if i < |parts| - 1 {
      StepsComplete(init, i, x);
    } else {
      StepsCrashIff(init);
    }
  }

  /** A per-file check applied to each file in turn. */
  function Parts(files: seq<FoundFile>, check: FoundFile -> Step): (r: seq<Step>)
    ensures |r| == |files|
  {
    if |files| == 0 then [] else Parts(files[..|files| - 1], check) + [check(files[|files| - 1])]
  }

  lemma {:induction false} PartsAt(files: seq<FoundFile>, check: FoundFile -> Step, k: nat)
    requires k < |files|
    ensures Parts(files, check)[k] == check(files[k])
  {
    var init := files[..|files| - 1];
    if k < |files| - 1 {
      PartsAt(init, check, k);
      assert init[k] == files[k];
    }
  }

  /** Every file can be opened. */
  predicate AllReadable(files: seq<FoundFile>)
  {
    forall k :: 0 <= k < |files| ==> files[k].content.Some?
  }

  lemma ReadableStep(files: seq<FoundFile>, k: nat)
    requires k < |files| && AllReadable(files[..k]) && files[k].content.Some?
    ensures AllReadable(files[..k + 1])
  {
    assert forall j :: 0 <= j < k ==> files[..k + 1][j] == files[..k][j];
  }

  // ---------------------------------------------------------------
  // check_navigation_targets
  // ---------------------------------------------------------------

  predicate IsNotDoubleQuote(c: char) { c != '"' }

  /** `navController\.navigate\s*\(\s*["']([^"']+)["']\s*\)` attempted at
      `p`: the target and the end of the match. The target run stops at the
      first quote of either kind, so no shorter run could end the match. */
  function NavigateAt(s: string, p: nat): (r: Option<(string, nat)>)
    requires p <= |s|
    ensures r.Some? ==> p < r.value.1 <= |s| && |r.value.0| > 0
    ensures r.Some? ==> forall k :: 0 <= k < |r.value.0| ==> !IsQuote(r.value.0[k])
  {
    match QuotedCallAt(s, p, "navController.navigate", IsNotQuote)
    case None => None
    case Some(m) =>
      var e := SkipSpace(s, m.1);
      if e < |s| && s[e] == ')' then Some((m.0, e + 1)) else None
  }

  /** `re.findall` of the navigation pattern from `p`: the targets, left to
      right. */
  function NavigateCalls(s: string, p: nat): seq<string>
    requires p <= |s|
    decreases |s| - p
  {
    if p == |s| then []
    else match NavigateAt(s, p)
      case Some(m) => [m.0] + NavigateCalls(s, m.1)
      case None => NavigateCalls(s, p + 1)
  }

  /** `object\s+\w+\s*:` attempted at `p`: where the match goes on after
      the colon. The space run and the name run each stop at a character
      that cannot belong to them, so the match is unique. */
  function ObjectHeadAt(s: string, p: nat): (r: Option<nat>)
    requires p <= |s|
    ensures r.Some? ==> p < r.value <= |s|
  {
    if !HasAt(s, p, "object") then None
    else
      var a := SkipSpace(s, p + 6);
      var b := WordEnd(s, a);
      var c := SkipSpace(s, b);
      if a == p + 6 || b == a || c == |s| || s[c] != ':' then None else Some(c + 1)
  }

  /** `Screen\s*\(\s*"([^"]+)"\s*\)` attempted at `d`: the route and the
      end of the match. The route run stops at the first `"`. */
  function ScreenArgAt(s: string, d: nat): (r: Option<(string, nat)>)
    requires d <= |s|
    ensures r.Some? ==> d < r.value.1 <= |s| && |r.value.0| > 0
    ensures r.Some? ==> forall k :: 0 <= k < |r.value.0| ==> r.value.0[k] != '"'
  {
    if !HasAt(s, d, "Screen") then None
    else
      var e := SkipSpace(s, d + 6);
      if e == |s| || s[e] != '(' then None
      else
        var f := SkipSpace(s, e + 1);
        if f == |s| || s[f] != '"' then None
        else
          var g := RunEnd(s, f + 1, IsNotDoubleQuote);
          if g == f + 1 || g == |s| then None
          else
            var h := SkipSpace(s, g + 1);
            if h == |s| || s[h] != ')' then None else Some((s[f + 1..g], h + 1))
  }

  /** `object\s+(\w+)\s*:\s*Screen\s*\(\s*"([^"]+)"\s*\)` attempted at
      `p`: the route (the second group) and the end of the match. */
  function RouteDefAt(s: string, p: nat): (r: Option<(string, nat)>)
    requires p <= |s|
    ensures r.Some? ==> p < r.value.1 <= |s| && |r.value.0| > 0
    ensures r.Some? ==> forall k :: 0 <= k < |r.value.0| ==> r.value.0[k] != '"'
  {
    match ObjectHeadAt(s, p)
    case None => None
    case Some(c) => ScreenArgAt(s, SkipSpace(s, c))
  }

  /** `re.findall` of the route pattern from `p`: the routes, left to right. */
  function RouteDefs(s: string, p: nat): seq<string>
    requires p <= |s|
    decreases |s| - p
  {
    if p == |s| then []
    else match RouteDefAt(s, p)
      case Some(m) => [m.0] + RouteDefs(s, m.1)
      case None => RouteDefs(s, p + 1)
  }

  /** Every target found is the target of a match of the pattern. */
  lemma {:induction false} NavigateCallsFound(s: string, p: nat, x: string) returns (q: nat)
    requires p <= |s| && x in NavigateCalls(s, p)
    decreases |s| - p
    ensures p <= q <= |s| && NavigateAt(s, q).Some? && NavigateAt(s, q).value.0 == x
  {
    match NavigateAt(s, p)
    case Some(m) =>
      if x == m.0 {
        q := p;
      } else {
        q := NavigateCallsFound(s, m.1, x);
      }
    case None =>
      q := NavigateCallsFound(s, p + 1, x);
  }

  /** Every route found is the route of a match of the pattern. */
  lemma {:induction false} RouteDefsFound(s: string, p: nat, x: string) returns (q: nat)
    requires p <= |s| && x in RouteDefs(s, p)
    decreases |s| - p
    ensures p <= q <= |s| && RouteDefAt(s, q).Some? && RouteDefAt(s, q).value.0 == x
  {
    match RouteDefAt(s, p)
    case Some(m) =>
      if x == m.0 {
        q := p;
      } else {
        q := RouteDefsFound(s, m.1, x);
      }
    case None =>
      q := RouteDefsFound(s, p + 1, x);
  }

  /** A navigation call and the file it was found in. */
  datatype NavCall = NavCall(file: string, target: string)

  function Tagged(path: string, targets: seq<string>): seq<NavCall>
  {
    seq(|targets|, k requires 0 <= k < |targets| => NavCall(path, targets[k]))
  }

  /** The routes defined in the navigation-host files. */
  function RoutesOf(files: seq<FoundFile>): set<string>
  {
    if |files| == 0 then {}
    else
      RoutesOf(files[..|files| - 1])
      + match files[|files| - 1].content
        case None => {}
        case Some(c) => Elems(RouteDefs(c, 0))
  }

  /** The navigation calls of the navigation-host files, file by file. */
  function NavigationsOf(files: seq<FoundFile>): seq<NavCall>
  {
    if |files| == 0 then []
    else
      NavigationsOf(files[..|files| - 1])
      + match files[|files| - 1].content
        case None => []
        case Some(c) => Tagged(files[|files| - 1].path, NavigateCalls(c, 0))
  }

  lemma NavigationStep(files: seq<FoundFile>, k: nat)
    requires k < |files| && files[k].content.Some?
    ensures RoutesOf(files[..k + 1]) == RoutesOf(files[..k]) + Elems(RouteDefs(files[k].content.value, 0))
    ensures NavigationsOf(files[..k + 1]) == NavigationsOf(files[..k]) + Tagged(files[k].path, NavigateCalls(files[k].content.value, 0))
  {
    assert files[..k + 1][..k] == files[..k];
  }

  function NavIssue(n: NavCall): Issue
  {
    Issue(n.file, 0, MissingNavigationTarget, Critical, "navigate(" + n.target + ")")
  }

  /** One issue per navigation call whose target is no defined route. */
  function NavIssues(navs: seq<NavCall>, routes: set<string>): seq<Issue>
  {
    if |navs| == 0 then []
    else
      NavIssues(navs[..|navs| - 1], routes)
      + if navs[|navs| - 1].target in routes then [] else [NavIssue(navs[|navs| - 1])]
  }

  lemma NavIssuesStep(navs: seq<NavCall>, routes: set<string>, k: nat)
    requires k < |navs|
    ensures NavIssues(navs[..k + 1], routes) == NavIssues(navs[..k], routes) + if navs[k].target in routes then [] else [NavIssue(navs[k])]
  {
    assert navs[..k + 1][..k] == navs[..k];
  }

  /** An unreadable navigation-host file raises before any issue is added. */
  function NavStep(files: seq<FoundFile>): Step
  {
    if AllReadable(files) then Step(NavIssues(NavigationsOf(files), RoutesOf(files)), false) else Step([], true)
  }

  lemma {:induction false} NavIssuesSound(navs: seq<NavCall>, routes: set<string>, x: Issue) returns (k: nat)
    requires x in NavIssues(navs, routes)
    ensures k < |navs| && navs[k].target !in routes && x == NavIssue(navs[k])
  {
    var init := navs[..|navs| - 1];
    if x in NavIssues(init, routes) {
      k := NavIssuesSound(init, routes, x);
      assert init[k] == navs[k];
    } else {
      k := |navs| - 1;
    }
  }

  lemma {:induction false} NavIssuesComplete(navs: seq<NavCall>, routes: set<string>, k: nat)
    requires k < |navs| && navs[k].target !in routes
    ensures NavIssue(navs[k]) in NavIssues(navs, routes)
  {
    var init := navs[..|navs| - 1];
    if k < |navs| - 1 {
      assert init[k] == navs[k];
      NavIssuesComplete(init, routes, k);
    }
  }

  /** Whether a call's target is missing from the defined routes. */
  function Undefined(routes: set<string>): NavCall -> bool
  {
    (n: NavCall) => n.target !in routes
  }

  /** Repeated targets are not merged: there is one issue per call to an
      undefined target, in call order, repeats included. */
  lemma {:induction false} NavIssuesExact(navs: seq<NavCall>, routes: set<string>)
    ensures |NavIssues(navs, routes)| == |Filter(navs, Undefined(routes))| == Count(navs, Undefined(routes))
    ensures forall i :: 0 <= i < |NavIssues(navs, routes)| ==>
      NavIssues(navs, routes)[i] == NavIssue(Filter(navs, Undefined(routes))[i])
  {
    CountFilter(navs, Undefined(routes));
    if |navs| > 0 {
      var init, x := navs[..|navs| - 1], navs[|navs| - 1];
      NavIssuesExact(init, routes);
      CountFilter(init, Undefined(routes));
      assert navs == init + [x];
      FilterSnoc(init, x, Undefined(routes));
    }
  }

  /** Every known route is defined in a readable navigation-host file. */
  lemma {:induction false} RoutesOfSound(files: seq<FoundFile>, r: string) returns (k: nat)
    requires r in RoutesOf(files)
    ensures k < |files| && files[k].content.Some? && r in RouteDefs(files[k].content.value, 0)
  {
    var init := files[..|files| - 1];
    if r in RoutesOf(init) {
      k := RoutesOfSound(init, r);
      assert init[k] == files[k];
    } else {
      k := |files| - 1;
    }
  }

  /** Every route a readable navigation-host file defines is known. */
  lemma {:induction false} RoutesOfComplete(files: seq<FoundFile>, k: nat, r: string)
    requires k < |files| && files[k].content.Some? && r in RouteDefs(files[k].content.value, 0)
    ensures r in RoutesOf(files)
  {
    var init := files[..|files| - 1];
    if k < |files| - 1 {
      assert init[k] == files[k];
      RoutesOfComplete(init, k, r);
    }
  }

  /** Every navigation call recorded was found in a readable file. */
  lemma {:induction false} NavigationsOfSound(files: seq<FoundFile>, n: NavCall) returns (k: nat)
    requires n in NavigationsOf(files)
    ensures k < |files| && files[k].content.Some? && n.file == files[k].path
    ensures n.target in NavigateCalls(files[k].content.value, 0)
  {
    var init := files[..|files| - 1];
    if n in NavigationsOf(init) {
      k := NavigationsOfSound(init, n);
      assert init[k] == files[k];
    } else {
      k := |files| - 1;
      var targets := NavigateCalls(files[k].content.value, 0);
      var m :| 0 <= m < |targets| && Tagged(files[k].path, targets)[m] == n;
    }
  }

  lemma {:induction false} NavigationsOfComplete(files: seq<FoundFile>, k: nat, t: string)
    requires k < |files| && files[k].content.Some? && t in NavigateCalls(files[k].content.value, 0)
    ensures NavCall(files[k].path, t) in NavigationsOf(files)
  {
    var init := files[..|files| - 1];
    if k < |files| - 1 {
      assert init[k] == files[k];
      NavigationsOfComplete(init, k, t);
    } else {
      var targets := NavigateCalls(files[k].content.value, 0);
      var m :| 0 <= m < |targets| && targets[m] == t;
      assert Tagged(files[k].path, targets)[m] == NavCall(files[k].path, t);
    }
  }

  /** A navigation issue names a file that navigates to a target no
      navigation-host file defines as a route. */
  lemma NavigationIssueSound(files: seq<FoundFile>, x: Issue) returns (k: nat, t: string)
    requires x in NavStep(files).issues
    ensures k < |files| && files[k].content.Some? && t in NavigateCalls(files[k].content.value, 0)
    ensures forall j :: 0 <= j < |files| && files[j].content.Some? ==> t !in RouteDefs(files[j].content.value, 0)
    ensures x == Issue(files[k].path, 0, MissingNavigationTarget, Critical, "navigate(" + t + ")")
  {
    var i := NavIssuesSound(NavigationsOf(files), RoutesOf(files), x);
    var n := NavigationsOf(files)[i];
    k := NavigationsOfSound(files, n);
    t := n.target;
    forall j | 0 <= j < |files| && files[j].content.Some?
      ensures t !in RouteDefs(files[j].content.value, 0)
    {
      if t in RouteDefs(files[j].content.value, 0) {
        RoutesOfComplete(files, j, t);
      }
    }
  }

  /** When every file opens, each call to an undefined target is reported. */
  lemma NavigationIssueComplete(files: seq<FoundFile>, k: nat, t: string)
    requires AllReadable(files) && k < |files| && t in NavigateCalls(files[k].content.value, 0)
    requires forall j :: 0 <= j < |files| ==> t !in RouteDefs(files[j].content.value, 0)
    ensures Issue(files[k].path, 0, MissingNavigationTarget, Critical, "navigate(" + t + ")") in NavStep(files).issues
  {
    NavigationsOfComplete(files, k, t);
    if t in RoutesOf(files) {
      var j := RoutesOfSound(files, t);
    }
    var navs := NavigationsOf(files);
    var i :| 0 <= i < |navs| && navs[i] == NavCall(files[k].path, t);
    NavIssuesComplete(navs, RoutesOf(files), i);
  }

  // ---------------------------------------------------------------
  // check_data_persistence, check_ui_handlers, check_api_implementation
  // ---------------------------------------------------------------

  /** In-memory collections with no sign of DataStore or a DAO. */
  predicate InMemoryOnly(content: string)
  {
    (Contains(content, "mutableMapOf") || Contains(content, "mutableListOf"))
    && !Contains(content, "dataStore") && !Contains(Lower(content), "dao")
  }

  function PersistenceIssue(path: string): Issue
  {
    Issue(path, 0, MissingPersistence, High, "mutableMapOf/mutableListOf")
  }

  /** Only files whose path contains `Impl` are opened. */
  function PersistFile(f: FoundFile): Step
  {
    if !Contains(f.path, "Impl") then Step([], false)
    else match f.content
      case None => Step([], true)
      case Some(c) => Step(if InMemoryOnly(c) then [PersistenceIssue(f.path)] else [], false)
  }

  function PersistStep(files: seq<FoundFile>): Step
  {
    Steps(Parts(files, PersistFile))
  }

  /** A persistence issue names an `Impl` file that keeps its data only in
      memory. */
  lemma PersistSound(files: seq<FoundFile>, x: Issue) returns (k: nat)
    requires x in PersistStep(files).issues
    ensures k < |files| && Contains(files[k].path, "Impl") && files[k].content.Some?
    ensures InMemoryOnly(files[k].content.value) && x == PersistenceIssue(files[k].path)
  {
    k := StepsSound(Parts(files, PersistFile), x);
    PartsAt(files, PersistFile, k);
  }

  /** Each in-memory `Impl` file is reported unless an earlier `Impl` file
      could not be opened. */
  lemma PersistComplete(files: seq<FoundFile>, k: nat)
    requires k < |files| && Contains(files[k].path, "Impl") && files[k].content.Some?
    requires InMemoryOnly(files[k].content.value)
    requires forall j :: 0 <= j < k && Contains(files[j].path, "Impl") ==> files[j].content.Some?
    ensures PersistenceIssue(files[k].path) in PersistStep(files).issues
  {
    forall j | 0 <= j < k
      ensures !Parts(files, PersistFile)[j].crashed
    {
      PartsAt(files, PersistFile, j);
    }
    PartsAt(files, PersistFile, k);
    StepsComplete(Parts(files, PersistFile), k, PersistenceIssue(files[k].path));
  }

  /** The check raises exactly when an `Impl` file cannot be opened. */
  lemma PersistCrashIff(files: seq<FoundFile>)
    ensures PersistStep(files).crashed <==>
      exists k :: 0 <= k < |files| && Contains(files[k].path, "Impl") && files[k].content.None?
  {
    StepsCrashIff(Parts(files, PersistFile));
    forall k | 0 <= k < |files|
      ensures Parts(files, PersistFile)[k].crashed <==> Contains(files[k].path, "Impl") && files[k].content.None?
    {
      PartsAt(files, PersistFile, k);
    }
  }

  /** `onClick\s*=\s*\{\s*\}` at `p`. */
  predicate EmptyClickAt(s: string, p: nat)
    requires p <= |s|
  {
    HasAt(s, p, "onClick") &&
    var a := SkipSpace(s, p + 7);
    a < |s| && s[a] == '=' && EmptyBlockAt(s, a + 1)
  }

  predicate EmptyClickFrom(s: string, p: nat)
    requires p <= |s|
    decreases |s| - p
  {
    EmptyClickAt(s, p) || (p < |s| && EmptyClickFrom(s, p + 1))
  }

  function ClickIssue(path: string): Issue
  {
    Issue(path, 0, EmptyClickHandler, High, "onClick = { }")
  }

  /** Every screen file is opened; one issue per file with an empty handler. */
  function UiFile(f: FoundFile): Step
  {
    match f.content
    case None => Step([], true)
    case Some(c) => Step(if EmptyClickFrom(c, 0) then [ClickIssue(f.path)] else [], false)
  }

  function UiStep(files: seq<FoundFile>): Step
  {
    Steps(Parts(files, UiFile))
  }

  lemma UiSound(files: seq<FoundFile>, x: Issue) returns (k: nat)
    requires x in UiStep(files).issues
    ensures k < |files| && files[k].content.Some? && EmptyClickFrom(files[k].content.value, 0)
    ensures x == ClickIssue(files[k].path)
  {
    k := StepsSound(Parts(files, UiFile), x);
    PartsAt(files, UiFile, k);
  }

  lemma UiComplete(files: seq<FoundFile>, k: nat)
    requires k < |files| && files[k].content.Some? && EmptyClickFrom(files[k].content.value, 0)
    requires forall j :: 0 <= j < k ==> files[j].content.Some?
    ensures ClickIssue(files[k].path) in UiStep(files).issues
  {
    forall j | 0 <= j < k
      ensures !Parts(files, UiFile)[j].crashed
    {
      PartsAt(files, UiFile, j);
    }
    PartsAt(files, UiFile, k);
    StepsComplete(Parts(files, UiFile), k, ClickIssue(files[k].path));
  }

  lemma UiCrashIff(files: seq<FoundFile>)
    ensures UiStep(files).crashed <==> !AllReadable(files)
  {
    StepsCrashIff(Parts(files, UiFile));
    forall k | 0 <= k < |files|
      ensures Parts(files, UiFile)[k].crashed <==> files[k].content.None?
    {
      PartsAt(files, UiFile, k);
    }
  }

  /** The API check opens every service file and records nothing. */
  function ApiStep(files: seq<FoundFile>): Step
  {
    Step([], !AllReadable(files))
  }

  // ---------------------------------------------------------------
  // check_api_configuration
  // ---------------------------------------------------------------

  /** `app/build.gradle.kts` under the project root: absent, or present
      with its text (`None` when it cannot be opened). */
  datatype BuildScript = Missing | Present(content: Option<string>)

  function ConfigIssue(root: string): Issue
  {
    Issue(JoinPath(root, "app/build.gradle.kts"), 0, LocalApiUrl, Critical, "localhost/127.0.0.1")
  }

  function ConfigStep(root: string, gradle: BuildScript): Step
  {
    match gradle
    case Missing => Step([], false)
    case Present(None) => Step([], true)
    case Present(Some(c)) =>
      Step(if Contains(c, "localhost") || Contains(c, "127.0.0.1") then [ConfigIssue(root)] else [], false)
  }

  // ---------------------------------------------------------------
  // One round
  // ---------------------------------------------------------------

  function KotlinFiles(tree: seq<DirVisit>): seq<FoundFile> { FilesOf(tree, "*.kt", "", SyntaxExclude) }
  function NavFiles(tree: seq<DirVisit>): seq<FoundFile> { FilesOf(tree, "*NavHost*.kt", "", DefaultExclude) }
  function RepositoryFiles(tree: seq<DirVisit>): seq<FoundFile> { FilesOf(tree, "*Repository*.kt", "app/src/main", DefaultExclude) }
  function ScreenFiles(tree: seq<DirVisit>): seq<FoundFile> { FilesOf(tree, "*Screen.kt", "app/src/main", DefaultExclude) }
  function ApiFiles(tree: seq<DirVisit>): seq<FoundFile> { FilesOf(tree, "*ApiService*.kt", "", DefaultExclude) }

  /** `run_implementation_validation`: the four semantic rules in order. */
  function ImplementationStep(tree: seq<DirVisit>): Step
  {
    Then(Then(Then(NavStep(NavFiles(tree)), PersistStep(RepositoryFiles(tree))),
      UiStep(ScreenFiles(tree))), ApiStep(ApiFiles(tree)))
  }

  /** One round from a cleared issue list: the syntax layer (which never
      raises), the semantic rules, then the build-script check. */
  function Round(root: string, tree: seq<DirVisit>, gradle: BuildScript): Step
  {
    Then(Then(Step(SyntaxIssues(KotlinFiles(tree)), false), ImplementationStep(tree)), ConfigStep(root, gradle))
  }

  predicate IsCritical(i: Issue) { i.level == Critical }

  predicate IsHigh(i: Issue) { i.level == High }

  /** A round passes when it leaves no CRITICAL and no HIGH issue. */
  predicate Passes(issues: seq<Issue>)
  {
    Count(issues, IsCritical) == 0 && Count(issues, IsHigh) == 0
  }

  /** What a successful fix adds to `fixed_count`. */
  function Severe(issues: seq<Issue>): nat
  {
    Count(issues, IsCritical) + Count(issues, IsHigh)
  }

  lemma PassesIff(issues: seq<Issue>)
    ensures Passes(issues) <==> forall k :: 0 <= k < |issues| ==> issues[k].level != Critical && issues[k].level != High
  {
    CountZero(issues, IsCritical);
    CountZero(issues, IsHigh);
  }

  /** A TODO-style marker in any scanned Kotlin file keeps the round from
      passing. */
  lemma TodoBlocksSuccess(root: string, tree: seq<DirVisit>, gradle: BuildScript, k: nat, j: nat, i: nat)
    requires k < |tree| && Reached(tree[k], SyntaxExclude)
    requires j < |tree[k].files| && EndsWith(tree[k].files[j].name, ".kt") && tree[k].files[j].content.Some?
    requires i < |Split(tree[k].files[j].content.value, '\n')|
    requires HasTodoMarker(Split(tree[k].files[j].content.value, '\n')[i])
    ensures !Passes(Round(root, tree, gradle).issues)
  {
    var e := tree[k].files[j];
    var lines := Split(e.content.value, '\n');
    var f := FoundFile(JoinPath(tree[k].root, e.name), e.content);
    KotlinPatternIsSuffix(e.name);
    FilesOfComplete(tree, "*.kt", "", SyntaxExclude, k, j);
    var files := KotlinFiles(tree);
    var m :| 0 <= m < |files| && files[m] == f;
    var x := Issue(f.path, i + 1, PatternHit(TodoMarkers), Critical, Strip(lines[i]));
    FileScanComplete(f.path, lines, 0, i);
    SyntaxIssuesComplete(files, m, x);
    var issues := Round(root, tree, gradle).issues;
    assert x in issues;
    var q :| 0 <= q < |issues| && issues[q] == x;
    PassesIff(issues);
  }

  /** A local address in the build script keeps the round from passing,
      unless a semantic rule raised first. */
  lemma LocalBuildUrlBlocksSuccess(root: string, tree: seq<DirVisit>, c: string)
    requires Contains(c, "localhost") || Contains(c, "127.0.0.1")
    requires !ImplementationStep(tree).crashed
    ensures !Passes(Round(root, tree, Present(Some(c))).issues)
  {
    var issues := Round(root, tree, Present(Some(c))).issues;
    assert issues[|issues| - 1] == ConfigIssue(root);
    PassesIff(issues);
  }

  // ---------------------------------------------------------------
  // The loops of the semantic rules
  // ---------------------------------------------------------------

  /** The collecting loop of `check_navigation_targets`; it stops at the
      first file that cannot be opened. */
  method CollectNavigation(files: seq<FoundFile>) returns (routes: set<string>, navs: seq<NavCall>, crashed: bool)
    ensures crashed == !AllReadable(files)
    ensures !crashed ==> routes == RoutesOf(files) && navs == NavigationsOf(files)
  {
    routes, navs, crashed := {}, [], false;
    var k := 0;
    while k < |files|
      invariant 0 <= k <= |files|
      invariant AllReadable(files[..k])
      invariant routes == RoutesOf(files[..k]) && navs == NavigationsOf(files[..k])
    {
      if files[k].content.None? {
        crashed := true;
        return;
      }
      routes, navs := CollectFile(files, k, routes, navs);
      k := k + 1;
    }
    assert files[..|files|] == files;
  }

  /** The body of the collecting loop for the `k`-th file, which could be
      opened. */
  method CollectFile(files: seq<FoundFile>, k: nat, routes: set<string>, navs: seq<NavCall>)
    returns (routes': set<string>, navs': seq<NavCall>)
    requires k < |files| && files[k].content.Some? && AllReadable(files[..k])
    requires routes == RoutesOf(files[..k]) && navs == NavigationsOf(files[..k])
    ensures AllReadable(files[..k + 1])
    ensures routes' == RoutesOf(files[..k + 1]) && navs' == NavigationsOf(files[..k + 1])
  {
    var content := files[k].content.value;
    NavigationStep(files, k);
    ReadableStep(files, k);
    routes' := routes + Elems(RouteDefs(content, 0));
    navs' := navs + Tagged(files[k].path, NavigateCalls(content, 0));
  }

  /** The reporting loop of `check_navigation_targets`. */
  method UndeclaredTargets(navs: seq<NavCall>, routes: set<string>) returns (found: seq<Issue>)
    ensures found == NavIssues(navs, routes)
  {
    found := [];
    var k := 0;
    while k < |navs|
      invariant 0 <= k <= |navs|
      invariant found == NavIssues(navs[..k], routes)
    {
      NavIssuesStep(navs, routes, k);
      if navs[k].target !in routes {
        found := found + [NavIssue(navs[k])];
      }
      k := k + 1;
    }
    assert navs[..|navs|] == navs;
  }

  /** A per-file check over the files in turn, up to the first exception. */
  method RunParts(files: seq<FoundFile>, check: FoundFile -> Step) returns (found: seq<Issue>, crashed: bool)
    ensures Step(found, crashed) == Steps(Parts(files, check))
  {
    found, crashed := [], false;
    var k := 0;
    while k < |files| && !crashed
      invariant 0 <= k <= |files|
      invariant Step(found, crashed) == Steps(Parts(files, check)[..k])
    {
      var part := check(files[k]);
      PartsAt(files, check, k);
      StepsPrefixSnoc(Parts(files, check), k);
      found, crashed := found + part.issues, part.crashed;
      k := k + 1;
    }
    if crashed {
      StepsCrashed(Parts(files, check), k);
    } else {
      assert Parts(files, check)[..|files|] == Parts(files, check);
    }
  }

  /** Whether some file cannot be opened. */
  method AnyUnreadable(files: seq<FoundFile>) returns (crashed: bool)
    ensures crashed == !AllReadable(files)
  {
    crashed := false;
    var k := 0;
    while k < |files|
      invariant 0 <= k <= |files|
      invariant forall j :: 0 <= j < k ==> files[j].content.Some?
    {
      if files[k].content.None? {
        return true;
      }
      k := k + 1;
    }
  }

  /** The two list comprehensions of `validate`. */
  method CountLevels(issues: seq<Issue>) returns (critical: nat, high: nat)
    ensures critical == Count(issues, IsCritical) && high == Count(issues, IsHigh)
  {
    critical, high := 0, 0;
    var k := 0;
    while k < |issues|
      invariant 0 <= k <= |issues|
      invariant critical == Count(issues[..k], IsCritical) && high == Count(issues[..k], IsHigh)
    {
      CountSnoc(issues[..k], issues[k], IsCritical);
      CountSnoc(issues[..k], issues[k], IsHigh);
      assert issues[..k + 1] == issues[..k] + [issues[k]];
      if issues[k].level == Critical {
        critical := critical + 1;
      } else if issues[k].level == High {
        high := high + 1;
      }
      k := k + 1;
    }
    assert issues[..|issues|] == issues;
  }

  // ---------------------------------------------------------------
  // The validator
  // ---------------------------------------------------------------

  /** The report; the timestamp is left out. */
  datatype Report = Report(success: bool, iterations: nat, fixedCount: nat, remainingIssues: nat, criticalIssues: nat)

  /** A run either returns a report or ends in an exception. */
  datatype Outcome = Crashed | Finished(report: Report)

  function ReportOf(success: bool, iterations: nat, fixedCount: nat, issues: seq<Issue>): (r: Report)
    ensures r.criticalIssues <= r.remainingIssues == |issues|
  {
    Report(success, iterations, fixedCount, |issues|, Count(issues, IsCritical))
  }

  /** What `validate` leaves behind: its outcome and the validator's
      fields. */
  datatype Final = Final(outcome: Outcome, issues: seq<Issue>, iterations: nat, fixed: nat)

  /** The loop of `validate` from the state `issues`, `iterations`,
      `fixed`, when every round ends in `r`. */
  function Validated(r: Step, fixer: seq<Issue> -> bool, maxIterations: int,
                     issues: seq<Issue>, iterations: nat, fixed: nat): Final
    decreases maxIterations - iterations
  {
    if iterations >= maxIterations then Final(Finished(ReportOf(false, iterations, fixed, issues)), issues, iterations, fixed)
    else if r.crashed then Final(Crashed, r.issues, iterations + 1, fixed)
    else if Passes(r.issues) then Final(Finished(ReportOf(true, iterations + 1, fixed, r.issues)), r.issues, iterations + 1, fixed)
    else if !fixer(r.issues) then Final(Finished(ReportOf(false, iterations + 1, fixed, r.issues)), r.issues, iterations + 1, fixed)
    else Validated(r, fixer, maxIterations, r.issues, iterations + 1, fixed + Severe(r.issues))
  }

  /** With no round left, nothing changes and the report says failure. */
  lemma ValidatedNoRound(r: Step, fixer: seq<Issue> -> bool, maxIterations: int, issues: seq<Issue>, iterations: nat, fixed: nat)
    requires iterations >= maxIterations
    ensures Validated(r, fixer, maxIterations, issues, iterations, fixed)
      == Final(Finished(ReportOf(false, iterations, fixed, issues)), issues, iterations, fixed)
  {
  }

  /** Once a round runs: the issues are the round's; the run crashes exactly
      when the round does; when the fixer keeps reporting fixes the loop
      uses up every round, adding the CRITICAL and HIGH count each time,
      and otherwise it stops after one; the report counts what the last
      round found and says success exactly when that round passed. */
  lemma {:induction false} ValidatedRounds(r: Step, fixer: seq<Issue> -> bool, maxIterations: int,
                                           issues: seq<Issue>, iterations: nat, fixed: nat)
    requires iterations < maxIterations
    decreases maxIterations - iterations
    ensures var v := Validated(r, fixer, maxIterations, issues, iterations, fixed);
      && v.issues == r.issues
      && (v.outcome.Crashed? <==> r.crashed)
      && v.iterations == (if Repeats(r, fixer) then maxIterations else iterations + 1)
      && v.fixed == fixed + (if Repeats(r, fixer) then (maxIterations - iterations) * Severe(r.issues) else 0)
      && (v.outcome.Finished? ==> v.outcome.report == ReportOf(Passes(r.issues), v.iterations, v.fixed, r.issues))
  {
    if Repeats(r, fixer) {
      var n := Severe(r.issues);
      if iterations + 1 < maxIterations {
        ValidatedRounds(r, fixer, maxIterations, r.issues, iterations + 1, fixed + n);
        assert (maxIterations - iterations) * n == n + (maxIterations - (iterations + 1)) * n;
      }
    }
  }

  /** Whether the loop goes on after a round: it found CRITICAL or HIGH
      issues and the fixer reported a fix. */
  predicate Repeats(r: Step, fixer: seq<Issue> -> bool)
  {
    !r.crashed && !Passes(r.issues) && fixer(r.issues)
  }

  class RecursiveValidator {
    const projectRoot: string
    var issues: seq<Issue>
    var fixedCount: nat
    var iterationCount: nat

    constructor (projectRoot: string)
      ensures this.projectRoot == projectRoot
      ensures issues == [] && fixedCount == 0 && iterationCount == 0
    {
      this.projectRoot := projectRoot;
      issues, fixedCount, iterationCount := [], 0, 0;
    }

    /** `scan_file_patterns` for one file. */
    method ScanFilePatterns(f: FoundFile)
      modifies this
      ensures issues == old(issues) + ScanOf(f)
      ensures fixedCount == old(fixedCount) && iterationCount == old(iterationCount)
    {
      match f.content {
        case None =>
        case Some(content) =>
          var found := ScanPatterns(f.path, Split(content, '\n'));
          issues := issues + found;
      }
    }

    method RunSyntaxValidation(tree: seq<DirVisit>)
      modifies this
      ensures issues == old(issues) + SyntaxIssues(KotlinFiles(tree))
      ensures fixedCount == old(fixedCount) && iterationCount == old(iterationCount)
    {
      var files := FindFiles(tree, "*.kt", "", SyntaxExclude);
      var k := 0;
      while k < |files|
        invariant 0 <= k <= |files|
        invariant issues == old(issues) + Concat(FileScans(files)[..k])
        invariant fixedCount == old(fixedCount) && iterationCount == old(iterationCount)
      {
        FileScansAt(files, k);
        ConcatPrefixSnoc(FileScans(files), k);
        AppendAssoc(old(issues), Concat(FileScans(files)[..k]), ScanOf(files[k]));
        ScanFilePatterns(files[k]);
        k := k + 1;
      }
      assert FileScans(files)[..|files|] == FileScans(files);
    }

    method CheckNavigationTargets(tree: seq<DirVisit>) returns (crashed: bool)
      modifies this
      ensures issues == old(issues) + NavStep(NavFiles(tree)).issues && crashed == NavStep(NavFiles(tree)).crashed
      ensures fixedCount == old(fixedCount) && iterationCount == old(iterationCount)
    {
      var files := FindFiles(tree, "*NavHost*.kt", "", DefaultExclude);
      var routes, navs;
      routes, navs, crashed := CollectNavigation(files);
      if !crashed {
        var found := UndeclaredTargets(navs, routes);
        issues := issues + found;
      }
    }

    method CheckDataPersistence(tree: seq<DirVisit>) returns (crashed: bool)
      modifies this
      ensures issues == old(issues) + PersistStep(RepositoryFiles(tree)).issues
      ensures crashed == PersistStep(RepositoryFiles(tree)).crashed
      ensures fixedCount == old(fixedCount) && iterationCount == old(iterationCount)
    {
      var files := FindFiles(tree, "*Repository*.kt", "app/src/main", DefaultExclude);
      var found;
      found, crashed := RunParts(files, PersistFile);
      issues := issues + found;
    }

    method CheckUiHandlers(tree: seq<DirVisit>) returns (crashed: bool)
      modifies this
      ensures issues == old(issues) + UiStep(ScreenFiles(tree)).issues
      ensures crashed == UiStep(ScreenFiles(tree)).crashed
      ensures fixedCount == old(fixedCount) && iterationCount == old(iterationCount)
    {
      var files := FindFiles(tree, "*Screen.kt", "app/src/main", DefaultExclude);
      var found;
      found, crashed := RunParts(files, UiFile);
      issues := issues + found;
    }

    method CheckApiImplementation(tree: seq<DirVisit>) returns (crashed: bool)
      ensures crashed == ApiStep(ApiFiles(tree)).crashed
    {
      var files := FindFiles(tree, "*ApiService*.kt", "", DefaultExclude);
      crashed := AnyUnreadable(files);
    }

    method RunImplementationValidation(tree: seq<DirVisit>) returns (crashed: bool)
      modifies this
      ensures issues == old(issues) + ImplementationStep(tree).issues
      ensures crashed == ImplementationStep(tree).crashed
      ensures fixedCount == old(fixedCount) && iterationCount == old(iterationCount)
    {
      crashed := CheckNavigationTargets(tree);
      if crashed {
        return;
      }
      ghost var afterNav := issues;
      crashed := CheckDataPersistence(tree);
      AppendAssoc(old(issues), NavStep(NavFiles(tree)).issues, PersistStep(RepositoryFiles(tree)).issues);
      if crashed {
        return;
      }
      ghost var afterPersist := issues;
      crashed := CheckUiHandlers(tree);
      AppendAssoc(old(issues), afterPersist[|old(issues)|..], UiStep(ScreenFiles(tree)).issues);
      if crashed {
        return;
      }
      crashed := CheckApiImplementation(tree);
      assert issues + [] == issues;
    }

    /** `check_api_configuration`; the dependency-injection check is empty. */
    method RunIntegrationValidation(gradle: BuildScript) returns (crashed: bool)
      modifies this
      ensures issues == old(issues) + ConfigStep(projectRoot, gradle).issues
      ensures crashed == ConfigStep(projectRoot, gradle).crashed
      ensures fixedCount == old(fixedCount) && iterationCount == old(iterationCount)
    {
      crashed := false;
      match gradle {
        case Missing =>
        case Present(None) =>
          crashed := true;
        case Present(Some(c)) =>
          if Contains(c, "localhost") || Contains(c, "127.0.0.1") {
            issues := issues + [ConfigIssue(projectRoot)];
          }
      }
    }

    /** One round: clear the list and run the layers. */
    method RunRound(tree: seq<DirVisit>, gradle: BuildScript) returns (crashed: bool)
      modifies this
      ensures issues == Round(projectRoot, tree, gradle).issues
      ensures crashed == Round(projectRoot, tree, gradle).crashed
      ensures fixedCount == old(fixedCount) && iterationCount == old(iterationCount)
    {
      ghost var syntax := Step(SyntaxIssues(KotlinFiles(tree)), false);
      ghost var implementation := ImplementationStep(tree);
      ghost var integration := ConfigStep(projectRoot, gradle);
      ThenThen(syntax, implementation, integration);
      issues := [];
      RunSyntaxValidation(tree);
      assert issues == syntax.issues;
      crashed := RunImplementationValidation(tree);
      assert issues == syntax.issues + implementation.issues;
      if crashed {
        return;
      }
      crashed := RunIntegrationValidation(gradle);
      assert issues == syntax.issues + implementation.issues + integration.issues;
    }

    /** `generate_report`; writing it to `validation_report.json` is left out. */
    method GenerateReport(success: bool) returns (report: Report)
      ensures report == ReportOf(success, iterationCount, fixedCount, issues)
    {
      var critical, high := CountLevels(issues);
      report := Report(success, iterationCount, fixedCount, |issues|, critical);
    }

    /** `validate`: rounds until one passes, the fixer gives up, or
        `maxIterations` rounds have run. Every round sees the same tree, so
        every round finds the same issues. */
    method Validate(tree: seq<DirVisit>, gradle: BuildScript, maxIterations: int, fixer: seq<Issue> -> bool)
      returns (outcome: Outcome)
      modifies this
      ensures Final(outcome, issues, iterationCount, fixedCount)
        == Validated(Round(projectRoot, tree, gradle), fixer, maxIterations, old(issues), old(iterationCount), old(fixedCount))
    {
      ghost var r := Round(projectRoot, tree, gradle);
      ghost var goal := Validated(r, fixer, maxIterations, issues, iterationCount, fixedCount);
      while iterationCount < maxIterations
        invariant Validated(r, fixer, maxIterations, issues, iterationCount, fixedCount) == goal
        decreases maxIterations - iterationCount
      {
        var verdict := ValidateRound(tree, gradle, maxIterations, fixer);
        if verdict.Some? {
          return verdict.value;
        }
      }
      var report := GenerateReport(false);
      outcome := Finished(report);
    }

    /** One pass of the loop of `validate`: `None` when the loop goes on. */
    method ValidateRound(tree: seq<DirVisit>, gradle: BuildScript, maxIterations: int, fixer: seq<Issue> -> bool)
      returns (verdict: Option<Outcome>)
      requires iterationCount < maxIterations
      modifies this
      ensures iterationCount == old(iterationCount) + 1
      ensures verdict.Some? ==> (Final(verdict.value, issues, iterationCount, fixedCount)
        == Validated(Round(projectRoot, tree, gradle), fixer, maxIterations, old(issues), old(iterationCount), old(fixedCount)))
      ensures verdict.None? ==> (Validated(Round(projectRoot, tree, gradle), fixer, maxIterations, issues, iterationCount, fixedCount)
        == Validated(Round(projectRoot, tree, gradle), fixer, maxIterations, old(issues), old(iterationCount), old(fixedCount)))
    {
      iterationCount := iterationCount + 1;
      var crashed := RunRound(tree, gradle);
      verdict := Decide(Round(projectRoot, tree, gradle), crashed, maxIterations, fixer, old(issues));
    }

    /** The rest of a pass, once the round `r` has run: stop on an
        exception, report success when no CRITICAL or HIGH issue is left,
        otherwise ask the fixer and either go on or report failure. */
    method Decide(ghost r: Step, crashed: bool, maxIterations: int, fixer: seq<Issue> -> bool, ghost before: seq<Issue>)
      returns (verdict: Option<Outcome>)
      requires 0 < iterationCount <= maxIterations
      requires issues == r.issues && crashed == r.crashed
      modifies this
      ensures iterationCount == old(iterationCount)
      ensures verdict.Some? ==> (Final(verdict.value, issues, iterationCount, fixedCount)
        == Validated(r, fixer, maxIterations, before, iterationCount - 1, old(fixedCount)))
      ensures verdict.None? ==> (Validated(r, fixer, maxIterations, issues, iterationCount, fixedCount)
        == Validated(r, fixer, maxIterations, before, iterationCount - 1, old(fixedCount)))
    {
      if crashed {
        return Some(Crashed);
      }
      var critical, high := CountLevels(issues);
      if critical == 0 && high == 0 {
        var report := GenerateReport(true);
        return Some(Finished(report));
      }
      if fixer(issues) {
        fixedCount := fixedCount + critical + high;
        verdict := None;
      } else {
        var report := GenerateReport(false);
        verdict := Some(Finished(report));
      }
    }
  }

  /** `auto_fix_issues`: it fixes nothing. */
  function AutoFixIssues(issues: seq<Issue>): bool
  {
    false
  }

  /** The script's entry point: a validator on `/workspace` with the default
      ten rounds. Since the fixer never fixes, one round decides. */
  method Run(tree: seq<DirVisit>, gradle: BuildScript) returns (outcome: Outcome)
    ensures outcome.Crashed? <==> Round("/workspace", tree, gradle).crashed
    ensures outcome.Finished? ==>
      outcome.report == ReportOf(Passes(Round("/workspace", tree, gradle).issues), 1, 0, Round("/workspace", tree, gradle).issues)
  {
    var validator := new RecursiveValidator("/workspace");
    outcome := validator.Validate(tree, gradle, 10, AutoFixIssues);
    ValidatedRounds(Round("/workspace", tree, gradle), AutoFixIssues, 10, [], 0, 0);
  }
}
