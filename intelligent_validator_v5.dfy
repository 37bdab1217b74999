/** The version 5 "intelligent" validator: which functions it checks, the
    issues a function's body yields, the cross-file navigation and
    dependency-injection checks, the false-positive filter and the
    report's verdict. File contents are given as (path, text) pairs. */
module IntelligentV5 {
  import opened Text
  import opened Seqs
  import opened KotlinPatterns
  import opened IntelligentV5Text
  import opened IntelligentV5Parse

  datatype Level = Blocker | Critical | Major | Minor | Info

  const Levels: seq<Level> := [Blocker, Critical, Major, Minor, Info]

  /** What an issue is about; `OtherCheck` stands for the checks of the
      validator that this model does not spell out, by their issue type. */
  datatype IssueKind =
    | EmptyImplementation(fn: string)
    | SuspiciousImplementation(fn: string, pattern: Suspicion)
    | MissingRoute(route: string)
    | MissingProvider(typeName: string)
    | OtherCheck(issueType: string)

  datatype Issue = Issue(filePath: string, lineNumber: nat, kind: IssueKind, level: Level, confidence: real)

  datatype SourceFile = SourceFile(path: string, content: string)

  function IssueType(k: IssueKind): string
  {
    match k
    case EmptyImplementation(_) => "empty_implementation"
    case SuspiciousImplementation(_, _) => "suspicious_implementation"
    case MissingRoute(_) => "missing_route"
    case MissingProvider(_) => "missing_di_provider"
    case OtherCheck(t) => t
  }

  lemma AllLevels()
    ensures forall l: Level :: l in Levels
  {
    forall l: Level ensures l in Levels {
      match l
      case Blocker => assert Levels[0] == l;
      case Critical => assert Levels[1] == l;
      case Major => assert Levels[2] == l;
      case Minor => assert Levels[3] == l;
      case Info => assert Levels[4] == l;
    }
  }

  // ---------------------------------------------------------------
  // Which functions are checked, and what a body yields
  // ---------------------------------------------------------------

  /** `should_check_implementation`. */
  predicate ShouldCheckImplementation(f: FunctionInfo)
  {
    if f.isAbstract then false
    else if f.context.isInterface && f.body == "" then false
    else if f.context.isTestFile && f.name in ["setUp", "tearDown", "before", "after"] then false
    else if f.context.isDataClass && f.name in ["equals", "hashCode", "toString", "copy"] then false
    else true
  }

  /** A function is skipped exactly in the four cases the filter lists,
      and no function the scanner finds in an interface file is checked,
      since the scanner marks every such function abstract. */
  lemma ShouldCheckCases(lines: seq<string>, path: string, ctx: CodeContext, f: FunctionInfo)
    requires f in Parse(lines, 0, path, ctx)
    ensures !ShouldCheckImplementation(f) <==>
      ctx.isInterface
      || (ctx.isTestFile && f.name in ["setUp", "tearDown", "before", "after"])
      || (ctx.isDataClass && f.name in ["equals", "hashCode", "toString", "copy"])
  {
    var r := Parse(lines, 0, path, ctx);
    var k :| 0 <= k < |r| && r[k] == f;
  }

  /** The level of each suspicious pattern. */
  function SuspicionLevel(pat: Suspicion): Level
  {
    match pat
    case NotImplementedThrow => Critical
    case TodoCall => Critical
    case TodoComment => Major
    case FixmeComment => Major
    case StringReturn => Minor
    case NumberReturn => Minor
  }

  /** A pattern found in the cleaned body is reported unless the function
      is a getter returning a string, or `hashCode`/`compareTo` returning a
      number. */
  predicate Reported(f: FunctionInfo, clean: string, pat: Suspicion)
  {
    Shows(pat, clean)
    && !(pat == StringReturn && StartsWith(f.name, "get"))
    && !(pat == NumberReturn && f.name in ["hashCode", "compareTo"])
  }

  function SuspiciousIssue(f: FunctionInfo, pat: Suspicion): Issue
  {
    Issue(f.filePath, f.lineNumber, SuspiciousImplementation(f.name, pat), SuspicionLevel(pat), 0.8)
  }

  /** The issues for the patterns `pats`, tried in order. */
  function SuspiciousIssues(f: FunctionInfo, clean: string, pats: seq<Suspicion>): (r: seq<Issue>)
    ensures |r| <= |pats|
  {
    if |pats| == 0 then []
    else
      var last := pats[|pats| - 1];
      SuspiciousIssues(f, clean, pats[..|pats| - 1])
      + (if Reported(f, clean, last) then [SuspiciousIssue(f, last)] else [])
  }

  /** The issues `check_function_implementation` adds for `f`: the empty
      implementation alone, or else the suspicious patterns in order. */
  function ImplementationIssues(f: FunctionInfo): seq<Issue>
  {
    if !f.hasImplementation then
      [Issue(f.filePath, f.lineNumber, EmptyImplementation(f.name), Critical, 1.0)]
    else SuspiciousIssues(f, CleanCodeBody(f.body), Suspicions)
  }

  /** Every suspicious issue sits at the function, has confidence 0.8 and
      the pattern's level; a pattern of `pats` is reported exactly when it
      shows in the body and is not excused. */
  lemma {:induction false} SuspiciousIssuesFacts(f: FunctionInfo, clean: string, pats: seq<Suspicion>)
    ensures forall i :: 0 <= i < |SuspiciousIssues(f, clean, pats)| ==>
      var x := SuspiciousIssues(f, clean, pats)[i];
      x.filePath == f.filePath && x.lineNumber == f.lineNumber && x.confidence == 0.8
      && x.kind.SuspiciousImplementation? && x.kind.fn == f.name && x.kind.pattern in pats
      && x.level == SuspicionLevel(x.kind.pattern) && Reported(f, clean, x.kind.pattern)
    ensures forall q :: q in pats && Reported(f, clean, q) ==> SuspiciousIssue(f, q) in SuspiciousIssues(f, clean, pats)
  {
    if |pats| > 0 {
      var init := pats[..|pats| - 1];
      SuspiciousIssuesFacts(f, clean, init);
      assert forall q :: q in init ==> q in pats;
      assert forall q :: q in pats ==> q in init || q == pats[|pats| - 1];
    }
  }

  /** An unimplemented function yields exactly one CRITICAL
      `empty_implementation` issue; an implemented one yields only
      suspicious-pattern issues, with confidence 0.8, never for a TODO or
      FIXME comment (comments are gone from the searched text), never a
      string return for a getter nor a number return for `hashCode` or
      `compareTo`, and every pattern that shows and is not excused. */
  lemma ImplementationIssuesFacts(f: FunctionInfo)
    ensures !f.hasImplementation ==>
      |ImplementationIssues(f)| == 1 && ImplementationIssues(f)[0].level == Critical
      && ImplementationIssues(f)[0].kind == EmptyImplementation(f.name)
    ensures f.hasImplementation ==>
      forall i :: 0 <= i < |ImplementationIssues(f)| ==>
        var x := ImplementationIssues(f)[i];
        x.kind.SuspiciousImplementation? && x.confidence == 0.8 && x.level == SuspicionLevel(x.kind.pattern)
        && x.kind.pattern != TodoComment && x.kind.pattern != FixmeComment
        && !(x.kind.pattern == StringReturn && StartsWith(f.name, "get"))
        && !(x.kind.pattern == NumberReturn && f.name in ["hashCode", "compareTo"])
    ensures f.hasImplementation ==>
      forall q :: q in Suspicions && Reported(f, CleanCodeBody(f.body), q) ==> SuspiciousIssue(f, q) in ImplementationIssues(f)
  {
    if f.hasImplementation {
      SuspiciousIssuesFacts(f, CleanCodeBody(f.body), Suspicions);
      CommentPatternsNeverShow(f.body);
    }
  }

  /** The issues the checked functions of one file yield, in order. */
  function CheckedIssues(fs: seq<FunctionInfo>): seq<Issue>
  {
    if |fs| == 0 then []
    else
      var last := fs[|fs| - 1];
      CheckedIssues(fs[..|fs| - 1]) + (if ShouldCheckImplementation(last) then ImplementationIssues(last) else [])
  }

  /** The key under which a function is stored. */
  function FunctionKey(path: string, name: string): string
  {
    path + "::" + name
  }

  /** `m` with the functions `fs` stored in order: a later function with
      the same key replaces an earlier one. */
  function Register(m: map<string, FunctionInfo>, path: string, fs: seq<FunctionInfo>): map<string, FunctionInfo>
    decreases |fs|
  {
    if |fs| == 0 then m
    else Register(m[FunctionKey(path, fs[0].name) := fs[0]], path, fs[1..])
  }

  /** Registering keeps the old keys, adds one key per function, and
      nothing else. */
  lemma {:induction false} RegisterKeys(m: map<string, FunctionInfo>, path: string, fs: seq<FunctionInfo>)
    decreases |fs|
    ensures Register(m, path, fs).Keys == m.Keys + set f | f in fs :: FunctionKey(path, f.name)
  {
    if |fs| > 0 {
      RegisterKeys(m[FunctionKey(path, fs[0].name) := fs[0]], path, fs[1..]);
      assert forall f :: f in fs <==> f == fs[0] || f in fs[1..];
    }
  }

  /** The functions the scanner finds in one file. */
  function FileFunctions(f: SourceFile, ctx: CodeContext): seq<FunctionInfo>
  {
    Parse(Split(f.content, '\n'), 0, f.path, ctx)
  }

  /** The issues the implementation check raises for one file, if it has
      a context. */
  function FileIssues(f: SourceFile, contexts: map<string, CodeContext>): seq<Issue>
  {
    if f.path in contexts then CheckedIssues(FileFunctions(f, contexts[f.path])) else []
  }

  /** The issues of the implementation check over all files. */
  function AnalysisIssues(files: seq<SourceFile>, contexts: map<string, CodeContext>): seq<Issue>
  {
    if |files| == 0 then []
    else AnalysisIssues(files[..|files| - 1], contexts) + FileIssues(files[|files| - 1], contexts)
  }

  lemma AnalysisIssuesStep(files: seq<SourceFile>, k: nat, contexts: map<string, CodeContext>)
    requires k < |files|
    ensures AnalysisIssues(files[..k + 1], contexts) == AnalysisIssues(files[..k], contexts) + FileIssues(files[k], contexts)
  {
    assert files[..k + 1][..k] == files[..k];
  }

  /** The function map after analysing `files`. */
  function AnalysisFunctions(m: map<string, FunctionInfo>, files: seq<SourceFile>, contexts: map<string, CodeContext>): map<string, FunctionInfo>
    decreases |files|
  {
    if |files| == 0 then m
    else
      var first := files[0];
      var m' := if first.path in contexts then Register(m, first.path, FileFunctions(first, contexts[first.path])) else m;
      AnalysisFunctions(m', files[1..], contexts)
  }

  // ---------------------------------------------------------------
  // File contexts
  // ---------------------------------------------------------------

  /** The contexts recorded for `files`, in order, over `m`. */
  function RecordContexts(m: map<string, CodeContext>, files: seq<SourceFile>): map<string, CodeContext>
  {
    if |files| == 0 then m
    else
      var last := files[|files| - 1];
      RecordContexts(m, files[..|files| - 1])[last.path := ContextOf(last.path, last.content)]
  }

  lemma RecordContextsStep(m: map<string, CodeContext>, files: seq<SourceFile>, k: nat)
    requires k < |files|
    ensures RecordContexts(m, files[..k + 1]) ==
      RecordContexts(m, files[..k])[files[k].path := ContextOf(files[k].path, files[k].content)]
  {
    assert files[..k + 1][..k] == files[..k];
  }

  /** Every file gets a context, and nothing else is added. */
  lemma {:induction false} RecordContextsKeys(m: map<string, CodeContext>, files: seq<SourceFile>)
    ensures RecordContexts(m, files).Keys == m.Keys + Paths(files)
  {
    if |files| > 0 {
      RecordContextsKeys(m, files[..|files| - 1]);
    }
  }

  /** The paths of `files`. */
  function Paths(files: seq<SourceFile>): set<string>
  {
    if |files| == 0 then {} else Paths(files[..|files| - 1]) + {files[|files| - 1].path}
  }

  lemma {:induction false} PathsIff(files: seq<SourceFile>, p: string)
    ensures p in Paths(files) <==> exists f :: f in files && f.path == p
  {
    if |files| > 0 {
      var init, last := files[..|files| - 1], files[|files| - 1];
      PathsIff(init, p);
      assert files == init + [last];
      if exists f :: f in files && f.path == p {
        var f :| f in files && f.path == p;
        if f != last {
          assert f in init;
        }
      }
    }
  }

  /** With distinct paths, each file's context is the one built from that
      file's own text. */
  lemma {:induction false} RecordContextsFacts(m: map<string, CodeContext>, files: seq<SourceFile>)
    requires forall i, j :: 0 <= i < j < |files| ==> files[i].path != files[j].path
    ensures forall f :: f in files ==>
      f.path in RecordContexts(m, files) && RecordContexts(m, files)[f.path] == ContextOf(f.path, f.content)
  {
    RecordContextsKeys(m, files);
    if |files| > 0 {
      var init := files[..|files| - 1];
      var last := files[|files| - 1];
      RecordContextsKeys(m, init);
      RecordContextsFacts(m, init);
      forall f | f in files
        ensures f.path in RecordContexts(m, files) && RecordContexts(m, files)[f.path] == ContextOf(f.path, f.content)
      {
        if f != last {
          var i :| 0 <= i < |files| && files[i] == f;
          assert i < |files| - 1 && init[i] == f;
        }
      }
    }
  }

  // ---------------------------------------------------------------
  // Navigation
  // ---------------------------------------------------------------

  /** The targets of `navigate("...")` calls in a body. */
  function NavTargets(body: string): seq<string>
  {
    if Contains(body, "navigate") then QuotedCalls(body, 0, "navigate", IsRouteChar) else []
  }

  /** Every navigation target in the stored functions. */
  function NavCalls(functions: map<string, FunctionInfo>): set<string>
  {
    set f, r | f in functions.Values && r in NavTargets(f.body) :: r
  }

  /** Every `composable("...")` route in a NavHost file. */
  function ComposableRoutes(files: seq<SourceFile>, contexts: map<string, CodeContext>): set<string>
  {
    set f, r | f in files && f.path in contexts && Contains(f.path, "NavHost")
                 && r in QuotedCalls(f.content, 0, "composable", IsRouteChar) :: r
  }

  function MissingRouteIssue(route: string): Issue
  {
    Issue("Navigation", 0, MissingRoute(route), Blocker, 1.0)
  }

  function MissingRouteIssues(order: seq<string>): (r: seq<Issue>)
    ensures |r| == |order|
  {
    if |order| == 0 then [] else MissingRouteIssues(order[..|order| - 1]) + [MissingRouteIssue(order[|order| - 1])]
  }

  /** The i-th issue reports the i-th missing route as a blocker. */
  lemma {:induction false} MissingRouteIssuesAt(order: seq<string>)
    ensures forall i :: 0 <= i < |order| ==> MissingRouteIssues(order)[i] == MissingRouteIssue(order[i])
  {
    if |order| > 0 {
      MissingRouteIssuesAt(order[..|order| - 1]);
    }
  }

  lemma RouteIssuesSnoc(order: seq<string>, r: string)
    ensures MissingRouteIssues(order + [r]) == MissingRouteIssues(order) + [MissingRouteIssue(r)]
  {
    assert (order + [r])[..|order|] == order;
  }

  // ---------------------------------------------------------------
  // Dependency injection
  // ---------------------------------------------------------------

  /** `fun\s+\w+\([^)]*\)\s*:\s*(\w+)` at `p`: the return type and the end
      of the match. Every repetition is followed by a character it cannot
      consume, so the greedy reading is the only one. */
  function FunReturnAt(s: string, p: nat): (r: Option<(string, nat)>)
    requires p <= |s|
    ensures r.Some? ==> p < r.value.1 <= |s| && |r.value.0| > 0
    ensures r.Some? ==> forall k :: 0 <= k < |r.value.0| ==> IsWordChar(r.value.0[k])
  {
    if !HasAt(s, p, "fun") then None
    else
      var a := SkipSpace(s, p + 3);
      var b := WordEnd(s, a);
      if a == p + 3 || b == a || b == |s| || s[b] != '(' then None
      else match FindChar(s, ')', b + 1)
        case None => None
        case Some(c) => TypeAnnotationAt(s, c + 1)
  }

  /** `\s*:\s*(\w+)` at `p`: the type name and the end of the match. */
  function TypeAnnotationAt(s: string, p: nat): (r: Option<(string, nat)>)
    requires p <= |s|
    ensures r.Some? ==> p < r.value.1 <= |s| && |r.value.0| > 0
    ensures r.Some? ==> forall k :: 0 <= k < |r.value.0| ==> IsWordChar(r.value.0[k])
  {
    var d := SkipSpace(s, p);
    if d == |s| || s[d] != ':' then None
    else
      var e := SkipSpace(s, d + 1);
      var g := WordEnd(s, e);
      if g == e then None else Some((s[e..g], g))
  }

  /** The three dependency-injection patterns. */
  datatype DiPattern = InjectPattern | ProvidesPattern | BindsPattern

  /** `(?:constructor|lateinit\s+var)\s+` at `a`: where the variable name starts. */
  function InjectTargetAt(s: string, a: nat): (r: Option<nat>)
    requires a <= |s|
    ensures r.Some? ==> a < r.value <= |s|
  {
    var b := if HasAt(s, a, "constructor") then a + 11
             else if HasAt(s, a, "lateinit") && SkipSpace(s, a + 8) > a + 8 && HasAt(s, SkipSpace(s, a + 8), "var")
             then SkipSpace(s, a + 8) + 3
             else a;
    var c := SkipSpace(s, b);
    if b == a || c == b then None else Some(c)
  }

  /** The pattern `pat` at `p`: the captured type and the end of the match.
      `@Inject\s+(?:constructor|lateinit\s+var)\s+(\w+)\s*:\s*(\w+)` captures
      the second group; `@Provides.*\n\s*fun...` and
      `@Binds.*\n\s*abstract\s+fun...` the return type, where `.*` runs to
      the first line break. */
  function DiMatchAt(pat: DiPattern, s: string, p: nat): (r: Option<(string, nat)>)
    requires p <= |s|
    ensures r.Some? ==> p < r.value.1 <= |s| && |r.value.0| > 0
  {
    match pat
    case InjectPattern =>
      if !HasAt(s, p, "@Inject") then None
      else
        var a := SkipSpace(s, p + 7);
        if a == p + 7 then None
        else (match InjectTargetAt(s, a)
          case None => None
          case Some(c) =>
            var d := WordEnd(s, c);
            if d == c then None else TypeAnnotationAt(s, d))
    case ProvidesPattern =>
      if !HasAt(s, p, "@Provides") then None
      else
        var n := LineEnd(s, p + 9);
        if n == |s| then None else FunReturnAt(s, SkipSpace(s, n + 1))
    case BindsPattern =>
      if !HasAt(s, p, "@Binds") then None
      else
        var n := LineEnd(s, p + 6);
        if n == |s| then None
        else
          var q := SkipSpace(s, n + 1);
          if !HasAt(s, q, "abstract") then None
          else
            var q2 := SkipSpace(s, q + 8);
            if q2 == q + 8 then None else FunReturnAt(s, q2)
  }

  /** `re.findall` of `pat` from `p`: the captured types, left to right. */
  function DiCaptures(pat: DiPattern, s: string, p: nat): (r: seq<string>)
    requires p <= |s|
    decreases |s| - p
    ensures forall k :: 0 <= k < |r| ==> |r[k]| > 0
  {
    if p == |s| then []
    else match DiMatchAt(pat, s, p)
      case Some(m) => [m.0] + DiCaptures(pat, s, m.1)
      case None => DiCaptures(pat, s, p + 1)
  }

  /** `acc` followed by the members of `xs` it does not hold yet, in
      order of first occurrence. */
  function AddNew(acc: seq<string>, xs: seq<string>): seq<string>
  {
    if |xs| == 0 then acc
    else
      var d := AddNew(acc, xs[..|xs| - 1]);
      if xs[|xs| - 1] in d then d else d + [xs[|xs| - 1]]
  }

  /** Adding new members keeps the sequence free of repeats, and holds
      exactly the old members and the added ones. */
  lemma {:induction false} AddNewFacts(acc: seq<string>, xs: seq<string>)
    requires Distinct(acc)
    ensures Distinct(AddNew(acc, xs))
    ensures forall t :: t in AddNew(acc, xs) <==> t in acc || t in xs
  {
    if |xs| > 0 {
      var init := xs[..|xs| - 1];
      AddNewFacts(acc, init);
      assert forall t :: t in xs <==> t in init || t == xs[|xs| - 1];
    }
  }

  /** The injected types of the analysed files, each once, in order of
      first occurrence. */
  function NeededTypes(files: seq<SourceFile>, contexts: map<string, CodeContext>): seq<string>
  {
    if |files| == 0 then []
    else
      var last := files[|files| - 1];
      var d := NeededTypes(files[..|files| - 1], contexts);
      if last.path in contexts then AddNew(d, DiCaptures(InjectPattern, last.content, 0)) else d
  }

  /** The types some `@Provides` or `@Binds` method returns. */
  function ProvidedTypes(files: seq<SourceFile>, contexts: map<string, CodeContext>): set<string>
  {
    if |files| == 0 then {}
    else
      var last := files[|files| - 1];
      ProvidedTypes(files[..|files| - 1], contexts)
      + (if last.path in contexts
         then Elems(DiCaptures(ProvidesPattern, last.content, 0))
              + Elems(DiCaptures(BindsPattern, last.content, 0))
         else {})
  }

  /** One more file extends both scans by that file's types. */
  lemma DiScanStep(files: seq<SourceFile>, k: nat, contexts: map<string, CodeContext>)
    requires k < |files|
    ensures NeededTypes(files[..k + 1], contexts) ==
      if files[k].path in contexts
      then AddNew(NeededTypes(files[..k], contexts), DiCaptures(InjectPattern, files[k].content, 0))
      else NeededTypes(files[..k], contexts)
    ensures ProvidedTypes(files[..k + 1], contexts) ==
      ProvidedTypes(files[..k], contexts)
      + (if files[k].path in contexts
         then Elems(DiCaptures(ProvidesPattern, files[k].content, 0))
              + Elems(DiCaptures(BindsPattern, files[k].content, 0))
         else {})
  {
    assert files[..k + 1][..k] == files[..k];
  }

  /** Injected in some analysed file. */
  predicate InjectedSomewhere(files: seq<SourceFile>, contexts: map<string, CodeContext>, t: string)
  {
    exists f :: f in files && f.path in contexts && t in DiCaptures(InjectPattern, f.content, 0)
  }

  /** The needed types are free of repeats and are exactly the injected ones. */
  lemma {:induction false} NeededTypesFacts(files: seq<SourceFile>, contexts: map<string, CodeContext>)
    ensures Distinct(NeededTypes(files, contexts))
    ensures forall t :: t in NeededTypes(files, contexts) <==> InjectedSomewhere(files, contexts, t)
  {
    if |files| > 0 {
      var init := files[..|files| - 1];
      var last := files[|files| - 1];
      NeededTypesFacts(init, contexts);
      if last.path in contexts {
        AddNewFacts(NeededTypes(init, contexts), DiCaptures(InjectPattern, last.content, 0));
      }
      assert forall f :: f in files <==> f in init || f == last;
      forall t
        ensures InjectedSomewhere(files, contexts, t) <==>
          (InjectedSomewhere(init, contexts, t) || (last.path in contexts && t in DiCaptures(InjectPattern, last.content, 0)))
      {
        if InjectedSomewhere(files, contexts, t) {
          var f :| f in files && f.path in contexts && t in DiCaptures(InjectPattern, f.content, 0);
          if f != last {
            assert f in init;
          }
        }
      }
    }
  }

  /** Types the framework provides by itself. */
  const AutoProvided: set<string> := {"Context", "Application", "Activity"}

  /** The members of `needed` outside `excluded`, in order. */
  function Unprovided(needed: seq<string>, excluded: set<string>): seq<string>
  {
    if |needed| == 0 then []
    else
      var t := needed[|needed| - 1];
      Unprovided(needed[..|needed| - 1], excluded) + (if t !in excluded then [t] else [])
  }

  /** One more needed type adds its issue when it lacks a provider. */
  lemma ProviderStep(needed: seq<string>, excluded: set<string>, k: nat)
    requires k < |needed|
    ensures ProviderIssues(Unprovided(needed[..k + 1], excluded)) ==
      ProviderIssues(Unprovided(needed[..k], excluded))
      + (if needed[k] !in excluded then [MissingProviderIssue(needed[k])] else [])
  {
    assert needed[..k + 1][..k] == needed[..k];
    var u := Unprovided(needed[..k], excluded);
    if needed[k] !in excluded {
      assert (u + [needed[k]])[..|u|] == u;
    } else {
      assert u + [] == u;
    }
  }

  /** Filtering keeps a sequence free of repeats and keeps exactly the
      members that lack a provider. */
  lemma {:induction false} UnprovidedFacts(needed: seq<string>, excluded: set<string>)
    requires Distinct(needed)
    ensures Distinct(Unprovided(needed, excluded))
    ensures forall t :: t in Unprovided(needed, excluded) <==> t in needed && t !in excluded
  {
    if |needed| > 0 {
      var init := needed[..|needed| - 1];
      UnprovidedFacts(init, excluded);
      assert forall t :: t in needed <==> t in init || t == needed[|needed| - 1];
    }
  }

  /** Needed types without a provider, in the order they were first needed. */
  function MissingProviders(files: seq<SourceFile>, contexts: map<string, CodeContext>): seq<string>
  {
    Unprovided(NeededTypes(files, contexts), ProvidedTypes(files, contexts) + AutoProvided)
  }

  function MissingProviderIssue(t: string): Issue
  {
    Issue("DependencyInjection", 0, MissingProvider(t), Major, 0.8)
  }

  function ProviderIssues(types: seq<string>): (r: seq<Issue>)
    ensures |r| == |types|
    ensures forall i :: 0 <= i < |r| ==> r[i] == MissingProviderIssue(types[i])
  {
    if |types| == 0 then [] else ProviderIssues(types[..|types| - 1]) + [MissingProviderIssue(types[|types| - 1])]
  }

  /** Exactly the injected types without a provider that the framework
      does not supply are reported, each once. */
  lemma MissingProvidersExact(files: seq<SourceFile>, contexts: map<string, CodeContext>)
    ensures Distinct(MissingProviders(files, contexts))
    ensures forall t :: t in MissingProviders(files, contexts) <==>
      InjectedSomewhere(files, contexts, t) && t !in ProvidedTypes(files, contexts) && t !in AutoProvided
  {
    NeededTypesFacts(files, contexts);
    UnprovidedFacts(NeededTypes(files, contexts), ProvidedTypes(files, contexts) + AutoProvided);
  }

  // ---------------------------------------------------------------
  // False-positive filter
  // ---------------------------------------------------------------

  datatype Decision = Drop | Keep | Fail

  /** What the filter does with one issue. The data-class rule calls a
      method strings do not have, so any issue that reaches it on a
      data-class file raises. */
  function Decide(i: Issue, contexts: map<string, CodeContext>): Decision
  {
    if IssueType(i.kind) == "empty_implementation" && i.filePath in contexts && contexts[i.filePath].isInterface then Drop
    else if i.filePath in contexts && contexts[i.filePath].isTestFile
            && IssueType(i.kind) in ["missing_error_handling", "hardcoded_return"] then Drop
    else if i.filePath in contexts && contexts[i.filePath].isDataClass then Fail
    else Keep
  }

  /** `filter_false_positives`: the kept issues, or `None` when it raises. */
  function FilterOutcome(issues: seq<Issue>, contexts: map<string, CodeContext>): Option<seq<Issue>>
  {
    if |issues| == 0 then Some([])
    else match FilterOutcome(issues[..|issues| - 1], contexts)
      case None => None
      case Some(kept) =>
        match Decide(issues[|issues| - 1], contexts)
        case Drop => Some(kept)
        case Keep => Some(kept + [issues[|issues| - 1]])
        case Fail => None
  }

  /** The filter raises exactly when some issue reaches the data-class
      rule; otherwise it keeps, in order, the issues no rule drops. */
  lemma FilterOutcomeFacts(issues: seq<Issue>, contexts: map<string, CodeContext>)
    ensures FilterOutcome(issues, contexts).None? <==> exists k :: 0 <= k < |issues| && Decide(issues[k], contexts) == Fail
    ensures FilterOutcome(issues, contexts).Some? ==>
      FilterOutcome(issues, contexts).value == Filter(issues, i => Decide(i, contexts) == Keep)
  {
    FilterRaises(issues, contexts);
    FilterKeeps(issues, contexts);
  }

  lemma {:induction false} FilterRaises(issues: seq<Issue>, contexts: map<string, CodeContext>)
    ensures FilterOutcome(issues, contexts).None? <==> exists k :: 0 <= k < |issues| && Decide(issues[k], contexts) == Fail
  {
    if |issues| > 0 {
      var init := issues[..|issues| - 1];
      FilterRaises(init, contexts);
      if exists k :: 0 <= k < |init| && Decide(init[k], contexts) == Fail {
        var k :| 0 <= k < |init| && Decide(init[k], contexts) == Fail;
        assert issues[k] == init[k];
      }
      if exists k :: 0 <= k < |issues| && Decide(issues[k], contexts) == Fail {
        var k :| 0 <= k < |issues| && Decide(issues[k], contexts) == Fail;
        if k < |init| {
          assert init[k] == issues[k];
        }
      }
    }
  }

  lemma {:induction false} FilterKeeps(issues: seq<Issue>, contexts: map<string, CodeContext>)
    ensures FilterOutcome(issues, contexts).Some? ==>
      FilterOutcome(issues, contexts).value == Filter(issues, i => Decide(i, contexts) == Keep)
  {
    if |issues| > 0 {
      var init := issues[..|issues| - 1];
      var x := issues[|issues| - 1];
      assert issues == init + [x];
      FilterKeeps(init, contexts);
      FilterSnoc(init, x, i => Decide(i, contexts) == Keep);
    }
  }

  /** Issues not tied to an analysed file, like the navigation and
      injection ones, always pass the filter. */
  lemma UnanchoredIssuesKept(i: Issue, contexts: map<string, CodeContext>)
    requires i.filePath !in contexts
    ensures Decide(i, contexts) == Keep
  {
  }

  // ---------------------------------------------------------------
  // Report
  // ---------------------------------------------------------------

  function LevelCount(issues: seq<Issue>, l: Level): (n: nat)
    ensures n <= |issues|
  {
    if |issues| == 0 then 0
    else LevelCount(issues[..|issues| - 1], l) + (if issues[|issues| - 1].level == l then 1 else 0)
  }

  /** No issue of level `l` exactly when the count is zero. */
  lemma {:induction false} LevelCountZero(issues: seq<Issue>, l: Level)
    ensures LevelCount(issues, l) == 0 <==> forall k :: 0 <= k < |issues| ==> issues[k].level != l
  {
    if |issues| > 0 {
      var init := issues[..|issues| - 1];
      LevelCountZero(init, l);
      assert forall k :: 0 <= k < |init| ==> init[k] == issues[k];
    }
  }

  /** The five counts add up to the number of issues. */
  lemma {:induction false} LevelCountsSum(issues: seq<Issue>)
    ensures LevelCount(issues, Blocker) + LevelCount(issues, Critical) + LevelCount(issues, Major)
            + LevelCount(issues, Minor) + LevelCount(issues, Info) == |issues|
  {
    if |issues| > 0 {
      LevelCountsSum(issues[..|issues| - 1]);
    }
  }

  function ByLevel(issues: seq<Issue>): map<Level, nat>
  {
    map l: Level | l in Levels :: LevelCount(issues, l)
  }

  predicate IsBlocker(i: Issue) { i.level == Blocker }

  predicate IsCritical(i: Issue) { i.level == Critical }

  datatype Report = Report(
    success: bool,
    totalFiles: nat,
    totalFunctions: nat,
    totalIssues: nat,
    byLevel: map<Level, nat>,
    criticalIssues: seq<Issue>)

  /** The report's verdict: no BLOCKER and no CRITICAL issue. */
  predicate Success(issues: seq<Issue>)
  {
    LevelCount(issues, Blocker) == 0 && LevelCount(issues, Critical) == 0
  }

  /** The issues the report lists: BLOCKERs, then CRITICALs, at most 20. */
  function CriticalList(issues: seq<Issue>): seq<Issue>
  {
    Take(Filter(issues, IsBlocker) + Filter(issues, IsCritical), 20)
  }

  /** Success holds exactly when every issue is MAJOR, MINOR or INFO, and
      then the critical list is empty; otherwise it is not, and it holds
      only BLOCKER and CRITICAL issues of the list, every BLOCKER before
      the first CRITICAL. */
  lemma ReportVerdict(issues: seq<Issue>)
    ensures Success(issues) <==> forall k :: 0 <= k < |issues| ==> issues[k].level !in {Blocker, Critical}
    ensures Success(issues) <==> CriticalList(issues) == []
    ensures |CriticalList(issues)| <= 20
    ensures forall k :: 0 <= k < |CriticalList(issues)| ==>
      CriticalList(issues)[k] in issues && CriticalList(issues)[k].level in {Blocker, Critical}
    ensures forall i :: 0 <= i < |CriticalList(issues)| ==>
      (CriticalList(issues)[i].level == Blocker <==> i < LevelCount(issues, Blocker))
  {
    LevelCountZero(issues, Blocker);
    LevelCountZero(issues, Critical);
    var b := Filter(issues, IsBlocker);
    var c := Filter(issues, IsCritical);
    BlockerCount(issues);
    var r := CriticalList(issues);
    assert r == (b + c)[..|r|];
    if !Success(issues) {
      var k :| 0 <= k < |issues| && issues[k].level in {Blocker, Critical};
      if issues[k].level == Blocker {
        FilterKeepsMember(issues, IsBlocker, issues[k]);
        assert |b| > 0;
      } else {
        FilterKeepsMember(issues, IsCritical, issues[k]);
        assert |c| > 0;
      }
      assert |r| > 0;
    }
    forall i | 0 <= i < |r|
      ensures r[i].level == Blocker <==> i < |b|
    {
      assert r[i] == (b + c)[i];
      if i < |b| {
        assert (b + c)[i] == b[i];
      } else {
        assert (b + c)[i] == c[i - |b|];
      }
    }
  }

  /** The blocker list is as long as the blocker count, and so for CRITICAL. */
  lemma {:induction false} BlockerCount(issues: seq<Issue>)
    ensures |Filter(issues, IsBlocker)| == LevelCount(issues, Blocker)
    ensures |Filter(issues, IsCritical)| == LevelCount(issues, Critical)
  {
    if |issues| > 0 {
      var init := issues[..|issues| - 1];
      var x := issues[|issues| - 1];
      assert issues == init + [x];
      BlockerCount(init);
      FilterSnoc(init, x, IsBlocker);
      FilterSnoc(init, x, IsCritical);
    }
  }

  // ---------------------------------------------------------------
  // The validator
  // ---------------------------------------------------------------

  class IntelligentValidatorV5 {
    var issues: seq<Issue>
    var functions: map<string, FunctionInfo>
    var contexts: map<string, CodeContext>

    constructor()
      ensures issues == [] && functions == map[] && contexts == map[]
    {
      issues := [];
      functions := map[];
      contexts := map[];
    }

    /** `add_issue`. */
    method AddIssue(i: Issue)
      modifies this
      ensures issues == old(issues) + [i]
      ensures functions == old(functions) && contexts == old(contexts)
    {
      issues := issues + [i];
    }

    /** `build_code_context`: one context per file. */
    method BuildCodeContext(files: seq<SourceFile>)
      modifies this
      ensures contexts == RecordContexts(old(contexts), files)
      ensures issues == old(issues) && functions == old(functions)
    {
      var k := 0;
      while k < |files|
        invariant 0 <= k <= |files|
        invariant contexts == RecordContexts(old(contexts), files[..k])
        invariant issues == old(issues) && functions == old(functions)
      {
        RecordContextsStep(old(contexts), files, k);
        var c := ContextOf(files[k].path, files[k].content);
        contexts := contexts[files[k].path := c];
        k := k + 1;
      }
      assert files[..|files|] == files;
    }

    /** `check_function_implementation`: the early return on an empty
        implementation, then the pattern loop. */
    method CheckFunctionImplementation(f: FunctionInfo)
      modifies this
      ensures issues == old(issues) + ImplementationIssues(f)
      ensures functions == old(functions) && contexts == old(contexts)
    {
      if !f.hasImplementation {
        AddIssue(Issue(f.filePath, f.lineNumber, EmptyImplementation(f.name), Critical, 1.0));
        return;
      }
      var clean := CleanCodeBody(f.body);
      CheckPatterns(f, clean, Suspicions);
    }

    /** The loop over the suspicious patterns. */
    method CheckPatterns(f: FunctionInfo, clean: string, pats: seq<Suspicion>)
      modifies this
      ensures issues == old(issues) + SuspiciousIssues(f, clean, pats)
      ensures functions == old(functions) && contexts == old(contexts)
    {
      var k := 0;
      while k < |pats|
        invariant 0 <= k <= |pats|
        invariant issues == old(issues) + SuspiciousIssues(f, clean, pats[..k])
        invariant functions == old(functions) && contexts == old(contexts)
      {
        assert pats[..k + 1][..k] == pats[..k];
        if Reported(f, clean, pats[k]) {
          AddIssue(SuspiciousIssue(f, pats[k]));
        }
        k := k + 1;
      }
      assert pats[..|pats|] == pats;
    }

    /** `analyze_kotlin_file`: store every function found and check those
        that need an implementation. */
    method AnalyzeKotlinFile(path: string, content: string, ctx: CodeContext)
      modifies this
      ensures functions == Register(old(functions), path, Parse(Split(content, '\n'), 0, path, ctx))
      ensures issues == old(issues) + CheckedIssues(Parse(Split(content, '\n'), 0, path, ctx))
      ensures contexts == old(contexts)
    {
      var fs := ParseKotlinFunctions(path, content, ctx);
      RecordFunctions(path, fs);
    }

    /** The loop over one file's functions. */
    method RecordFunctions(path: string, fs: seq<FunctionInfo>)
      modifies this
      ensures functions == Register(old(functions), path, fs)
      ensures issues == old(issues) + CheckedIssues(fs)
      ensures contexts == old(contexts)
    {
      var k := 0;
      while k < |fs|
        invariant 0 <= k <= |fs|
        invariant Register(functions, path, fs[k..]) == Register(old(functions), path, fs)
        invariant issues == old(issues) + CheckedIssues(fs[..k])
        invariant contexts == old(contexts)
      {
        assert fs[..k + 1][..k] == fs[..k];
        assert fs[k..][1..] == fs[k + 1..];
        ghost var done := CheckedIssues(fs[..k]);
        ghost var found: seq<Issue> := [];
        functions := functions[FunctionKey(path, fs[k].name) := fs[k]];
        if ShouldCheckImplementation(fs[k]) {
          CheckFunctionImplementation(fs[k]);
          found := ImplementationIssues(fs[k]);
        }
        assert CheckedIssues(fs[..k + 1]) == done + found;
        AppendAssoc(old(issues), done, found);
        k := k + 1;
      }
      assert fs[..|fs|] == fs;
    }

    /** `analyze_code_intelligently`: every file that has a context. */
    method AnalyzeCodeIntelligently(files: seq<SourceFile>)
      modifies this
      ensures functions == AnalysisFunctions(old(functions), files, contexts)
      ensures issues == old(issues) + AnalysisIssues(files, contexts)
      ensures contexts == old(contexts)
    {
      var k := 0;
      while k < |files|
        invariant 0 <= k <= |files|
        invariant AnalysisFunctions(functions, files[k..], contexts) == AnalysisFunctions(old(functions), files, contexts)
        invariant issues == old(issues) + AnalysisIssues(files[..k], contexts)
        invariant contexts == old(contexts)
      {
        assert files[k..][1..] == files[k + 1..];
        ghost var before := issues;
        AnalyzeFile(files[k]);
        AnalysisIssuesStep(files, k, contexts);
        AppendAssoc(old(issues), AnalysisIssues(files[..k], contexts), FileIssues(files[k], contexts));
        k := k + 1;
      }
      assert files[..|files|] == files;
    }

    /** One pass of the file loop. */
    method AnalyzeFile(f: SourceFile)
      modifies this
      ensures functions == if f.path in contexts then Register(old(functions), f.path, FileFunctions(f, contexts[f.path])) else old(functions)
      ensures issues == old(issues) + FileIssues(f, contexts)
      ensures contexts == old(contexts)
    {
      if f.path in contexts {
        AnalyzeKotlinFile(f.path, f.content, contexts[f.path]);
      }
    }

    /** `check_navigation_completeness`: one BLOCKER per navigation target
        that no NavHost declares. `order` is the order in which the set of
        missing routes is visited. */
    method CheckNavigationCompleteness(files: seq<SourceFile>) returns (ghost order: seq<string>)
      modifies this
      ensures Distinct(order)
      ensures forall r :: r in order <==> r in NavCalls(functions) && r !in ComposableRoutes(files, contexts)
      ensures issues == old(issues) + MissingRouteIssues(order)
      ensures functions == old(functions) && contexts == old(contexts)
    {
      order := ReportMissingRoutes(NavCalls(functions) - ComposableRoutes(files, contexts));
    }

    /** The issue loop over the set of missing routes. */
    method ReportMissingRoutes(missing: set<string>) returns (ghost order: seq<string>)
      modifies this
      ensures Distinct(order)
      ensures forall r :: r in order <==> r in missing
      ensures issues == old(issues) + MissingRouteIssues(order)
      ensures functions == old(functions) && contexts == old(contexts)
    {
      var found;
      found, order := MissingRouteOrder(missing);
      issues := issues + found;
    }

    /** The loop over the missing routes, in the order the set yields them:
        one issue per route. */
    method MissingRouteOrder(missing: set<string>) returns (found: seq<Issue>, ghost order: seq<string>)
      ensures Distinct(order)
      ensures forall r :: r in order <==> r in missing
      ensures found == MissingRouteIssues(order)
    {
      var left := missing;
      order := [];
      found := [];
      while left != {}
        invariant left <= missing
        invariant Distinct(order)
        invariant Elems(order) == missing - left
        invariant found == MissingRouteIssues(order)
        decreases |left|
      {
        var r :| r in left;
        DistinctSnoc(order, r);
        ElemsSnoc(order, r);
        TakeOne(missing, left, r);
        RouteIssuesSnoc(order, r);
        left := left - {r};
        order := order + [r];
        found := found + [MissingRouteIssue(r)];
      }
    }

    /** `validate_dependency_injection`: one MAJOR issue per injected type
        without a provider. */
    method ValidateDependencyInjection(files: seq<SourceFile>)
      modifies this
      ensures issues == old(issues) + ProviderIssues(MissingProviders(files, contexts))
      ensures functions == old(functions) && contexts == old(contexts)
    {
      var needed: seq<string> := [];
      var provided: set<string> := {};
      var k := 0;
      while k < |files|
        invariant 0 <= k <= |files|
        invariant needed == NeededTypes(files[..k], contexts)
        invariant provided == ProvidedTypes(files[..k], contexts)
        invariant issues == old(issues) && functions == old(functions) && contexts == old(contexts)
      {
        DiScanStep(files, k, contexts);
        var f := files[k];
        if f.path in contexts {
          needed := AddInjected(needed, DiCaptures(InjectPattern, f.content, 0));
          provided := provided + Elems(DiCaptures(ProvidesPattern, f.content, 0))
                               + Elems(DiCaptures(BindsPattern, f.content, 0));
        }
        k := k + 1;
      }
      assert files[..|files|] == files;
      ReportMissing(needed, provided + AutoProvided);
    }

    /** The issue loop over the needed types. */
    method ReportMissing(needed: seq<string>, excluded: set<string>)
      modifies this
      ensures issues == old(issues) + ProviderIssues(Unprovided(needed, excluded))
      ensures functions == old(functions) && contexts == old(contexts)
    {
      var k := 0;
      ghost var reported := ProviderIssues(Unprovided(needed[..0], excluded));
      while k < |needed|
        invariant 0 <= k <= |needed|
        invariant reported == ProviderIssues(Unprovided(needed[..k], excluded))
        invariant issues == old(issues) + reported
        invariant functions == old(functions) && contexts == old(contexts)
      {
        ProviderStep(needed, excluded, k);
        ghost var found: seq<Issue> := [];
        if needed[k] !in excluded {
          AddIssue(MissingProviderIssue(needed[k]));
          found := [MissingProviderIssue(needed[k])];
        }
        AppendAssoc(old(issues), reported, found);
        reported := reported + found;
        k := k + 1;
      }
      assert needed[..|needed|] == needed;
    }

    /** `filter_false_positives`: on success the kept issues replace the
        list; when the data-class rule raises, the list is left as it was. */
    method FilterFalsePositives() returns (ok: bool)
      modifies this
      ensures ok <==> FilterOutcome(old(issues), contexts).Some?
      ensures ok ==> issues == FilterOutcome(old(issues), contexts).value
      ensures !ok ==> issues == old(issues)
      ensures functions == old(functions) && contexts == old(contexts)
    {
      var filtered: seq<Issue> := [];
      var k := 0;
      while k < |issues|
        invariant 0 <= k <= |issues|
        invariant FilterOutcome(issues[..k], contexts) == Some(filtered)
      {
        assert issues[..k + 1][..k] == issues[..k];
        var d := Decide(issues[k], contexts);
        if d == Fail {
          FailurePersists(issues, contexts, k + 1);
          return false;
        }
        if d == Keep {
          filtered := filtered + [issues[k]];
        }
        k := k + 1;
      }
      assert issues[..|issues|] == issues;
      issues := filtered;
      ok := true;
    }

    /** `generate_comprehensive_report`: the verdict, the counts and the
        critical list. */
    method GenerateComprehensiveReport() returns (r: Report)
      ensures r.success <==> Success(issues)
      ensures r.totalFiles == |contexts| && r.totalFunctions == |functions| && r.totalIssues == |issues|
      ensures r.byLevel == ByLevel(issues)
      ensures r.criticalIssues == CriticalList(issues)
    {
      var byLevel := LevelStats();
      var critical := Filter(issues, IsBlocker) + Filter(issues, IsCritical);
      r := Report(byLevel[Blocker] == 0 && byLevel[Critical] == 0,
                  |contexts|, |functions|, |issues|, byLevel, Take(critical, 20));
    }

    /** The per-level counts: tallied over the issues, then every level the
        printed summary reads is present. */
    method LevelStats() returns (byLevel: map<Level, nat>)
      ensures byLevel == ByLevel(issues)
    {
      byLevel := map[];
      var k := 0;
      while k < |issues|
        invariant 0 <= k <= |issues|
        invariant forall l :: l in byLevel <==> LevelCount(issues[..k], l) > 0
        invariant forall l :: l in byLevel ==> byLevel[l] == LevelCount(issues[..k], l)
      {
        assert issues[..k + 1][..k] == issues[..k];
        var l := issues[k].level;
        var c := if l in byLevel then byLevel[l] else 0;
        byLevel := byLevel[l := c + 1];
        k := k + 1;
      }
      assert issues[..|issues|] == issues;
      // the printed summary touches every level of the default dictionary
      var j := 0;
      while j < |Levels|
        invariant 0 <= j <= |Levels|
        invariant forall l :: l in byLevel ==> byLevel[l] == LevelCount(issues, l)
        invariant forall l :: LevelCount(issues, l) > 0 ==> l in byLevel
        invariant forall i :: 0 <= i < j ==> Levels[i] in byLevel
      {
        if Levels[j] !in byLevel {
          byLevel := byLevel[Levels[j] := 0];
        }
        j := j + 1;
      }
      AllLevels();
    }
  }

  /** Once a prefix makes the filter raise, so does the whole list. */
  lemma {:induction false} FailurePersists(issues: seq<Issue>, contexts: map<string, CodeContext>, n: nat)
    requires n <= |issues|
    requires FilterOutcome(issues[..n], contexts).None?
    decreases |issues| - n
    ensures FilterOutcome(issues, contexts).None?
  {
    if n == |issues| {
      assert issues[..n] == issues;
    } else {
      assert issues[..n + 1][..n] == issues[..n];
      FailurePersists(issues, contexts, n + 1);
    }
  }

  /** The injection loop over one file's captured types. */
  method AddInjected(acc: seq<string>, xs: seq<string>) returns (r: seq<string>)
    ensures r == AddNew(acc, xs)
  {
    r := acc;
    var k := 0;
    while k < |xs|
      invariant 0 <= k <= |xs|
      invariant r == AddNew(acc, xs[..k])
    {
      assert xs[..k + 1][..k] == xs[..k];
      if xs[k] !in r {
        r := r + [xs[k]];
      }
      k := k + 1;
    }
    assert xs[..|xs|] == xs;
  }
}
