/** The intelligent validator, version 4. It parses every Kotlin function of
    the tree with one regular expression and derives substring facts about
    its body. It then applies rules for ViewModel functions, Repository
    functions, navigation targets, fake API implementations and
    dependency injection. The directory walk and the file reads are an
    input: the walk's list of Kotlin files and the contents of those files
    that can be read. Reading a missing file raises, except in
    `parse_kotlin_file`, which catches it. */
module IntelligentV4 {
  import opened Text
  import opened Seqs
  import opened KotlinPatterns
  import opened IntelligentV4Patterns

  datatype Level = Blocker | Critical | Major | Minor

  datatype Kind =
    | EmptyImplementation
    | IncompleteUiUpdate
    | MissingErrorHandling
    | MissingPersistence
    | MissingScreen
    | FakeImplementation(pattern: FakePattern)
    | MissingDependencyProvider(missing: set<string>)
    | MissingCoroutineScope

  /** A recorded issue: the file (or the pseudo-file of a global rule), its
      type, its level, the function or route it is about, and the
      confidence. */
  datatype Issue = Issue(file: string, kind: Kind, level: Level, subject: string, confidence: real)

  /** The Kotlin files the walk of `app/src/main` yields, in walk order, and
      the text of each file that can be read. */
  datatype Workspace = Workspace(kotlinFiles: seq<string>, contents: map<string, string>)

  predicate AllReadable(ws: Workspace)
  {
    forall k :: 0 <= k < |ws.kotlinFiles| ==> ws.kotlinFiles[k] in ws.contents
  }

  // ---------------------------------------------------------------
  // Function facts
  // ---------------------------------------------------------------

  datatype FunctionAnalysis = FunctionAnalysis(
    name: string, filePath: string, hasImplementation: bool, callsApi: bool,
    handlesErrors: bool, updatesUi: bool, savesData: bool, hasReturn: bool)

  /** The facts `parse_kotlin_file` derives from one header match. */
  function Analyze(path: string, m: FunMatch): (a: FunctionAnalysis)
    ensures a.name == m.name && a.filePath == path
    ensures a.hasImplementation <==> exists q :: 0 <= q < |m.body| && !IsSpace(m.body[q])
  {
    var body := m.body;
    var low := Lower(body);
    FunctionAnalysis(
      m.name, path,
      Strip(body) != [],
      Contains(low, "api") || Contains(low, "service"),
      Contains(body, "try") || Contains(body, "catch") || Contains(body, ".onFailure"),
      Contains(body, "_uiState") || Contains(body, "_state") || Contains(body, "mutableStateOf"),
      Contains(body, "save") || Contains(body, "insert") || Contains(body, "update") || Contains(body, "dataStore"),
      Contains(body, "return") || (m.returnType.Some? && Strip(m.returnType.value) != ": Unit"))
  }

  /** The facts are substring tests on the body alone: two matches with the
      same body in the same file agree on every fact but the name. */
  lemma {:induction false} FactsDependOnBody(path: string, m1: FunMatch, m2: FunMatch)
    requires m1.body == m2.body && m1.returnType == m2.returnType
    ensures Analyze(path, m1).(name := "") == Analyze(path, m2).(name := "")
  {
  }

  /** The key of a function in the table: `file::name`. */
  function Key(path: string, name: string): string
  {
    path + "::" + name
  }

  /** Distinct names in one file have distinct keys. */
  lemma KeyInjective(path: string, a: string, b: string)
    requires a != b
    ensures Key(path, a) != Key(path, b)
  {
    assert Key(path, a)[|path| + 2..] == a;
    assert Key(path, b)[|path| + 2..] == b;
  }

  // ---------------------------------------------------------------
  // The function table: a dict kept as its list of items
  // ---------------------------------------------------------------

  datatype Entry = Entry(key: string, analysis: FunctionAnalysis)

  predicate UniqueKeys(t: seq<Entry>)
  {
    forall i, j :: 0 <= i < j < |t| ==> t[i].key != t[j].key
  }

  /** `d[key]`, or None when the key is absent. */
  function Lookup(t: seq<Entry>, key: string): (r: Option<FunctionAnalysis>)
    ensures r.None? <==> forall i :: 0 <= i < |t| ==> t[i].key != key
  {
    if |t| == 0 then None
    else if t[0].key == key then Some(t[0].analysis)
    else
      var r := Lookup(t[1..], key);
      assert forall i :: 1 <= i < |t| ==> t[i] == t[1..][i - 1];
      r
  }

  /** `d[key] = v`: a key already present keeps its place, a new key goes
      last. */
  function Put(t: seq<Entry>, key: string, v: FunctionAnalysis): seq<Entry>
  {
    if |t| == 0 then [Entry(key, v)]
    else if t[0].key == key then [Entry(key, v)] + t[1..]
    else [t[0]] + Put(t[1..], key, v)
  }

  /** After `d[key] = v`, `key` maps to `v` and every other key to what it
      mapped to before. */
  lemma {:induction false} PutLookup(t: seq<Entry>, key: string, v: FunctionAnalysis, other: string)
    ensures Lookup(Put(t, key, v), other) == if other == key then Some(v) else Lookup(t, other)
  {
    if |t| > 0 && t[0].key != key {
      PutLookup(t[1..], key, v, other);
    }
  }

  /** `d[key] = v` keeps the order of the keys already present and adds a
      new key at the end. */
  lemma {:induction false} PutOrder(t: seq<Entry>, key: string, v: FunctionAnalysis)
    ensures |Put(t, key, v)| == |t| + (if Lookup(t, key).None? then 1 else 0)
    ensures forall i :: 0 <= i < |t| ==> Put(t, key, v)[i].key == t[i].key
    ensures Lookup(t, key).None? ==> Put(t, key, v)[|t|].key == key
  {
    if |t| > 0 && t[0].key != key {
      PutOrder(t[1..], key, v);
      assert forall i :: 1 <= i < |t| ==> t[i] == t[1..][i - 1];
    }
  }

  /** The table never holds a key twice. */
  lemma PutUnique(t: seq<Entry>, key: string, v: FunctionAnalysis)
    requires UniqueKeys(t)
    ensures UniqueKeys(Put(t, key, v))
  {
    PutOrder(t, key, v);
  }

  /** The table after the matches of one file are stored in order. */
  function Store(t: seq<Entry>, path: string, ms: seq<FunMatch>): seq<Entry>
  {
    if |ms| == 0 then t
    else
      var m := ms[|ms| - 1];
      Put(Store(t, path, ms[..|ms| - 1]), Key(path, m.name), Analyze(path, m))
  }

  /** For each name, the table keeps the facts of the last function of that
      name in the file. */
  lemma {:induction false} StoreLastWins(t: seq<Entry>, path: string, ms: seq<FunMatch>, j: nat)
    requires j < |ms|
    requires forall k :: j < k < |ms| ==> ms[k].name != ms[j].name
    ensures Lookup(Store(t, path, ms), Key(path, ms[j].name)) == Some(Analyze(path, ms[j]))
  {
    var init := ms[..|ms| - 1];
    var last := ms[|ms| - 1];
    PutLookup(Store(t, path, init), Key(path, last.name), Analyze(path, last), Key(path, ms[j].name));
    if j < |ms| - 1 {
      KeyInjective(path, last.name, ms[j].name);
      assert init[j] == ms[j];
      StoreLastWins(t, path, init, j);
    }
  }

  /** Storing one more match of the file. */
  lemma StoreStep(t: seq<Entry>, path: string, ms: seq<FunMatch>, k: nat)
    requires k < |ms|
    ensures Store(t, path, ms[..k + 1]) == Put(Store(t, path, ms[..k]), Key(path, ms[k].name), Analyze(path, ms[k]))
  {
    assert ms[..k + 1][..k] == ms[..k];
  }

  /** Keys that no function of the file produces are left alone. */
  lemma {:induction false} StoreOthers(t: seq<Entry>, path: string, ms: seq<FunMatch>, key: string)
    requires forall k :: 0 <= k < |ms| ==> Key(path, ms[k].name) != key
    ensures Lookup(Store(t, path, ms), key) == Lookup(t, key)
  {
    if |ms| > 0 {
      var init := ms[..|ms| - 1];
      var last := ms[|ms| - 1];
      PutLookup(Store(t, path, init), Key(path, last.name), Analyze(path, last), key);
      StoreOthers(t, path, init, key);
    }
  }

  /** Storing keeps the keys unique and the earlier keys in their places. */
  lemma {:induction false} StoreOrder(t: seq<Entry>, path: string, ms: seq<FunMatch>)
    requires UniqueKeys(t)
    ensures UniqueKeys(Store(t, path, ms))
    ensures |Store(t, path, ms)| >= |t|
    ensures forall i :: 0 <= i < |t| ==> Store(t, path, ms)[i].key == t[i].key
  {
    if |ms| > 0 {
      var init := ms[..|ms| - 1];
      var last := ms[|ms| - 1];
      StoreOrder(t, path, init);
      PutOrder(Store(t, path, init), Key(path, last.name), Analyze(path, last));
      PutUnique(Store(t, path, init), Key(path, last.name), Analyze(path, last));
    }
  }

  /** The body holds only whitespace. */
  predicate IsBlank(m: FunMatch)
  {
    forall q :: 0 <= q < |m.body| ==> IsSpace(m.body[q])
  }

  /** The issue `parse_kotlin_file` records for a match of `path`: one
      CRITICAL `empty_implementation` issue when the body is blank. */
  function EmptyIssueIn(path: string): FunMatch -> seq<Issue>
  {
    m => if IsBlank(m) then [Issue(path, EmptyImplementation, Critical, m.name, 1.0)] else []
  }

  /** A body is blank exactly when the facts say it has no implementation. */
  lemma BlankIffNoImplementation(path: string, m: FunMatch)
    ensures IsBlank(m) <==> !Analyze(path, m).hasImplementation
  {
  }

  /** A file's matches give one issue per blank body. */
  lemma {:induction false} EmptyIssuesCount(path: string, ms: seq<FunMatch>)
    ensures |FlatMap(ms, EmptyIssueIn(path))| == Count(ms, IsBlank)
  {
    if |ms| > 0 {
      var init := ms[..|ms| - 1];
      var last := ms[|ms| - 1];
      EmptyIssuesCount(path, init);
      CountLast(ms, IsBlank);
    }
  }

  /** The issues are exactly those of the blank bodies. */
  lemma EmptyIssuesIff(path: string, ms: seq<FunMatch>, x: Issue)
    ensures x in FlatMap(ms, EmptyIssueIn(path)) <==>
      exists k :: 0 <= k < |ms| && IsBlank(ms[k]) && x == Issue(path, EmptyImplementation, Critical, ms[k].name, 1.0)
  {
    if x in FlatMap(ms, EmptyIssueIn(path)) {
      var k := FlatMapSound(ms, EmptyIssueIn(path), x);
    }
    if exists k :: 0 <= k < |ms| && IsBlank(ms[k]) && x == Issue(path, EmptyImplementation, Critical, ms[k].name, 1.0) {
      var k :| 0 <= k < |ms| && IsBlank(ms[k]) && x == Issue(path, EmptyImplementation, Critical, ms[k].name, 1.0);
      FlatMapComplete(ms, EmptyIssueIn(path), k, x);
    }
  }

  /** The table after `analyze_code_structure` has parsed `paths`; an
      unreadable file adds nothing. */
  function Parsed(t: seq<Entry>, ws: Workspace, paths: seq<string>): seq<Entry>
  {
    if |paths| == 0 then t
    else
      var path := paths[|paths| - 1];
      var before := Parsed(t, ws, paths[..|paths| - 1]);
      if path in ws.contents then Store(before, path, FunMatches(ws.contents[path], 0)) else before
  }

  /** The issues parsing `paths` records. */
  function ParseIssues(ws: Workspace, paths: seq<string>): seq<Issue>
  {
    if |paths| == 0 then []
    else
      var path := paths[|paths| - 1];
      var before := ParseIssues(ws, paths[..|paths| - 1]);
      if path in ws.contents then before + FlatMap(FunMatches(ws.contents[path], 0), EmptyIssueIn(path)) else before
  }

  /** Parsing keeps the keys unique and the earlier keys in their places. */
  lemma {:induction false} ParsedOrder(t: seq<Entry>, ws: Workspace, paths: seq<string>)
    requires UniqueKeys(t)
    ensures UniqueKeys(Parsed(t, ws, paths))
    ensures |Parsed(t, ws, paths)| >= |t|
    ensures forall i :: 0 <= i < |t| ==> Parsed(t, ws, paths)[i].key == t[i].key
  {
    if |paths| > 0 {
      var path := paths[|paths| - 1];
      var before := Parsed(t, ws, paths[..|paths| - 1]);
      ParsedOrder(t, ws, paths[..|paths| - 1]);
      if path in ws.contents {
        StoreOrder(before, path, FunMatches(ws.contents[path], 0));
      }
    }
  }

  // ---------------------------------------------------------------
  // The semantic rules
  // ---------------------------------------------------------------

  /** `check_viewmodel_completeness` for one item. */
  function ViewModelIssues(e: Entry): seq<Issue>
  {
    var a := e.analysis;
    if Contains(e.key, "ViewModel") && a.callsApi then
      (if a.updatesUi then [] else [Issue(a.filePath, IncompleteUiUpdate, Critical, a.name, 1.0)])
      + (if a.handlesErrors then [] else [Issue(a.filePath, MissingErrorHandling, Major, a.name, 1.0)])
    else []
  }

  /** An item of a ViewModel key that calls an API gets a CRITICAL issue
      when it updates no UI state and a MAJOR one when it handles no error,
      independently; no other item gets either. */
  lemma ViewModelRule(t: seq<Entry>, x: Issue)
    ensures x in FlatMap(t, ViewModelIssues) <==>
      exists i :: 0 <= i < |t| && Contains(t[i].key, "ViewModel") && t[i].analysis.callsApi &&
        ((!t[i].analysis.updatesUi && x == Issue(t[i].analysis.filePath, IncompleteUiUpdate, Critical, t[i].analysis.name, 1.0))
         || (!t[i].analysis.handlesErrors && x == Issue(t[i].analysis.filePath, MissingErrorHandling, Major, t[i].analysis.name, 1.0)))
  {
    if x in FlatMap(t, ViewModelIssues) {
      var i := FlatMapSound(t, ViewModelIssues, x);
    }
    if exists i :: 0 <= i < |t| && Contains(t[i].key, "ViewModel") && t[i].analysis.callsApi &&
        ((!t[i].analysis.updatesUi && x == Issue(t[i].analysis.filePath, IncompleteUiUpdate, Critical, t[i].analysis.name, 1.0))
         || (!t[i].analysis.handlesErrors && x == Issue(t[i].analysis.filePath, MissingErrorHandling, Major, t[i].analysis.name, 1.0))) {
      var i :| 0 <= i < |t| && Contains(t[i].key, "ViewModel") && t[i].analysis.callsApi &&
        ((!t[i].analysis.updatesUi && x == Issue(t[i].analysis.filePath, IncompleteUiUpdate, Critical, t[i].analysis.name, 1.0))
         || (!t[i].analysis.handlesErrors && x == Issue(t[i].analysis.filePath, MissingErrorHandling, Major, t[i].analysis.name, 1.0)));
      FlatMapComplete(t, ViewModelIssues, i, x);
    }
  }

  /** `check_repository_completeness` for one item. */
  function RepositoryIssues(e: Entry): seq<Issue>
  {
    var a := e.analysis;
    var low := Lower(a.name);
    if Contains(e.key, "Repository") && (Contains(low, "save") || Contains(low, "update")) && !a.savesData
    then [Issue(a.filePath, MissingPersistence, Critical, a.name, 1.0)]
    else []
  }

  /** An item of a Repository key whose name mentions saving or updating
      but whose body saves nothing gets a CRITICAL issue; no other item
      gets one. */
  lemma RepositoryRule(t: seq<Entry>, x: Issue)
    ensures x in FlatMap(t, RepositoryIssues) <==>
      exists i :: 0 <= i < |t| && Contains(t[i].key, "Repository") && !t[i].analysis.savesData &&
        (Contains(Lower(t[i].analysis.name), "save") || Contains(Lower(t[i].analysis.name), "update")) &&
        x == Issue(t[i].analysis.filePath, MissingPersistence, Critical, t[i].analysis.name, 1.0)
  {
    if x in FlatMap(t, RepositoryIssues) {
      var i := FlatMapSound(t, RepositoryIssues, x);
    }
    if exists i :: 0 <= i < |t| && Contains(t[i].key, "Repository") && !t[i].analysis.savesData &&
        (Contains(Lower(t[i].analysis.name), "save") || Contains(Lower(t[i].analysis.name), "update")) &&
        x == Issue(t[i].analysis.filePath, MissingPersistence, Critical, t[i].analysis.name, 1.0) {
      var i :| 0 <= i < |t| && Contains(t[i].key, "Repository") && !t[i].analysis.savesData &&
        (Contains(Lower(t[i].analysis.name), "save") || Contains(Lower(t[i].analysis.name), "update")) &&
        x == Issue(t[i].analysis.filePath, MissingPersistence, Critical, t[i].analysis.name, 1.0);
      FlatMapComplete(t, RepositoryIssues, i, x);
    }
  }

  // Navigation and dependency injection read every Kotlin file.

  function NavigateTargets(c: string): seq<string> { QuotedCalls(c, 0, "navigate", IsNotQuote) }
  function ComposableRoutes(c: string): seq<string> { QuotedCalls(c, 0, "composable", IsNotQuote) }
  function InjectedNames(c: string): seq<string> { Injections(c, 0) }
  function ProvidedNames(c: string): seq<string> { Provisions(c, 0) }

  /** The union of `find` over the readable files among `paths`. */
  function Gathered(ws: Workspace, paths: seq<string>, find: string -> seq<string>): set<string>
  {
    if |paths| == 0 then {}
    else
      var path := paths[|paths| - 1];
      Gathered(ws, paths[..|paths| - 1], find) + (if path in ws.contents then Elems(find(ws.contents[path])) else {})
  }

  /** A name is gathered exactly when some readable file yields it. */
  lemma {:induction false} GatheredIff(ws: Workspace, paths: seq<string>, find: string -> seq<string>, x: string)
    ensures x in Gathered(ws, paths, find) <==>
      exists k :: 0 <= k < |paths| && paths[k] in ws.contents && x in find(ws.contents[paths[k]])
  {
    if |paths| > 0 {
      var init := paths[..|paths| - 1];
      GatheredIff(ws, init, find, x);
      assert forall k :: 0 <= k < |init| ==> init[k] == paths[k];
    }
  }

  function MissingScreenIssue(route: string): Issue
  {
    Issue("Navigation", MissingScreen, Blocker, route, 1.0)
  }

  function MissingScreenIssues(order: seq<string>): (r: seq<Issue>)
    ensures |r| == |order|
    ensures forall i :: 0 <= i < |r| ==> r[i] == MissingScreenIssue(order[i])
  {
    if |order| == 0 then [] else MissingScreenIssues(order[..|order| - 1]) + [MissingScreenIssue(order[|order| - 1])]
  }

  lemma ScreenIssuesSnoc(order: seq<string>, route: string)
    ensures MissingScreenIssues(order + [route]) == MissingScreenIssues(order) + [MissingScreenIssue(route)]
  {
    assert (order + [route])[..|order|] == order;
  }

  /** The one MAJOR issue of the dependency-injection check, naming the
      injected names nobody provides. */
  function DependencyIssue(missing: set<string>): Issue
  {
    Issue("Dependency Injection", MissingDependencyProvider(missing), Major, "", 1.0)
  }

  // The API check

  // The API and asynchronous-operation checks open the file of each item
  // they select, and raise at the first one that cannot be read.

  /** The API check opens the files of the items that call an API. */
  predicate CallsApi(e: Entry) { e.analysis.callsApi }

  /** The asynchronous-operation check opens the files of the items whose
      key mentions `suspend`. */
  predicate SuspendKey(e: Entry) { Contains(e.key, "suspend") }

  /** A check that opens the files of the items `opens` selects fails to
      read this item's file: it raises here. */
  predicate ReadBlocked(contents: map<string, string>, opens: Entry -> bool, e: Entry)
  {
    opens(e) && e.analysis.filePath !in contents
  }

  /** The position of the first item such a check fails to read, or the
      number of items. */
  function FirstBlocked(t: seq<Entry>, contents: map<string, string>, opens: Entry -> bool): (i: nat)
    ensures i <= |t|
    ensures forall j :: 0 <= j < i ==> !ReadBlocked(contents, opens, t[j])
    ensures i < |t| ==> ReadBlocked(contents, opens, t[i])
  {
    if |t| == 0 then 0
    else if ReadBlocked(contents, opens, t[0]) then 0
    else
      var i := FirstBlocked(t[1..], contents, opens);
      assert forall j :: 1 <= j < |t| ==> t[j] == t[1..][j - 1];
      1 + i
  }

  /** `check_api_completeness` for one readable item: when the file
      mentions `suspend` and the name, the body is extracted and the first
      fake pattern found in it, if any, gives one CRITICAL issue of
      confidence 0.8. */
  function ApiIssue(contents: map<string, string>, e: Entry): (r: seq<Issue>)
    ensures |r| <= 1
    ensures r != [] ==> r[0].level == Critical && r[0].confidence == 0.8 && r[0].subject == e.analysis.name
    ensures r != [] ==> e.analysis.callsApi && e.analysis.filePath in contents
    ensures r != [] ==> (r[0].kind.FakeImplementation? &&
      FirstFake(Lower(ExtractBody(contents[e.analysis.filePath], e.analysis.name))) == Some(r[0].kind.pattern))
  {
    var a := e.analysis;
    if !a.callsApi || a.filePath !in contents then []
    else
      var c := contents[a.filePath];
      if !(Contains(c, "suspend") && Contains(c, a.name)) then []
      else
        match FirstFake(Lower(ExtractBody(c, a.name)))
        case Some(pat) => [Issue(a.filePath, FakeImplementation(pat), Critical, a.name, 0.8)]
        case None => []
  }

  /** The API rule reports exactly for an API-calling function whose file
      was read, holds `suspend` and the function's name, and whose
      extracted body shows one of the fake-implementation patterns. */
  lemma ApiIssueIff(contents: map<string, string>, e: Entry)
    ensures ApiIssue(contents, e) != [] <==>
      (e.analysis.callsApi && e.analysis.filePath in contents &&
       Contains(contents[e.analysis.filePath], "suspend") &&
       Contains(contents[e.analysis.filePath], e.analysis.name) &&
       FirstFake(Lower(ExtractBody(contents[e.analysis.filePath], e.analysis.name))).Some?)
  {
  }

  function ApiIssueIn(contents: map<string, string>): Entry -> seq<Issue>
  {
    e => ApiIssue(contents, e)
  }

  /** `check_async_operations` for one item: an item whose key mentions
      `suspend`, in a readable file whose path mentions `ViewModel` and
      whose text mentions neither `viewModelScope` nor `lifecycleScope`,
      gets one MAJOR issue; no other item gets one. */
  function AsyncIssue(contents: map<string, string>, e: Entry): (r: seq<Issue>)
    ensures |r| <= 1
    ensures r != [] <==>
      SuspendKey(e) && e.analysis.filePath in contents && Contains(e.analysis.filePath, "ViewModel") &&
      !Contains(contents[e.analysis.filePath], "viewModelScope") &&
      !Contains(contents[e.analysis.filePath], "lifecycleScope")
    ensures r != [] ==> r[0] == Issue(e.analysis.filePath, MissingCoroutineScope, Major, e.analysis.name, 1.0)
  {
    var a := e.analysis;
    if !SuspendKey(e) || a.filePath !in contents then []
    else
      var c := contents[a.filePath];
      if !Contains(c, "viewModelScope") && !Contains(c, "lifecycleScope") && Contains(a.filePath, "ViewModel")
      then [Issue(a.filePath, MissingCoroutineScope, Major, a.name, 1.0)]
      else []
  }

  function AsyncIssueIn(contents: map<string, string>): Entry -> seq<Issue>
  {
    e => AsyncIssue(contents, e)
  }

  /** Over a table, the asynchronous-operation check reports exactly the
      `suspend` items of readable ViewModel files that use neither
      coroutine scope, once each. */
  lemma AsyncRule(t: seq<Entry>, contents: map<string, string>, x: Issue)
    ensures x in FlatMap(t, AsyncIssueIn(contents)) <==>
      exists i :: 0 <= i < |t| && SuspendKey(t[i]) && t[i].analysis.filePath in contents &&
        Contains(t[i].analysis.filePath, "ViewModel") &&
        !Contains(contents[t[i].analysis.filePath], "viewModelScope") &&
        !Contains(contents[t[i].analysis.filePath], "lifecycleScope") &&
        x == Issue(t[i].analysis.filePath, MissingCoroutineScope, Major, t[i].analysis.name, 1.0)
  {
    if x in FlatMap(t, AsyncIssueIn(contents)) {
      var i := FlatMapSound(t, AsyncIssueIn(contents), x);
    }
    if exists i :: 0 <= i < |t| && SuspendKey(t[i]) && t[i].analysis.filePath in contents &&
        Contains(t[i].analysis.filePath, "ViewModel") &&
        !Contains(contents[t[i].analysis.filePath], "viewModelScope") &&
        !Contains(contents[t[i].analysis.filePath], "lifecycleScope") &&
        x == Issue(t[i].analysis.filePath, MissingCoroutineScope, Major, t[i].analysis.name, 1.0) {
      var i :| 0 <= i < |t| && SuspendKey(t[i]) && t[i].analysis.filePath in contents &&
        Contains(t[i].analysis.filePath, "ViewModel") &&
        !Contains(contents[t[i].analysis.filePath], "viewModelScope") &&
        !Contains(contents[t[i].analysis.filePath], "lifecycleScope") &&
        x == Issue(t[i].analysis.filePath, MissingCoroutineScope, Major, t[i].analysis.name, 1.0);
      FlatMapComplete(t, AsyncIssueIn(contents), i, x);
    }
  }

  // ---------------------------------------------------------------
  // Report
  // ---------------------------------------------------------------

  function LevelCount(issues: seq<Issue>, level: Level): (n: nat)
    ensures n <= |issues|
    ensures n == 0 <==> forall i :: i in issues ==> i.level != level
  {
    if |issues| == 0 then 0
    else LevelCount(issues[..|issues| - 1], level) + (if issues[|issues| - 1].level == level then 1 else 0)
  }

  /** The four level counts add up to the number of issues. */
  lemma {:induction false} LevelCountsSum(issues: seq<Issue>)
    ensures LevelCount(issues, Blocker) + LevelCount(issues, Critical)
            + LevelCount(issues, Major) + LevelCount(issues, Minor) == |issues|
  {
    if |issues| > 0 {
      LevelCountsSum(issues[..|issues| - 1]);
    }
  }

  datatype Report = Report(
    success: bool, totalFunctions: nat, totalIssues: nat,
    blockers: nat, criticals: nat, majors: nat, minors: nat, mustFix: nat,
    issues: seq<Issue>)

  /** How `validate` ends: it raises. Reading an unreadable file raises an
      I/O error; otherwise the call of the undefined `check_state_management`
      raises an AttributeError, before any report is made. */
  datatype Failure = UnreadableFile | MissingMethod

  datatype Outcome = Raised(failure: Failure) | Returned(report: Report)

  // ---------------------------------------------------------------
  // Loops that compute without touching the validator
  // ---------------------------------------------------------------

  /** The table and the issues after storing the matches of one file, one
      match at a time. */
  method StoreMatches(t: seq<Entry>, path: string, ms: seq<FunMatch>) returns (t': seq<Entry>, found: seq<Issue>)
    ensures t' == Store(t, path, ms)
    ensures found == FlatMap(ms, EmptyIssueIn(path))
  {
    t', found := t, [];
    var k := 0;
    while k < |ms|
      invariant k <= |ms|
      invariant t' == Store(t, path, ms[..k])
      invariant found == FlatMap(ms[..k], EmptyIssueIn(path))
    {
      var m := ms[k];
      StoreStep(t, path, ms, k);
      FlatMapPrefixSnoc(ms, EmptyIssueIn(path), k);
      t' := Put(t', Key(path, m.name), Analyze(path, m));
      found := found + EmptyIssueIn(path)(m);
      k := k + 1;
    }
    assert ms[..k] == ms;
  }

  /** The items of `t` that `rule` reports, in table order. */
  method CollectIssues(t: seq<Entry>, rule: Entry -> seq<Issue>) returns (found: seq<Issue>)
    ensures found == FlatMap(t, rule)
  {
    found := [];
    var k := 0;
    while k < |t|
      invariant k <= |t|
      invariant found == FlatMap(t[..k], rule)
    {
      FlatMapPrefixSnoc(t, rule, k);
      found := found + rule(t[k]);
      k := k + 1;
    }
    assert t[..k] == t;
  }

  /** The first fake pattern, tried in order, that the lower-cased body
      contains; the loop stops at the first one found. */
  method FindFakePattern(body: string) returns (r: Option<FakePattern>)
    ensures r == FirstFake(Lower(body))
  {
    var t := Lower(body);
    var i := 0;
    while i < |FakePatterns|
      invariant i <= |FakePatterns|
      invariant FirstFakeFrom(FakePatterns, t, i) == FirstFakeFrom(FakePatterns, t, 0)
    {
      if FakeFrom(FakePatterns[i], t, 0) {
        return Some(FakePatterns[i]);
      }
      i := i + 1;
    }
    return None;
  }

  /** The API check for one item whose file can be read. */
  method ApiCheck(contents: map<string, string>, e: Entry) returns (found: seq<Issue>)
    requires !ReadBlocked(contents, CallsApi, e)
    ensures found == ApiIssue(contents, e)
  {
    var a := e.analysis;
    found := [];
    if a.callsApi {
      var c := contents[a.filePath];
      if Contains(c, "suspend") && Contains(c, a.name) {
        var pat := FindFakePattern(ExtractBody(c, a.name));
        if pat.Some? {
          found := [Issue(a.filePath, FakeImplementation(pat.value), Critical, a.name, 0.8)];
        }
      }
    }
  }

  /** The API check over the table in order, up to the first item whose
      file cannot be read, where it raises. */
  method ApiScan(t: seq<Entry>, contents: map<string, string>) returns (found: seq<Issue>, crashed: bool)
    ensures crashed <==> FirstBlocked(t, contents, CallsApi) < |t|
    ensures found == FlatMap(t[..FirstBlocked(t, contents, CallsApi)], ApiIssueIn(contents))
  {
    found, crashed := [], false;
    var k := 0;
    while k < |t|
      invariant k <= FirstBlocked(t, contents, CallsApi)
      invariant found == FlatMap(t[..k], ApiIssueIn(contents))
    {
      if ReadBlocked(contents, CallsApi, t[k]) {
        crashed := true;
        return;
      }
      var more := ApiCheck(contents, t[k]);
      FlatMapPrefixSnoc(t, ApiIssueIn(contents), k);
      found := found + more;
      k := k + 1;
    }
  }

  /** The asynchronous-operation check over the items whose key mentions
      `suspend`, in table order, up to the first one whose file cannot be
      read, where it raises. */
  method AsyncScan(t: seq<Entry>, contents: map<string, string>) returns (found: seq<Issue>, crashed: bool)
    ensures crashed <==> FirstBlocked(t, contents, SuspendKey) < |t|
    ensures found == FlatMap(t[..FirstBlocked(t, contents, SuspendKey)], AsyncIssueIn(contents))
  {
    found, crashed := [], false;
    var k := 0;
    while k < |t|
      invariant k <= FirstBlocked(t, contents, SuspendKey)
      invariant found == FlatMap(t[..k], AsyncIssueIn(contents))
    {
      var e := t[k];
      if SuspendKey(e) {
        if e.analysis.filePath !in contents {
          crashed := true;
          return;
        }
        var c := contents[e.analysis.filePath];
        if !Contains(c, "viewModelScope") && !Contains(c, "lifecycleScope") && Contains(e.analysis.filePath, "ViewModel") {
          found := found + [Issue(e.analysis.filePath, MissingCoroutineScope, Major, e.analysis.name, 1.0)];
        }
      }
      FlatMapPrefixSnoc(t, AsyncIssueIn(contents), k);
      k := k + 1;
    }
  }

  /** The `findall` results of two patterns over every Kotlin file, as
      sets; crashed when a file cannot be read. */
  method GatherBoth(ws: Workspace, find1: string -> seq<string>, find2: string -> seq<string>)
    returns (got1: set<string>, got2: set<string>, crashed: bool)
    ensures crashed <==> !AllReadable(ws)
    ensures !crashed ==> got1 == Gathered(ws, ws.kotlinFiles, find1) && got2 == Gathered(ws, ws.kotlinFiles, find2)
  {
    got1, got2, crashed := {}, {}, false;
    var paths := ws.kotlinFiles;
    var k := 0;
    while k < |paths|
      invariant k <= |paths|
      invariant forall j :: 0 <= j < k ==> paths[j] in ws.contents
      invariant got1 == Gathered(ws, paths[..k], find1) && got2 == Gathered(ws, paths[..k], find2)
    {
      var path := paths[k];
      if path !in ws.contents {
        crashed := true;
        return;
      }
      assert paths[..k + 1][..k] == paths[..k];
      got1 := got1 + Elems(find1(ws.contents[path]));
      got2 := got2 + Elems(find2(ws.contents[path]));
      k := k + 1;
    }
    assert paths[..k] == paths;
  }

  /** One BLOCKER per missing route, in the order the set yields them. */
  method MissingScreenOrder(missing: set<string>) returns (ghost order: seq<string>, found: seq<Issue>)
    ensures Distinct(order) && Elems(order) == missing
    ensures found == MissingScreenIssues(order)
    ensures |found| == |missing|
  {
    var left := missing;
    order, found := [], [];
    while left != {}
      invariant left <= missing
      invariant Distinct(order)
      invariant Elems(order) == missing - left
      invariant found == MissingScreenIssues(order)
      decreases |left|
    {
      var route :| route in left;
      TakeOne(missing, left, route);
      DistinctSnoc(order, route);
      ElemsSnoc(order, route);
      ScreenIssuesSnoc(order, route);
      found := found + [MissingScreenIssue(route)];
      order := order + [route];
      left := left - {route};
    }
    DistinctCard(order);
  }

  // ---------------------------------------------------------------
  // The validator
  // ---------------------------------------------------------------

  class IntelligentValidator {
    const projectRoot: string
    var issues: seq<Issue>
    /** `self.functions`, as its list of items in insertion order. */
    var functions: seq<Entry>

    ghost predicate Valid()
      reads this
    {
      UniqueKeys(functions)
    }

    constructor (projectRoot: string)
      ensures this.projectRoot == projectRoot
      ensures issues == [] && functions == []
      ensures Valid()
    {
      this.projectRoot := projectRoot;
      issues := [];
      functions := [];
    }

    /** `parse_kotlin_file`: store the facts of every header match under
        `file::name` and record each blank body. An unreadable file is
        caught and changes nothing. */
    method ParseKotlinFile(ws: Workspace, path: string)
      requires Valid()
      modifies this
      ensures Valid()
      ensures path !in ws.contents ==> functions == old(functions) && issues == old(issues)
      ensures path in ws.contents ==>
        functions == Store(old(functions), path, FunMatches(ws.contents[path], 0)) &&
        issues == old(issues) + FlatMap(FunMatches(ws.contents[path], 0), EmptyIssueIn(path))
    {
      if path in ws.contents {
        var ms := FunMatches(ws.contents[path], 0);
        StoreOrder(functions, path, ms);
        var found;
        functions, found := StoreMatches(functions, path, ms);
        issues := issues + found;
      }
    }

    /** `analyze_code_structure`: parse every Kotlin file in walk order. */
    method AnalyzeCodeStructure(ws: Workspace)
      requires Valid()
      modifies this
      ensures Valid()
      ensures functions == Parsed(old(functions), ws, ws.kotlinFiles)
      ensures issues == old(issues) + ParseIssues(ws, ws.kotlinFiles)
    {
      var paths := ws.kotlinFiles;
      var k := 0;
      while k < |paths|
        invariant k <= |paths|
        invariant Valid()
        invariant functions == Parsed(old(functions), ws, paths[..k])
        invariant issues == old(issues) + ParseIssues(ws, paths[..k])
      {
        assert paths[..k + 1][..k] == paths[..k];
        ParseKotlinFile(ws, paths[k]);
        AppendAssoc(old(issues), ParseIssues(ws, paths[..k]),
          if paths[k] in ws.contents then FlatMap(FunMatches(ws.contents[paths[k]], 0), EmptyIssueIn(paths[k])) else []);
        k := k + 1;
      }
      assert paths[..k] == paths;
    }

    /** `check_viewmodel_completeness`. */
    method CheckViewModelCompleteness()
      modifies this
      ensures functions == old(functions)
      ensures issues == old(issues) + FlatMap(functions, ViewModelIssues)
    {
      var found := CollectIssues(functions, ViewModelIssues);
      issues := issues + found;
    }

    /** `check_repository_completeness`. */
    method CheckRepositoryCompleteness()
      modifies this
      ensures functions == old(functions)
      ensures issues == old(issues) + FlatMap(functions, RepositoryIssues)
    {
      var found := CollectIssues(functions, RepositoryIssues);
      issues := issues + found;
    }

    /** `check_navigation_completeness`: one BLOCKER per route navigated to
        that no `composable` defines. It raises, with the issues unchanged,
        when a Kotlin file cannot be read. */
    method CheckNavigationCompleteness(ws: Workspace) returns (crashed: bool, ghost order: seq<string>)
      modifies this
      ensures functions == old(functions)
      ensures crashed <==> !AllReadable(ws)
      ensures crashed ==> issues == old(issues)
      ensures !crashed ==> (Distinct(order) &&
        Elems(order) == Gathered(ws, ws.kotlinFiles, NavigateTargets) - Gathered(ws, ws.kotlinFiles, ComposableRoutes))
      ensures !crashed ==> issues == old(issues) + MissingScreenIssues(order)
      ensures !crashed ==> (|issues| == |old(issues)| +
        |Gathered(ws, ws.kotlinFiles, NavigateTargets) - Gathered(ws, ws.kotlinFiles, ComposableRoutes)|)
    {
      var navigations, screens;
      navigations, screens, crashed := GatherBoth(ws, NavigateTargets, ComposableRoutes);
      order := [];
      if !crashed {
        var found;
        order, found := MissingScreenOrder(navigations - screens);
        issues := issues + found;
      }
    }

    /** `check_api_completeness`: the items that call an API, in table
        order, until one whose file cannot be read, where it raises. The
        issues of the items before it stay recorded. */
    method CheckApiCompleteness(ws: Workspace) returns (crashed: bool)
      modifies this
      ensures functions == old(functions)
      ensures crashed <==> FirstBlocked(functions, ws.contents, CallsApi) < |functions|
      ensures issues == old(issues) + FlatMap(functions[..FirstBlocked(functions, ws.contents, CallsApi)], ApiIssueIn(ws.contents))
    {
      var found;
      found, crashed := ApiScan(functions, ws.contents);
      issues := issues + found;
    }

    /** `analyze_semantic_completeness`: the four rules in order, stopping
        where one raises. */
    method AnalyzeSemanticCompleteness(ws: Workspace) returns (crashed: bool, ghost order: seq<string>)
      modifies this
      ensures functions == old(functions)
      ensures crashed <==> !AllReadable(ws) || FirstBlocked(functions, ws.contents, CallsApi) < |functions|
      ensures !crashed ==> (Distinct(order) &&
        Elems(order) == Gathered(ws, ws.kotlinFiles, NavigateTargets) - Gathered(ws, ws.kotlinFiles, ComposableRoutes))
      ensures !crashed ==> issues == old(issues) + FlatMap(functions, ViewModelIssues) + FlatMap(functions, RepositoryIssues)
                                     + MissingScreenIssues(order) + FlatMap(functions, ApiIssueIn(ws.contents))
    {
      CheckViewModelCompleteness();
      CheckRepositoryCompleteness();
      crashed, order := CheckNavigationCompleteness(ws);
      if !crashed {
        crashed := CheckApiCompleteness(ws);
        assert !crashed ==> functions[..FirstBlocked(functions, ws.contents, CallsApi)] == functions;
      }
    }

    /** `check_async_operations`: the items whose key mentions `suspend`,
        in table order, until one whose file cannot be read, where it
        raises. The issues of the items before it stay recorded. */
    method CheckAsyncOperations(ws: Workspace) returns (crashed: bool)
      modifies this
      ensures functions == old(functions)
      ensures crashed <==> FirstBlocked(functions, ws.contents, SuspendKey) < |functions|
      ensures issues == old(issues) + FlatMap(functions[..FirstBlocked(functions, ws.contents, SuspendKey)], AsyncIssueIn(ws.contents))
    {
      var found;
      found, crashed := AsyncScan(functions, ws.contents);
      issues := issues + found;
    }

    /** `verify_dependency_injection`: one MAJOR issue, naming the missing
        names, when some injected name has no provider, and none otherwise.
        It raises, with the issues unchanged, when a Kotlin file cannot be
        read. */
    method VerifyDependencyInjection(ws: Workspace) returns (crashed: bool)
      modifies this
      ensures functions == old(functions)
      ensures crashed <==> !AllReadable(ws)
      ensures crashed ==> issues == old(issues)
      ensures !crashed ==>
        var missing := Gathered(ws, ws.kotlinFiles, InjectedNames) - Gathered(ws, ws.kotlinFiles, ProvidedNames);
        issues == old(issues) + (if missing == {} then [] else [DependencyIssue(missing)])
    {
      var required, provided;
      required, provided, crashed := GatherBoth(ws, InjectedNames, ProvidedNames);
      if !crashed {
        var missing := required - provided;
        if missing != {} {
          issues := issues + [DependencyIssue(missing)];
        }
      }
    }

    /** `generate_report`: counts by level, the verdict, the number of
        functions and the first 20 issues. */
    method GenerateReport() returns (r: Report)
      ensures r.success <==> forall i :: i in issues ==> i.level != Blocker && i.level != Critical
      ensures r.mustFix == r.blockers + r.criticals
      ensures r.blockers + r.criticals + r.majors + r.minors == r.totalIssues == |issues|
      ensures r.blockers == LevelCount(issues, Blocker) && r.criticals == LevelCount(issues, Critical)
      ensures r.majors == LevelCount(issues, Major) && r.minors == LevelCount(issues, Minor)
      ensures r.totalFunctions == |functions|
      ensures |r.issues| == (if |issues| < 20 then |issues| else 20) && r.issues == issues[..|r.issues|]
    {
      var blockers := LevelCount(issues, Blocker);
      var criticals := LevelCount(issues, Critical);
      LevelCountsSum(issues);
      r := Report(blockers + criticals == 0, |functions|, |issues|, blockers, criticals,
                  LevelCount(issues, Major), LevelCount(issues, Minor), blockers + criticals, Take(issues, 20));
    }

    /** `validate`: the structure and semantic phases, the dependency
        phase (which records nothing), then the runtime-behaviour phase,
        whose asynchronous-operation check runs before the call of the
        undefined `check_state_management`. It never returns a report. */
    method Validate(ws: Workspace) returns (outcome: Outcome, ghost order: seq<string>)
      requires Valid()
      modifies this
      ensures Valid()
      ensures outcome.Raised?
      ensures functions == Parsed(old(functions), ws, ws.kotlinFiles)
      ensures outcome == Raised(UnreadableFile) <==>
        !AllReadable(ws) || FirstBlocked(functions, ws.contents, CallsApi) < |functions|
        || FirstBlocked(functions, ws.contents, SuspendKey) < |functions|
      ensures outcome == Raised(MissingMethod) ==>
        Distinct(order) &&
        Elems(order) == Gathered(ws, ws.kotlinFiles, NavigateTargets) - Gathered(ws, ws.kotlinFiles, ComposableRoutes) &&
        issues == old(issues) + ParseIssues(ws, ws.kotlinFiles)
                  + FlatMap(functions, ViewModelIssues) + FlatMap(functions, RepositoryIssues)
                  + MissingScreenIssues(order) + FlatMap(functions, ApiIssueIn(ws.contents))
                  + FlatMap(functions, AsyncIssueIn(ws.contents))
    {
      AnalyzeCodeStructure(ws);
      var crashed;
      crashed, order := AnalyzeSemanticCompleteness(ws);
      if crashed {
        return Raised(UnreadableFile), order;
      }
      crashed := CheckAsyncOperations(ws);
      if crashed {
        return Raised(UnreadableFile), order;
      }
      assert functions[..FirstBlocked(functions, ws.contents, SuspendKey)] == functions;
      return Raised(MissingMethod), order;
    }
  }

  /** The script's entry point: a validator rooted at `/workspace` whose
      `validate` raises, so no report is written. */
  method Run(ws: Workspace) returns (outcome: Outcome)
    ensures outcome.Raised?
    ensures !AllReadable(ws) ==> outcome == Raised(UnreadableFile)
  {
    var v := new IntelligentValidator("/workspace");
    ghost var order;
    outcome, order := v.Validate(ws);
  }
}
