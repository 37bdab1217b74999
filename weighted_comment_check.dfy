/** The weighted comment-coverage checker: classes are weighted by the
    architectural layer their file lives in, complex methods are found by
    walking braces, and four sub-scores add up to a total out of 100. */
module WeightedComment {
  import opened Text
  import opened Seqs

  datatype Layer = Domain | Presentation | Data | Test | Other

  /** The class kinds a layer distinguishes; `Default` is the fallback. */
  datatype ClassType =
    | UseCase | Repository | Model
    | ViewModel | Screen | State
    | RepositoryImpl | Manager | Entity
    | Default

  datatype ClassInfo = ClassInfo(
    name: string, kind: string, filePath: string, lineNum: nat,
    hasComment: bool, weight: real, layer: Layer)

  datatype MethodInfo = MethodInfo(
    name: string, filePath: string, lineNum: nat, lineCount: nat,
    complexity: nat, hasComment: bool, isTest: bool)

  /** One layer's counters (a `defaultdict(int)` per layer). */
  datatype LayerStats = LayerStats(
    totalClasses: nat, totalWeight: real,
    commentedClasses: nat, commentedWeight: real,
    chineseCommentLines: nat, totalCommentLines: nat)

  datatype Scores = Scores(
    classScore: real, methodScore: real, uiScore: real,
    chineseScore: real, total: real)

  datatype Grade = APlus | A | B | C | D

  const Zero := LayerStats(0, 0.0, 0, 0.0, 0, 0)

  /** The layer a file belongs to, judged from its path. */
  function GetLayer(path: string): Layer
  {
    if Contains(path, "/test/") || Contains(path, "/androidTest/") then Test
    else if Contains(path, "/domain/") then Domain
    else if Contains(path, "/presentation/") then Presentation
    else if Contains(path, "/data/") then Data
    else Other
  }

  /** A text that ends with `/` occurs in a directory followed by a file
      name without `/` only inside the directory. */
  lemma ContainsBeforeName(dir: string, name: string, t: string)
    requires |t| > 0 && t[|t| - 1] == '/' && '/' !in name
    ensures Contains(dir + name, t) <==> Contains(dir, t)
  {
    ContainsIffOccurs(dir + name, t);
    ContainsIffOccurs(dir, t);
    if Contains(dir + name, t) {
      var p: nat :| HasAt(dir + name, p, t);
      assert (dir + name)[p + |t| - 1] == t[|t| - 1];
      assert (dir + name)[p..p + |t|] == dir[p..p + |t|];
      assert HasAt(dir, p, t);
    }
    if Contains(dir, t) {
      var p: nat :| HasAt(dir, p, t);
      assert (dir + name)[p..p + |t|] == dir[p..p + |t|];
      assert HasAt(dir + name, p, t);
    }
  }

  /** The layer depends on the directories of a path only: the file name
      after the last `/` never changes it, since every marker ends in `/`. */
  lemma LayerIgnoresFileName(dir: string, name: string)
    requires '/' !in name
    ensures GetLayer(dir + name) == GetLayer(dir)
  {
    ContainsBeforeName(dir, name, "/test/");
    ContainsBeforeName(dir, name, "/androidTest/");
    ContainsBeforeName(dir, name, "/domain/");
    ContainsBeforeName(dir, name, "/presentation/");
    ContainsBeforeName(dir, name, "/data/");
  }

  /** The kind of a class from its name, within the kinds of its layer. */
  function GetClassType(name: string, path: string): ClassType
  {
    match GetLayer(path)
    case Domain =>
      if Contains(name, "UseCase") then UseCase
      else if Contains(name, "Repository") && !Contains(name, "Impl") then Repository
      else if Contains(name, "Model") || Contains(name, "Entity") || Contains(name, "State") then Model
      else Default
    case Presentation =>
      if Contains(name, "ViewModel") then ViewModel
      else if Contains(name, "Screen") then Screen
      else if Contains(name, "State") || Contains(name, "UiState") then State
      else Default
    case Data =>
      if Contains(name, "RepositoryImpl") then RepositoryImpl
      else if Contains(name, "Manager") then Manager
      else if Contains(name, "Entity") || Contains(name, "Dao") then Entity
      else Default
    case _ => Default
  }

  /** The weight table: per-kind weights inside the domain, presentation
      and data layers (falling back to the layer default), one flat weight
      for test and other classes. */
  function LayerWeight(l: Layer, t: ClassType): real
  {
    match l
    case Domain => if t in {UseCase, Repository, Model} then 1.5 else 1.3
    case Presentation => if t in {ViewModel, Screen, State} then 1.3 else 1.1
    case Data => if t in {RepositoryImpl, Manager, Entity} then 1.2 else 1.0
    case Test => 0.5
    case Other => 1.0
  }

  /** The weight of a class. */
  function GetWeight(name: string, path: string): (w: real)
    ensures 0.5 <= w <= 1.5
  {
    var l := GetLayer(path);
    if l == Test then 0.5 else LayerWeight(l, GetClassType(name, path))
  }

  /** Each kind belongs to one layer, and the first name test of a layer decides. */
  lemma ClassTypeInLayer(name: string, path: string)
    ensures GetClassType(name, path) in {UseCase, Repository, Model} ==> GetLayer(path) == Domain
    ensures GetClassType(name, path) in {ViewModel, Screen, State} ==> GetLayer(path) == Presentation
    ensures GetClassType(name, path) in {RepositoryImpl, Manager, Entity} ==> GetLayer(path) == Data
    ensures GetLayer(path) in {Test, Other} ==> GetClassType(name, path) == Default
    ensures GetClassType(name, path) == Repository ==> !Contains(name, "Impl")
    ensures GetLayer(path) == Domain && Contains(name, "UseCase") ==> GetClassType(name, path) == UseCase
    ensures GetLayer(path) == Presentation && Contains(name, "ViewModel") ==> GetClassType(name, path) == ViewModel
    ensures GetLayer(path) == Data && Contains(name, "RepositoryImpl") ==> GetClassType(name, path) == RepositoryImpl
  {
  }

  /** The weights a class can get: test classes alone weigh 0.5, the
      domain layer and the presentation kinds weigh at least 1.3, and the
      domain kinds alone weigh 1.5. */
  lemma WeightTable(name: string, path: string)
    ensures GetWeight(name, path) in {0.5, 1.0, 1.1, 1.2, 1.3, 1.5}
    ensures GetLayer(path) == Test <==> GetWeight(name, path) == 0.5
    ensures GetLayer(path) == Other ==> GetWeight(name, path) == 1.0
    ensures GetWeight(name, path) >= 1.3 <==>
      (GetLayer(path) == Domain || GetClassType(name, path) in {ViewModel, Screen, State})
    ensures GetWeight(name, path) == 1.5 <==> GetClassType(name, path) in {UseCase, Repository, Model}
  {
    ClassTypeInLayer(name, path);
  }

  // ---------------------------------------------------------------
  // Line recognisers
  // ---------------------------------------------------------------

  /** After `\s*` at the start, `kw` followed by at least one space and a
      word: the end of the keyword and the name, or None. */
  function KeywordThenName(line: string, kwStart: nat, kwEnd: nat): (r: Option<(string, string)>)
    requires kwStart <= kwEnd <= |line|
    ensures r.Some? ==> |r.value.1| > 0 && forall k :: 0 <= k < |r.value.1| ==> IsWordChar(r.value.1[k])
  {
    var a := SkipSpace(line, kwEnd);
    if a == kwEnd then None
    else
      var b := WordEnd(line, a);
      if b == a then None else Some((line[kwStart..kwEnd], line[a..b]))
  }

  /** `kw1\s+kw2` at `p`: the end of `kw2`, or None. */
  function TwoWords(line: string, p: nat, kw1: string, kw2: string): (r: Option<nat>)
    requires p <= |line|
    ensures r.Some? ==> p < r.value <= |line|
  {
    if !HasAt(line, p, kw1) then None
    else
      var a := SkipSpace(line, p + |kw1|);
      if a == p + |kw1| || !HasAt(line, a, kw2) || |kw2| == 0 then None
      else Some(a + |kw2|)
  }

  /** `^\s*(class|interface|object|data\s+class|sealed\s+class|enum\s+class)\s+(\w+)`:
      the declaration keyword as written and the class name. */
  function MatchClass(line: string): (r: Option<(string, string)>)
    ensures r.Some? ==> |r.value.1| > 0
  {
    var p := SkipSpace(line, 0);
    if HasAt(line, p, "class") then KeywordThenName(line, p, p + 5)
    else if HasAt(line, p, "interface") then KeywordThenName(line, p, p + 9)
    else if HasAt(line, p, "object") then KeywordThenName(line, p, p + 6)
    else
      var e :=
        if HasAt(line, p, "data") then TwoWords(line, p, "data", "class")
        else if HasAt(line, p, "sealed") then TwoWords(line, p, "sealed", "class")
        else TwoWords(line, p, "enum", "class");
      if e.None? then None else KeywordThenName(line, p, e.value)
  }

  /** `^\s*(fun|suspend\s+fun)\s+(\w+)`: the method name. */
  function MatchMethod(line: string): (r: Option<string>)
    ensures r.Some? ==> |r.value| > 0
  {
    var p := SkipSpace(line, 0);
    var e := if HasAt(line, p, "fun") then Some(p + 3) else TwoWords(line, p, "suspend", "fun");
    if e.None? then None
    else match KeywordThenName(line, p, e.value)
      case None => None
      case Some(m) => Some(m.1)
  }

  /** `\bkw\b` matches at `p`: `kw` occurs there between word boundaries. */
  predicate WordAt(line: string, p: nat, kw: string)
  {
    p + |kw| <= |line| && HasAt(line, p, kw)
    && (p == 0 || !IsWordChar(line[p - 1]))
    && (p + |kw| == |line| || !IsWordChar(line[p + |kw|]))
  }

  /** `re.search(r'\bkw\b', line[p:])`, trying each position in turn. */
  predicate WordFrom(line: string, kw: string, p: nat)
    decreases |line| - p
  {
    p <= |line| && (WordAt(line, p, kw) || WordFrom(line, kw, p + 1))
  }

  /** `kw` occurs in `line` between word boundaries. */
  predicate HasWord(line: string, kw: string)
  {
    WordFrom(line, kw, 0)
  }

  /** The search finds a match exactly when there is one. */
  lemma {:induction false} WordFromIff(line: string, kw: string, p: nat)
    decreases |line| - p
    ensures WordFrom(line, kw, p) <==> exists q: nat :: p <= q && WordAt(line, q, kw)
  {
    if p <= |line| {
      WordFromIff(line, kw, p + 1);
      if exists q: nat :: p <= q && WordAt(line, q, kw) {
        var q: nat :| p <= q && WordAt(line, q, kw);
        if q > p {
          assert p + 1 <= q;
        }
      }
    }
  }

  /** `\b(if|when|for|while|try)\b` occurs in the line. */
  predicate IsControlFlow(line: string)
  {
    HasWord(line, "if") || HasWord(line, "when") || HasWord(line, "for")
    || HasWord(line, "while") || HasWord(line, "try")
  }

  /** `^\s*(//|/\*|\*)`: a comment line. */
  predicate IsCommentLine(line: string)
  {
    var p := SkipSpace(line, 0);
    HasAt(line, p, "//") || HasAt(line, p, "/*") || HasAt(line, p, "*")
  }

  /** `[一-龥]` occurs in the line. */
  predicate HasChinese(line: string)
  {
    exists k :: 0 <= k < |line| && '一' <= line[k] <= '龥'
  }

  /** A comment line with Chinese text. */
  predicate IsChineseComment(line: string)
  {
    IsCommentLine(line) && HasChinese(line)
  }

  // ---------------------------------------------------------------
  // Doc-comment lookup and method complexity (specifications)
  // ---------------------------------------------------------------

  function Max0(x: int): nat { if x < 0 then 0 else x }

  // A comment close on one of the 15 lines before `n`, with a doc-comment
  // opener on that line or on one of the 20 lines before it.
  predicate HasDocComment(lines: seq<string>, n: nat)
    requires n <= |lines|
  {
    exists i :: Max0(n - 15) <= i < n && Contains(lines[i], "*/")
      && exists j :: Max0(i - 20) <= j <= i && Contains(lines[j], "/**")
  }

  /** The doc-comment lookup reads only the lines before `n`. */
  lemma DocCommentLooksBack(lines: seq<string>, n: nat)
    requires n <= |lines|
    ensures HasDocComment(lines, n) == HasDocComment(lines[..n], n)
  {
    if HasDocComment(lines, n) {
      var i :| Max0(n - 15) <= i < n && Contains(lines[i], "*/")
        && exists j :: Max0(i - 20) <= j <= i && Contains(lines[j], "/**");
      var j :| Max0(i - 20) <= j <= i && Contains(lines[j], "/**");
      assert lines[..n][i] == lines[i] && lines[..n][j] == lines[j];
    }
    if HasDocComment(lines[..n], n) {
      var i :| Max0(n - 15) <= i < n && Contains(lines[..n][i], "*/")
        && exists j :: Max0(i - 20) <= j <= i && Contains(lines[..n][j], "/**");
      var j :| Max0(i - 20) <= j <= i && Contains(lines[..n][j], "/**");
      assert lines[..n][i] == lines[i] && lines[..n][j] == lines[j];
    }
  }

  /** The brace depth after lines `start..e`. */
  function Depth(lines: seq<string>, start: nat, e: nat): int
    requires start <= e <= |lines|
    decreases e
  {
    if e == start then 0
    else Depth(lines, start, e - 1) + CountChar(lines[e - 1], '{') - CountChar(lines[e - 1], '}')
  }

  /** The scan window: at most 100 lines from `start`. */
  function Limit(lines: seq<string>, start: nat): (m: nat)
  {
    if |lines| < start + 100 then (if start <= |lines| then |lines| else start) else start + 100
  }

  /** The index after the last line the complexity scan reads: one past
      the first line after `start` where the depth is back to 0, else the
      end of the window. */
  function ScanEnd(lines: seq<string>, start: nat, i: nat): (e: nat)
    requires start <= i <= Limit(lines, start)
    decreases Limit(lines, start) - i
    ensures i <= e <= Limit(lines, start)
  {
    if i >= Limit(lines, start) then i
    else if i > start && Depth(lines, start, i + 1) == 0 then i + 1
    else ScanEnd(lines, start, i + 1)
  }

  /** The scan stops at the first line after `start` that brings the depth
      back to 0, and only there or at the end of the window. */
  lemma {:induction false} ScanEndStops(lines: seq<string>, start: nat, i: nat)
    requires start <= i <= Limit(lines, start)
    decreases Limit(lines, start) - i
    ensures forall m :: i < m < ScanEnd(lines, start, i) && start + 1 < m ==> Depth(lines, start, m) != 0
    ensures ScanEnd(lines, start, i) < Limit(lines, start) ==>
      ScanEnd(lines, start, i) - 1 > start && ScanEnd(lines, start, i) - 1 >= i
      && Depth(lines, start, ScanEnd(lines, start, i)) == 0
  {
    if i < Limit(lines, start) && !(i > start && Depth(lines, start, i + 1) == 0) {
      ScanEndStops(lines, start, i + 1);
    }
  }

  /** One step of the scan: it stops after line `i` or goes on from `i + 1`. */
  lemma ScanEndStep(lines: seq<string>, start: nat, i: nat)
    requires start <= i < Limit(lines, start)
    ensures Depth(lines, start, i + 1) == Depth(lines, start, i) + CountChar(lines[i], '{') - CountChar(lines[i], '}')
    ensures ScanEnd(lines, start, i) ==
      if i > start && Depth(lines, start, i + 1) == 0 then i + 1 else ScanEnd(lines, start, i + 1)
  {
  }

  /** Lines read and control-flow lines among them. */
  function Complexity(lines: seq<string>, start: nat): (r: (nat, nat))
    requires start <= |lines|
    ensures r.0 <= 100 && r.1 <= r.0
  {
    var e := ScanEnd(lines, start, start);
    (e - start, Count(lines[start..e], IsControlFlow))
  }

  lemma CountStep(lines: seq<string>, start: nat, i: nat)
    requires start <= i < |lines|
    ensures Count(lines[start..i + 1], IsControlFlow)
         == Count(lines[start..i], IsControlFlow) + (if IsControlFlow(lines[i]) then 1 else 0)
  {
    assert lines[start..i + 1] == lines[start..i] + [lines[i]];
    CountSnoc(lines[start..i], lines[i], IsControlFlow);
  }

  /** One more line adds to the comment-line counts only when it is a
      comment line, and to the Chinese count only when it also has Chinese text. */
  lemma CommentLineStep(lines: seq<string>, i: nat)
    requires i < |lines|
    ensures Count(lines[..i + 1], IsCommentLine) ==
      Count(lines[..i], IsCommentLine) + (if IsCommentLine(lines[i]) then 1 else 0)
    ensures Count(lines[..i + 1], IsChineseComment) ==
      Count(lines[..i], IsChineseComment) + (if IsChineseComment(lines[i]) then 1 else 0)
  {
    assert lines[..i + 1] == lines[..i] + [lines[i]];
    CountSnoc(lines[..i], lines[i], IsCommentLine);
    CountSnoc(lines[..i], lines[i], IsChineseComment);
  }

  /** A method is complex when it spans over 20 lines or has over 3 control-flow lines. */
  predicate IsComplex(lineCount: nat, complexity: nat)
  {
    lineCount > 20 || complexity > 3
  }

  /** The class declared on line `i`, with its comment flag and weight. */
  function ClassAt(path: string, lines: seq<string>, i: nat): (c: Option<ClassInfo>)
    requires i < |lines|
    ensures c.Some? ==>
      c.value.lineNum == i + 1 && c.value.layer == GetLayer(path)
      && c.value.weight == GetWeight(c.value.name, path) && c.value.filePath == path
  {
    match MatchClass(lines[i])
    case None => None
    case Some(m) =>
      Some(ClassInfo(m.1, m.0, path, i + 1, HasDocComment(lines, i), GetWeight(m.1, path), GetLayer(path)))
  }

  /** The complex method declared on line `i`, if any. */
  function MethodAt(path: string, lines: seq<string>, i: nat): (m: Option<MethodInfo>)
    requires i < |lines|
    ensures m.Some? ==>
      m.value.lineNum == i + 1 && IsComplex(m.value.lineCount, m.value.complexity)
      && m.value.lineCount <= 100 && !m.value.isTest
  {
    match MatchMethod(lines[i])
    case None => None
    case Some(name) =>
      var c := Complexity(lines, i);
      if IsComplex(c.0, c.1) then
        Some(MethodInfo(name, path, i + 1, c.0, c.1, HasDocComment(lines, i), false))
      else None
  }

  function Listed<T>(o: Option<T>): seq<T>
  {
    if o.Some? then [o.value] else []
  }

  /** The classes declared in the first `n` lines, in line order. */
  function ClassesUpTo(path: string, lines: seq<string>, n: nat): (cs: seq<ClassInfo>)
    requires n <= |lines|
    ensures |cs| <= n
  {
    if n == 0 then [] else ClassesUpTo(path, lines, n - 1) + Listed(ClassAt(path, lines, n - 1))
  }

  /** The complex methods declared in the first `n` lines, in line order. */
  function MethodsUpTo(path: string, lines: seq<string>, n: nat): (ms: seq<MethodInfo>)
    requires n <= |lines|
    ensures |ms| <= n
  {
    if n == 0 then [] else MethodsUpTo(path, lines, n - 1) + Listed(MethodAt(path, lines, n - 1))
  }

  /** Every recorded class carries its layer, its weight and a line number in range. */
  lemma {:induction false} ClassesUpToFacts(path: string, lines: seq<string>, n: nat)
    requires n <= |lines|
    ensures forall k :: 0 <= k < |ClassesUpTo(path, lines, n)| ==> ClassFacts(path, ClassesUpTo(path, lines, n)[k], n)
  {
    if n > 0 {
      ClassesUpToFacts(path, lines, n - 1);
      var prev := ClassesUpTo(path, lines, n - 1);
      var o := ClassAt(path, lines, n - 1);
      var cs := prev + Listed(o);
      assert ClassesUpTo(path, lines, n) == cs;
      forall k | 0 <= k < |cs|
        ensures ClassFacts(path, cs[k], n)
      {
        if k < |prev| {
          assert cs[k] == prev[k] && ClassFacts(path, prev[k], n - 1);
        } else {
          assert cs[k] == o.value;
        }
      }
    }
  }

  /** A class recorded from one of the first `n` lines of a file at `path`. */
  predicate ClassFacts(path: string, c: ClassInfo, n: nat)
  {
    c.layer == GetLayer(path) && c.weight == GetWeight(c.name, path) && 1 <= c.lineNum <= n
  }

  /** Every recorded method is complex, spans at most 100 lines, and is not a test method. */
  lemma {:induction false} MethodsUpToFacts(path: string, lines: seq<string>, n: nat)
    requires n <= |lines|
    ensures forall k :: 0 <= k < |MethodsUpTo(path, lines, n)| ==> MethodFacts(MethodsUpTo(path, lines, n)[k], n)
  {
    if n > 0 {
      MethodsUpToFacts(path, lines, n - 1);
      var prev := MethodsUpTo(path, lines, n - 1);
      var o := MethodAt(path, lines, n - 1);
      var ms := prev + Listed(o);
      assert MethodsUpTo(path, lines, n) == ms;
      forall k | 0 <= k < |ms|
        ensures MethodFacts(ms[k], n)
      {
        if k < |prev| {
          assert ms[k] == prev[k] && MethodFacts(prev[k], n - 1);
        } else {
          assert ms[k] == o.value;
        }
      }
    }
  }

  /** A complex method recorded from one of the first `n` lines. */
  predicate MethodFacts(m: MethodInfo, n: nat)
  {
    IsComplex(m.lineCount, m.complexity) && m.lineCount <= 100 && !m.isTest && 1 <= m.lineNum <= n
  }

  /** Adds one class to a layer's counters. */
  function AddClass(st: LayerStats, c: ClassInfo): LayerStats
  {
    st.(totalClasses := st.totalClasses + 1,
        totalWeight := st.totalWeight + c.weight,
        commentedClasses := st.commentedClasses + (if c.hasComment then 1 else 0),
        commentedWeight := st.commentedWeight + (if c.hasComment then c.weight else 0.0))
  }

  function AddClasses(st: LayerStats, cs: seq<ClassInfo>): LayerStats
  {
    if |cs| == 0 then st else AddClass(AddClasses(st, cs[..|cs| - 1]), cs[|cs| - 1])
  }

  /** The counters a file leaves on its layer: its classes, and its comment lines. */
  function FileStats(st: LayerStats, path: string, lines: seq<string>): LayerStats
  {
    var withClasses := AddClasses(st, ClassesUpTo(path, lines, |lines|));
    withClasses.(
      chineseCommentLines := withClasses.chineseCommentLines + Count(lines, IsChineseComment),
      totalCommentLines := withClasses.totalCommentLines + Count(lines, IsCommentLine))
  }

  /** Commented counters never exceed their totals, and weights are non-negative. */
  predicate StatsOk(st: LayerStats)
  {
    st.commentedClasses <= st.totalClasses
    && 0.0 <= st.commentedWeight <= st.totalWeight
    && st.chineseCommentLines <= st.totalCommentLines
  }

  lemma {:induction false} AddClassesOk(st: LayerStats, cs: seq<ClassInfo>)
    requires StatsOk(st)
    requires forall k :: 0 <= k < |cs| ==> cs[k].weight >= 0.0
    ensures StatsOk(AddClasses(st, cs))
    ensures AddClasses(st, cs).totalClasses == st.totalClasses + |cs|
    ensures AddClasses(st, cs).chineseCommentLines == st.chineseCommentLines
    ensures AddClasses(st, cs).totalCommentLines == st.totalCommentLines
  {
    if |cs| > 0 {
      AddClassesOk(st, cs[..|cs| - 1]);
    }
  }

  /** Analysing a file keeps every layer's counters consistent. */
  lemma FileStatsOk(st: LayerStats, path: string, lines: seq<string>)
    requires StatsOk(st)
    ensures StatsOk(FileStats(st, path, lines))
  {
    var cs := ClassesUpTo(path, lines, |lines|);
    ClassesUpToFacts(path, lines, |lines|);
    assert forall k :: 0 <= k < |cs| ==> ClassFacts(path, cs[k], |lines|);
    AddClassesOk(st, cs);
    CountMono(lines, IsChineseComment, IsCommentLine);
  }

  predicate AllStatsOk(stats: map<Layer, LayerStats>)
  {
    forall l :: l in stats ==> StatsOk(stats[l])
  }

  /** Replacing one layer's counters by consistent ones keeps the map consistent. */
  lemma UpdateOk(stats: map<Layer, LayerStats>, l: Layer, st: LayerStats)
    requires AllStatsOk(stats) && StatsOk(st)
    ensures AllStatsOk(stats[l := st])
  {
  }

  function StatsOf(stats: map<Layer, LayerStats>, l: Layer): LayerStats
  {
    if l in stats then stats[l] else Zero
  }

  /** The share of the chinese-comment score a layer contributes. */
  function LayerFactor(l: Layer): real
  {
    match l
    case Domain => 0.3
    case Presentation => 0.3
    case Data => 0.2
    case Test => 0.1
    case Other => 0.1
  }

  /** The required share of comment lines written in Chinese. */
  function Requirement(l: Layer): (r: real)
    ensures 0.0 < r <= 1.0
  {
    match l
    case Domain => 0.8
    case Presentation => 0.7
    case Data => 0.6
    case Test => 0.4
    case Other => 0.5
  }

  /** The factor-weighted score one layer adds to the chinese-comment score. */
  function LayerChinese(stats: map<Layer, LayerStats>, l: Layer): (s: real)
    requires AllStatsOk(stats)
    ensures 0.0 <= s <= 20.0 * LayerFactor(l)
  {
    if l in stats && stats[l].totalCommentLines > 0 then
      var ratio := stats[l].chineseCommentLines as real / stats[l].totalCommentLines as real;
      var layerScore := if ratio >= Requirement(l) then 20.0 else ratio / Requirement(l) * 20.0;
      layerScore * LayerFactor(l)
    else 0.0
  }

  /** The five layers, in the order the chinese-comment requirements are listed. */
  const LayerOrder: seq<Layer> := [Domain, Presentation, Data, Test, Other]

  function SumChinese(stats: map<Layer, LayerStats>, ls: seq<Layer>): (s: real)
    requires AllStatsOk(stats)
    ensures 0.0 <= s
  {
    if |ls| == 0 then 0.0 else SumChinese(stats, ls[..|ls| - 1]) + LayerChinese(stats, ls[|ls| - 1])
  }

  function Grading(total: real): (g: Grade)
  {
    if total >= 95.0 then APlus
    else if total >= 90.0 then A
    else if total >= 85.0 then B
    else if total >= 75.0 then C
    else D
  }

  /** The grades from best to worst as 4 down to 0. */
  function Rank(g: Grade): nat
  {
    match g
    case APlus => 4
    case A => 3
    case B => 2
    case C => 1
    case D => 0
  }

  /** A higher total never earns a lower grade. */
  lemma GradeMonotone(x: real, y: real)
    requires x <= y
    ensures Rank(Grading(x)) <= Rank(Grading(y))
  {
  }

  /** The total out of 100 the report grades: the four sub-scores added up. */
  function Total(stats: map<Layer, LayerStats>, methods: seq<MethodInfo>, classes: seq<ClassInfo>): (t: real)
    requires AllStatsOk(stats)
    ensures 0.0 <= t <= 100.0
  {
    ChineseBound(stats);
    ClassScore(stats) + MethodScore(methods) + UiScore(classes) + SumChinese(stats, LayerOrder)
  }

  class WeightedCommentChecker {
    var classes: seq<ClassInfo>
    var methods: seq<MethodInfo>
    var stats: map<Layer, LayerStats>

    predicate Valid()
      reads this
    {
      AllStatsOk(stats)
    }

    constructor()
      ensures classes == [] && methods == [] && stats == map[]
      ensures Valid()
    {
      classes := [];
      methods := [];
      stats := map[];
    }

    /** Whether the declaration on line `lineNum` has a doc comment above it. */
    method CheckClassComment(lines: seq<string>, lineNum: nat) returns (found: bool)
      requires lineNum <= |lines|
      ensures found == HasDocComment(lines, lineNum)
      ensures lineNum == 0 ==> !found
    {
      var i := Max0(lineNum - 15);
      while i < lineNum
        invariant Max0(lineNum - 15) <= i <= lineNum
        invariant forall i' :: Max0(lineNum - 15) <= i' < i && Contains(lines[i'], "*/") ==>
                    forall j :: Max0(i' - 20) <= j <= i' ==> !Contains(lines[j], "/**")
      {
        if Contains(lines[i], "*/") {
          var j := Max0(i - 20);
          while j < i + 1
            invariant Max0(i - 20) <= j <= i + 1
            invariant forall j' :: Max0(i - 20) <= j' < j ==> !Contains(lines[j'], "/**")
          {
            if Contains(lines[j], "/**") {
              return true;
            }
            j := j + 1;
          }
        }
        i := i + 1;
      }
      return false;
    }

    /** Walks the braces from `start` for at most 100 lines, stopping at the
        first later line where the depth is back to 0; counts the lines read
        and the control-flow lines among them. */
    method CheckMethodComplexity(lines: seq<string>, start: nat) returns (lineCount: nat, controlFlows: nat)
      requires start <= |lines|
      ensures (lineCount, controlFlows) == Complexity(lines, start)
      ensures lineCount <= 100 && start + lineCount <= |lines|
      ensures lineCount == 0 <==> start == |lines|
    {
      var braceCount: int := 0;
      lineCount := 0;
      controlFlows := 0;
      var limit := Limit(lines, start);
      var i := start;
      while i < limit
        invariant start <= i <= limit
        invariant lineCount == i - start
        invariant braceCount == Depth(lines, start, i)
        invariant ScanEnd(lines, start, start) == ScanEnd(lines, start, i)
        invariant controlFlows == Count(lines[start..i], IsControlFlow)
      {
        var line := lines[i];
        braceCount := braceCount + CountChar(line, '{') - CountChar(line, '}');
        CountStep(lines, start, i);
        ScanEndStep(lines, start, i);
        if IsControlFlow(line) {
          controlFlows := controlFlows + 1;
        }
        lineCount := lineCount + 1;
        if braceCount == 0 && i > start {
          return;
        }
        i := i + 1;
      }
    }

    /** The class loop of a file: the classes found and the layer counters
        they leave, starting from `st0`. */
    method ScanClasses(path: string, lines: seq<string>, st0: LayerStats)
      returns (found: seq<ClassInfo>, st: LayerStats)
      ensures found == ClassesUpTo(path, lines, |lines|)
      ensures st == AddClasses(st0, found)
    {
      found := [];
      st := st0;
      var i := 0;
      while i < |lines|
        invariant 0 <= i <= |lines|
        invariant found == ClassesUpTo(path, lines, i)
        invariant st == AddClasses(st0, found)
      {
        var c := ClassAtLine(path, lines, i);
        if c.Some? {
          found := found + [c.value];
          assert found[..|found| - 1] == ClassesUpTo(path, lines, i);
          st := AddClass(st, c.value);
        }
        i := i + 1;
      }
    }

    /** One step of the class loop: the class declared on line `i`, if any. */
    method ClassAtLine(path: string, lines: seq<string>, i: nat) returns (c: Option<ClassInfo>)
      requires i < |lines|
      ensures c == ClassAt(path, lines, i)
    {
      c := None;
      match MatchClass(lines[i]) {
        case None =>
        case Some(m) =>
          var hasComment := CheckClassComment(lines, i);
          var weight := GetWeight(m.1, path);
          c := Some(ClassInfo(m.1, m.0, path, i + 1, hasComment, weight, GetLayer(path)));
      }
    }

    /** The method loop of a file: the complex methods found. */
    method ScanMethods(path: string, lines: seq<string>) returns (found: seq<MethodInfo>)
      ensures found == MethodsUpTo(path, lines, |lines|)
    {
      found := [];
      var i := 0;
      while i < |lines|
        invariant 0 <= i <= |lines|
        invariant found == MethodsUpTo(path, lines, i)
      {
        var m := MethodAtLine(path, lines, i);
        if m.Some? {
          found := found + [m.value];
        }
        i := i + 1;
      }
    }

    /** One step of the method loop: the complex method declared on line `i`, if any. */
    method MethodAtLine(path: string, lines: seq<string>, i: nat) returns (m: Option<MethodInfo>)
      requires i < |lines|
      ensures m == MethodAt(path, lines, i)
    {
      m := None;
      match MatchMethod(lines[i]) {
        case None =>
        case Some(name) =>
          var lineCount, complexity := CheckMethodComplexity(lines, i);
          if lineCount > 20 || complexity > 3 {
            var hasComment := CheckClassComment(lines, i);
            m := Some(MethodInfo(name, path, i + 1, lineCount, complexity, hasComment, false));
          }
      }
    }

    /** The comment-line loop of a file: comment lines with Chinese text, and all comment lines. */
    method CountCommentLines(lines: seq<string>) returns (chinese: nat, total: nat)
      ensures total == Count(lines, IsCommentLine)
      ensures chinese == Count(lines, IsChineseComment)
    {
      chinese, total := 0, 0;
      var i := 0;
      while i < |lines|
        invariant 0 <= i <= |lines|
        invariant total == Count(lines[..i], IsCommentLine)
        invariant chinese == Count(lines[..i], IsChineseComment)
      {
        CommentLineStep(lines, i);
        if IsCommentLine(lines[i]) {
          total := total + 1;
          if HasChinese(lines[i]) {
            chinese := chinese + 1;
          }
        }
        i := i + 1;
      }
      assert lines[..|lines|] == lines;
    }

    /** Records the classes, the complex non-test methods and the comment
        lines of one file, given as its lines. */
    method AnalyzeLines(path: string, lines: seq<string>)
      requires Valid()
      modifies this
      ensures Valid()
      ensures classes == old(classes) + ClassesUpTo(path, lines, |lines|)
      ensures methods == old(methods) +
        (if GetLayer(path) == Test then []
         else MethodsUpTo(path, lines, |lines|))
      ensures stats == old(stats)[GetLayer(path) :=
        FileStats(StatsOf(old(stats), GetLayer(path)), path, lines)]
    {
      var layer := GetLayer(path);
      var st0 := StatsOf(stats, layer);
      var found, complex, st := ScanFile(path, lines, st0);
      classes := classes + found;
      methods := methods + complex;
      stats := stats[layer := st];
    }

    /** The three loops of a file: its classes, its complex methods (none
        in a test file) and its layer's counters, starting from `st0`. */
    method ScanFile(path: string, lines: seq<string>, st0: LayerStats)
      returns (found: seq<ClassInfo>, complex: seq<MethodInfo>, st: LayerStats)
      requires StatsOk(st0)
      ensures found == ClassesUpTo(path, lines, |lines|)
      ensures complex == if GetLayer(path) == Test then [] else MethodsUpTo(path, lines, |lines|)
      ensures st == FileStats(st0, path, lines)
      ensures StatsOk(st)
    {
      found, st := FileCounters(path, lines, st0);
      complex := [];
      if GetLayer(path) != Test {
        complex := ScanMethods(path, lines);
      }
      FileStatsOk(st0, path, lines);
    }

    /** The class loop and the comment-line loop of a file: its classes and
        the counters they leave on its layer, starting from `st0`. */
    method FileCounters(path: string, lines: seq<string>, st0: LayerStats)
      returns (found: seq<ClassInfo>, st: LayerStats)
      ensures found == ClassesUpTo(path, lines, |lines|)
      ensures st == FileStats(st0, path, lines)
    {
      found, st := ScanClasses(path, lines, st0);
      var chinese, total := CountCommentLines(lines);
      st := st.(chineseCommentLines := st.chineseCommentLines + chinese,
                totalCommentLines := st.totalCommentLines + total);
    }

    /** `analyze_file`: splits the content into lines and analyses them. */
    method AnalyzeFile(path: string, content: string)
      requires Valid()
      modifies this
      ensures Valid()
      ensures classes == old(classes) + ClassesUpTo(path, Split(content, '\n'), |Split(content, '\n')|)
      ensures methods == old(methods) +
        (if GetLayer(path) == Test then []
         else MethodsUpTo(path, Split(content, '\n'), |Split(content, '\n')|))
      ensures stats == old(stats)[GetLayer(path) :=
        FileStats(StatsOf(old(stats), GetLayer(path)), path, Split(content, '\n'))]
    {
      AnalyzeLines(path, Split(content, '\n'));
    }

    /** The four sub-scores and their total; the chinese-comment score is
        accumulated layer by layer in the order of the requirements table. */
    method CalculateScores() returns (s: Scores)
      requires Valid()
      ensures s.classScore == ClassScore(stats) && s.methodScore == MethodScore(methods)
      ensures s.uiScore == UiScore(classes)
      ensures s.chineseScore == SumChinese(stats, LayerOrder)
      ensures s.total == s.classScore + s.methodScore + s.uiScore + s.chineseScore
      ensures s.total == Total(stats, methods, classes)
      ensures 0.0 <= s.chineseScore <= 20.0
      ensures 0.0 <= s.total <= 100.0
    {
      var classScore := ClassScore(stats);
      var methodScore := MethodScore(methods);
      var uiScore := UiScore(classes);

      var chineseScore := 0.0;
      var k := 0;
      while k < |LayerOrder|
        invariant 0 <= k <= |LayerOrder|
        invariant chineseScore == SumChinese(stats, LayerOrder[..k])
      {
        assert LayerOrder[..k + 1][..k] == LayerOrder[..k];
        chineseScore := chineseScore + LayerChinese(stats, LayerOrder[k]);
        k := k + 1;
      }
      assert LayerOrder[..5] == LayerOrder;
      ChineseBound(stats);
      chineseScore := Min20(chineseScore);

      s := Scores(classScore, methodScore, uiScore, chineseScore,
                  classScore + methodScore + uiScore + chineseScore);
    }

    /** The grade and the verdict of the report: the total's grade, and
        success iff the total reaches 95, which is iff the grade is A+. */
    method PrintReport() returns (grade: Grade, success: bool)
      requires Valid()
      ensures grade == Grading(Total(stats, methods, classes))
      ensures success <==> Total(stats, methods, classes) >= 95.0
      ensures success <==> grade == APlus
    {
      var scores := CalculateScores();
      grade := Grading(scores.total);
      success := scores.total >= 95.0;
    }
  }

  /** The class score: the commented share of the class weight, out of 35. */
  function ClassScore(stats: map<Layer, LayerStats>): (r: real)
    requires AllStatsOk(stats)
    ensures 0.0 <= r <= 35.0
    ensures TotalWeight(stats) == 0.0 ==> r == 0.0
    ensures r == 35.0 <==> TotalWeight(stats) > 0.0 && CommentedWeight(stats) == TotalWeight(stats)
  {
    WeightsOk(stats);
    if TotalWeight(stats) > 0.0 then
      RatioBound(CommentedWeight(stats), TotalWeight(stats), 35.0);
      CommentedWeight(stats) / TotalWeight(stats) * 35.0
    else 0.0
  }

  /** The method score: the commented share of the complex methods, out of
      25; full marks when there are no complex methods. */
  function MethodScore(methods: seq<MethodInfo>): (r: real)
    ensures 0.0 <= r <= 25.0
    ensures |methods| == 0 ==> r == 25.0
    ensures r == 25.0 <==> Count(methods, MethodCommented) == |methods|
  {
    var commented := Count(methods, MethodCommented);
    if |methods| > 0 then
      RatioBound(commented as real, |methods| as real, 25.0);
      commented as real / |methods| as real * 25.0
    else 25.0
  }

  /** The UI score: the commented share of the presentation-layer Screen
      classes, out of 20; full marks when there are none. */
  function UiScore(classes: seq<ClassInfo>): (r: real)
    ensures 0.0 <= r <= 20.0
    ensures Count(classes, IsScreenClass) == 0 ==> r == 20.0
  {
    var ui := Filter(classes, IsScreenClass);
    var commented := Count(ui, ClassCommented);
    CountFilter(classes, IsScreenClass);
    if |ui| > 0 then
      RatioBound(commented as real, |ui| as real, 20.0);
      commented as real / |ui| as real * 20.0
    else 20.0
  }

  predicate MethodCommented(m: MethodInfo) { m.hasComment }

  predicate ClassCommented(c: ClassInfo) { c.hasComment }

  /** The weight of all classes, summed over the layers. */
  function TotalWeight(stats: map<Layer, LayerStats>): real
  {
    StatsOf(stats, Domain).totalWeight + StatsOf(stats, Presentation).totalWeight
    + StatsOf(stats, Data).totalWeight + StatsOf(stats, Test).totalWeight
    + StatsOf(stats, Other).totalWeight
  }

  /** The weight of the commented classes, summed over the layers. */
  function CommentedWeight(stats: map<Layer, LayerStats>): real
  {
    StatsOf(stats, Domain).commentedWeight + StatsOf(stats, Presentation).commentedWeight
    + StatsOf(stats, Data).commentedWeight + StatsOf(stats, Test).commentedWeight
    + StatsOf(stats, Other).commentedWeight
  }

  lemma WeightsOk(stats: map<Layer, LayerStats>)
    requires AllStatsOk(stats)
    ensures 0.0 <= CommentedWeight(stats) <= TotalWeight(stats)
  {
    assert StatsOk(Zero);
    assert forall l :: StatsOk(StatsOf(stats, l));
  }

  /** A share of a non-negative whole, scaled to `k`, lies in `[0, k]`. */
  lemma RatioBound(part: real, whole: real, k: real)
    requires 0.0 <= part <= whole && whole > 0.0 && k > 0.0
    ensures 0.0 <= part / whole * k <= k
    ensures part / whole * k == k <==> part == whole
  {
    var x := part / whole;
    assert x <= 1.0;
    if x * k == k {
      assert (x - 1.0) * k == 0.0;
      assert x == 1.0;
      assert part == x * whole;
    }
    assert x * whole == part;
    if part == whole {
      assert (x - 1.0) * whole == 0.0;
    }
  }

  /** The layer factors add up to 1, so the chinese-comment score never
      exceeds 20 even before it is capped. */
  lemma ChineseBound(stats: map<Layer, LayerStats>)
    requires AllStatsOk(stats)
    ensures 0.0 <= SumChinese(stats, LayerOrder) <= 20.0
  {
    var s4: seq<Layer> := [Domain, Presentation, Data, Test];
    var s3: seq<Layer> := [Domain, Presentation, Data];
    var s2: seq<Layer> := [Domain, Presentation];
    var s1: seq<Layer> := [Domain];
    assert LayerOrder[..4] == s4 && s4[..3] == s3 && s3[..2] == s2 && s2[..1] == s1;
    assert SumChinese(stats, s1) <= 20.0 * 0.3;
    assert SumChinese(stats, s2) <= 20.0 * 0.6;
    assert SumChinese(stats, s3) <= 20.0 * 0.8;
    assert SumChinese(stats, s4) <= 20.0 * 0.9;
  }

  predicate IsScreenClass(c: ClassInfo)
  {
    c.layer == Presentation && Contains(c.name, "Screen")
  }

  function Min20(x: real): real { if x < 20.0 then x else 20.0 }
}
