/** The multi-perspective validator (version 6): issues are filed under one
    of five perspectives, each perspective is scored by deducting per
    severity, and a weighted composite decides the system's health. The
    code-completeness and test-coverage rules are modelled; the other
    checks only contribute issues through `AddIssue`. */
module IntelligentV6 {
  import opened Text
  import opened Seqs

  datatype Perspective = Pmo | Architect | Developer | Qa | Ux

  datatype Level = Showstopper | Critical | Major | Minor | Suggestion

  /** What an issue reports; the payload text of the messages is left out. */
  datatype Kind =
    | EmptyFunction(name: string)
    | UnfinishedTask(marker: string)
    | LowTestCoverage(testFiles: nat, sourceFiles: nat)
    | UntestedComponent(component: string)
    | OtherCheck(category: string)

  datatype Issue = Issue(
    perspective: Perspective, level: Level, kind: Kind,
    filePath: string, lineNumber: nat)

  datatype Risk = QualityBelowBar | TestingInsufficient

  datatype Strength = SoundArchitecture

  datatype Report = Report(
    healthScore: real,
    dimensions: map<Perspective, real>,
    canRelease: bool,
    totalIssues: nat,
    byLevel: map<Level, nat>,
    byPerspective: map<Perspective, map<Level, nat>>,
    criticalIssues: seq<Issue>,
    risks: seq<Risk>,
    strengths: seq<Strength>)

  const Perspectives: seq<Perspective> := [Pmo, Architect, Developer, Qa, Ux]
  const Levels: seq<Level> := [Showstopper, Critical, Major, Minor, Suggestion]

  // ---------------------------------------------------------------
  // Scoring
  // ---------------------------------------------------------------

  /** Points one issue of a level takes off its perspective's score. */
  function Deduction(l: Level): (d: real)
    ensures 0.0 < d <= 20.0
  {
    match l
    case Showstopper => 20.0
    case Critical => 10.0
    case Major => 5.0
    case Minor => 2.0
    case Suggestion => 0.5
  }

  /** The share a perspective has in the composite score. */
  function Weight(p: Perspective): real
  {
    match p
    case Pmo => 0.20
    case Architect => 0.25
    case Developer => 0.25
    case Qa => 0.20
    case Ux => 0.10
  }

  lemma WeightsSumToOne()
    ensures Weight(Pmo) + Weight(Architect) + Weight(Developer) + Weight(Qa) + Weight(Ux) == 1.0
  {
  }

  /** The deduction an issue makes on perspective `p`'s score. */
  function DeductionOn(p: Perspective): Issue -> real
  {
    (i: Issue) => if i.perspective == p then Deduction(i.level) else 0.0
  }

  /** Everything deducted from perspective `p`. */
  function TotalDeduction(issues: seq<Issue>, p: Perspective): (d: real)
    ensures d >= 0.0
  {
    DeductionsNonNegative(issues, p);
    SumOf(issues, DeductionOn(p))
  }

  lemma DeductionsNonNegative(issues: seq<Issue>, p: Perspective)
    ensures SumOf(issues, DeductionOn(p)) >= 0.0
  {
    SumNonNegative(issues, DeductionOn(p));
  }

  function Clamp(x: real): real { if x < 0.0 then 0.0 else x }

  /** A perspective's score: 100 minus its deductions, never below 0. */
  function DimensionScore(issues: seq<Issue>, p: Perspective): (s: real)
    ensures 0.0 <= s <= 100.0
    ensures s == 100.0 <==> TotalDeduction(issues, p) == 0.0
  {
    Clamp(100.0 - TotalDeduction(issues, p))
  }

  /** All five perspective scores. */
  function Dimensions(issues: seq<Issue>): (dims: map<Perspective, real>)
    ensures forall p: Perspective :: p in dims && dims[p] == DimensionScore(issues, p)
  {
    AllPerspectives();
    map p: Perspective | p in Perspectives :: DimensionScore(issues, p)
  }

  /** The weighted composite of five perspective scores. */
  function Composite(dims: map<Perspective, real>): real
    requires forall p: Perspective :: p in dims
  {
    dims[Pmo] * Weight(Pmo) + dims[Architect] * Weight(Architect)
    + dims[Developer] * Weight(Developer) + dims[Qa] * Weight(Qa) + dims[Ux] * Weight(Ux)
  }

  lemma AllPerspectives()
    ensures forall p: Perspective :: p in Perspectives
  {
    forall p: Perspective ensures p in Perspectives {
      match p
      case Pmo => assert Perspectives[0] == p;
      case Architect => assert Perspectives[1] == p;
      case Developer => assert Perspectives[2] == p;
      case Qa => assert Perspectives[3] == p;
      case Ux => assert Perspectives[4] == p;
    }
  }

  lemma AllLevels()
    ensures forall l: Level :: l in Levels
  {
    forall l: Level ensures l in Levels {
      match l
      case Showstopper => assert Levels[0] == l;
      case Critical => assert Levels[1] == l;
      case Major => assert Levels[2] == l;
      case Minor => assert Levels[3] == l;
      case Suggestion => assert Levels[4] == l;
    }
  }

  /** The composite health score lies in [0, 100]. */
  lemma CompositeBounds(issues: seq<Issue>)
    ensures 0.0 <= Composite(Dimensions(issues)) <= 100.0
  {
    var dims := Dimensions(issues);
    var a, b, c, d, e := dims[Pmo], dims[Architect], dims[Developer], dims[Qa], dims[Ux];
    assert 0.0 <= a <= 100.0 && 0.0 <= b <= 100.0 && 0.0 <= c <= 100.0;
    assert 0.0 <= d <= 100.0 && 0.0 <= e <= 100.0;
    assert Composite(dims) == a * 0.20 + b * 0.25 + c * 0.25 + d * 0.20 + e * 0.10;
  }

  /** An issue of no perspective deducts nothing: with no issues every
      score, and the composite, is 100. */
  lemma NoIssuesFullHealth()
    ensures forall p: Perspective :: Dimensions([])[p] == 100.0
    ensures Composite(Dimensions([])) == 100.0
  {
    WeightsSumToOne();
  }

  /** Reordering the issues changes no perspective score, hence not the composite. */
  lemma ScoresIgnoreOrder(a: seq<Issue>, b: seq<Issue>)
    requires multiset(a) == multiset(b)
    ensures Dimensions(a) == Dimensions(b)
    ensures Composite(Dimensions(a)) == Composite(Dimensions(b))
  {
    forall p: Perspective ensures TotalDeduction(a, p) == TotalDeduction(b, p) {
      SumPermutation(a, b, DeductionOn(p));
    }
  }

  /** One more issue never raises a perspective score. */
  lemma MoreIssuesNeverHigher(issues: seq<Issue>, i: Issue, p: Perspective)
    ensures DimensionScore(issues + [i], p) <= DimensionScore(issues, p)
    ensures i.perspective != p ==> DimensionScore(issues + [i], p) == DimensionScore(issues, p)
  {
    SumSnoc(issues, i, DeductionOn(p));
  }

  // ---------------------------------------------------------------
  // Report statistics
  // ---------------------------------------------------------------

  function LevelCount(issues: seq<Issue>, l: Level): (n: nat)
    ensures n <= |issues|
  {
    if |issues| == 0 then 0
    else LevelCount(issues[..|issues| - 1], l) + (if issues[|issues| - 1].level == l then 1 else 0)
  }

  function PerspectiveLevelCount(issues: seq<Issue>, p: Perspective, l: Level): (n: nat)
    ensures n <= LevelCount(issues, l)
  {
    if |issues| == 0 then 0
    else PerspectiveLevelCount(issues[..|issues| - 1], p, l)
         + (if issues[|issues| - 1].level == l && issues[|issues| - 1].perspective == p then 1 else 0)
  }

  /** The five level counts add up to the number of issues. */
  lemma {:induction false} LevelCountsSum(issues: seq<Issue>)
    ensures LevelCount(issues, Showstopper) + LevelCount(issues, Critical) + LevelCount(issues, Major)
            + LevelCount(issues, Minor) + LevelCount(issues, Suggestion) == |issues|
  {
    if |issues| > 0 {
      LevelCountsSum(issues[..|issues| - 1]);
    }
  }

  /** The count of each level, for all five levels. */
  function ByLevel(issues: seq<Issue>): map<Level, nat>
  {
    map l: Level | l in Levels :: LevelCount(issues, l)
  }

  /** One perspective's level counts: the levels it has issues of, plus
      SHOWSTOPPER and CRITICAL once it has any issue at all. */
  function PerspectiveCounts(issues: seq<Issue>, p: Perspective): map<Level, nat>
  {
    var touched := HasPerspective(issues, p);
    map l: Level | l in Levels
                   && (PerspectiveLevelCount(issues, p, l) > 0
                       || (touched && (l == Showstopper || l == Critical)))
      :: PerspectiveLevelCount(issues, p, l)
  }

  /** Whether some issue is filed under `p`. */
  predicate HasPerspective(issues: seq<Issue>, p: Perspective)
  {
    |issues| > 0 && (HasPerspective(issues[..|issues| - 1], p) || issues[|issues| - 1].perspective == p)
  }

  /** A map holding exactly the levels `issues` has under `p`, padded
      with the severe levels when `p` has any issue, is `PerspectiveCounts`. */
  lemma CountsComplete(issues: seq<Issue>, p: Perspective, counts: map<Level, nat>)
    requires forall l :: l in counts <==> (PerspectiveLevelCount(issues, p, l) > 0
                                          || (HasPerspective(issues, p) && (l == Showstopper || l == Critical)))
    requires forall l :: l in counts ==> counts[l] == PerspectiveLevelCount(issues, p, l)
    ensures counts == PerspectiveCounts(issues, p)
  {
    AllLevels();
  }

  /** The dictionary with SHOWSTOPPER and CRITICAL added at 0 where absent,
      when `touched`. */
  function Padded(m: map<Level, nat>, touched: bool): map<Level, nat>
  {
    if !touched then m
    else
      var m' := if Showstopper in m then m else m[Showstopper := 0];
      if Critical in m' then m' else m'[Critical := 0]
  }

  /** Padding the tally of a perspective gives its level counts. */
  lemma PaddedTally(issues: seq<Issue>, p: Perspective)
    ensures Padded(Tally(issues, p), HasPerspective(issues, p)) == PerspectiveCounts(issues, p)
  {
    TallyCounts(issues, p);
    PaddedCounts(issues, p, Tally(issues, p));
  }

  /** Padding a dictionary of exactly the occurring levels and their counts. */
  lemma PaddedCounts(issues: seq<Issue>, p: Perspective, m: map<Level, nat>)
    requires forall l :: l in m <==> PerspectiveLevelCount(issues, p, l) > 0
    requires forall l :: l in m ==> m[l] == PerspectiveLevelCount(issues, p, l)
    ensures Padded(m, HasPerspective(issues, p)) == PerspectiveCounts(issues, p)
  {
    var t := HasPerspective(issues, p);
    var c := Padded(m, t);
    forall l
      ensures l in c <==> (PerspectiveLevelCount(issues, p, l) > 0 || (t && (l == Showstopper || l == Critical)))
      ensures l in c ==> c[l] == PerspectiveLevelCount(issues, p, l)
    {
      if l !in m {
        assert PerspectiveLevelCount(issues, p, l) == 0;
      }
    }
    CountsComplete(issues, p, c);
  }

  /** The levels of the issues filed under `p`, each with its count, as a
      dictionary filled in issue order. */
  function Tally(issues: seq<Issue>, p: Perspective): map<Level, nat>
  {
    if |issues| == 0 then map[]
    else
      var m := Tally(issues[..|issues| - 1], p);
      var i := issues[|issues| - 1];
      if i.perspective != p then m
      else m[i.level := (if i.level in m then m[i.level] else 0) + 1]
  }

  /** The dictionary holds exactly the levels that occur, with their counts. */
  lemma {:induction false} TallyCounts(issues: seq<Issue>, p: Perspective)
    ensures forall l :: l in Tally(issues, p) <==> PerspectiveLevelCount(issues, p, l) > 0
    ensures forall l :: l in Tally(issues, p) ==> Tally(issues, p)[l] == PerspectiveLevelCount(issues, p, l)
  {
    if |issues| > 0 {
      TallyCounts(issues[..|issues| - 1], p);
    }
  }

  function ByPerspective(issues: seq<Issue>): map<Perspective, map<Level, nat>>
  {
    map p: Perspective | p in Perspectives :: PerspectiveCounts(issues, p)
  }

  predicate IsSevere(i: Issue)
  {
    i.level == Showstopper || i.level == Critical
  }

  /** Releasable: no SHOWSTOPPER and fewer than three CRITICAL issues. */
  predicate CanRelease(issues: seq<Issue>)
  {
    LevelCount(issues, Showstopper) == 0 && LevelCount(issues, Critical) < 3
  }

  // ---------------------------------------------------------------
  // Code-completeness recognisers
  // ---------------------------------------------------------------

  /** `fun\s+(\w+)\s*\([^)]*\)[^{]*\{\s*\}` attempted at `p`: the function
      name and the end of the match. Each part of the pattern can only
      end at one place (a run of spaces, a run of word characters, the
      first `)` and the first `{`), so no backtracking is needed. */
  function EmptyFunAt(s: string, p: nat): (r: Option<(string, nat)>)
    requires p <= |s|
    ensures r.Some? ==> p < r.value.1 <= |s| && |r.value.0| > 0
  {
    if !HasAt(s, p, "fun") then None
    else
      var a := SkipSpace(s, p + 3);
      if a == p + 3 then None
      else
        var b := WordEnd(s, a);
        if b == a then None
        else
          var c := SkipSpace(s, b);
          if c == |s| || s[c] != '(' then None
          else match FindChar(s, ')', c + 1)
            case None => None
            case Some(d) =>
              match EmptyBodyAfter(s, d + 1)
              case None => None
              case Some(f) => Some((s[a..b], f))
  }

  /** `[^{]*\{\s*\}` at `p`: the end of the empty braces. */
  function EmptyBodyAfter(s: string, p: nat): (r: Option<nat>)
    requires p <= |s|
    ensures r.Some? ==> p < r.value <= |s|
  {
    match FindChar(s, '{', p)
    case None => None
    case Some(e) =>
      var f := SkipSpace(s, e + 1);
      if f == |s| || s[f] != '}' then None
      else Some(f + 1)
  }

  /** `re.findall` of the empty-function pattern from `p`: the names, left to right. */
  function EmptyFunctionNames(s: string, p: nat): seq<string>
    requires p <= |s|
    decreases |s| - p
  {
    if p == |s| then []
    else match EmptyFunAt(s, p)
      case Some(m) => [m.0] + EmptyFunctionNames(s, m.1)
      case None => EmptyFunctionNames(s, p + 1)
  }

  /** `//\s*(TODO|FIXME|XXX).*` attempted at `p`: the marker and the end of the line. */
  function TodoAt(s: string, p: nat): (r: Option<(string, nat)>)
    requires p <= |s|
    ensures r.Some? ==> p < r.value.1 <= |s| && r.value.0 in {"TODO", "FIXME", "XXX"}
  {
    if !HasAt(s, p, "//") then None
    else
      var a := SkipSpace(s, p + 2);
      var marker :=
        if HasAt(s, a, "TODO") then "TODO"
        else if HasAt(s, a, "FIXME") then "FIXME"
        else if HasAt(s, a, "XXX") then "XXX"
        else "";
      if marker == "" then None
      else Some((marker, LineEnd(s, a + |marker|)))
  }

  /** `re.findall` of the TODO pattern from `p`: the markers, left to right. */
  function TodoMarkers(s: string, p: nat): (ms: seq<string>)
    requires p <= |s|
    decreases |s| - p
    ensures forall k :: 0 <= k < |ms| ==> ms[k] in {"TODO", "FIXME", "XXX"}
  {
    if p == |s| then []
    else match TodoAt(s, p)
      case Some(m) => [m.0] + TodoMarkers(s, m.1)
      case None => TodoMarkers(s, p + 1)
  }

  /** Functions whose empty body is legitimate. */
  predicate EmptyAllowed(name: string)
  {
    name in {"toString", "hashCode", "equals", "onCreate", "onDestroy"}
  }

  /** The issues for the empty functions found, in order, skipping the allowed names. */
  function EmptyFunctionIssues(path: string, names: seq<string>): (r: seq<Issue>)
    ensures |r| <= |names|
  {
    if |names| == 0 then []
    else
      var prev := EmptyFunctionIssues(path, names[..|names| - 1]);
      var name := names[|names| - 1];
      if EmptyAllowed(name) then prev
      else prev + [Issue(Developer, Major, EmptyFunction(name), path, 0)]
  }

  function TodoIssues(path: string, markers: seq<string>): (r: seq<Issue>)
    ensures |r| == |markers|
  {
    if |markers| == 0 then []
    else TodoIssues(path, markers[..|markers| - 1])
         + [Issue(Developer, Minor, UnfinishedTask(markers[|markers| - 1]), path, 0)]
  }

  /** The completeness issues of one file. */
  function FileCompletenessIssues(path: string, content: string): seq<Issue>
  {
    EmptyFunctionIssues(path, EmptyFunctionNames(content, 0))
    + TodoIssues(path, TodoMarkers(content, 0))
  }

  /** The completeness issues of the first `n` files, in file order. */
  function CompletenessIssues(files: seq<(string, string)>, n: nat): seq<Issue>
    requires n <= |files|
  {
    if n == 0 then []
    else CompletenessIssues(files, n - 1)
         + (if EndsWith(files[n - 1].0, ".kt") then FileCompletenessIssues(files[n - 1].0, files[n - 1].1) else [])
  }

  /** The empty-function rule never reports an allowed name, reports every
      other name once, and always as a DEVELOPER MAJOR issue. */
  lemma {:induction false} EmptyFunctionRule(path: string, names: seq<string>)
    ensures |EmptyFunctionIssues(path, names)| == Count(names, (n: string) => !EmptyAllowed(n))
    ensures forall i :: i in EmptyFunctionIssues(path, names) ==>
      i.perspective == Developer && i.level == Major && i.kind.EmptyFunction?
      && !EmptyAllowed(i.kind.name) && i.kind.name in names
  {
    if |names| > 0 {
      var init := names[..|names| - 1];
      var last := names[|names| - 1];
      EmptyFunctionRule(path, init);
      assert names == init + [last];
      CountSnoc(init, last, (n: string) => !EmptyAllowed(n));
    }
  }

  // ---------------------------------------------------------------
  // Test coverage
  // ---------------------------------------------------------------

  /** Test files are `.kt` files under a `/test/` or `/androidTest/`
      directory; source files are other `.kt` files under `/main/`. */
  predicate IsTestFile(f: (string, string))
  {
    EndsWith(f.1, ".kt") && (Contains(f.0, "/test/") || Contains(f.0, "/androidTest/"))
  }

  predicate IsSourceFile(f: (string, string))
  {
    EndsWith(f.1, ".kt") && !(Contains(f.0, "/test/") || Contains(f.0, "/androidTest/"))
    && Contains(f.0, "/main/")
  }

  function Max1(n: nat): (m: nat)
    ensures m >= 1
  {
    if n < 1 then 1 else n
  }

  /** Coverage is too low when test files are under 30% of source files. */
  predicate LowCoverage(tests: nat, sources: nat)
  {
    tests as real / Max1(sources) as real < 0.3
  }

  /** The same threshold in whole numbers. */
  lemma LowCoverageIff(tests: nat, sources: nat)
    ensures LowCoverage(tests, sources) <==> 10 * tests < 3 * Max1(sources)
  {
    var m := Max1(sources) as real;
    var t := tests as real;
    var q := t / m;
    assert q * m == t;
    ScaleLess(q, 0.3, m);
    assert LowCoverage(tests, sources) <==> t < 0.3 * m;
    ScaleLess(t, 0.3 * m, 10.0);
    assert 0.3 * m * 10.0 == 3.0 * m;
    assert (10 * tests) as real == t * 10.0;
    assert (3 * Max1(sources)) as real == 3.0 * m;
  }

  lemma ScaleLess(q: real, c: real, m: real)
    requires m > 0.0
    ensures q < c <==> q * m < c * m
  {
    if q < c {
      assert (c - q) * m > 0.0;
    }
    if q * m < c * m {
      assert (c - q) * m > 0.0;
    }
  }

  /** The view models whose tests are looked for. */
  const KeyComponents: seq<string> := ["StoryViewModel", "DialogueViewModel", "CameraViewModel"]

  /** A key component counts as tested when some test file name contains
      the component name without its `ViewModel` part. */
  predicate HasTestFor(component: string, testNames: seq<string>)
  {
    exists k :: 0 <= k < |testNames| && Contains(testNames[k], Replace(component, "ViewModel", ""))
  }

  function Names(files: seq<(string, string)>): (r: seq<string>)
    ensures |r| == |files|
    ensures forall k :: 0 <= k < |files| ==> r[k] == files[k].1
  {
    seq(|files|, k requires 0 <= k < |files| => files[k].1)
  }

  /** The issues of the coverage check. */
  function CoverageIssues(files: seq<(string, string)>, components: seq<string>): seq<Issue>
  {
    var tests := Filter(files, IsTestFile);
    var sources := Filter(files, IsSourceFile);
    (if LowCoverage(|tests|, |sources|)
     then [Issue(Qa, Critical, LowTestCoverage(|tests|, |sources|), "", 0)] else [])
    + UntestedIssues(components, Names(tests))
  }

  function UntestedIssues(components: seq<string>, testNames: seq<string>): seq<Issue>
  {
    if |components| == 0 then []
    else UntestedIssues(components[..|components| - 1], testNames)
         + (if HasTestFor(components[|components| - 1], testNames) then []
            else [Issue(Qa, Major, UntestedComponent(components[|components| - 1]), "", 0)])
  }

  /** Exactly one CRITICAL coverage issue, and iff the ratio is under 0.3. */
  lemma CoverageRule(files: seq<(string, string)>, components: seq<string>)
    ensures var tests := |Filter(files, IsTestFile)|;
            var sources := |Filter(files, IsSourceFile)|;
            Count(CoverageIssues(files, components), IsSevere) == (if 10 * tests < 3 * Max1(sources) then 1 else 0)
  {
    var tests := Filter(files, IsTestFile);
    var sources := Filter(files, IsSourceFile);
    LowCoverageIff(|tests|, |sources|);
    var head: seq<Issue> :=
      if LowCoverage(|tests|, |sources|)
      then [Issue(Qa, Critical, LowTestCoverage(|tests|, |sources|), "", 0)] else [];
    UntestedNotSevere(components, Names(tests));
    CountAppend(head, UntestedIssues(components, Names(tests)), IsSevere);
  }

  lemma {:induction false} UntestedNotSevere(components: seq<string>, testNames: seq<string>)
    ensures Count(UntestedIssues(components, testNames), IsSevere) == 0
  {
    if |components| > 0 {
      var c := components[|components| - 1];
      UntestedNotSevere(components[..|components| - 1], testNames);
      var extra: seq<Issue> := if HasTestFor(c, testNames) then [] else [Issue(Qa, Major, UntestedComponent(c), "", 0)];
      CountAppend(UntestedIssues(components[..|components| - 1], testNames), extra, IsSevere);
    }
  }

  // ---------------------------------------------------------------
  // The validator
  // ---------------------------------------------------------------

  /** The counting loop of the report: a level is a key once an issue of it
      has been seen. */
  method TallyLevels(issues: seq<Issue>) returns (byLevel: map<Level, nat>)
    ensures forall l :: l in byLevel <==> LevelCount(issues, l) > 0
    ensures forall l :: l in byLevel ==> byLevel[l] == LevelCount(issues, l)
  {
    byLevel := map[];
    var k := 0;
    while k < |issues|
      invariant 0 <= k <= |issues|
      invariant forall l :: l in byLevel <==> LevelCount(issues[..k], l) > 0
      invariant forall l :: l in byLevel ==> byLevel[l] == LevelCount(issues[..k], l)
    {
      assert issues[..k + 1][..k] == issues[..k];
      var l := issues[k].level;
      var c := if l in byLevel then byLevel[l] else 0;
      byLevel := byLevel[l := c + 1];
      k := k + 1;
    }
    assert issues[..|issues|] == issues;
  }

  /** Reading every level of the default dictionary adds the missing ones
      with a count of zero. */
  method PadLevels(issues: seq<Issue>, counts: map<Level, nat>) returns (byLevel: map<Level, nat>)
    requires forall l :: l in counts ==> counts[l] == LevelCount(issues, l)
    requires forall l :: LevelCount(issues, l) > 0 ==> l in counts
    ensures forall l :: l in byLevel ==> byLevel[l] == LevelCount(issues, l)
    ensures forall i :: 0 <= i < |Levels| ==> Levels[i] in byLevel
  {
    byLevel := counts;
    var j := 0;
    while j < |Levels|
      invariant 0 <= j <= |Levels|
      invariant forall l :: l in byLevel ==> byLevel[l] == LevelCount(issues, l)
      invariant forall l :: LevelCount(issues, l) > 0 ==> l in byLevel
      invariant forall i :: 0 <= i < j ==> Levels[i] in byLevel
    {
      if Levels[j] !in byLevel {
        byLevel := byLevel[Levels[j] := 0];
      }
      j := j + 1;
    }
  }

  /** The loop over the empty-function names of one file: one MAJOR issue
      per name that is not exempt. */
  method EmptyFunctionReport(path: string, names: seq<string>) returns (found: seq<Issue>)
    ensures found == EmptyFunctionIssues(path, names)
  {
    found := [];
    var k := 0;
    while k < |names|
      invariant 0 <= k <= |names|
      invariant found == EmptyFunctionIssues(path, names[..k])
    {
      assert names[..k + 1][..k] == names[..k];
      if !EmptyAllowed(names[k]) {
        found := found + [Issue(Developer, Major, EmptyFunction(names[k]), path, 0)];
      }
      k := k + 1;
    }
    assert names[..|names|] == names;
  }

  /** The loop over the task markers of one file: one MINOR issue each. */
  method TodoReport(path: string, markers: seq<string>) returns (found: seq<Issue>)
    ensures found == TodoIssues(path, markers)
  {
    found := [];
    var k := 0;
    while k < |markers|
      invariant 0 <= k <= |markers|
      invariant found == TodoIssues(path, markers[..k])
    {
      assert markers[..k + 1][..k] == markers[..k];
      found := found + [Issue(Developer, Minor, UnfinishedTask(markers[k]), path, 0)];
      k := k + 1;
    }
    assert markers[..|markers|] == markers;
  }

  class IntelligentValidatorV6 {
    var issues: seq<Issue>
    var score: real
    var dimensions: map<Perspective, real>
    var risks: seq<Risk>
    var strengths: seq<Strength>

    constructor()
      ensures issues == [] && score == 100.0 && dimensions == map[]
      ensures risks == [] && strengths == []
    {
      issues := [];
      score := 100.0;
      dimensions := map[];
      risks := [];
      strengths := [];
    }

    method AddIssue(i: Issue)
      modifies this
      ensures issues == old(issues) + [i]
      ensures score == old(score) && dimensions == old(dimensions)
      ensures risks == old(risks) && strengths == old(strengths)
    {
      issues := issues + [i];
    }

    /** The empty-function and TODO issues of one file. */
    method CheckFileCompleteness(path: string, content: string)
      modifies this
      ensures issues == old(issues) + FileCompletenessIssues(path, content)
      ensures score == old(score) && dimensions == old(dimensions)
      ensures risks == old(risks) && strengths == old(strengths)
    {
      var empties := EmptyFunctionReport(path, EmptyFunctionNames(content, 0));
      issues := issues + empties;
      var todos := TodoReport(path, TodoMarkers(content, 0));
      issues := issues + todos;
      AppendAssoc(old(issues), empties, todos);
    }

    /** `_check_code_completeness` over the given `(path, content)` files. */
    method CheckCodeCompleteness(files: seq<(string, string)>)
      modifies this
      ensures issues == old(issues) + CompletenessIssues(files, |files|)
      ensures score == old(score) && dimensions == old(dimensions)
      ensures risks == old(risks) && strengths == old(strengths)
    {
      var n := 0;
      while n < |files|
        invariant 0 <= n <= |files|
        invariant issues == old(issues) + CompletenessIssues(files, n)
        invariant score == old(score) && dimensions == old(dimensions)
        invariant risks == old(risks) && strengths == old(strengths)
      {
        ghost var done := CompletenessIssues(files, n);
        ghost var found: seq<Issue> := [];
        if EndsWith(files[n].0, ".kt") {
          CheckFileCompleteness(files[n].0, files[n].1);
          found := FileCompletenessIssues(files[n].0, files[n].1);
        }
        assert CompletenessIssues(files, n + 1) == done + found;
        AppendAssoc(old(issues), done, found);
        n := n + 1;
      }
    }

    /** `_check_test_coverage` over the `(directory, file name)` pairs found under `app/src`. */
    method CheckTestCoverage(files: seq<(string, string)>)
      modifies this
      ensures issues == old(issues) + CoverageIssues(files, KeyComponents)
      ensures score == old(score) && dimensions == old(dimensions)
      ensures risks == old(risks) && strengths == old(strengths)
    {
      var tests := Filter(files, IsTestFile);
      var sources := Filter(files, IsSourceFile);
      if LowCoverage(|tests|, |sources|) {
        AddIssue(Issue(Qa, Critical, LowTestCoverage(|tests|, |sources|), "", 0));
      }
      CheckKeyComponents(KeyComponents, Names(tests));
    }

    /** A MAJOR QA issue for every component no test file name mentions. */
    method CheckKeyComponents(components: seq<string>, testNames: seq<string>)
      modifies this
      ensures issues == old(issues) + UntestedIssues(components, testNames)
      ensures score == old(score) && dimensions == old(dimensions)
      ensures risks == old(risks) && strengths == old(strengths)
    {
      var k := 0;
      while k < |components|
        invariant 0 <= k <= |components|
        invariant issues == old(issues) + UntestedIssues(components[..k], testNames)
        invariant score == old(score) && dimensions == old(dimensions)
        invariant risks == old(risks) && strengths == old(strengths)
      {
        assert components[..k + 1][..k] == components[..k];
        if !HasTestFor(components[k], testNames) {
          AddIssue(Issue(Qa, Major, UntestedComponent(components[k]), "", 0));
        }
        k := k + 1;
      }
      assert components[..|components|] == components;
    }

    /** One perspective's score: 100, minus each of its issues' deductions, clamped at 0. */
    method ScorePerspective(p: Perspective) returns (s: real)
      ensures s == DimensionScore(issues, p)
    {
      s := 100.0;
      var k := 0;
      while k < |issues|
        invariant 0 <= k <= |issues|
        invariant s == 100.0 - SumOf(issues[..k], DeductionOn(p))
      {
        assert issues[..k + 1] == issues[..k] + [issues[k]];
        SumSnoc(issues[..k], issues[k], DeductionOn(p));
        if issues[k].perspective == p {
          s := s - Deduction(issues[k].level);
        }
        k := k + 1;
      }
      assert issues[..|issues|] == issues;
      if s < 0.0 {
        s := 0.0;
      }
    }

    /** `evaluate_system_health`: scores every perspective, combines them,
        and appends the risks and strengths the thresholds call for. */
    method EvaluateSystemHealth()
      modifies this
      ensures dimensions == Dimensions(issues)
      ensures forall p: Perspective :: p in dimensions
      ensures score == Composite(dimensions)
      ensures 0.0 <= score <= 100.0
      ensures issues == old(issues)
      ensures risks == old(risks) + (if score < 60.0 then [QualityBelowBar] else [])
                                  + (if dimensions[Qa] < 50.0 then [TestingInsufficient] else [])
      ensures strengths == old(strengths) + (if dimensions[Architect] > 80.0 then [SoundArchitecture] else [])
    {
      var dims := ScoreDimensions();
      dimensions := dims;
      CompositeBounds(issues);
      score := Composite(dims);
      RecordRisks();
    }

    /** The risks and strengths the score and the dimension scores call for. */
    method RecordRisks()
      requires forall p: Perspective :: p in dimensions
      modifies this
      ensures issues == old(issues) && score == old(score) && dimensions == old(dimensions)
      ensures risks == old(risks) + (if score < 60.0 then [QualityBelowBar] else [])
                                  + (if dimensions[Qa] < 50.0 then [TestingInsufficient] else [])
      ensures strengths == old(strengths) + (if dimensions[Architect] > 80.0 then [SoundArchitecture] else [])
    {
      if score < 60.0 {
        risks := risks + [QualityBelowBar];
      }
      if dimensions[Qa] < 50.0 {
        risks := risks + [TestingInsufficient];
      }
      if dimensions[Architect] > 80.0 {
        strengths := strengths + [SoundArchitecture];
      }
    }

    /** The perspective loop: every perspective's score over the issues. */
    method ScoreDimensions() returns (dims: map<Perspective, real>)
      ensures dims == Dimensions(issues)
    {
      dims := map[];
      var k := 0;
      while k < |Perspectives|
        invariant 0 <= k <= |Perspectives|
        invariant forall j :: 0 <= j < k ==>
          Perspectives[j] in dims && dims[Perspectives[j]] == DimensionScore(issues, Perspectives[j])
      {
        var s := ScorePerspective(Perspectives[k]);
        dims := dims[Perspectives[k] := s];
        k := k + 1;
      }
      AllPerspectives();
    }

    /** `generate_comprehensive_report`: counts per level and per perspective,
        the release verdict and the first 20 severe issues. */
    method GenerateComprehensiveReport() returns (r: Report)
      ensures r.canRelease <==> CanRelease(issues)
      ensures r.totalIssues == |issues|
      ensures r.byLevel == ByLevel(issues)
      ensures r.byPerspective == ByPerspective(issues)
      ensures r.criticalIssues == Take(Filter(issues, IsSevere), 20)
      ensures r.healthScore == score && r.dimensions == dimensions
      ensures r.risks == risks && r.strengths == strengths
    {
      var byLevel := LevelStats();
      var byPerspective := PerspectiveStats();
      var critical := Filter(issues, IsSevere);
      r := Report(score, dimensions,
                  byLevel[Showstopper] == 0 && byLevel[Critical] < 3,
                  |issues|, byLevel, byPerspective, Take(critical, 20), risks, strengths);
    }

    /** The per-level counts: tallied over the issues, then every level the
        printed summary reads is present. */
    method LevelStats() returns (byLevel: map<Level, nat>)
      ensures byLevel == ByLevel(issues)
    {
      byLevel := TallyLevels(issues);
      // the printed summary touches every level of the default dictionary
      byLevel := PadLevels(issues, byLevel);
      AllLevels();
    }

    /** The per-perspective counts, as the report's printed distribution leaves them. */
    method PerspectiveStats() returns (m: map<Perspective, map<Level, nat>>)
      ensures m == ByPerspective(issues)
    {
      m := map[];
      var k := 0;
      while k < |Perspectives|
        invariant 0 <= k <= |Perspectives|
        invariant forall p :: p in m <==> p in Perspectives[..k]
        invariant forall p :: p in m ==> m[p] == PerspectiveCounts(issues, p)
      {
        var counts := CountPerspective(Perspectives[k]);
        m := m[Perspectives[k] := counts];
        k := k + 1;
      }
      assert Perspectives[..5] == Perspectives;
    }

    /** One perspective's level counts, padded with the severe levels
        once the perspective has any issue. */
    method CountPerspective(p: Perspective) returns (counts: map<Level, nat>)
      ensures counts == PerspectiveCounts(issues, p)
    {
      var touched;
      counts, touched := TallyPerspective(p);
      if touched {
        if Showstopper !in counts {
          counts := counts[Showstopper := 0];
        }
        if Critical !in counts {
          counts := counts[Critical := 0];
        }
      }
      PaddedTally(issues, p);
    }

    /** The levels of the issues under `p` with their counts, and whether there is any. */
    method TallyPerspective(p: Perspective) returns (counts: map<Level, nat>, touched: bool)
      ensures touched == HasPerspective(issues, p)
      ensures counts == Tally(issues, p)
    {
      counts := map[];
      touched := false;
      var k := 0;
      while k < |issues|
        invariant 0 <= k <= |issues|
        invariant touched == HasPerspective(issues[..k], p)
        invariant counts == Tally(issues[..k], p)
      {
        assert issues[..k + 1][..k] == issues[..k];
        if issues[k].perspective == p {
          var l := issues[k].level;
          var c := if l in counts then counts[l] else 0;
          counts := counts[l := c + 1];
          touched := true;
        }
        k := k + 1;
      }
      assert issues[..|issues|] == issues;
    }
  }
}
