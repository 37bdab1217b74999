/** The false-positive patch for the version 6 validator. It re-checks
    error handling only in implementation classes and view models, reports
    untested view models from a fixed short list, and writes a report whose
    verdict and score do not depend on what it found. */
module ValidatorV6Patch {
  import opened Text
  import opened Seqs

  /** The one severity this script writes. */
  datatype Severity = Major

  datatype IssueType = MissingErrorHandling | MissingTest

  datatype PatchIssue = PatchIssue(file: string, issueType: IssueType, severity: Severity)

  /** A file under `app/src/main`: its directory, its name, and its text, or
      `None` when reading it fails (the script swallows that error). */
  datatype SourceFile = SourceFile(root: string, name: string, content: Option<string>)

  /** A file the walk of `app/src` visits: its directory and its name. */
  datatype WalkEntry = WalkEntry(root: string, name: string)

  datatype PatchReport = PatchReport(
    originalIssues: nat,
    realIssues: nat,
    falsePositives: int,
    canRelease: bool,
    adjustedScore: nat,
    details: seq<PatchIssue>)

  const NetworkMarkers: seq<string> := ["api.", "apiService.", "retrofit", "HttpUrl"]

  const HandlingMarkers: seq<string> :=
    ["try", "catch", ".onFailure", ".onError", "Result.failure", "Result.success"]

  const ImportantViewModels: set<string> := {"StoryViewModel", "DialogueViewModel", "ProfileViewModel"}

  /** The issue count of the report this patch corrects. */
  const OriginalIssues: nat := 38

  const AdjustedScore: nat := 88

  // ---------------------------------------------------------------
  // Error handling
  // ---------------------------------------------------------------

  /** Only implementation classes, and view models whose name has no
      `Test`, are checked. */
  predicate IsChecked(f: SourceFile)
  {
    EndsWith(f.name, "Impl.kt") || (EndsWith(f.name, "ViewModel.kt") && !Contains(f.name, "Test"))
  }

  /** A network call with none of the handling markers around it. */
  predicate LacksHandling(content: string)
  {
    ContainsAny(content, NetworkMarkers) && !ContainsAny(content, HandlingMarkers)
  }

  /** The issue one collected file contributes: none when it cannot be read. */
  function HandlingIssue(f: SourceFile): seq<PatchIssue>
  {
    if f.content.Some? && LacksHandling(f.content.value)
    then [PatchIssue(f.name, MissingErrorHandling, Major)]
    else []
  }

  /** The issues of the collected files, in collection order. */
  function ErrorHandlingIssues(files: seq<SourceFile>): (r: seq<PatchIssue>)
    ensures |r| <= |files|
  {
    if |files| == 0 then []
    else ErrorHandlingIssues(files[..|files| - 1]) + HandlingIssue(files[|files| - 1])
  }

  /** What `check_error_handling_smartly` appends for the walked files. */
  function ErrorHandlingReport(files: seq<SourceFile>): seq<PatchIssue>
  {
    ErrorHandlingIssues(Filter(files, IsChecked))
  }

  /** An issue is raised for a name exactly when some checked, readable
      file of that name calls the network without handling errors; every
      such issue is a MAJOR `missing_error_handling`. */
  lemma ErrorHandlingReportIff(files: seq<SourceFile>, x: PatchIssue)
    ensures x in ErrorHandlingReport(files) <==>
      x.issueType == MissingErrorHandling && x.severity == Major &&
      exists f :: f in files && IsChecked(f) && f.name == x.file && f.content.Some? && LacksHandling(f.content.value)
  {
    var checked := Filter(files, IsChecked);
    if x in ErrorHandlingReport(files) {
      var f := ErrorHandlingSound(checked, x);
    }
    if x.issueType == MissingErrorHandling && x.severity == Major &&
       exists f :: f in files && IsChecked(f) && f.name == x.file && f.content.Some? && LacksHandling(f.content.value) {
      var f :| f in files && IsChecked(f) && f.name == x.file && f.content.Some? && LacksHandling(f.content.value);
      FilterKeepsMember(files, IsChecked, f);
      ErrorHandlingComplete(checked, f);
    }
  }

  lemma {:induction false} ErrorHandlingSound(files: seq<SourceFile>, x: PatchIssue) returns (f: SourceFile)
    requires x in ErrorHandlingIssues(files)
    ensures f in files && f.name == x.file && f.content.Some? && LacksHandling(f.content.value)
    ensures x == PatchIssue(f.name, MissingErrorHandling, Major)
  {
    var init := files[..|files| - 1];
    if x in ErrorHandlingIssues(init) {
      f := ErrorHandlingSound(init, x);
      assert init[..] <= files;
      assert f in files by {
        var k :| 0 <= k < |init| && init[k] == f;
        assert files[k] == f;
      }
    } else {
      f := files[|files| - 1];
    }
  }

  lemma {:induction false} ErrorHandlingComplete(files: seq<SourceFile>, f: SourceFile)
    requires f in files && f.content.Some? && LacksHandling(f.content.value)
    ensures PatchIssue(f.name, MissingErrorHandling, Major) in ErrorHandlingIssues(files)
  {
    var init := files[..|files| - 1];
    if f != files[|files| - 1] {
      assert f in init by {
        var k :| 0 <= k < |files| && files[k] == f;
        assert init[k] == f;
      }
      ErrorHandlingComplete(init, f);
    }
  }

  /** A handled `Result.success` is enough: such a file is never reported. */
  lemma ResultSuccessHandles(content: string)
    requires Contains(content, "Result.success")
    ensures !LacksHandling(content)
  {
    assert Contains(content, HandlingMarkers[5]);
    ContainsAnyIff(content, HandlingMarkers);
  }

  // ---------------------------------------------------------------
  // Test coverage
  // ---------------------------------------------------------------

  /** `'ViewModel.kt' in file and '/main/' in root`. */
  predicate IsSourceViewModel(e: WalkEntry)
  {
    Contains(e.name, "ViewModel.kt") && Contains(e.root, "/main/")
  }

  /** The `elif`: a test file, when the entry is no main view model. */
  predicate IsTestEntry(e: WalkEntry)
  {
    !IsSourceViewModel(e) && Contains(e.name, "Test.kt") && Contains(e.root, "/test/")
  }

  function ViewModelName(e: WalkEntry): string
  {
    Replace(e.name, ".kt", "")
  }

  function TestedName(e: WalkEntry): string
  {
    Replace(e.name, "Test.kt", "")
  }

  /** `source_viewmodels` after the walk. */
  function SourceViewModels(entries: seq<WalkEntry>): seq<string>
  {
    if |entries| == 0 then []
    else
      var e := entries[|entries| - 1];
      SourceViewModels(entries[..|entries| - 1]) + (if IsSourceViewModel(e) then [ViewModelName(e)] else [])
  }

  /** `test_files` after the walk. */
  function TestNames(entries: seq<WalkEntry>): seq<string>
  {
    if |entries| == 0 then []
    else
      var e := entries[|entries| - 1];
      TestNames(entries[..|entries| - 1]) + (if IsTestEntry(e) then [TestedName(e)] else [])
  }

  /** `set(source_viewmodels) - set(test_files)`. */
  function Untested(entries: seq<WalkEntry>): set<string>
  {
    Elems(SourceViewModels(entries)) - Elems(TestNames(entries))
  }

  lemma {:induction false} SourceViewModelsIff(entries: seq<WalkEntry>, vm: string)
    ensures vm in SourceViewModels(entries) <==>
      exists k :: 0 <= k < |entries| && IsSourceViewModel(entries[k]) && ViewModelName(entries[k]) == vm
  {
    if |entries| > 0 {
      var init := entries[..|entries| - 1];
      SourceViewModelsIff(init, vm);
      if exists k :: 0 <= k < |entries| && IsSourceViewModel(entries[k]) && ViewModelName(entries[k]) == vm {
        var k :| 0 <= k < |entries| && IsSourceViewModel(entries[k]) && ViewModelName(entries[k]) == vm;
        if k < |init| {
          assert init[k] == entries[k];
        }
      }
    }
  }

  lemma {:induction false} TestNamesIff(entries: seq<WalkEntry>, vm: string)
    ensures vm in TestNames(entries) <==>
      exists k :: 0 <= k < |entries| && IsTestEntry(entries[k]) && TestedName(entries[k]) == vm
  {
    if |entries| > 0 {
      var init := entries[..|entries| - 1];
      TestNamesIff(init, vm);
      if exists k :: 0 <= k < |entries| && IsTestEntry(entries[k]) && TestedName(entries[k]) == vm {
        var k :| 0 <= k < |entries| && IsTestEntry(entries[k]) && TestedName(entries[k]) == vm;
        if k < |init| {
          assert init[k] == entries[k];
        }
      }
    }
  }

  /** A view model is untested exactly when a main-tree file yields its
      name and no test file, with `Test.kt` removed, does. */
  lemma UntestedIff(entries: seq<WalkEntry>, vm: string)
    ensures vm in Untested(entries) <==>
      (exists k :: 0 <= k < |entries| && IsSourceViewModel(entries[k]) && ViewModelName(entries[k]) == vm) &&
      !(exists k :: 0 <= k < |entries| && IsTestEntry(entries[k]) && TestedName(entries[k]) == vm)
  {
    SourceViewModelsIff(entries, vm);
    TestNamesIff(entries, vm);
  }

  /** The issues for the important untested view models, in the order the
      set yields them. */
  function MissingTestIssues(vms: seq<string>): (r: seq<PatchIssue>)
    ensures |r| == |vms|
  {
    if |vms| == 0 then []
    else MissingTestIssues(vms[..|vms| - 1]) + [PatchIssue(vms[|vms| - 1] + ".kt", MissingTest, Major)]
  }

  /** At most three coverage issues can be raised, one per listed view model. */
  lemma ImportantAtMostThree(vms: seq<string>)
    requires Distinct(vms) && Elems(vms) <= ImportantViewModels
    ensures |MissingTestIssues(vms)| <= 3
  {
    DistinctCard(vms);
    SubsetCard(Elems(vms), ImportantViewModels);
    assert |ImportantViewModels| == 3;
  }

  // ---------------------------------------------------------------
  // Report
  // ---------------------------------------------------------------

  /** The report `generate_patch_report` writes. */
  function PatchReportOf(issues: seq<PatchIssue>): (r: PatchReport)
    ensures r.realIssues == |issues| && r.details == issues
    ensures r.realIssues + r.falsePositives == OriginalIssues
  {
    PatchReport(OriginalIssues, |issues|, OriginalIssues - |issues|, true, AdjustedScore, issues)
  }

  /** Whatever two runs found, their reports agree on the verdict, the
      score and the original count: the release verdict is always yes. */
  lemma VerdictIgnoresFindings(a: seq<PatchIssue>, b: seq<PatchIssue>)
    ensures PatchReportOf(a).canRelease && PatchReportOf(b).canRelease
    ensures PatchReportOf(a).adjustedScore == PatchReportOf(b).adjustedScore == 88
    ensures PatchReportOf(a).originalIssues == PatchReportOf(b).originalIssues
    ensures |a| > OriginalIssues ==> PatchReportOf(a).falsePositives < 0
  {
  }

  // ---------------------------------------------------------------
  // The loops
  // ---------------------------------------------------------------

  /** The walk's filter: the files to check, in walk order. */
  method CollectChecked(files: seq<SourceFile>) returns (implFiles: seq<SourceFile>)
    ensures implFiles == Filter(files, IsChecked)
  {
    implFiles := [];
    var k := |files|;
    while k > 0
      invariant 0 <= k <= |files|
      invariant implFiles == Filter(files[k..], IsChecked)
    {
      k := k - 1;
      assert files[k..][1..] == files[k + 1..];
      if IsChecked(files[k]) {
        implFiles := [files[k]] + implFiles;
      }
    }
  }

  /** The reading loop: one issue per readable file without handling. */
  method ReportUnhandled(implFiles: seq<SourceFile>) returns (found: seq<PatchIssue>)
    ensures found == ErrorHandlingIssues(implFiles)
  {
    found := [];
    var k := 0;
    while k < |implFiles|
      invariant 0 <= k <= |implFiles|
      invariant found == ErrorHandlingIssues(implFiles[..k])
    {
      assert implFiles[..k + 1][..k] == implFiles[..k];
      var f := implFiles[k];
      match f.content {
        case None =>
        case Some(content) =>
          if LacksHandling(content) {
            found := found + [PatchIssue(f.name, MissingErrorHandling, Major)];
          }
      }
      k := k + 1;
    }
    assert implFiles[..|implFiles|] == implFiles;
  }

  /** The walk of `app/src`: the view-model names and the tested names. */
  method CollectNames(entries: seq<WalkEntry>) returns (sources: seq<string>, tests: seq<string>)
    ensures sources == SourceViewModels(entries) && tests == TestNames(entries)
  {
    sources, tests := [], [];
    var k := 0;
    while k < |entries|
      invariant 0 <= k <= |entries|
      invariant sources == SourceViewModels(entries[..k]) && tests == TestNames(entries[..k])
    {
      assert entries[..k + 1][..k] == entries[..k];
      var e := entries[k];
      if Contains(e.name, "ViewModel.kt") && Contains(e.root, "/main/") {
        sources := sources + [Replace(e.name, ".kt", "")];
      } else if Contains(e.name, "Test.kt") && Contains(e.root, "/test/") {
        tests := tests + [Replace(e.name, "Test.kt", "")];
      }
      k := k + 1;
    }
    assert entries[..|entries|] == entries;
  }

  /** The comprehension over the untested set: the listed view models in
      it, each once, in the order the set is visited. */
  method ImportantUntested(untested: set<string>) returns (important: seq<string>)
    ensures Distinct(important)
    ensures Elems(important) == untested * ImportantViewModels
  {
    var left := untested;
    important := [];
    while left != {}
      invariant left <= untested
      invariant Distinct(important)
      invariant Elems(important) == (untested - left) * ImportantViewModels
      decreases |left|
    {
      var vm :| vm in left;
      TakeOne(untested, left, vm);
      if vm in ImportantViewModels {
        DistinctSnoc(important, vm);
        ElemsSnoc(important, vm);
        important := important + [vm];
      }
      left := left - {vm};
    }
  }

  /** The issue loop over the important untested view models. */
  method ReportUntested(vms: seq<string>) returns (found: seq<PatchIssue>)
    ensures found == MissingTestIssues(vms)
  {
    found := [];
    var k := 0;
    while k < |vms|
      invariant 0 <= k <= |vms|
      invariant found == MissingTestIssues(vms[..k])
    {
      assert vms[..k + 1][..k] == vms[..k];
      found := found + [PatchIssue(vms[k] + ".kt", MissingTest, Major)];
      k := k + 1;
    }
    assert vms[..|vms|] == vms;
  }

  class ValidatorPatch {
    var realIssues: seq<PatchIssue>

    constructor ()
      ensures realIssues == []
    {
      realIssues := [];
    }

    /** `check_error_handling_smartly` over the files of `app/src/main`. */
    method CheckErrorHandlingSmartly(files: seq<SourceFile>)
      modifies this
      ensures realIssues == old(realIssues) + ErrorHandlingReport(files)
    {
      var implFiles := CollectChecked(files);
      var found := ReportUnhandled(implFiles);
      realIssues := realIssues + found;
    }

    /** `check_test_coverage` over the entries of `app/src`; `important` is
        the order in which the untested set was visited, and at most three
        issues are added. */
    method CheckTestCoverage(entries: seq<WalkEntry>) returns (ghost important: seq<string>)
      modifies this
      ensures Distinct(important)
      ensures Elems(important) == Untested(entries) * ImportantViewModels
      ensures realIssues == old(realIssues) + MissingTestIssues(important)
      ensures |realIssues| <= |old(realIssues)| + 3
    {
      var sources, tests := CollectNames(entries);
      var vms := ImportantUntested(Elems(sources) - Elems(tests));
      important := vms;
      var found := ReportUntested(vms);
      ImportantAtMostThree(vms);
      realIssues := realIssues + found;
    }

    /** `generate_patch_report`. */
    method GeneratePatchReport() returns (report: PatchReport)
      ensures report == PatchReportOf(realIssues)
      ensures report.canRelease && report.adjustedScore == AdjustedScore
    {
      report := PatchReport(OriginalIssues, |realIssues|, OriginalIssues - |realIssues|, true, AdjustedScore, realIssues);
    }

    /** `run_smart_validation`: the two checks in order, then the report. */
    method RunSmartValidation(files: seq<SourceFile>, entries: seq<WalkEntry>)
      returns (report: PatchReport, ghost important: seq<string>)
      modifies this
      ensures Elems(important) == Untested(entries) * ImportantViewModels
      ensures realIssues == old(realIssues) + ErrorHandlingReport(files) + MissingTestIssues(important)
      ensures report == PatchReportOf(realIssues)
    {
      CheckErrorHandlingSmartly(files);
      important := CheckTestCoverage(entries);
      report := GeneratePatchReport();
    }
  }
}
