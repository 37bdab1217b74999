/** How the version 5 validator reads a Kotlin file: the per-file context
    flags, and the line scanner that turns a file into function records. */
module IntelligentV5Parse {
  import opened Text
  import opened IntelligentV5Text

  /** What the validator knows about a file. */
  datatype CodeContext = CodeContext(
    filePath: string,
    isInterface: bool,
    isAbstract: bool,
    isDataClass: bool,
    isTestFile: bool,
    className: string,
    packageName: string)

  /** One function found by the scanner. */
  datatype FunctionInfo = FunctionInfo(
    name: string,
    filePath: string,
    lineNumber: nat,
    signature: string,
    body: string,
    isAbstract: bool,
    isOverride: bool,
    isSuspend: bool,
    isSingleExpression: bool,
    isExtension: bool,
    hasImplementation: bool,
    context: CodeContext)

  // ---------------------------------------------------------------
  // File context
  // ---------------------------------------------------------------

  predicate IsPackageChar(c: char) { IsWordChar(c) || c == '.' }

  /** `package\s+([\w.]+)` at `p`. */
  function PackageAt(s: string, p: nat): (r: Option<string>)
    requires p <= |s|
    ensures r.Some? ==> |r.value| > 0
  {
    if !HasAt(s, p, "package") then None
    else
      var a := SkipSpace(s, p + 7);
      var e := RunEnd(s, a, IsPackageChar);
      if a == p + 7 || e == a then None else Some(s[a..e])
  }

  /** `(?:class|interface|object)\s+(\w+)` at `p`; the three words start
      with different letters, so at most one alternative applies. */
  function DeclarationAt(s: string, p: nat): (r: Option<string>)
    requires p <= |s|
    ensures r.Some? ==> |r.value| > 0
  {
    var k := if HasAt(s, p, "class") then 5 else if HasAt(s, p, "interface") then 9
             else if HasAt(s, p, "object") then 6 else 0;
    if k == 0 then None
    else
      var a := SkipSpace(s, p + k);
      var e := WordEnd(s, a);
      if a == p + k || e == a then None else Some(s[a..e])
  }

  /** `re.search` of the package pattern from `p`: the first match's name. */
  function FirstPackage(s: string, p: nat): Option<string>
    requires p <= |s|
    decreases |s| - p
  {
    if p == |s| then None
    else match PackageAt(s, p)
      case Some(n) => Some(n)
      case None => FirstPackage(s, p + 1)
  }

  /** `re.search` of the declaration pattern from `p`. */
  function FirstDeclaration(s: string, p: nat): Option<string>
    requires p <= |s|
    decreases |s| - p
  {
    if p == |s| then None
    else match DeclarationAt(s, p)
      case Some(n) => Some(n)
      case None => FirstDeclaration(s, p + 1)
  }

  /** The context `build_code_context` records for one file. */
  function ContextOf(path: string, content: string): (c: CodeContext)
    ensures c.filePath == path
  {
    CodeContext(
      path,
      Contains(content, "interface "),
      Contains(content, "abstract class"),
      Contains(content, "data class"),
      Contains(path, "/test/") || Contains(path, "Test"),
      match FirstDeclaration(content, 0) case Some(n) => n case None => "",
      match FirstPackage(content, 0) case Some(n) => n case None => "")
  }

  // ---------------------------------------------------------------
  // The function scanner
  // ---------------------------------------------------------------

  function ParenDelta(line: string): int
  {
    CountChar(line, '(') as int - CountChar(line, ')') as int
  }

  function BraceDelta(line: string): int
  {
    CountChar(line, '{') as int - CountChar(line, '}') as int
  }

  /** Where the signature ends: lines are added while parentheses stay open. */
  function SignatureEnd(lines: seq<string>, j: nat, paren: int): (r: nat)
    requires j <= |lines|
    decreases |lines| - j
    ensures j <= r <= |lines|
  {
    if j < |lines| && paren > 0 then SignatureEnd(lines, j + 1, paren + ParenDelta(lines[j])) else j
  }

  /** Where a block body ends: the first line is always taken, later ones
      while braces stay open. */
  function BodyEnd(lines: seq<string>, k: nat, start: nat, brace: int): (r: nat)
    requires k <= |lines|
    decreases |lines| - k
    ensures k <= r <= |lines|
    ensures k == start && k < |lines| ==> r > k
  {
    if k < |lines| && (brace > 0 || k == start) then BodyEnd(lines, k + 1, start, brace + BraceDelta(lines[k])) else k
  }

  /** The brace count a block body starts from: the signature's own, or,
      when the signature's braces balance, that of the line after it. */
  function StartBrace(lines: seq<string>, j: nat, signature: string): int
    requires j <= |lines|
  {
    var b0 := BraceDelta(signature);
    if b0 == 0 && j < |lines| then BraceDelta(lines[j]) else b0
  }

  /** A block body: the lines from `j`, the line after the signature, for
      as long as the brace count stays open; empty when there is no `{`
      in the signature or on line `j`. */
  function BlockBody(lines: seq<string>, j: nat, signature: string): string
    requires j <= |lines|
  {
    if '{' in signature || (j < |lines| && '{' in lines[j]) then
      Join(lines[j..BodyEnd(lines, j, j, StartBrace(lines, j, signature))], '\n')
    else ""
  }

  /** The record for the header `h` found on line `i`, and the line the
      scan resumes at. */
  function FunctionAt(lines: seq<string>, i: nat, h: Header, path: string, ctx: CodeContext): (r: (FunctionInfo, nat))
    requires i < |lines|
    ensures i < r.1 <= |lines|
    ensures r.0.name == h.name && r.0.filePath == path && r.0.lineNumber == i + 1 && r.0.context == ctx
    ensures r.0.signature == Join(lines[i..r.1], '\n')
    ensures r.0.isSingleExpression <==> '=' in r.0.signature && '{' !in r.0.signature
    ensures r.0.isAbstract == ctx.isInterface
  {
    var j := SignatureEnd(lines, i + 1, ParenDelta(lines[i]));
    var signature := Join(lines[i..j], '\n');
    var single := '=' in signature && '{' !in signature;
    var body := if single then SingleExpressionBody(signature) else BlockBody(lines, j, signature);
    (FunctionInfo(h.name, path, i + 1, signature, body, ctx.isInterface, h.isOverride, h.isSuspend,
                  single, h.isExtension, HasRealImplementation(body, single), ctx),
     j)
  }

  /** The functions found from line `i` on, in file order. */
  function Parse(lines: seq<string>, i: nat, path: string, ctx: CodeContext): (r: seq<FunctionInfo>)
    requires i <= |lines|
    decreases |lines| - i
    ensures forall k :: 0 <= k < |r| ==>
      i < r[k].lineNumber <= |lines| && r[k].filePath == path && r[k].context == ctx && r[k].isAbstract == ctx.isInterface
    ensures forall k, l :: 0 <= k < l < |r| ==> r[k].lineNumber < r[l].lineNumber
  {
    if i == |lines| then []
    else match MatchHeader(lines[i])
      case None => Parse(lines, i + 1, path, ctx)
      case Some(h) =>
        var (f, j) := FunctionAt(lines, i, h, path, ctx);
        var rest := Parse(lines, j, path, ctx);
        assert forall k :: 0 < k <= |rest| ==> ([f] + rest)[k] == rest[k - 1];
        [f] + rest
  }

  /** The lines of a block body start right after the signature. */
  lemma BlockBodyStartsAfterSignature(lines: seq<string>, j: nat, signature: string)
    requires j < |lines|
    requires '{' in signature || '{' in lines[j]
    ensures exists e :: j < e <= |lines| && BlockBody(lines, j, signature) == Join(lines[j..e], '\n')
  {
    var e := BodyEnd(lines, j, j, StartBrace(lines, j, signature));
    assert j < e && BlockBody(lines, j, signature) == Join(lines[j..e], '\n');
  }

  /** A header whose braces balance on its own line, like `fun f() {}`,
      takes the next line as its body when that line opens no brace: the
      brace count restarts there and closes after one line. */
  lemma BalancedHeaderTakesNextLine(lines: seq<string>, i: nat, h: Header, path: string, ctx: CodeContext)
    requires i + 1 < |lines|
    requires MatchHeader(lines[i]) == Some(h)
    requires ParenDelta(lines[i]) <= 0 && '=' !in lines[i] && '{' in lines[i] && BraceDelta(lines[i]) == 0
    requires BraceDelta(lines[i + 1]) <= 0
    ensures FunctionAt(lines, i, h, path, ctx).1 == i + 1
    ensures FunctionAt(lines, i, h, path, ctx).0.body == lines[i + 1]
  {
    assert SignatureEnd(lines, i + 1, ParenDelta(lines[i])) == i + 1;
    assert lines[i..i + 1] == [lines[i]];
    var b := BraceDelta(lines[i + 1]);
    assert BodyEnd(lines, i + 2, i + 1, b + BraceDelta(lines[i + 1])) == i + 2;
    assert BodyEnd(lines, i + 1, i + 1, b) == i + 2;
    assert lines[i + 1..i + 2] == [lines[i + 1]];
  }

  /** `parse_kotlin_functions`: the header loop, the parenthesis loop over
      a multi-line signature and the brace loop over a block body. */
  method ParseKotlinFunctions(path: string, content: string, ctx: CodeContext) returns (functions: seq<FunctionInfo>)
    ensures functions == Parse(Split(content, '\n'), 0, path, ctx)
  {
    functions := ScanLines(path, Split(content, '\n'), ctx);
  }

  /** The header loop over the lines of a file. */
  method ScanLines(path: string, lines: seq<string>, ctx: CodeContext) returns (functions: seq<FunctionInfo>)
    ensures functions == Parse(lines, 0, path, ctx)
  {
    functions := [];
    var i := 0;
    while i < |lines|
      invariant 0 <= i <= |lines|
      invariant functions + Parse(lines, i, path, ctx) == Parse(lines, 0, path, ctx)
      decreases |lines| - i
    {
      var found, next := ScanLine(lines, i, path, ctx);
      assert functions + (found + Parse(lines, next, path, ctx)) == (functions + found) + Parse(lines, next, path, ctx);
      functions := functions + found;
      i := next;
    }
  }

  /** One pass of the header loop at line `i`: what it records and where
      the scan resumes. */
  method ScanLine(lines: seq<string>, i: nat, path: string, ctx: CodeContext)
    returns (found: seq<FunctionInfo>, next: nat)
    requires i < |lines|
    ensures i < next <= |lines|
    ensures Parse(lines, i, path, ctx) == found + Parse(lines, next, path, ctx)
  {
    var header := MatchHeader(lines[i]);
    ParseStep(lines, i, path, ctx);
    if header.Some? {
      var f, j := ScanFunction(lines, i, header.value, path, ctx);
      found := [f];
      next := j;
    } else {
      found := [];
      next := i + 1;
    }
  }

  /** One step of the scan: a line without a header is skipped, a header
      contributes its record and the scan resumes after its signature. */
  lemma ParseStep(lines: seq<string>, i: nat, path: string, ctx: CodeContext)
    requires i < |lines|
    ensures MatchHeader(lines[i]).None? ==> Parse(lines, i, path, ctx) == Parse(lines, i + 1, path, ctx)
    ensures MatchHeader(lines[i]).Some? ==>
      var r := FunctionAt(lines, i, MatchHeader(lines[i]).value, path, ctx);
      Parse(lines, i, path, ctx) == [r.0] + Parse(lines, r.1, path, ctx)
  {
  }

  /** The signature and body scan for the header found on line `i`. */
  method ScanFunction(lines: seq<string>, i: nat, h: Header, path: string, ctx: CodeContext)
    returns (f: FunctionInfo, j: nat)
    requires i < |lines|
    ensures (f, j) == FunctionAt(lines, i, h, path, ctx)
  {
    var signatureLines := [lines[i]];
    var paren := ParenDelta(lines[i]);
    j := i + 1;
    while j < |lines| && paren > 0
      invariant i + 1 <= j <= |lines|
      invariant signatureLines == lines[i..j]
      invariant SignatureEnd(lines, j, paren) == SignatureEnd(lines, i + 1, ParenDelta(lines[i]))
      decreases |lines| - j
    {
      signatureLines := signatureLines + [lines[j]];
      paren := paren + ParenDelta(lines[j]);
      j := j + 1;
    }
    var signature := Join(signatureLines, '\n');
    var single := '=' in signature && '{' !in signature;
    var body := "";
    if single {
      body := SingleExpressionBody(signature);
    } else if '{' in signature || (j < |lines| && '{' in lines[j]) {
      body := CollectBody(lines, j, signature);
    }
    f := FunctionInfo(h.name, path, i + 1, signature, body, ctx.isInterface, h.isOverride, h.isSuspend,
                      single, h.isExtension, HasRealImplementation(body, single), ctx);
  }

  /** The brace loop: body lines from `j` while braces stay open. */
  method CollectBody(lines: seq<string>, j: nat, signature: string) returns (body: string)
    requires j <= |lines|
    requires '{' in signature || (j < |lines| && '{' in lines[j])
    ensures body == BlockBody(lines, j, signature)
  {
    var brace := BraceDelta(signature);
    if brace == 0 && j < |lines| {
      brace := BraceDelta(lines[j]);
    }
    var bodyLines: seq<string> := [];
    var k := j;
    while k < |lines| && (brace > 0 || k == j)
      invariant j <= k <= |lines|
      invariant bodyLines == lines[j..k]
      invariant BodyEnd(lines, k, j, brace) == BodyEnd(lines, j, j, StartBrace(lines, j, signature))
      decreases |lines| - k
    {
      bodyLines := bodyLines + [lines[k]];
      brace := brace + BraceDelta(lines[k]);
      k := k + 1;
    }
    body := Join(bodyLines, '\n');
  }

  // ---------------------------------------------------------------
  // The scanner as written
  // ---------------------------------------------------------------

  /** The scan as the source has it: the record is built with `file_path`,
      a name the scanner does not have in scope, so the first header found
      raises NameError (`None`), which `analyze_kotlin_file` catches. */
  function ParseAsWritten(lines: seq<string>, i: nat): Option<seq<FunctionInfo>>
    requires i <= |lines|
    decreases |lines| - i
  {
    if i == |lines| then Some([])
    else if MatchHeader(lines[i]).Some? then None
    else ParseAsWritten(lines, i + 1)
  }

  /** As written, no file ever contributes a function: the scan either
      fails, exactly when the intended scan would find a function, or finds
      nothing. */
  lemma {:induction false} AsWrittenRecordsNothing(lines: seq<string>, i: nat, path: string, ctx: CodeContext)
    requires i <= |lines|
    decreases |lines| - i
    ensures ParseAsWritten(lines, i) == (if Parse(lines, i, path, ctx) == [] then Some([]) else None)
  {
    if i < |lines| && MatchHeader(lines[i]).None? {
      AsWrittenRecordsNothing(lines, i + 1, path, ctx);
    }
  }
}
