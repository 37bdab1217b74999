/** The text analysis of the version 5 validator: its function-header
    pattern, the comment stripping it applies to bodies, the
    "real implementation" test and the suspicious-body patterns. */
module IntelligentV5Text {
  import opened Text
  import opened KotlinPatterns

  // ---------------------------------------------------------------
  // Function headers
  // ---------------------------------------------------------------

  /** What the header pattern captures: the name, whether a receiver type
      was given, and whether the modifier group holds `override`/`suspend`. */
  datatype Header = Header(name: string, isExtension: bool, isOverride: bool, isSuspend: bool)

  /** `(?:<kw>\s+)?` at `p`: past the keyword and its spaces, or `p` itself. */
  function SkipModifier(s: string, p: nat, kw: string): (r: nat)
    requires p <= |s|
    ensures p <= r <= |s|
    ensures r > p <==> HasAt(s, p, kw) && SkipSpace(s, p + |kw|) > p + |kw|
  {
    if HasAt(s, p, kw) && SkipSpace(s, p + |kw|) > p + |kw| then SkipSpace(s, p + |kw|) else p
  }

  /** The optional modifier groups of the header pattern, in order. */
  const ModifierWords: seq<string> := ["override", "suspend", "inline", "private", "public", "internal", "protected"]

  /** The groups `(?:<kw>\s+)?` for each word of `kws` in turn, from `p`.
      No modifier word is a prefix of a later one or of `fun`, so skipping
      a group that can match never lets the rest of the pattern match. */
  function SkipModifiers(s: string, p: nat, kws: seq<string>): (r: nat)
    requires p <= |s|
    decreases |kws|
    ensures p <= r <= |s|
  {
    if |kws| == 0 then p else SkipModifiers(s, SkipModifier(s, p, kws[0]), kws[1..])
  }

  /** `(?:<[^>]+>\s+)?` at `p`: past the type parameters, `p` when there
      are none, or nothing when a `<` starts a list that does not match
      (the name pattern could not start at a `<` either). */
  function SkipTypeParameters(s: string, p: nat): (r: Option<nat>)
    requires p <= |s|
    ensures r.Some? ==> p <= r.value <= |s|
  {
    if p == |s| || s[p] != '<' then Some(p)
    else match FindChar(s, '>', p + 1)
      case None => None
      case Some(g) =>
        if g == p + 1 || SkipSpace(s, g + 1) == g + 1 then None
        else Some(SkipSpace(s, g + 1))
  }

  /** `(?:(\w+)\.)?(\w+)\s*\(` at `p`: the function name and whether a
      receiver type came first. A receiver is taken when the first word is
      followed by a dot; the other way of matching would need `(` right
      after that word. */
  function NameAt(line: string, p: nat): (r: Option<(string, bool)>)
    requires p <= |line|
    ensures r.Some? ==> |r.value.0| > 0
    ensures r.Some? ==> forall k :: 0 <= k < |r.value.0| ==> IsWordChar(r.value.0[k])
  {
    var e := WordEnd(line, p);
    if e == p then None
    else if e < |line| && line[e] == '.' then
      var e2 := WordEnd(line, e + 1);
      var f := SkipSpace(line, e2);
      if e2 == e + 1 || f == |line| || line[f] != '(' then None
      else Some((line[e + 1..e2], true))
    else
      var f := SkipSpace(line, e);
      if f == |line| || line[f] != '(' then None
      else Some((line[p..e], false))
  }

  /** The header pattern of `parse_kotlin_functions`, matched at the start of a line. */
  function MatchHeader(line: string): (r: Option<Header>)
    ensures r.Some? ==> |r.value.name| > 0
    ensures r.Some? ==> forall k :: 0 <= k < |r.value.name| ==> IsWordChar(r.value.name[k])
  {
    var p0 := SkipSpace(line, 0);
    var p1 := SkipModifier(line, p0, "override");
    var p2 := SkipModifier(line, p1, "suspend");
    var p := SkipModifiers(line, p2, ModifierWords[2..]);
    if !HasAt(line, p, "fun") then None
    else
      var a := SkipSpace(line, p + 3);
      if a == p + 3 then None
      else match SkipTypeParameters(line, a)
        case None => None
        case Some(b) =>
          match NameAt(line, b)
          case None => None
          case Some(n) => Some(Header(n.0, n.1, p1 > p0, p2 > p1))
  }

  // ---------------------------------------------------------------
  // Bodies
  // ---------------------------------------------------------------

  // `re.sub(r'/\*.*?\*/', '', s, flags=re.DOTALL)`: each `/*` with a later
  // `*/` is removed up to the first such `*/`, across lines.
  function StripBlockComments(s: string): (r: string)
    decreases |s|
    ensures |r| <= |s|
  {
    if |s| == 0 then ""
    else if HasAt(s, 0, "/*") && FindFrom(s, "*/", 2).Some? then
      StripBlockComments(s[FindFrom(s, "*/", 2).value + 2..])
    else [s[0]] + StripBlockComments(s[1..])
  }

  /** `clean_code_body`: line comments, then block comments, then the
      surrounding whitespace are removed. */
  function CleanCodeBody(body: string): string
  {
    Strip(StripBlockComments(StripLineComments(body)))
  }

  // Removing block comments from a text without `//` creates none: a `/`
  // right before `/*` or right after `*/` would have formed one.
  lemma {:induction false} StripBlockCommentsClean(s: string)
    requires NoDoubleSlash(s)
    decreases |s|
    ensures NoDoubleSlash(StripBlockComments(s))
  {
    if |s| > 0 {
      if HasAt(s, 0, "/*") && FindFrom(s, "*/", 2).Some? {
        var q := FindFrom(s, "*/", 2).value;
        NoDoubleSlashSlice(s, q + 2, |s|);
        StripBlockCommentsClean(s[q + 2..]);
      } else {
        NoDoubleSlashSlice(s, 1, |s|);
        StripBlockCommentsClean(s[1..]);
        if |s| > 1 && s[0] == '/' {
          var t := s[1..];
          assert !(s[0] == '/' && s[1] == '/');
          assert !HasAt(t, 0, "/*");
          assert StripBlockComments(t) == [t[0]] + StripBlockComments(t[1..]);
        }
        assert StripBlockComments(s) == [s[0]] + StripBlockComments(s[1..]);
      }
    }
  }

  /** A cleaned body holds no `//`, so no pattern that starts with one can
      match it. */
  lemma CleanBodyHasNoLineComment(body: string)
    ensures !Contains(CleanCodeBody(body), "//")
  {
    var t := StripBlockComments(StripLineComments(body));
    StripLineCommentsClean(body);
    StripBlockCommentsClean(StripLineComments(body));
    var a: nat, b: nat :| a <= b <= |t| && Strip(t) == t[a..b];
    NoDoubleSlashSlice(t, a, b);
    NoDoubleSlashIff(CleanCodeBody(body));
  }

  predicate IsEmptyBlock(s: string)
  {
    s == "{}" || s == "{ }" || s == ""
  }

  // `^\s*\{\s*(//.*TODO|//.*FIXME|/\*.*\*/)\s*\}\s*$` under DOTALL: a
  // brace block whose only content is a TODO or FIXME line comment or a
  // block comment. The keyword (or the `*/`) must sit right before the
  // whitespace that precedes the final `}`, since `\s*\}\s*$` is all
  // that may follow it.
  predicate PlaceholderBlock(s: string)
  {
    var b := SkipSpace(s, 0);
    b < |s| && s[b] == '{' &&
    var a := SkipSpace(s, b + 1);
    var z := SpaceBefore(s, |s|);
    z > 0 && s[z - 1] == '}' &&
    var y := SpaceBefore(s, z - 1);
    ((HasAt(s, a, "//") && y >= a + 6 && HasAt(s, y - 4, "TODO"))
     || (HasAt(s, a, "//") && y >= a + 7 && HasAt(s, y - 5, "FIXME"))
     || (HasAt(s, a, "/*") && y >= a + 4 && HasAt(s, y - 2, "*/")))
  }

  /** `has_real_implementation`. */
  predicate HasRealImplementation(body: string, isSingleExpression: bool)
  {
    if body == "" then false
    else if isSingleExpression then !IsEmptyBlock(CleanCodeBody(body))
    else !IsEmptyBlock(CleanCodeBody(body)) && !PlaceholderBlock(body)
  }

  // Without an opening `/*`, removing block comments changes nothing.
  lemma {:induction false} NoOpenerBlockCommentsText(s: string)
    requires NoCommentOpener(s)
    decreases |s|
    ensures StripBlockComments(s) == s
  {
    if |s| > 0 {
      assert !HasAt(s, 0, "/*") by {
        if 2 <= |s| { assert s[0..2][0] == s[0] && s[0..2][1] == s[1]; }
      }
      NoCommentOpenerSlice(s, 1, |s|);
      NoOpenerBlockCommentsText(s[1..]);
      assert s == [s[0]] + s[1..];
    }
  }

  /** A placeholder block starts its content with a line or block comment. */
  lemma PlaceholderHasComment(s: string)
    requires PlaceholderBlock(s)
    ensures !NoDoubleSlash(s) || !NoCommentOpener(s)
  {
    var a := SkipSpace(s, SkipSpace(s, 0) + 1);
    assert s[a..a + 2][0] == s[a] && s[a..a + 2][1] == s[a + 1];
  }

  /** On a body without comments the test reduces to whether the
      stripped body is an empty block (`""`, `{}` or `{ }`), whatever its
      form: no comment is removed and no placeholder can match. */
  lemma CommentFreeVerdict(body: string, single: bool)
    requires NoDoubleSlash(body) && NoCommentOpener(body)
    ensures HasRealImplementation(body, single) <==> !IsEmptyBlock(Strip(body))
  {
    NoDoubleSlashLineText(body);
    NoOpenerBlockCommentsText(body);
    if PlaceholderBlock(body) {
      PlaceholderHasComment(body);
    }
    if body == "" {
      assert Strip(body) == "";
    }
  }

  /** A block body that does not start with `{` (every multi-line body the
      parser collects from the line after a `fun ... {` header) counts as
      implemented unless cleaning empties it. */
  lemma BodyWithoutOpeningBrace(body: string)
    requires var b := SkipSpace(body, 0); b == |body| || body[b] != '{'
    ensures HasRealImplementation(body, false) <==> body != "" && !IsEmptyBlock(CleanCodeBody(body))
  {
  }

  /** A block holding only a TODO comment is a placeholder, whatever the
      comment says before the keyword. */
  lemma TodoBlockIsPlaceholder(note: string)
    requires forall k :: 0 <= k < |note| ==> note[k] != '\n'
    ensures PlaceholderBlock("{ //" + note + "TODO }")
    ensures !HasRealImplementation("{ //" + note + "TODO }", false)
  {
    var s := "{ //" + note + "TODO }";
    assert s[0] == '{' && s[1] == ' ' && s[2] == '/';
    assert SkipSpace(s, 0) == 0;
    assert SkipSpace(s, 1) == 2;
    assert SpaceBefore(s, |s|) == |s|;
    assert SpaceBefore(s, |s| - 1) == |s| - 2;
    assert HasAt(s, 2, "//");
    assert s[|s| - 6..|s| - 2] == "TODO";
  }

  // ---------------------------------------------------------------
  // Single-expression bodies
  // ---------------------------------------------------------------

  /** `//.*$` (no MULTILINE) can match at `p`: `$` needs the end of the
      text, or a final line break, right after the line's rest. */
  predicate TrailingCommentAt(s: string, p: nat)
  {
    p <= |s| && HasAt(s, p, "//") && (LineEnd(s, p) == |s| || LineEnd(s, p) + 1 == |s|)
  }

  function TrailingCommentFrom(s: string, p: nat): (r: Option<nat>)
    decreases |s| - p
    ensures r.Some? ==> p <= r.value && TrailingCommentAt(s, r.value)
    ensures r.Some? ==> forall q :: p <= q < r.value ==> !TrailingCommentAt(s, q)
    ensures r.None? ==> forall q :: p <= q ==> !TrailingCommentAt(s, q)
  {
    if p >= |s| then None
    else if TrailingCommentAt(s, p) then Some(p)
    else TrailingCommentFrom(s, p + 1)
  }

  /** `re.sub(r'//.*$', '', s)`: a comment on the last line is dropped. */
  function DropTrailingComment(s: string): (r: string)
    ensures TrailingCommentFrom(s, 0).None? ==> r == s
    ensures TrailingCommentFrom(s, 0).Some? ==>
      var p := TrailingCommentFrom(s, 0).value;
      r == s[..p] + s[LineEnd(s, p)..] && |r| < |s|
  {
    match TrailingCommentFrom(s, 0)
    case None => s
    case Some(p) => s[..p] + s[LineEnd(s, p)..]
  }

  /** The body of a single-expression function: the text after the first
      `=`, stripped, without a trailing comment, stripped again. */
  function SingleExpressionBody(signature: string): string
    requires '=' in signature
  {
    var eq := FindChar(signature, '=', 0).value;
    Strip(DropTrailingComment(Strip(signature[eq + 1..])))
  }

  /** Stripping a stripped text changes nothing. */
  lemma StripStripped(s: string)
    ensures Strip(Strip(s)) == Strip(s)
  {
    var r := Strip(s);
    if r != [] {
      assert SkipSpace(r, 0) == 0;
      assert SpaceBefore(r, |r|) == |r|;
      assert r[0..|r|] == r;
    }
  }

  /** Without a `//` after the first `=`, the body of a single-expression
      function is exactly the stripped text after that `=`. */
  lemma SingleExpressionWithoutComment(signature: string)
    requires '=' in signature
    requires !Contains(signature[FindChar(signature, '=', 0).value + 1..], "//")
    ensures SingleExpressionBody(signature) == Strip(signature[FindChar(signature, '=', 0).value + 1..])
  {
    var rest := signature[FindChar(signature, '=', 0).value + 1..];
    var t := Strip(rest);
    var a: nat, b: nat :| a <= b <= |rest| && t == rest[a..b];
    NoOccurrenceInSlice(rest, a, b, "//");
    ContainsIffOccurs(t, "//");
    assert TrailingCommentFrom(t, 0).None?;
    StripStripped(rest);
  }

  /** A trailing comment is cut from a single-expression body: when the
      text after the first `=` ends in a `//` comment on its last line,
      the body is shorter than that text. */
  lemma SingleExpressionDropsComment(signature: string)
    requires '=' in signature
    requires TrailingCommentFrom(Strip(signature[FindChar(signature, '=', 0).value + 1..]), 0).Some?
    ensures |SingleExpressionBody(signature)| < |Strip(signature[FindChar(signature, '=', 0).value + 1..])|
  {
    var t := Strip(signature[FindChar(signature, '=', 0).value + 1..]);
    assert |DropTrailingComment(t)| < |t|;
  }

  // ---------------------------------------------------------------
  // Suspicious bodies
  // ---------------------------------------------------------------

  /** The six patterns `check_function_implementation` searches for, in order. */
  datatype Suspicion = NotImplementedThrow | TodoCall | TodoComment | FixmeComment | StringReturn | NumberReturn

  const Suspicions: seq<Suspicion> := [NotImplementedThrow, TodoCall, TodoComment, FixmeComment, StringReturn, NumberReturn]

  /** `//\s*<kw>(?![\w])` at `p`. */
  predicate MarkerCommentAt(s: string, p: nat, kw: string)
    requires p <= |s|
  {
    HasAt(s, p, "//") &&
    var a := SkipSpace(s, p + 2);
    HasAt(s, a, kw) && (a + |kw| == |s| || !IsWordChar(s[a + |kw|]))
  }

  /** Whether `pat` (searched in MULTILINE mode) matches at `p`. */
  predicate SuspicionAt(pat: Suspicion, s: string, p: nat)
    requires p <= |s|
  {
    match pat
    case NotImplementedThrow =>
      // ^\s*throw\s+NotImplementedError
      LineStartBefore(s, p) && HasAt(s, p, "throw") &&
      var a := SkipSpace(s, p + 5);
      a > p + 5 && HasAt(s, a, "NotImplementedError")
    case TodoCall =>
      // ^\s*TODO\s*\(\s*\)
      LineStartBefore(s, p) && HasAt(s, p, "TODO") &&
      var a := SkipSpace(s, p + 4);
      a < |s| && s[a] == '(' &&
      var b := SkipSpace(s, a + 1);
      b < |s| && s[b] == ')'
    case TodoComment => MarkerCommentAt(s, p, "TODO")
    case FixmeComment => MarkerCommentAt(s, p, "FIXME")
    case StringReturn =>
      // ^\s*return\s+"[^"]*"\s*$
      LineStartBefore(s, p) && HasAt(s, p, "return") &&
      var a := SkipSpace(s, p + 6);
      a > p + 6 && a < |s| && s[a] == '"' &&
      (match FindChar(s, '"', a + 1)
       case None => false
       case Some(c) => LineEndsAfter(s, c + 1))
    case NumberReturn =>
      // ^\s*return\s+\d+\s*$
      LineStartBefore(s, p) && HasAt(s, p, "return") &&
      var a := SkipSpace(s, p + 6);
      var d := DigitEnd(s, a);
      a > p + 6 && d > a && LineEndsAfter(s, d)
  }

  /** `re.search(pattern, s, re.MULTILINE)` succeeds. */
  predicate Shows(pat: Suspicion, s: string)
  {
    exists p :: 0 <= p <= |s| && SuspicionAt(pat, s, p)
  }

  /** The comment patterns cannot match a cleaned body. */
  lemma CommentPatternsNeverShow(body: string)
    ensures !Shows(TodoComment, CleanCodeBody(body))
    ensures !Shows(FixmeComment, CleanCodeBody(body))
  {
    var s := CleanCodeBody(body);
    CleanBodyHasNoLineComment(body);
    ContainsIffOccurs(s, "//");
    forall p | 0 <= p <= |s|
      ensures !SuspicionAt(TodoComment, s, p) && !SuspicionAt(FixmeComment, s, p)
    {
      assert !HasAt(s, p, "//");
    }
  }
}
