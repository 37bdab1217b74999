/** The line patterns of the recursive validator. Each regular expression
    becomes a recogniser that decides `re.search` on one line of a file (a
    piece of `content.split('\n')`, so it holds no newline); where a pattern
    could backtrack, the comment says why only one way of matching can
    succeed. Case-insensitive patterns are decided on the upper- or
    lower-cased line. */
module RecursivePatterns {
  import opened Text

  /** The entries of the validator's pattern table, in table order. */
  datatype Pattern =
    | TodoMarkers
    | PlaceholderComments
    | EmptyImplementations
    | NotImplemented
    | MockData
    | DelaySimulation
    | LocalhostUrls
    | MissingErrorHandling

  const Patterns: seq<Pattern> := [TodoMarkers, PlaceholderComments, EmptyImplementations,
    NotImplemented, MockData, DelaySimulation, LocalhostUrls, MissingErrorHandling]

  // ---------------------------------------------------------------
  // todo_markers: (?i)\b(TODO|FIXME|XXX|HACK|TBD|WIP|PENDING|UNFINISHED)\b(?![\w.])
  // ---------------------------------------------------------------

  /** The marker `w` at `p` of the upper-cased line, followed by neither a
      word character nor a dot. No marker is a prefix of another, so the
      alternation has at most one candidate at `p`. */
  predicate MarkerWordAt(u: string, p: nat, w: string)
  {
    HasAt(u, p, w) && (p + |w| == |u| || (!IsWordChar(u[p + |w|]) && u[p + |w|] != '.'))
  }

  predicate MarkerAt(u: string, p: nat)
    requires p <= |u|
  {
    (p == 0 || !IsWordChar(u[p - 1])) &&
    (MarkerWordAt(u, p, "TODO") || MarkerWordAt(u, p, "FIXME") || MarkerWordAt(u, p, "XXX")
     || MarkerWordAt(u, p, "HACK") || MarkerWordAt(u, p, "TBD") || MarkerWordAt(u, p, "WIP")
     || MarkerWordAt(u, p, "PENDING") || MarkerWordAt(u, p, "UNFINISHED"))
  }

  predicate MarkerFrom(u: string, p: nat)
    requires p <= |u|
    decreases |u| - p
  {
    MarkerAt(u, p) || (p < |u| && MarkerFrom(u, p + 1))
  }

  predicate HasTodoMarker(line: string)
  {
    MarkerFrom(Upper(line), 0)
  }

  /** The marker test ignores case. */
  lemma TodoMarkerIgnoresCase(line: string)
    ensures HasTodoMarker(Lower(line)) <==> HasTodoMarker(line)
  {
    UpperOfLower(line);
  }

  // ---------------------------------------------------------------
  // placeholder_comments: (?i)(//|/\*).*(in production|would be|...)
  // ---------------------------------------------------------------

  /** One of the placeholder phrases occurs in the lower-cased text. */
  predicate HasPhrase(low: string)
  {
    Contains(low, "in production") || Contains(low, "would be") || Contains(low, "should be")
    || Contains(low, "will be") || Contains(low, "to be implemented") || Contains(low, "placeholder")
    || Contains(low, "temporary") || Contains(low, "mock implementation")
    || Contains(low, "actual implementation") || Contains(low, "real implementation")
  }

  /** A comment opener at `p` or later with a phrase after it. `.*` crosses
      any character of a line, so a phrase anywhere after the opener will do. */
  predicate PlaceholderFrom(line: string, low: string, p: nat)
    requires |low| == |line| && p <= |line|
    decreases |line| - p
  {
    (p + 2 <= |line| && (HasAt(line, p, "//") || HasAt(line, p, "/*")) && HasPhrase(low[p + 2..]))
    || (p < |line| && PlaceholderFrom(line, low, p + 1))
  }

  predicate HasPlaceholder(line: string)
  {
    PlaceholderFrom(line, Lower(line), 0)
  }

  // ---------------------------------------------------------------
  // empty_implementations: fun\s+\w+\s*\([^)]*\)\s*\{[\s]*\}
  // ---------------------------------------------------------------

  predicate IsNotCloseParen(c: char) { c != ')' }

  /** The pattern at `p`. The name run is followed by a space or `(`, not a
      word character, and the parameter run stops at the first `)`, so
      neither could be shortened to give another match. */
  predicate EmptyFunAt(line: string, p: nat)
    requires p <= |line|
  {
    HasAt(line, p, "fun") && p + 3 < |line| && IsSpace(line[p + 3]) &&
    var b := SkipSpace(line, p + 3);
    var c := WordEnd(line, b);
    c > b &&
    var d := SkipSpace(line, c);
    d < |line| && line[d] == '(' &&
    var e := RunEnd(line, d + 1, IsNotCloseParen);
    e < |line| &&
    var f := SkipSpace(line, e + 1);
    f < |line| && line[f] == '{' &&
    var g := SkipSpace(line, f + 1);
    g < |line| && line[g] == '}'
  }

  predicate EmptyFunFrom(line: string, p: nat)
    requires p <= |line|
    decreases |line| - p
  {
    EmptyFunAt(line, p) || (p < |line| && EmptyFunFrom(line, p + 1))
  }

  // ---------------------------------------------------------------
  // not_implemented: (?i)(NotImplementedError|TODO\(\)|error\("Not implemented"\))
  // ---------------------------------------------------------------

  /** The alternatives are compared upper-cased. */
  predicate HasNotImplemented(line: string)
  {
    var u := Upper(line);
    Contains(u, "NOTIMPLEMENTEDERROR") || Contains(u, "TODO()") || Contains(u, "ERROR(\"NOT IMPLEMENTED\")")
  }

  // ---------------------------------------------------------------
  // mock_data: (?i)(mock|fake|dummy|stub|hardcoded|test data|sample data)
  // ---------------------------------------------------------------

  predicate HasMockWord(line: string)
  {
    var low := Lower(line);
    Contains(low, "mock") || Contains(low, "fake") || Contains(low, "dummy") || Contains(low, "stub")
    || Contains(low, "hardcoded") || Contains(low, "test data") || Contains(low, "sample data")
  }

  // ---------------------------------------------------------------
  // delay_simulation: \bdelay\s*\(\s*\d+\s*\)
  // ---------------------------------------------------------------

  /** The pattern at `p`; the digit run is followed by a space or `)`, so it
      cannot be shortened. */
  predicate DelayCallAt(line: string, p: nat)
    requires p <= |line|
  {
    (p == 0 || !IsWordChar(line[p - 1])) && HasAt(line, p, "delay") &&
    var a := SkipSpace(line, p + 5);
    a < |line| && line[a] == '(' &&
    var b := SkipSpace(line, a + 1);
    var c := DigitEnd(line, b);
    c > b &&
    var d := SkipSpace(line, c);
    d < |line| && line[d] == ')'
  }

  predicate DelayCallFrom(line: string, p: nat)
    requires p <= |line|
    decreases |line| - p
  {
    DelayCallAt(line, p) || (p < |line| && DelayCallFrom(line, p + 1))
  }

  // ---------------------------------------------------------------
  // localhost_urls: (localhost|127\.0\.0\.1|192\.168\.|10\.0\.|example\.com)
  // ---------------------------------------------------------------

  predicate HasLocalUrl(line: string)
  {
    Contains(line, "localhost") || Contains(line, "127.0.0.1") || Contains(line, "192.168.")
    || Contains(line, "10.0.") || Contains(line, "example.com")
  }

  // ---------------------------------------------------------------
  // missing_error_handling: catch\s*\{\s*\}|catch.*\{\s*//\s*\}
  // ---------------------------------------------------------------

  /** `\s*\{\s*\}` at `q`. */
  predicate EmptyBlockAt(line: string, q: nat)
    requires q <= |line|
  {
    var a := SkipSpace(line, q);
    a < |line| && line[a] == '{' &&
    var b := SkipSpace(line, a + 1);
    b < |line| && line[b] == '}'
  }

  /** A block holding only a `//` comment at `q`: `{`, spaces, `//`,
      spaces, `}`. */
  predicate CommentBlockAt(line: string, q: nat)
    requires q <= |line|
  {
    q < |line| && line[q] == '{' &&
    var a := SkipSpace(line, q + 1);
    HasAt(line, a, "//") &&
    var b := SkipSpace(line, a + 2);
    b < |line| && line[b] == '}'
  }

  /** The second alternative after `catch`: `.*` and then a comment-only
      block, at `q` or later. */
  predicate CommentBlockFrom(line: string, q: nat)
    requires q <= |line|
    decreases |line| - q
  {
    CommentBlockAt(line, q) || (q < |line| && CommentBlockFrom(line, q + 1))
  }

  predicate CatchAt(line: string, p: nat)
    requires p <= |line|
  {
    HasAt(line, p, "catch") && (EmptyBlockAt(line, p + 5) || CommentBlockFrom(line, p + 5))
  }

  predicate CatchFrom(line: string, p: nat)
    requires p <= |line|
    decreases |line| - p
  {
    CatchAt(line, p) || (p < |line| && CatchFrom(line, p + 1))
  }

  // ---------------------------------------------------------------
  // The table
  // ---------------------------------------------------------------

  /** `re.search(pattern, line)` for each entry of the table. */
  predicate Matches(pat: Pattern, line: string)
  {
    match pat
    case TodoMarkers => HasTodoMarker(line)
    case PlaceholderComments => HasPlaceholder(line)
    case EmptyImplementations => EmptyFunFrom(line, 0)
    case NotImplemented => HasNotImplemented(line)
    case MockData => HasMockWord(line)
    case DelaySimulation => DelayCallFrom(line, 0)
    case LocalhostUrls => HasLocalUrl(line)
    case MissingErrorHandling => CatchFrom(line, 0)
  }

  /** A search that succeeds finds a match at some position. */
  lemma {:induction false} DelayCallFound(line: string, p: nat) returns (q: nat)
    requires p <= |line| && DelayCallFrom(line, p)
    decreases |line| - p
    ensures p <= q <= |line| && DelayCallAt(line, q)
  {
    if DelayCallAt(line, p) {
      q := p;
    } else {
      q := DelayCallFound(line, p + 1);
    }
  }

  /** A match at any position makes the search succeed. */
  lemma {:induction false} DelayCallSearched(line: string, p: nat, q: nat)
    requires p <= q <= |line| && DelayCallAt(line, q)
    decreases q - p
    ensures DelayCallFrom(line, p)
  {
    if p < q {
      DelayCallSearched(line, p + 1, q);
    }
  }
}
