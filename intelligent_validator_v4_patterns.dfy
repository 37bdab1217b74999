/** The regular expressions of the intelligent validator, version 4, as
    recognisers over the text of one Kotlin file. Each is decided at one
    position (`…At`) and searched or collected from there (`…From`,
    `findall`). Where a pattern could backtrack, the comment says why only
    one way of matching can succeed. */
module IntelligentV4Patterns {
  import opened Text
  import opened KotlinPatterns

  // ---------------------------------------------------------------
  // The function header:
  // (suspend\s+)?fun\s+(\w+)\s*\([^)]*\)(\s*:\s*[^{]+)?\s*\{([^}]*)\}
  // ---------------------------------------------------------------

  /** The groups of one match: the name, the return-type group when it took
      part, and the body. */
  datatype FunMatch = FunMatch(name: string, returnType: Option<string>, body: string)

  /** `\{([^}]*)\}` at `o`: the body and the end of the match. */
  function BraceBodyAt(s: string, o: nat): (r: Option<(string, nat)>)
    requires o <= |s|
    ensures r.Some? ==> o + 2 <= r.value.1 <= |s| && s[r.value.1 - 1] == '}'
    ensures r.Some? ==> r.value.0 == s[o + 1..r.value.1 - 1]
    ensures r.Some? ==> forall q :: 0 <= q < |r.value.0| ==> r.value.0[q] != '}'
  {
    if o == |s| || s[o] != '{' then None
    else
      match FindChar(s, '}', o + 1)
      case None => None
      case Some(z) => Some((s[o + 1..z], z + 1))
  }

  /** What follows the `)` that ends at `t`:
      `(\s*:\s*[^{]+)?\s*\{([^}]*)\}`. `[^{]+` runs to the first `{`, the
      only place the block can open, so the return-type group takes part
      exactly when a colon comes first and at least one character stands
      between it and that `{`. */
  function FunTail(s: string, t: nat): (r: Option<(Option<string>, string, nat)>)
    requires t <= |s|
    ensures r.Some? ==> t + 2 <= r.value.2 <= |s| && s[r.value.2 - 1] == '}'
    ensures r.Some? ==> forall q :: 0 <= q < |r.value.1| ==> r.value.1[q] != '}'
  {
    var w := SkipSpace(s, t);
    if w < |s| && s[w] == ':' then
      match FindChar(s, '{', w + 1)
      case None => None
      case Some(e) =>
        if e == w + 1 then None
        else
          match BraceBodyAt(s, e)
          case None => None
          case Some(b) => Some((Some(s[t..e]), b.0, b.1))
    else
      match BraceBodyAt(s, w)
      case None => None
      case Some(b) => Some((None, b.0, b.1))
  }

  /** `\s*\([^)]*\)` and the tail, after the name that ends at `ne`. */
  function ParamsAndTail(s: string, ne: nat): (r: Option<(Option<string>, string, nat)>)
    requires ne <= |s|
    ensures r.Some? ==> ne + 2 <= r.value.2 <= |s| && s[r.value.2 - 1] == '}'
    ensures r.Some? ==> forall q :: 0 <= q < |r.value.1| ==> r.value.1[q] != '}'
  {
    var a := SkipSpace(s, ne);
    if a == |s| || s[a] != '(' then None
    else
      match FindChar(s, ')', a + 1)
      case None => None
      case Some(c) => FunTail(s, c + 1)
  }

  /** The header pattern attempted at `p`: the groups and the end of the
      match. The name run is followed by a space or `(`, and the parameter
      run stops at the first `)`, so neither can be shortened. */
  function FunAt(s: string, p: nat): (r: Option<(FunMatch, nat)>)
    requires p <= |s|
    ensures r.Some? ==> p < r.value.1 <= |s| && |r.value.0.name| > 0
    ensures r.Some? ==> forall q :: 0 <= q < |r.value.0.body| ==> r.value.0.body[q] != '}'
  {
    match OptionalKeyword(s, p, "suspend")
    case None => None
    case Some(k) =>
      var f := k.1;
      if !HasAt(s, f, "fun") then None
      else
        var n := SkipSpace(s, f + 3);
        var ne := WordEnd(s, n);
        if n == f + 3 || ne == n then None
        else
          match ParamsAndTail(s, ne)
          case None => None
          case Some(tail) => Some((FunMatch(s[n..ne], tail.0, tail.1), tail.2))
  }

  /** `re.finditer` of the header pattern from `p`: the matches, left to
      right, each search resuming where the last match ended. */
  function FunMatches(s: string, p: nat): (r: seq<FunMatch>)
    requires p <= |s|
    decreases |s| - p
  {
    if p == |s| then []
    else
      match FunAt(s, p)
      case Some(m) => [m.0] + FunMatches(s, m.1)
      case None => FunMatches(s, p + 1)
  }

  /** Every match found is the header pattern's match at some position. */
  lemma {:induction false} FunMatchesFound(s: string, p: nat, m: FunMatch)
    requires p <= |s| && m in FunMatches(s, p)
    decreases |s| - p
    ensures exists q :: p <= q <= |s| && FunAt(s, q).Some? && FunAt(s, q).value.0 == m
  {
    if p < |s| {
      match FunAt(s, p)
      case Some(h) =>
        if m != h.0 {
          FunMatchesFound(s, h.1, m);
        }
      case None =>
        FunMatchesFound(s, p + 1, m);
    }
  }

  /** The captured body of every match runs up to the first `}` after the
      opening brace: it holds no `}`. */
  lemma BodyStopsAtFirstBrace(s: string, m: FunMatch)
    requires m in FunMatches(s, 0)
    ensures forall q :: 0 <= q < |m.body| ==> m.body[q] != '}'
  {
    FunMatchesFound(s, 0, m);
  }

  // ---------------------------------------------------------------
  // The fake-implementation patterns of `check_api_completeness`,
  // searched with re.IGNORECASE: decided on the lower-cased body.
  // ---------------------------------------------------------------

  datatype FakePattern =
    | ReturnsString      // return\s+"[^"]+"\s*$
    | ReturnsNumber      // return\s+\d+
    | ReturnsBoolean     // return\s+true|false
    | FixedDelay         // delay\s*\(\s*\d+\s*\)
    | ReturnsMock        // return\s+.*Mock
    | ReturnsFake        // return\s+.*fake
    | TodoComment        // //\s*TODO
    | ImplementComment   // //.*implement

  /** The patterns in the order they are tried. */
  const FakePatterns: seq<FakePattern> := [ReturnsString, ReturnsNumber, ReturnsBoolean, FixedDelay,
    ReturnsMock, ReturnsFake, TodoComment, ImplementComment]

  /** `"[^"]+"\s*$` at `a`. The run of non-quotes must end at the next quote;
      `$` without MULTILINE is the end of the text or the newline just before
      it, and both lie past a run of whitespace to the end. */
  predicate QuotedToEndAt(t: string, a: nat)
    requires a <= |t|
  {
    a < |t| && t[a] == '"' &&
    match FindChar(t, '"', a + 1)
    case None => false
    case Some(z) => z > a + 1 && SkipSpace(t, z + 1) == |t|
  }

  /** `return\s+.*<w>` at `p`: `.*` stays on the line where the returned
      text starts. Giving back some of `\s+` only lets `.*` start on
      whitespace of that same line, which no word begins with. */
  predicate ReturnsWordAt(t: string, p: nat, w: string)
    requires p <= |t|
  {
    match ReturnAt(t, p)
    case None => false
    case Some(a) => Contains(t[a..LineEnd(t, a)], w)
  }

  /** Pattern `pat` at `p` of the lower-cased text `t`. `return\s+true|false`
      is an alternation of `return\s+true` and a bare `false`. */
  predicate FakeAt(pat: FakePattern, t: string, p: nat)
    requires p <= |t|
  {
    match pat
    case ReturnsString => ReturnAt(t, p).Some? && QuotedToEndAt(t, ReturnAt(t, p).value)
    case ReturnsNumber => ReturnAt(t, p).Some? && ReturnAt(t, p).value < |t| && IsDigit(t[ReturnAt(t, p).value])
    case ReturnsBoolean => (ReturnAt(t, p).Some? && HasAt(t, ReturnAt(t, p).value, "true")) || HasAt(t, p, "false")
    case FixedDelay => DelayDigitsAt(t, p, 1)
    case ReturnsMock => ReturnsWordAt(t, p, "mock")
    case ReturnsFake => ReturnsWordAt(t, p, "fake")
    case TodoComment => HasAt(t, p, "//") && HasAt(t, SkipSpace(t, p + 2), "todo")
    case ImplementComment => HasAt(t, p, "//") && Contains(t[p + 2..LineEnd(t, p + 2)], "implement")
  }

  /** `re.search` of pattern `pat` from `p`. */
  predicate FakeFrom(pat: FakePattern, t: string, p: nat)
    requires p <= |t|
    decreases |t| - p
  {
    FakeAt(pat, t, p) || (p < |t| && FakeFrom(pat, t, p + 1))
  }

  /** The index of the first pattern of `pats`, from `i` on, that occurs in
      `t`; `|pats|` when none does. */
  function FirstFakeFrom(pats: seq<FakePattern>, t: string, i: nat): (r: nat)
    requires i <= |pats|
    decreases |pats| - i
    ensures i <= r <= |pats|
    ensures forall j :: i <= j < r ==> !FakeFrom(pats[j], t, 0)
    ensures r < |pats| ==> FakeFrom(pats[r], t, 0)
  {
    if i == |pats| then i
    else if FakeFrom(pats[i], t, 0) then i
    else FirstFakeFrom(pats, t, i + 1)
  }

  /** The pattern that reports the lower-cased body `t`: the first one of
      the list that occurs in it, if any. */
  function FirstFake(t: string): (r: Option<FakePattern>)
    ensures r.Some? <==> exists j :: 0 <= j < |FakePatterns| && FakeFrom(FakePatterns[j], t, 0)
    ensures r.Some? ==> FakeFrom(r.value, t, 0)
  {
    var i := FirstFakeFrom(FakePatterns, t, 0);
    if i < |FakePatterns| then Some(FakePatterns[i]) else None
  }

  // ---------------------------------------------------------------
  // extract_function_body: fun\s+<name>\s*\([^)]*\)[^{]*\{(.*?)\n\s*\}
  // ---------------------------------------------------------------

  /** `\n\s*\}` at `i`; `\s*` cannot give anything back, as `}` is no space. */
  predicate ClosingLineAt(s: string, i: nat)
    requires i <= |s|
  {
    i < |s| && s[i] == '\n' && SkipSpace(s, i + 1) < |s| && s[SkipSpace(s, i + 1)] == '}'
  }

  /** The lazy `(.*?)` ends at the first closing line at or after `i`. */
  function ClosingLineFrom(s: string, i: nat): (r: Option<nat>)
    requires i <= |s|
    decreases |s| - i
    ensures r.Some? ==> i <= r.value < |s| && ClosingLineAt(s, r.value)
    ensures r.Some? ==> forall q :: i <= q < r.value ==> !ClosingLineAt(s, q)
    ensures r.None? ==> forall q :: i <= q <= |s| ==> !ClosingLineAt(s, q)
  {
    if ClosingLineAt(s, i) then Some(i)
    else if i == |s| then None
    else ClosingLineFrom(s, i + 1)
  }

  /** The body pattern for `name` attempted at `p`: where group 1 starts
      and ends. `[^)]*` stops at the first `)` and `[^{]*` at the first `{`
      after it, so only the lazy group has a choice, and it takes the
      shortest. */
  function NamedBodyAt(s: string, p: nat, name: string): (r: Option<(nat, nat)>)
    requires p <= |s|
    ensures r.Some? ==> r.value.0 <= r.value.1 < |s| && ClosingLineAt(s, r.value.1)
    ensures r.Some? ==> forall q :: r.value.0 <= q < r.value.1 ==> !ClosingLineAt(s, q)
  {
    if !HasAt(s, p, "fun") then None
    else
      var n := SkipSpace(s, p + 3);
      if n == p + 3 || !HasAt(s, n, name) then None
      else
        var a := SkipSpace(s, n + |name|);
        if a == |s| || s[a] != '(' then None
        else
          match FindChar(s, ')', a + 1)
          case None => None
          case Some(c) =>
            match FindChar(s, '{', c + 1)
            case None => None
            case Some(o) =>
              match ClosingLineFrom(s, o + 1)
              case None => None
              case Some(z) => Some((o + 1, z))
  }

  /** `re.search` of the body pattern from `p`: the first position where it
      matches. */
  function NamedBodyFrom(s: string, p: nat, name: string): (r: Option<(nat, nat)>)
    requires p <= |s|
    decreases |s| - p
    ensures r.Some? ==> exists q :: p <= q <= |s| && NamedBodyAt(s, q, name) == r
  {
    match NamedBodyAt(s, p, name)
    case Some(b) => Some(b)
    case None => if p == |s| then None else NamedBodyFrom(s, p + 1, name)
  }

  /** `extract_function_body`: group 1 of the first match, or the empty text
      when there is none. */
  function ExtractBody(s: string, name: string): string
  {
    match NamedBodyFrom(s, 0, name)
    case Some(b) => s[b.0..b.1]
    case None => []
  }

  /** The extracted body stops at the first line that starts, after
      whitespace, with `}`: no such line lies inside it. */
  lemma ExtractedBodyStops(s: string, name: string)
    ensures forall i :: 0 <= i < |ExtractBody(s, name)| ==> !ClosingLineAt(ExtractBody(s, name), i)
  {
    match NamedBodyFrom(s, 0, name)
    case None =>
    case Some(b) =>
      var body := s[b.0..b.1];
      assert ExtractBody(s, name) == body;
      forall i | 0 <= i < |body|
        ensures !ClosingLineAt(body, i)
      {
        if ClosingLineAt(body, i) {
          ClosingLineInside(s, b.0, b.1, i);
        }
      }
  }

  /** A closing line inside `s[lo..hi]` is one of `s` at the same place. */
  lemma ClosingLineInside(s: string, lo: nat, hi: nat, i: nat)
    requires lo <= hi <= |s| && i < hi - lo && ClosingLineAt(s[lo..hi], i)
    ensures ClosingLineAt(s, lo + i)
  {
    var b := s[lo..hi];
    var j := SkipSpace(b, i + 1);
    forall q | lo + i + 1 <= q < lo + j
      ensures IsSpace(s[q])
    {
      assert s[q] == b[q - lo];
    }
    assert s[lo + j] == b[j];
    SkipSpaceAtLeast(s, lo + i + 1, lo + j);
  }

  /** `\s*` from `p` reaches a non-space at `j` when all before it are spaces. */
  lemma SkipSpaceAtLeast(s: string, p: nat, j: nat)
    requires p <= j < |s| && !IsSpace(s[j])
    requires forall q :: p <= q < j ==> IsSpace(s[q])
    ensures SkipSpace(s, p) == j
  {
  }

  // ---------------------------------------------------------------
  // verify_dependency_injection:
  //   @Inject\s+(?:constructor|lateinit\s+var)\s+(\w+)
  //   @Provides.*fun\s+provide(\w+)
  // ---------------------------------------------------------------

  /** `(?:constructor|lateinit\s+var)` at `a`: where it ends. Neither word is
      a prefix of the other, so at most one alternative applies. */
  function InjectKindEnd(s: string, a: nat): (r: Option<nat>)
    requires a <= |s|
    ensures r.Some? ==> a < r.value <= |s|
  {
    if HasAt(s, a, "constructor") then Some(a + 11)
    else if !HasAt(s, a, "lateinit") then None
    else
      var v := SkipSpace(s, a + 8);
      if v == a + 8 || !HasAt(s, v, "var") then None else Some(v + 3)
  }

  /** The injection pattern at `p`: the injected name and the end. */
  function InjectAt(s: string, p: nat): (r: Option<(string, nat)>)
    requires p <= |s|
    ensures r.Some? ==> p < r.value.1 <= |s| && |r.value.0| > 0
  {
    if !HasAt(s, p, "@Inject") then None
    else
      var a := SkipSpace(s, p + 7);
      if a == p + 7 then None
      else
        match InjectKindEnd(s, a)
        case None => None
        case Some(b) =>
          var c := SkipSpace(s, b);
          var e := WordEnd(s, c);
          if c == b || e == c then None else Some((s[c..e], e))
  }

  /** `re.findall` of the injection pattern from `p`. */
  function Injections(s: string, p: nat): (r: seq<string>)
    requires p <= |s|
    decreases |s| - p
  {
    if p == |s| then []
    else
      match InjectAt(s, p)
      case Some(m) => [m.0] + Injections(s, m.1)
      case None => Injections(s, p + 1)
  }

  /** `fun\s+provide(\w+)` at `q`: the group and the end. */
  function ProvideFunAt(s: string, q: nat): (r: Option<(string, nat)>)
    requires q <= |s|
    ensures r.Some? ==> q < r.value.1 <= |s| && |r.value.0| > 0
  {
    if !HasAt(s, q, "fun") then None
    else
      var a := SkipSpace(s, q + 3);
      if a == q + 3 || !HasAt(s, a, "provide") then None
      else
        var e := WordEnd(s, a + 7);
        if e == a + 7 then None else Some((s[a + 7..e], e))
  }

  /** The last start in `[lo, hi)` where `fun\s+provide(\w+)` matches. */
  function LastProvideFun(s: string, lo: nat, hi: nat): (r: Option<(string, nat)>)
    requires lo <= hi <= |s| + 1
    decreases hi - lo
    ensures r.Some? ==> lo < r.value.1 <= |s| && |r.value.0| > 0
    ensures r.Some? ==> exists q :: lo <= q < hi && ProvideFunAt(s, q) == r
    ensures r.None? ==> forall q :: lo <= q < hi ==> ProvideFunAt(s, q).None?
  {
    if hi == lo then None
    else
      match ProvideFunAt(s, hi - 1)
      case Some(m) => Some(m)
      case None => LastProvideFun(s, lo, hi - 1)
  }

  /** The provider pattern at `p`. `.*` cannot cross a newline and is
      greedy, so `fun` must start on the line of `@Provides`, and of the
      candidates there the last one is taken. */
  function ProvideAt(s: string, p: nat): (r: Option<(string, nat)>)
    requires p <= |s|
    ensures r.Some? ==> p < r.value.1 <= |s| && |r.value.0| > 0
  {
    if !HasAt(s, p, "@Provides") then None
    else LastProvideFun(s, p + 9, LineEnd(s, p + 9) + 1)
  }

  /** `re.findall` of the provider pattern from `p`. */
  function Provisions(s: string, p: nat): (r: seq<string>)
    requires p <= |s|
    decreases |s| - p
  {
    if p == |s| then []
    else
      match ProvideAt(s, p)
      case Some(m) => [m.0] + Provisions(s, m.1)
      case None => Provisions(s, p + 1)
  }

  /** A provider is recognised only when its `fun` starts on the line of
      the `@Provides` annotation: an annotation alone on its line provides
      nothing. */
  lemma ProvidesNeedsSameLine(s: string, p: nat)
    requires p + 9 < |s| && HasAt(s, p, "@Provides") && s[p + 9] == '\n'
    ensures ProvideAt(s, p).None?
  {
    assert LineEnd(s, p + 9) == p + 9;
    assert !HasAt(s, p + 9, "fun");
  }
}
