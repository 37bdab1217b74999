/** Recognisers for the regular expressions several validators share. Each
    one decides the match the way Python's `re` does; where a pattern could
    backtrack, the comment says why only one way of matching can succeed. */
module KotlinPatterns {
  import opened Text

  /** `^\s*` can end at `p` in MULTILINE mode: only whitespace, possibly
      spanning lines, lies between a line start and `p`. */
  predicate LineStartBefore(s: string, p: nat)
    requires p <= |s|
  {
    p == 0 || s[p - 1] == '\n' || (IsSpace(s[p - 1]) && LineStartBefore(s, p - 1))
  }

  /** `\s*$` can start at `c` in MULTILINE mode: only whitespace lies between
      `c` and a line end. */
  predicate LineEndsAfter(s: string, c: nat)
    requires c <= |s|
    decreases |s| - c
  {
    c == |s| || s[c] == '\n' || (IsSpace(s[c]) && LineEndsAfter(s, c + 1))
  }

  predicate IsQuote(c: char) { c == '"' || c == '\'' }

  /** `[^"']`. */
  predicate IsNotQuote(c: char) { !IsQuote(c) }

  /** `[\w/]`, the characters of a route name. */
  predicate IsRouteChar(c: char) { IsWordChar(c) || c == '/' }

  /** `<callee>\s*\(\s*["'](<ok>+)["']` attempted at `p`, for a character
      class `ok` that excludes both quotes: the argument and the end of the
      match. A shorter run of `ok` characters would have to be followed by a
      quote, and no `ok` character is one. */
  function QuotedCallAt(s: string, p: nat, callee: string, ok: char -> bool): (r: Option<(string, nat)>)
    requires p <= |s|
    ensures r.Some? ==> p < r.value.1 <= |s| && |r.value.0| > 0
    ensures r.Some? ==> forall k :: 0 <= k < |r.value.0| ==> ok(r.value.0[k])
  {
    if !HasAt(s, p, callee) || |callee| == 0 then None
    else
      var a := SkipSpace(s, p + |callee|);
      if a == |s| || s[a] != '(' then None
      else
        var b := SkipSpace(s, a + 1);
        if b == |s| || !IsQuote(s[b]) then None
        else
          var c := RunEnd(s, b + 1, ok);
          if c == b + 1 || c == |s| || !IsQuote(s[c]) then None
          else Some((s[b + 1..c], c + 1))
  }

  /** `re.findall` of that pattern from `p`: the arguments, left to right,
      each a non-empty run of `ok` characters, so free of quotes. */
  function QuotedCalls(s: string, p: nat, callee: string, ok: char -> bool): (r: seq<string>)
    requires p <= |s|
    decreases |s| - p
    ensures forall k :: 0 <= k < |r| ==> |r[k]| > 0
    ensures forall k, j :: 0 <= k < |r| && 0 <= j < |r[k]| ==> ok(r[k][j])
  {
    if p == |s| then []
    else match QuotedCallAt(s, p, callee, ok)
      case Some(m) => [m.0] + QuotedCalls(s, m.1, callee, ok)
      case None => QuotedCalls(s, p + 1, callee, ok)
  }

  /** Every argument found is a call's argument somewhere in the text. */
  lemma {:induction false} QuotedCallsFound(s: string, p: nat, callee: string, ok: char -> bool, x: string)
    requires p <= |s|
    requires x in QuotedCalls(s, p, callee, ok)
    decreases |s| - p
    ensures exists q :: p <= q <= |s| && QuotedCallAt(s, q, callee, ok).Some? && QuotedCallAt(s, q, callee, ok).value.0 == x
  {
    if p < |s| {
      match QuotedCallAt(s, p, callee, ok)
      case Some(m) =>
        if x != m.0 {
          QuotedCallsFound(s, m.1, callee, ok, x);
        }
      case None =>
        QuotedCallsFound(s, p + 1, callee, ok, x);
    }
  }

  /** `(localhost|127\.0\.0\.1|192\.168\.)` occurs somewhere. */
  predicate HasLocalAddress(s: string)
  {
    Contains(s, "localhost") || Contains(s, "127.0.0.1") || Contains(s, "192.168.")
  }

  /** `re.sub(r'//.*', '', s)`: every line loses the text from its first `//` on. */
  function StripLineComments(s: string): (r: string)
    decreases |s|
    ensures |r| <= |s|
  {
    if |s| == 0 then ""
    else if HasAt(s, 0, "//") then StripLineComments(s[LineEnd(s, 0)..])
    else [s[0]] + StripLineComments(s[1..])
  }

  /** No two adjacent slashes. */
  predicate NoDoubleSlash(s: string)
  {
    forall i :: 0 < i < |s| ==> !(s[i - 1] == '/' && s[i] == '/')
  }

  lemma NoDoubleSlashIff(s: string)
    ensures NoDoubleSlash(s) <==> !Contains(s, "//")
  {
    ContainsIffOccurs(s, "//");
    if !NoDoubleSlash(s) {
      var i :| 0 < i < |s| && s[i - 1] == '/' && s[i] == '/';
      assert HasAt(s, i - 1, "//");
    }
    if Contains(s, "//") {
      var p: nat :| HasAt(s, p, "//");
      assert s[p..p + 2][0] == '/' && s[p..p + 2][1] == '/';
    }
  }

  /** After line comments are stripped no `//` is left, and the text
      starts with the original first character or with a line break. */
  lemma {:induction false} StripLineCommentsClean(s: string)
    decreases |s|
    ensures NoDoubleSlash(StripLineComments(s))
    ensures |StripLineComments(s)| > 0 ==> StripLineComments(s)[0] == s[0] || StripLineComments(s)[0] == '\n'
  {
    if |s| > 0 {
      if HasAt(s, 0, "//") {
        var e := LineEnd(s, 0);
        StripLineCommentsClean(s[e..]);
      } else {
        StripLineCommentsClean(s[1..]);
        var rest := StripLineComments(s[1..]);
        assert StripLineComments(s) == [s[0]] + rest;
      }
    }
  }

  /** A slice of a text without `//` has none either. */
  lemma NoDoubleSlashSlice(s: string, a: nat, b: nat)
    requires a <= b <= |s|
    requires NoDoubleSlash(s)
    ensures NoDoubleSlash(s[a..b])
  {
    forall i | 0 < i < b - a
      ensures !(s[a..b][i - 1] == '/' && s[a..b][i] == '/')
    {
      assert s[a..b][i - 1] == s[a + i - 1] && s[a..b][i] == s[a + i];
    }
  }

  /** Without a `//`, removing line comments changes nothing. */
  lemma {:induction false} NoDoubleSlashLineText(s: string)
    requires NoDoubleSlash(s)
    decreases |s|
    ensures StripLineComments(s) == s
  {
    if |s| > 0 {
      assert !HasAt(s, 0, "//") by {
        if 2 <= |s| { assert s[0..2][0] == s[0] && s[0..2][1] == s[1]; }
      }
      NoDoubleSlashSlice(s, 1, |s|);
      NoDoubleSlashLineText(s[1..]);
      assert s == [s[0]] + s[1..];
    }
  }

  /** No `/` followed by `*`. */
  predicate NoCommentOpener(s: string)
  {
    forall i :: 0 < i < |s| ==> !(s[i - 1] == '/' && s[i] == '*')
  }

  /** A slice of a text without a comment opener has none either. */
  lemma NoCommentOpenerSlice(s: string, a: nat, b: nat)
    requires a <= b <= |s|
    requires NoCommentOpener(s)
    ensures NoCommentOpener(s[a..b])
  {
    forall i | 0 < i < b - a
      ensures !(s[a..b][i - 1] == '/' && s[a..b][i] == '*')
    {
      assert s[a..b][i - 1] == s[a + i - 1] && s[a..b][i] == s[a + i];
    }
  }

  /** An optional group `(<kw>\s+)?` at `p`: whether it took part and where
      the pattern goes on. None when `kw` stands at `p` without whitespace
      after it: then the group cannot take part, and without it the next
      keyword (`suspend` or `fun`) would have to start at `p` with a letter
      other than the one there. */
  function OptionalKeyword(s: string, p: nat, kw: string): (r: Option<(bool, nat)>)
    requires p <= |s|
    ensures r.Some? ==> p <= r.value.1 <= |s|
    ensures r.Some? && !r.value.0 ==> r.value.1 == p
  {
    if !HasAt(s, p, kw) then Some((false, p))
    else
      var q := SkipSpace(s, p + |kw|);
      if q == p + |kw| then None else Some((true, q))
  }

  /** `return\s+` at `p`: where the returned text starts. */
  function ReturnAt(t: string, p: nat): (r: Option<nat>)
    requires p <= |t|
    ensures r.Some? ==> p + 7 <= r.value <= |t| && HasAt(t, p, "return")
  {
    if !HasAt(t, p, "return") then None
    else
      var a := SkipSpace(t, p + 6);
      if a == p + 6 then None else Some(a)
  }

  /** `delay\s*\(\s*\d{n,}\s*\)` at `p`. A shorter digit run would have to
      be followed by `)` or whitespace, and a digit is neither. */
  predicate DelayDigitsAt(s: string, p: nat, n: nat)
    requires p <= |s|
  {
    HasAt(s, p, "delay") &&
    var b := SkipSpace(s, p + 5);
    b < |s| && s[b] == '(' &&
    var c := SkipSpace(s, b + 1);
    var d := DigitEnd(s, c);
    d >= c + n && d > c &&
    var e := SkipSpace(s, d);
    e < |s| && s[e] == ')'
  }
}
