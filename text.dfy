/** Strings as the validators see them: character classes, substring
    search, `strip`, `split`/`join`, `replace`, case mapping and counting.
    Only the ASCII part of Python's Unicode-aware classes is modelled. */
module Text {

  datatype Option<T> = None | Some(value: T)

  /** Whitespace for `\s` and `str.strip()`: the ASCII characters Python
      counts as whitespace, the separators `\x1c`-`\x1f` included. */
  predicate IsSpace(c: char) {
    c == ' ' || c == '\t' || c == '\n' || c == '\r' || c == '\U{000B}' || c == '\U{000C}'
    || c == '\U{001C}' || c == '\U{001D}' || c == '\U{001E}' || c == '\U{001F}'
  }

  predicate IsDigit(c: char) { '0' <= c <= '9' }

  /** `\w` (ASCII subset). */
  predicate IsWordChar(c: char) {
    'a' <= c <= 'z' || 'A' <= c <= 'Z' || IsDigit(c) || c == '_'
  }

  /** `sub` occurs in `s` starting at index `p`. */
  predicate HasAt(s: string, p: nat, sub: string) {
    p + |sub| <= |s| && s[p..p + |sub|] == sub
  }

  predicate StartsWith(s: string, prefix: string) {
    HasAt(s, 0, prefix)
  }

  predicate EndsWith(s: string, suffix: string) {
    |suffix| <= |s| && HasAt(s, |s| - |suffix|, suffix)
  }


  /** The first index at or after `from` where `sub` occurs (`s.find(sub, from)`). */
  function FindFrom(s: string, sub: string, from: nat): (r: Option<nat>)
    decreases |s| - from
    ensures r.Some? ==> from <= r.value && HasAt(s, r.value, sub)
    ensures r.Some? ==> forall q: nat :: from <= q < r.value ==> !HasAt(s, q, sub)
    ensures r.None? ==> forall q: nat :: from <= q ==> !HasAt(s, q, sub)
  {
    if from + |sub| > |s| then None
    else if HasAt(s, from, sub) then Some(from)
    else FindFrom(s, sub, from + 1)
  }

  /** The first occurrence from `from` on is the one found. */
  lemma {:induction false} FindFromFirst(s: string, sub: string, from: nat, p: nat)
    requires from <= p && HasAt(s, p, sub)
    requires forall q: nat :: from <= q < p ==> !HasAt(s, q, sub)
    decreases p - from
    ensures FindFrom(s, sub, from) == Some(p)
  {
    if from < p {
      FindFromFirst(s, sub, from + 1, p);
    }
  }

  /** `sub` occurs in `s` at index `p` or later. */
  predicate OccursFrom(s: string, sub: string, p: nat)
    decreases |s| - p
  {
    p + |sub| <= |s| && (HasAt(s, p, sub) || OccursFrom(s, sub, p + 1))
  }

  /** Python's `sub in s`. */
  predicate Contains(s: string, sub: string) {
    OccursFrom(s, sub, 0)
  }

  lemma {:induction false} OccursFromIff(s: string, sub: string, p: nat)
    decreases |s| - p
    ensures OccursFrom(s, sub, p) <==> exists q: nat :: p <= q && HasAt(s, q, sub)
  {
    if p + |sub| <= |s| {
      OccursFromIff(s, sub, p + 1);
      if OccursFrom(s, sub, p) && !HasAt(s, p, sub) {
        var q: nat :| p + 1 <= q && HasAt(s, q, sub);
        assert p <= q;
      }
      if exists q: nat :: p <= q && HasAt(s, q, sub) {
        var q: nat :| p <= q && HasAt(s, q, sub);
        if q > p {
          assert p + 1 <= q;
        }
      }
    }
  }

  /** `sub in s` holds iff `sub` occurs at some index. */
  lemma ContainsIffOccurs(s: string, sub: string)
    ensures Contains(s, sub) <==> exists p: nat :: HasAt(s, p, sub)
  {
    OccursFromIff(s, sub, 0);
  }

  /** `sub in s` holds iff a search from the start finds it. */
  lemma ContainsIffFound(s: string, sub: string)
    ensures Contains(s, sub) <==> FindFrom(s, sub, 0).Some?
  {
    ContainsIffOccurs(s, sub);
    if FindFrom(s, sub, 0).Some? {
      assert HasAt(s, FindFrom(s, sub, 0).value, sub);
    }
  }

  /** A single character occurs at `p`. */
  lemma HasAtChar(s: string, p: nat, c: char)
    ensures HasAt(s, p, [c]) <==> p < |s| && s[p] == c
  {
    if p < |s| {
      assert s[p..p + 1] == [s[p]];
    }
  }

  /** A substring of a string without `sub` has no `sub` either. */
  lemma NoOccurrenceInSlice(s: string, a: nat, b: nat, sub: string)
    requires a <= b <= |s|
    requires !Contains(s, sub)
    ensures !Contains(s[a..b], sub)
  {
    ContainsIffOccurs(s, sub);
    ContainsIffOccurs(s[a..b], sub);
    forall p: nat | HasAt(s[a..b], p, sub)
      ensures HasAt(s, a + p, sub)
    {
      forall k | 0 <= k < |sub| ensures s[a + p + k] == sub[k] {
        assert s[a..b][p..p + |sub|][k] == sub[k];
      }
      assert s[a + p..a + p + |sub|] == sub;
    }
  }

  /** The end of the run of characters satisfying `ok` that starts at `p`. */
  function RunEnd(s: string, p: nat, ok: char -> bool): (r: nat)
    requires p <= |s|
    decreases |s| - p
    ensures p <= r <= |s|
    ensures forall q :: p <= q < r ==> ok(s[q])
    ensures r < |s| ==> !ok(s[r])
  {
    if p < |s| && ok(s[p]) then RunEnd(s, p + 1, ok) else p
  }

  /** `\s*` from `p`. */
  function SkipSpace(s: string, p: nat): (r: nat)
    requires p <= |s|
    ensures p <= r <= |s|
    ensures forall q :: p <= q < r ==> IsSpace(s[q])
    ensures r < |s| ==> !IsSpace(s[r])
  {
    RunEnd(s, p, IsSpace)
  }

  /** Python's `int(s)` for a non-empty run of ASCII digits. */
  function DecimalValue(s: string): nat
    requires forall k :: 0 <= k < |s| ==> IsDigit(s[k])
  {
    if |s| == 0 then 0
    else
      var d := s[|s| - 1];
      assert IsDigit(d);
      10 * DecimalValue(s[..|s| - 1]) + (d as int - '0' as int)
  }

  /** A number written with at least four digits, the first not zero, is
      at least a thousand. */
  lemma {:induction false} DecimalValueAtLeast(s: string, n: nat)
    requires forall k :: 0 <= k < |s| ==> IsDigit(s[k])
    requires 1 <= n <= |s| && s[0] != '0'
    ensures DecimalValue(s[..n]) >= Power10(n - 1)
  {
    if n > 1 {
      DecimalValueAtLeast(s, n - 1);
      assert s[..n][..n - 1] == s[..n - 1];
    } else {
      assert s[..1][..0] == [];
    }
  }

  function Power10(n: nat): (r: nat)
    ensures r >= 1
  {
    if n == 0 then 1 else 10 * Power10(n - 1)
  }

  lemma {:induction false} PowerGrows(m: nat, n: nat)
    requires m <= n
    decreases n
    ensures Power10(m) <= Power10(n)
  {
    if m < n {
      PowerGrows(m, n - 1);
    }
  }

  /** A literal of four or more digits that does not start with `0` is at
      least a thousand. */
  lemma DecimalValueLong(s: string)
    requires forall k :: 0 <= k < |s| ==> IsDigit(s[k])
    requires |s| >= 4 && s[0] != '0'
    ensures DecimalValue(s) >= 1000
  {
    DecimalValueAtLeast(s, |s|);
    assert s[..|s|] == s;
    assert Power10(3) == 1000;
    PowerGrows(3, |s| - 1);
  }

  /** `\w*` from `p`. */
  function WordEnd(s: string, p: nat): (r: nat)
    requires p <= |s|
    ensures p <= r <= |s|
    ensures forall q :: p <= q < r ==> IsWordChar(s[q])
    ensures r < |s| ==> !IsWordChar(s[r])
  {
    RunEnd(s, p, IsWordChar)
  }

  /** `\d*` from `p`. */
  function DigitEnd(s: string, p: nat): (r: nat)
    requires p <= |s|
    ensures p <= r <= |s|
    ensures forall q :: p <= q < r ==> IsDigit(s[q])
    ensures r < |s| ==> !IsDigit(s[r])
  {
    RunEnd(s, p, IsDigit)
  }

  /** Where the trailing whitespace of `s[..e]` begins. */
  function SpaceBefore(s: string, e: nat): (r: nat)
    requires e <= |s|
    ensures r <= e
    ensures forall q :: r <= q < e ==> IsSpace(s[q])
    ensures r > 0 ==> !IsSpace(s[r - 1])
  {
    if e > 0 && IsSpace(s[e - 1]) then SpaceBefore(s, e - 1) else e
  }

  /** Python's `str.strip()`: `s` without leading and trailing whitespace. */
  function Strip(s: string): (r: string)
    ensures |r| <= |s|
    ensures exists a: nat, b: nat :: a <= b <= |s| && r == s[a..b]
              && (forall q :: 0 <= q < a ==> IsSpace(s[q]))
              && (forall q :: b <= q < |s| ==> IsSpace(s[q]))
    ensures r == [] || (!IsSpace(r[0]) && !IsSpace(r[|r| - 1]))
    ensures r == [] <==> forall q :: 0 <= q < |s| ==> IsSpace(s[q])
  {
    var a := SkipSpace(s, 0);
    if a == |s| then
      assert s[a..a] == [];
      []
    else
      var b := SpaceBefore(s, |s|);
      assert !IsSpace(s[a]);
      s[a..b]
  }

  /** Python's `str.lstrip()`. */
  function TrimStart(s: string): (r: string)
    ensures |r| <= |s| && r == s[|s| - |r|..]
    ensures r == [] || !IsSpace(r[0])
    ensures forall q :: 0 <= q < |s| - |r| ==> IsSpace(s[q])
  {
    s[SkipSpace(s, 0)..]
  }

  function LowerChar(c: char): char {
    if 'A' <= c <= 'Z' then (c as int + 32) as char else c
  }

  function UpperChar(c: char): char {
    if 'a' <= c <= 'z' then (c as int - 32) as char else c
  }

  /** `str.lower()` (ASCII letters only). */
  function Lower(s: string): (r: string)
    ensures |r| == |s| && forall i :: 0 <= i < |s| ==> r[i] == LowerChar(s[i])
  {
    seq(|s|, i requires 0 <= i < |s| => LowerChar(s[i]))
  }

  /** `str.upper()` (ASCII letters only). */
  function Upper(s: string): (r: string)
    ensures |r| == |s| && forall i :: 0 <= i < |s| ==> r[i] == UpperChar(s[i])
  {
    seq(|s|, i requires 0 <= i < |s| => UpperChar(s[i]))
  }

  /** Upper-casing forgets the original case: `s.lower().upper() == s.upper()`. */
  lemma UpperOfLower(s: string)
    ensures Upper(Lower(s)) == Upper(s)
  {
    forall i | 0 <= i < |s| ensures Upper(Lower(s))[i] == Upper(s)[i] {
      var c := s[i];
      if 'A' <= c <= 'Z' {
        assert LowerChar(c) as int == c as int + 32;
      }
    }
  }

  /** Python's `s.count(c)` for a one-character `c`. */
  function CountChar(s: string, c: char): (n: nat)
    ensures n <= |s|
  {
    if |s| == 0 then 0
    else (if s[0] == c then 1 else 0) + CountChar(s[1..], c)
  }

  /** `s.count(c)` is 0 exactly when `c` does not occur in `s`. */
  lemma {:induction false} CountCharZero(s: string, c: char)
    decreases |s|
    ensures CountChar(s, c) == 0 <==> c !in s
  {
    if |s| > 0 {
      CountCharZero(s[1..], c);
      assert s == [s[0]] + s[1..];
    }
  }

  /** The first index at or after `from` holding `c`. */
  function FindChar(s: string, c: char, from: nat): (r: Option<nat>)
    decreases |s| - from
    ensures r.Some? ==> from <= r.value < |s| && s[r.value] == c
    ensures r.Some? ==> forall q :: from <= q < r.value ==> s[q] != c
    ensures r.None? ==> forall q :: from <= q < |s| ==> s[q] != c
  {
    if from >= |s| then None
    else if s[from] == c then Some(from)
    else FindChar(s, c, from + 1)
  }

  /** The end of the line that contains index `p`: the next `'\n'` or `|s|`. */
  function LineEnd(s: string, p: nat): (r: nat)
    requires p <= |s|
    ensures p <= r <= |s|
    ensures forall q :: p <= q < r ==> s[q] != '\n'
    ensures r < |s| ==> s[r] == '\n'
  {
    match FindChar(s, '\n', p)
    case Some(i) => i
    case None => |s|
  }

  /** Python's `s.split(sep)` for a one-character separator. */
  function Split(s: string, sep: char): (r: seq<string>)
    decreases |s|
    ensures |r| >= 1
  {
    match FindChar(s, sep, 0)
    case None => [s]
    case Some(i) => [s[..i]] + Split(s[i + 1..], sep)
  }

  /** No piece of a split holds the separator. */
  lemma {:induction false} SplitPiecesFree(s: string, sep: char)
    decreases |s|
    ensures forall k :: 0 <= k < |Split(s, sep)| ==> sep !in Split(s, sep)[k]
  {
    match FindChar(s, sep, 0)
    case None =>
    case Some(i) =>
      SplitPiecesFree(s[i + 1..], sep);
      assert sep !in s[..i];
  }

  /** Python's `sep.join(parts)` for a one-character separator. */
  function Join(parts: seq<string>, sep: char): string
  {
    if |parts| == 0 then ""
    else if |parts| == 1 then parts[0]
    else parts[0] + [sep] + Join(parts[1..], sep)
  }

  /** Splitting and joining again gives back the text. */
  lemma {:induction false} JoinSplit(s: string, sep: char)
    decreases |s|
    ensures Join(Split(s, sep), sep) == s
  {
    match FindChar(s, sep, 0)
    case None =>
    case Some(i) =>
      JoinSplit(s[i + 1..], sep);
      var rest := Split(s[i + 1..], sep);
      assert Split(s, sep) == [s[..i]] + rest;
      assert ([s[..i]] + rest)[1..] == rest;
      assert s == s[..i] + [sep] + s[i + 1..];
  }

  /** Joining lines that hold no separator and splitting again gives back the lines. */
  lemma {:induction false} SplitJoin(parts: seq<string>, sep: char)
    requires |parts| >= 1
    requires forall k :: 0 <= k < |parts| ==> sep !in parts[k]
    ensures Split(Join(parts, sep), sep) == parts
  {
    if |parts| == 1 {
      assert FindChar(parts[0], sep, 0).None?;
    } else {
      var tail := Join(parts[1..], sep);
      var s := parts[0] + [sep] + tail;
      assert s[|parts[0]|] == sep;
      assert forall q :: 0 <= q < |parts[0]| ==> s[q] == parts[0][q];
      assert FindChar(s, sep, 0) == Some(|parts[0]|);
      assert s[..|parts[0]|] == parts[0];
      assert s[|parts[0]| + 1..] == tail;
      SplitJoin(parts[1..], sep);
      assert [parts[0]] + parts[1..] == parts;
    }
  }

  /** Python's `s.replace(pat, rep)`: every non-overlapping occurrence of
      `pat`, scanning left to right, becomes `rep`; an empty `pat` matches
      between every two characters and at both ends. */
  function Replace(s: string, pat: string, rep: string): string
    decreases |s|
  {
    if |pat| == 0 then
      (if |s| == 0 then rep else rep + [s[0]] + Replace(s[1..], pat, rep))
    else if |s| == 0 then ""
    else if StartsWith(s, pat) then rep + Replace(s[|pat|..], pat, rep)
    else [s[0]] + Replace(s[1..], pat, rep)
  }

  /** Removing a single character keeps exactly the other characters. */
  lemma {:induction false} RemoveCharMembers(s: string, c: char, x: char)
    decreases |s|
    ensures x in Replace(s, [c], "") <==> x in s && x != c
  {
    if |s| > 0 {
      RemoveCharMembers(s[1..], c, x);
      assert s == [s[0]] + s[1..];
      HasAtChar(s, 0, c);
    }
  }

  /** Some word of `words` occurs in `s`: `any(w in s for w in words)`. */
  predicate ContainsAny(s: string, words: seq<string>)
  {
    |words| > 0 && (Contains(s, words[|words| - 1]) || ContainsAny(s, words[..|words| - 1]))
  }

  lemma {:induction false} ContainsAnyIff(s: string, words: seq<string>)
    ensures ContainsAny(s, words) <==> exists k :: 0 <= k < |words| && Contains(s, words[k])
  {
    if |words| > 0 {
      var init := words[..|words| - 1];
      ContainsAnyIff(s, init);
      assert forall k :: 0 <= k < |init| ==> init[k] == words[k];
    }
  }

  /** Python's `s.endswith(suffix)` agrees with the last characters. */
  lemma EndsWithSlice(s: string, suffix: string)
    requires |suffix| <= |s|
    ensures EndsWith(s, suffix) <==> s[|s| - |suffix|..] == suffix
  {
  }
}

/** Generic list comprehensions: filtering, counting, taking a prefix. */
module Seqs {

  function Filter<T>(s: seq<T>, p: T -> bool): (r: seq<T>)
    ensures |r| <= |s|
    ensures forall i :: 0 <= i < |r| ==> r[i] in s && p(r[i])
  {
    if |s| == 0 then []
    else (if p(s[0]) then [s[0]] else []) + Filter(s[1..], p)
  }

  function Count<T>(s: seq<T>, p: T -> bool): (n: nat)
    ensures n <= |s|
  {
    if |s| == 0 then 0
    else (if p(s[0]) then 1 else 0) + Count(s[1..], p)
  }

  /** Counting the entries that pass is measuring the filtered list. */
  lemma {:induction false} CountFilter<T>(s: seq<T>, p: T -> bool)
    decreases |s|
    ensures Count(s, p) == |Filter(s, p)|
  {
    if |s| > 0 {
      CountFilter(s[1..], p);
    }
  }

  /** Python's `s[:n]`. */
  function Take<T>(s: seq<T>, n: nat): (r: seq<T>)
    ensures |r| == if n < |s| then n else |s|
    ensures r == s[..|r|]
  {
    if n < |s| then s[..n] else s
  }

  lemma {:induction false} FilterAppend<T>(a: seq<T>, b: seq<T>, p: T -> bool)
    decreases |a|
    ensures Filter(a + b, p) == Filter(a, p) + Filter(b, p)
  {
    if |a| > 0 {
      assert (a + b)[1..] == a[1..] + b;
      FilterAppend(a[1..], b, p);
    } else {
      assert a + b == b;
    }
  }

  /** Every element that passes survives filtering. */
  lemma {:induction false} FilterKeepsMember<T>(s: seq<T>, p: T -> bool, x: T)
    requires x in s && p(x)
    decreases |s|
    ensures x in Filter(s, p)
  {
    if s[0] != x {
      FilterKeepsMember(s[1..], p, x);
    }
  }

  /** Filtering a list extended by one element. */
  lemma FilterSnoc<T>(s: seq<T>, x: T, p: T -> bool)
    ensures p(x) ==> Filter(s + [x], p) == Filter(s, p) + [x]
    ensures !p(x) ==> Filter(s + [x], p) == Filter(s, p)
  {
    FilterAppend(s, [x], p);
    assert [x][1..] == [];
    assert Filter(s, p) + [] == Filter(s, p);
  }

  /** No entry passes exactly when the count is zero. */
  lemma {:induction false} CountZero<T>(s: seq<T>, p: T -> bool)
    decreases |s|
    ensures Count(s, p) == 0 <==> forall k :: 0 <= k < |s| ==> !p(s[k])
  {
    if |s| > 0 {
      CountZero(s[1..], p);
      assert forall k :: 1 <= k < |s| ==> s[k] == s[1..][k - 1];
    }
  }

  /** Counting over a list extended by one element. */
  lemma CountSnoc<T>(s: seq<T>, x: T, p: T -> bool)
    ensures Count(s + [x], p) == Count(s, p) + (if p(x) then 1 else 0)
  {
    CountAppend(s, [x], p);
    assert [x][1..] == [];
  }

  /** Counting a non-empty list: its prefix, then its last element. */
  lemma {:induction false} CountLast<T>(s: seq<T>, p: T -> bool)
    requires |s| > 0
    ensures Count(s, p) == Count(s[..|s| - 1], p) + (if p(s[|s| - 1]) then 1 else 0)
  {
    if |s| > 1 {
      CountLast(s[1..], p);
      assert s[1..][..|s| - 2] == s[..|s| - 1][1..];
    }
  }

  lemma {:induction false} CountAppend<T>(a: seq<T>, b: seq<T>, p: T -> bool)
    decreases |a|
    ensures Count(a + b, p) == Count(a, p) + Count(b, p)
  {
    if |a| > 0 {
      assert (a + b)[1..] == a[1..] + b;
      CountAppend(a[1..], b, p);
    } else {
      assert a + b == b;
    }
  }

  /** A weaker test counts at least as many entries. */
  lemma {:induction false} CountMono<T>(s: seq<T>, p: T -> bool, q: T -> bool)
    requires forall x :: p(x) ==> q(x)
    decreases |s|
    ensures Count(s, p) <= Count(s, q)
  {
    if |s| > 0 {
      CountMono(s[1..], p, q);
    }
  }

  /** Counting only depends on the multiset of elements: the order of a
      list never changes how many of its entries satisfy `p`. */
  lemma {:induction false} CountPermutation<T>(a: seq<T>, b: seq<T>, p: T -> bool)
    requires multiset(a) == multiset(b)
    decreases |a|
    ensures Count(a, p) == Count(b, p)
  {
    if |a| == 0 {
      assert |multiset(b)| == 0;
    } else {
      var i := RemoveMatching(a, b);
      CountRemoveAt(b, i, p);
      CountPermutation(a[1..], b[..i] + b[i + 1..], p);
    }
  }

  /** Two lists with the same elements: the first entry of `a` sits at some
      index `i` of `b`, and the rests still have the same elements. */
  lemma RemoveMatching<T>(a: seq<T>, b: seq<T>) returns (i: nat)
    requires multiset(a) == multiset(b) && |a| > 0
    ensures i < |b| && b[i] == a[0]
    ensures multiset(a[1..]) == multiset(b[..i] + b[i + 1..])
  {
    assert a[0] in multiset(b);
    i :| 0 <= i < |b| && b[i] == a[0];
    var l, m, r := b[..i], b[i..], b[i + 1..];
    assert b == l + m;
    assert m == [b[i]] + r;
    assert a == [a[0]] + a[1..];
    assert multiset(a) == multiset{a[0]} + multiset(a[1..]);
    assert multiset(b) == multiset(l) + multiset{b[i]} + multiset(r);
    assert multiset(a[1..]) == multiset(a) - multiset{a[0]};
    assert multiset(b) - multiset{b[i]} == multiset(l) + multiset(r);
    assert multiset(l + r) == multiset(l) + multiset(r);
  }

  /** Taking out the entry at `i` takes it out of the count. */
  lemma CountRemoveAt<T>(b: seq<T>, i: nat, p: T -> bool)
    requires i < |b|
    ensures Count(b, p) == Count(b[..i] + b[i + 1..], p) + (if p(b[i]) then 1 else 0)
  {
    var l, m, r := b[..i], b[i..], b[i + 1..];
    assert b == l + m;
    assert m[0] == b[i] && m[1..] == r;
    CountAppend(l, m, p);
    CountAppend(l, r, p);
  }

  /** The sum of `f` over a list. */
  function SumOf<T>(s: seq<T>, f: T -> real): real
  {
    if |s| == 0 then 0.0 else f(s[0]) + SumOf(s[1..], f)
  }

  lemma {:induction false} SumAppend<T>(a: seq<T>, b: seq<T>, f: T -> real)
    decreases |a|
    ensures SumOf(a + b, f) == SumOf(a, f) + SumOf(b, f)
  {
    if |a| > 0 {
      assert (a + b)[1..] == a[1..] + b;
      SumAppend(a[1..], b, f);
    } else {
      assert a + b == b;
    }
  }

  lemma SumSnoc<T>(s: seq<T>, x: T, f: T -> real)
    ensures SumOf(s + [x], f) == SumOf(s, f) + f(x)
  {
    SumAppend(s, [x], f);
    assert [x][1..] == [];
  }

  /** A sum does not depend on the order of the list. */
  lemma {:induction false} SumPermutation<T>(a: seq<T>, b: seq<T>, f: T -> real)
    requires multiset(a) == multiset(b)
    decreases |a|
    ensures SumOf(a, f) == SumOf(b, f)
  {
    if |a| == 0 {
      assert |multiset(b)| == 0;
    } else {
      var i := RemoveMatching(a, b);
      SumRemoveAt(b, i, f);
      SumPermutation(a[1..], b[..i] + b[i + 1..], f);
    }
  }

  /** Taking out the entry at `i` takes its term out of the sum. */
  lemma SumRemoveAt<T>(b: seq<T>, i: nat, f: T -> real)
    requires i < |b|
    ensures SumOf(b, f) == SumOf(b[..i] + b[i + 1..], f) + f(b[i])
  {
    var l, m, r := b[..i], b[i..], b[i + 1..];
    assert b == l + m;
    assert m[0] == b[i] && m[1..] == r;
    SumAppend(l, m, f);
    SumAppend(l, r, f);
  }

  /** A sum of non-negative terms is non-negative. */
  lemma {:induction false} SumNonNegative<T>(s: seq<T>, f: T -> real)
    requires forall k :: 0 <= k < |s| ==> f(s[k]) >= 0.0
    ensures SumOf(s, f) >= 0.0
  {
    if |s| > 0 {
      SumNonNegative(s[1..], f);
    }
  }

  /** Python's `set(s)`. */
  function Elems<T(!new)>(s: seq<T>): (r: set<T>)
    ensures forall x :: x in r <==> x in s
  {
    set x | x in s
  }

  lemma ElemsSnoc<T(!new)>(s: seq<T>, x: T)
    ensures Elems(s + [x]) == Elems(s) + {x}
  {
  }

  /** Concatenation regroups; a step the solver often misses on long terms. */
  lemma AppendAssoc<T>(a: seq<T>, b: seq<T>, c: seq<T>)
    ensures a + (b + c) == (a + b) + c
  {
  }

  /** Moving one element from the pending set to the handled ones. */
  lemma TakeOne<T>(all: set<T>, left: set<T>, x: T)
    requires x in left && left <= all
    ensures (all - left) + {x} == all - (left - {x})
    ensures |left - {x}| == |left| - 1
  {
  }

  /** Union regroups, as concatenation does. */
  lemma UnionAssoc<T>(a: set<T>, b: set<T>, c: set<T>)
    ensures a + (b + c) == (a + b) + c
  {
  }

  /** No element occurs twice. */
  predicate Distinct<T(==)>(s: seq<T>)
  {
    forall i, j :: 0 <= i < j < |s| ==> s[i] != s[j]
  }

  /** Appending a new element keeps a list free of repeats. */
  lemma DistinctSnoc<T>(s: seq<T>, x: T)
    requires Distinct(s) && x !in s
    ensures Distinct(s + [x])
  {
    forall i, j | 0 <= i < j < |s| + 1
      ensures (s + [x])[i] != (s + [x])[j]
    {
      assert (s + [x])[i] == s[i];
      if j == |s| {
        assert s[i] in s;
      }
    }
  }

  /** A list without repeats has as many elements as its set. */
  lemma {:induction false} DistinctCard<T(!new)>(s: seq<T>)
    requires Distinct(s)
    ensures |Elems(s)| == |s|
  {
    if |s| > 0 {
      var init := s[..|s| - 1];
      var x := s[|s| - 1];
      assert s == init + [x];
      DistinctCard(init);
      ElemsSnoc(init, x);
      forall k | 0 <= k < |init|
        ensures init[k] != x
      {
        assert init[k] == s[k];
      }
    }
  }

  /** A subset is no larger than its superset. */
  lemma {:induction false} SubsetCard<T>(a: set<T>, b: set<T>)
    requires a <= b
    decreases |a|
    ensures |a| <= |b|
  {
    if a != {} {
      var x :| x in a;
      SubsetCard(a - {x}, b - {x});
    }
  }

  /** Counting the same list under a partition of predicates adds up to its length. */
  lemma {:induction false} CountSplit<T>(s: seq<T>, p: T -> bool)
    ensures Count(s, p) + Count(s, x => !p(x)) == |s|
  {
    if |s| > 0 {
      CountSplit(s[1..], p);
    }
  }

  /** The pieces of `xss` one after another. */
  function Concat<T>(xss: seq<seq<T>>): seq<T>
  {
    if |xss| == 0 then [] else Concat(xss[..|xss| - 1]) + xss[|xss| - 1]
  }

  lemma ConcatSnoc<T>(xss: seq<seq<T>>, ys: seq<T>)
    ensures Concat(xss + [ys]) == Concat(xss) + ys
  {
    assert (xss + [ys])[..|xss|] == xss;
  }

  /** Taking one more piece appends it. */
  lemma ConcatPrefixSnoc<T>(xss: seq<seq<T>>, i: nat)
    requires i < |xss|
    ensures Concat(xss[..i + 1]) == Concat(xss[..i]) + xss[i]
  {
    assert xss[..i + 1][..i] == xss[..i];
  }

  /** Every element of the concatenation comes from one of the pieces. */
  lemma {:induction false} ConcatSound<T>(xss: seq<seq<T>>, x: T) returns (i: nat)
    requires x in Concat(xss)
    ensures i < |xss| && x in xss[i]
  {
    var init := xss[..|xss| - 1];
    if x in xss[|xss| - 1] {
      i := |xss| - 1;
    } else {
      i := ConcatSound(init, x);
      assert init[i] == xss[i];
    }
  }

  /** Every element of every piece is in the concatenation. */
  lemma {:induction false} ConcatComplete<T>(xss: seq<seq<T>>, i: nat, x: T)
    requires i < |xss| && x in xss[i]
    ensures x in Concat(xss)
  {
    var init := xss[..|xss| - 1];
    if i < |xss| - 1 {
      assert init[i] == xss[i];
      ConcatComplete(init, i, x);
    }
  }

  /** `f` applied to each element of `s`, the results one after another. */
  function FlatMap<T, U>(s: seq<T>, f: T -> seq<U>): seq<U>
  {
    if |s| == 0 then [] else FlatMap(s[..|s| - 1], f) + f(s[|s| - 1])
  }

  /** Taking one more element appends its results. */
  lemma FlatMapPrefixSnoc<T, U>(s: seq<T>, f: T -> seq<U>, i: nat)
    requires i < |s|
    ensures FlatMap(s[..i + 1], f) == FlatMap(s[..i], f) + f(s[i])
  {
    assert s[..i + 1][..i] == s[..i];
  }

  /** Every result comes from some element. */
  lemma {:induction false} FlatMapSound<T, U>(s: seq<T>, f: T -> seq<U>, x: U) returns (i: nat)
    requires x in FlatMap(s, f)
    ensures i < |s| && x in f(s[i])
  {
    var init := s[..|s| - 1];
    if x in f(s[|s| - 1]) {
      i := |s| - 1;
    } else {
      i := FlatMapSound(init, f, x);
      assert init[i] == s[i];
    }
  }

  /** Every result of every element is kept. */
  lemma {:induction false} FlatMapComplete<T, U>(s: seq<T>, f: T -> seq<U>, i: nat, x: U)
    requires i < |s| && x in f(s[i])
    ensures x in FlatMap(s, f)
  {
    var init := s[..|s| - 1];
    if i < |s| - 1 {
      assert init[i] == s[i];
      FlatMapComplete(init, f, i, x);
    }
  }
}
