/**
 * The Python `str` operations the code calls, with CPython's semantics:
 * `split()` without a separator (and its `isspace` test), `replace` with a
 * non-empty pattern, and `startswith`. `Count` (`str.count`), `Contains`
 * (`in`), `Join` (`sep.join`) and `EndsWith` are not called by the code;
 * the model uses them to state properties of the template and the report.
 */
module PyStr {

  /**
   * The code points `str.split()` treats as separators (those for which
   * `c.isspace()` holds): ASCII tab to carriage return, the information
   * separators U+001C..U+001F, space, NEL, no-break space and the Unicode
   * space separators.
   */
  const Whitespace: set<char> :=
    {'\t', '\n', '\U{000B}', '\U{000C}', '\r', '\U{001C}', '\U{001D}', '\U{001E}', '\U{001F}', ' ',
     '\U{0085}', '\U{00A0}', '\U{1680}', '\U{2000}', '\U{2001}', '\U{2002}', '\U{2003}',
     '\U{2004}', '\U{2005}', '\U{2006}', '\U{2007}', '\U{2008}', '\U{2009}', '\U{200A}',
     '\U{2028}', '\U{2029}', '\U{202F}', '\U{205F}', '\U{3000}'}

  /** `c.isspace()`. */
  predicate IsSpace(c: char) {
    c in Whitespace
  }

  /** Every character is whitespace (the empty string included). */
  predicate Blank(s: string) {
    forall i | 0 <= i < |s| :: IsSpace(s[i])
  }

  /** No character is whitespace. */
  predicate Unbroken(s: string) {
    forall i | 0 <= i < |s| :: !IsSpace(s[i])
  }

  /** `s.startswith(prefix)`. */
  predicate StartsWith(s: string, prefix: string) {
    |prefix| <= |s| && s[..|prefix|] == prefix
  }

  /** `s.endswith(suffix)`. */
  predicate EndsWith(s: string, suffix: string) {
    |suffix| <= |s| && s[|s| - |suffix|..] == suffix
  }

  /** `t` occurs in `s` (Python's `t in s`). */
  predicate Contains(s: string, t: string) {
    exists k: nat | k <= |s| :: OccursAt(s, t, k)
  }

  /** `t` occurs in `s` at index `k`. */
  predicate OccursAt(s: string, t: string, k: nat) {
    k + |t| <= |s| && s[k..k + |t|] == t
  }

  /** The end of the run of whitespace that starts at index `i`. */
  function SkipSpaces(s: string, i: nat): (j: nat)
    requires i <= |s|
    ensures i <= j <= |s|
    ensures forall m | i <= m < j :: IsSpace(s[m])
    ensures j == |s| || !IsSpace(s[j])
    decreases |s| - i
  {
    if i == |s| || !IsSpace(s[i]) then i else SkipSpaces(s, i + 1)
  }

  /** The end of the run of non-whitespace characters that starts at index `i`. */
  function SkipWord(s: string, i: nat): (j: nat)
    requires i <= |s|
    ensures i <= j <= |s|
    ensures forall m | i <= m < j :: !IsSpace(s[m])
    ensures j == |s| || IsSpace(s[j])
    decreases |s| - i
  {
    if i == |s| || IsSpace(s[i]) then i else SkipWord(s, i + 1)
  }

  /** The words of `s[i..]`, scanning as `str.split()` does. */
  function SplitFrom(s: string, i: nat): (words: seq<string>)
    requires i <= |s|
    ensures words == [] <==> forall m | i <= m < |s| :: IsSpace(s[m])
    ensures words != [] ==>
      var k := SkipSpaces(s, i); k < |s| && words[0] == s[k..SkipWord(s, k)]
    decreases |s| - i
  {
    var k := SkipSpaces(s, i);
    if k == |s| then []
    else
      var e := SkipWord(s, k);
      [s[k..e]] + SplitFrom(s, e)
  }

  /** `s.split()`: the maximal runs of non-whitespace characters, in order. */
  function Split(s: string): (words: seq<string>)
    ensures words == [] <==> Blank(s)
  {
    SplitFrom(s, 0)
  }

  /** Every word `split` yields is non-empty and free of whitespace. */
  lemma {:induction false} SplitWords(s: string, i: nat)
    requires i <= |s|
    ensures forall j | 0 <= j < |SplitFrom(s, i)| :: SplitFrom(s, i)[j] != [] && Unbroken(SplitFrom(s, i)[j])
    decreases |s| - i
  {
    var k := SkipSpaces(s, i);
    if k < |s| {
      var e := SkipWord(s, k);
      assert k < e;
      SplitWords(s, e);
      var words := SplitFrom(s, i);
      assert words == [s[k..e]] + SplitFrom(s, e);
      forall j | 0 <= j < |words| ensures words[j] != [] && Unbroken(words[j]) {
        if j > 0 {
          assert words[j] == SplitFrom(s, e)[j - 1];
        }
      }
    }
  }

  /**
   * The first word `split` yields: after the leading whitespace `s[..k]`, the
   * maximal run `s[k..e]` of non-whitespace characters, ended by the end of
   * the string or by whitespace.
   */
  lemma FirstWord(s: string)
    requires !Blank(s)
    ensures Split(s) != []
    ensures var k := SkipSpaces(s, 0); var e := SkipWord(s, k);
      k < e && Split(s)[0] == s[k..e]
      && (forall m | 0 <= m < k :: IsSpace(s[m]))
      && (forall m | k <= m < e :: !IsSpace(s[m]))
      && (e == |s| || IsSpace(s[e]))
  {
    var k := SkipSpaces(s, 0);
    assert k < |s| && !IsSpace(s[k]);
  }

  /** A single word splits into itself. */
  lemma SplitOneWord(w: string)
    requires w != [] && Unbroken(w)
    ensures Split(w) == [w]
  {
    assert SkipSpaces(w, 0) == 0;
    var e := SkipWord(w, 0);
    assert e == |w|;
    assert w[0..e] == w;
    assert SplitFrom(w, e) == [];
  }

  /** `s.replace(pat, rep)`: every non-overlapping occurrence of `pat`, left to right, replaced by `rep`. */
  function Replace(s: string, pat: string, rep: string): (r: string)
    requires pat != []
    decreases |s|
  {
    if |s| < |pat| then s
    else if s[..|pat|] == pat then rep + Replace(s[|pat|..], pat, rep)
    else [s[0]] + Replace(s[1..], pat, rep)
  }

  /** `s.count(pat)`: the number of non-overlapping occurrences of `pat`, scanning left to right. */
  function Count(s: string, pat: string): nat
    requires pat != []
    decreases |s|
  {
    if |s| < |pat| then 0
    else if s[..|pat|] == pat then 1 + Count(s[|pat|..], pat)
    else Count(s[1..], pat)
  }

  /** `sep.join(parts)`. */
  function Join(parts: seq<string>, sep: string): string {
    if parts == [] then []
    else if |parts| == 1 then parts[0]
    else parts[0] + sep + Join(parts[1..], sep)
  }

  /**
   * No occurrence of `pat` can start inside `s`, whatever follows `s`: each
   * character of `s` equal to `pat[0]` is followed, still inside `s`, by a
   * character other than `pat[1]`.
   */
  predicate Inert(s: string, pat: string)
    requires |pat| >= 2
  {
    forall k | 0 <= k < |s| && s[k] == pat[0] :: k + 1 < |s| && s[k + 1] != pat[1]
  }

  lemma InertWithoutFirstChar(s: string, pat: string)
    requires |pat| >= 2 && pat[0] !in s
    ensures Inert(s, pat)
  {
    assert forall k | 0 <= k < |s| :: s[k] != pat[0];
  }

  lemma InertAppend(a: string, b: string, pat: string)
    requires |pat| >= 2 && Inert(a, pat) && Inert(b, pat)
    ensures Inert(a + b, pat)
  {
    var s := a + b;
    forall k | 0 <= k < |s| && s[k] == pat[0] ensures k + 1 < |s| && s[k + 1] != pat[1] {
      if k < |a| {
        assert a[k] == pat[0];
      } else {
        assert b[k - |a|] == pat[0];
      }
    }
  }

  /** Neither replacing nor counting can match at the front of a string that starts with an inert, non-empty `p`. */
  lemma InertHead(p: string, rest: string, pat: string)
    requires |pat| >= 2 && Inert(p, pat) && p != []
    ensures var s := p + rest; |s| >= |pat| ==> s[..|pat|] != pat
    ensures Inert(p[1..], pat)
  {
    var s := p + rest;
    if |s| >= |pat| && p[0] == pat[0] {
      assert s[1] == p[1] != pat[1];
      assert s[..|pat|][1] == s[1];
    }
    forall k | 0 <= k < |p[1..]| && p[1..][k] == pat[0]
      ensures k + 1 < |p[1..]| && p[1..][k + 1] != pat[1]
    {
      assert p[k + 1] == pat[0];
    }
  }

  /** Replacing skips over an inert prefix, leaving it untouched. */
  lemma {:induction false} InertPrefix(p: string, rest: string, pat: string, rep: string)
    requires |pat| >= 2 && Inert(p, pat)
    ensures Replace(p + rest, pat, rep) == p + Replace(rest, pat, rep)
    decreases |p|
  {
    var s := p + rest;
    if p == [] {
      assert s == rest;
    } else if |s| < |pat| {
      assert Replace(rest, pat, rep) == rest;
    } else {
      InertHead(p, rest, pat);
      assert s[1..] == p[1..] + rest;
      InertPrefix(p[1..], rest, pat, rep);
      assert [s[0]] + (p[1..] + Replace(rest, pat, rep)) == p + Replace(rest, pat, rep);
    }
  }

  /** Counting skips over an inert prefix: no occurrence starts inside it. */
  lemma {:induction false} InertPrefixCount(p: string, rest: string, pat: string)
    requires |pat| >= 2 && Inert(p, pat)
    ensures Count(p + rest, pat) == Count(rest, pat)
    decreases |p|
  {
    var s := p + rest;
    if p == [] {
      assert s == rest;
    } else if |s| >= |pat| {
      InertHead(p, rest, pat);
      assert s[1..] == p[1..] + rest;
      InertPrefixCount(p[1..], rest, pat);
    }
  }

  /** An occurrence of `pat` at the front is replaced (and counted) once. */
  lemma PatternPrefix(rest: string, pat: string, rep: string)
    requires pat != []
    ensures Replace(pat + rest, pat, rep) == rep + Replace(rest, pat, rep)
    ensures Count(pat + rest, pat) == 1 + Count(rest, pat)
  {
    var s := pat + rest;
    assert s[..|pat|] == pat && s[|pat|..] == rest;
  }

  /**
   * Replacing `pat` in `pat.join(parts)` is `rep.join(parts)` when no part can
   * start an occurrence, and the join holds one occurrence per separator.
   */
  lemma {:induction false} ReplaceJoin(parts: seq<string>, pat: string, rep: string)
    requires |pat| >= 2 && parts != []
    requires forall i | 0 <= i < |parts| :: Inert(parts[i], pat)
    ensures Replace(Join(parts, pat), pat, rep) == Join(parts, rep)
    ensures Count(Join(parts, pat), pat) == |parts| - 1
  {
    if |parts| == 1 {
      InertPrefix(parts[0], [], pat, rep);
      InertPrefixCount(parts[0], [], pat);
      assert parts[0] + [] == parts[0];
    } else {
      var tail := Join(parts[1..], pat);
      assert Join(parts, pat) == parts[0] + (pat + tail);
      InertPrefix(parts[0], pat + tail, pat, rep);
      InertPrefixCount(parts[0], pat + tail, pat);
      PatternPrefix(tail, pat, rep);
      ReplaceJoin(parts[1..], pat, rep);
    }
  }

  lemma {:induction false} InertJoin(parts: seq<string>, sep: string, pat: string)
    requires |pat| >= 2 && Inert(sep, pat)
    requires forall i | 0 <= i < |parts| :: Inert(parts[i], pat)
    ensures Inert(Join(parts, sep), pat)
  {
    if |parts| > 1 {
      InertJoin(parts[1..], sep, pat);
      InertAppend(parts[0], sep, pat);
      InertAppend(parts[0] + sep, Join(parts[1..], sep), pat);
    }
  }

  /** An inert string holds no occurrence of `pat`. */
  lemma InertNoOccurrence(s: string, pat: string)
    requires |pat| >= 2 && Inert(s, pat)
    ensures Count(s, pat) == 0
  {
    InertPrefixCount(s, [], pat);
    assert s + [] == s;
  }

  lemma ContainsMiddle(a: string, t: string, b: string)
    ensures Contains(a + t + b, t)
  {
    var s := a + t + b;
    assert s[|a|..|a| + |t|] == t;
    assert OccursAt(s, t, |a|);
  }

  /** What one part contains, the joined string contains. */
  lemma {:induction false} ContainsJoin(parts: seq<string>, sep: string, i: nat, t: string)
    requires i < |parts| && Contains(parts[i], t)
    ensures Contains(Join(parts, sep), t)
  {
    if |parts| > 1 {
      if i == 0 {
        ContainsLeft(parts[0], sep + Join(parts[1..], sep), t);
        assert parts[0] + (sep + Join(parts[1..], sep)) == Join(parts, sep);
      } else {
        ContainsJoin(parts[1..], sep, i - 1, t);
        ContainsRight(parts[0] + sep, Join(parts[1..], sep), t);
      }
    }
  }

  lemma ContainsLeft(a: string, b: string, t: string)
    requires Contains(a, t)
    ensures Contains(a + b, t)
  {
    var k: nat :| k <= |a| && OccursAt(a, t, k);
    assert k + |t| <= |a| && a[k..k + |t|] == t;
    assert (a + b)[k..k + |t|] == a[k..k + |t|];
    assert OccursAt(a + b, t, k);
  }

  lemma ContainsRight(a: string, b: string, t: string)
    requires Contains(b, t)
    ensures Contains(a + b, t)
  {
    var k: nat :| k <= |b| && OccursAt(b, t, k);
    assert k + |t| <= |b| && b[k..k + |t|] == t;
    assert (a + b)[|a| + k..|a| + k + |t|] == b[k..k + |t|];
    assert OccursAt(a + b, t, |a| + k);
  }
}
