/**
 * String primitives the two pipelines rely on, in the ASCII reading used
 * throughout this model: Python's `str.strip`, `str.split(sep)`,
 * `sep.join`, `str.split()` (word counting), `str.startswith` and the `in`
 * operator on strings, and JavaScript's `String.prototype.trim`.
 */
module Text {

  /** Python's `str.isspace` on ASCII: tab, LF, VT, FF, CR, the four
      information separators 0x1C-0x1F and the space. */
  predicate IsSpace(c: char) {
    9 <= c as int <= 13 || 28 <= c as int <= 32
  }

  /** The characters JavaScript's `trim` removes, restricted to ASCII. */
  predicate IsJsSpace(c: char) {
    9 <= c as int <= 13 || c == ' '
  }

  predicate AllSpace(s: string) {
    forall i :: 0 <= i < |s| ==> IsSpace(s[i])
  }

  predicate AllJsSpace(s: string) {
    forall i :: 0 <= i < |s| ==> IsJsSpace(s[i])
  }

  /** Neither end of `s` is whitespace: what `strip` returns. */
  predicate Stripped(s: string) {
    s == [] || (!IsSpace(s[0]) && !IsSpace(s[|s| - 1]))
  }

  /** `str.lstrip()`: `r` is the suffix of `s` left after a run of whitespace. */
  function TrimLeft(s: string): (r: string)
    ensures |r| <= |s| && r == s[|s| - |r|..]
    ensures AllSpace(s[..|s| - |r|])
    ensures r == [] || !IsSpace(r[0])
  {
    if |s| > 0 && IsSpace(s[0]) then TrimLeft(s[1..]) else s
  }

  /** `str.rstrip()`: `r` is the prefix of `s` before a run of whitespace. */
  function TrimRight(s: string): (r: string)
    ensures |r| <= |s| && r == s[..|r|]
    ensures AllSpace(s[|r|..])
    ensures r == [] || !IsSpace(r[|r| - 1])
  {
    if |s| > 0 && IsSpace(s[|s| - 1]) then TrimRight(s[..|s| - 1]) else s
  }

  /** `r` is what is left of `s` once a run of whitespace at its start and
      one at its end are removed. */
  ghost predicate Between(s: string, r: string) {
    exists a, b :: s == a + r + b && AllSpace(a) && AllSpace(b)
  }

  /** `str.strip()`: what is left of `s` between a run of whitespace at its
      start and one at its end, with no whitespace left at either end. */
  function Strip(s: string): (r: string)
    ensures Stripped(r)
    ensures |r| <= |s|
  {
    TrimRight(TrimLeft(s))
  }

  /** What `Strip` removes is whitespace: a run at the start and one at the
      end. */
  lemma StripIsBetween(s: string)
    ensures Between(s, Strip(s))
  {
    StripBetween(s, TrimLeft(s), Strip(s));
  }

  /** The witness for `Strip`: the leading whitespace, then `r`, then the
      rest of `t`. */
  lemma StripBetween(s: string, t: string, r: string)
    requires |t| <= |s| && t == s[|s| - |t|..] && AllSpace(s[..|s| - |t|])
    requires |r| <= |t| && r == t[..|r|] && AllSpace(t[|r|..])
    ensures Between(s, r)
  {
    var a := s[..|s| - |t|];
    var b := t[|r|..];
    assert t == r + b;
    assert s == a + t;
    assert s == a + r + b;
  }

  /** Stripping changes nothing exactly when neither end is whitespace, and
      yields the empty string exactly for all-whitespace input. */
  lemma {:induction false} StripFixesStripped(s: string)
    ensures Strip(s) == s <==> Stripped(s)
    ensures Strip(s) == [] <==> AllSpace(s)
  {
    var t := TrimLeft(s);
    if Strip(s) == [] {
      assert t == [];
      assert s == s[..|s| - |t|];
    }
    if AllSpace(s) && s != [] {
      assert t == [];
    }
    if Stripped(s) && s != [] {
      assert t == s;
      assert TrimRight(t) == t;
    }
  }

  /** Python's `s.split(sep)` for a non-empty `sep`: cut at every leftmost,
      non-overlapping occurrence of `sep`; always at least one piece. */
  function Split(s: string, sep: string): (r: seq<string>)
    requires |sep| > 0
    ensures |r| >= 1
    decreases |s|
  {
    if |s| < |sep| then [s]
    else if s[..|sep|] == sep then [[]] + Split(s[|sep|..], sep)
    else
      var rest := Split(s[1..], sep);
      [[s[0]] + rest[0]] + rest[1..]
  }

  /** `sep.join(pieces)`. */
  function Join(pieces: seq<string>, sep: string): string
  {
    if |pieces| == 0 then []
    else if |pieces| == 1 then pieces[0]
    else pieces[0] + sep + Join(pieces[1..], sep)
  }

  /** Joining the pieces of a split with the same separator gives back the
      original string. */
  lemma {:induction false} JoinSplit(s: string, sep: string)
    requires |sep| > 0
    ensures Join(Split(s, sep), sep) == s
    decreases |s|
  {
    if |s| < |sep| {
    } else if s[..|sep|] == sep {
      JoinSplit(s[|sep|..], sep);
      var rest := Split(s[|sep|..], sep);
      assert ([[]] + rest)[1..] == rest;
      assert s == sep + s[|sep|..];
    } else {
      JoinSplit(s[1..], sep);
      JoinExtendsFirst(s[0], Split(s[1..], sep), sep);
      assert s == [s[0]] + s[1..];
    }
  }

  /** Lengthening the first piece lengthens the joined string at its
      start. */
  lemma JoinExtendsFirst(c: char, pieces: seq<string>, sep: string)
    requires |pieces| >= 1
    ensures Join([[c] + pieces[0]] + pieces[1..], sep) == [c] + Join(pieces, sep)
  {
    var r := [[c] + pieces[0]] + pieces[1..];
    assert r[1..] == pieces[1..];
    if |pieces| > 1 {
      assert Join(pieces, sep) == pieces[0] + sep + Join(pieces[1..], sep);
    }
  }

  /** A string in which the separator cannot start is a single piece. */
  lemma {:induction false} SplitWithoutSeparator(s: string, sep: string)
    requires |sep| > 0 && sep[0] !in s
    ensures Split(s, sep) == [s]
    decreases |s|
  {
    if |s| >= |sep| {
      assert s[..|sep|][0] != sep[0];
      SplitWithoutSeparator(s[1..], sep);
      assert [s[0]] + s[1..] == s;
    }
  }

  /** The first piece ends at the first separator. */
  lemma {:induction false} SplitAtSeparator(a: string, sep: string, b: string)
    requires |sep| > 0 && sep[0] !in a
    ensures Split(a + sep + b, sep) == [a] + Split(b, sep)
    decreases |a|
  {
    var s := a + sep + b;
    if a == [] {
      assert s[..|sep|] == sep && s[|sep|..] == b;
    } else {
      assert s[..|sep|][0] != sep[0];
      assert s[1..] == a[1..] + sep + b;
      SplitAtSeparator(a[1..], sep, b);
      assert [s[0]] + a[1..] == a;
    }
  }

  /** `a` occurs in `b` in order, possibly with gaps: either `a` is empty,
      or the first element of `b` is used for the first of `a`, or it is
      skipped. */
  ghost predicate IsSubsequence<T>(a: seq<T>, b: seq<T>)
    decreases |b|
  {
    a == [] ||
    (b != [] && ((a[0] == b[0] && IsSubsequence(a[1..], b[1..])) || IsSubsequence(a, b[1..])))
  }

  predicate StartsWith(s: string, prefix: string) {
    |prefix| <= |s| && s[..|prefix|] == prefix
  }

  predicate EndsWith(s: string, suffix: string) {
    |suffix| <= |s| && s[|s| - |suffix|..] == suffix
  }

  /** Python's `pattern in s` and JavaScript's `s.includes(pattern)`. */
  predicate Contains(s: string, pattern: string)
    decreases |s|
  {
    StartsWith(s, pattern) || (|s| > 0 && Contains(s[1..], pattern))
  }

  /** A slice of `s` equal to `pattern` is an occurrence of it. */
  lemma {:induction false} ContainsAt(s: string, pattern: string, k: nat)
    requires k + |pattern| <= |s| && s[k..k + |pattern|] == pattern
    ensures Contains(s, pattern)
    decreases k
  {
    if k > 0 {
      assert s[1..][k - 1..k - 1 + |pattern|] == s[k..k + |pattern|];
      ContainsAt(s[1..], pattern, k - 1);
    }
  }

  /** A string contains every piece it is built from. */
  lemma ContainsInside(a: string, pattern: string, b: string)
    ensures Contains(a + pattern + b, pattern)
  {
    var s := a + pattern + b;
    assert s[|a|..|a| + |pattern|] == pattern;
    ContainsAt(s, pattern, |a|);
  }

  /** An occurrence stays an occurrence when text is appended. */
  lemma {:induction false} ContainsPrefix(a: string, b: string, pattern: string)
    requires Contains(a, pattern)
    ensures Contains(a + b, pattern)
    decreases |a|
  {
    if StartsWith(a, pattern) {
      assert (a + b)[..|pattern|] == a[..|pattern|];
    } else {
      assert (a + b)[1..] == a[1..] + b;
      ContainsPrefix(a[1..], b, pattern);
    }
  }

  /** An occurrence stays an occurrence when text is prepended. */
  lemma {:induction false} ContainsSuffix(a: string, b: string, pattern: string)
    requires Contains(b, pattern)
    ensures Contains(a + b, pattern)
    decreases |a|
  {
    if a != [] {
      assert (a + b)[1..] == a[1..] + b;
      ContainsSuffix(a[1..], b, pattern);
    } else {
      assert a + b == b;
    }
  }

  /** Whether a word of `s` ends at position `i`. */
  predicate WordEndsAt(s: string, i: nat)
    requires i < |s|
  {
    !IsSpace(s[i]) && (i + 1 == |s| || IsSpace(s[i + 1]))
  }

  /** `len(s.split())`: the number of maximal runs of non-whitespace,
      counted at the position where each run ends. */
  function WordCount(s: string): nat
    decreases |s|
  {
    if s == [] then 0
    else (if WordEndsAt(s, 0) then 1 else 0) + WordCount(s[1..])
  }

  /** A string holds no word exactly when it is all whitespace, and never
      more words than characters. */
  lemma {:induction false} WordCountZero(s: string)
    ensures WordCount(s) == 0 <==> AllSpace(s)
    ensures WordCount(s) <= |s|
    decreases |s|
  {
    if s != [] {
      WordCountZero(s[1..]);
      assert forall i :: 1 <= i < |s| ==> s[i] == s[1..][i - 1];
    }
  }

  /** A whitespace character between two strings separates their words:
      the counts add up. */
  lemma {:induction false} WordCountAcrossSpace(a: string, c: char, b: string)
    requires IsSpace(c)
    ensures WordCount(a + [c] + b) == WordCount(a) + WordCount(b)
    decreases |a|
  {
    if a == [] {
      assert ([c] + b)[1..] == b;
    } else {
      assert (a + [c] + b)[1..] == a[1..] + [c] + b;
      WordCountAcrossSpace(a[1..], c, b);
    }
  }

  /** A non-empty string without whitespace is one word. */
  lemma {:induction false} WordCountWithoutSpace(s: string)
    requires s != [] && forall i :: 0 <= i < |s| ==> !IsSpace(s[i])
    ensures WordCount(s) == 1
    decreases |s|
  {
    if |s| > 1 {
      WordCountWithoutSpace(s[1..]);
    }
  }

  /** Whitespace contributes no word. */
  lemma {:induction false} WordCountOfSpace(s: string)
    requires AllSpace(s)
    ensures WordCount(s) == 0
    decreases |s|
  {
    if s != [] {
      WordCountOfSpace(s[1..]);
    }
  }
}
