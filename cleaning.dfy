/**
 * The text-normalising steps of both pipelines: parsing the URL list,
 * the Python cleaning of a fetched page (split, strip every line, drop the
 * empty ones, re-join), the JavaScript cleaning inside the search script
 * (split, drop whitespace-only lines without trimming the others,
 * re-join), and the 500-character quality gate shared by both.
 */
module Cleaning {
  import opened Text

  /** The separator both scripts pass to `get_text`, `split` and `join`.
      The source escapes it twice, so it is the two characters backslash
      and `n`, not a line break. */
  const Sep: string := "\\n"

  /** A real line break, which is what `readlines` splits the URL list on. */
  const LineBreak: string := "\n"

  /** The quality gate: a cleaned article is kept only when it is longer
      than this many characters. */
  const MinContent: nat := 500

  /** How many pieces the predicate `keep` accepts. */
  function CountStrippedNonEmpty(pieces: seq<string>): nat
  {
    if pieces == [] then 0
    else (if Strip(pieces[0]) != [] then 1 else 0) + CountStrippedNonEmpty(pieces[1..])
  }

  function CountNonBlank(pieces: seq<string>): nat
  {
    if pieces == [] then 0
    else (if !AllJsSpace(pieces[0]) then 1 else 0) + CountNonBlank(pieces[1..])
  }

  /** Every piece stripped, in order. */
  function StripAll(pieces: seq<string>): (r: seq<string>)
    ensures |r| == |pieces|
  {
    if pieces == [] then [] else [Strip(pieces[0])] + StripAll(pieces[1..])
  }

  /** The `i`-th stripped piece is the `i`-th piece stripped. */
  lemma {:induction false} StripAllAt(pieces: seq<string>, i: nat)
    requires i < |pieces|
    ensures StripAll(pieces)[i] == Strip(pieces[i])
    decreases i
  {
    if i > 0 {
      StripAllAt(pieces[1..], i - 1);
    }
  }

  /** `[p.strip() for p in pieces if p.strip()]`: every line kept is non-empty
      and already stripped, the lines come in their original order, and
      exactly one line is kept per piece that is not all whitespace. */
  function KeepStripped(pieces: seq<string>): (r: seq<string>)
    ensures forall i :: 0 <= i < |r| ==> r[i] != [] && Stripped(r[i])
    ensures IsSubsequence(r, StripAll(pieces))
    ensures |r| == CountStrippedNonEmpty(pieces)
  {
    if pieces == [] then []
    else
      var line := Strip(pieces[0]);
      var rest := KeepStripped(pieces[1..]);
      assert StripAll(pieces)[1..] == StripAll(pieces[1..]);
      if line != [] then
        assert ([line] + rest)[1..] == rest;
        [line] + rest
      else
        rest
  }

  /** `pieces.filter(line => line.trim())`: the pieces that are not all
      whitespace, unchanged and in their original order. */
  function KeepNonBlank(pieces: seq<string>): (r: seq<string>)
    ensures forall i :: 0 <= i < |r| ==> !AllJsSpace(r[i])
    ensures IsSubsequence(r, pieces)
    ensures |r| == CountNonBlank(pieces)
  {
    if pieces == [] then []
    else
      var rest := KeepNonBlank(pieces[1..]);
      if !AllJsSpace(pieces[0]) then
        assert ([pieces[0]] + rest)[1..] == rest;
        [pieces[0]] + rest
      else
        rest
  }

  /** The lines of the cleaned page text, before they are joined. */
  function CleanLines(text: string): seq<string>
  {
    KeepStripped(Split(text, Sep))
  }

  /** `'\\n'.join(line.strip() for line in text.split('\\n') if line.strip())`. */
  function CleanText(text: string): string
  {
    Join(CleanLines(text), Sep)
  }

  /** `text.split('\\n').filter(line => line.trim()).join('\\n')`. */
  function JsCleanText(text: string): string
  {
    Join(KeepNonBlank(Split(text, Sep)), Sep)
  }

  /** The URLs of `urls.txt`: every line stripped, blank lines dropped. */
  function ParseUrls(fileText: string): seq<string>
  {
    KeepStripped(Split(fileText, LineBreak))
  }

  /** Both gates compare with `MinContent` strictly. */
  predicate PassesGate(length: nat) {
    length > MinContent
  }

  /** JavaScript's `String.length`: UTF-16 code units, two for a character
      outside the Basic Multilingual Plane. */
  function JsLength(s: string): (n: nat)
    ensures |s| <= n <= 2 * |s|
  {
    if s == [] then 0 else (if s[0] as int >= 0x10000 then 2 else 1) + JsLength(s[1..])
  }

  /** The length in code units is the number of characters exactly when
      every character is in the Basic Multilingual Plane, and twice that
      exactly when none is. */
  lemma {:induction false} JsLengthExtremes(s: string)
    ensures JsLength(s) == |s| <==> forall i :: 0 <= i < |s| ==> s[i] as int < 0x10000
    ensures JsLength(s) == 2 * |s| <==> forall i :: 0 <= i < |s| ==> s[i] as int >= 0x10000
  {
    if s != [] {
      JsLengthExtremes(s[1..]);
      assert forall i :: 1 <= i < |s| ==> s[i] == s[1..][i - 1];
    }
  }

  /** Code units add up over concatenation. */
  lemma {:induction false} JsLengthAppend(a: string, b: string)
    ensures JsLength(a + b) == JsLength(a) + JsLength(b)
  {
    if a != [] {
      JsLengthAppend(a[1..], b);
      assert (a + b)[1..] == a[1..] + b;
    } else {
      assert a + b == b;
    }
  }

  /** Every URL kept from the file is non-empty, stripped, and the URLs keep
      the order of the file's lines. */
  lemma ParsedUrlsAreStripped(fileText: string)
    ensures forall i :: 0 <= i < |ParseUrls(fileText)| ==>
      ParseUrls(fileText)[i] != [] && Strip(ParseUrls(fileText)[i]) == ParseUrls(fileText)[i]
    ensures IsSubsequence(ParseUrls(fileText), StripAll(Split(fileText, LineBreak)))
  {
    var urls := ParseUrls(fileText);
    forall i | 0 <= i < |urls| ensures Strip(urls[i]) == urls[i] {
      StripFixesStripped(urls[i]);
    }
  }

  /** The first piece is kept, stripped, exactly when something is left of
      it after stripping. */
  lemma KeepStrippedCons(piece: string, rest: seq<string>)
    ensures KeepStripped([piece] + rest) ==
      if Strip(piece) != [] then [Strip(piece)] + KeepStripped(rest) else KeepStripped(rest)
  {
    assert ([piece] + rest)[1..] == rest;
  }

  /** A word: non-empty, without whitespace and without the backslash
      that starts the separator. */
  predicate IsWord(w: string) {
    w != [] && forall i :: 0 <= i < |w| ==> !IsSpace(w[i]) && w[i] != '\\'
  }

  /** A space after a stripped string is all `strip` removes. */
  lemma StripSpaceAfter(w: string)
    requires w != [] && Stripped(w)
    ensures Strip(w + " ") == w
  {
    var t := w + " ";
    assert t[0] == w[0];
    assert TrimLeft(t) == t;
    assert t[|t| - 1] == ' ' && t[..|t| - 1] == w;
    assert TrimRight(t) == TrimRight(w);
  }

  /** A space before a stripped string is all `strip` removes. */
  lemma StripSpaceBefore(w: string)
    requires w != [] && Stripped(w)
    ensures Strip(" " + w) == w
  {
    var t := " " + w;
    assert t[0] == ' ' && t[1..] == w;
    assert TrimLeft(t) == TrimLeft(w) == w;
  }

  /** Two fragments that survive stripping come out as two stripped
      lines. */
  lemma CleanTwoLines(a: string, b: string)
    requires Sep[0] !in a && Sep[0] !in b
    requires Strip(a) != [] && Strip(b) != []
    ensures CleanLines(a + Sep + b) == [Strip(a)] + [Strip(b)]
  {
    SplitWithoutSeparator(b, Sep);
    SplitAtSeparator(a, Sep, b);
    var nothing: seq<string> := [];
    KeepStrippedCons(b, nothing);
    assert [b] + nothing == [b];
    assert KeepStripped(nothing) == nothing;
    var rest := KeepStripped([b]);
    assert rest == [Strip(b)] + nothing == [Strip(b)];
    KeepStrippedCons(a, [b]);
  }

  lemma JoinTwo(x: string, y: string, sep: string)
    ensures Join([x] + [y], sep) == x + sep + y
  {
    assert ([x] + [y])[1..] == [y];
  }

  /** A word counts as one, with or without a space beside it. */
  lemma WordCountOfWord(w: string)
    requires IsWord(w)
    ensures WordCount(w) == 1 && WordCount(w + " ") == 1 && WordCount(" " + w) == 1
  {
    WordCountWithoutSpace(w);
    WordCountAcrossSpace(w, ' ', []);
    WordCountAcrossSpace([], ' ', w);
    assert w + [' '] + [] == w + " " && [] + [' '] + w == " " + w;
  }

  /** Two words joined by the separator are one word. */
  lemma WordCountAcrossSeparator(w1: string, w2: string)
    requires IsWord(w1) && IsWord(w2)
    ensures WordCount(w1 + Sep + w2) == 1
  {
    var merged := w1 + Sep + w2;
    forall i | 0 <= i < |merged| ensures !IsSpace(merged[i]) {
      if i < |w1| {
        assert merged[i] == w1[i];
      } else if i >= |w1| + |Sep| {
        assert merged[i] == w2[i - |w1| - |Sep|];
      }
    }
    WordCountWithoutSpace(merged);
  }

  /** A word followed by a space and a word preceded by one, as two
      fragments, clean to the two words joined by the separator. */
  lemma CleanSpacedWords(w1: string, w2: string)
    requires IsWord(w1) && IsWord(w2)
    ensures CleanText((w1 + " ") + Sep + (" " + w2)) == w1 + Sep + w2
  {
    assert !IsSpace(w1[0]) && !IsSpace(w1[|w1| - 1]);
    assert !IsSpace(w2[0]) && !IsSpace(w2[|w2| - 1]);
    StripSpaceAfter(w1);
    StripSpaceBefore(w2);
    assert Sep[0] !in w1 + " " && Sep[0] !in " " + w2;
    CleanTwoLines(w1 + " ", " " + w2);
    JoinTwo(w1, w2, Sep);
  }

  /** Because the separator is not a line break, cleaning can glue the last
      word of one fragment to the first word of the next: `w1 + " "` and
      `" " + w2` hold one word each, the cleaned text a single word. */
  lemma CleaningCanMergeWords(w1: string, w2: string)
    requires IsWord(w1) && IsWord(w2)
    ensures WordCount(w1 + " ") + WordCount(" " + w2) == 2
    ensures CleanText((w1 + " ") + Sep + (" " + w2)) == w1 + Sep + w2
    ensures WordCount(CleanText((w1 + " ") + Sep + (" " + w2))) == 1
  {
    CleanSpacedWords(w1, w2);
    WordCountOfWord(w1);
    WordCountOfWord(w2);
    WordCountAcrossSeparator(w1, w2);
  }
}
