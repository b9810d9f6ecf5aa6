/**
 * The two pieces of logic inside the generated `google_search.js` that
 * decide what the writer pipeline gets: which search results are kept
 * (at most five, each with a link and a heading, pointing outside Google
 * and YouTube, numbered in page order), and which of the visited pages
 * are saved (the JavaScript cleaning, which drops blank lines without
 * trimming the others, and the 500-unit gate).
 */
module SearchScript {
  import opened Collections
  import opened Text
  import opened Cleaning
  import opened Files

  /** A `div.g` element of the results page: the `href` of its first
      `a[href]` and the text of its `h3`, each when the element has one. */
  datatype ResultItem = ResultItem(link: Option<string>, heading: Option<string>)

  /** `{position, title, url}` as pushed onto `topResults`. */
  datatype Hit = Hit(position: nat, title: string, url: string)

  const MaxResults: nat := 5

  /** The URL test of the selection loop. */
  predicate Wanted(url: string) {
    !Contains(url, "google.com") && !Contains(url, "youtube.com") && StartsWith(url, "http")
  }

  predicate Qualifies(item: ResultItem) {
    item.link.Some? && item.heading.Some? && Wanted(item.link.value)
  }

  /** The items that pass the test, in page order, before the cap. */
  function Qualifying(items: seq<ResultItem>): (r: seq<ResultItem>)
    ensures forall k :: 0 <= k < |r| ==> Qualifies(r[k])
    ensures IsSubsequence(r, items)
  {
    if items == [] then []
    else
      var rest := Qualifying(items[1..]);
      if Qualifies(items[0]) then
        assert ([items[0]] + rest)[1..] == rest;
        [items[0]] + rest
      else rest
  }

  /** Nothing that qualifies is dropped: every qualifying item occurs in
      the result as often as in the page, every other item not at all. */
  lemma {:induction false} QualifyingCounts(items: seq<ResultItem>)
    ensures forall x :: multiset(Qualifying(items))[x] == if Qualifies(x) then multiset(items)[x] else 0
  {
    if items != [] {
      QualifyingCounts(items[1..]);
      assert items == [items[0]] + items[1..];
      assert multiset(items) == multiset{items[0]} + multiset(items[1..]);
    }
  }

  lemma {:induction false} QualifyingAppend(a: seq<ResultItem>, b: seq<ResultItem>)
    ensures Qualifying(a + b) == Qualifying(a) + Qualifying(b)
  {
    if a == [] {
      assert a + b == b;
    } else {
      assert (a + b)[1..] == a[1..] + b;
      QualifyingAppend(a[1..], b);
    }
  }

  /** The kept items numbered 1, 2, ... */
  function Numbered(kept: seq<ResultItem>): seq<Hit>
    requires forall k :: 0 <= k < |kept| ==> Qualifies(kept[k])
  {
    seq(|kept|, k requires 0 <= k < |kept| && Qualifies(kept[k]) => Hit(k + 1, kept[k].heading.value, kept[k].link.value))
  }

  /** What the selection loop returns: the first five qualifying items,
      numbered consecutively from 1, every URL wanted; fewer than five only
      when fewer qualify. */
  function Selected(items: seq<ResultItem>): (r: seq<Hit>)
    ensures |r| == if |Qualifying(items)| < MaxResults then |Qualifying(items)| else MaxResults
    ensures forall k :: 0 <= k < |r| ==> r[k].position == k + 1 && Wanted(r[k].url)
    ensures forall k :: 0 <= k < |r| ==>
      Some(r[k].url) == Qualifying(items)[k].link && Some(r[k].title) == Qualifying(items)[k].heading
  {
    var q := Qualifying(items);
    Numbered(if |q| < MaxResults then q else q[..MaxResults])
  }

  /** The `page.evaluate` loop: walk the items in page order, stop once
      five are kept. */
  method SelectResults(items: seq<ResultItem>) returns (top: seq<Hit>)
    ensures top == Selected(items)
  {
    top := [];
    var i := 0;
    while i < |items|
      invariant 0 <= i <= |items|
      invariant |Qualifying(items[..i])| <= MaxResults
      invariant top == Numbered(Qualifying(items[..i]))
    {
      if |top| >= MaxResults {
        break;
      }
      var item := items[i];
      QualifyingAppend(items[..i], [item]);
      assert items[..i + 1] == items[..i] + [item];
      assert Qualifying([item]) == if Qualifies(item) then [item] else [] by {
        assert [item][1..] == [];
      }
      if item.link.Some? && item.heading.Some? {
        var url := item.link.value;
        var title := item.heading.value;
        if !Contains(url, "google.com") && !Contains(url, "youtube.com") && StartsWith(url, "http") {
          top := top + [Hit(|top| + 1, title, url)];
        }
      }
      i := i + 1;
    }
    assert items == items[..i] + items[i..];
    QualifyingAppend(items[..i], items[i..]);
  }

  /** `articleText.split('\\n').filter(line => line.trim()).join('\\n')`
      followed by the `cleanText.length > 500` test: the text the script
      saves for a visited page, if any. */
  function ScriptSaved(visit: Option<string>): (r: Option<string>)
    ensures r.Some? <==> visit.Some? && PassesGate(JsLength(JsCleanText(visit.value)))
    ensures r.Some? ==> r.value == JsCleanText(visit.value)
  {
    match visit
    case None => None
    case Some(text) =>
      var clean := JsCleanText(text);
      if JsLength(clean) > MinContent then Some(clean) else None
  }

  /** The text read from result `i`'s page, `None` when visiting it
      failed. */
  function Visit(visits: seq<Option<string>>, i: nat): Option<string>
  {
    if i < |visits| then visits[i] else None
  }

  function ScriptOutcomes(results: seq<Hit>, visits: seq<Option<string>>): (r: seq<Option<string>>)
    ensures |r| == |results|
    ensures forall i :: 0 <= i < |r| ==> r[i] == ScriptSaved(Visit(visits, i))
  {
    seq(|results|, i requires 0 <= i < |results| => ScriptSaved(Visit(visits, i)))
  }

  /** The per-result loop, run with `dir` as the working directory: result
      `i` (from 0) is saved as `article_{i+1}.txt` when its page passes. */
  method SaveArticles(ws: Workspace, dir: string, results: seq<Hit>, visits: seq<Option<string>>)
    modifies ws
    ensures ws.files == old(ws.files) + Gathered(dir, ScriptOutcomes(results, visits))
    ensures ws.log == old(ws.log)
  {
    var outcomes := ScriptOutcomes(results, visits);
    var i := 0;
    while i < |results|
      invariant 0 <= i <= |results|
      invariant ws.files == old(ws.files) + Gathered(dir, outcomes[..i])
      invariant ws.log == old(ws.log)
    {
      GatheredStep(dir, outcomes[..i], outcomes[i]);
      assert outcomes[..i + 1] == outcomes[..i] + [outcomes[i]];
      match Visit(visits, i) {
        case None =>
        case Some(articleText) =>
          var cleanText := JsCleanText(articleText);
          if JsLength(cleanText) > MinContent {
            MergeUpdate(old(ws.files), Gathered(dir, outcomes[..i]), ArticlePath(dir, i + 1), cleanText);
            ws.Write(ArticlePath(dir, i + 1), cleanText);
          }
      }
      i := i + 1;
    }
    assert outcomes[..i] == outcomes;
  }

  /** Unlike the Python cleaning, the script keeps the spaces around a
      line. */
  lemma ScriptKeepsSpaces()
    ensures JsCleanText(" a ") == " a "
  {
    SplitWithoutSeparator(" a ", Sep);
    assert !IsJsSpace(" a "[1]);
    assert [" a "][1..] == [];
    assert KeepNonBlank([" a "]) == [" a "];
  }

  lemma StripExample()
    ensures Strip(" a ") == "a"
  {
    var t := " a "[1..];
    assert t == "a " && !IsSpace(t[0]);
    assert TrimLeft(" a ") == TrimLeft(t) == t;
    var u := t[..|t| - 1];
    assert u == "a" && !IsSpace(u[0]);
    assert TrimRight(t) == TrimRight(u) == u;
  }

  lemma PythonStripsSpaces()
    ensures CleanText(" a ") == "a"
  {
    SplitWithoutSeparator(" a ", Sep);
    StripExample();
    assert [" a "][1..] == [];
    assert KeepStripped([" a "]) == ["a"];
  }

  /** The script measures length in UTF-16 units: 300 emoji are 300
      characters but 600 units, so they pass its gate. */
  lemma ScriptGateCountsUnits()
    ensures var s := seq(300, i => '😀'); |s| <= MinContent && PassesGate(JsLength(s))
  {
    var s := seq(300, i => '😀');
    JsLengthExtremes(s);
  }
}
