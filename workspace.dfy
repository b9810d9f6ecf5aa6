/**
 * The working directory both pipelines read and write: a map from a path
 * (relative to the directory the script runs in) to the file's text, and
 * the entries of the run log `log.txt`. The map outlives a run, so
 * `article_*` files from earlier runs are still there for a later one.
 */
module Files {
  import opened Collections
  import opened Text
  import opened Numerals
  import opened Cleaning

  class Workspace {
    var files: map<string, string>
    /** One entry per `_log` call, oldest first. */
    var log: seq<string>

    /** The directory as a run finds it. */
    constructor(found: map<string, string>, entries: seq<string>)
      ensures files == found && log == entries
    {
      files := found;
      log := entries;
    }

    /** `open(path, 'w').write(text)`. */
    method Write(path: string, text: string)
      modifies this
      ensures files == old(files)[path := text]
      ensures log == old(log)
    {
      files := files[path := text];
    }

    /** `f.write(text)` on a file opened earlier: the text goes after what
        the file already holds. */
    method Append(path: string, text: string)
      modifies this
      ensures files == old(files)[path := Existing(old(files), path) + text]
      ensures log == old(log)
    {
      files := files[path := Existing(files, path) + text];
    }

    /** `_log(message)`: one more entry after all earlier ones. */
    method AppendLog(message: string)
      modifies this
      ensures log == old(log) + [message]
      ensures files == old(files)
    {
      log := log + [message];
    }
  }

  /** The text of `path`, or nothing when the file does not exist yet. */
  function Existing(files: map<string, string>, path: string): string
  {
    if path in files then files[path] else ""
  }

  /** The text of `log.txt`: every entry followed by the separator. */
  function LogText(entries: seq<string>): string
  {
    if entries == [] then "" else entries[0] + Sep + LogText(entries[1..])
  }

  /** Appending entries appends their text to the log file, leaving the
      text of the earlier entries as it was. */
  lemma {:induction false} LogTextAppend(a: seq<string>, b: seq<string>)
    ensures LogText(a + b) == LogText(a) + LogText(b)
  {
    if a == [] {
      assert a + b == b;
    } else {
      assert (a + b)[1..] == a[1..] + b;
      LogTextAppend(a[1..], b);
    }
  }

  const ArticlePrefix: string := "article_"
  const ArticleSuffix: string := ".txt"

  /** `f"{output_dir}/article_{i}.txt"`. */
  function ArticlePath(dir: string, i: nat): string
  {
    dir + "/" + ArticlePrefix + Decimal(i) + ArticleSuffix
  }

  /** A file name that the pattern `pre*suf` matches. */
  predicate NameMatches(name: string, pre: string, suf: string) {
    '/' !in name && |name| >= |pre| + |suf| && StartsWith(name, pre) && name[|name| - |suf|..] == suf
  }

  /** A file name that the pattern `article_*.txt` matches. */
  predicate IsArticleName(name: string) {
    NameMatches(name, ArticlePrefix, ArticleSuffix)
  }

  /** A path that `Path(dir).glob('article_*.txt')` yields. */
  predicate IsArticlePath(dir: string, path: string) {
    PathMatches(dir, path, ArticlePrefix, ArticleSuffix)
  }

  /** The article files of `dir`, in no particular order. */
  function ArticlePaths(files: map<string, string>, dir: string): (r: set<string>)
    ensures forall p :: p in r <==> p in files && IsArticlePath(dir, p)
  {
    set p | p in files && IsArticlePath(dir, p)
  }

  /** `article_*.txt` read as a glob: the paths in `dir` whose name is the
      prefix, any text without a slash, and the suffix. */
  lemma ArticlePathGlob(dir: string, path: string)
    ensures IsArticlePath(dir, path) <==>
      exists middle :: '/' !in middle && path == dir + "/" + ArticlePrefix + middle + ArticleSuffix
  {
    GlobMatches(dir, path, ArticlePrefix, ArticleSuffix);
  }

  /** A path in `dir` whose name matches `pre*suf`. */
  predicate PathMatches(dir: string, path: string, pre: string, suf: string) {
    |path| > |dir| && path[..|dir| + 1] == dir + "/" && NameMatches(path[|dir| + 1..], pre, suf)
  }

  /** A path matches `dir/pre*suf` exactly when it is `dir`, a slash, and
      a name made of `pre`, a part without a slash, and `suf`. */
  lemma GlobMatches(dir: string, path: string, pre: string, suf: string)
    requires '/' !in pre && '/' !in suf
    ensures PathMatches(dir, path, pre, suf) <==>
      exists middle :: '/' !in middle && path == dir + "/" + pre + middle + suf
  {
    if PathMatches(dir, path, pre, suf) {
      var middle := GlobSplits(dir, path, pre, suf);
    }
    if middle :| '/' !in middle && path == dir + "/" + pre + middle + suf {
      GlobBuilds(dir, pre, middle, suf);
    }
  }

  /** The part of a matching path that the `*` stands for. */
  lemma GlobSplits(dir: string, path: string, pre: string, suf: string) returns (middle: string)
    requires PathMatches(dir, path, pre, suf)
    ensures '/' !in middle && path == dir + "/" + pre + middle + suf
  {
    var name := path[|dir| + 1..];
    middle := name[|pre|..|name| - |suf|];
    ThreeParts(name, |pre|, |name| - |suf|);
    assert name == pre + middle + suf;
    assert path == path[..|dir| + 1] + name;
  }

  /** A string is the concatenation of its three slices. */
  lemma ThreeParts(s: string, i: nat, j: nat)
    requires i <= j <= |s|
    ensures s == s[..i] + s[i..j] + s[j..]
  {
  }

  /** Building a name from `pre`, a part without a slash, and `suf` gives
      a match. */
  lemma GlobBuilds(dir: string, pre: string, middle: string, suf: string)
    requires '/' !in pre && '/' !in middle && '/' !in suf
    ensures PathMatches(dir, dir + "/" + pre + middle + suf, pre, suf)
  {
    var name := pre + middle + suf;
    var path := dir + "/" + pre + middle + suf;
    assert path == (dir + "/") + name;
    assert path[..|dir| + 1] == dir + "/" && path[|dir| + 1..] == name;
    assert name[..|pre|] == pre && name[|name| - |suf|..] == suf;
  }

  /** What a pipeline saves as its `i`-th article is what the analysis
      later picks up. */
  lemma ArticlePathMatches(dir: string, i: nat)
    ensures IsArticlePath(dir, ArticlePath(dir, i))
  {
    var name := ArticlePrefix + Decimal(i) + ArticleSuffix;
    var p := ArticlePath(dir, i);
    assert p == dir + "/" + name;
    assert p[..|dir| + 1] == dir + "/" && p[|dir| + 1..] == name;
    assert name[..|ArticlePrefix|] == ArticlePrefix;
    assert name[|name| - |ArticleSuffix|..] == ArticleSuffix;
    forall k | 0 <= k < |name| ensures name[k] != '/' {
      if |ArticlePrefix| <= k < |ArticlePrefix| + |Decimal(i)| {
        assert name[k] == Decimal(i)[k - |ArticlePrefix|];
      }
    }
  }

  /** Different indices give different files. */
  lemma ArticlePathInjective(dir: string, i: nat, j: nat)
    requires ArticlePath(dir, i) == ArticlePath(dir, j)
    ensures i == j
  {
    var p := ArticlePath(dir, i);
    var lo := |dir| + 1 + |ArticlePrefix|;
    assert Decimal(i) == p[lo..|p| - |ArticleSuffix|];
    assert Decimal(j) == p[lo..|p| - |ArticleSuffix|];
    DecimalInjective(i, j);
  }

  /** The other files the pipelines write are never taken for articles. */
  lemma OtherFilesAreNotArticles(dir: string)
    ensures !IsArticlePath(dir, dir + "/" + "log.txt")
    ensures !IsArticlePath(dir, dir + "/" + "outline.md")
    ensures !IsArticlePath(dir, dir + "/" + "writing_prompt.txt")
    ensures !IsArticlePath(dir, dir + "/" + "seo_titles.txt")
    ensures !IsArticlePath(dir, dir + "/" + "google_search.js")
  {
    NotArticleInDir(dir, "log.txt");
    NotArticleInDir(dir, "outline.md");
    OtherStart(dir, "writing_prompt.txt");
    OtherStart(dir, "seo_titles.txt");
    OtherStart(dir, "google_search.js");
  }

  /** A file name that is not an article name is not an article in any
      directory. */
  lemma NotArticleInDir(dir: string, name: string)
    requires !IsArticleName(name)
    ensures !IsArticlePath(dir, dir + "/" + name)
  {
    assert (dir + "/" + name)[|dir| + 1..] == name;
  }

  /** A name that does not start with `a` is not an article name. */
  lemma OtherStart(dir: string, name: string)
    requires name != [] && name[0] != 'a'
    ensures !IsArticlePath(dir, dir + "/" + name)
  {
    if |name| >= |ArticlePrefix| {
      assert name[..|ArticlePrefix|][0] == name[0];
    }
    NotArticleInDir(dir, name);
  }

  /** The articles a loop saves: the text of attempt `i` (counted from 1)
      is stored as `article_i` when its outcome is `Some`, and nothing is
      stored for the other attempts. */
  function Gathered(dir: string, outcomes: seq<Option<string>>): map<string, string>
  {
    if outcomes == [] then map[]
    else
      var earlier := Gathered(dir, outcomes[..|outcomes| - 1]);
      match outcomes[|outcomes| - 1]
      case Some(text) => earlier[ArticlePath(dir, |outcomes|) := text]
      case None => earlier
  }

  /** `article_{k+1}` is among the saved files exactly when attempt `k + 1`
      was kept, holds that attempt's text, and nothing else is saved. */
  lemma {:induction false} GatheredFiles(dir: string, outcomes: seq<Option<string>>)
    ensures forall k :: 0 <= k < |outcomes| ==>
      (ArticlePath(dir, k + 1) in Gathered(dir, outcomes) <==> outcomes[k].Some?)
    ensures forall k :: 0 <= k < |outcomes| && outcomes[k].Some? ==>
      Gathered(dir, outcomes)[ArticlePath(dir, k + 1)] == outcomes[k].value
    ensures forall p :: p in Gathered(dir, outcomes) ==>
      exists i :: 1 <= i <= |outcomes| && p == ArticlePath(dir, i)
  {
    if outcomes != [] {
      var n := |outcomes|;
      var front := outcomes[..n - 1];
      GatheredFiles(dir, front);
      var earlier := Gathered(dir, front);
      var saved := Gathered(dir, outcomes);
      var last := ArticlePath(dir, n);
      assert saved == if outcomes[n - 1].Some? then earlier[last := outcomes[n - 1].value] else earlier;
      forall k | 0 <= k < n
        ensures ArticlePath(dir, k + 1) in saved <==> outcomes[k].Some?
        ensures outcomes[k].Some? ==> saved[ArticlePath(dir, k + 1)] == outcomes[k].value
      {
        if k < n - 1 {
          assert front[k] == outcomes[k];
          if ArticlePath(dir, k + 1) == last {
            ArticlePathInjective(dir, k + 1, n);
          }
        } else {
          assert ArticlePath(dir, k + 1) == last;
          if last in earlier {
            var i :| 1 <= i <= n - 1 && last == ArticlePath(dir, i);
            ArticlePathInjective(dir, i, n);
          }
        }
      }
    }
  }

  /** Storing one more file on top of a merge is storing it in the merged
      part. */
  lemma MergeUpdate(base: map<string, string>, added: map<string, string>, path: string, text: string)
    ensures (base + added)[path := text] == base + added[path := text]
  {
  }

  /** One more attempt adds at most its own file. */
  lemma GatheredStep(dir: string, outcomes: seq<Option<string>>, next: Option<string>)
    ensures (outcomes + [next])[..|outcomes|] == outcomes
    ensures Gathered(dir, outcomes + [next]) ==
      match next
      case Some(text) => Gathered(dir, outcomes)[ArticlePath(dir, |outcomes| + 1) := text]
      case None => Gathered(dir, outcomes)
  {
    assert (outcomes + [next])[..|outcomes|] == outcomes;
  }
}
