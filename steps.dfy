/**
 * The steps the two pipelines share line for line: the step banners,
 * the word-count analysis over the article files of the workspace, the
 * outline step, the writing of the prompt file, and the closing lines.
 */
module Steps {
  import opened Collections
  import opened Text
  import opened Numerals
  import opened Cleaning
  import opened WordStats
  import opened Files
  import opened Templates

  /** `'='*80`. */
  const Rule: string := "================================================================================"

  /** The three log entries that open a step. */
  function Banner(heading: string): seq<string>
  {
    [Sep + Rule, heading, Rule + Sep]
  }

  const AnalysisHeading: string := "【步骤 2】字数分析"
  const OutlineHeading: string := "【步骤 3】生成最优大纲"
  const PromptHeading: string := "【步骤 4】生成 AI 写作提示"

  const NoArticlesLine: string := "❌ 没有找到文章文件" + Sep

  function ArticleLine(i: nat, words: nat): string
  {
    "  📄 文章 " + Decimal(i) + ": " + Grouped(words) + " 字"
  }

  function RecommendLine(words: nat): string
  {
    Sep + "✅ 推荐字数: " + Grouped(words) + Sep
  }

  /** The word count of every listed file, in the listed order. */
  function CountsOf(files: map<string, string>, order: seq<string>): (r: seq<nat>)
    requires forall k :: 0 <= k < |order| ==> order[k] in files
    ensures |r| == |order|
  {
    seq(|order|, k requires 0 <= k < |order| && order[k] in files => WordCount(files[order[k]]))
  }

  /** Reading more files adds their counts after the earlier ones: the
      counts of `a + b` are those of `a`, then those of `b`, each the word
      count of its file. */
  lemma CountsOfAppend(files: map<string, string>, a: seq<string>, b: seq<string>)
    requires forall k :: 0 <= k < |a| ==> a[k] in files
    requires forall k :: 0 <= k < |b| ==> b[k] in files
    ensures forall k :: 0 <= k < |a + b| ==> (a + b)[k] in files
    ensures CountsOf(files, a + b) == CountsOf(files, a) + CountsOf(files, b)
    ensures forall k :: 0 <= k < |b| ==> CountsOf(files, b)[k] == WordCount(files[b[k]])
  {
    assert forall k :: 0 <= k < |a + b| ==> (a + b)[k] == if k < |a| then a[k] else b[k - |a|];
  }

  /** The per-article log entries, numbered from 1 in the listed order. */
  function ArticleLines(files: map<string, string>, order: seq<string>): (r: seq<string>)
    requires forall k :: 0 <= k < |order| ==> order[k] in files
    ensures |r| == |order|
  {
    seq(|order|, k requires 0 <= k < |order| && order[k] in files =>
      ArticleLine(k + 1, WordCount(files[order[k]])))
  }

  /** The entries the analysis logs after its banner. */
  function AnalysisLines(files: map<string, string>, order: seq<string>, result: nat): seq<string>
    requires forall k :: 0 <= k < |order| ==> order[k] in files
  {
    if order == [] then [NoArticlesLine] else ArticleLines(files, order) + [RecommendLine(result)]
  }

  /** The recommendation for the article files of `dir`, on top of the
      counts collected before: 3000 without articles, otherwise the
      rounded-down average of mean and median. */
  ghost function Recommended(files: map<string, string>, dir: string, prior: seq<nat>): nat
  {
    var articles := ArticlePaths(files, dir);
    if articles == {} then DefaultWordCount
    else
      var order := SomeOrder(articles);
      Recommend(prior + CountsOf(files, order))
  }

  predicate AllIn(paths: seq<string>, files: map<string, string>) {
    forall k :: 0 <= k < |paths| ==> paths[k] in files
  }

  /** Leaving out the first file leaves out its count. */
  lemma CountsOfTail(files: map<string, string>, a: seq<string>)
    requires AllIn(a, files) && a != []
    ensures AllIn(a[1..], files)
    ensures multiset(CountsOf(files, a)) == multiset(CountsOf(files, a[1..])) + multiset{WordCount(files[a[0]])}
  {
    var ca := CountsOf(files, a);
    assert CountsOf(files, a[1..]) == ca[1..];
    assert ca == [ca[0]] + ca[1..];
  }

  /** Leaving out the `j`-th file leaves out its count. */
  lemma CountsOfRemoveAt(files: map<string, string>, b: seq<string>, j: nat)
    requires AllIn(b, files) && j < |b|
    ensures AllIn(b[..j] + b[j + 1..], files)
    ensures multiset(CountsOf(files, b)) ==
      multiset(CountsOf(files, b[..j] + b[j + 1..])) + multiset{WordCount(files[b[j]])}
  {
    var rest := b[..j] + b[j + 1..];
    var cb := CountsOf(files, b);
    var cr := CountsOf(files, rest);
    var expected := cb[..j] + cb[j + 1..];
    assert |cr| == |expected|;
    forall k | 0 <= k < |cr| ensures cr[k] == expected[k] {
      if k < j {
        assert rest[k] == b[k];
      } else {
        assert rest[k] == b[k + 1];
      }
    }
    assert cr == expected;
    MultisetRemoveAt(cb, j);
  }

  /** Listing the same files in another order gives the same counts up to
      order. */
  lemma {:induction false} CountsOfPermutation(files: map<string, string>, a: seq<string>, b: seq<string>)
    requires AllIn(a, files) && AllIn(b, files)
    requires multiset(a) == multiset(b)
    ensures multiset(CountsOf(files, a)) == multiset(CountsOf(files, b))
    decreases |a|
  {
    if a == [] {
      assert |b| == |multiset(b)| == 0;
    } else {
      assert a[0] in multiset(b);
      var j :| 0 <= j < |b| && b[j] == a[0];
      MultisetRemoveAt(b, j);
      TailMultiset(a);
      CountsOfTail(files, a);
      CountsOfRemoveAt(files, b, j);
      CountsOfPermutation(files, a[1..], b[..j] + b[j + 1..]);
    }
  }

  /** The recommendation does not depend on the order in which the
      article files are read. */
  lemma RecommendationIgnoresOrder(files: map<string, string>, dir: string, prior: seq<nat>, order: seq<string>)
    requires Enumerates(order, ArticlePaths(files, dir)) && order != []
    ensures forall k :: 0 <= k < |order| ==> order[k] in files
    ensures Recommend(prior + CountsOf(files, order)) == Recommended(files, dir, prior)
  {
    var articles := ArticlePaths(files, dir);
    assert order[0] in articles;
    var some := SomeOrder(articles);
    EnumerationsArePermutations(order, some, articles);
    CountsOfPermutation(files, order, some);
    RecommendOfPermutation(prior + CountsOf(files, order), prior + CountsOf(files, some));
  }

  /** The loop of the analysis: read each of `articles` once, in some
      order, appending its word count and logging it. */
  method ReadArticles(ws: Workspace, articles: set<string>, prior: seq<nat>)
    returns (counts: seq<nat>, ghost order: seq<string>)
    requires forall p :: p in articles ==> p in ws.files
    modifies ws
    ensures ws.files == old(ws.files)
    ensures Enumerates(order, articles)
    ensures forall k :: 0 <= k < |order| ==> order[k] in ws.files
    ensures counts == prior + CountsOf(ws.files, order)
    ensures ws.log == old(ws.log) + ArticleLines(ws.files, order)
  {
    counts := prior;
    order := [];
    var remaining := articles;
    var read := 0;
    while remaining != {}
      invariant read == |order|
      invariant remaining <= articles
      invariant forall p :: p in order ==> p in articles && p !in remaining
      invariant forall p :: p in articles ==> p in order || p in remaining
      invariant Distinct(order)
      invariant ws.files == old(ws.files)
      invariant forall k :: 0 <= k < |order| ==> order[k] in ws.files
      invariant counts == prior + CountsOf(ws.files, order)
      invariant ws.log == old(ws.log) + ArticleLines(ws.files, order)
      decreases |remaining|
    {
      var path :| path in remaining;
      var wordCount := WordCount(ws.files[path]);
      ghost var before := order;
      counts := counts + [wordCount];
      order := order + [path];
      read := read + 1;
      CountsOfAppend(ws.files, before, [path]);
      assert ArticleLines(ws.files, order) == ArticleLines(ws.files, before) + [ArticleLine(read, wordCount)];
      ws.AppendLog(ArticleLine(read, wordCount));
      remaining := remaining - {path};
    }
  }

  /** `analyze_word_count` / `step2_word_count_analysis`: read every article
      file of `dir` once, append its word count to the collected counts and
      log it, then log and return the recommendation; without article files
      log that none was found and return 3000. `order` is the order in
      which the files were read. */
  method AnalyzeWordCounts(ws: Workspace, dir: string, prior: seq<nat>)
    returns (result: nat, counts: seq<nat>, ghost order: seq<string>)
    modifies ws
    ensures ws.files == old(ws.files)
    ensures Enumerates(order, ArticlePaths(ws.files, dir))
    ensures forall k :: 0 <= k < |order| ==> order[k] in ws.files
    ensures counts == prior + CountsOf(ws.files, order)
    ensures result == Recommended(ws.files, dir, prior)
    ensures ws.log == old(ws.log) + Banner(AnalysisHeading) + AnalysisLines(ws.files, order, result)
  {
    ws.AppendLog(Sep + Rule);
    ws.AppendLog(AnalysisHeading);
    ws.AppendLog(Rule + Sep);
    ghost var bannerLog := ws.log;
    assert bannerLog == old(ws.log) + Banner(AnalysisHeading);
    var articles := ArticlePaths(ws.files, dir);
    if articles == {} {
      ws.AppendLog(NoArticlesLine);
      assert AnalysisLines(ws.files, [], DefaultWordCount) == [NoArticlesLine];
      return DefaultWordCount, prior, [];
    }
    counts, order := ReadArticles(ws, articles, prior);
    var some :| some in articles;
    assert some in order;
    RecommendationIgnoresOrder(ws.files, dir, prior, order);
    result := Recommend(counts);
    ws.AppendLog(RecommendLine(result));
    assert order != [];
    AppendAssoc(bannerLog, ArticleLines(ws.files, order), [RecommendLine(result)]);
  }

  function OutlinePath(dir: string): string
  {
    dir + "/" + "outline.md"
  }

  function PromptPath(dir: string): string
  {
    dir + "/" + "writing_prompt.txt"
  }

  const OutlineDoneLine: string := "✅ 大纲已生成" + Sep
  const PromptDoneLine: string := "✅ 写作提示已生成" + Sep

  /** `generate_outline` / `step3_outline_analysis`: write the outline to
      `outline.md`, log it and return it. */
  method WriteOutline(ws: Workspace, dir: string, keyword: string) returns (outline: string)
    modifies ws
    ensures outline == Outline(keyword)
    ensures ws.files == old(ws.files)[OutlinePath(dir) := outline]
    ensures ws.log == old(ws.log) + Banner(OutlineHeading) + [OutlineDoneLine, outline]
  {
    ws.AppendLog(Sep + Rule);
    ws.AppendLog(OutlineHeading);
    ws.AppendLog(Rule + Sep);
    ghost var bannerLog := ws.log;
    assert bannerLog == old(ws.log) + Banner(OutlineHeading);
    outline := Outline(keyword);
    ws.Write(OutlinePath(dir), outline);
    ws.AppendLog(OutlineDoneLine);
    ws.AppendLog(outline);
    assert ws.log == bannerLog + [OutlineDoneLine, outline];
  }

  /** The first half of step 4 in both pipelines: write the prompt to
      `writing_prompt.txt` and log that it was generated. */
  method WritePrompt(ws: Workspace, dir: string, keyword: string, words: nat, outline: string)
    returns (prompt: string)
    modifies ws
    ensures prompt == Prompt(keyword, words, outline)
    ensures ws.files == old(ws.files)[PromptPath(dir) := prompt]
    ensures ws.log == old(ws.log) + Banner(PromptHeading) + [PromptDoneLine]
  {
    ws.AppendLog(Sep + Rule);
    ws.AppendLog(PromptHeading);
    ws.AppendLog(Rule + Sep);
    assert ws.log == old(ws.log) + Banner(PromptHeading);
    prompt := Prompt(keyword, words, outline);
    ws.Write(PromptPath(dir), prompt);
    ws.AppendLog(PromptDoneLine);
  }

  /** The entries `run_all` logs once every step has run. */
  function DoneLines(dir: string): seq<string>
  {
    [Sep + Rule, "✅ 所有步骤完成！", Rule, Sep + "📁 文件保存在：" + dir + "/" + Sep]
  }

  /** The closing entries of `run_all`. */
  method LogDone(ws: Workspace, dir: string)
    modifies ws
    ensures ws.files == old(ws.files)
    ensures ws.log == old(ws.log) + DoneLines(dir)
  {
    ws.AppendLog(Sep + Rule);
    ws.AppendLog("✅ 所有步骤完成！");
    ws.AppendLog(Rule);
    ws.AppendLog(Sep + "📁 文件保存在：" + dir + "/" + Sep);
  }
}
