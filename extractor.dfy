/**
 * `SEOArticleExtractor`: read up to five URLs from `urls.txt`, fetch and
 * clean each page and keep the long enough ones as `article_i.txt`, then
 * recommend a length from all article files of the workspace, write the
 * outline and the writing prompt. The HTTP request and the HTML parsing
 * are an input: for attempt `i` and its URL, `fetch` says what
 * `requests.get` and `soup.get_text` produced.
 */
module Extractor {
  import opened Collections
  import opened Text
  import opened Numerals
  import opened Cleaning
  import opened WordStats
  import opened Files
  import opened Templates
  import opened Steps

  /** The outcome of fetching one URL: the exception's message, or the
      status code with the text extracted from the body. */
  datatype Page = Failed(error: string) | Response(status: nat, text: string)

  const UrlsFile: string := "urls.txt"
  const MaxUrls: nat := 5
  const ExtractHeading: string := "【步骤 1】从 URLs.txt 提取文章内容"

  /** `urls[:5]`: the first five URLs, or all of them when there are
      fewer. */
  function Attempted(urls: seq<string>): (r: seq<string>)
    ensures |r| == if |urls| < MaxUrls then |urls| else MaxUrls
    ensures r == urls[..|r|]
  {
    if |urls| <= MaxUrls then urls else urls[..MaxUrls]
  }

  /** The text saved for a fetched page: its cleaned text, exactly when the
      status is 200 and the cleaned text is longer than 500 characters. */
  function SavedText(page: Page): (r: Option<string>)
    ensures r.Some? <==> page.Response? && page.status == 200 && PassesGate(|CleanText(page.text)|)
    ensures r.Some? ==> r.value == CleanText(page.text)
  {
    match page
    case Failed(_) => None
    case Response(status, text) =>
      if status != 200 then None
      else
        var clean := CleanText(text);
        if |clean| > MinContent then Some(clean) else None
  }

  /** What each attempt saves, attempt `k + 1` fetching `urls[k]`. */
  function Harvest(urls: seq<string>, fetch: (nat, string) -> Page): (r: seq<Option<string>>)
    ensures |r| == |urls|
    ensures forall k :: 0 <= k < |urls| ==> r[k] == SavedText(fetch(k + 1, urls[k]))
  {
    seq(|urls|, k requires 0 <= k < |urls| => SavedText(fetch(k + 1, urls[k])))
  }

  function FetchingLine(i: nat, url: string): string
  {
    "📥 正在提取文章 " + Decimal(i) + ": " + url
  }

  /** The entry logged once a page has been handled. */
  function OutcomeLine(page: Page): string
  {
    match page
    case Failed(error) => "⚠️ 错误：" + error + Sep
    case Response(status, text) =>
      if status != 200 then "⚠️ HTTP " + Decimal(status) + "，无法访问" + Sep
      else
        var clean := CleanText(text);
        if |clean| > MinContent then "✅ 成功提取：" + Grouped(WordCount(clean)) + " 字" + Sep
        else "⚠️ 内容过短，跳过" + Sep
  }

  /** Two entries per attempt, in order. */
  function AttemptLines(urls: seq<string>, fetch: (nat, string) -> Page): seq<string>
  {
    if urls == [] then []
    else
      var n := |urls|;
      AttemptLines(urls[..n - 1], fetch) + [FetchingLine(n, urls[n - 1]), OutcomeLine(fetch(n, urls[n - 1]))]
  }

  /** The attempts are numbered 1, 2, ... in the order of `urls`: attempt
      `k + 1` logs that it fetches `urls[k]` and then how that ended. */
  lemma {:induction false} AttemptLinesNumbered(urls: seq<string>, fetch: (nat, string) -> Page)
    ensures |AttemptLines(urls, fetch)| == 2 * |urls|
    ensures forall k :: 0 <= k < |urls| ==>
      AttemptLines(urls, fetch)[2 * k] == FetchingLine(k + 1, urls[k]) &&
      AttemptLines(urls, fetch)[2 * k + 1] == OutcomeLine(fetch(k + 1, urls[k]))
  {
    if urls != [] {
      var n := |urls|;
      var front := urls[..n - 1];
      AttemptLinesNumbered(front, fetch);
      var earlier := AttemptLines(front, fetch);
      var lines := AttemptLines(urls, fetch);
      assert lines == earlier + [FetchingLine(n, urls[n - 1]), OutcomeLine(fetch(n, urls[n - 1]))];
      forall k | 0 <= k < n
        ensures lines[2 * k] == FetchingLine(k + 1, urls[k])
        ensures lines[2 * k + 1] == OutcomeLine(fetch(k + 1, urls[k]))
      {
        if k < n - 1 {
          assert front[k] == urls[k];
          assert lines[2 * k] == earlier[2 * k] && lines[2 * k + 1] == earlier[2 * k + 1];
        }
      }
    }
  }

  const MissingLines: seq<string> := ["❌ 找不到 urls.txt 文件", "请在当前目录创建 urls.txt 文件，每行一个 URL"]

  function UnreadableLine(error: string): string
  {
    "❌ 无法读取 urls.txt：" + error
  }

  function FoundLine(count: nat): string
  {
    "📄 找到 " + Decimal(count) + " 个 URLs" + Sep
  }

  /** `urls.txt` exists and reading it raised nothing. */
  predicate UrlsReadable(files: map<string, string>, readError: Option<string>) {
    UrlsFile in files && readError.None?
  }

  /** The entries `extract_from_urls` logs after its banner. */
  function ExtractLines(files: map<string, string>, readError: Option<string>, fetch: (nat, string) -> Page): seq<string>
  {
    if UrlsFile !in files then MissingLines
    else if readError.Some? then [UnreadableLine(readError.value)]
    else
      var urls := ParseUrls(files[UrlsFile]);
      [FoundLine(|urls|)] + AttemptLines(Attempted(urls), fetch)
  }

  /** The article files `extract_from_urls` writes into `dir`. */
  function ExtractedFiles(files: map<string, string>, dir: string, readError: Option<string>,
                          fetch: (nat, string) -> Page): map<string, string>
  {
    if UrlsReadable(files, readError) then
      Gathered(dir, Harvest(Attempted(ParseUrls(files[UrlsFile])), fetch))
    else map[]
  }

  /** What the attempts on `urls` save: attempt `k + 1` fetches `urls[k]`,
      and `article_{k+1}` is written exactly when `SavedText` keeps that
      page (status 200, cleaned text longer than 500 characters) and holds
      the text it keeps; a failed or skipped attempt writes nothing, and no
      other file is written. */
  lemma AttemptsSave(dir: string, urls: seq<string>, fetch: (nat, string) -> Page)
    ensures var saved := Gathered(dir, Harvest(urls, fetch));
      (forall k :: 0 <= k < |urls| ==>
        (ArticlePath(dir, k + 1) in saved <==> SavedText(fetch(k + 1, urls[k])).Some?)) &&
      (forall k :: 0 <= k < |urls| && ArticlePath(dir, k + 1) in saved ==>
        saved[ArticlePath(dir, k + 1)] == SavedText(fetch(k + 1, urls[k])).value) &&
      (forall p :: p in saved ==> exists i :: 1 <= i <= |urls| && p == ArticlePath(dir, i))
  {
    GatheredFiles(dir, Harvest(urls, fetch));
  }

  /** A cleaned text of exactly 500 characters is not saved. */
  lemma GateIsStrict(page: Page)
    requires page.Response? && page.status == 200 && |CleanText(page.text)| == MinContent
    ensures SavedText(page) == None
  {
  }

  function Preview(prompt: string): string
  {
    (if |prompt| <= 500 then prompt else prompt[..500]) + "... [内容继续] ..."
  }

  /** The entries that close `generate_writing_prompt`: the first 500
      characters of the prompt between two rules. */
  function PreviewLines(prompt: string): seq<string>
  {
    ["【下一步：复制提示内容到 Claude】" + Sep, Rule, Preview(prompt), Rule + Sep]
  }

  function StartLines(keyword: string, timestamp: string): seq<string>
  {
    [Sep + Rule, "SEO Article Extractor Started", Rule, "时间：" + timestamp, "关键词：" + keyword]
  }

  class SeoArticleExtractor {
    const keyword: string
    const outputDir: string
    /** `datetime.now()` as formatted when the extractor was created. */
    const timestamp: string
    var wordCounts: seq<nat>
    /** The directory the extractor runs in. */
    const ws: Workspace

    constructor(keyword: string, timestamp: string, ws: Workspace)
      modifies ws
      ensures this.keyword == keyword && outputDir == OutputDir(keyword) && this.timestamp == timestamp
      ensures wordCounts == [] && this.ws == ws
      ensures ws.files == old(ws.files)
      ensures ws.log == old(ws.log) + StartLines(keyword, timestamp)
    {
      this.keyword := keyword;
      outputDir := OutputDir(keyword);
      this.timestamp := timestamp;
      wordCounts := [];
      this.ws := ws;
      new;
      Log(Sep + Rule);
      Log("SEO Article Extractor Started");
      Log(Rule);
      Log("时间：" + timestamp);
      Log("关键词：" + keyword);
    }

    /** `_log`: one more entry in the run log, no file changes. */
    method Log(message: string)
      modifies ws
      ensures ws.log == old(ws.log) + [message]
      ensures ws.files == old(ws.files)
    {
      ws.AppendLog(message);
    }

    /** The body of the loop of `extract_from_urls` for attempt `i`. */
    method ExtractOne(i: nat, url: string, page: Page)
      modifies ws
      ensures ws.files == match SavedText(page)
        case Some(text) => old(ws.files)[ArticlePath(outputDir, i) := text]
        case None => old(ws.files)
      ensures ws.log == old(ws.log) + [FetchingLine(i, url), OutcomeLine(page)]
    {
      Log(FetchingLine(i, url));
      ghost var fetchingLog := ws.log;
      assert fetchingLog == old(ws.log) + [FetchingLine(i, url)];
      match page {
        case Failed(error) =>
          Log("⚠️ 错误：" + error + Sep);
        case Response(status, text) =>
          if status == 200 {
            var cleanText := CleanText(text);
            if |cleanText| > MinContent {
              ws.Write(ArticlePath(outputDir, i), cleanText);
              var wordCount := WordCount(cleanText);
              Log("✅ 成功提取：" + Grouped(wordCount) + " 字" + Sep);
              assert SavedText(page) == Some(cleanText);
            } else {
              Log("⚠️ 内容过短，跳过" + Sep);
              assert SavedText(page) == None;
            }
          } else {
            Log("⚠️ HTTP " + Decimal(status) + "，无法访问" + Sep);
          }
      }
      assert ws.log == fetchingLog + [OutcomeLine(page)];
      AppendPair(old(ws.log), FetchingLine(i, url), OutcomeLine(page));
    }

    /** The loop over `urls[:5]`, numbered from 1. */
    method ExtractAll(attempts: seq<string>, fetch: (nat, string) -> Page)
      modifies ws
      ensures ws.files == old(ws.files) + Gathered(outputDir, Harvest(attempts, fetch))
      ensures ws.log == old(ws.log) + AttemptLines(attempts, fetch)
    {
      var outcomes := Harvest(attempts, fetch);
      var i := 1;
      while i <= |attempts|
        invariant 1 <= i <= |attempts| + 1
        invariant ws.files == old(ws.files) + Gathered(outputDir, outcomes[..i - 1])
        invariant ws.log == old(ws.log) + AttemptLines(attempts[..i - 1], fetch)
      {
        var url := attempts[i - 1];
        TakeOneMore(outcomes, i - 1);
        TakeOneMore(attempts, i - 1);
        GatheredStep(outputDir, outcomes[..i - 1], outcomes[i - 1]);
        if outcomes[i - 1].Some? {
          MergeUpdate(old(ws.files), Gathered(outputDir, outcomes[..i - 1]), ArticlePath(outputDir, i), outcomes[i - 1].value);
        }
        ghost var lines := [FetchingLine(i, url), OutcomeLine(fetch(i, url))];
        assert AttemptLines(attempts[..i], fetch) == AttemptLines(attempts[..i - 1], fetch) + lines;
        AppendAssoc(old(ws.log), AttemptLines(attempts[..i - 1], fetch), lines);
        ExtractOne(i, url, fetch(i, url));
        i := i + 1;
      }
      assert outcomes[..i - 1] == outcomes;
      assert attempts[..i - 1] == attempts;
    }

    /** `extract_from_urls`: fails, logging why, when `urls.txt` is missing
        or cannot be read (`readError`); otherwise logs how many URLs the
        file lists, handles the first five and succeeds. */
    method ExtractFromUrls(readError: Option<string>, fetch: (nat, string) -> Page) returns (ok: bool)
      modifies ws
      ensures ok <==> UrlsReadable(old(ws.files), readError)
      ensures ws.files == old(ws.files) + ExtractedFiles(old(ws.files), outputDir, readError, fetch)
      ensures ws.log == old(ws.log) + Banner(ExtractHeading) + ExtractLines(old(ws.files), readError, fetch)
    {
      ghost var files := ws.files;
      Log(Sep + Rule);
      Log(ExtractHeading);
      Log(Rule + Sep);
      ghost var bannerLog := ws.log;
      assert bannerLog == old(ws.log) + Banner(ExtractHeading);
      if UrlsFile !in ws.files {
        Log("❌ 找不到 urls.txt 文件");
        Log("请在当前目录创建 urls.txt 文件，每行一个 URL");
        assert ws.log == bannerLog + MissingLines;
        assert ExtractLines(files, readError, fetch) == MissingLines;
        assert ExtractedFiles(files, outputDir, readError, fetch) == map[];
        assert files + map[] == files;
        return false;
      }
      if readError.Some? {
        Log(UnreadableLine(readError.value));
        assert ExtractLines(files, readError, fetch) == [UnreadableLine(readError.value)];
        assert ExtractedFiles(files, outputDir, readError, fetch) == map[];
        assert files + map[] == files;
        return false;
      }
      var urls := ParseUrls(ws.files[UrlsFile]);
      var attempts := Attempted(urls);
      Log(FoundLine(|urls|));
      ghost var foundLog := ws.log;
      assert foundLog == bannerLog + [FoundLine(|urls|)];
      ExtractAll(attempts, fetch);
      ghost var lines := AttemptLines(attempts, fetch);
      assert ws.log == foundLog + lines;
      assert ExtractLines(files, readError, fetch) == [FoundLine(|urls|)] + lines;
      assert ExtractedFiles(files, outputDir, readError, fetch) == Gathered(outputDir, Harvest(attempts, fetch));
      AppendAssoc(bannerLog, [FoundLine(|urls|)], lines);
      return true;
    }

    /** `analyze_word_count`: the shared analysis on `output_dir`, appending
        to `word_counts`. */
    method AnalyzeWordCount() returns (result: nat, ghost order: seq<string>)
      modifies this, ws
      ensures ws.files == old(ws.files)
      ensures Enumerates(order, ArticlePaths(ws.files, outputDir))
      ensures forall k :: 0 <= k < |order| ==> order[k] in ws.files
      ensures wordCounts == old(wordCounts) + CountsOf(ws.files, order)
      ensures result == Recommended(ws.files, outputDir, old(wordCounts))
      ensures ws.log == old(ws.log) + Banner(AnalysisHeading) + AnalysisLines(ws.files, order, result)
    {
      var counts;
      result, counts, order := AnalyzeWordCounts(ws, outputDir, wordCounts);
      wordCounts := counts;
    }

    /** `generate_outline`. */
    method GenerateOutline() returns (outline: string)
      modifies ws
      ensures outline == Outline(keyword)
      ensures ws.files == old(ws.files)[OutlinePath(outputDir) := outline]
      ensures ws.log == old(ws.log) + Banner(OutlineHeading) + [OutlineDoneLine, outline]
    {
      outline := WriteOutline(ws, outputDir, keyword);
    }

    /** `generate_writing_prompt`: write the prompt and log a preview. */
    method GenerateWritingPrompt(wordCount: nat, outline: string) returns (prompt: string)
      modifies ws
      ensures prompt == Prompt(keyword, wordCount, outline)
      ensures ws.files == old(ws.files)[PromptPath(outputDir) := prompt]
      ensures ws.log == old(ws.log) + Banner(PromptHeading) + [PromptDoneLine] + PreviewLines(prompt)
    {
      prompt := WritePrompt(ws, outputDir, keyword, wordCount, outline);
      Log("【下一步：复制提示内容到 Claude】" + Sep);
      Log(Rule);
      Log(Preview(prompt));
      Log(Rule + Sep);
    }

    /** `run_all`: stop after a failed extraction; otherwise analyse,
        write the outline and the prompt, and log the closing lines. */
    method RunAll(readError: Option<string>, fetch: (nat, string) -> Page) returns (ghost order: seq<string>)
      modifies this, ws
      ensures !UrlsReadable(old(ws.files), readError) ==>
        ws.files == old(ws.files) && wordCounts == old(wordCounts) &&
        ws.log == old(ws.log) + Banner(ExtractHeading) + ExtractLines(old(ws.files), readError, fetch)
      ensures UrlsReadable(old(ws.files), readError) ==>
        var harvested := old(ws.files) + ExtractedFiles(old(ws.files), outputDir, readError, fetch);
        var words := Recommended(harvested, outputDir, old(wordCounts));
        var outline := Outline(keyword);
        var prompt := Prompt(keyword, words, outline);
        Enumerates(order, ArticlePaths(harvested, outputDir)) &&
        (forall k :: 0 <= k < |order| ==> order[k] in harvested) &&
        wordCounts == old(wordCounts) + CountsOf(harvested, order) &&
        ws.files == harvested[OutlinePath(outputDir) := outline][PromptPath(outputDir) := prompt] &&
        ws.log == old(ws.log) + Banner(ExtractHeading) + ExtractLines(old(ws.files), readError, fetch) +
          Banner(AnalysisHeading) + AnalysisLines(harvested, order, words) +
          Banner(OutlineHeading) + [OutlineDoneLine, outline] +
          Banner(PromptHeading) + [PromptDoneLine] + PreviewLines(prompt) + DoneLines(outputDir)
    {
      var success := ExtractFromUrls(readError, fetch);
      if !success {
        return [];
      }
      var wordCount;
      wordCount, order := AnalyzeWordCount();
      var outline := GenerateOutline();
      var prompt := GenerateWritingPrompt(wordCount, outline);
      LogDone(ws, outputDir);
    }
  }
}
