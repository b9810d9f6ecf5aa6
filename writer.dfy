/**
 * `SEOArticleAutomation`: generate a headless-browser script that searches
 * Google for the keyword and saves the top results as `article_i.txt`, run
 * it with `node`, then analyse the word counts, write the outline and the
 * writing prompt as the extractor does, and finally write a list of page
 * titles and meta descriptions to `seo_titles.txt`. Running `node` is an
 * input: `NodeRun` says how the run ended, and for a run that completed,
 * what the results page and the visited pages held.
 */
module Writer {
  import opened Collections
  import opened Text
  import opened Numerals
  import opened Cleaning
  import opened WordStats
  import opened Files
  import opened Templates
  import opened SearchScript
  import opened Steps

  /** The script text up to the search URL, which the script passes to
      `page.goto` as a single-quoted JavaScript string. */
  const ScriptHead: string := @"
const puppeteer = require('puppeteer');
const fs = require('fs');

(async () => {
    let browser;
    try {
        console.log('🚀 启动浏览器...');
        browser = await puppeteer.launch({headless: true, args: ['--no-sandbox']});
        
        const page = await browser.newPage();
        await page.setDefaultNavigationTimeout(30000);
        await page.setUserAgent('Mozilla/5.0 (Windows NT 10.0; Win64; x64) AppleWebKit/537.36');
        
        console.log('🔍 打开 Google...');
        await page.goto("

  /** The script text after that string. */
  const ScriptTail: string := @", {waitUntil: 'networkidle2', timeout: 30000});
        await page.waitForSelector('div.g', { timeout: 10000 });
        
        console.log('📄 提取搜索结果...');
        
        const results = await page.evaluate(() => {
            const items = document.querySelectorAll('div.g');
            const topResults = [];
            
            for (let i = 0; i < items.length; i++) {
                if (topResults.length >= 5) break;
                
                const linkElem = items[i].querySelector('a[href]');
                const titleElem = items[i].querySelector('h3');
                
                if (linkElem && titleElem) {
                    const url = linkElem.href;
                    const title = titleElem.innerText;
                    
                    if (!url.includes('google.com') && 
                        !url.includes('youtube.com') &&
                        url.startsWith('http')) {
                        topResults.push({position: topResults.length + 1, title, url});
                    }
                }
            }
            return topResults;
        });
        
        console.log('\\n✅ 找到 ' + results.length + ' 篇文章');
        
        for (let i = 0; i < results.length; i++) {
            console.log('\\n📥 提取文章 ' + (i + 1));
            
            try {
                const articlePage = await browser.newPage();
                await articlePage.setDefaultNavigationTimeout(20000);
                await articlePage.goto(results[i].url, {waitUntil: 'networkidle2', timeout: 20000});
                
                const articleText = await articlePage.evaluate(() => {
                    document.querySelectorAll('script, style, nav, footer, aside').forEach(el => el.remove());
                    const article = document.querySelector('article') || document.querySelector('main') || document.body;
                    return article ? article.innerText : '';
                });
                
                const cleanText = articleText.split('\\n').filter(line => line.trim()).join('\\n');
                
                if (cleanText.length > 500) {
                    fs.writeFileSync('article_' + (i + 1) + '.txt', cleanText, 'utf-8');
                    console.log('✅ 保存成功');
                }
                
                await articlePage.close();
                await new Promise(resolve => setTimeout(resolve, 2000));
                
            } catch (error) {
                console.log('⚠️ 无法提取');
            }
        }
        
        console.log('\\n✅ 完成！');
        await browser.close();
        process.exit(0);
        
    } catch (error) {
        console.error('❌ 错误:', error.message);
        if (browser) await browser.close();
        process.exit(1);
    }
})();
"

  /** `_create_puppeteer_script`: the script for a search URL. */
  function ScriptText(searchUrl: string): (r: string)
    ensures Contains(r, "'" + searchUrl + "'")
  {
    Around(ScriptHead, "'" + searchUrl + "'", ScriptTail)
  }

  /** The search URL cannot end the JavaScript string it is placed in:
      `quote` escapes every quote and backslash. */
  lemma SearchUrlStaysQuoted(keyword: string)
    ensures '\'' !in SearchUrl(keyword) && '\\' !in SearchUrl(keyword)
  {
    SearchPrefixUnquoted();
    QuotedAfter(SearchPrefix, keyword);
  }

  lemma SearchPrefixUnquoted()
    ensures '\'' !in SearchPrefix && '\\' !in SearchPrefix
  {
  }

  /** Quoting adds no quote or backslash after a prefix without them. */
  lemma QuotedAfter(prefix: string, keyword: string)
    requires '\'' !in prefix && '\\' !in prefix
    ensures '\'' !in prefix + Quote(keyword) && '\\' !in prefix + Quote(keyword)
  {
    var query := Quote(keyword);
    forall i | 0 <= i < |query| ensures query[i] != '\'' && query[i] != '\\' {
      assert IsUrlSafe(query[i]) || query[i] == '%';
    }
  }

  const ScriptName: string := "google_search.js"

  /** Where step 1 writes the script. */
  function ScriptPath(dir: string): string
  {
    dir + "/" + ScriptName
  }

  /** The file `node` loads for a script argument when started in `cwd`: an
      absolute argument as it is, a relative one below `cwd`. */
  function Resolve(cwd: string, argument: string): string
  {
    if StartsWith(argument, "/") then argument else cwd + "/" + argument
  }

  /** The argument the source passes to `node`, which runs in `dir`. */
  function ScriptArgumentAsWritten(dir: string): string
  {
    ScriptPath(dir)
  }

  /** The argument that names the script from inside `dir`. */
  function ScriptArgument(dir: string): string
  {
    ScriptName
  }

  /** Started in the output directory with the path the source passes,
      `node` looks for the script one directory too deep, not where step 1
      wrote it. */
  lemma AsWrittenMissesScript(keyword: string)
    ensures var dir := OutputDir(keyword);
      Resolve(dir, ScriptArgumentAsWritten(dir)) == dir + "/" + dir + "/" + ScriptName &&
      Resolve(dir, ScriptArgumentAsWritten(dir)) != ScriptPath(dir)
  {
    var dir := OutputDir(keyword);
    assert dir[0] == WorkspacePrefix[0] == 'r';
    assert ScriptPath(dir)[..1] == [dir[0]];
  }

  /** With the corrected argument `node` loads the script step 1 wrote. */
  lemma CorrectedFindsScript(keyword: string)
    ensures var dir := OutputDir(keyword);
      Resolve(dir, ScriptArgument(dir)) == ScriptPath(dir)
  {
    assert ScriptName[..1][0] == 'g';
  }

  /** How `subprocess.run(['node', script], cwd=output_dir)` ended. In
      the runs that got as far as the results page, `items` are its
      `div.g` elements and `visits[i]` the text read from the page of the
      `i`-th kept result (`None` when visiting it threw):
      - `Searched`: the script reached `process.exit(0)`;
      - `Crashed`: the script's outer `catch` printed `message` and exited
        with code 1; `closing` says the exception came from
        `browser.close()` after every result was handled, otherwise it came
        from launching the browser or loading the results page, before any
        article was saved;
      - `NodeError`: `node` itself failed with a non-zero exit code, for
        instance because a module is missing;
      - `TimedOut`: the 120-second timeout expired and `subprocess.run`
        raised `error` after the child was killed, when it had handled the
        first `reached` kept results;
      - `SpawnFailed`: `subprocess.run` raised `error` because `node`
        cannot be started. */
  datatype NodeRun =
    | Searched(items: seq<ResultItem>, visits: seq<Option<string>>)
    | Crashed(message: string, items: seq<ResultItem>, visits: seq<Option<string>>, closing: bool)
    | NodeError(stderr: string)
    | TimedOut(error: string, items: seq<ResultItem>, visits: seq<Option<string>>, reached: nat)
    | SpawnFailed(error: string)

  /** The process's exit code; a run that raised has none. */
  function ExitCode(run: NodeRun): (code: nat)
    requires !run.SpawnFailed? && !run.TimedOut?
    ensures code == 0 <==> run.Searched?
  {
    match run
    case Searched(_, _) => 0
    case Crashed(_, _, _, _) => 1
    case NodeError(_) => 1
  }

  /** What the process wrote to standard error: `console.error` joins its
      arguments with a space and ends the line. */
  function Stderr(run: NodeRun): string
    requires !run.SpawnFailed? && !run.TimedOut?
  {
    match run
    case Searched(_, _) => ""
    case Crashed(message, _, _, _) => "❌ 错误: " + message + LineBreak
    case NodeError(stderr) => stderr
  }

  /** The kept results whose pages the script had handled when it ended. */
  function Handled(run: NodeRun): (r: seq<Hit>)
    ensures run.Searched? ==> r == Selected(run.items)
    ensures run.Crashed? ==> r == if run.closing then Selected(run.items) else []
    ensures run.TimedOut? ==>
      |r| <= run.reached && |r| <= |Selected(run.items)| && r == Selected(run.items)[..|r|]
    ensures run.TimedOut? && run.reached <= |Selected(run.items)| ==> |r| == run.reached
    ensures run.NodeError? || run.SpawnFailed? ==> r == []
  {
    match run
    case Searched(items, _) => Selected(items)
    case Crashed(_, items, _, closing) => if closing then Selected(items) else []
    case TimedOut(_, items, _, reached) =>
      var all := Selected(items);
      if reached < |all| then all[..reached] else all
    case _ => []
  }

  /** The visits of a run that got as far as the results page. */
  function RunVisits(run: NodeRun): seq<Option<string>>
  {
    if run.Searched? || run.Crashed? || run.TimedOut? then run.visits else []
  }

  /** The articles the script saved into `dir` before it ended, whether or
      not it ended normally. */
  function ScriptFiles(dir: string, run: NodeRun): map<string, string>
  {
    Gathered(dir, ScriptOutcomes(Handled(run), RunVisits(run)))
  }

  /** After any run, `article_{k+1}.txt` is in `dir` exactly when the
      script had handled kept result `k` and that page passed its gate,
      and it holds the page's cleaned text; a run that never reached the
      results page saves nothing. */
  lemma ScriptFilesSaved(dir: string, run: NodeRun)
    ensures forall k :: 0 <= k < |Handled(run)| ==>
      (ArticlePath(dir, k + 1) in ScriptFiles(dir, run) <==> ScriptSaved(Visit(RunVisits(run), k)).Some?)
    ensures forall k :: 0 <= k < |Handled(run)| && ScriptSaved(Visit(RunVisits(run), k)).Some? ==>
      ScriptFiles(dir, run)[ArticlePath(dir, k + 1)] == ScriptSaved(Visit(RunVisits(run), k)).value
    ensures forall p :: p in ScriptFiles(dir, run) ==>
      exists i :: 1 <= i <= |Handled(run)| && p == ArticlePath(dir, i)
    ensures run.NodeError? || run.SpawnFailed? || (run.Crashed? && !run.closing) ==> ScriptFiles(dir, run) == map[]
  {
    GatheredFiles(dir, ScriptOutcomes(Handled(run), RunVisits(run)));
  }

  const SearchHeading: string := "【步骤 1】Google 搜索 + 文章提取"

  /** The entry step 1 logs once `node` has finished or failed to start. */
  function RunOutcomeLine(run: NodeRun): string
  {
    match run
    case SpawnFailed(error) => "❌ 错误: " + error + Sep
    case TimedOut(error, _, _, _) => "❌ 错误: " + error + Sep
    case _ =>
      if ExitCode(run) == 0 then "✅ 搜索和提取完成！" + Sep
      else "⚠️ 错误: " + Stderr(run) + Sep
  }

  /** The entries step 1 logs before it runs `node`. */
  function StartedLines(dir: string, keyword: string): seq<string>
  {
    ["🔎 搜索 URL: " + SearchUrl(keyword) + Sep, "📝 脚本已生成: " + ScriptPath(dir),
     "⏳ 正在执行... 请稍候（30-60 秒）" + Sep]
  }

  /** The entries step 1 logs after its banner. */
  function SearchLines(dir: string, keyword: string, run: NodeRun): seq<string>
  {
    StartedLines(dir, keyword) + [RunOutcomeLine(run)]
  }

  /** Files the script saves are articles, so they never replace the
      script itself. */
  lemma ScriptFilesKeepScript(dir: string, run: NodeRun)
    ensures ScriptPath(dir) !in ScriptFiles(dir, run)
  {
    var outcomes := ScriptOutcomes(Handled(run), RunVisits(run));
    GatheredFiles(dir, outcomes);
    OtherFilesAreNotArticles(dir);
    if ScriptPath(dir) in Gathered(dir, outcomes) {
      var i :| 1 <= i <= |outcomes| && ScriptPath(dir) == ArticlePath(dir, i);
      ArticlePathMatches(dir, i);
      assert false;
    }
  }

  /** The entries that close step 4: the whole prompt between two rules. */
  function ShowLines(prompt: string): seq<string>
  {
    ["【复制下面内容到 ChatGPT 或 Claude】" + Sep, Rule, prompt, Rule + Sep]
  }

  const SeoHeading: string := "【步骤 5】生成 SEO 优化的标题和描述"

  function SeoTitlesPath(dir: string): string
  {
    dir + "/" + "seo_titles.txt"
  }

  /** A logged title or description with its length in characters. */
  function ListingLine(i: nat, text: string): string
  {
    Decimal(i) + ". (" + Decimal(|text|) + " 字) " + text + Sep
  }

  /** One entry per item, numbered from 1. */
  function ListingLines(items: seq<string>): (r: seq<string>)
    ensures |r| == |items|
  {
    seq(|items|, k requires 0 <= k < |items| => ListingLine(k + 1, items[k]))
  }

  /** The text of `seo_titles.txt` for a keyword. */
  function SeoText(keyword: string): string
  {
    var keywordTitle := Title(keyword);
    SeoTitlesText(PageTitles(keywordTitle), Descriptions(keywordTitle))
  }

  /** The titles and descriptions as step 5 logs them. */
  function TitleReport(titles: seq<string>, descriptions: seq<string>): seq<string>
  {
    ["📋 推荐 Page Title" + Sep] + ListingLines(titles) + ["📝 推荐 Meta Description" + Sep] + ListingLines(descriptions)
  }

  /** The entries step 5 logs. */
  function SeoLines(keyword: string): seq<string>
  {
    var keywordTitle := Title(keyword);
    Banner(SeoHeading) + TitleReport(PageTitles(keywordTitle), Descriptions(keywordTitle))
  }

  /** The file built from any titles and descriptions lists each of them
      as its own numbered entry. */
  lemma SeoTitlesTextLists(titles: seq<string>, descriptions: seq<string>)
    ensures forall k :: 0 <= k < |titles| ==>
      Contains(SeoTitlesText(titles, descriptions), Entry(k + 1, titles[k]))
    ensures forall k :: 0 <= k < |descriptions| ==>
      Contains(SeoTitlesText(titles, descriptions), Entry(k + 1, descriptions[k]))
  {
    var opening := "Page Titles" + Sep + Sep;
    var middle := Sep + "Meta Descriptions" + Sep + Sep;
    var first := Entries(titles);
    var second := Entries(descriptions);
    var text := SeoTitlesText(titles, descriptions);
    AppendAssoc(opening + first, middle, second);
    assert text == opening + first + (middle + second);
    EntriesList(titles);
    EntriesList(descriptions);
    forall k | 0 <= k < |titles| ensures Contains(text, Entry(k + 1, titles[k])) {
      ContainsSuffix(opening, first, Entry(k + 1, titles[k]));
      ContainsPrefix(opening + first, middle + second, Entry(k + 1, titles[k]));
    }
    forall k | 0 <= k < |descriptions| ensures Contains(text, Entry(k + 1, descriptions[k])) {
      ContainsSuffix(opening + first + middle, second, Entry(k + 1, descriptions[k]));
    }
  }

  /** `seo_titles.txt` lists all five titles and all four descriptions as
      numbered entries, and every one of them names the title-cased
      keyword. */
  lemma SeoTitlesListed(keyword: string)
    ensures var keywordTitle := Title(keyword);
      var titles := PageTitles(keywordTitle);
      var descriptions := Descriptions(keywordTitle);
      |titles| == 5 && |descriptions| == 4 &&
      (forall k :: 0 <= k < |titles| ==>
        Contains(SeoText(keyword), Entry(k + 1, titles[k])) && Contains(titles[k], keywordTitle)) &&
      (forall k :: 0 <= k < |descriptions| ==>
        Contains(SeoText(keyword), Entry(k + 1, descriptions[k])) && Contains(descriptions[k], keywordTitle))
  {
    var keywordTitle := Title(keyword);
    var titles := PageTitles(keywordTitle);
    var descriptions := Descriptions(keywordTitle);
    SeoTitlesTextLists(titles, descriptions);
    assert SeoText(keyword) == SeoTitlesText(titles, descriptions);
  }

  function StartLines(keyword: string, timestamp: string): seq<string>
  {
    [Sep + Rule, "SEO Article Automation Started: " + timestamp, "关键词：" + keyword, Rule]
  }

  class SeoArticleAutomation {
    const keyword: string
    const outputDir: string
    /** `datetime.now()` as formatted when the pipeline was created. */
    const timestamp: string
    var wordCounts: seq<nat>
    /** The directory the pipeline runs in. */
    const ws: Workspace

    constructor(keyword: string, timestamp: string, ws: Workspace)
      modifies ws
      ensures this.keyword == keyword && outputDir == OutputDir(keyword) && this.timestamp == timestamp
      ensures wordCounts == [] && this.ws == ws
      ensures ws.files == old(ws.files)
      ensures ws.log == old(ws.log) + StartLines(keyword, timestamp)
    {
      this.keyword := keyword;
      outputDir := OutputDir(keyword);
      this.timestamp := timestamp;
      wordCounts := [];
      this.ws := ws;
      new;
      Log(Sep + Rule);
      Log("SEO Article Automation Started: " + timestamp);
      Log("关键词：" + keyword);
      Log(Rule);
    }

    /** `_log`: one more entry in the run log, no file changes. */
    method Log(message: string)
      modifies ws
      ensures ws.log == old(ws.log) + [message]
      ensures ws.files == old(ws.files)
    {
      ws.AppendLog(message);
    }

    /** `step1_google_search_and_extract`: write the script, run it in the
        output directory and report how the run ended. Succeeds exactly
        when the script completed; a completed run adds the articles it
        saved, and `node` loads the script just written. */
    method Step1(run: NodeRun) returns (ok: bool)
      modifies ws
      ensures ok <==> run.Searched?
      ensures ws.files ==
        old(ws.files)[ScriptPath(outputDir) := ScriptText(SearchUrl(keyword))] + ScriptFiles(outputDir, run)
      ensures var loaded := Resolve(outputDir, ScriptArgument(outputDir));
        loaded in ws.files && ws.files[loaded] == ScriptText(SearchUrl(keyword))
      ensures ws.log == old(ws.log) + Banner(SearchHeading) + SearchLines(outputDir, keyword, run)
    {
      Log(Sep + Rule);
      Log(SearchHeading);
      Log(Rule + Sep);
      ghost var bannerLog := ws.log;
      assert bannerLog == old(ws.log) + Banner(SearchHeading);
      WriteScript();
      assert ws.log == bannerLog + StartedLines(outputDir, keyword);
      CorrectedFindsScript(keyword);
      ScriptFilesKeepScript(outputDir, run);
      ok := Run(run);
      AppendAssoc(bannerLog, StartedLines(outputDir, keyword), [RunOutcomeLine(run)]);
    }

    /** The part of step 1 before `node` runs: write the script for the
        keyword's search URL and log where it went. */
    method WriteScript()
      modifies ws
      ensures ws.files == old(ws.files)[ScriptPath(outputDir) := ScriptText(SearchUrl(keyword))]
      ensures ws.log == old(ws.log) + StartedLines(outputDir, keyword)
    {
      var searchUrl := SearchUrl(keyword);
      Log("🔎 搜索 URL: " + searchUrl + Sep);
      var script := ScriptText(searchUrl);
      var scriptPath := ScriptPath(outputDir);
      ws.Write(scriptPath, script);
      Log("📝 脚本已生成: " + scriptPath);
      Log("⏳ 正在执行... 请稍候（30-60 秒）" + Sep);
    }

    /** The `try` around `subprocess.run` in step 1: a completed script
        saves its articles into the output directory. */
    method Run(run: NodeRun) returns (ok: bool)
      modifies ws
      ensures ok <==> run.Searched?
      ensures ws.files == old(ws.files) + ScriptFiles(outputDir, run)
      ensures ws.log == old(ws.log) + [RunOutcomeLine(run)]
    {
      match run {
        case SpawnFailed(error) =>
          Log("❌ 错误: " + error + Sep);
          ok := false;
        case Searched(items, visits) =>
          var results := SelectResults(items);
          SaveArticles(ws, outputDir, results, visits);
          Log("✅ 搜索和提取完成！" + Sep);
          ok := true;
        case Crashed(_, items, visits, closing) =>
          if closing {
            var results := SelectResults(items);
            SaveArticles(ws, outputDir, results, visits);
          } else {
            SaveArticles(ws, outputDir, [], visits);
          }
          Log("⚠️ 错误: " + Stderr(run) + Sep);
          ok := false;
        case TimedOut(error, items, visits, reached) =>
          var results := SelectResults(items);
          SaveArticles(ws, outputDir, if reached < |results| then results[..reached] else results, visits);
          Log("❌ 错误: " + error + Sep);
          ok := false;
        case NodeError(_) =>
          Log("⚠️ 错误: " + Stderr(run) + Sep);
          ok := false;
      }
      assert old(ws.files) + map[] == old(ws.files);
    }

    /** `step2_word_count_analysis`. */
    method Step2() returns (result: nat, ghost order: seq<string>)
      modifies this, ws
      ensures ws.files == old(ws.files)
      ensures Enumerates(order, ArticlePaths(ws.files, outputDir))
      ensures forall k :: 0 <= k < |order| ==> order[k] in ws.files
      ensures wordCounts == old(wordCounts) + CountsOf(ws.files, order)
      ensures result == Recommended(ws.files, outputDir, old(wordCounts))
      ensures ws.log == old(ws.log) + Banner(AnalysisHeading) + AnalysisLines(ws.files, order, result)
    {
      var counts;
      result, counts, order := AnalyzeWordCounts(ws, outputDir, wordCounts);
      wordCounts := counts;
    }

    /** `step3_outline_analysis`. */
    method Step3() returns (outline: string)
      modifies ws
      ensures outline == Outline(keyword)
      ensures ws.files == old(ws.files)[OutlinePath(outputDir) := outline]
      ensures ws.log == old(ws.log) + Banner(OutlineHeading) + [OutlineDoneLine, outline]
    {
      outline := WriteOutline(ws, outputDir, keyword);
    }

    /** `step4_ai_writing_prompt`: write the prompt and log all of it. */
    method Step4(wordCount: nat, outline: string) returns (prompt: string)
      modifies ws
      ensures prompt == Prompt(keyword, wordCount, outline)
      ensures ws.files == old(ws.files)[PromptPath(outputDir) := prompt]
      ensures ws.log == old(ws.log) + Banner(PromptHeading) + [PromptDoneLine] + ShowLines(prompt)
    {
      prompt := WritePrompt(ws, outputDir, keyword, wordCount, outline);
      Log("【复制下面内容到 ChatGPT 或 Claude】" + Sep);
      Log(Rule);
      Log(prompt);
      Log(Rule + Sep);
    }

    /** The two logging loops of step 5. */
    method LogListing(items: seq<string>)
      modifies ws
      ensures ws.files == old(ws.files)
      ensures ws.log == old(ws.log) + ListingLines(items)
    {
      var i := 1;
      while i <= |items|
        invariant 1 <= i <= |items| + 1
        invariant ws.files == old(ws.files)
        invariant ws.log == old(ws.log) + ListingLines(items[..i - 1])
      {
        assert ListingLines(items[..i]) == ListingLines(items[..i - 1]) + [ListingLine(i, items[i - 1])];
        Log(ListingLine(i, items[i - 1]));
        i := i + 1;
      }
      assert items[..i - 1] == items;
    }

    /** The two writing loops of step 5, appending to the open file. */
    method WriteEntries(path: string, items: seq<string>)
      requires path in ws.files
      modifies ws
      ensures ws.files == old(ws.files)[path := old(ws.files)[path] + Entries(items)]
      ensures ws.log == old(ws.log)
    {
      var i := 1;
      assert old(ws.files)[path] + [] == old(ws.files)[path];
      while i <= |items|
        invariant 1 <= i <= |items| + 1
        invariant ws.files == old(ws.files)[path := old(ws.files)[path] + Entries(items[..i - 1])]
        invariant ws.log == old(ws.log)
      {
        assert items[..i][..i - 1] == items[..i - 1];
        AppendAssoc(old(ws.files)[path], Entries(items[..i - 1]), Entry(i, items[i - 1]));
        ws.Append(path, Entry(i, items[i - 1]));
        i := i + 1;
      }
      assert items[..i - 1] == items;
    }

    /** `step5_seo_titles`: log the titles and descriptions with their
        lengths and write them to `seo_titles.txt`. */
    method Step5()
      modifies ws
      ensures ws.files == old(ws.files)[SeoTitlesPath(outputDir) := SeoText(keyword)]
      ensures ws.log == old(ws.log) + SeoLines(keyword)
    {
      Log(Sep + Rule);
      Log(SeoHeading);
      Log(Rule + Sep);
      ghost var bannerLog := ws.log;
      assert bannerLog == old(ws.log) + Banner(SeoHeading);
      var keywordTitle := Title(keyword);
      var titles := PageTitles(keywordTitle);
      var descriptions := Descriptions(keywordTitle);
      ReportTitles(titles, descriptions);
      AppendAssoc(old(ws.log), Banner(SeoHeading), TitleReport(titles, descriptions));
      WriteTitles(SeoTitlesPath(outputDir), titles, descriptions);
    }

    /** The logging half of step 5. */
    method ReportTitles(titles: seq<string>, descriptions: seq<string>)
      modifies ws
      ensures ws.files == old(ws.files)
      ensures ws.log == old(ws.log) + TitleReport(titles, descriptions)
    {
      Log("📋 推荐 Page Title" + Sep);
      LogListing(titles);
      Log("📝 推荐 Meta Description" + Sep);
      LogListing(descriptions);
    }

    /** The writing half of step 5: the file is opened for writing, so it
        holds exactly what is written to it. */
    method WriteTitles(path: string, titles: seq<string>, descriptions: seq<string>)
      modifies ws
      ensures ws.files == old(ws.files)[path := SeoTitlesText(titles, descriptions)]
      ensures ws.log == old(ws.log)
    {
      ghost var opening := "Page Titles" + Sep + Sep;
      ghost var middle := Sep + "Meta Descriptions" + Sep + Sep;
      ws.Write(path, "Page Titles" + Sep + Sep);
      WriteEntries(path, titles);
      ws.Append(path, Sep + "Meta Descriptions" + Sep + Sep);
      WriteEntries(path, descriptions);
      AppendAssoc(opening + Entries(titles), middle, Entries(descriptions));
      assert opening + Entries(titles) + middle + Entries(descriptions) == SeoTitlesText(titles, descriptions);
    }

    /** `run_all`: every step runs, whether or not step 1 succeeded. */
    method RunAll(run: NodeRun) returns (ghost order: seq<string>)
      modifies this, ws
      ensures var searched := old(ws.files)[ScriptPath(outputDir) := ScriptText(SearchUrl(keyword))] +
          ScriptFiles(outputDir, run);
        var words := Recommended(searched, outputDir, old(wordCounts));
        var outline := Outline(keyword);
        var prompt := Prompt(keyword, words, outline);
        Enumerates(order, ArticlePaths(searched, outputDir)) &&
        (forall k :: 0 <= k < |order| ==> order[k] in searched) &&
        wordCounts == old(wordCounts) + CountsOf(searched, order) &&
        ws.files == searched[OutlinePath(outputDir) := outline][PromptPath(outputDir) := prompt]
          [SeoTitlesPath(outputDir) := SeoText(keyword)] &&
        ws.log == old(ws.log) + Banner(SearchHeading) + SearchLines(outputDir, keyword, run) +
          Banner(AnalysisHeading) + AnalysisLines(searched, order, words) +
          Banner(OutlineHeading) + [OutlineDoneLine, outline] +
          Banner(PromptHeading) + [PromptDoneLine] + ShowLines(prompt) + SeoLines(keyword) + DoneLines(outputDir)
    {
      var _ := Step1(run);
      ghost var searched := ws.files;
      ghost var searchLog := ws.log;
      var wordCount;
      wordCount, order := Step2();
      assert wordCount == Recommended(searched, outputDir, old(wordCounts));
      ghost var analysisLog := ws.log;
      assert analysisLog == searchLog + Banner(AnalysisHeading) + AnalysisLines(searched, order, wordCount);
      var outline := Step3();
      var prompt := Step4(wordCount, outline);
      ghost var promptLog := ws.log;
      assert promptLog == analysisLog + Banner(OutlineHeading) + [OutlineDoneLine, outline] +
        Banner(PromptHeading) + [PromptDoneLine] + ShowLines(prompt);
      assert ws.files == searched[OutlinePath(outputDir) := outline][PromptPath(outputDir) := prompt];
      Step5();
      LogDone(ws, outputDir);
    }
  }
}
