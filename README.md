# SEO article research pipelines in Dafny

This project models the two per-keyword research pipelines of the repository. Both build a workspace directory `research_<keyword>` and fill it with source articles. They then recommend an article length from those articles' word counts, write a fixed outline and a writing prompt, and log every step.

- `SEOArticleExtractor` (`seo_article_extractor.py`) reads up to five URLs from `urls.txt`. It fetches and cleans each page and keeps the pages whose cleaned text is longer than 500 characters as `article_<i>.txt`. It stops early when `urls.txt` is missing or unreadable.
- `SEOArticleAutomation` (`seo_article_writer.py`) generates a Puppeteer script, `google_search.js`, and runs it with `node`. The script selects at most five Google results and saves the pages that pass its own cleaning and gate. The pipeline then runs the shared analysis, outline and prompt steps, and writes five page titles and four meta descriptions to `seo_titles.txt`.

Layout, one module per file:

- `collections.dfy` (`Collections`): `Option`, enumerations of a set, and permutation facts.
- `text.dfy` (`Text`): `strip`, `split(sep)`, `join`, `split()` word counting and substring search, in their ASCII reading.
- `numerals.dfy` (`Numerals`): decimal rendering, the `{:,}` thousands format, and `urllib.parse.quote` with UTF-8 encoding and a decoder that undoes it.
- `cleaning.dfy` (`Cleaning`): parsing the URL list, the Python and JavaScript page cleaning, and the 500-character gate.
- `stats.dfy` (`WordStats`): `int((mean + median) / 2)` in exact integer arithmetic.
- `workspace.dfy` (`Files`): the workspace as a class holding a map from path to text and the run log. It also covers the `article_<i>.txt` naming and the files a harvesting loop saves.
- `templates.dfy` (`Templates`): the workspace name, `str.title`, the outline, the prompt, the SEO titles and descriptions, and the search URL.
- `search.dfy` (`SearchScript`): the result-selection loop and the per-result save loop inside the generated script.
- `steps.dfy` (`Steps`): the analysis, outline and prompt steps, which the two pipelines share line for line.
- `extractor.dfy` (`Extractor`): the class `SeoArticleExtractor`.
- `writer.dfy` (`Writer`): the class `SeoArticleAutomation`, the text of the generated script, and how a `node` run ends.

Both classes hold a `Workspace` and update it in place. Every state-changing method states the whole new file map and the whole new run log in terms of the old ones, as functions of its inputs. The lemmas then prove what the source promises about those functions.

Some values come from outside the program and are given to the model as inputs:

- the outcome of each HTTP request, as the page text that `get_text` returned (`Extractor.Page`);
- a read error on `urls.txt`;
- how the `node` process ended, and what the results page and the visited pages held (`Writer.NodeRun`);
- the formatted timestamp.

The separator that both pipelines pass to `get_text`, `split` and `join` is written `'\\n'` in the source. It is therefore a backslash followed by `n`, not a line break, and the model keeps it that way (`Cleaning.Sep`). One consequence is proved as `Cleaning.CleaningCanMergeWords`: cleaning can glue the last word of one text fragment to the first word of the next.

## Model

| member | source | states |
|---|---|---|
| Text.Strip | seo_article_extractor.py:83 | `line.strip()` leaves no whitespace at either end and never lengthens the line |
| Text.StripIsBetween | seo_article_extractor.py:83 | what `strip()` removes is a run of whitespace at the start and one at the end: the result is the line between them |
| Text.TrimLeft | seo_article_extractor.py:83 | the result is the suffix left after a run of whitespace, and it does not start with whitespace |
| Text.TrimRight | seo_article_extractor.py:83 | the result is the prefix left before a run of whitespace, and it does not end with whitespace |
| Text.StripFixesStripped | seo_article_extractor.py:52 | stripping changes a line exactly when an end of it is whitespace; it yields the empty string exactly for an all-whitespace line |
| Text.JoinSplit | seo_article_extractor.py:83-84 | `sep.join` (`Text.Join`) of the pieces of `split(sep)` (`Text.Split`) gives back the original text |
| Text.SplitAtSeparator | seo_article_extractor.py:83 | the first piece of a split ends at the first separator |
| Text.SplitWithoutSeparator | seo_article_extractor.py:83 | a text with no separator is a single piece |
| Text.ContainsInside | seo_article_writer.py:100-101 | `includes`/`in` finds every piece a string is built from |
| Text.WordCountAcrossSpace | seo_article_extractor.py:92 | with a whitespace character between two texts, `len(split())` of the whole is the sum of the parts' counts |
| Text.WordCountWithoutSpace | seo_article_extractor.py:119 | a non-empty text without whitespace counts as one word |
| Text.WordCountOfSpace | seo_article_extractor.py:119 | whitespace alone counts as no word |
| Text.WordCountZero | seo_article_extractor.py:119 | `len(text.split())` (`Text.WordCount`) is 0 exactly when the text is all whitespace, and never more than the text's length |
| Numerals.Decimal | seo_article_extractor.py:61 | `f"{i}"` is a non-empty string of digits with no leading zero |
| Numerals.DecimalLength | seo_article_extractor.py:192 | a number has one digit exactly below 10, at most two exactly below 100, at most three exactly below 1000 |
| Numerals.ParseDecimalOfDecimal | seo_article_extractor.py:88 | a rendered index reads back as the same number |
| Numerals.DecimalInjective | seo_article_extractor.py:88 | different indices render differently |
| Numerals.Grouped | seo_article_extractor.py:192 | `{:,}` produces only digits and commas |
| Numerals.GroupedCommas | seo_article_extractor.py:192 | the commas of `{:,}` sit exactly every four places from the right: each is followed by three digits and the leading group has one to three |
| Numerals.CommasEveryFourAppend | seo_article_extractor.py:192 | appending a comma and three digits keeps the commas every four places |
| Numerals.GroupedIsDecimal | seo_article_extractor.py:192 | removing the commas of `{:,}` gives the plain decimal, which reads back as the number shown |
| Numerals.DecimalSplitsThree | seo_article_extractor.py:192 | the decimal of a number of 1000 or more is the decimal of its thousands followed by three padded digits |
| Numerals.GroupedExample | seo_article_extractor.py:93 | 1234567 is shown as `1,234,567` |
| Numerals.Utf8 | seo_article_writer.py:34 | a character encodes to the shortest UTF-8 sequence: its lead byte announces its length, its continuation bytes lie in 0x80-0xBF, its length is set by the code point's range, and it decodes to the character |
| Numerals.Utf8Two | seo_article_writer.py:34 | a code point in 0x80-0x7FF encodes to a lead byte in 0xC2-0xDF and one continuation byte, decoding back to it |
| Numerals.Utf8Three | seo_article_writer.py:34 | a code point in 0x800-0xFFFF encodes to a lead byte in 0xE0-0xEF and two continuation bytes, decoding back to it |
| Numerals.Utf8Four | seo_article_writer.py:34 | a code point from 0x10000 encodes to a lead byte in 0xF0-0xF4 and three continuation bytes, decoding back to it |
| Numerals.HexDigit | seo_article_writer.py:34 | each value below 16 becomes an upper-case hexadecimal digit that reads back as the value |
| Numerals.PercentBytes | seo_article_writer.py:34 | each byte becomes `%` and two upper-case hex digits |
| Numerals.DecodePercentBytes | seo_article_writer.py:34 | reading the escapes back gives the bytes |
| Numerals.DecodePercent | seo_article_writer.py:34 | a run of escapes decodes to one byte per three characters |
| Numerals.Quote | seo_article_writer.py:34 | `quote(keyword)` contains only URL-safe characters and `%` |
| Numerals.EscapedChar | seo_article_writer.py:34 | a decoded escape run starts with `%` and lies inside the text |
| Numerals.EscapedCharOfUtf8 | seo_article_writer.py:34 | the escapes of a character's UTF-8 bytes are read back as that character |
| Numerals.UnquoteSafe | seo_article_writer.py:34 | a character `quote` leaves alone is read back as itself |
| Numerals.UnquoteEscaped | seo_article_writer.py:34 | a character `quote` escapes is read back from its escapes |
| Numerals.QuoteRoundTrip | seo_article_writer.py:34 | unquoting `quote(keyword)` gives back the keyword, so different keywords give different queries |
| Cleaning.StripAll | seo_article_extractor.py:83 | one stripped piece per piece |
| Cleaning.StripAllAt | seo_article_extractor.py:83 | the i-th stripped piece is the i-th piece stripped |
| Cleaning.KeepStripped | seo_article_extractor.py:83 | every kept line is non-empty and stripped; the lines keep their order; one line is kept per piece that is not all whitespace |
| Cleaning.KeepNonBlank | seo_article_writer.py:126 | the script keeps the lines that are not all whitespace, unchanged and in order, one per such line |
| Cleaning.ParsedUrlsAreStripped | seo_article_extractor.py:52 | every URL that `Cleaning.ParseUrls` keeps from `urls.txt` is non-empty and equal to its own `strip()`, and the URLs keep the file's order |
| Cleaning.JsLength | seo_article_writer.py:128 | JavaScript's `length` is between one and two units per character |
| Cleaning.JsLengthExtremes | seo_article_writer.py:128 | `length` equals the number of characters exactly when all lie in the Basic Multilingual Plane, and twice that exactly when none does |
| Cleaning.JsLengthAppend | seo_article_writer.py:128 | `length` adds up over concatenation |
| Cleaning.CleanSpacedWords | seo_article_extractor.py:83-84 | the Python cleaning (`Cleaning.CleanText`) of a word followed by a space and a word preceded by one is the two words joined by the separator |
| Cleaning.CleaningCanMergeWords | seo_article_extractor.py:80-92 | because the separator is not a line break, two one-word fragments clean into a text that counts as a single word |
| Cleaning.WordCountAcrossSeparator | seo_article_extractor.py:92 | two words joined by the separator count as one word |
| WordStats.Insert | seo_article_extractor.py:125 | inserting into a sorted list keeps it sorted and adds exactly the new count |
| WordStats.SortCounts | seo_article_extractor.py:125 | the data `median` sorts is ordered and is a permutation of the counts |
| WordStats.SortedUnique | seo_article_extractor.py:125 | two sorted permutations of the same counts are equal |
| WordStats.SumOfPermutation | seo_article_extractor.py:124 | the sum behind the mean does not depend on the order of the counts |
| WordStats.MedianOfPermutation | seo_article_extractor.py:125 | the median does not depend on the order of the counts |
| WordStats.RecommendOfPermutation | seo_article_extractor.py:123-126 | the recommendation does not depend on the order of the counts |
| WordStats.SumBetween | seo_article_extractor.py:124 | the sum of counts between `lo` and `hi` is between `n*lo` and `n*hi` |
| WordStats.QuotientBetween | seo_article_extractor.py:126 | rounding down a quotient whose numerator lies between `d*lo` and `d*hi` stays between `lo` and `hi` |
| WordStats.ScaledBetween | seo_article_extractor.py:126 | the numerator `2*sum + n*med2` lies between `4n*lo` and `4n*hi` |
| WordStats.RecommendBetween | seo_article_extractor.py:123-126 | the recommendation (`WordStats.Recommend`, built on `WordStats.TwiceMedian`) lies between the smallest and the largest count |
| WordStats.MedianExample | seo_article_extractor.py:125 | the median of [1000, 2000, 3000] is 2000 |
| WordStats.RecommendExample | seo_article_extractor.py:123-126 | the counts [1000, 2000, 3000] give 2000 |
| Collections.SomeOrder | seo_article_extractor.py:110 | some listing of the article files reads each file exactly once |
| Collections.EnumerationsArePermutations | seo_article_extractor.py:110 | two listings of the same files, each without repeats, are permutations of each other |
| Files.Workspace.constructor | seo_article_extractor.py:19 | the workspace starts as the directory the run finds |
| Files.Workspace.Write | seo_article_extractor.py:89-90 | writing a file replaces its text and changes nothing else |
| Files.Workspace.Append | seo_article_writer.py:319 | writing to an open file adds the text after what it holds |
| Files.Workspace.AppendLog | seo_article_writer.py:24-27 | each `_log` appends exactly one entry after all earlier ones, which stay as they were, and changes no file |
| Files.LogTextAppend | seo_article_extractor.py:29-33 | appending entries only appends to the text of `log.txt` |
| Files.ArticlePaths | seo_article_extractor.py:110 | the set holds exactly the files that `Files.IsArticlePath` accepts |
| Files.ArticlePathGlob | seo_article_extractor.py:110 | a path is accepted exactly when it is the directory, `/`, `article_`, any text without `/`, and `.txt`: the glob `article_*.txt` |
| Files.GlobMatches | seo_article_extractor.py:110 | a path matches `dir/pre*suf` exactly when it is `dir`, `/`, `pre`, a part without `/`, and `suf` |
| Files.GlobBuilds | seo_article_extractor.py:110 | every such path matches |
| Files.ArticlePathMatches | seo_article_extractor.py:88 | every file saved as `article_<i>.txt` is picked up by the analysis glob |
| Files.ArticlePathInjective | seo_article_extractor.py:88 | different indices are saved to different files |
| Files.OtherFilesAreNotArticles | seo_article_extractor.py:110 | `log.txt`, `outline.md`, `writing_prompt.txt`, `seo_titles.txt` and `google_search.js` are never taken for articles |
| Files.GatheredFiles | seo_article_extractor.py:60-100 | a saving loop (`Files.Gathered`) stores `article_<k+1>` exactly for the attempts kept, with their text, and stores nothing else |
| Files.GatheredStep | seo_article_extractor.py:87-90 | one more attempt adds at most its own file |
| Templates.Underscored | seo_article_writer.py:14 | every space is replaced by `_` and every other character is kept |
| Templates.OutputDir | seo_article_writer.py:14 | the directory name is `research_` followed by the keyword with spaces replaced; its length is the keyword's plus 9, and it contains no space |
| Templates.OutputDirSeparates | seo_article_extractor.py:18 | keywords of equal length that differ in a character other than space and `_` get different directories |
| Templates.Upper | seo_article_extractor.py:139 | upper-casing makes a letter upper case and keeps every character that is not a lower-case letter |
| Templates.Lower | seo_article_extractor.py:139 | lower-casing makes a letter lower case and keeps every character that is not an upper-case letter |
| Templates.CasePairs | seo_article_extractor.py:139 | a letter's two cases are each other's counterparts: changing case twice gives the same letter, and its two forms differ |
| Templates.TitleChar | seo_article_extractor.py:139 | title-casing keeps non-letters, makes a letter upper case at the start of a word and lower case inside one, and keeps the letter itself |
| Templates.TitleFromAt | seo_article_extractor.py:139 | each character is upper-cased after an uncased one and lower-cased after a cased one |
| Templates.Title | seo_article_extractor.py:139 | `str.title` keeps the length and cases each letter by whether the character before it is cased |
| Templates.TitleIdempotent | seo_article_writer.py:291 | title-casing twice is title-casing once |
| Templates.TitleExample | seo_article_extractor.py:139 | `cold brew` becomes `Cold Brew` |
| Templates.OutlineShape | seo_article_extractor.py:139-172 | the outline starts with `# ` and the title-cased keyword, followed by the eight fixed sections |
| Templates.OutlineDependsOnlyOnTitle | seo_article_writer.py:186-219 | two keywords give the same outline (`Templates.Outline`) exactly when their title-cased forms agree |
| Templates.TitleLineDetermines | seo_article_writer.py:186-187 | the title line can be read back from an outline-shaped text |
| Templates.SameFrame | seo_article_writer.py:186-187 | text between a fixed start and a fixed end is recovered from the whole |
| Templates.WordRange | seo_article_extractor.py:226 | the bounds are `int(W*0.9)` and `int(W*1.1)` taken exactly, and the lower bound is at most W, which is at most the upper bound |
| Templates.PromptShowsKeyword | seo_article_extractor.py:191 | the prompt (`Templates.Prompt`) contains the keyword as given |
| Templates.PromptShowsCount | seo_article_extractor.py:192 | the prompt shows the word count with thousands separators |
| Templates.PromptShowsOutline | seo_article_extractor.py:196 | the prompt contains the outline |
| Templates.PromptEndsWithRange | seo_article_extractor.py:226 | the prompt ends with the sentence giving the range |
| Templates.PromptKeepsHead | seo_article_extractor.py:188-226 | text in the part before the count stays in the prompt |
| Templates.PromptKeepsMiddle | seo_article_extractor.py:193-226 | text in the part before the outline stays in the prompt |
| Templates.PageTitles | seo_article_writer.py:293-299 | there are five titles, each containing the title-cased keyword |
| Templates.Descriptions | seo_article_writer.py:301-306 | there are four descriptions, each containing the title-cased keyword |
| Templates.Around | seo_article_writer.py:293-306 | a template contains the value placed into it |
| Templates.EntriesList | seo_article_writer.py:318-322 | the written list holds every item as its own entry, numbered from 1 |
| Templates.SearchUrl | seo_article_writer.py:34 | the search URL is the Google search prefix followed by URL-safe characters and `%` escapes, which unquote to the keyword |
| Templates.PrefixedQuery | seo_article_writer.py:34 | the query of a URL is what follows its prefix |
| SearchScript.Qualifying | seo_article_writer.py:96-102 | the items kept all have a link, a heading and a wanted URL, in page order |
| SearchScript.QualifyingCounts | seo_article_writer.py:96-102 | every item with a link, a heading and a wanted URL is kept, as often as it occurs; no other item is |
| SearchScript.QualifyingAppend | seo_article_writer.py:90-106 | filtering the two halves of a page separately and concatenating gives the filter of the whole page |
| SearchScript.Selected | seo_article_writer.py:86-108 | at most five results, numbered 1.. consecutively, are the first qualifying items in page order; there are fewer than five only when fewer qualify |
| SearchScript.SelectResults | seo_article_writer.py:86-108 | the loop with its `break` at five returns exactly the selection |
| SearchScript.ScriptSaved | seo_article_writer.py:126-129 | a page is saved exactly when it was read and its cleaned text is longer than 500 units, and the saved text is the cleaned text |
| SearchScript.SaveArticles | seo_article_writer.py:112-139 | the per-result loop adds exactly the files saved for the results it handles (`SearchScript.ScriptOutcomes`) and logs nothing |
| SearchScript.ScriptKeepsSpaces | seo_article_writer.py:126 | the script keeps the spaces around a line |
| SearchScript.StripExample | seo_article_extractor.py:83 | Python strips ` a ` to `a` |
| SearchScript.PythonStripsSpaces | seo_article_extractor.py:83 | the Python cleaning of the same text strips the spaces |
| SearchScript.ScriptGateCountsUnits | seo_article_writer.py:128 | 300 emoji pass the script's gate, although they are only 300 characters |
| Steps.CountsOfAppend | seo_article_extractor.py:116-120 | the word counts (`Steps.CountsOf`) of more files come after the earlier ones, each the word count of its file |
| Steps.CountsOfTail | seo_article_extractor.py:119 | leaving out the first file leaves out its count |
| Steps.CountsOfRemoveAt | seo_article_extractor.py:119 | leaving out any one file leaves out its count |
| Steps.CountsOfPermutation | seo_article_extractor.py:116-120 | reading the same files in another order gives the same counts up to order |
| Steps.RecommendationIgnoresOrder | seo_article_extractor.py:110-126 | the recommendation (`Steps.Recommended`) is the same whatever order the article files are read in |
| Steps.ReadArticles | seo_article_extractor.py:116-121 | each article file is read exactly once, its count appended to the collected counts and logged (`Steps.ArticleLines`), numbered from 1 |
| Steps.AnalyzeWordCounts | seo_article_extractor.py:104-131 | without article files: logs that none was found and returns 3000; otherwise appends one count per file and returns the recommendation over all collected counts, including earlier ones; no file changes |
| Steps.WriteOutline | seo_article_extractor.py:133-180 | writes the outline to `outline.md`, logs it and returns it |
| Steps.WritePrompt | seo_article_extractor.py:182-232 | writes the prompt to `writing_prompt.txt` and logs that it was generated |
| Steps.LogDone | seo_article_extractor.py:251-254 | logs the four closing entries and changes no file |
| Extractor.Attempted | seo_article_extractor.py:60 | `urls[:5]` is the first min(5, n) URLs |
| Extractor.SavedText | seo_article_extractor.py:71-95 | a page is saved exactly when its status is 200 and its cleaned text is longer than 500 characters, and the saved text is the cleaned text |
| Extractor.AttemptLinesNumbered | seo_article_extractor.py:60-61 | the attempts are numbered 1, 2, … in URL order, each logging its fetch and then its outcome |
| Extractor.AttemptsSave | seo_article_extractor.py:60-100 | over the outcomes of the attempts (`Extractor.Harvest`), `article_<k+1>` is written exactly when attempt k+1 passes, with its cleaned text; a failed or skipped attempt writes nothing, and no other file is written |
| Extractor.GateIsStrict | seo_article_extractor.py:87 | a cleaned text of exactly 500 characters is skipped |
| Extractor.SeoArticleExtractor.constructor | seo_article_extractor.py:16-27 | sets the workspace name and empty counts, logs the five opening entries, writes no file |
| Extractor.SeoArticleExtractor.Log | seo_article_extractor.py:29-33 | one more log entry, no file changes |
| Extractor.SeoArticleExtractor.ExtractOne | seo_article_extractor.py:61-100 | one attempt writes `article_<i>` exactly when the page is saved, and logs the fetch and the outcome |
| Extractor.SeoArticleExtractor.ExtractAll | seo_article_extractor.py:60-100 | the loop adds exactly the harvested files and logs two entries per attempt |
| Extractor.SeoArticleExtractor.ExtractFromUrls | seo_article_extractor.py:35-102 | returns True exactly when `urls.txt` exists and is readable; otherwise logs why and writes nothing; on success logs the URL count and handles the first five URLs |
| Extractor.SeoArticleExtractor.AnalyzeWordCount | seo_article_extractor.py:104-131 | the analysis on the workspace, appending to `word_counts` |
| Extractor.SeoArticleExtractor.GenerateOutline | seo_article_extractor.py:133-180 | writes and logs the outline of the keyword |
| Extractor.SeoArticleExtractor.GenerateWritingPrompt | seo_article_extractor.py:182-238 | writes the prompt and logs its first 500 characters between two rules |
| Extractor.SeoArticleExtractor.RunAll | seo_article_extractor.py:240-254 | after a failed extraction nothing more happens; otherwise the files are the harvested ones plus outline and prompt, and the log holds every step in order |
| Writer.ScriptText | seo_article_writer.py:65-151 | the script contains the search URL as a single-quoted string |
| Writer.SearchUrlStaysQuoted | seo_article_writer.py:81 | the quoted search URL holds no quote or backslash, so it cannot end the JavaScript string |
| Writer.AsWrittenMissesScript | seo_article_writer.py:47-49 | run in the output directory with the path the source passes, `node` looks for the script one directory too deep |
| Writer.CorrectedFindsScript | seo_article_writer.py:47-49 | with the script's bare name, `node` loads the script step 1 wrote |
| Writer.ExitCode | seo_article_writer.py:55-63 | the exit code is 0 exactly when the script ran to its end |
| Writer.Handled | seo_article_writer.py:46-63 | the results the script handled: all of them after a completed run or a crash in `browser.close()`, none after an earlier crash, the first `reached` of them (or all, if fewer) when the timeout killed it |
| Writer.ScriptFilesSaved | seo_article_writer.py:46-139 | after any run (`Writer.ScriptFiles`), `article_<k+1>` is saved exactly when handled result k passed the script's gate, with its cleaned text; nothing else is saved; runs that never reached the results page save nothing |
| Writer.ScriptFilesKeepScript | seo_article_writer.py:129 | the articles the script saves never replace the script |
| Writer.SeoTitlesTextLists | seo_article_writer.py:316-322 | `seo_titles.txt` holds every title and every description as a numbered entry |
| Writer.SeoTitlesListed | seo_article_writer.py:291-322 | five titles and four descriptions, each containing the title-cased keyword and each listed in `seo_titles.txt` numbered from 1 |
| Writer.SeoArticleAutomation.constructor | seo_article_writer.py:12-22 | sets the workspace name and empty counts, logs the four opening entries, writes no file |
| Writer.SeoArticleAutomation.Log | seo_article_writer.py:24-27 | one more log entry, no file changes |
| Writer.SeoArticleAutomation.Step1 | seo_article_writer.py:29-63 | returns True exactly when the script ran to its end; writes the script and adds the articles the run saved before it ended, however it ended; `node` loads the script just written |
| Writer.SeoArticleAutomation.WriteScript | seo_article_writer.py:34-44 | writes the script for the keyword's search URL and logs where it went |
| Writer.SeoArticleAutomation.Run | seo_article_writer.py:46-63 | returns True exactly on exit code 0, False on another code or an exception, logging which; the files are those the script saved before it ended, also after a crash or the timeout |
| Writer.SeoArticleAutomation.Step2 | seo_article_writer.py:153-179 | appends one count per article file to `word_counts` and returns the recommendation over all collected counts, or 3000 without files |
| Writer.SeoArticleAutomation.Step3 | seo_article_writer.py:181-227 | writes and logs the outline of the keyword |
| Writer.SeoArticleAutomation.Step4 | seo_article_writer.py:229-284 | writes the prompt and logs all of it between two rules |
| Writer.SeoArticleAutomation.LogListing | seo_article_writer.py:308-314 | logs each item numbered from 1 with its length (`Writer.ListingLines`) |
| Writer.SeoArticleAutomation.WriteEntries | seo_article_writer.py:318-322 | appends each item numbered from 1 to the open file |
| Writer.SeoArticleAutomation.ReportTitles | seo_article_writer.py:308-314 | logs the titles and then the descriptions |
| Writer.SeoArticleAutomation.WriteTitles | seo_article_writer.py:316-322 | `seo_titles.txt` holds exactly the two numbered lists under their headings |
| Writer.SeoArticleAutomation.Step5 | seo_article_writer.py:286-322 | writes `seo_titles.txt` and logs the titles and descriptions |
| Writer.SeoArticleAutomation.RunAll | seo_article_writer.py:324-334 | steps 2 to 5 run whatever step 1 returned; the files and the log are those of every step in order |

## Left out

- HTTP requests and HTML parsing (`requests.get`, BeautifulSoup, `decompose`) are foreign libraries. Each attempt's outcome is an input: the exception message, or the status code with the text `get_text` returned.
- Running `node` and Puppeteer (browser launch, navigation, the result page's DOM, `innerText`, the 2-second pauses) is outside the program. `Writer.NodeRun` gives how the run ended and what the pages held: completed, crashed before or after the results were handled, failed inside `node`, killed by the 120-second timeout after a given number of results, or not started. The model does not describe what the script prints to standard output.
- The rest of the generated script is kept only as text (`Writer.ScriptText`). Its per-result `try` is modelled as a page that could not be read.
- Steps.AnalyzeWordCounts: reads the article files in an unspecified order, not in the sorted order of `glob`. The order is returned as a ghost value. The recommendation is proved not to depend on it, but the numbering of the logged per-article lines follows that order.
- Floating-point arithmetic in `statistics.mean`, `statistics.median`, `int(W*0.9)` and `int(W*1.1)` is replaced by exact integer division on non-negative values. Rounding error in the floating-point versions is not modelled.
- Text.IsSpace: covers only ASCII whitespace. Python's `split()` and `strip()` also treat Unicode spaces (for instance U+00A0 and U+0085) as whitespace.
- Text.IsJsSpace: covers only ASCII whitespace, so Cleaning.KeepNonBlank keeps a line made only of U+00A0, U+FEFF, U+2028 or U+2029, which JavaScript's `trim` would empty and `filter` would drop.
- Templates.Title: cases only ASCII letters. Python's `str.title` also cases other scripts.
- Numerals.Quote: covers one to four UTF-8 bytes per character, without surrogates or encoding errors.
- Numerals.Unquote: decodes only escape runs that are the exact UTF-8 encoding of one character and keeps everything else as it is. Python's `unquote` would replace a malformed run with U+FFFD. The two agree on every output of `quote`, which is all the round trip needs.
- Universal-newline translation and the `encoding` and `errors='ignore'` arguments of `open` are left out. Files are maps from path to text.
- `mkdir` is left out, because the map has no directories.
- Crashes inside the program itself, such as a failing `open` or `_log`, are left out. A run's failures are only those the source handles.
- `print`, `input()`, `sys.argv` and the `__main__` blocks are left out. The keyword and the timestamp are constructor parameters.
- Writer.SeoArticleAutomation.Step1: passes the corrected script argument (see Findings). With the argument as written, `node` would not find the script, and every run would end as `NodeError`.
- Writer.NodeRun: a crash inside `browser.close()` in the outer `catch` itself, which would leave an unhandled rejection, is folded into `NodeError`.

## Findings

| source | as written | input that shows it | evidently intended | confidence | as-written member | corrected member |
|---|---|---|---|---|---|---|
| seo_article_writer.py:47-49 | `node` is started with `cwd=output_dir` and given `output_dir/google_search.js`, a path relative to the directory it already runs in | any keyword, e.g. `cold brew`: the script is written to `research_cold_brew/google_search.js`, but `node` resolves the argument to `research_cold_brew/research_cold_brew/google_search.js` | pass `google_search.js`, so that `node` loads the script step 1 wrote | not executed | Writer.AsWrittenMissesScript | Writer.CorrectedFindsScript |
