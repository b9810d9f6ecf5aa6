/**
 * The text both pipelines derive from the keyword alone or from the
 * keyword and the recommended length: the workspace name, `str.title`,
 * the fixed outline, the writing prompt with its length range, the page
 * titles and meta descriptions, and the search URL.
 */
module Templates {
  import opened Collections
  import opened Text
  import opened Numerals
  import opened Cleaning

  const WorkspacePrefix: string := "research_"

  /** `keyword.replace(' ', '_')`. */
  function Underscored(keyword: string): (r: string)
    ensures |r| == |keyword|
    ensures forall i :: 0 <= i < |r| ==> r[i] == if keyword[i] == ' ' then '_' else keyword[i]
  {
    if keyword == [] then []
    else [if keyword[0] == ' ' then '_' else keyword[0]] + Underscored(keyword[1..])
  }

  /** `f"research_{keyword.replace(' ', '_')}"`: the prefix, then the
      keyword with every space turned into an underscore and every other
      character kept, so the name holds no space. */
  function OutputDir(keyword: string): (r: string)
    ensures |r| == |WorkspacePrefix| + |keyword|
    ensures r[..|WorkspacePrefix|] == WorkspacePrefix
    ensures forall i :: 0 <= i < |keyword| ==>
      r[|WorkspacePrefix| + i] == if keyword[i] == ' ' then '_' else keyword[i]
    ensures ' ' !in r
  {
    var r := WorkspacePrefix + Underscored(keyword);
    assert forall i :: 0 <= i < |keyword| ==> r[|WorkspacePrefix| + i] == Underscored(keyword)[i];
    r
  }

  /** Keywords that differ other than by a space against an underscore
      get different workspaces. */
  lemma OutputDirSeparates(a: string, b: string, i: nat)
    requires |a| == |b| && i < |a| && a[i] != b[i]
    requires a[i] != ' ' && a[i] != '_'
    ensures OutputDir(a) != OutputDir(b)
  {
    assert OutputDir(a)[|WorkspacePrefix| + i] == a[i];
  }

  predicate IsUpper(c: char) {
    'A' <= c <= 'Z'
  }

  predicate IsLower(c: char) {
    'a' <= c <= 'z'
  }

  /** A letter with an upper- and a lower-case form. */
  predicate IsCased(c: char) {
    IsUpper(c) || IsLower(c)
  }

  /** Upper-casing: a letter ends up upper case, everything that is not a
      lower-case letter is kept. */
  function Upper(c: char): (u: char)
    ensures IsCased(c) ==> IsUpper(u)
    ensures !IsLower(c) ==> u == c
    ensures IsCased(u) == IsCased(c)
  {
    if IsLower(c) then (c as int - 32) as char else c
  }

  /** Lower-casing: a letter ends up lower case, everything that is not an
      upper-case letter is kept. */
  function Lower(c: char): (l: char)
    ensures IsCased(c) ==> IsLower(l)
    ensures !IsUpper(c) ==> l == c
    ensures IsCased(l) == IsCased(c)
  {
    if IsUpper(c) then (c as int + 32) as char else c
  }

  /** The two cases of a letter are each other's counterparts: changing case
      twice lands on the same letter, and a letter's two forms differ. */
  lemma CasePairs(c: char)
    ensures Lower(Upper(c)) == Lower(c) && Upper(Lower(c)) == Upper(c)
    ensures IsCased(c) ==> Upper(c) != Lower(c)
    ensures IsCased(c) ==> (c == Upper(c) || c == Lower(c))
  {
  }

  /** What `str.title` makes of `c` when the character before it in the
      ORIGINAL string is (`afterCased`) or is not a cased letter: a letter
      becomes upper case at the start of a word and lower case inside one,
      staying the same letter; anything else is kept. */
  function TitleChar(c: char, afterCased: bool): (t: char)
    ensures IsCased(t) == IsCased(c)
    ensures !IsCased(c) ==> t == c
    ensures IsCased(c) ==> (IsUpper(t) <==> !afterCased)
    ensures Lower(t) == Lower(c)
  {
    if !IsCased(c) then c
    else if afterCased then Lower(c)
    else
      CasePairs(c);
      Upper(c)
  }

  function TitleFrom(s: string, afterCased: bool): (r: string)
    ensures |r| == |s|
    ensures r != [] ==> r[0] == TitleChar(s[0], afterCased)
  {
    if s == [] then [] else [TitleChar(s[0], afterCased)] + TitleFrom(s[1..], IsCased(s[0]))
  }

  lemma {:induction false} TitleFromAt(s: string, afterCased: bool, i: nat)
    requires i < |s|
    ensures TitleFrom(s, afterCased)[i] == TitleChar(s[i], if i == 0 then afterCased else IsCased(s[i - 1]))
    decreases i
  {
    if i > 0 {
      TitleFromAt(s[1..], IsCased(s[0]), i - 1);
    }
  }

  /** `str.title()`: a letter is upper-cased when the character before it
      is not a letter, lower-cased when it is; everything else is kept. */
  function Title(s: string): (r: string)
    ensures |r| == |s|
    ensures forall i :: 0 <= i < |s| ==> r[i] == TitleChar(s[i], i > 0 && IsCased(s[i - 1]))
  {
    var r := TitleFrom(s, false);
    forall i | 0 <= i < |s| ensures r[i] == TitleChar(s[i], i > 0 && IsCased(s[i - 1])) {
      TitleFromAt(s, false, i);
    }
    r
  }

  /** Title-casing a title changes nothing. */
  lemma TitleIdempotent(s: string)
    ensures Title(Title(s)) == Title(s)
  {
    var t := Title(s);
    forall i | 0 <= i < |s| ensures Title(t)[i] == t[i] {
      if i > 0 {
        assert t[i - 1] == TitleChar(s[i - 1], i - 1 > 0 && IsCased(s[i - 2]));
      }
    }
  }

  /** A keyword of two lower-case words gets a capital at the start of
      each word. */
  lemma TitleExample(s: string)
    requires s == "cold brew"
    ensures Title(s) == "Cold Brew"
  {
    var t := Title(s);
    assert s[0] == 'c' && s[1] == 'o' && s[2] == 'l' && s[3] == 'd' && s[4] == ' ';
    assert s[5] == 'b' && s[6] == 'r' && s[7] == 'e' && s[8] == 'w';
    assert t[0] == 'C' && t[1] == 'o' && t[2] == 'l' && t[3] == 'd' && t[4] == ' ';
    assert t[5] == 'B' && t[6] == 'r' && t[7] == 'e' && t[8] == 'w';
  }

  /** One `##` section of the outline with its two bullet points. */
  datatype Section = Section(heading: string, first: string, second: string)

  const Sections: seq<Section> := [
    Section("简介", "定义概念", "为什么重要"),
    Section("好处", "好处 1", "好处 2"),
    Section("工作原理", "概念 1", "概念 2"),
    Section("最佳实践", "实践 1", "实践 2"),
    Section("常见错误", "错误 1", "错误 2"),
    Section("工具", "工具 1", "工具 2"),
    Section("常见问题", "Q1: ...?", "Q2: ...?"),
    Section("结论", "总结", "下一步")
  ]

  function SectionText(s: Section): string
  {
    "\n## " + s.heading + "\n- " + s.first + "\n- " + s.second + "\n"
  }

  function SectionsText(sections: seq<Section>): string
  {
    if sections == [] then "" else SectionText(sections[0]) + SectionsText(sections[1..])
  }

  /** Everything after the title line: the same for every keyword. */
  const OutlineBody: string := SectionsText(Sections)

  /** The outline: a `#` title line with the title-cased keyword, then the
      eight fixed sections. */
  function Outline(keyword: string): string
  {
    "# " + Title(keyword) + "\n" + OutlineBody
  }

  /** Only the title line depends on the keyword: two keywords give the
      same outline exactly when they title-case alike. */
  lemma OutlineDependsOnlyOnTitle(a: string, b: string)
    ensures Outline(a) == Outline(b) <==> Title(a) == Title(b)
  {
    TitleLineDetermines(Title(a), Title(b), OutlineBody);
  }

  /** The title line of an outline-shaped text can be read back from it. */
  lemma TitleLineDetermines(ta: string, tb: string, body: string)
    ensures "# " + ta + "\n" + body == "# " + tb + "\n" + body <==> ta == tb
  {
    SameFrame("# ", ta, tb, "\n" + body);
    assert "# " + ta + "\n" + body == "# " + ta + ("\n" + body);
    assert "# " + tb + "\n" + body == "# " + tb + ("\n" + body);
  }

  /** Text between a fixed start and a fixed end is recovered from the
      whole. */
  lemma SameFrame(start: string, x: string, y: string, end: string)
    ensures start + x + end == start + y + end <==> x == y
  {
    if start + x + end == start + y + end {
      assert x == (start + x + end)[|start|..|start| + |x|];
      assert y == (start + y + end)[|start|..|start| + |y|];
    }
  }

  /** The outline opens with the title line and has eight sections. */
  lemma OutlineShape(keyword: string)
    ensures StartsWith(Outline(keyword), "# " + Title(keyword) + "\n")
    ensures Outline(keyword)[|Title(keyword)| + 3..] == SectionsText(Sections)
    ensures |Sections| == 8
  {
    var head := "# " + Title(keyword) + "\n";
    assert Outline(keyword) == head + OutlineBody;
    assert Outline(keyword)[..|head|] == head;
  }

  /** `int(W * 0.9)` and `int(W * 1.1)`, in exact arithmetic. */
  function WordRange(w: nat): (range: (nat, nat))
    ensures range.0 <= w <= range.1
    ensures 10 * range.0 <= 9 * w < 10 * (range.0 + 1)
    ensures 10 * range.1 <= 11 * w < 10 * (range.1 + 1)
  {
    (w * 9 / 10, w * 11 / 10)
  }

  const PromptIntro: string := "你是专业的 SEO 内容创作者。根据以下要求写一篇文章。\n\n【要求】\n- 关键词："
  const PromptCount: string := "\n- 字数："
  const PromptUnit: string := " 字"
  const PromptFormat: string := "\n- 格式：Markdown\n\n【大纲】\n"
  const PromptInstructions: string := "\n\n【关键指令】\n1. 避免 AI 风格\n   - 说\"我发现...\"而不是\"研究表明...\"\n   - 表达真实观点\n   - 避免：\"在当今...\",\"综合来看...\",\"值得一提的是...\"\n\n2. 添加个人经验\n   - 至少 2-3 个真实案例\n   - 分享失败经历\n   - 使用具体数字\n\n3. 变化句式结构\n   - 混合短句和长句\n   - 每段 3-4 句\n   - 段落开头用主题句\n\n4. 创造对话感\n   - 使用修辞性问题\n   - 表达困惑和思考\n   - 邀请读者思考\n\n【SEO 优化】\n- 关键词密度：1-2%\n- 在前 100 字出现主关键词\n- 在 H2/H3 中融入长尾词\n- 包含列表和表格\n- 包含 FAQ 部分\n\n现在请写出这篇文章。字数 "

  /** The closing sentence with the length range. */
  function RangeSentence(w: nat): string
  {
    Decimal(WordRange(w).0) + " - " + Decimal(WordRange(w).1) + " 之间。"
  }

  /** The writing prompt for `keyword`, a target of `w` words and the
      outline. */
  function Prompt(keyword: string, w: nat, outline: string): string
  {
    PromptIntro + keyword + PromptCount + Grouped(w) + PromptUnit + PromptFormat + outline + PromptInstructions + RangeSentence(w)
  }

  /** The prompt names the keyword. */
  lemma PromptShowsKeyword(keyword: string, w: nat, outline: string)
    ensures Contains(Prompt(keyword, w, outline), keyword)
  {
    assert StartsWith(keyword, keyword);
    ContainsSuffix(PromptIntro, keyword, keyword);
    PromptKeepsHead(PromptIntro + keyword, keyword, w, outline);
  }

  /** An occurrence in the prompt's text up to the keyword stays one in
      the whole prompt. */
  lemma PromptKeepsHead(head: string, pattern: string, w: nat, outline: string)
    requires Contains(head, pattern)
    ensures Contains(head + PromptCount + Grouped(w) + PromptUnit + PromptFormat + outline + PromptInstructions + RangeSentence(w), pattern)
  {
    var s := head + PromptCount + Grouped(w) + PromptUnit;
    ContainsPrefix(head, PromptCount, pattern);
    ContainsPrefix(head + PromptCount, Grouped(w), pattern);
    ContainsPrefix(head + PromptCount + Grouped(w), PromptUnit, pattern);
    PromptKeepsMiddle(s, pattern, outline, w);
  }

  /** An occurrence in the prompt's text up to the count stays one in the
      whole prompt. */
  lemma PromptKeepsMiddle(head: string, pattern: string, outline: string, w: nat)
    requires Contains(head, pattern)
    ensures Contains(head + PromptFormat + outline + PromptInstructions + RangeSentence(w), pattern)
  {
    ContainsPrefix(head, PromptFormat, pattern);
    ContainsPrefix(head + PromptFormat, outline, pattern);
    ContainsPrefix(head + PromptFormat + outline, PromptInstructions, pattern);
    ContainsPrefix(head + PromptFormat + outline + PromptInstructions, RangeSentence(w), pattern);
  }

  /** The prompt shows the target with thousands separators. */
  lemma PromptShowsCount(keyword: string, w: nat, outline: string)
    ensures Contains(Prompt(keyword, w, outline), PromptCount + Grouped(w) + PromptUnit)
  {
    var head := PromptIntro + keyword;
    var shown := PromptCount + Grouped(w) + PromptUnit;
    assert StartsWith(shown, shown);
    ContainsSuffix(head, shown, shown);
    AppendAssoc(head, PromptCount + Grouped(w), PromptUnit);
    AppendAssoc(head, PromptCount, Grouped(w));
    PromptKeepsMiddle(head + PromptCount + Grouped(w) + PromptUnit, shown, outline, w);
  }

  /** The prompt embeds the outline unchanged. */
  lemma PromptShowsOutline(keyword: string, w: nat, outline: string)
    ensures Contains(Prompt(keyword, w, outline), outline)
  {
    var before := PromptIntro + keyword + PromptCount + Grouped(w) + PromptUnit + PromptFormat;
    var after := PromptInstructions + RangeSentence(w);
    assert Prompt(keyword, w, outline) == before + outline + after;
    ContainsInside(before, outline, after);
  }

  /** The prompt closes with the length range. */
  lemma PromptEndsWithRange(keyword: string, w: nat, outline: string)
    ensures EndsWith(Prompt(keyword, w, outline), RangeSentence(w))
  {
    var p := Prompt(keyword, w, outline);
    var before := PromptIntro + keyword + PromptCount + Grouped(w) + PromptUnit + PromptFormat + outline + PromptInstructions;
    assert p == before + RangeSentence(w);
    assert p[|before|..] == RangeSentence(w);
  }

  /** `title = keyword.title()` followed by the five page titles. */
  function PageTitles(kt: string): (r: seq<string>)
    ensures |r| == 5
    ensures forall k :: 0 <= k < |r| ==> Contains(r[k], kt)
  {
    [
      Around("The Ultimate ", kt, " Guide: Complete Step-by-Step [2024]"),
      Around("How to ", kt, ": Expert Strategies & Best Practices"),
      Around("What is ", kt, "? Complete Beginner's Guide"),
      Around("", kt, " 101: Everything You Need to Know"),
      Around("Best ", kt, " Tips: Proven Strategies from Experts")
    ]
  }

  /** `before + text + after`, which contains `text`. */
  function Around(before: string, text: string, after: string): (r: string)
    ensures Contains(r, text)
  {
    ContainsInside(before, text, after);
    before + text + after
  }

  const LearnTail: string := " with our comprehensive guide. Discover strategies, best practices, examples, and expert tips."
  const GuideTail: string := ". Get step-by-step instructions, proven tactics, and professional insights."
  const MasterTail: string := " with our resource. Includes tips, tools, case studies, and everything you need."
  const EverythingTail: string := " here. Guide, strategies, examples, and actionable advice."

  /** The four meta descriptions. */
  function Descriptions(kt: string): (r: seq<string>)
    ensures |r| == 4
    ensures forall k :: 0 <= k < |r| ==> Contains(r[k], kt)
  {
    [
      Around("Learn ", kt, LearnTail),
      Around("Complete guide to ", kt, GuideTail),
      Around("Master ", kt, MasterTail),
      Around("Everything about ", kt, EverythingTail)
    ]
  }

  /** One numbered entry of `seo_titles.txt`. */
  function Entry(i: nat, text: string): string
  {
    Decimal(i) + ". " + text + Sep + Sep
  }

  /** The entries numbered 1, 2, ... in order. */
  function Entries(items: seq<string>): string
  {
    if items == [] then "" else Entries(items[..|items| - 1]) + Entry(|items|, items[|items| - 1])
  }

  /** Every item appears in the file as its own numbered entry. */
  lemma {:induction false} EntriesList(items: seq<string>)
    ensures forall k :: 0 <= k < |items| ==> Contains(Entries(items), Entry(k + 1, items[k]))
  {
    if items != [] {
      var n := |items|;
      var front := items[..n - 1];
      EntriesList(front);
      var e := Entries(items);
      forall k | 0 <= k < n ensures Contains(e, Entry(k + 1, items[k])) {
        if k == n - 1 {
          ContainsInside(Entries(front), Entry(n, items[n - 1]), "");
          assert Entries(front) + Entry(n, items[n - 1]) + "" == e;
        } else {
          assert front[k] == items[k];
          ContainsPrefix(Entries(front), Entry(n, items[n - 1]), Entry(k + 1, items[k]));
        }
      }
    }
  }

  /** The text written to `seo_titles.txt`. */
  function SeoTitlesText(titles: seq<string>, descriptions: seq<string>): string
  {
    "Page Titles" + Sep + Sep + Entries(titles) + Sep + "Meta Descriptions" + Sep + Sep + Entries(descriptions)
  }

  const SearchPrefix: string := "https://www.google.com/search?q="

  /** `f"https://www.google.com/search?q={quote(keyword)}"`: after the
      fixed prefix only unreserved characters and percent escapes. */
  function SearchUrl(keyword: string): (url: string)
    ensures StartsWith(url, SearchPrefix)
    ensures forall i :: |SearchPrefix| <= i < |url| ==> IsUrlSafe(url[i]) || url[i] == '%'
    ensures Unquote(url[|SearchPrefix|..]) == keyword
  {
    var query := Quote(keyword);
    QuoteRoundTrip(keyword);
    PrefixedQuery(SearchPrefix, query);
    SearchPrefix + query
  }

  /** A URL made of a prefix and a query: the query is what follows the
      prefix. */
  lemma PrefixedQuery(prefix: string, query: string)
    ensures StartsWith(prefix + query, prefix)
    ensures (prefix + query)[|prefix|..] == query
    ensures forall i :: |prefix| <= i < |prefix + query| ==> (prefix + query)[i] == query[i - |prefix|]
  {
    assert (prefix + query)[..|prefix|] == prefix;
  }
}
