/** The web search agent of cookbook/web_search_agent.py: the two text
    formatters it registers as tools (`extract_context` and
    `format_output`) and the five-step chain `build_web_search_flow` wires.
    The search, scraping and LLM steps are network code and not modelled. */
module WebSearch {

  import opened Values
  import opened FlowData
  import opened Graph
  import Text
  import Flow

  // ---- formatting helpers ----

  /** `c * n`. */
  function Repeat(c: char, n: nat): (r: string)
    ensures |r| == n && forall i :: 0 <= i < n ==> r[i] == c
  {
    seq(n, _ => c)
  }

  /** `s[:n]`. */
  function Prefix(s: string, n: nat): (r: string)
    ensures |r| == if |s| <= n then |s| else n
    ensures r == s[..|r|]
  {
    if |s| <= n then s else s[..n]
  }

  /** `d.get(key, default)`. */
  function Get(d: map<string, Value>, key: string, default: Value): (v: Value)
    ensures key in d ==> v == d[key]
    ensures key !in d ==> v == default
  {
    if key in d then d[key] else default
  }

  /** A value placed in an f-string. `str()` of a float, list or dict is
      not modelled and is refused as TypeError. */
  function Shown(v: Value): (r: Result<string>)
    ensures r.Ok? <==> Text.Display(v).Some?
    ensures r.Ok? ==> r.value == Text.Display(v).value
    ensures r.Err? ==> r.error == TypeError
  {
    match Text.Display(v)
    case Some(s) => Ok(s)
    case None => Err(TypeError)
  }

  lemma ShownString(s: string)
    ensures Shown(VStr(s)) == Ok(s)
  {
  }

  /** `s.startswith(p)` and `s.endswith(p)`. */
  predicate EndsWith(s: string, suffix: string) {
    |suffix| <= |s| && s[|s| - |suffix|..] == suffix
  }

  // ---- extract_context ----

  const NoResults: string := "No search results available."

  /** How many characters of a result's content go into its block. */
  const ContentLimit: nat := 1000

  /** `result.get("scraped_content") or result.get("content", "No content")`. */
  function ContentOf(result: map<string, Value>): (v: Value)
    ensures "scraped_content" in result && Truthy(result["scraped_content"]) ==> v == result["scraped_content"]
    ensures !("scraped_content" in result && Truthy(result["scraped_content"])) ==>
      v == Get(result, "content", VStr("No content"))
  {
    if "scraped_content" in result && Truthy(result["scraped_content"]) then result["scraped_content"]
    else Get(result, "content", VStr("No content"))
  }

  /** The text block of the `i`-th result. */
  function Block(i: nat, title: string, url: string, content: string): string {
    SourceTag(i) + Fields(title, url) + ContentLine(content) + Repeat('-', 80)
  }

  function SourceTag(i: nat): string {
    "[Source " + Text.IntToString(i) + "]\n"
  }

  function Fields(title: string, url: string): string {
    "Title: " + title + "\n" + "URL: " + url + "\n"
  }

  function ContentLine(content: string): string {
    "Content: " + Prefix(content, ContentLimit) + "...\n"
  }

  /** The block of the `i`-th result, or what Python raises on it: a
      result without `get` is an AttributeError, content that cannot be
      sliced a TypeError. */
  function BlockOf(i: nat, result: Value): (r: Result<string>)
    ensures !result.VDict? ==> r == Err(AttributeError)
    ensures r.Ok? ==> result.VDict?
    ensures r.Ok? ==>
      var title := Shown(Get(result.fields, "title", VStr("Untitled")));
      var url := Shown(Get(result.fields, "url", VStr("")));
      var content := ContentOf(result.fields);
      title.Ok? && url.Ok? && content.VStr? && r.value == Block(i, title.value, url.value, content.s)
  {
    if !result.VDict? then Err(AttributeError)
    else
      var d := result.fields;
      var title :- Shown(Get(d, "title", VStr("Untitled")));
      var url :- Shown(Get(d, "url", VStr("")));
      var content := ContentOf(d);
      if !content.VStr? then Err(TypeError)
      else Ok(Block(i, title, url, content.s))
  }

  /** The blocks of `results`, numbered from 1; the first failing result
      decides the error. */
  function Blocks(results: seq<Value>): Result<seq<string>> {
    if results == [] then Ok([])
    else
      var init :- Blocks(results[..|results| - 1]);
      var b :- BlockOf(|results|, results[|results| - 1]);
      Ok(init + [b])
  }

  /** `extract_context(search_results)`: a falsy argument gives the fixed
      message; a list gives its blocks joined by newlines; iterating a
      string or dict yields strings, which have no `get`; other values are
      not iterable. */
  function ExtractContextSpec(searchResults: Value): Result<string> {
    if !Truthy(searchResults) then Ok(NoResults)
    else
      match searchResults
      case VList(items) =>
        var blocks :- Blocks(items);
        Ok(Text.Join("\n", blocks))
      case VStr(_) => Err(AttributeError)
      case VDict(_) => Err(AttributeError)
      case _ => Err(TypeError)
  }

  /** Once a prefix of the results fails, the whole list fails the same way. */
  lemma {:induction false} BlocksErrPropagates(results: seq<Value>, k: nat)
    requires k <= |results| && Blocks(results[..k]).Err?
    ensures Blocks(results) == Blocks(results[..k])
    decreases |results|
  {
    if k < |results| {
      var init := results[..|results| - 1];
      assert init[..k] == results[..k];
      BlocksErrPropagates(init, k);
    } else {
      assert results[..k] == results;
    }
  }

  /** The `i`-th block (from 0) is the block of the `i`-th result numbered
      `i + 1`, and there is one block per result. */
  lemma {:induction false} BlocksAreNumbered(results: seq<Value>)
    requires Blocks(results).Ok?
    ensures var bs := Blocks(results).value;
      |bs| == |results| &&
      forall i :: 0 <= i < |results| ==> BlockOf(i + 1, results[i]) == Ok(bs[i])
    decreases |results|
  {
    if results != [] {
      var init := results[..|results| - 1];
      BlocksAreNumbered(init);
    }
  }

  /** Every block starts with its tag `[Source i]`, shows at most
      `ContentLimit` characters of content followed by "...", and ends with
      a rule of 80 dashes. */
  lemma BlockShape(i: nat, title: string, url: string, content: string)
    ensures StartsWith(Block(i, title, url, content), "[Source " + Text.IntToString(i) + "]\n")
    ensures EndsWith(Block(i, title, url, content), "...\n" + Repeat('-', 80))
    ensures Text.IsFactor("Content: " + Prefix(content, ContentLimit) + "...\n", Block(i, title, url, content))
    ensures |Prefix(content, ContentLimit)| <= ContentLimit
  {
    var tag, mid, rule := SourceTag(i), Fields(title, url), Repeat('-', 80);
    Framed(tag, mid, ContentLine(content), rule);
    Infix(tag + mid, ContentLine(content), rule);
    EndsWithTail(tag + mid, "Content: " + Prefix(content, ContentLimit), rule);
  }

  lemma Framed(a: string, b: string, c: string, d: string)
    ensures StartsWith(a + b + c + d, a)
  {
    assert (a + b + c + d)[..|a|] == a;
  }

  lemma EndsWithTail(a: string, b: string, c: string)
    ensures EndsWith(a + (b + "...\n") + c, "...\n" + c)
  {
    assert (a + (b + "...\n") + c)[|a| + |b|..] == "...\n" + c;
  }

  /** A result with neither title nor url nor any content shows the
      defaults "Untitled", "" and "No content". */
  lemma BlockDefaults(i: nat, d: map<string, Value>)
    requires "title" !in d && "url" !in d && "scraped_content" !in d && "content" !in d
    ensures BlockOf(i, VDict(d)) == Ok(Block(i, "Untitled", "", "No content"))
  {
    ShownString("Untitled");
    ShownString("");
  }

  /** Truthy scraped content is shown in place of the search snippet. */
  lemma ScrapedContentWins(i: nat, d: map<string, Value>, scraped: string)
    requires "scraped_content" in d && d["scraped_content"] == VStr(scraped) && scraped != ""
    requires BlockOf(i, VDict(d)).Ok?
    ensures Text.IsFactor("Content: " + Prefix(scraped, ContentLimit) + "...\n", BlockOf(i, VDict(d)).value)
  {
    var title := Shown(Get(d, "title", VStr("Untitled"))).value;
    var url := Shown(Get(d, "url", VStr(""))).value;
    BlockShape(i, title, url, scraped);
  }

  /** `extract_context`: collects one block per result in a loop, then
      joins them. */
  method ExtractContext(searchResults: Value) returns (r: Result<string>)
    ensures r == ExtractContextSpec(searchResults)
  {
    if !Truthy(searchResults) {
      return Ok(NoResults);
    }
    if !searchResults.VList? {
      r := if searchResults.VStr? || searchResults.VDict? then Err(AttributeError) else Err(TypeError);
      return;
    }
    var items := searchResults.items;
    var parts: seq<string> := [];
    for i := 0 to |items|
      invariant Blocks(items[..i]) == Ok(parts)
    {
      assert items[..i + 1][..i] == items[..i];
      var b := BlockOf(i + 1, items[i]);
      if b.Err? {
        assert Blocks(items[..i + 1]) == Err(b.error);
        BlocksErrPropagates(items, i + 1);
        return Err(b.error);
      }
      parts := parts + [b.value];
    }
    assert items[..|items|] == items;
    return Ok(Text.Join("\n", parts));
  }

  /** What `extract_context` returns for a list of results: the numbered
      blocks joined by newlines, one per result, each of which occurs in
      the context. */
  lemma ExtractContextBlocks(items: seq<Value>)
    requires items != [] && Blocks(items).Ok?
    ensures ExtractContextSpec(VList(items)) == Ok(Text.Join("\n", Blocks(items).value))
    ensures |Blocks(items).value| == |items|
    ensures forall i :: 0 <= i < |items| ==>
      BlockOf(i + 1, items[i]) == Ok(Blocks(items).value[i]) &&
      Text.IsFactor(Blocks(items).value[i], Text.Join("\n", Blocks(items).value))
  {
    var bs := Blocks(items).value;
    BlocksAreNumbered(items);
    forall i | 0 <= i < |items|
      ensures Text.IsFactor(bs[i], Text.Join("\n", bs))
    {
      Text.JoinHasFactor("\n", bs, i);
    }
  }

  // ---- format_output ----

  /** The 80-character rules of the report. */
  const Rule: string := Repeat('=', 80)
  const ThinRule: string := Repeat('\U{2500}', 80)

  /** The cross mark that prefixes a failed answer. */
  const Cross: string := "\U{274C} "

  /** What comes between the header and the closing rule: the answer and
      the model on success, otherwise the marked answer. */
  function Body(d: map<string, Value>): (r: Result<string>)
    ensures "answer" !in d ==> r == Err(KeyError("answer"))
  {
    if "answer" !in d then Err(KeyError("answer"))
    else if Truthy(Get(d, "success", VNone)) then
      if !d["answer"].VStr? then Err(TypeError)
      else
        var model :- Shown(Get(d, "model", VStr("Unknown")));
        Ok(d["answer"].s + "\n\n" + ThinRule + "\n" + "Model: " + model + "\n")
    else
      var answer :- Shown(d["answer"]);
      Ok(Cross + answer + "\n")
  }

  /** The header: a rule, the question, a rule and an empty line. */
  function Header(question: string): string {
    "\n" + Rule + "\n" + "QUESTION: " + question + "\n" + Rule + "\n\n"
  }

  /** `format_output(summary, question)`. */
  function FormatOutputSpec(summary: Value, question: Value): Result<string> {
    var q :- Shown(question);
    if !summary.VDict? then Err(AttributeError)
    else
      var body :- Body(summary.fields);
      Ok(Header(q) + body + Rule + "\n")
  }

  /** `format_output`: the report is accumulated with `+=`. */
  method FormatOutput(summary: Value, question: Value) returns (r: Result<string>)
    ensures r == FormatOutputSpec(summary, question)
  {
    var q := Shown(question);
    if q.Err? {
      return Err(q.error);
    }
    var output := "\n" + Rule + "\n";
    output := output + "QUESTION: " + q.value + "\n";
    output := output + Rule + "\n\n";
    assert output == Header(q.value);
    if !summary.VDict? {
      return Err(AttributeError);
    }
    var d := summary.fields;
    if Truthy(Get(d, "success", VNone)) {
      if "answer" !in d {
        return Err(KeyError("answer"));
      }
      if !d["answer"].VStr? {
        return Err(TypeError);
      }
      output := output + d["answer"].s;
      output := output + "\n\n" + ThinRule + "\n";
      var model := Shown(Get(d, "model", VStr("Unknown")));
      if model.Err? {
        return Err(model.error);
      }
      output := output + "Model: " + model.value + "\n";
      assert output == Header(q.value) + Body(d).value;
    } else {
      if "answer" !in d {
        return Err(KeyError("answer"));
      }
      var answer := Shown(d["answer"]);
      if answer.Err? {
        return Err(answer.error);
      }
      output := output + Cross + answer.value + "\n";
      assert output == Header(q.value) + Body(d).value;
    }
    output := output + Rule + "\n";
    return Ok(output);
  }

  /** The middle of a concatenation occurs in it. */
  lemma Infix(a: string, w: string, c: string)
    ensures Text.IsFactor(w, a + w + c)
  {
    assert (a + w + c)[|a|..|a| + |w|] == w;
  }

  /** A report is the header, the body and the closing rule. */
  lemma ReportIsFramed(summary: Value, question: Value)
    requires FormatOutputSpec(summary, question).Ok?
    ensures Shown(question).Ok? && summary.VDict? && Body(summary.fields).Ok?
    ensures FormatOutputSpec(summary, question).value ==
      Header(Shown(question).value) + Body(summary.fields).value + (Rule + "\n")
  {
  }

  /** Every report opens with a newline and a rule and closes with a rule
      and a newline, and shows the question. */
  lemma ReportFrame(summary: Value, question: Value)
    requires FormatOutputSpec(summary, question).Ok?
    ensures var out := FormatOutputSpec(summary, question).value;
      StartsWith(out, "\n" + Rule + "\n") && EndsWith(out, Rule + "\n") &&
      Text.IsFactor("QUESTION: " + Shown(question).value + "\n", out)
  {
    ReportIsFramed(summary, question);
    FrameOf(Shown(question).value, Body(summary.fields).value);
  }

  lemma FrameOf(q: string, body: string)
    ensures var out := Header(q) + body + (Rule + "\n");
      StartsWith(out, "\n" + Rule + "\n") && EndsWith(out, Rule + "\n") &&
      Text.IsFactor("QUESTION: " + q + "\n", out)
  {
    var opening := "\n" + Rule + "\n";
    var line := "QUESTION: " + q + "\n";
    var close := Rule + "\n";
    var rest := Rule + "\n\n" + body;
    var out := Header(q) + body + close;
    assert out == opening + line + rest + close;
    assert out[..|opening|] == opening;
    Infix(opening, line, rest + close);
    assert opening + line + rest + close == opening + line + (rest + close);
    assert out[|out| - |close|..] == close;
  }

  /** On success the report shows the answer and the model (or "Unknown"). */
  lemma ReportOnSuccess(d: map<string, Value>, question: Value)
    requires Truthy(Get(d, "success", VNone))
    requires FormatOutputSpec(VDict(d), question).Ok?
    ensures "answer" in d && d["answer"].VStr?
    ensures var out := FormatOutputSpec(VDict(d), question).value;
      var model := Shown(Get(d, "model", VStr("Unknown"))).value;
      Text.IsFactor(d["answer"].s, out) && Text.IsFactor("Model: " + model + "\n", out)
  {
    ReportIsFramed(VDict(d), question);
    var answer := d["answer"].s;
    var mid := "\n\n" + ThinRule + "\n";
    var line := "Model: " + Shown(Get(d, "model", VStr("Unknown"))).value + "\n";
    assert Body(d).value == answer + mid + line;
    SuccessParts(Header(Shown(question).value), answer, mid, line);
  }

  lemma SuccessParts(head: string, answer: string, mid: string, line: string)
    ensures var out := head + (answer + mid + line) + (Rule + "\n");
      Text.IsFactor(answer, out) && Text.IsFactor(line, out)
  {
    var close := Rule + "\n";
    Infix(head, answer, mid + line + close);
    Infix(head + answer + mid, line, close);
    assert head + (answer + mid + line) + close == head + answer + (mid + line + close);
    assert head + (answer + mid + line) + close == head + answer + mid + line + close;
  }

  /** Otherwise the report shows the answer after a cross mark. */
  lemma ReportOnFailure(d: map<string, Value>, question: Value)
    requires !Truthy(Get(d, "success", VNone))
    requires FormatOutputSpec(VDict(d), question).Ok?
    ensures "answer" in d && Shown(d["answer"]).Ok?
    ensures var out := FormatOutputSpec(VDict(d), question).value;
      Text.IsFactor(Cross + Shown(d["answer"]).value + "\n", out)
  {
    ReportIsFramed(VDict(d), question);
    var head := Header(Shown(question).value);
    var line := Cross + Shown(d["answer"]).value + "\n";
    assert Body(d).value == line;
    Infix(head, line, Rule + "\n");
  }

  // ---- build_web_search_flow ----

  function SearchStep(question: string): Step {
    Step("search", "web_search", map["query" := VStr(question), "max_results" := VInt(3)])
  }

  const ScrapeStep: Step :=
    Step("scrape", "scrape_urls", map["search_results" := VStr("$result.search"), "max_pages" := VInt(2)])
  const ExtractStep: Step := Step("extract", "extract_context", map["search_results" := VStr("$result.scrape")])

  function SummarizeStep(question: string): Step {
    Step("summarize", "llm_summarize", map["question" := VStr(question), "context" := VStr("$result.extract")])
  }

  function FormatStep(question: string): Step {
    Step("format", "format_output", map["summary" := VStr("$result.summarize"), "question" := VStr(question)])
  }

  function WebSearchSteps(question: string): seq<Step> {
    [SearchStep(question), ScrapeStep, ExtractStep, SummarizeStep(question), FormatStep(question)]
  }

  const WebSearchEdges: seq<Edge> :=
    [("search", "scrape"), ("scrape", "extract"), ("extract", "summarize"), ("summarize", "format")]

  function WebSearchFlowData(question: string): DagData {
    DagData("web-search-agent", DefaultVersion, WebSearchSteps(question), WebSearchEdges)
  }

  /** The first three `.step(...)` calls of `build_web_search_flow`. */
  method AddSearchSteps(b: Flow.FlowBuilder, question: string)
    requires b.flow.steps == []
    modifies b.flow
    ensures b.flow.Data() == old(b.flow.Data()).(steps := [SearchStep(question), ScrapeStep, ExtractStep])
  {
    var built := b.Step("search", "web_search", map["query" := VStr(question), "max_results" := VInt(3)]);
    assert b.flow.steps == [SearchStep(question)];
    built := b.Step("scrape", "scrape_urls", map["search_results" := VStr("$result.search"), "max_pages" := VInt(2)]);
    assert b.flow.steps == [SearchStep(question), ScrapeStep];
    built := b.Step("extract", "extract_context", map["search_results" := VStr("$result.scrape")]);
  }

  /** The last two `.step(...)` calls of `build_web_search_flow`. */
  method AddAnswerSteps(b: Flow.FlowBuilder, question: string)
    requires b.flow.steps == [SearchStep(question), ScrapeStep, ExtractStep]
    modifies b.flow
    ensures b.flow.Data() == old(b.flow.Data()).(steps := WebSearchSteps(question))
  {
    var built := b.Step("summarize", "llm_summarize", map["question" := VStr(question), "context" := VStr("$result.extract")]);
    assert b.flow.steps == [SearchStep(question), ScrapeStep, ExtractStep, SummarizeStep(question)];
    built := b.Step("format", "format_output", map["summary" := VStr("$result.summarize"), "question" := VStr(question)]);
  }

  /** The four `.edge(...)` calls of `build_web_search_flow`. */
  method AddWebSearchEdges(b: Flow.FlowBuilder, question: string)
    requires b.flow.steps == WebSearchSteps(question) && b.flow.edges == []
    modifies b.flow
    ensures b.flow.Data() == old(b.flow.Data()).(edges := WebSearchEdges)
  {
    WebSearchHasSteps(question);
    var built := b.Edge("search", "scrape");
    built := b.Edge("scrape", "extract");
    built := b.Edge("extract", "summarize");
    built := b.Edge("summarize", "format");
  }

  lemma WebSearchHasSteps(question: string)
    ensures var steps := WebSearchSteps(question);
      HasStep(steps, "search") && HasStep(steps, "scrape") && HasStep(steps, "extract") &&
      HasStep(steps, "summarize") && HasStep(steps, "format")
  {
    var steps := WebSearchSteps(question);
    assert steps[0].id == "search" && steps[1].id == "scrape" && steps[2].id == "extract";
    assert steps[3].id == "summarize" && steps[4].id == "format";
  }

  /** `build_web_search_flow(question)`: five steps and the four edges of
      the chain search -> scrape -> extract -> summarize -> format. */
  method BuildWebSearchFlow(question: string) returns (f: Flow.DagFlow)
    ensures f.Data() == WebSearchFlowData(question)
  {
    var b := Flow.Dag("web-search-agent", None);
    AddSearchSteps(b, question);
    AddAnswerSteps(b, question);
    AddWebSearchEdges(b, question);
    f := b.Build();
  }

  lemma WebSearchIds(question: string)
    ensures IdSet(WebSearchSteps(question)) == {"search", "scrape", "extract", "summarize", "format"}
  {
    var steps := WebSearchSteps(question);
    assert steps[0] in steps && steps[1] in steps && steps[2] in steps && steps[3] in steps && steps[4] in steps;
  }

  lemma WebSearchIdCount()
    ensures |{"search", "scrape", "extract", "summarize", "format"}| == 5
  {
    var three := {"search", "scrape", "format"};
    assert "search"[1] != "scrape"[1] && "search"[0] != "format"[0] && "scrape"[0] != "format"[0];
    assert |three| == 3;
    assert |"extract"| == 7 && |"summarize"| == 9;
    var four := three + {"extract"};
    assert |four| == 4;
    assert |four + {"summarize"}| == 5;
    assert {"search", "scrape", "extract", "summarize", "format"} == four + {"summarize"};
  }

  lemma WebSearchOrderLength(question: string, order: seq<string>)
    requires IsTopoOrder(order, IdSet(WebSearchSteps(question)), WebSearchEdges)
    ensures |order| == 5
  {
    WebSearchIds(question);
    DistinctSetCard(order);
    WebSearchIdCount();
    assert SetOf(order) == {"search", "scrape", "extract", "summarize", "format"};
  }

  /** In a dependency order of the flow, search comes first and scrape
      second. */
  lemma WebSearchOrderHead(question: string, order: seq<string>)
    requires IsTopoOrder(order, IdSet(WebSearchSteps(question)), WebSearchEdges)
    ensures |order| == 5 && order[0] == "search" && order[1] == "scrape"
  {
    WebSearchIds(question);
    WebSearchOrderLength(question, order);
    var e := WebSearchEdges;
    assert order[0] in order && order[1] in order;
    assert PredsIn(order[0], order[..0], e);
    assert order[0] == "search" by {
      assert e[0].1 == "scrape" && e[1].1 == "extract" && e[2].1 == "summarize" && e[3].1 == "format";
    }
    assert PredsIn(order[1], order[..1], e);
    assert order[1] == "scrape" by {
      assert order[1] != order[0];
      assert e[1].1 == "extract" && e[1].0 !in order[..1];
      assert e[2].1 == "summarize" && e[2].0 !in order[..1];
      assert e[3].1 == "format" && e[3].0 !in order[..1];
    }
  }

  /** The only dependency order of the flow is the chain
      search, scrape, extract, summarize, format. */
  lemma WebSearchOrder(question: string, order: seq<string>)
    requires IsTopoOrder(order, IdSet(WebSearchSteps(question)), WebSearchEdges)
    ensures order == ["search", "scrape", "extract", "summarize", "format"]
  {
    WebSearchOrderHead(question, order);
    WebSearchIds(question);
    var e := WebSearchEdges;
    assert order[2] in order && order[3] in order && order[4] in order;
    assert PredsIn(order[2], order[..2], e);
    assert order[2] == "extract" by {
      assert order[2] != order[0] && order[2] != order[1];
      assert e[2].1 == "summarize" && e[2].0 !in order[..2];
      assert e[3].1 == "format" && e[3].0 !in order[..2];
    }
    assert PredsIn(order[3], order[..3], e);
    assert order[3] == "summarize" by {
      assert order[3] != order[0] && order[3] != order[1] && order[3] != order[2];
      assert e[3].1 == "format" && e[3].0 !in order[..3];
    }
    assert order[4] == "format" by {
      assert order[4] != order[0] && order[4] != order[1] && order[4] != order[2] && order[4] != order[3];
    }
  }
}
