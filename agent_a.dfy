/** Reference agent A (examples/agent_a.py): download a page, parse it into
    word records, rank the records by score and report the top ones, wired
    as the four-step DAG download -> parse -> rank -> out. */
module AgentA {

  import opened Values
  import opened FlowData
  import opened Graph
  import Text
  import Observability
  import Scheduler
  import Flow
  import Executors

  // ---- the tools ----

  /** `downloader(url)`: a fixed page mentioning the url. */
  function Downloader(url: string): string {
    "<html><body><h1>Example for " + url + "</h1><p>alpha beta gamma</p></body></html>"
  }

  /** The letters `str.isalpha()` accepts, as far as this model goes: ASCII. */
  predicate IsAlphaChar(c: char) {
    'a' <= c <= 'z' || 'A' <= c <= 'Z'
  }

  /** `w.isalpha()`: non-empty and letters only. */
  predicate IsAlpha(w: string) {
    w != [] && forall i :: 0 <= i < |w| ==> IsAlphaChar(w[i])
  }

  /** The characters `strip("<>/ ")` removes from both ends. */
  const StripChars: set<char> := {'<', '>', '/', ' '}

  function StripLeft(w: string, chars: set<char>): (r: string)
    ensures |r| <= |w|
  {
    if w != [] && w[0] in chars then StripLeft(w[1..], chars) else w
  }

  function StripRight(w: string, chars: set<char>): (r: string)
    ensures |r| <= |w|
  {
    if w != [] && w[|w| - 1] in chars then StripRight(w[..|w| - 1], chars) else w
  }

  /** `w.strip(chars)`. */
  function Strip(w: string, chars: set<char>): string {
    StripRight(StripLeft(w, chars), chars)
  }

  /** A word record: the word, scored by its length. */
  function Record(w: string): Value {
    VDict(map["word" := VStr(w), "score" := VInt(|w|)])
  }

  /** The alphabetic tokens among `ws`, in order. */
  function AlphaWords(ws: seq<string>): (r: seq<string>)
    ensures forall w :: w in r <==> w in ws && IsAlpha(w)
    ensures forall i :: 0 <= i < |r| ==> IsAlpha(r[i])
  {
    if ws == [] then []
    else AlphaWords(ws[..|ws| - 1]) + (if IsAlpha(ws[|ws| - 1]) then [ws[|ws| - 1]] else [])
  }

  /** Stripping `<>/ ` from an alphabetic word leaves it as it is. */
  lemma StripAlphaWord(w: string)
    requires IsAlpha(w)
    ensures Strip(w, StripChars) == w
  {
    assert w[0] !in StripChars;
    assert w[|w| - 1] !in StripChars;
  }

  /** `parser(html)`: one record per whitespace-separated token that is
      alphabetic, in order; the strip the source applies changes nothing. */
  function Parser(html: string): (records: seq<Value>)
    ensures var ws := AlphaWords(Text.Words(html));
      |records| == |ws| && forall i :: 0 <= i < |ws| ==> records[i] == Record(ws[i])
  {
    var ws := AlphaWords(Text.Words(html));
    seq(|ws|, i requires 0 <= i < |ws| => StripAlphaWord(ws[i]); Record(Strip(ws[i], StripChars)))
  }

  // ---- re_rank ----

  predicate IsNumber(v: Value) {
    v.VInt? || v.VBool? || v.VFloat?
  }

  /** A number as `sorted` compares it (a bool is 0 or 1). */
  function NumberValue(v: Value): real {
    match v
    case VInt(i) => i as real
    case VBool(b) => if b then 1.0 else 0.0
    case VFloat(r) => r
    case _ => 0.0
  }

  /** A dict that has a `"score"`. */
  predicate Scored(x: Value) {
    x.VDict? && "score" in x.fields
  }

  /** The sort key `x["score"]`. */
  function Score(x: Value): real {
    if Scored(x) then NumberValue(x.fields["score"]) else 0.0
  }

  /** Every scored dict among the items has a numeric score. */
  predicate NumericScores(items: seq<Value>) {
    forall x :: x in items && Scored(x) ==> IsNumber(x.fields["score"])
  }

  /** One item after normalisation: a scored dict is kept, a string becomes
      its record, anything else is dropped. */
  function NormalizeItem(it: Value): Option<Value> {
    if Scored(it) then Some(it)
    else if it.VStr? then Some(Record(it.s))
    else None
  }

  function Normalized(items: seq<Value>): (r: seq<Value>)
    ensures forall x :: x in r ==> Scored(x)
    ensures |r| <= |items|
  {
    if items == [] then []
    else
      var last := NormalizeItem(items[|items| - 1]);
      Normalized(items[..|items| - 1]) + (if last.Some? then [last.value] else [])
  }

  /** Normalised items with numeric scores keep them. */
  lemma {:induction false} NormalizedNumeric(items: seq<Value>)
    requires NumericScores(items)
    ensures NumericScores(Normalized(items))
  {
    if items != [] {
      var init := items[..|items| - 1];
      assert forall x :: x in init ==> x in items;
      NormalizedNumeric(init);
    }
  }

  /** Non-increasing by score. */
  ghost predicate ByScoreDesc(xs: seq<Value>) {
    forall i, j :: 0 <= i < j < |xs| ==> Score(xs[i]) >= Score(xs[j])
  }

  /** Inserting `x` after every element scored at least as high: the later
      of two equal scores stays later, as in Python's stable sort. */
  function InsertByScore(x: Value, sorted: seq<Value>): (r: seq<Value>)
    ensures multiset(r) == multiset(sorted) + multiset{x}
    ensures forall y :: y in r <==> y in sorted || y == x
    ensures |r| == |sorted| + 1
  {
    if sorted == [] then [x]
    else if Score(sorted[0]) >= Score(x) then
      assert sorted == [sorted[0]] + sorted[1..];
      [sorted[0]] + InsertByScore(x, sorted[1..])
    else [x] + sorted
  }

  /** `sorted(xs, key=lambda x: x["score"], reverse=True)`. */
  function SortByScore(xs: seq<Value>): (r: seq<Value>)
    ensures multiset(r) == multiset(xs)
  {
    if xs == [] then []
    else
      assert xs == xs[..|xs| - 1] + [xs[|xs| - 1]];
      InsertByScore(xs[|xs| - 1], SortByScore(xs[..|xs| - 1]))
  }

  /** In a list ordered by score the head scores highest. */
  lemma HeadScoresHighest(sorted: seq<Value>, y: Value)
    requires ByScoreDesc(sorted) && sorted != [] && y in sorted
    ensures Score(y) <= Score(sorted[0])
  {
    var k :| 0 <= k < |sorted| && sorted[k] == y;
  }

  lemma {:induction false} InsertKeepsOrder(x: Value, sorted: seq<Value>)
    requires ByScoreDesc(sorted)
    ensures ByScoreDesc(InsertByScore(x, sorted))
    decreases |sorted|
  {
    if sorted == [] {
    } else if Score(sorted[0]) >= Score(x) {
      var tail := sorted[1..];
      TailByScore(sorted);
      var rest := InsertByScore(x, tail);
      InsertKeepsOrder(x, tail);
      forall y | y in rest ensures Score(y) <= Score(sorted[0]) {
        if y != x {
          HeadScoresHighest(sorted, y);
        }
      }
      ConsByScore(sorted[0], rest);
    } else {
      forall y | y in sorted ensures Score(y) <= Score(x) {
        HeadScoresHighest(sorted, y);
      }
      ConsByScore(x, sorted);
    }
  }

  lemma TailByScore(sorted: seq<Value>)
    requires ByScoreDesc(sorted) && sorted != []
    ensures ByScoreDesc(sorted[1..])
  {
    var tail := sorted[1..];
    forall i, j | 0 <= i < j < |tail| ensures Score(tail[i]) >= Score(tail[j]) {
      assert tail[i] == sorted[i + 1] && tail[j] == sorted[j + 1];
    }
  }

  /** A head scored at least as high as everything after it keeps a
      list ordered by score ordered. */
  lemma ConsByScore(h: Value, rest: seq<Value>)
    requires ByScoreDesc(rest)
    requires forall y :: y in rest ==> Score(y) <= Score(h)
    ensures ByScoreDesc([h] + rest)
  {
    var r := [h] + rest;
    forall i, j | 0 <= i < j < |r| ensures Score(r[i]) >= Score(r[j]) {
      assert r[j] == rest[j - 1];
      if i > 0 {
        assert r[i] == rest[i - 1];
      }
    }
  }

  lemma {:induction false} SortIsOrdered(xs: seq<Value>)
    ensures ByScoreDesc(SortByScore(xs))
    decreases |xs|
  {
    if xs != [] {
      SortIsOrdered(xs[..|xs| - 1]);
      InsertKeepsOrder(xs[|xs| - 1], SortByScore(xs[..|xs| - 1]));
    }
  }

  /** The items scored `s`, in list order. */
  function ScoredAs(xs: seq<Value>, s: real): seq<Value> {
    if xs == [] then []
    else (if Score(xs[0]) == s then [xs[0]] else []) + ScoredAs(xs[1..], s)
  }

  lemma {:induction false} ScoredAsSnoc(xs: seq<Value>, x: Value, s: real)
    ensures ScoredAs(xs + [x], s) == ScoredAs(xs, s) + (if Score(x) == s then [x] else [])
  {
    var ys := xs + [x];
    if xs == [] {
      assert ys == [x] && ys[1..] == [];
    } else {
      assert ys[0] == xs[0] && ys[1..] == xs[1..] + [x];
      ScoredAsSnoc(xs[1..], x, s);
    }
  }

  lemma {:induction false} NoneScoredAs(xs: seq<Value>, s: real)
    requires forall y :: y in xs ==> Score(y) < s
    ensures ScoredAs(xs, s) == []
  {
    if xs != [] {
      assert forall y :: y in xs[1..] ==> y in xs;
      NoneScoredAs(xs[1..], s);
    }
  }

  lemma ScoredAsCons(h: Value, rest: seq<Value>, s: real)
    ensures ScoredAs([h] + rest, s) == (if Score(h) == s then [h] else []) + ScoredAs(rest, s)
  {
    assert ([h] + rest)[0] == h && ([h] + rest)[1..] == rest;
  }

  /** Insertion puts `x` after every item of its score already there. */
  lemma {:induction false} InsertIsStable(x: Value, sorted: seq<Value>, s: real)
    requires ByScoreDesc(sorted)
    ensures ScoredAs(InsertByScore(x, sorted), s) == ScoredAs(sorted, s) + (if Score(x) == s then [x] else [])
    decreases |sorted|
  {
    var mark: seq<Value> := if Score(x) == s then [x] else [];
    if sorted == [] {
      ScoredAsCons(x, [], s);
      assert InsertByScore(x, sorted) == [x] + [];
    } else if Score(sorted[0]) >= Score(x) {
      var h, tail := sorted[0], sorted[1..];
      assert ScoredAs(InsertByScore(x, tail), s) == ScoredAs(tail, s) + mark by {
        TailByScore(sorted);
        InsertIsStable(x, tail, s);
      }
      ScoredAsBehindHead(h, tail, InsertByScore(x, tail), mark, s);
      assert sorted == [h] + tail;
      assert InsertByScore(x, sorted) == [h] + InsertByScore(x, tail);
    } else {
      assert Score(x) == s ==> ScoredAs(sorted, s) == [] by {
        if Score(x) == s {
          forall y | y in sorted ensures Score(y) < s {
            HeadScoresHighest(sorted, y);
          }
          NoneScoredAs(sorted, s);
        }
      }
      InsertAtHead(x, sorted, s);
    }
  }

  /** The step of `InsertIsStable` where `x` outscores every item, so no
      item shares its score. */
  lemma InsertAtHead(x: Value, sorted: seq<Value>, s: real)
    requires sorted != [] && Score(sorted[0]) < Score(x)
    requires Score(x) == s ==> ScoredAs(sorted, s) == []
    ensures ScoredAs(InsertByScore(x, sorted), s) == ScoredAs(sorted, s) + (if Score(x) == s then [x] else [])
  {
    ScoredAsCons(x, sorted, s);
    assert InsertByScore(x, sorted) == [x] + sorted;
  }

  /** Adding items behind a common head adds them behind its score class. */
  lemma ScoredAsBehindHead(h: Value, tail: seq<Value>, longer: seq<Value>, mark: seq<Value>, s: real)
    requires ScoredAs(longer, s) == ScoredAs(tail, s) + mark
    ensures ScoredAs([h] + longer, s) == ScoredAs([h] + tail, s) + mark
  {
    ScoredAsCons(h, longer, s);
    ScoredAsCons(h, tail, s);
  }

  /** The sort is stable: items of equal score keep their input order. */
  lemma {:induction false} SortIsStable(xs: seq<Value>, s: real)
    ensures ScoredAs(SortByScore(xs), s) == ScoredAs(xs, s)
    decreases |xs|
  {
    if xs != [] {
      var init, last := xs[..|xs| - 1], xs[|xs| - 1];
      assert xs == init + [last];
      SortIsOrdered(init);
      InsertIsStable(last, SortByScore(init), s);
      SortIsStable(init, s);
      ScoredAsSnoc(init, last, s);
    }
  }

  /** `xs[:k]`: a negative `k` counts from the end. */
  function SliceTo(xs: seq<Value>, k: int): (r: seq<Value>)
    ensures k >= 0 ==> |r| == if k <= |xs| then k else |xs|
    ensures k < 0 ==> |r| == if -k <= |xs| then |xs| + k else 0
    ensures r == xs[..|r|]
  {
    if k >= 0 then (if k <= |xs| then xs[..k] else xs)
    else if -k <= |xs| then xs[..|xs| + k] else []
  }

  lemma PrefixSubMultiset(xs: seq<Value>, n: nat)
    requires n <= |xs|
    ensures multiset(xs[..n]) <= multiset(xs)
  {
    assert xs == xs[..n] + xs[n..];
  }

  /** What sorting and slicing promise: the top `k` in order, drawn from
      the normalised items. */
  lemma TopByScore(normalized: seq<Value>, topK: int)
    requires NumericScores(normalized)
    ensures var out := SliceTo(SortByScore(normalized), topK);
      ByScoreDesc(out) && multiset(out) <= multiset(normalized) &&
      forall x :: x in out ==> x in normalized
  {
    var ranked := SortByScore(normalized);
    SortIsOrdered(normalized);
    var out := SliceTo(ranked, topK);
    PrefixSubMultiset(ranked, |out|);
    forall x | x in out ensures x in normalized {
      assert x in multiset(out);
    }
  }

  /** `re_rank(items, top_k)`: normalise in a loop, sort by score from high
      to low, keep the first `top_k`. */
  method ReRank(items: seq<Value>, topK: int) returns (out: seq<Value>)
    requires NumericScores(items)
    ensures out == SliceTo(SortByScore(Normalized(items)), topK)
    ensures ByScoreDesc(out)
    ensures multiset(out) <= multiset(Normalized(items))
    ensures topK >= 0 ==> |out| <= topK
    ensures forall x :: x in out ==> Scored(x) && IsNumber(x.fields["score"])
  {
    var normalized: seq<Value> := [];
    for i := 0 to |items|
      invariant normalized == Normalized(items[..i])
    {
      assert items[..i + 1][..i] == items[..i];
      var it := items[i];
      if Scored(it) {
        normalized := normalized + [it];
      } else if it.VStr? {
        normalized := normalized + [Record(it.s)];
      }
    }
    assert items[..|items|] == items;
    NormalizedNumeric(items);
    TopByScore(normalized, topK);
    out := SliceTo(SortByScore(normalized), topK);
  }

  /** `output_records(items)`: the count and the items themselves. */
  function OutputRecords(items: Value, count: nat): (r: Value)
    ensures r.VDict? && r.fields.Keys == {"count", "top"}
    ensures r.fields["top"] == items && r.fields["count"] == VInt(count)
  {
    VDict(map["count" := VInt(count), "top" := items])
  }

  // ---- the tools as the executor calls them: `fn(**kwargs)` ----

  /** `downloader(url=...)`: exactly the one keyword, formatted with `str`. */
  function DownloaderAction(args: map<string, Value>, attempt: nat): (r: Result<Value>)
    ensures args.Keys != {"url"} ==> r == Err(TypeError)
    ensures args.Keys == {"url"} && args["url"].VStr? ==> r == Ok(VStr(Downloader(args["url"].s)))
  {
    if args.Keys != {"url"} then Err(TypeError)
    else
      match Text.Display(args["url"])
      case Some(u) => Ok(VStr(Downloader(u)))
      case None => Err(TypeError)
  }

  /** `parser(html=...)`: a non-string has no `split`. */
  function ParserAction(args: map<string, Value>, attempt: nat): (r: Result<Value>)
    ensures r.Ok? <==> args.Keys == {"html"} && args["html"].VStr?
    ensures r.Ok? ==> r.value == VList(Parser(args["html"].s))
  {
    if args.Keys != {"html"} then Err(TypeError)
    else if !args["html"].VStr? then Err(AttributeError)
    else Ok(VList(Parser(args["html"].s)))
  }

  /** `for it in items`: a list gives its elements, a string its characters. */
  function ItemsOf(v: Value): (r: Option<seq<Value>>)
    ensures v.VList? ==> r == Some(v.items)
    ensures v.VStr? ==> (r.Some? && |r.value| == |v.s| &&
                         forall i :: 0 <= i < |v.s| ==> r.value[i] == VStr([v.s[i]]))
  {
    match v
    case VList(xs) => Some(xs)
    case VStr(s) => Some(seq(|s|, i requires 0 <= i < |s| => VStr([s[i]])))
    case _ => None
  }

  /** `ranked[:top_k]`: None keeps everything, a bool counts as 0 or 1. */
  function Cut(ranked: seq<Value>, topK: Value): (r: Result<seq<Value>>)
    ensures topK.VInt? ==> r == Ok(SliceTo(ranked, topK.i))
    ensures topK.VNone? ==> r == Ok(ranked)
    ensures r.Ok? <==> topK.VInt? || topK.VNone? || topK.VBool?
    ensures r.Ok? ==> |r.value| <= |ranked| && r.value == ranked[..|r.value|]
  {
    match topK
    case VNone => assert ranked[..|ranked|] == ranked; Ok(ranked)
    case VInt(k) => Ok(SliceTo(ranked, k))
    case VBool(b) => Ok(SliceTo(ranked, if b then 1 else 0))
    case _ => Err(TypeError)
  }

  /** `re_rank(items=..., top_k=...)` with `top_k` defaulting to 5. */
  function ReRankAction(args: map<string, Value>, attempt: nat): (r: Result<Value>)
    ensures "items" !in args || !(args.Keys <= {"items", "top_k"}) ==> r == Err(TypeError)
    ensures "items" in args && ItemsOf(args["items"]).None? ==> r == Err(TypeError)
  {
    if "items" !in args || !(args.Keys <= {"items", "top_k"}) then Err(TypeError)
    else
      var items := ItemsOf(args["items"]);
      if items.None? then Err(TypeError)
      else
        var normalized := Normalized(items.value);
        if !NumericScores(normalized) then Err(TypeError)
        else
          var out :- Cut(SortByScore(normalized), if "top_k" in args then args["top_k"] else VInt(5));
          Ok(VList(out))
  }

  /** Whatever `re_rank` returns is ordered by score from high to low and
      drawn from the normalised items; with an integer `top_k` (5 by
      default) it is exactly the `top_k` best. */
  lemma ReRankActionRanks(args: map<string, Value>, attempt: nat)
    requires ReRankAction(args, attempt).Ok?
    ensures var out := ReRankAction(args, attempt).value;
      var normalized := Normalized(ItemsOf(args["items"]).value);
      out.VList? && ByScoreDesc(out.items) && multiset(out.items) <= multiset(normalized) &&
      (forall x :: x in out.items ==> Scored(x) && IsNumber(x.fields["score"])) &&
      ("top_k" !in args ==> out.items == SliceTo(SortByScore(normalized), 5))
  {
    var normalized := Normalized(ItemsOf(args["items"]).value);
    var ranked := SortByScore(normalized);
    var topK := if "top_k" in args then args["top_k"] else VInt(5);
    var k := if topK.VInt? then topK.i else if topK.VBool? && topK.b then 1 else if topK.VBool? then 0 else |ranked|;
    assert SliceTo(ranked, |ranked|) == ranked;
    assert Cut(ranked, topK) == Ok(SliceTo(ranked, k));
    TopByScore(normalized, k);
  }

  /** `output_records(items=...)`: `len` of a list, string or dict. */
  function OutputRecordsAction(args: map<string, Value>, attempt: nat): (r: Result<Value>)
    ensures r.Ok? <==> args.Keys == {"items"} && (args["items"].VList? || args["items"].VStr? || args["items"].VDict?)
    ensures r.Ok? && args["items"].VList? ==> r.value == OutputRecords(args["items"], |args["items"].items|)
  {
    if args.Keys != {"items"} then Err(TypeError)
    else
      match args["items"]
      case VList(xs) => Ok(OutputRecords(args["items"], |xs|))
      case VStr(t) => Ok(OutputRecords(args["items"], |t|))
      case VDict(m) => Ok(OutputRecords(args["items"], |m|))
      case _ => Err(TypeError)
  }

  /** The four tools, as the default registry hands them to the executor. */
  const AgentARegistry: map<string, ActionFn> :=
    map["downloader" := DownloaderAction, "parser" := ParserAction,
        "re_rank" := ReRankAction, "output_records" := OutputRecordsAction]

  // ---- the flow ----

  function DownloadStep(url: string): Step {
    Step("download", "downloader", map["url" := VStr(url)])
  }

  const ParseStep: Step := Step("parse", "parser", map["html" := VStr("$result.download")])
  const RankStep: Step := Step("rank", "re_rank", map["items" := VStr("$result.parse"), "top_k" := VInt(5)])
  const OutStep: Step := Step("out", "output_records", map["items" := VStr("$result.rank")])

  function AgentASteps(url: string): seq<Step> {
    [DownloadStep(url), ParseStep, RankStep, OutStep]
  }

  const AgentAEdges: seq<Edge> := [("download", "parse"), ("parse", "rank"), ("rank", "out")]

  function AgentAFlowData(url: string): DagData {
    DagData("agent-a", DefaultVersion, AgentASteps(url), AgentAEdges)
  }

  /** The first two `.step(...)` calls of `build_flow`. */
  method AddFetchSteps(b: Flow.FlowBuilder, url: string)
    requires b.flow.steps == []
    modifies b.flow
    ensures b.flow.Data() == old(b.flow.Data()).(steps := [DownloadStep(url), ParseStep])
  {
    var built := b.Step("download", "downloader", map["url" := VStr(url)]);
    assert b.flow.steps == [DownloadStep(url)];
    built := b.Step("parse", "parser", map["html" := VStr("$result.download")]);
  }

  /** The last two `.step(...)` calls of `build_flow`. */
  method AddRankSteps(b: Flow.FlowBuilder, url: string)
    requires b.flow.steps == [DownloadStep(url), ParseStep]
    modifies b.flow
    ensures b.flow.Data() == old(b.flow.Data()).(steps := AgentASteps(url))
  {
    var built := b.Step("rank", "re_rank", map["items" := VStr("$result.parse"), "top_k" := VInt(5)]);
    assert b.flow.steps == [DownloadStep(url), ParseStep, RankStep];
    built := b.Step("out", "output_records", map["items" := VStr("$result.rank")]);
  }

  /** `build_flow(url)`: four steps and the three edges of the chain. */
  method BuildFlow(url: string) returns (f: Flow.DagFlow)
    ensures f.Data() == AgentAFlowData(url)
  {
    var b := Flow.Dag("agent-a", None);
    AddFetchSteps(b, url);
    AddRankSteps(b, url);
    AgentAHasSteps(url);
    var built := b.Edge("download", "parse");
    built := b.Edge("parse", "rank");
    built := b.Edge("rank", "out");
    f := b.Build();
  }

  lemma AgentAIds(url: string)
    ensures IdSet(AgentASteps(url)) == {"download", "parse", "rank", "out"}
    ensures UniqueIds(AgentASteps(url))
  {
    var steps := AgentASteps(url);
    assert steps[0] in steps && steps[1] in steps && steps[2] in steps && steps[3] in steps;
  }

  lemma AgentAHasSteps(url: string)
    ensures var steps := AgentASteps(url);
      HasStep(steps, "download") && HasStep(steps, "parse") && HasStep(steps, "rank") && HasStep(steps, "out")
  {
    var steps := AgentASteps(url);
    assert steps[0].id == "download" && steps[1].id == "parse";
    assert steps[2].id == "rank" && steps[3].id == "out";
  }

  lemma AgentAOrderLength(url: string, order: seq<string>)
    requires IsTopoOrder(order, IdSet(AgentASteps(url)), AgentAEdges)
    ensures |order| == 4
  {
    AgentAIds(url);
    DistinctSetCard(order);
    assert SetOf(order) == {"download", "parse", "rank", "out"};
  }

  /** In a dependency order of the flow, download comes first and parse
      second. */
  lemma AgentAOrderHead(url: string, order: seq<string>)
    requires IsTopoOrder(order, IdSet(AgentASteps(url)), AgentAEdges)
    ensures |order| == 4 && order[0] == "download" && order[1] == "parse"
  {
    AgentAIds(url);
    AgentAOrderLength(url, order);
    var e := AgentAEdges;
    assert order[0] in order && order[1] in order;
    assert PredsIn(order[0], order[..0], e);
    assert order[0] == "download" by {
      assert e[0].1 == "parse" && e[1].1 == "rank" && e[2].1 == "out";
    }
    assert PredsIn(order[1], order[..1], e);
    assert order[1] == "parse" by {
      assert order[1] != order[0];
      assert e[1].1 == "rank" && e[1].0 !in order[..1];
      assert e[2].1 == "out" && e[2].0 !in order[..1];
    }
  }

  /** The only dependency order of the flow is the chain download, parse,
      rank, out. */
  lemma AgentAOrder(url: string, order: seq<string>)
    requires IsTopoOrder(order, IdSet(AgentASteps(url)), AgentAEdges)
    ensures order == ["download", "parse", "rank", "out"]
  {
    AgentAOrderHead(url, order);
    AgentAIds(url);
    var e := AgentAEdges;
    assert order[2] in order && order[3] in order;
    assert PredsIn(order[2], order[..2], e);
    assert order[2] == "rank" by {
      assert order[2] != order[0] && order[2] != order[1];
      assert e[2].1 == "out" && e[2].0 !in order[..2];
    }
    assert order[3] == "out" by {
      assert order[3] != order[0] && order[3] != order[1] && order[3] != order[2];
    }
  }

  /** `re_rank(records)` with the default `top_k` of 5. */
  function Top(records: seq<Value>): seq<Value> {
    SliceTo(SortByScore(Normalized(records)), 5)
  }

  /** What the four steps compute for `url`. */
  function AgentAResults(url: string): map<string, Value> {
    var page := Downloader(url);
    var records := Parser(page);
    var top := Top(records);
    map["download" := VStr(page), "parse" := VList(records), "rank" := VList(top),
        "out" := OutputRecords(VList(top), |top|)]
  }

  /** Every parsed record keeps its place in normalisation. */
  /** `x` is a scored dict among the items or the record of a string among them. */
  ghost predicate NormalFrom(x: Value, items: seq<Value>) {
    (x in items && Scored(x)) || exists s :: VStr(s) in items && x == Record(s)
  }

  /** The normalised items are exactly the scored dicts among the items
      and the records of the strings among them. */
  lemma {:induction false} NormalizedMembers(items: seq<Value>)
    ensures forall x :: x in Normalized(items) <==> NormalFrom(x, items)
  {
    if items != [] {
      var init, last := items[..|items| - 1], items[|items| - 1];
      assert items == init + [last];
      NormalizedMembers(init);
      forall x ensures x in Normalized(items) <==> NormalFrom(x, items) {
        NormalFromSnoc(x, init, last);
      }
    }
  }

  lemma NormalFromSnoc(x: Value, init: seq<Value>, last: Value)
    ensures NormalFrom(x, init + [last]) <==> NormalFrom(x, init) || NormalizeItem(last) == Some(x)
  {
    var items := init + [last];
    if exists s :: VStr(s) in items && x == Record(s) {
      var s :| VStr(s) in items && x == Record(s);
      if VStr(s) != last {
        assert VStr(s) in init;
      }
    }
    if exists s :: VStr(s) in init && x == Record(s) {
      var s :| VStr(s) in init && x == Record(s);
      assert VStr(s) in items;
    }
    if last.VStr? && x == Record(last.s) {
      assert VStr(last.s) in items;
    }
  }

  /** Normalising keeps the order: the items of a concatenation normalise
      part by part. */
  lemma {:induction false} NormalizedAppend(a: seq<Value>, b: seq<Value>)
    ensures Normalized(a + b) == Normalized(a) + Normalized(b)
    decreases |b|
  {
    if b == [] {
      assert a + b == a;
    } else {
      var init, last := b[..|b| - 1], b[|b| - 1];
      assert a + b == (a + init) + [last];
      assert b == init + [last];
      NormalizedAppend(a, init);
    }
  }

  /** A single item: a scored dict is kept, a string becomes its record,
      anything else is dropped. */
  lemma NormalizedOne(it: Value)
    ensures Normalized([it]) == if Scored(it) then [it] else if it.VStr? then [Record(it.s)] else []
  {
    assert [it][..0] == [];
  }

  lemma {:induction false} NormalizedRecords(records: seq<Value>)
    requires forall x :: x in records ==> Scored(x)
    ensures Normalized(records) == records
  {
    if records != [] {
      var init := records[..|records| - 1];
      var last := records[|records| - 1];
      assert forall x :: x in init ==> x in records;
      NormalizedRecords(init);
      assert last in records;
      assert NormalizeItem(last) == Some(last);
      assert records == init + [last];
    }
  }

  lemma ParserScoresNumeric(html: string)
    ensures forall x :: x in Parser(html) ==> Scored(x) && x.fields["score"].VInt?
    ensures NumericScores(Parser(html))
  {
    var rs := Parser(html);
    forall x | x in rs ensures Scored(x) && x.fields["score"].VInt? {
      var i :| 0 <= i < |rs| && rs[i] == x;
    }
  }

  /** Agent A's report: at most five records of alphabetic words of the
      page, best score first, each one a record the parser produced. */
  lemma AgentAReport(url: string)
    ensures var out := AgentAResults(url)["out"];
      var top := out.fields["top"].items;
      out.fields["count"] == VInt(|top|) && |top| <= 5 && ByScoreDesc(top) &&
      forall x :: x in top ==> x in Parser(Downloader(url))
  {
    var records := Parser(Downloader(url));
    ParserScoresNumeric(Downloader(url));
    NormalizedRecords(records);
    TopByScore(records, 5);
  }

  // ---- running it ----

  /** The step semantics of a fresh `LocalExecutor` without guards. */
  function AgentAVariant(): Scheduler.Variant {
    Scheduler.Local(AgentARegistry, None, Executors.LocalDefaultRetry)
  }

  lemma DownloadComputed(url: string, snapshot: map<string, Value>, result: Value)
    requires !IsReference(VStr(url))
    requires Scheduler.StepSpec(AgentAVariant(), DownloadStep(url), snapshot) == Ok(result)
    ensures result == VStr(Downloader(url))
  {
    Executors.RanOnce(AgentARegistry, DownloadStep(url), snapshot, result);
    assert ResolveArgs(DownloadStep(url).args, snapshot) == map["url" := VStr(url)];
  }

  lemma ParseComputed(page: string, snapshot: map<string, Value>, result: Value)
    requires "download" in snapshot && snapshot["download"] == VStr(page)
    requires Scheduler.StepSpec(AgentAVariant(), ParseStep, snapshot) == Ok(result)
    ensures result == VList(Parser(page))
  {
    Executors.RanOnce(AgentARegistry, ParseStep, snapshot, result);
    ParseOfPage(page, snapshot, result);
  }

  lemma ParseOfPage(page: string, snapshot: map<string, Value>, result: Value)
    requires "download" in snapshot && snapshot["download"] == VStr(page)
    requires ParserAction(ResolveArgs(ParseStep.args, snapshot), 1) == Ok(result)
    ensures result == VList(Parser(page))
  {
    ResolveOne("html", VStr("$result.download"), snapshot);
    assert ReferencedId(VStr("$result.download")) == "download";
  }

  /** `re_rank` on records with numeric scores keeps the five best. */
  lemma ReRankOfScored(records: seq<Value>)
    requires forall x :: x in records ==> Scored(x)
    requires NumericScores(records)
    ensures ReRankAction(map["items" := VList(records), "top_k" := VInt(5)], 1) == Ok(VList(Top(records)))
  {
    var args := map["items" := VList(records), "top_k" := VInt(5)];
    assert args.Keys == {"items", "top_k"};
    assert ItemsOf(args["items"]) == Some(records);
    NormalizedRecords(records);
    assert Cut(SortByScore(records), args["top_k"]) == Ok(Top(records));
  }

  lemma RankRan(snapshot: map<string, Value>, result: Value)
    requires Scheduler.StepSpec(AgentAVariant(), RankStep, snapshot) == Ok(result)
    ensures ReRankAction(ResolveArgs(RankStep.args, snapshot), 1) == Ok(result)
  {
    Executors.RanOnce(AgentARegistry, RankStep, snapshot, result);
  }

  lemma RankComputed(records: seq<Value>, snapshot: map<string, Value>, result: Value)
    requires forall x :: x in records ==> Scored(x)
    requires NumericScores(records)
    requires "parse" in snapshot && snapshot["parse"] == VList(records)
    requires ReRankAction(ResolveArgs(RankStep.args, snapshot), 1) == Ok(result)
    ensures result == VList(Top(records))
  {
    assert ResolveArgs(RankStep.args, snapshot) == map["items" := VList(records), "top_k" := VInt(5)];
    ReRankOfScored(records);
  }

  lemma OutComputed(top: seq<Value>, snapshot: map<string, Value>, result: Value)
    requires "rank" in snapshot && snapshot["rank"] == VList(top)
    requires Scheduler.StepSpec(AgentAVariant(), OutStep, snapshot) == Ok(result)
    ensures result == OutputRecords(VList(top), |top|)
  {
    Executors.RanOnce(AgentARegistry, OutStep, snapshot, result);
    assert ResolveArgs(OutStep.args, snapshot) == map["items" := VList(top)];
  }

  /** Two result tables of the agent's four steps agree when each step does. */
  lemma SameFourResults(m: map<string, Value>, download: Value, parse: Value, rank: Value, out: Value)
    requires m.Keys == {"download", "parse", "rank", "out"}
    requires m["download"] == download && m["parse"] == parse && m["rank"] == rank && m["out"] == out
    ensures m == map["download" := download, "parse" := parse, "rank" := rank, "out" := out]
  {
  }

  lemma RankFromSnapshot(records: seq<Value>, snapshot: map<string, Value>, result: Value)
    requires forall x :: x in records ==> Scored(x)
    requires NumericScores(records)
    requires "parse" in snapshot && snapshot["parse"] == VList(records)
    requires Scheduler.StepSpec(AgentAVariant(), RankStep, snapshot) == Ok(result)
    ensures result == VList(Top(records))
  {
    RankRan(snapshot, result);
    RankComputed(records, snapshot, result);
  }

  lemma DownloadRecorded(url: string, results: map<string, Value>, snapshots: map<string, map<string, Value>>)
    requires !IsReference(VStr(url))
    requires Executors.Recorded(AgentAVariant(), AgentASteps(url), AgentAEdges, results, snapshots)
    ensures "download" in results && results["download"] == VStr(Downloader(url))
  {
    AgentAIds(url);
    Executors.StepSnapshot(AgentAVariant(), AgentASteps(url), AgentAEdges, results, snapshots, 0);
    DownloadComputed(url, snapshots["download"], results["download"]);
  }

  lemma ParseRecorded(url: string, results: map<string, Value>, snapshots: map<string, map<string, Value>>,
                      page: string)
    requires Executors.Recorded(AgentAVariant(), AgentASteps(url), AgentAEdges, results, snapshots)
    requires "download" in results && results["download"] == VStr(page)
    ensures "parse" in results && results["parse"] == VList(Parser(page))
  {
    AgentAIds(url);
    Executors.StepSnapshot(AgentAVariant(), AgentASteps(url), AgentAEdges, results, snapshots, 1);
    assert AgentAEdges[0].1 == "parse";
    ParseComputed(page, snapshots["parse"], results["parse"]);
  }

  lemma RankRecorded(url: string, results: map<string, Value>, snapshots: map<string, map<string, Value>>,
                     records: seq<Value>)
    requires Executors.Recorded(AgentAVariant(), AgentASteps(url), AgentAEdges, results, snapshots)
    requires forall x :: x in records ==> Scored(x)
    requires NumericScores(records)
    requires "parse" in results && results["parse"] == VList(records)
    ensures "rank" in results && results["rank"] == VList(Top(records))
  {
    AgentAIds(url);
    Executors.StepSnapshot(AgentAVariant(), AgentASteps(url), AgentAEdges, results, snapshots, 2);
    assert AgentAEdges[1].1 == "rank";
    RankFromSnapshot(records, snapshots["rank"], results["rank"]);
  }

  lemma OutRecorded(url: string, results: map<string, Value>, snapshots: map<string, map<string, Value>>,
                    top: seq<Value>)
    requires Executors.Recorded(AgentAVariant(), AgentASteps(url), AgentAEdges, results, snapshots)
    requires "rank" in results && results["rank"] == VList(top)
    ensures "out" in results && results["out"] == OutputRecords(VList(top), |top|)
  {
    AgentAIds(url);
    Executors.StepSnapshot(AgentAVariant(), AgentASteps(url), AgentAEdges, results, snapshots, 3);
    assert AgentAEdges[2].1 == "out";
    OutComputed(top, snapshots["out"], results["out"]);
  }

  /** Each step saw its predecessor's recorded result, so the four results
      are the chain of tool calls. */
  lemma RecordedIsComputed(url: string, results: map<string, Value>, snapshots: map<string, map<string, Value>>)
    requires !IsReference(VStr(url))
    requires Executors.Recorded(AgentAVariant(), AgentASteps(url), AgentAEdges, results, snapshots)
    ensures results == AgentAResults(url)
  {
    var page := Downloader(url);
    var records := Parser(page);
    var top := Top(records);
    AgentAIds(url);
    DownloadRecorded(url, results, snapshots);
    ParseRecorded(url, results, snapshots, page);
    ParserScoresNumeric(page);
    RankRecorded(url, results, snapshots, records);
    OutRecorded(url, results, snapshots, top);
    SameFourResults(results, VStr(page), VList(records), VList(top), OutputRecords(VList(top), |top|));
  }

  /** `main()`: build the flow for a url and run it on a fresh
      `LocalExecutor` with the default registry and no guards. A run that
      succeeds records exactly what the four tools compute in a chain. */
  method RunAgentA(url: string) returns (r: Result<map<string, Value>>)
    ensures r.Ok? && !IsReference(VStr(url)) ==> r.value == AgentAResults(url)
  {
    var flow := BuildFlow(url);
    var ex := new Executors.LocalExecutor();
    ghost var schedule, snapshots, blame;
    r, schedule, snapshots, blame := ex.RunDagflow(flow, AgentARegistry, null);
    if r.Ok? && !IsReference(VStr(url)) {
      Executors.RunRecorded(AgentAVariant(), AgentASteps(url), AgentAEdges, r.value, schedule, snapshots, blame);
      RecordedIsComputed(url, r.value, snapshots);
    }
  }
}
