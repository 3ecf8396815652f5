/** TrendAgent (app/core/agents/trend_agent.py): asks a language model for a structured trend
    analysis, searches the web with a query built from it, files the search results into
    buckets, and hands the merged data to the formatter. The model, the output parser and the
    search service are parameters; everything the agent itself computes is modelled. */
module TrendAgent {
  import opened Results
  import opened JsonValues
  import opened Text
  import opened Prompts
  import DataFormatter

  // ---------------------------------------------------------------------------------------
  // The parsed analysis

  /** The `TrendAnalysis` model the language model's reply is parsed into. */
  datatype TrendAnalysis = TrendAnalysis(
    marketTrends: seq<string>,
    audienceInsights: map<string, Json>,
    competitorAnalysis: seq<map<string, string>>,
    messagingStrategy: map<string, Json>)

  function StringsJson(xs: seq<string>): (j: Json)
    ensures j.JList? && |j.items| == |xs|
    ensures forall k :: 0 <= k < |xs| ==> j.items[k] == JStr(xs[k])
  {
    JList(seq(|xs|, k requires 0 <= k < |xs| => JStr(xs[k])))
  }

  function StringMapJson(m: map<string, string>): Json {
    JMap(map k | k in m :: JStr(m[k]))
  }

  /** `parsed_response.dict()`: a dict with exactly the four fields of the model, so
      `market_trends` is always present and holds the trends as strings, in order. */
  function AnalysisDict(a: TrendAnalysis): (d: map<string, Json>)
    ensures d.Keys == {"market_trends", "audience_insights", "competitor_analysis", "messaging_strategy"}
    ensures d["market_trends"] == StringsJson(a.marketTrends)
    ensures d["audience_insights"] == JMap(a.audienceInsights)
    ensures d["messaging_strategy"] == JMap(a.messagingStrategy)
  {
    var competitors := a.competitorAnalysis;
    map[
      "market_trends" := StringsJson(a.marketTrends),
      "audience_insights" := JMap(a.audienceInsights),
      "competitor_analysis" := JList(seq(|competitors|, k requires 0 <= k < |competitors| => StringMapJson(competitors[k]))),
      "messaging_strategy" := JMap(a.messagingStrategy)]
  }

  /** The template `analyze_trends` formats: `TREND_ANALYSIS_PROMPT + "\n{format_instructions}"`. */
  const AnalysisTemplate: Template := TrendAnalysisPrompt + [Text("\n"), Slot("format_instructions")]

  /** The chain's inputs, with the parser's format instructions as a partial variable. */
  function AnalysisValues(guidelines: string, region: string, campaign: string, instructions: string): map<string, string> {
    map["guidelines" := guidelines, "region" := region, "campaign" := campaign, "format_instructions" := instructions]
  }

  /** `TREND_ANALYSIS_PROMPT`'s text up to its closing format instructions, filled in. */
  function AnalysisBody(guidelines: string, region: string, campaign: string, instructions: string): string {
    var values := AnalysisValues(guidelines, region, campaign, instructions);
    assert Fills(TrendAnalysisBody, values);
    Render(TrendAnalysisBody, values)
  }

  /** The rendered analysis prompt. `TREND_ANALYSIS_PROMPT` already ends with the format
      instructions and a line break, so the instructions are given twice: once closing the
      template's text and once more after a blank line at the very end. */
  function AnalysisPrompt(guidelines: string, region: string, campaign: string, instructions: string): (p: string)
    ensures p == AnalysisBody(guidelines, region, campaign, instructions) + instructions + "\n\n" + instructions
  {
    var values := AnalysisValues(guidelines, region, campaign, instructions);
    assert Fills(TrendAnalysisBody, values);
    RenderSlotTwice(TrendAnalysisBody, "format_instructions", values);
    Render(AnalysisTemplate, values)
  }

  // ---------------------------------------------------------------------------------------
  // The search query and the merge

  const QueryPrefix := "latest advertising trends "

  /** `f"latest advertising trends {region} {trend_data.get('market_trends', [''])[0]}"`. */
  function SearchQuery(region: string, trendData: map<string, Json>, render: Json -> string): (q: Result<string>)
    ensures "market_trends" !in trendData ==> q == Ok(QueryPrefix + region + " ")
    ensures "market_trends" in trendData && trendData["market_trends"] == EmptyList ==>
      q == Err("list index out of range")
    ensures "market_trends" in trendData && trendData["market_trends"].JList? ==>
      var trends := trendData["market_trends"].items;
      trends != [] && trends[0].JStr? ==> q == Ok(QueryPrefix + region + " " + trends[0].s)
  {
    var first :- FirstItem(Get(trendData, "market_trends", JList([JStr("")])));
    assert QueryPrefix + region + " " + "" == QueryPrefix + region + " ";
    Ok(QueryPrefix + region + " " + Display(first, render))
  }

  /** In `analyze_trends` the data always comes from `TrendAnalysis.dict()`, where
      `market_trends` is present: the `['']` default never applies, the query names the first
      trend, and an empty trend list makes the query, and so the analysis, fail. */
  lemma AnalysisQuery(a: TrendAnalysis, region: string, render: Json -> string)
    ensures var q := SearchQuery(region, AnalysisDict(a), render);
      && (q.Ok? <==> a.marketTrends != [])
      && (a.marketTrends == [] ==> q == Err("list index out of range"))
      && (a.marketTrends != [] ==> q == Ok(QueryPrefix + region + " " + a.marketTrends[0]))
  {
    var d := AnalysisDict(a);
    if a.marketTrends == [] {
      assert d["market_trends"] == EmptyList;
    } else {
      assert d["market_trends"].items[0] == JStr(a.marketTrends[0]);
    }
  }

  /** `{**trend_data, "search_insights": search_results}`: every key of the analysis is kept
      with its value, and `search_insights` is added (or replaced). */
  function CombinedData(trendData: map<string, Json>, searchResults: Json): (c: map<string, Json>)
    ensures c.Keys == trendData.Keys + {"search_insights"}
    ensures c["search_insights"] == searchResults
    ensures forall k :: k in trendData && k != "search_insights" ==> c[k] == trendData[k]
  {
    trendData["search_insights" := searchResults]
  }

  // ---------------------------------------------------------------------------------------
  // Filing the search results

  datatype Category = MarketTrend | AudienceInsight | CompetitorAnalysis | Uncategorised

  /** The bucket for a lower-cased title: the first of "market", "audience", "competitor"
      that occurs in it decides. */
  function CategoryOf(title: string): Category {
    if Contains(title, "market") then MarketTrend
    else if Contains(title, "audience") then AudienceInsight
    else if Contains(title, "competitor") then CompetitorAnalysis
    else Uncategorised
  }

  /** The keywords are tried in a fixed priority: a title goes to market trends when it
      mentions "market", to audience insights when it mentions "audience" but not "market",
      to competitor analysis when it mentions only "competitor" of the three, and nowhere
      when it mentions none of them. */
  lemma {:induction false} CategoryPriority(title: string)
    ensures CategoryOf(title) == MarketTrend <==> Occurs("market", title)
    ensures CategoryOf(title) == AudienceInsight <==> !Occurs("market", title) && Occurs("audience", title)
    ensures CategoryOf(title) == CompetitorAnalysis <==>
      !Occurs("market", title) && !Occurs("audience", title) && Occurs("competitor", title)
    ensures CategoryOf(title) == Uncategorised <==>
      !Occurs("market", title) && !Occurs("audience", title) && !Occurs("competitor", title)
  {
    ContainsIffOccurs(title, "market");
    ContainsIffOccurs(title, "audience");
    ContainsIffOccurs(title, "competitor");
  }

  /** How the loop reads one result: `result.get("title", "").lower()`, which fails when the
      result is not a dict or its title is not a string. */
  function Classify(result: Json): (r: Result<Category>)
    ensures r.Ok? <==> result.JMap? && ("title" in result.fields ==> result.fields["title"].JStr?)
    ensures !result.JMap? ==> r == Err(NoAttribute(result, "get"))
    ensures result.JMap? && "title" in result.fields && !result.fields["title"].JStr? ==>
      r == Err(NoAttribute(result.fields["title"], "lower"))
  {
    var title :- GetFrom(result, "title", JStr(""));
    if title.JStr? then Ok(CategoryOf(Lower(title.s))) else Err(NoAttribute(title, "lower"))
  }

  /** A readable result is filed by its lower-cased title, and one without a title nowhere. */
  lemma ClassifyByTitle(result: map<string, Json>)
    ensures "title" !in result ==> Classify(JMap(result)) == Ok(Uncategorised)
    ensures "title" in result && result["title"].JStr? ==>
      Classify(JMap(result)) == Ok(CategoryOf(Lower(result["title"].s)))
  {
  }

  /** `{"title": result.get("title"), "summary": result.get("summary")}`: the result's title
      and summary, `None` where missing. */
  function MarketEntry(result: map<string, Json>): (e: Json)
    ensures e.JMap? && e.fields.Keys == {"title", "summary"}
    ensures Carries(e.fields, "title", result, "title", JNull)
    ensures Carries(e.fields, "summary", result, "summary", JNull)
  {
    JMap(map["title" := Get(result, "title", JNull), "summary" := Get(result, "summary", JNull)])
  }

  /** `{"competitor": result.get("title"), "strategy": result.get("summary")}`: the title
      becomes the competitor and the summary its strategy, `None` where missing. */
  function CompetitorEntry(result: map<string, Json>): (e: Json)
    ensures e.JMap? && e.fields.Keys == {"competitor", "strategy"}
    ensures Carries(e.fields, "competitor", result, "title", JNull)
    ensures Carries(e.fields, "strategy", result, "summary", JNull)
  {
    JMap(map["competitor" := Get(result, "title", JNull), "strategy" := Get(result, "summary", JNull)])
  }

  /** What one result adds to each bucket. */
  function MarketPart(result: Json): seq<Json> {
    if result.JMap? && Classify(result) == Ok(MarketTrend) then [MarketEntry(result.fields)] else []
  }

  function CompetitorPart(result: Json): seq<Json> {
    if result.JMap? && Classify(result) == Ok(CompetitorAnalysis) then [CompetitorEntry(result.fields)] else []
  }

  function AudiencePart(result: Json): map<string, Json> {
    if result.JMap? && Classify(result) == Ok(AudienceInsight) then map["insight" := Get(result.fields, "summary", JNull)]
    else map[]
  }

  /** The entries that the results contribute to a list bucket, in the order of the results. */
  function Collect(results: seq<Json>, part: Json -> seq<Json>): seq<Json> {
    if results == [] then [] else part(results[0]) + Collect(results[1..], part)
  }

  function MarketTrendsOf(results: seq<Json>): seq<Json> { Collect(results, MarketPart) }

  function CompetitorsOf(results: seq<Json>): seq<Json> { Collect(results, CompetitorPart) }

  /** The audience dict after `update` with each result's contribution in turn: a later
      contribution overrides an earlier one. */
  function AudienceOf(results: seq<Json>): map<string, Json> { Merge(results, AudiencePart) }

  function Merge(results: seq<Json>, part: Json -> map<string, Json>): map<string, Json> {
    if results == [] then map[] else part(results[0]) + Merge(results[1..], part)
  }

  /** The error of the first result that cannot be read. */
  function FirstClassifyError(results: seq<Json>): Option<string> { FirstError(results, Classify) }

  function FirstError(results: seq<Json>, classify: Json -> Result<Category>): Option<string> {
    if results == [] then None
    else if classify(results[0]).Err? then Some(classify(results[0]).message)
    else FirstError(results[1..], classify)
  }

  /** `results.get("results", [])` and iterating over it. Iterating a string or a dict yields
      strings, on which `.get` then fails, so only an empty one gets through; other scalars
      cannot be iterated at all. */
  function ResultItems(payload: Json): (r: Result<seq<Json>>)
    ensures !payload.JMap? ==> r == Err(NoAttribute(payload, "get"))
    ensures payload.JMap? && "results" !in payload.fields ==> r == Ok([])
    ensures payload.JMap? && "results" in payload.fields && payload.fields["results"].JList? ==>
      r == Ok(payload.fields["results"].items)
    ensures r.Ok? ==>
      && payload.JMap?
      && ("results" !in payload.fields || payload.fields["results"].JList? ||
          payload.fields["results"] in {JStr(""), EmptyMap})
    ensures r.Ok? && !("results" in payload.fields && payload.fields["results"].JList?) ==> r.value == []
  {
    var results :- GetFrom(payload, "results", EmptyList);
    match results
    case JList(items) => Ok(items)
    case JStr(s) => if s == "" then Ok([]) else Err(NoAttribute(JStr([s[0]]), "get"))
    case JMap(m) => if m == map[] then Ok([]) else Err(NoAttribute(JStr(""), "get"))
    case _ => Err("'" + TypeName(results) + "' object is not iterable")
  }

  function Buckets(marketTrends: seq<Json>, audienceInsights: map<string, Json>, competitorAnalysis: seq<Json>): Json {
    JMap(map[
      "market_trends" := JList(marketTrends),
      "audience_insights" := JMap(audienceInsights),
      "competitor_analysis" := JList(competitorAnalysis)])
  }

  /** What `_process_search_results` returns for a search payload: always exactly the three
      buckets, all empty when the payload has no `results`. */
  function SearchInsights(payload: Json): (r: Result<Json>)
    ensures r.Ok? ==> r.value.JMap? && r.value.fields.Keys == {"market_trends", "audience_insights", "competitor_analysis"}
    ensures payload.JMap? && "results" !in payload.fields ==> r == Ok(Buckets([], map[], []))
    ensures !payload.JMap? ==> r == Err(NoAttribute(payload, "get"))
  {
    var results :- ResultItems(payload);
    match FirstClassifyError(results)
    case Some(e) => Err(e)
    case None => Ok(Buckets(MarketTrendsOf(results), AudienceOf(results), CompetitorsOf(results)))
  }

  /** Collecting over two runs of results is collecting over the first, then the second: the
      buckets keep the order of the results. */
  lemma {:induction false} CollectAppend(xs: seq<Json>, ys: seq<Json>, part: Json -> seq<Json>)
    ensures Collect(xs + ys, part) == Collect(xs, part) + Collect(ys, part)
  {
    if xs == [] {
      assert xs + ys == ys;
    } else {
      assert (xs + ys)[1..] == xs[1..] + ys;
      CollectAppend(xs[1..], ys, part);
    }
  }

  /** Updating with two runs of results is updating with the first, then the second. */
  lemma {:induction false} MergeAppend(xs: seq<Json>, ys: seq<Json>, part: Json -> map<string, Json>)
    ensures Merge(xs + ys, part) == Merge(xs, part) + Merge(ys, part)
  {
    if xs == [] {
      assert xs + ys == ys;
    } else {
      assert (xs + ys)[1..] == xs[1..] + ys;
      MergeAppend(xs[1..], ys, part);
      UnionAssociative(part(xs[0]), Merge(xs[1..], part), Merge(ys, part));
    }
  }

  lemma UnionAssociative(a: map<string, Json>, b: map<string, Json>, c: map<string, Json>)
    ensures a + (b + c) == (a + b) + c
  {
  }

  lemma {:induction false} FirstErrorAppend(xs: seq<Json>, ys: seq<Json>, classify: Json -> Result<Category>)
    ensures FirstError(xs + ys, classify) ==
      if FirstError(xs, classify).Some? then FirstError(xs, classify) else FirstError(ys, classify)
  {
    if xs == [] {
      assert xs + ys == ys;
    } else {
      assert (xs + ys)[1..] == xs[1..] + ys;
      FirstErrorAppend(xs[1..], ys, classify);
    }
  }

  /** A market entry is in the bucket exactly when some market-titled result produced it. */
  lemma {:induction false} MarketTrendsMembers(results: seq<Json>, e: Json)
    ensures e in MarketTrendsOf(results) <==> exists k :: 0 <= k < |results| && MarketPart(results[k]) == [e]
  {
    if results != [] {
      MarketTrendsMembers(results[1..], e);
      if e in MarketTrendsOf(results[1..]) {
        var k :| 0 <= k < |results[1..]| && MarketPart(results[1..][k]) == [e];
        assert MarketPart(results[k + 1]) == [e];
      }
      if exists k :: 0 <= k < |results| && MarketPart(results[k]) == [e] {
        var k :| 0 <= k < |results| && MarketPart(results[k]) == [e];
        if k > 0 {
          assert MarketPart(results[1..][k - 1]) == [e];
        }
      }
    }
  }

  /** Each result lands in at most one list bucket, and uncategorised ones in none, so the two
      lists together are never longer than the results. */
  lemma {:induction false} BucketsBounded(results: seq<Json>)
    ensures |MarketTrendsOf(results)| + |CompetitorsOf(results)| <= |results|
  {
    if results != [] {
      BucketsBounded(results[1..]);
    }
  }

  /** The audience dict holds at most the key `insight`; it is empty when no result is about
      the audience, and otherwise holds the summary of the last such result. */
  lemma {:induction false} AudienceLastWins(results: seq<Json>, k: nat)
    requires k < |results|
    requires AudiencePart(results[k]) != map[]
    requires forall j :: k < j < |results| ==> AudiencePart(results[j]) == map[]
    ensures AudienceOf(results) == AudiencePart(results[k])
    ensures AudienceOf(results).Keys == {"insight"}
  {
    if k == 0 {
      NoAudience(results[1..]);
    } else {
      AudienceLastWins(results[1..], k - 1);
    }
  }

  lemma {:induction false} NoAudience(results: seq<Json>)
    requires forall j :: 0 <= j < |results| ==> AudiencePart(results[j]) == map[]
    ensures AudienceOf(results) == map[]
  {
    if results != [] {
      NoAudience(results[1..]);
    }
  }

  /** The folds over `results[..i + 1]` are those over `results[..i]` extended by result i. */
  lemma CollectStep(results: seq<Json>, i: nat, part: Json -> seq<Json>)
    requires i < |results|
    ensures Collect(results[..i + 1], part) == Collect(results[..i], part) + part(results[i])
  {
    var x := results[i];
    assert results[..i + 1] == results[..i] + [x];
    assert [x][1..] == [];
    CollectAppend(results[..i], [x], part);
  }

  lemma MergeStep(results: seq<Json>, i: nat, part: Json -> map<string, Json>)
    requires i < |results|
    ensures Merge(results[..i + 1], part) == Merge(results[..i], part) + part(results[i])
  {
    var x := results[i];
    assert results[..i + 1] == results[..i] + [x];
    assert [x][1..] == [];
    MergeAppend(results[..i], [x], part);
  }

  lemma FirstErrorStep(results: seq<Json>, i: nat, classify: Json -> Result<Category>)
    requires i < |results|
    requires FirstError(results[..i], classify) == None
    ensures classify(results[i]).Err? ==> FirstError(results, classify) == Some(classify(results[i]).message)
    ensures classify(results[i]).Ok? ==> FirstError(results[..i + 1], classify) == None
  {
    var x := results[i];
    assert results[..i + 1] == results[..i] + [x];
    assert [x][1..] == [];
    FirstErrorAppend(results[..i], [x], classify);
    FirstErrorAppend(results[..i], results[i..], classify);
    assert results[..i] + results[i..] == results;
  }

  /** `_process_search_results`: files each result by its title, appending to the two list
      buckets and overwriting `insight` in the audience bucket. */
  method ProcessSearchResults(payload: Json) returns (r: Result<Json>)
    ensures r == SearchInsights(payload)
  {
    var results :- ResultItems(payload);
    var marketTrends: seq<Json> := [];
    var audienceInsights: map<string, Json> := map[];
    var competitorAnalysis: seq<Json> := [];
    for i := 0 to |results|
      invariant FirstClassifyError(results[..i]) == None
      invariant marketTrends == MarketTrendsOf(results[..i])
      invariant audienceInsights == AudienceOf(results[..i])
      invariant competitorAnalysis == CompetitorsOf(results[..i])
    {
      var result := results[i];
      var category := Classify(result);
      CollectStep(results, i, MarketPart);
      CollectStep(results, i, CompetitorPart);
      MergeStep(results, i, AudiencePart);
      FirstErrorStep(results, i, Classify);
      if category.Err? {
        return Err(category.message);
      }
      match category.value
      case MarketTrend =>
        marketTrends := marketTrends + [MarketEntry(result.fields)];
      case AudienceInsight =>
        audienceInsights := audienceInsights + map["insight" := Get(result.fields, "summary", JNull)];
      case CompetitorAnalysis =>
        competitorAnalysis := competitorAnalysis + [CompetitorEntry(result.fields)];
      case Uncategorised =>
    }
    assert results[..|results|] == results;
    r := Ok(Buckets(marketTrends, audienceInsights, competitorAnalysis));
  }

  // ---------------------------------------------------------------------------------------
  // The agent's two entry points

  const SearchError := "Error searching trends: "
  const AnalyzeError := "Error analyzing trends: "

  /** `_search_trends`: the search service's reply, filed into buckets; any failure of either
      step is reported with the search prefix. */
  method SearchTrends(search: string -> Result<Json>, query: string) returns (r: Result<Json>)
    ensures search(query).Err? ==> r == Err(SearchError + search(query).message)
    ensures search(query).Ok? ==> r == Wrap(SearchError, SearchInsights(search(query).value))
  {
    var response := search(query);
    if response.Err? {
      return Err(SearchError + response.message);
    }
    var processed := ProcessSearchResults(response.value);
    r := Wrap(SearchError, processed);
  }

  /** The services `analyze_trends` depends on and that this model leaves abstract. */
  datatype TrendServices = TrendServices(
    complete: string -> Result<string>,       // the language model chain, on the rendered prompt
    parse: string -> Result<TrendAnalysis>,   // the output parser, on the model's reply
    formatInstructions: string,               // the output parser's format instructions
    search: string -> Result<Json>,           // the web search service
    render: Json -> string)                   // str() of a non-string value in an f-string

  /** The language model's reply to the trend prompt, parsed into a `TrendAnalysis`: the
      prompt sent is the rendered analysis prompt, and a failure of the model is reported as
      it is, before any parsing. */
  function ParsedAnalysis(services: TrendServices, guidelines: string, region: string, campaign: string): (r: Result<TrendAnalysis>)
    ensures var reply := services.complete(AnalysisPrompt(guidelines, region, campaign, services.formatInstructions));
      && (reply.Err? ==> r == Err(reply.message))
      && (reply.Ok? ==> r == services.parse(reply.value))
  {
    var reply :- services.complete(AnalysisPrompt(guidelines, region, campaign, services.formatInstructions));
    services.parse(reply)
  }

  /** What a successful analysis hands on: the trends and audience insights of the parsed
      analysis, with every visual and composition default. */
  function FormattedAnalysis(a: TrendAnalysis): Json {
    JMap(map[
      "market_trends" := StringsJson(a.marketTrends),
      "audience_insights" := JMap(a.audienceInsights),
      "visual_elements" := DataFormatter.DefaultVisualElements,
      "composition_guidelines" := DataFormatter.DefaultComposition])
  }

  /** The merged data never carries `visual_elements` or `composition`, so formatting it cannot
      fail and yields only defaults for them; `search_insights` does not reach the output. */
  lemma SearchInsightsDiscarded(a: TrendAnalysis, searchResults: Json)
    ensures DataFormatter.FormatTrendData(JMap(CombinedData(AnalysisDict(a), searchResults))) == Ok(FormattedAnalysis(a))
  {
    var combined := CombinedData(AnalysisDict(a), searchResults);
    DataFormatter.SparseInputGetsDefaults(combined);
  }

  /** What the second half of `analyze_trends` yields for a parsed analysis. It fails exactly
      when the analysis has no trends (indexing the empty list), when the search for the first
      trend fails, or when the search payload cannot be filed, each with the message of the
      step that failed; otherwise it is the formatted analysis, whatever the search found. */
  function SearchOutcome(search: string -> Result<Json>, a: TrendAnalysis, region: string): (r: Result<Json>)
    ensures r.Ok? ==> r.value == FormattedAnalysis(a)
    ensures a.marketTrends == [] ==> r == Err("list index out of range")
    ensures a.marketTrends != [] ==>
      var found := search(QueryPrefix + region + " " + a.marketTrends[0]);
      && (r.Ok? <==> found.Ok? && SearchInsights(found.value).Ok?)
      && (found.Err? ==> r == Err(SearchError + found.message))
      && (found.Ok? && SearchInsights(found.value).Err? ==> r == Err(SearchError + SearchInsights(found.value).message))
  {
    if a.marketTrends == [] then Err("list index out of range")
    else
      var found := search(QueryPrefix + region + " " + a.marketTrends[0]);
      if found.Err? then Err(SearchError + found.message)
      else
        var insights := SearchInsights(found.value);
        if insights.Err? then Err(SearchError + insights.message) else Ok(FormattedAnalysis(a))
  }

  /** The second half of `analyze_trends`, from the parsed analysis on: build the query, search,
      merge, format. */
  method SearchAndFormat(search: string -> Result<Json>, render: Json -> string, a: TrendAnalysis, region: string)
    returns (r: Result<Json>)
    ensures r == SearchOutcome(search, a, region)
  {
    var trendData := AnalysisDict(a);
    AnalysisQuery(a, region, render);
    var query := SearchQuery(region, trendData, render);
    if query.Err? {
      return Err(query.message);
    }
    var searchResults := SearchTrends(search, query.value);
    if searchResults.Err? {
      return Err(searchResults.message);
    }
    var combined := CombinedData(trendData, searchResults.value);
    SearchInsightsDiscarded(a, searchResults.value);
    r := DataFormatter.FormatTrendData(JMap(combined));
  }

  /** `analyze_trends`: prompt, parse, search, merge, format. A failure of the language model
      or the parser aborts with its own message, and so does any failure of the second half,
      all under the analysis prefix. */
  method AnalyzeTrends(services: TrendServices, guidelines: string, region: string, campaign: string)
    returns (r: Result<Json>)
    ensures var parsed := ParsedAnalysis(services, guidelines, region, campaign);
      && (parsed.Err? ==> r == Err(AnalyzeError + parsed.message))
      && (parsed.Ok? ==> r == Wrap(AnalyzeError, SearchOutcome(services.search, parsed.value, region)))
  {
    var prompt := AnalysisPrompt(guidelines, region, campaign, services.formatInstructions);
    var reply := services.complete(prompt);
    if reply.Err? {
      return Err(AnalyzeError + reply.message);
    }
    var parsed := services.parse(reply.value);
    if parsed.Err? {
      return Err(AnalyzeError + parsed.message);
    }
    var formatted := SearchAndFormat(services.search, services.render, parsed.value, region);
    r := Wrap(AnalyzeError, formatted);
  }
}
