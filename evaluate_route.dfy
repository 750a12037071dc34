/**
 * The `/api/evaluate` pipeline (app/api/evaluate/route.ts). The crawl, the
 * language model and the search service are inputs: the scraped markdown, the
 * keyword completion and one search outcome per parsed keyword. What is modelled
 * is the order of the checks, the parsing, the search loop, the four scores, the
 * overall score, the recommendations and the `search_performance` record.
 */
module EvaluateRoute {
  import opened Wrappers
  import opened Urls
  import opened Links
  import opened CheckFiles
  import opened Keywords
  import opened Search
  import opened Scoring

  /** The keyword completion: the call threw, or its first choice's content (absent if there is none). */
  datatype Completion = CompletionThrew | Completion(content: Option<string>)

  /** The text the parser receives: the content, or the empty string when there is none. */
  function ReplyText(c: Completion): string {
    if c.Completion? && c.content.Some? then c.content.value else ""
  }

  const ContentLimit: nat := 3000

  /** `markdown.substring(0, 3000)` when the scrape produced markdown, the empty string otherwise. */
  function WebsiteContent(markdown: Option<string>): (r: string)
    ensures |r| <= ContentLimit
    ensures markdown.Some? ==> r == markdown.value[..if |markdown.value| < ContentLimit then |markdown.value| else ContentLimit]
    ensures r == "" <==> markdown.None? || markdown.value == ""
  {
    if markdown.None? || markdown.value == "" then ""
    else if |markdown.value| <= ContentLimit then markdown.value
    else markdown.value[..ContentLimit]
  }

  /** The record built from the keywords, the scraped content and the loop's counters. */
  function Performance(keywords: seq<string>, content: string, t: Tally): (p: SearchPerformance)
    ensures p.keywordsAnalyzed == |p.keywords| == |keywords|
    ensures p.keywordSource == (if content != "" then "content_analysis" else "domain_analysis")
    ensures p.totalSearches == t.searches && p.top10Appearances == t.top10 && p.searchInsights == t.insights
    ensures t.searches > 0 ==> p.appearanceRate * (t.searches as real) == t.found as real
    ensures t.searches == 0 ==> p.appearanceRate == 0.0
    ensures t.found > 0 ==> p.averagePosition * (t.found as real) == t.positionSum as real
    ensures t.found == 0 ==> p.averagePosition == 0.0
  {
    SearchPerformance(
      |keywords|, keywords, if content != "" then "content_analysis" else "domain_analysis", t.searches,
      if t.searches > 0 then (t.found as real) / (t.searches as real) else 0.0,
      t.top10,
      if t.found > 0 then (t.positionSum as real) / (t.found as real) else 0.0,
      t.insights)
  }

  /** The scores and the extended result. */
  datatype Evaluation = Evaluation(
    overall: nat, search: nat, content: nat, technical: nat, ai: nat,
    recommendations: seq<Advice>, performance: SearchPerformance)

  /** The arguments passed to `saveEvaluation`. */
  datatype SaveRequest = SaveRequest(url: string, domain: string, evaluation: Evaluation)

  datatype EvaluateResponse = Failed(status: nat, error: string) | Evaluated(evaluation: Evaluation)

  /**
   * The handler. `bodyRead` says whether `request.json()` and its destructuring
   * succeeded; `parsed` is `new URL(url)`; `searches[i]` is what searching the
   * `i`-th parsed keyword produced.
   */
  method Evaluate(userId: Option<string>, bodyRead: bool, url: string, parsed: Option<ParsedUrl>,
                  siteMap: Option<seq<Link>>, aiFiles: Option<seq<FileCheck>>,
                  markdown: Option<string>, completion: Completion, searches: seq<SearchOutcome>)
    returns (response: EvaluateResponse, save: Option<SaveRequest>)
    requires |searches| == |ParseKeywords(ReplyText(completion))|
    ensures userId.None? ==> response == Failed(401, "Authentication required")
    ensures userId.Some? && !bodyRead ==> response == Failed(500, "Internal server error")
    ensures userId.Some? && bodyRead && url == "" ==> response == Failed(400, "URL is required")
    ensures userId.Some? && bodyRead && url != "" && parsed.None? ==> response == Failed(400, "Invalid URL format")
    ensures userId.Some? && bodyRead && url != "" && parsed.Some? && completion.CompletionThrew? ==>
      response == Failed(500, "Internal server error")
    ensures response.Failed? <==> save.None?
    ensures response.Evaluated? <==> userId.Some? && bodyRead && url != "" && parsed.Some? && completion.Completion?
    ensures response.Evaluated? ==>
      var e := response.evaluation;
      var keywords := ParseKeywords(ReplyText(completion));
      var t := TallyOf(keywords, searches, parsed.value.hostname);
      && e.search == SearchScore(t.searches, t.found, t.top10, t.positionSum)
      && e.content == ContentScore(siteMap)
      && e.technical == TechnicalScore(siteMap)
      && e.ai == AiScore(aiFiles)
      && e.overall == OverallScore(e.search, e.content, e.technical, e.ai)
      && e.overall <= 10
      && e.recommendations == AdviceList(e.search, e.content, e.technical, e.ai)
      && e.performance == Performance(keywords, WebsiteContent(markdown), t)
      && save == Some(SaveRequest(WithScheme(url), parsed.value.hostname, e))
  {
    save := None;
    if userId.None? {
      return Failed(401, "Authentication required"), None;
    }
    if !bodyRead {
      return Failed(500, "Internal server error"), None;
    }
    if url == "" {
      return Failed(400, "URL is required"), None;
    }
    if parsed.None? {
      return Failed(400, "Invalid URL format"), None;
    }
    var domain := parsed.value.hostname;
    var processedUrl := WithScheme(url);
    var websiteContent := WebsiteContent(markdown);
    if completion.CompletionThrew? {
      return Failed(500, "Internal server error"), None;
    }
    var keywords := ParseKeywords(ReplyText(completion));
    var t := AggregateSearches(keywords, searches, domain);
    var searchScore := SearchScore(t.searches, t.found, t.top10, t.positionSum);
    var contentScore := ContentScore(siteMap);
    var technicalScore := TechnicalScore(siteMap);
    var aiScore := AiScore(aiFiles);
    var overallScore := OverallScore(searchScore, contentScore, technicalScore, aiScore);
    var recommendations := Recommendations(searchScore, contentScore, technicalScore, aiScore);
    var e := Evaluation(overallScore, searchScore, contentScore, technicalScore, aiScore,
                        recommendations, Performance(keywords, websiteContent, t));
    save := Some(SaveRequest(processedUrl, domain, e));
    response := Evaluated(e);
  }

  /** A ratio of counts with the numerator at most the denominator lies in [0, 1]. */
  lemma UnitRatio(a: nat, b: nat)
    requires 0 < b && a <= b
    ensures 0.0 <= (a as real) / (b as real) <= 1.0
  {
    RatioAtLeast(1, 1, a, b);
  }

  /** A ratio of counts with the numerator at least the denominator is at least 1. */
  lemma RatioAtLeastOne(a: nat, b: nat)
    requires 0 < b && b <= a
    ensures (a as real) / (b as real) >= 1.0
  {
    RatioAtLeast(a, b, 1, 1);
  }

  /** What the record says once the counters are within their bounds. */
  lemma PerformanceRanges(keywords: seq<string>, content: string, t: Tally)
    requires t.top10 <= t.found <= t.searches <= |keywords| && t.found <= t.positionSum
    ensures var p := Performance(keywords, content, t);
      && p.top10Appearances <= p.totalSearches <= p.keywordsAnalyzed
      && 0.0 <= p.appearanceRate <= 1.0
      && (t.found > 0 ==> p.averagePosition >= 1.0)
  {
    if t.searches > 0 {
      UnitRatio(t.found, t.searches);
    }
    if t.found > 0 {
      RatioAtLeastOne(t.positionSum, t.found);
    }
  }

  /**
   * The stored counters are consistent with the keywords: no more searches than
   * keywords (at most ten), at most one insight per search and exactly one when
   * every result carries a URL, an appearance rate between 0 and 1 and, when
   * the site was found, an average position of at least 1.
   */
  lemma PerformanceBounds(reply: string, searches: seq<SearchOutcome>, domain: string, content: string)
    requires |searches| == |ParseKeywords(reply)|
    ensures var keywords := ParseKeywords(reply);
      var t := TallyOf(keywords, searches, domain);
      var p := Performance(keywords, content, t);
      && p.top10Appearances <= p.totalSearches <= p.keywordsAnalyzed <= MaxKeywords
      && |p.searchInsights| <= p.totalSearches
      && (AllResultsHaveUrls(searches) ==> |p.searchInsights| == p.totalSearches)
      && 0.0 <= p.appearanceRate <= 1.0
      && (t.found > 0 ==> p.averagePosition >= 1.0)
  {
    var keywords := ParseKeywords(reply);
    TallyBounds(keywords, searches, domain);
    TallyInsights(keywords, searches, domain);
    DescribedCount(searches, domain);
    PerformanceRanges(keywords, content, TallyOf(keywords, searches, domain));
  }
}
