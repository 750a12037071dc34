/**
 * The search-visibility probe of app/api/evaluate/route.ts: every keyword is
 * searched (each search reply is an input), the first result that belongs to
 * the site gives its rank, and the loop over the keywords accumulates the
 * counters the search score is computed from.
 */
module Search {
  import opened Wrappers
  import opened Text
  import opened Urls

  /**
   * One search: it threw, it came back without `web` results, or the `web`
   * results in rank order, where `None` is a result that carries no `url`.
   */
  datatype SearchOutcome = SearchThrew | NoWeb | Web(results: seq<Option<string>>)

  /** A result belongs to the site if its URL contains the domain or the domain contains the URL without its scheme. */
  predicate MatchesDomain(url: string, domain: string) {
    Contains(url, domain) || Contains(domain, StripScheme(url))
  }

  /** What `find` does: it returns the first matching result, finds none, or throws on reading `url` of a result that has none. */
  datatype Find = Found(index: nat) | NotFound | FindThrew(at: nat)

  /** The first `k` results all carry a URL that does not match. */
  ghost predicate NoMatchBefore(results: seq<Option<string>>, domain: string, k: nat)
    requires k <= |results|
  {
    forall j :: 0 <= j < k ==> results[j].Some? && !MatchesDomain(results[j].value, domain)
  }

  /** `find` over the results, with `indexOf` giving the index of the found one. */
  function FirstMatch(results: seq<Option<string>>, domain: string): (r: Find)
    ensures r.NotFound? <==> NoMatchBefore(results, domain, |results|)
    ensures r.Found? ==>
      && r.index < |results| && NoMatchBefore(results, domain, r.index)
      && results[r.index].Some? && MatchesDomain(results[r.index].value, domain)
    ensures r.FindThrew? ==> r.at < |results| && NoMatchBefore(results, domain, r.at) && results[r.at].None?
  {
    if |results| == 0 then NotFound
    else if results[0].None? then FindThrew(0)
    else if MatchesDomain(results[0].value, domain) then Found(0)
    else match FirstMatch(results[1..], domain)
      case NotFound => NotFound
      case Found(i) => Found(i + 1)
      case FindThrew(i) => FindThrew(i + 1)
  }

  /** The 1-based rank of the site in one result list, if `find` returns it. */
  function Position(results: seq<Option<string>>, domain: string): (p: Option<nat>)
    ensures p.Some? ==>
      && 1 <= p.value <= |results| && NoMatchBefore(results, domain, p.value - 1)
      && results[p.value - 1].Some? && MatchesDomain(results[p.value - 1].value, domain)
    ensures p.None? ==> !FirstMatch(results, domain).Found?
  {
    match FirstMatch(results, domain)
    case Found(i) => Some(i + 1)
    case _ => None
  }

  /** The insight line for one successful search. */
  function InsightText(keyword: string, position: Option<nat>): string {
    match position
    case Some(p) => keyword + ": Position " + NatToString(p)
    case None => keyword + ": Not found in top 20"
  }

  /** The loop's counters: `totalSearches`, `totalResults`, `top10Appearances`, `averagePosition` (a sum) and `searchInsights`. */
  datatype Tally = Tally(searches: nat, found: nat, top10: nat, positionSum: nat, insights: seq<string>)

  /**
   * One iteration of the loop. A search with `web` results is counted before
   * `find` runs, so a `find` that throws leaves the search counted and adds
   * nothing else: the `catch` around the iteration swallows the error.
   */
  function Step(t: Tally, keyword: string, outcome: SearchOutcome, domain: string): Tally {
    match outcome
    case Web(results) =>
      (match FirstMatch(results, domain)
       case Found(i) =>
         var p := i + 1;
         Tally(t.searches + 1, t.found + 1, if p <= 10 then t.top10 + 1 else t.top10,
               t.positionSum + p, t.insights + [InsightText(keyword, Some(p))])
       case NotFound => Tally(t.searches + 1, t.found, t.top10, t.positionSum, t.insights + [InsightText(keyword, None)])
       case FindThrew(_) => Tally(t.searches + 1, t.found, t.top10, t.positionSum, t.insights))
    case _ => t
  }

  /** The counters after the keywords `keywords`, whose searches gave `outcomes`. */
  function TallyOf(keywords: seq<string>, outcomes: seq<SearchOutcome>, domain: string): Tally
    requires |outcomes| == |keywords|
  {
    if |keywords| == 0 then Tally(0, 0, 0, 0, [])
    else
      var n := |keywords| - 1;
      Step(TallyOf(keywords[..n], outcomes[..n], domain), keywords[n], outcomes[n], domain)
  }

  /** The positions of the searches that came back with `web` results, in keyword order. */
  function Searched(outcomes: seq<SearchOutcome>): (idx: seq<nat>)
    ensures forall j :: 0 <= j < |idx| ==> idx[j] < |outcomes| && outcomes[idx[j]].Web?
    ensures forall j, k :: 0 <= j < k < |idx| ==> idx[j] < idx[k]
    ensures forall i :: 0 <= i < |outcomes| && outcomes[i].Web? ==> i in idx
  {
    if |outcomes| == 0 then []
    else
      var n := |outcomes| - 1;
      var prefix := Searched(outcomes[..n]);
      if outcomes[n].Web? then prefix + [n] else prefix
  }

  /** A search whose `web` results `find` reads through without throwing. */
  predicate Readable(outcome: SearchOutcome, domain: string) {
    outcome.Web? && !FirstMatch(outcome.results, domain).FindThrew?
  }

  /** The positions of the searches that produce an insight: `web` results that `find` reads through. */
  function Described(outcomes: seq<SearchOutcome>, domain: string): (idx: seq<nat>)
    ensures forall j :: 0 <= j < |idx| ==> idx[j] < |outcomes| && Readable(outcomes[idx[j]], domain)
    ensures forall j, k :: 0 <= j < k < |idx| ==> idx[j] < idx[k]
    ensures forall i :: 0 <= i < |outcomes| && Readable(outcomes[i], domain) ==> i in idx
  {
    if |outcomes| == 0 then []
    else
      var n := |outcomes| - 1;
      var prefix := Described(outcomes[..n], domain);
      if Readable(outcomes[n], domain) then prefix + [n] else prefix
  }

  /** Every result of every `web` search carries a URL. */
  ghost predicate AllResultsHaveUrls(outcomes: seq<SearchOutcome>) {
    forall i, j :: 0 <= i < |outcomes| && outcomes[i].Web? && 0 <= j < |outcomes[i].results| ==>
      outcomes[i].results[j].Some?
  }

  /**
   * No more searches produce an insight than were counted, and exactly as many
   * when every result carries a URL.
   */
  lemma {:induction false} DescribedCount(outcomes: seq<SearchOutcome>, domain: string)
    ensures |Described(outcomes, domain)| <= |Searched(outcomes)|
    ensures AllResultsHaveUrls(outcomes) ==> |Described(outcomes, domain)| == |Searched(outcomes)|
  {
    if |outcomes| > 0 {
      var n := |outcomes| - 1;
      DescribedCount(outcomes[..n], domain);
      if AllResultsHaveUrls(outcomes) {
        assert AllResultsHaveUrls(outcomes[..n]) by {
          forall i, j | 0 <= i < n && outcomes[..n][i].Web? && 0 <= j < |outcomes[..n][i].results|
            ensures outcomes[..n][i].results[j].Some?
          {
            assert outcomes[..n][i] == outcomes[i];
          }
        }
        if outcomes[n].Web? {
          var rs := outcomes[n].results;
          assert forall j :: 0 <= j < |rs| ==> rs[j].Some?;
          assert !FirstMatch(rs, domain).FindThrew?;
        }
      }
    }
  }

  /**
   * The counters respect `top10Appearances <= totalResults <= totalSearches <= |keywords|`,
   * and the position sum is at least the number of found positions (each is at
   * least 1), and zero when nothing was found.
   */
  lemma {:induction false} TallyBounds(keywords: seq<string>, outcomes: seq<SearchOutcome>, domain: string)
    requires |outcomes| == |keywords|
    ensures var t := TallyOf(keywords, outcomes, domain);
      && t.top10 <= t.found <= t.searches <= |keywords|
      && t.found <= t.positionSum
      && (t.found == 0 ==> t.positionSum == 0)
  {
    if |keywords| > 0 {
      var n := |keywords| - 1;
      TallyBounds(keywords[..n], outcomes[..n], domain);
    }
  }

  /**
   * One step counts a search exactly when the search returned `web` results,
   * and adds an insight exactly when, in addition, `find` did not throw.
   */
  lemma StepInsight(t: Tally, keyword: string, outcome: SearchOutcome, domain: string)
    ensures var t' := Step(t, keyword, outcome, domain);
      && t'.searches == t.searches + (if outcome.Web? then 1 else 0)
      && t'.insights == t.insights +
           (if Readable(outcome, domain) then [InsightText(keyword, Position(outcome.results, domain))] else [])
  {
  }

  /** The insights of a tally, as the `j`-th insight describing the `j`-th search that produced one. */
  ghost predicate InsightsDescribe(insights: seq<string>, keywords: seq<string>, outcomes: seq<SearchOutcome>,
                                   idx: seq<nat>, domain: string)
    requires |outcomes| == |keywords|
    requires forall j :: 0 <= j < |idx| ==> idx[j] < |outcomes| && outcomes[idx[j]].Web?
  {
    && |insights| == |idx|
    && forall j :: 0 <= j < |idx| ==>
         insights[j] == InsightText(keywords[idx[j]], Position(outcomes[idx[j]].results, domain))
  }

  /** Describing a prefix of the keywords carries over to the whole list. */
  lemma DescribeExtends(insights: seq<string>, keywords: seq<string>, outcomes: seq<SearchOutcome>,
                        idx: seq<nat>, domain: string, n: nat)
    requires |outcomes| == |keywords| && n <= |keywords|
    requires forall j :: 0 <= j < |idx| ==> idx[j] < n && outcomes[idx[j]].Web?
    requires InsightsDescribe(insights, keywords[..n], outcomes[..n], idx, domain)
    ensures InsightsDescribe(insights, keywords, outcomes, idx, domain)
  {
    forall j | 0 <= j < |idx|
      ensures insights[j] == InsightText(keywords[idx[j]], Position(outcomes[idx[j]].results, domain))
    {
      assert keywords[..n][idx[j]] == keywords[idx[j]] && outcomes[..n][idx[j]] == outcomes[idx[j]];
    }
  }

  /**
   * Every search with `web` results is counted, and there is one insight per
   * such search that `find` read through, in keyword order: the `j`-th insight
   * describes the `j`-th such search. Searches that threw or lacked `web`
   * contribute nothing.
   */
  lemma {:induction false} TallyInsights(keywords: seq<string>, outcomes: seq<SearchOutcome>, domain: string)
    requires |outcomes| == |keywords|
    ensures var t := TallyOf(keywords, outcomes, domain);
      && t.searches == |Searched(outcomes)|
      && InsightsDescribe(t.insights, keywords, outcomes, Described(outcomes, domain), domain)
  {
    if |keywords| > 0 {
      var n := |keywords| - 1;
      TallyInsights(keywords[..n], outcomes[..n], domain);
      var prev := TallyOf(keywords[..n], outcomes[..n], domain);
      var prevIdx := Described(outcomes[..n], domain);
      forall j | 0 <= j < |prevIdx| ensures prevIdx[j] < n && outcomes[prevIdx[j]].Web? {
        assert outcomes[..n][prevIdx[j]] == outcomes[prevIdx[j]];
      }
      DescribeExtends(prev.insights, keywords, outcomes, prevIdx, domain, n);
      StepInsight(prev, keywords[n], outcomes[n], domain);
    }
  }

  /** With no successful search the counters stay at zero. */
  lemma {:induction false} NoSearchesNoTally(keywords: seq<string>, outcomes: seq<SearchOutcome>, domain: string)
    requires |outcomes| == |keywords|
    requires forall i :: 0 <= i < |outcomes| ==> !outcomes[i].Web?
    ensures TallyOf(keywords, outcomes, domain) == Tally(0, 0, 0, 0, [])
  {
    if |keywords| > 0 {
      var n := |keywords| - 1;
      NoSearchesNoTally(keywords[..n], outcomes[..n], domain);
    }
  }

  /** The loop of the route, mutating its counters as the source does. */
  method AggregateSearches(keywords: seq<string>, outcomes: seq<SearchOutcome>, domain: string) returns (t: Tally)
    requires |outcomes| == |keywords|
    ensures t == TallyOf(keywords, outcomes, domain)
  {
    var totalSearches: nat, totalResults: nat, top10Appearances: nat, averagePosition: nat := 0, 0, 0, 0;
    var searchInsights: seq<string> := [];
    for i := 0 to |keywords|
      invariant Tally(totalSearches, totalResults, top10Appearances, averagePosition, searchInsights)
        == TallyOf(keywords[..i], outcomes[..i], domain)
    {
      assert keywords[..i + 1][..i] == keywords[..i] && outcomes[..i + 1][..i] == outcomes[..i];
      match outcomes[i]
      case Web(results) =>
        totalSearches := totalSearches + 1;
        var siteResult := FirstMatch(results, domain);
        match siteResult {
        case Found(index) =>
          var position := index + 1;
          totalResults := totalResults + 1;
          averagePosition := averagePosition + position;
          if position <= 10 {
            top10Appearances := top10Appearances + 1;
          }
          searchInsights := searchInsights + [InsightText(keywords[i], Some(position))];
        case NotFound =>
          searchInsights := searchInsights + [InsightText(keywords[i], None)];
        case FindThrew(_) =>
        }
      case _ =>
    }
    assert keywords[..|keywords|] == keywords && outcomes[..|outcomes|] == outcomes;
    t := Tally(totalSearches, totalResults, top10Appearances, averagePosition, searchInsights);
  }

  /** The `search_performance` record stored with an evaluation. */
  datatype SearchPerformance = SearchPerformance(
    keywordsAnalyzed: nat, keywords: seq<string>, keywordSource: string, totalSearches: nat,
    appearanceRate: real, top10Appearances: nat, averagePosition: real, searchInsights: seq<string>)
}
