/**
 * The rule-based scores of app/api/evaluate/route.ts. The source computes with
 * floating-point ratios; here every ratio comparison is an exact comparison of
 * integers by cross-multiplication, and each score has a companion written with
 * exact real ratios, as the source states it, proved equal to it.
 */
module Scoring {
  import opened Wrappers
  import opened Seqs
  import opened Links
  import opened CheckFiles

  // ---- exact ratio comparisons ----

  /** Scaling by a positive factor keeps the order of two reals. */
  lemma ScaleOrder(x: real, y: real, k: real)
    requires k > 0.0
    ensures x >= y <==> x * k >= y * k
  {
    if x >= y {
      assert (x - y) * k >= 0.0;
    } else {
      assert (y - x) * k > 0.0;
    }
  }

  /** `a / b >= c / d` for positive `b` and `d`, as a comparison of products. */
  lemma RatioAtLeast(a: nat, b: nat, c: nat, d: nat)
    requires b > 0 && d > 0
    ensures (a as real) / (b as real) >= (c as real) / (d as real) <==> a * d >= c * b
  {
    var bb := b as real;
    var dd := d as real;
    var x := (a as real) / bb;
    var y := (c as real) / dd;
    assert x * bb == a as real;
    assert y * dd == c as real;
    assert (a * d) as real == (a as real) * dd;
    assert (c * b) as real == (c as real) * bb;
    assert x * (bb * dd) == (a * d) as real;
    assert y * (bb * dd) == (c * b) as real;
    ScaleOrder(x, y, bb * dd);
  }

  /** A count over a positive total exceeds 0.8, 0.6 and 0.4 exactly when five times the count exceeds 4, 3 and 2 times the total. */
  lemma ExceedsBands(k: nat, n: nat)
    requires n > 0
    ensures (k as real) / (n as real) > 0.8 <==> 5 * k > 4 * n
    ensures (k as real) / (n as real) > 0.6 <==> 5 * k > 3 * n
    ensures (k as real) / (n as real) > 0.4 <==> 5 * k > 2 * n
  {
    RatioAtLeast(4, 5, k, n);
    RatioAtLeast(3, 5, k, n);
    RatioAtLeast(2, 5, k, n);
  }

  /** The average `sum / n` is at most `k`, with 20 standing in when `n` is zero, as in the source. */
  predicate AverageAtMost(sum: nat, n: nat, k: nat) {
    if n > 0 then sum <= k * n else 20 <= k
  }

  function AverageOrTwenty(sum: nat, n: nat): real {
    if n > 0 then (sum as real) / (n as real) else 20.0
  }

  lemma AverageAtMostExact(sum: nat, n: nat, k: nat)
    ensures AverageAtMost(sum, n, k) <==> AverageOrTwenty(sum, n) <= k as real
  {
    if n > 0 {
      RatioAtLeast(k, 1, sum, n);
    }
  }

  // ---- search visibility ----

  /**
   * `searchVisibilityScore` from the loop's counters: 5 without any successful
   * search, otherwise the first row of the 9/7/6/5/3 table whose thresholds on
   * the appearance rate, the top-ten rate and the average position all hold.
   */
  function SearchScore(searches: nat, found: nat, top10: nat, positionSum: nat): (s: nat)
    ensures s in {3, 5, 6, 7, 9}
    ensures searches == 0 ==> s == 5
    ensures searches > 0 && 5 * found < searches ==> s == 3
  {
    if searches == 0 then 5
    else if 5 * found >= 4 * searches && 5 * top10 >= 3 * searches && AverageAtMost(positionSum, found, 5) then 9
    else if 5 * found >= 3 * searches && 5 * top10 >= 2 * searches && AverageAtMost(positionSum, found, 10) then 7
    else if 5 * found >= 2 * searches && AverageAtMost(positionSum, found, 15) then 6
    else if 5 * found >= searches then 5
    else 3
  }

  /** The table as the source writes it, on exact real ratios. */
  function SearchScoreByRates(searches: nat, found: nat, top10: nat, positionSum: nat): nat {
    if searches == 0 then 5
    else
      var appearanceRate := (found as real) / (searches as real);
      var top10Rate := (top10 as real) / (searches as real);
      var avgPos := AverageOrTwenty(positionSum, found);
      if appearanceRate >= 0.8 && top10Rate >= 0.6 && avgPos <= 5.0 then 9
      else if appearanceRate >= 0.6 && top10Rate >= 0.4 && avgPos <= 10.0 then 7
      else if appearanceRate >= 0.4 && avgPos <= 15.0 then 6
      else if appearanceRate >= 0.2 then 5
      else 3
  }

  lemma SearchScoreMatchesRates(searches: nat, found: nat, top10: nat, positionSum: nat)
    ensures SearchScore(searches, found, top10, positionSum) == SearchScoreByRates(searches, found, top10, positionSum)
  {
    if searches > 0 {
      RatioAtLeast(found, searches, 4, 5);
      RatioAtLeast(found, searches, 3, 5);
      RatioAtLeast(found, searches, 2, 5);
      RatioAtLeast(found, searches, 1, 5);
      RatioAtLeast(top10, searches, 3, 5);
      RatioAtLeast(top10, searches, 2, 5);
      AverageAtMostExact(positionSum, found, 5);
      AverageAtMostExact(positionSum, found, 10);
      AverageAtMostExact(positionSum, found, 15);
    }
  }

  /** Finding the site in every search, always in the top positions, earns the best score. */
  lemma AlwaysFirstIsBest(searches: nat)
    requires searches > 0
    ensures SearchScore(searches, searches, searches, searches) == 9
  {
  }

  // ---- content quality ----

  predicate HasTitle(link: Link) { Present(link.title) }
  predicate HasDescription(link: Link) { Present(link.description) }

  /**
   * `contentScore`: 5 without a site map or with an empty one, 7 when no link is
   * an HTML page, otherwise 9/7/6/4 by strict `>` 0.8/0.6/0.4 on both the share of
   * HTML pages with a title and the share with a description.
   */
  function ContentScore(siteMap: Option<seq<Link>>): (s: nat)
    ensures s in {4, 5, 6, 7, 9}
    ensures siteMap.None? || |siteMap.value| == 0 ==> s == 5
    ensures siteMap.Some? && |siteMap.value| > 0 && |HtmlPages(siteMap.value)| == 0 ==> s == 7
  {
    if siteMap.None? || |siteMap.value| == 0 then 5
    else
      var pages := HtmlPages(siteMap.value);
      var n := |pages|;
      if n == 0 then 7
      else
        var titled := |Filter(pages, HasTitle)|;
        var described := |Filter(pages, HasDescription)|;
        if 5 * titled > 4 * n && 5 * described > 4 * n then 9
        else if 5 * titled > 3 * n && 5 * described > 3 * n then 7
        else if 5 * titled > 2 * n && 5 * described > 2 * n then 6
        else 4
  }

  /** The content table on exact real ratios, as the source writes it. */
  function ContentScoreByRatios(siteMap: Option<seq<Link>>): nat {
    if siteMap.None? || |siteMap.value| == 0 then 5
    else
      var pages := HtmlPages(siteMap.value);
      if |pages| == 0 then 7
      else
        var titleRatio := (|Filter(pages, HasTitle)| as real) / (|pages| as real);
        var descRatio := (|Filter(pages, HasDescription)| as real) / (|pages| as real);
        if titleRatio > 0.8 && descRatio > 0.8 then 9
        else if titleRatio > 0.6 && descRatio > 0.6 then 7
        else if titleRatio > 0.4 && descRatio > 0.4 then 6
        else 4
  }

  lemma ContentScoreMatchesRatios(siteMap: Option<seq<Link>>)
    ensures ContentScore(siteMap) == ContentScoreByRatios(siteMap)
  {
    if siteMap.Some? && |siteMap.value| > 0 && |HtmlPages(siteMap.value)| > 0 {
      var pages := HtmlPages(siteMap.value);
      var n := |pages|;
      var t := |Filter(pages, HasTitle)|;
      var d := |Filter(pages, HasDescription)|;
      ExceedsBands(t, n);
      ExceedsBands(d, n);
    }
  }

  /**
   * The content score agrees with the site-map summary of the map route: the
   * pages with a title are the HTML pages less those missing one, and likewise
   * for descriptions.
   */
  lemma ContentCountsMatchSummary(links: seq<Link>)
    ensures var m := Summarize(links);
      && |Filter(HtmlPages(links), HasTitle)| == m.htmlPages - m.missingTitles
      && |Filter(HtmlPages(links), HasDescription)| == m.htmlPages - m.missingDescriptions
  {
    FilterComplement(HtmlPages(links), HasTitle, MissingTitle);
    FilterComplement(HtmlPages(links), HasDescription, MissingDescription);
  }

  /** HTML pages that all carry both a title and a description score 9. */
  lemma FullMetadataScoresNine(links: seq<Link>)
    requires |HtmlPages(links)| > 0
    requires Summarize(links).missingTitles == 0 && Summarize(links).missingDescriptions == 0
    ensures ContentScore(Some(links)) == 9
  {
    ContentCountsMatchSummary(links);
  }

  // ---- technical SEO ----

  /** A link whose description is present and longer than 50 characters. */
  predicate HasLongDescription(link: Link) {
    Present(link.description) && |link.description.value| > 50
  }

  /**
   * `technicalScore`: 8 with more than ten links one of which has a long
   * description, 6 with more than ten links otherwise, 4 in every other case;
   * the initial 5 is never returned.
   */
  function TechnicalScore(siteMap: Option<seq<Link>>): (s: nat)
    ensures s in {4, 6, 8} && s != 5
    ensures s == 8 <==> siteMap.Some? && |siteMap.value| > 10 && exists l :: l in siteMap.value && HasLongDescription(l)
    ensures s >= 6 <==> siteMap.Some? && |siteMap.value| > 10
  {
    var hasSitemap := siteMap.Some? && |siteMap.value| > 10;
    var hasStructuredContent := siteMap.Some? && exists l :: l in siteMap.value && HasLongDescription(l);
    if hasSitemap && hasStructuredContent then 8
    else if hasSitemap then 6
    else 4
  }

  // ---- AI optimisation ----

  /** `aiScore`: 3 without file checks, otherwise 9/7/4 for at least three, at least one, or no existing files. */
  function AiScore(aiFiles: Option<seq<FileCheck>>): (s: nat)
    ensures s in {3, 4, 7, 9}
    ensures aiFiles.None? <==> s == 3
    ensures aiFiles.Some? ==> (s == 4 <==> forall f :: f in aiFiles.value ==> !f.fileExists)
    ensures aiFiles.Some? && |aiFiles.value| < 3 ==> s != 9
  {
    if aiFiles.None? then 3
    else
      var n := ExistingCount(aiFiles.value);
      if n >= 3 then 9 else if n >= 1 then 7 else 4
  }

  // ---- overall ----

  /** `Math.round(0.4 s + 0.3 c + 0.2 t + 0.1 a)`, rounding halves up, on exact tenths. */
  function OverallScore(search: nat, content: nat, technical: nat, ai: nat): (r: nat)
    ensures search <= 10 && content <= 10 && technical <= 10 && ai <= 10 ==> r <= 10
    ensures 10 * r <= 4 * search + 3 * content + 2 * technical + ai + 5 < 10 * r + 10
  {
    (4 * search + 3 * content + 2 * technical + ai + 5) / 10
  }

  /** `Math.round(x)` for a non-negative real: the nearest integer, halves rounded up. */
  function Round(x: real): int {
    (x + 0.5).Floor
  }

  /** The integer formula is the rounded weighted sum with the source's weights. */
  lemma OverallMatchesWeightedRound(search: nat, content: nat, technical: nat, ai: nat)
    ensures OverallScore(search, content, technical, ai)
         == Round(search as real * 0.4 + content as real * 0.3 + technical as real * 0.2 + ai as real * 0.1)
  {
    var m := 4 * search + 3 * content + 2 * technical + ai + 5;
    var x := search as real * 0.4 + content as real * 0.3 + technical as real * 0.2 + ai as real * 0.1 + 0.5;
    assert x == (m as real) / 10.0;
    var q := m / 10;
    assert q as real <= x < q as real + 1.0;
  }

  /** Raising any sub-score never lowers the overall score. */
  lemma OverallMonotone(s: nat, c: nat, t: nat, a: nat, s': nat, c': nat, t': nat, a': nat)
    requires s <= s' && c <= c' && t <= t' && a <= a'
    ensures OverallScore(s, c, t, a) <= OverallScore(s', c', t', a')
  {
  }

  /** A worked case: search 9, content 7, technical 8, AI 4 weigh in at 7.7, which rounds to 8. */
  lemma OverallExample()
    ensures OverallScore(9, 7, 8, 4) == 8
  {
  }

  // ---- recommendations ----

  /** The five recommendation lines the route can emit; `AdviceText` gives each one's wording. */
  datatype Advice = ImproveSearch | ImproveContent | ImproveTechnical | ImproveAi | Congratulate

  /** The text of each recommendation line. */
  function AdviceText(a: Advice): string {
    match a
    case ImproveSearch => "Improve AI search visibility by optimizing for semantic search and AI discovery"
    case ImproveContent => "Add comprehensive titles and meta descriptions to all pages"
    case ImproveTechnical => "Implement proper technical SEO foundations and content structure"
    case ImproveAi => "Add AI optimization files (/llms.txt, /llm.txt, /ai.txt, etc.) for better AI compatibility"
    case Congratulate => "Excellent optimization! Continue monitoring and maintaining high standards."
  }

  /** Where an advice line comes in the order search, content, technical, AI. */
  function AdviceRank(a: Advice): nat {
    match a
    case ImproveSearch => 0
    case ImproveContent => 1
    case ImproveTechnical => 2
    case ImproveAi => 3
    case Congratulate => 4
  }

  /**
   * The recommendation list: one advice line per sub-score below 7, in the
   * order search, content, technical, AI, or the single congratulation when no
   * sub-score is below 7.
   */
  function AdviceList(search: nat, content: nat, technical: nat, ai: nat): (recs: seq<Advice>)
    ensures 1 <= |recs| <= 4
  {
    var pending := (if search < 7 then [ImproveSearch] else [])
      + (if content < 7 then [ImproveContent] else [])
      + (if technical < 7 then [ImproveTechnical] else [])
      + (if ai < 7 then [ImproveAi] else []);
    if |pending| == 0 then [Congratulate] else pending
  }

  /** Each improvement line is present exactly when its sub-score is below 7. */
  lemma AdviceListMembers(search: nat, content: nat, technical: nat, ai: nat)
    ensures var recs := AdviceList(search, content, technical, ai);
      && (ImproveSearch in recs <==> search < 7)
      && (ImproveContent in recs <==> content < 7)
      && (ImproveTechnical in recs <==> technical < 7)
      && (ImproveAi in recs <==> ai < 7)
  {
  }

  /** The congratulation appears only alone, and exactly when every sub-score is at least 7. */
  lemma AdviceListCongratulates(search: nat, content: nat, technical: nat, ai: nat)
    ensures var recs := AdviceList(search, content, technical, ai);
      && (recs == [Congratulate] <==> search >= 7 && content >= 7 && technical >= 7 && ai >= 7)
      && (Congratulate in recs ==> recs == [Congratulate])
  {
    var recs := AdviceList(search, content, technical, ai);
    if search < 7 || content < 7 || technical < 7 || ai < 7 {
      AdviceListMembers(search, content, technical, ai);
      AdviceListOrdered(search, content, technical, ai);
      assert recs[0] in recs && recs[0] != Congratulate;
    }
  }

  /** The lines come in the order search, content, technical, AI, each at most once. */
  lemma AdviceListOrdered(search: nat, content: nat, technical: nat, ai: nat)
    ensures var recs := AdviceList(search, content, technical, ai);
      forall i, j :: 0 <= i < j < |recs| ==> AdviceRank(recs[i]) < AdviceRank(recs[j])
  {
  }

  /** The list as the route builds it, by `push`. */
  method Recommendations(search: nat, content: nat, technical: nat, ai: nat) returns (recs: seq<Advice>)
    ensures recs == AdviceList(search, content, technical, ai)
  {
    recs := [];
    if search < 7 {
      recs := recs + [ImproveSearch];
    }
    if content < 7 {
      recs := recs + [ImproveContent];
    }
    if technical < 7 {
      recs := recs + [ImproveTechnical];
    }
    if ai < 7 {
      recs := recs + [ImproveAi];
    }
    if |recs| == 0 {
      recs := recs + [Congratulate];
    }
  }
}
