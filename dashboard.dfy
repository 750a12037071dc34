/**
 * The dashboard of app/dashboard/page.tsx: from the grouping query's result it
 * derives the overall figures (domains, evaluations, average and top score,
 * activity of the last seven days) and one statistics card per domain, the
 * cards ordered by their latest evaluation. The current time is an input.
 */
module Dashboard {
  import opened Seqs
  import opened Evaluations

  /** Seven days in milliseconds. */
  const WeekMs: int := 7 * 24 * 60 * 60 * 1000

  /** The overall figures; the average is kept in tenths. */
  datatype Overview = Overview(totalDomains: nat, totalEvaluations: nat, averageTenths: int, topScore: int,
                               recentActivity: nat)

  /** `Math.max(...scores)` of a non-empty list. */
  function TopScore(es: seq<Evaluation>): (t: int)
    requires |es| > 0
    ensures forall e :: e in es ==> Score(e) <= t
  {
    if |es| == 1 then Score(es[0])
    else
      var rest := TopScore(es[1..]);
      assert forall e :: e in es ==> e == es[0] || e in es[1..];
      if Score(es[0]) >= rest then Score(es[0]) else rest
  }

  /** The top score is the score of one of the evaluations. */
  lemma {:induction false} TopScoreAttained(es: seq<Evaluation>) returns (i: nat)
    requires |es| > 0
    ensures i < |es| && Score(es[i]) == TopScore(es)
    decreases |es|
  {
    if |es| == 1 || Score(es[0]) >= TopScore(es[1..]) {
      i := 0;
    } else {
      var j := TopScoreAttained(es[1..]);
      i := j + 1;
    }
  }

  function CreatedAfter(t: int): Evaluation -> bool {
    (e: Evaluation) => e.createdAt > t
  }

  /**
   * `dashboardStats`: all zeros when the groups hold no evaluation; otherwise the
   * number of groups and of evaluations, the rounded average and the top score of
   * the flattened evaluations, and how many were created in the last seven days.
   */
  function Summary(groups: seq<DomainGroup>, now: int): (o: Overview)
    ensures |Flatten(groups)| == 0 ==> o == Overview(0, 0, 0, 0, 0)
    ensures o.totalEvaluations == |Flatten(groups)| && o.recentActivity <= o.totalEvaluations
    ensures |Flatten(groups)| > 0 ==>
      && o.totalDomains == |groups|
      && (forall e :: e in Flatten(groups) ==> Score(e) <= o.topScore)
      && o.recentActivity == |Filter(Flatten(groups), CreatedAfter(now - WeekMs))|
  {
    var all := Flatten(groups);
    if |all| == 0 then Overview(0, 0, 0, 0, 0)
    else
      Overview(|groups|, |all|, AverageTenths(SumScores(all), |all|), TopScore(all),
               |Filter(all, CreatedAfter(now - WeekMs))|)
  }

  /** The flattened groups of the query hold exactly the user's evaluations. */
  lemma FlattenMembers(es: seq<Evaluation>)
    ensures forall e :: e in Flatten(Grouping(es)) <==> e in es
  {
    GroupsByDomain(es);
    GroupsCoverAll(es);
  }

  /**
   * On the grouping of the user's evaluations the figures are those of the
   * evaluations themselves: their number, the number of distinct domains, the
   * rounded mean of all scores, a top score no evaluation exceeds and one
   * reaches, and the count of evaluations created in the last seven days.
   */
  lemma SummaryOfGrouping(es: seq<Evaluation>, now: int)
    requires |es| > 0
    ensures var o := Summary(Grouping(es), now);
      && o.totalEvaluations == |es|
      && o.totalDomains == |Domains(es)|
      && o.averageTenths == AverageTenths(SumScores(es), |es|)
      && (forall e :: e in es ==> Score(e) <= o.topScore)
      && (exists e :: e in es && Score(e) == o.topScore)
      && o.recentActivity == |Filter(es, CreatedAfter(now - WeekMs))|
  {
    var all := Flatten(Grouping(es));
    GroupsPreserveCount(es);
    FlattenMembers(es);
    SumPermutation(all, es);
    FilterPermutation(all, es, CreatedAfter(now - WeekMs));
    var i := TopScoreAttained(all);
    assert all[i] in es;
  }

  /** The dashboard average lies between the lowest and the highest score, in tenths. */
  lemma SummaryAverageWithin(es: seq<Evaluation>, now: int, lo: int, hi: int)
    requires |es| > 0
    requires forall e :: e in es ==> lo <= Score(e) <= hi
    ensures 10 * lo <= Summary(Grouping(es), now).averageTenths <= 10 * hi
  {
    SummaryOfGrouping(es, now);
    SumScoresBounds(es, lo, hi);
    AverageTenthsWithin(SumScores(es), |es|, lo, hi);
  }

  /**
   * One domain card, as the page computes it: the group sorted newest first by
   * `created_at` gives the latest and the oldest entry and the five shown; the
   * average is taken over the group as it came.
   */
  function Card(g: DomainGroup): DomainStats
    requires |g.evaluations| > 0
  {
    var sorted := SortDesc(g.evaluations, CreatedAt);
    var latest := sorted[0];
    var oldest := sorted[|sorted| - 1];
    var n := |g.evaluations|;
    DomainStats(g.domain, n, Score(latest), AverageTenths(SumScores(g.evaluations), n),
                if n > 1 then Score(latest) - Score(oldest) else 0,
                oldest.createdAt, latest.createdAt, Take(sorted, 5))
  }

  /** A card is the statistics of its group sorted newest first. */
  lemma CardIsStatsOf(g: DomainGroup)
    requires |g.evaluations| > 0
    ensures Card(g) == StatsOf(g.domain, SortDesc(g.evaluations, CreatedAt))
  {
    SumSorted(g.evaluations);
  }

  /** A card's first and last dates bound the creation times of the group's evaluations. */
  lemma CardDates(g: DomainGroup)
    requires |g.evaluations| > 0
    ensures forall e :: e in g.evaluations ==> Card(g).firstEvaluated <= e.createdAt <= Card(g).lastEvaluated
  {
    SortDescExtremes(g.evaluations, CreatedAt);
  }

  /**
   * Groups from the query are already newest first, so the page's re-sort changes
   * nothing and its card equals the statistics `getDomainStats` computes over them.
   */
  lemma QueryCardsNeedNoSort(es: seq<Evaluation>, i: nat)
    requires i < |Grouping(es)|
    ensures var g := Grouping(es)[i];
      |g.evaluations| > 0 && Card(g) == StatsOf(g.domain, g.evaluations)
  {
    var g := Grouping(es)[i];
    GroupAt(es, i);
    CardIsStatsOf(g);
    SortDescOfSorted(g.evaluations, CreatedAt);
  }

  function LastEvaluated(s: DomainStats): int { s.lastEvaluated }

  function Cards(groups: seq<DomainGroup>): (r: seq<DomainStats>)
    requires forall i :: 0 <= i < |groups| ==> |groups[i].evaluations| > 0
    ensures |r| == |groups| && forall i :: 0 <= i < |groups| ==> r[i] == Card(groups[i])
  {
    seq(|groups|, i requires 0 <= i < |groups| => Card(groups[i]))
  }

  /**
   * `domainStats`: one card per group, the cards ordered by their latest
   * evaluation, most recent first, ties in key order.
   */
  function DomainCards(groups: seq<DomainGroup>): (r: seq<DomainStats>)
    requires forall i :: 0 <= i < |groups| ==> |groups[i].evaluations| > 0
    ensures |r| == |groups|
    ensures multiset(r) == multiset(Cards(groups))
    ensures SortedDesc(r, LastEvaluated)
  {
    SortDescSorted(Cards(groups), LastEvaluated);
    SortDesc(Cards(groups), LastEvaluated)
  }

  /** Every group of the query yields a card: the page's precondition holds on the query's result. */
  lemma GroupsAreNonEmpty(es: seq<Evaluation>)
    ensures forall i :: 0 <= i < |Grouping(es)| ==> |Grouping(es)[i].evaluations| > 0
  {
    GroupsByDomain(es);
  }

  /** Every group of the query is non-empty, and the card of each of the user's domains is shown. */
  lemma EveryDomainHasACard(es: seq<Evaluation>, i: nat)
    requires i < |Grouping(es)|
    ensures var g := Grouping(es);
      && (forall j :: 0 <= j < |g| ==> |g[j].evaluations| > 0)
      && Card(g[i]) in DomainCards(g)
  {
    GroupsAreNonEmpty(es);
    var g := Grouping(es);
    assert Cards(g)[i] in multiset(Cards(g));
  }
}
