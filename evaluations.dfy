/**
 * The `evaluations` table (convex/evaluations.ts): an upsert on (user, url) that
 * keeps a row's id and `created_at` and stamps `updated_at`, the bounded and
 * filtered queries, the per-user grouping by domain and the per-domain
 * statistics. Scores are the integers the evaluate route stores.
 */
module Evaluations {
  import opened Wrappers
  import opened Seqs
  import opened Tables
  import opened Search

  /** The arguments of `saveEvaluation`. */
  datatype EvaluationArgs = EvaluationArgs(
    userId: string, url: string, domain: string,
    overallScore: int, searchScore: int, contentScore: int, technicalScore: int, aiScore: int,
    performance: SearchPerformance, recommendations: seq<string>,
    creditsConsumed: int, scanType: string)

  /** A stored row: the arguments plus the id and the two timestamps. */
  datatype Evaluation = Evaluation(id: nat, args: EvaluationArgs, createdAt: int, updatedAt: int)

  function Key(e: Evaluation): RowKey { RowKey(e.args.userId, e.args.url) }
  function Id(e: Evaluation): nat { e.id }
  function CreatedAt(e: Evaluation): int { e.createdAt }
  function Score(e: Evaluation): int { e.args.overallScore }
  function KeyOf(args: EvaluationArgs): RowKey { RowKey(args.userId, args.url) }

  function OfUser(userId: string): Evaluation -> bool { (e: Evaluation) => e.args.userId == userId }
  function InDomain(domain: string): Evaluation -> bool { (e: Evaluation) => e.args.domain == domain }

  /** Keys are unique and ids are fresh. */
  predicate StoreInvariant(rows: seq<Evaluation>, next: nat) {
    UniqueKeys(rows, Key) && FreshIds(rows, Id, next)
  }

  /**
   * The table after `saveEvaluation(args)` at time `now`: an existing row is
   * patched with the arguments and `updated_at = now`; otherwise a row with
   * `created_at = updated_at = now` is inserted under id `next`.
   */
  function SavedRows(rows: seq<Evaluation>, args: EvaluationArgs, now: int, next: nat): seq<Evaluation> {
    Upsert(rows, Key, KeyOf(args), (e: Evaluation) => Evaluation(e.id, args, e.createdAt, now),
           Evaluation(next, args, now, now))
  }

  /** The next free id after the save. */
  function NextAfterSave(rows: seq<Evaluation>, args: EvaluationArgs, next: nat): nat {
    if Lookup(rows, Key, KeyOf(args)).Some? then next else next + 1
  }

  /**
   * After a save exactly one row has the key; it carries the new arguments and
   * `updated_at = now`; it keeps the old row's id and `created_at`, or is new with
   * the next id and `created_at = now`; no other key's row changes.
   */
  lemma SaveSemantics(rows: seq<Evaluation>, args: EvaluationArgs, now: int, next: nat)
    requires StoreInvariant(rows, next)
    ensures var r := SavedRows(rows, args, now, next);
      var before := Lookup(rows, Key, KeyOf(args));
      && StoreInvariant(r, NextAfterSave(rows, args, next))
      && SingleRow(r, Key, KeyOf(args))
      && Lookup(r, Key, KeyOf(args)).Some?
      && Lookup(r, Key, KeyOf(args)).value.args == args
      && Lookup(r, Key, KeyOf(args)).value.updatedAt == now
      && (before.Some? ==>
            Lookup(r, Key, KeyOf(args)).value.id == before.value.id
            && Lookup(r, Key, KeyOf(args)).value.createdAt == before.value.createdAt)
      && (before.None? ==>
            Lookup(r, Key, KeyOf(args)).value.id == next && Lookup(r, Key, KeyOf(args)).value.createdAt == now)
      && (forall k :: k != KeyOf(args) ==> Lookup(r, Key, k) == Lookup(rows, Key, k))
      && |r| == |rows| + (if before.Some? then 0 else 1)
  {
    UpsertSemantics(rows, Key, Id, next, KeyOf(args),
                    (e: Evaluation) => Evaluation(e.id, args, e.createdAt, now), Evaluation(next, args, now, now));
  }

  /** Saving the same arguments twice leaves one row, created by the first save. */
  lemma SaveTwice(rows: seq<Evaluation>, args: EvaluationArgs, t1: int, t2: int, next: nat)
    requires StoreInvariant(rows, next)
    ensures var once := SavedRows(rows, args, t1, next);
      var twice := SavedRows(once, args, t2, NextAfterSave(rows, args, next));
      && |twice| == |once|
      && SingleRow(twice, Key, KeyOf(args))
      && Lookup(twice, Key, KeyOf(args)).value.id == Lookup(once, Key, KeyOf(args)).value.id
      && Lookup(twice, Key, KeyOf(args)).value.createdAt == Lookup(once, Key, KeyOf(args)).value.createdAt
      && Lookup(twice, Key, KeyOf(args)).value.updatedAt == t2
  {
    SaveSemantics(rows, args, t1, next);
    SaveSemantics(SavedRows(rows, args, t1, next), args, t2, NextAfterSave(rows, args, next));
  }

  /** `args.minScore || 0` */
  function MinScore(minScore: Option<int>): int {
    if minScore.Some? && minScore.value != 0 then minScore.value else 0
  }

  /** `args.maxScore || 10`: a maximum of 0 is read as 10. */
  function MaxScore(maxScore: Option<int>): (m: int)
    ensures maxScore.None? || maxScore.value == 0 ==> m == 10
    ensures maxScore.Some? && maxScore.value != 0 ==> m == maxScore.value
  {
    if maxScore.Some? && maxScore.value != 0 then maxScore.value else 10
  }

  function InScoreRange(lo: int, hi: int): Evaluation -> bool { (e: Evaluation) => lo <= e.args.overallScore <= hi }

  // ---- grouping by domain ----

  /** One entry of the object `getEvaluationsByUserGroupedByDomain` returns. */
  datatype DomainGroup = DomainGroup(domain: string, evaluations: seq<Evaluation>)

  /** The distinct domains of `es` in order of first appearance (the object's key order). */
  function Domains(es: seq<Evaluation>): seq<string> {
    if |es| == 0 then []
    else
      var p := Domains(es[..|es| - 1]);
      var d := es[|es| - 1].args.domain;
      if d in p then p else p + [d]
  }

  /** The key order lists every domain of `es` exactly once, and nothing else. */
  lemma {:induction false} DomainsFacts(es: seq<Evaluation>)
    ensures forall i, j :: 0 <= i < j < |Domains(es)| ==> Domains(es)[i] != Domains(es)[j]
    ensures forall d :: d in Domains(es) <==> exists e :: e in es && e.args.domain == d
    decreases |es|
  {
    if |es| > 0 {
      DomainsFacts(es[..|es| - 1]);
      assert es == es[..|es| - 1] + [es[|es| - 1]];
    }
  }

  /** The grouping: one group per domain, each sorted by `created_at`, newest first. */
  function Grouping(es: seq<Evaluation>): (g: seq<DomainGroup>)
    ensures |g| == |Domains(es)|
  {
    var ds := Domains(es);
    seq(|ds|, i requires 0 <= i < |ds| => DomainGroup(ds[i], SortDesc(Filter(es, InDomain(ds[i])), CreatedAt)))
  }

  /** `Object.values(grouped).flat()` */
  function Flatten(g: seq<DomainGroup>): (r: seq<Evaluation>)
    ensures forall e :: e in r <==> exists i :: 0 <= i < |g| && e in g[i].evaluations
  {
    if |g| == 0 then [] else g[0].evaluations + Flatten(g[1..])
  }

  /** One more evaluation adds its domain to the key order when the domain is new. */
  lemma DomainsSnoc(p: seq<Evaluation>, e: Evaluation)
    ensures Domains(p + [e]) == if e.args.domain in Domains(p) then Domains(p) else Domains(p) + [e.args.domain]
  {
    assert (p + [e])[..|p|] == p;
  }

  /** One more evaluation joins the rows of its own domain only. */
  lemma FilterSnoc(p: seq<Evaluation>, e: Evaluation, d: string)
    ensures Filter(p + [e], InDomain(d)) == Filter(p, InDomain(d)) + (if e.args.domain == d then [e] else [])
  {
    FilterAppend(p, [e], InDomain(d));
    assert Filter([e], InDomain(d)) == if e.args.domain == d then [e] else [];
  }

  /** A domain that does not occur has no rows. */
  lemma FilterAbsent(p: seq<Evaluation>, d: string)
    ensures d !in Domains(p) ==> Filter(p, InDomain(d)) == []
  {
    var f := Filter(p, InDomain(d));
    DomainsFacts(p);
    if |f| > 0 {
      assert f[0] in f;
    }
  }

  /** The groups of `ds`, unsorted, one after the other. */
  function FlatGroups(ds: seq<string>, es: seq<Evaluation>): seq<Evaluation> {
    if |ds| == 0 then [] else Filter(es, InDomain(ds[0])) + FlatGroups(ds[1..], es)
  }

  /** Appending an evaluation adds it once to the groups of distinct domains when its domain is one of them. */
  lemma {:induction false} FlatGroupsAppend(ds: seq<string>, p: seq<Evaluation>, e: Evaluation)
    requires forall i, j :: 0 <= i < j < |ds| ==> ds[i] != ds[j]
    ensures multiset(FlatGroups(ds, p + [e])) ==
      multiset(FlatGroups(ds, p)) + (if e.args.domain in ds then multiset{e} else multiset{})
    decreases |ds|
  {
    if |ds| > 0 {
      var d := e.args.domain;
      FilterSnoc(p, e, ds[0]);
      FlatGroupsAppend(ds[1..], p, e);
      var head := multiset(Filter(p + [e], InDomain(ds[0])));
      assert head == multiset(Filter(p, InDomain(ds[0]))) + (if d == ds[0] then multiset{e} else multiset{});
      if d == ds[0] {
        assert d !in ds[1..];
      } else {
        assert d in ds <==> d in ds[1..];
      }
    }
  }

  /** The groups of distinct domains that cover every evaluation hold each evaluation once. */
  lemma {:induction false} FlatGroupsCover(ds: seq<string>, es: seq<Evaluation>)
    requires forall i, j :: 0 <= i < j < |ds| ==> ds[i] != ds[j]
    requires forall e :: e in es ==> e.args.domain in ds
    ensures multiset(FlatGroups(ds, es)) == multiset(es)
    decreases |es|
  {
    if |es| == 0 {
      FlatGroupsEmpty(ds, es);
    } else {
      var p := es[..|es| - 1];
      var e := es[|es| - 1];
      assert es == p + [e];
      FlatGroupsCover(ds, p);
      FlatGroupsAppend(ds, p, e);
    }
  }

  lemma {:induction false} FlatGroupsEmpty(ds: seq<string>, es: seq<Evaluation>)
    requires |es| == 0
    ensures FlatGroups(ds, es) == []
    decreases |ds|
  {
    if |ds| > 0 {
      FlatGroupsEmpty(ds[1..], es);
    }
  }

  /** Sorting each group does not change what the flattened groups hold. */
  lemma {:induction false} FlattenSorted(g: seq<DomainGroup>, ds: seq<string>, es: seq<Evaluation>)
    requires |g| == |ds|
    requires forall i :: 0 <= i < |g| ==> multiset(g[i].evaluations) == multiset(Filter(es, InDomain(ds[i])))
    ensures multiset(Flatten(g)) == multiset(FlatGroups(ds, es))
    decreases |g|
  {
    if |g| > 0 {
      FlattenSorted(g[1..], ds[1..], es);
    }
  }

  /** The `i`-th group: non-empty, sorted newest first, and exactly its domain's evaluations. */
  lemma GroupAt(es: seq<Evaluation>, i: nat)
    requires i < |Grouping(es)|
    ensures var g := Grouping(es)[i];
      && g.domain == Domains(es)[i]
      && |g.evaluations| > 0
      && SortedDesc(g.evaluations, CreatedAt)
      && multiset(g.evaluations) == multiset(Filter(es, InDomain(g.domain)))
      && forall e :: e in g.evaluations <==> e in es && e.args.domain == g.domain
  {
    var ds := Domains(es);
    var g := Grouping(es)[i];
    var f := Filter(es, InDomain(ds[i]));
    assert g.evaluations == SortDesc(f, CreatedAt);
    DomainsFacts(es);
    assert ds[i] in ds;
    var e0 :| e0 in es && e0.args.domain == ds[i];
    assert e0 in f;
    SortDescSorted(f, CreatedAt);
    forall e ensures e in g.evaluations <==> e in f {
      assert e in g.evaluations <==> e in multiset(g.evaluations);
      assert e in f <==> e in multiset(f);
    }
  }

  /** The groups are keyed by distinct domains, and each is non-empty, sorted and holds exactly its domain's evaluations. */
  lemma GroupsByDomain(es: seq<Evaluation>)
    ensures var g := Grouping(es);
      && (forall i, j :: 0 <= i < j < |g| ==> g[i].domain != g[j].domain)
      && (forall i :: 0 <= i < |g| ==> |g[i].evaluations| > 0 && SortedDesc(g[i].evaluations, CreatedAt))
      && (forall i, e :: 0 <= i < |g| ==> (e in g[i].evaluations <==> e in es && e.args.domain == g[i].domain))
  {
    var g := Grouping(es);
    DomainsFacts(es);
    forall i | 0 <= i < |g|
      ensures g[i].domain == Domains(es)[i]
      ensures |g[i].evaluations| > 0 && SortedDesc(g[i].evaluations, CreatedAt)
      ensures forall e :: e in g[i].evaluations <==> e in es && e.args.domain == g[i].domain
    {
      GroupAt(es, i);
    }
  }

  /** Every evaluation lands in the group of its domain. */
  lemma GroupsCoverAll(es: seq<Evaluation>)
    ensures var g := Grouping(es);
      forall e :: e in es ==> exists i :: 0 <= i < |g| && g[i].domain == e.args.domain && e in g[i].evaluations
  {
    var g := Grouping(es);
    var ds := Domains(es);
    DomainsFacts(es);
    forall e | e in es ensures exists i :: 0 <= i < |g| && g[i].domain == e.args.domain && e in g[i].evaluations {
      assert e.args.domain in ds;
      var i :| 0 <= i < |ds| && ds[i] == e.args.domain;
      GroupAt(es, i);
    }
  }

  /** The groups together hold every evaluation exactly once, so the total count is preserved. */
  lemma GroupsPreserveCount(es: seq<Evaluation>)
    ensures multiset(Flatten(Grouping(es))) == multiset(es)
    ensures |Flatten(Grouping(es))| == |es|
  {
    var g := Grouping(es);
    var ds := Domains(es);
    forall i | 0 <= i < |g| ensures multiset(g[i].evaluations) == multiset(Filter(es, InDomain(ds[i]))) {
      GroupAt(es, i);
    }
    FlattenSorted(g, ds, es);
    DomainsFacts(es);
    FlatGroupsCover(ds, es);
    assert |multiset(Flatten(g))| == |multiset(es)|;
  }

  // ---- per-domain statistics ----

  /** Sum of the overall scores. */
  function SumScores(es: seq<Evaluation>): int {
    if |es| == 0 then 0 else Score(es[0]) + SumScores(es[1..])
  }

  /** Scores between `lo` and `hi` give a sum between `lo * n` and `hi * n`. */
  lemma {:induction false} SumScoresBounds(es: seq<Evaluation>, lo: int, hi: int)
    requires forall e :: e in es ==> lo <= Score(e) <= hi
    ensures lo * |es| <= SumScores(es) <= hi * |es|
    decreases |es|
  {
    if |es| > 0 {
      var n := |es| - 1;
      assert es[0] in es;
      SumScoresBounds(es[1..], lo, hi);
      assert lo * |es| == lo * n + lo && hi * |es| == hi * n + hi;
    }
  }

  /** The sum over a concatenation is the sum of the sums. */
  lemma {:induction false} SumAppend(a: seq<Evaluation>, b: seq<Evaluation>)
    ensures SumScores(a + b) == SumScores(a) + SumScores(b)
    decreases |a|
  {
    if |a| == 0 {
      assert a + b == b;
    } else {
      assert (a + b)[0] == a[0];
      assert (a + b)[1..] == a[1..] + b;
      SumAppend(a[1..], b);
    }
  }

  /** Reordering the evaluations does not change the sum of their scores. */
  lemma {:induction false} SumPermutation(a: seq<Evaluation>, b: seq<Evaluation>)
    requires multiset(a) == multiset(b)
    ensures SumScores(a) == SumScores(b)
    decreases |a|
  {
    if |a| > 0 {
      var x := a[0];
      assert x in multiset(b);
      var k :| 0 <= k < |b| && b[k] == x;
      var rest := b[..k] + b[k + 1..];
      assert b == b[..k] + [x] + b[k + 1..];
      assert a == [x] + a[1..];
      assert multiset(b) == multiset(b[..k]) + multiset{x} + multiset(b[k + 1..]);
      assert multiset(rest) == multiset(b[..k]) + multiset(b[k + 1..]);
      assert multiset(a) == multiset{x} + multiset(a[1..]);
      forall y ensures multiset(a[1..])[y] == multiset(rest)[y] {
        assert multiset(a)[y] == multiset(b)[y];
      }
      MultisetExt(multiset(a[1..]), multiset(rest));
      SumPermutation(a[1..], rest);
      SumAppend(b[..k] + [x], b[k + 1..]);
      SumAppend(b[..k], [x]);
      SumAppend(b[..k], b[k + 1..]);
    }
  }

  /** Sorting does not change the sum, so the average of a sorted copy is the average. */
  lemma SumSorted(s: seq<Evaluation>)
    ensures SumScores(SortDesc(s, CreatedAt)) == SumScores(s)
  {
    SumPermutation(SortDesc(s, CreatedAt), s);
  }

  /**
   * `Math.round(x * 10) / 10` of the average `sum / n`, kept in tenths: the
   * nearest whole number of tenths, halves rounded up.
   */
  function AverageTenths(sum: int, n: nat): (t: int)
    requires n > 0
    ensures 2 * n * t <= 20 * sum + n < 2 * n * t + 2 * n
  {
    (20 * sum + n) / (2 * n)
  }

  /** The rounded average lies between the smallest and the largest score. */
  lemma AverageTenthsWithin(sum: int, n: nat, lo: int, hi: int)
    requires n > 0 && lo * n <= sum <= hi * n
    ensures 10 * lo <= AverageTenths(sum, n) <= 10 * hi
  {
    var t := AverageTenths(sum, n);
    assert 2 * n * t < 2 * n * (10 * hi + 1) by {
      assert 20 * sum <= 20 * (hi * n);
    }
    CancelFactor(2 * n, t, 10 * hi + 1);
    assert 2 * n * (10 * lo) < 2 * n * (t + 1) by {
      assert 20 * (lo * n) <= 20 * sum;
    }
    CancelFactor(2 * n, 10 * lo, t + 1);
  }

  /** A positive factor cancels from a strict inequality. */
  lemma CancelFactor(m: int, a: int, b: int)
    requires m > 0 && m * a < m * b
    ensures a < b
  {
  }

  /** What `getDomainStats` and the dashboard report for one domain. */
  datatype DomainStats = DomainStats(
    domain: string, totalEvaluations: nat, latestScore: int, averageTenths: int, improvement: int,
    firstEvaluated: int, lastEvaluated: int, evaluations: seq<Evaluation>)

  /**
   * The statistics of a non-empty, newest-first list: the first entry is the
   * latest and the last the oldest; the improvement is their score difference
   * when there is more than one entry; the five newest entries are kept.
   */
  function StatsOf(domain: string, ordered: seq<Evaluation>): (s: DomainStats)
    requires |ordered| > 0
    ensures s.domain == domain && s.totalEvaluations == |ordered|
    ensures s.latestScore == Score(ordered[0]) && s.lastEvaluated == ordered[0].createdAt
    ensures s.firstEvaluated == ordered[|ordered| - 1].createdAt
    ensures |ordered| == 1 ==> s.improvement == 0
    ensures |ordered| > 1 ==> s.improvement == Score(ordered[0]) - Score(ordered[|ordered| - 1])
    ensures 2 * |ordered| * s.averageTenths <= 20 * SumScores(ordered) + |ordered| < 2 * |ordered| * s.averageTenths + 2 * |ordered|
    ensures |s.evaluations| == (if |ordered| < 5 then |ordered| else 5)
    ensures forall i :: 0 <= i < |s.evaluations| ==> s.evaluations[i] == ordered[i]
  {
    var latest := ordered[0];
    var oldest := ordered[|ordered| - 1];
    DomainStats(domain, |ordered|, Score(latest), AverageTenths(SumScores(ordered), |ordered|),
                if |ordered| > 1 then Score(latest) - Score(oldest) else 0,
                oldest.createdAt, latest.createdAt, Take(ordered, 5))
  }

  /** The reported average lies between the lowest and the highest score of the domain. */
  lemma StatsAverageWithin(domain: string, ordered: seq<Evaluation>, lo: int, hi: int)
    requires |ordered| > 0
    requires forall e :: e in ordered ==> lo <= Score(e) <= hi
    ensures 10 * lo <= StatsOf(domain, ordered).averageTenths <= 10 * hi
  {
    SumScoresBounds(ordered, lo, hi);
    AverageTenthsWithin(SumScores(ordered), |ordered|, lo, hi);
  }

  /** A domain whose every evaluation has the same score shows no improvement and that score as its average. */
  lemma SteadyScores(domain: string, ordered: seq<Evaluation>, score: int)
    requires |ordered| > 0
    requires forall e :: e in ordered ==> Score(e) == score
    ensures StatsOf(domain, ordered).improvement == 0
    ensures StatsOf(domain, ordered).averageTenths == 10 * score
  {
    assert ordered[0] in ordered && ordered[|ordered| - 1] in ordered;
    StatsAverageWithin(domain, ordered, score, score);
  }

  /** `xs` holds the last entries of `f`, newest first. */
  ghost predicate LastOfReversed(xs: seq<Evaluation>, f: seq<Evaluation>) {
    |xs| <= |f| && forall i :: 0 <= i < |xs| ==> xs[i] == f[|f| - 1 - i]
  }

  /** The statistics of an oldest-first list, read off that list: its last entry is the latest, and the five kept are its last five, newest first. */
  lemma StatsOfOldestFirst(domain: string, f: seq<Evaluation>)
    requires |f| > 0
    ensures var st := StatsOf(domain, Reverse(f));
      && st.totalEvaluations == |f|
      && st.latestScore == Score(f[|f| - 1]) && st.lastEvaluated == f[|f| - 1].createdAt
      && st.firstEvaluated == f[0].createdAt
      && st.improvement == (if |f| > 1 then Score(f[|f| - 1]) - Score(f[0]) else 0)
      && |st.evaluations| == (if |f| < 5 then |f| else 5)
      && LastOfReversed(st.evaluations, f)
      && (forall e :: e in st.evaluations ==> e in f)
  {
    var ordered := Reverse(f);
    var st := StatsOf(domain, ordered);
    forall e | e in st.evaluations ensures e in f {
      var i :| 0 <= i < |st.evaluations| && st.evaluations[i] == e;
      assert e == f[|f| - 1 - i];
    }
  }

  /** `grouped` and `order` hold the lists and key order of the evaluations `p`. */
  ghost predicate Collected(p: seq<Evaluation>, grouped: map<string, seq<Evaluation>>, order: seq<string>) {
    && order == Domains(p)
    && (forall d :: d in grouped <==> d in order)
    && (forall d :: d in grouped ==> grouped[d] == Filter(p, InDomain(d)))
  }

  /** The collected lists after one more evaluation of a domain already seen. */
  lemma CollectSeen(p: seq<Evaluation>, e: Evaluation, grouped: map<string, seq<Evaluation>>, order: seq<string>)
    requires Collected(p, grouped, order) && e.args.domain in grouped
    ensures Collected(p + [e], grouped[e.args.domain := grouped[e.args.domain] + [e]], order)
  {
    var d0 := e.args.domain;
    var grouped' := grouped[d0 := grouped[d0] + [e]];
    DomainsSnoc(p, e);
    assert grouped'.Keys == grouped.Keys;
    forall d | d in grouped' ensures grouped'[d] == Filter(p + [e], InDomain(d)) {
      FilterSnoc(p, e, d);
      if d == d0 {
        assert grouped'[d] == Filter(p, InDomain(d)) + [e];
      } else {
        assert grouped'[d] == grouped[d];
      }
    }
  }

  /** The collected lists after one more evaluation of a new domain. */
  lemma CollectNew(p: seq<Evaluation>, e: Evaluation, grouped: map<string, seq<Evaluation>>, order: seq<string>)
    requires Collected(p, grouped, order) && e.args.domain !in grouped
    ensures Collected(p + [e], grouped[e.args.domain := [e]], order + [e.args.domain])
  {
    var grouped' := grouped[e.args.domain := [e]];
    DomainsSnoc(p, e);
    FilterAbsent(p, e.args.domain);
    forall d | d in grouped' ensures grouped'[d] == Filter(p + [e], InDomain(d)) {
      FilterSnoc(p, e, d);
    }
  }

  /**
   * The first loop of the grouping: each evaluation is appended to its domain's
   * list, which is created (and its domain recorded) on the domain's first row.
   */
  method CollectByDomain(es: seq<Evaluation>) returns (grouped: map<string, seq<Evaluation>>, order: seq<string>)
    ensures order == Domains(es)
    ensures forall d :: d in grouped <==> d in order
    ensures forall d :: d in grouped ==> grouped[d] == Filter(es, InDomain(d))
  {
    grouped := map[];
    order := [];
    for i := 0 to |es|
      invariant Collected(es[..i], grouped, order)
    {
      var e := es[i];
      var d := e.args.domain;
      assert es[..i + 1] == es[..i] + [e];
      if d in grouped {
        CollectSeen(es[..i], e, grouped, order);
        grouped := grouped[d := grouped[d] + [e]];
      } else {
        CollectNew(es[..i], e, grouped, order);
        grouped := grouped[d := [e]];
        order := order + [d];
      }
    }
    assert es[..|es|] == es;
  }

  /** The second loop: every domain's list sorted by `created_at`, newest first, in key order. */
  method SortGroups(grouped: map<string, seq<Evaluation>>, order: seq<string>) returns (groups: seq<DomainGroup>)
    requires forall d :: d in order ==> d in grouped
    ensures |groups| == |order|
    ensures forall k :: 0 <= k < |order| ==> groups[k] == DomainGroup(order[k], SortDesc(grouped[order[k]], CreatedAt))
  {
    groups := [];
    for j := 0 to |order|
      invariant |groups| == j
      invariant forall k :: 0 <= k < j ==> groups[k] == DomainGroup(order[k], SortDesc(grouped[order[k]], CreatedAt))
    {
      var d := order[j];
      var sorted := SortDesc(grouped[d], CreatedAt);
      ghost var prev := groups;
      groups := groups + [DomainGroup(d, sorted)];
      assert forall k :: 0 <= k < j ==> groups[k] == prev[k];
    }
  }

  /** The two loops together compute the grouping. */
  lemma CollectedIsGrouping(es: seq<Evaluation>, grouped: map<string, seq<Evaluation>>, order: seq<string>,
                            groups: seq<DomainGroup>)
    requires order == Domains(es)
    requires forall d :: d in order ==> d in grouped && grouped[d] == Filter(es, InDomain(d))
    requires |groups| == |order|
    requires forall k :: 0 <= k < |order| ==> groups[k] == DomainGroup(order[k], SortDesc(grouped[order[k]], CreatedAt))
    ensures groups == Grouping(es)
  {
    var target := Grouping(es);
    forall k | 0 <= k < |order| ensures groups[k] == target[k] {
      assert grouped[order[k]] == Filter(es, InDomain(order[k]));
    }
  }

  /** The `evaluations` table. */
  class EvaluationStore {
    var rows: seq<Evaluation>
    var nextId: nat

    ghost predicate Valid()
      reads this
    {
      StoreInvariant(rows, nextId)
    }

    constructor()
      ensures Valid() && rows == [] && nextId == 0
    {
      rows := [];
      nextId := 0;
    }

    /** `saveEvaluation`: returns the id of the row that now holds `args`. */
    method Save(args: EvaluationArgs, now: int) returns (id: nat)
      requires Valid()
      modifies this
      ensures Valid()
      ensures rows == SavedRows(old(rows), args, now, old(nextId))
      ensures nextId == NextAfterSave(old(rows), args, old(nextId))
      ensures Lookup(rows, Key, KeyOf(args)).Some? && id == Lookup(rows, Key, KeyOf(args)).value.id
    {
      SaveSemantics(rows, args, now, nextId);
      var found := FindKey(rows, Key, KeyOf(args));
      if found.Some? {
        var existing := rows[found.value];
        rows := rows[found.value := Evaluation(existing.id, args, existing.createdAt, now)];
        id := existing.id;
      } else {
        rows := rows + [Evaluation(nextId, args, now, now)];
        id := nextId;
        nextId := nextId + 1;
      }
    }

    /** `getEvaluation`: the row of (user, url), if there is one. */
    function Get(userId: string, url: string): (r: Option<Evaluation>)
      reads this
      ensures r.Some? <==> exists e :: e in rows && e.args.userId == userId && e.args.url == url
      ensures r.Some? ==> r.value in rows && r.value.args.userId == userId && r.value.args.url == url
    {
      var r := Lookup(rows, Key, RowKey(userId, url));
      assert r.None? ==> forall e :: e in rows ==> Key(e) != RowKey(userId, url);
      r
    }

    /** `getEvaluationsByUser`: the user's newest rows, at most `limit` (50 by default). */
    function ByUser(userId: string, limit: Option<nat>): (r: seq<Evaluation>)
      reads this
      ensures |r| <= EffectiveLimit(limit) && |r| <= |Filter(rows, OfUser(userId))|
      ensures forall e :: e in r ==> e in rows && e.args.userId == userId
      ensures forall i :: 0 <= i < |r| ==> r[i] == Filter(rows, OfUser(userId))[|Filter(rows, OfUser(userId))| - 1 - i]
      ensures |Filter(rows, OfUser(userId))| <= EffectiveLimit(limit) ==>
        forall e :: e in rows && e.args.userId == userId ==> e in r
      ensures var f := Filter(rows, OfUser(userId));
        |r| == if EffectiveLimit(limit) < |f| then EffectiveLimit(limit) else |f|
    {
      NewestFirst(rows, OfUser(userId), limit)
    }

    /** `getEvaluationsByDomain`: exactly the rows with that domain, oldest first. */
    function ByDomain(domain: string): (r: seq<Evaluation>)
      reads this
      ensures forall e :: e in r <==> e in rows && e.args.domain == domain
      ensures multiset(r) <= multiset(rows)
      ensures Subsequence(r, rows)
    {
      FilterMultiset(rows, InDomain(domain));
      FilterSubsequence(rows, InDomain(domain));
      Filter(rows, InDomain(domain))
    }

    /**
     * `getEvaluationsByScore`, over all users: the newest rows whose overall score
     * lies in [min, max], where an absent or zero bound is read as 0 and 10.
     */
    function ByScore(minScore: Option<int>, maxScore: Option<int>, limit: Option<nat>): (r: seq<Evaluation>)
      reads this
      ensures |r| <= EffectiveLimit(limit)
      ensures forall e :: e in r ==> e in rows && MinScore(minScore) <= e.args.overallScore <= MaxScore(maxScore)
      ensures maxScore == Some(0) ==> forall e :: e in r ==> e.args.overallScore <= 10
      ensures var f := Filter(rows, InScoreRange(MinScore(minScore), MaxScore(maxScore)));
        |f| <= EffectiveLimit(limit) ==>
          forall e :: e in rows && MinScore(minScore) <= e.args.overallScore <= MaxScore(maxScore) ==> e in r
      ensures var f := Filter(rows, InScoreRange(MinScore(minScore), MaxScore(maxScore)));
        && |r| == (if EffectiveLimit(limit) < |f| then EffectiveLimit(limit) else |f|)
        && forall i :: 0 <= i < |r| ==> r[i] == f[|f| - 1 - i]
    {
      NewestFirst(rows, InScoreRange(MinScore(minScore), MaxScore(maxScore)), limit)
    }

    /**
     * `getRecentEvaluations`, over all users: `by_created_at` read backwards, so
     * the latest `created_at` first and, among equal ones, the later insertion
     * first; at most `limit` rows (10 by default). No row left out is more recent
     * than one returned.
     */
    function Recent(limit: Option<nat>): (r: seq<Evaluation>)
      reads this
      ensures |r| == if RecentLimit(limit) < |rows| then RecentLimit(limit) else |rows|
      ensures SortedDesc(r, CreatedAt)
      ensures forall e :: e in r ==> e in rows
      ensures forall e, x :: e in rows && e !in r && x in r ==> e.createdAt <= x.createdAt
      ensures multiset(r) <= multiset(rows)
    {
      RecentRows(rows, RecentLimit(limit));
      Take(SortDesc(Reverse(rows), CreatedAt), RecentLimit(limit))
    }

    /** The user's rows, newest first: `withIndex("by_user", ...).order("desc").collect()`. */
    function UserRowsNewestFirst(userId: string): (r: seq<Evaluation>)
      reads this
      ensures forall e :: e in r <==> e in rows && e.args.userId == userId
    {
      ReverseMembers(Filter(rows, OfUser(userId)));
      Reverse(Filter(rows, OfUser(userId)))
    }

    /**
     * `getEvaluationsByUserGroupedByDomain`: a first loop collects the user's rows
     * into one list per domain, a second sorts each list newest first.
     */
    method GroupedByDomain(userId: string) returns (groups: seq<DomainGroup>)
      ensures groups == Grouping(UserRowsNewestFirst(userId))
    {
      var es := UserRowsNewestFirst(userId);
      var grouped, order := CollectByDomain(es);
      groups := SortGroups(grouped, order);
      CollectedIsGrouping(es, grouped, order, groups);
    }

    /**
     * `getDomainStats`: nothing for a (user, domain) pair without rows; otherwise
     * the statistics of its rows, newest first.
     */
    function DomainStatsFor(userId: string, domain: string): (r: Option<DomainStats>)
      reads this
      ensures r.None? <==> forall e :: e in rows ==> !(e.args.userId == userId && e.args.domain == domain)
      ensures r.Some? ==>
        var f := Filter(rows, InUserDomain(userId, domain));
        && r.value.totalEvaluations == |f|
        && r.value.latestScore == Score(f[|f| - 1]) && r.value.lastEvaluated == f[|f| - 1].createdAt
        && r.value.firstEvaluated == f[0].createdAt
        && r.value.improvement == (if |f| > 1 then Score(f[|f| - 1]) - Score(f[0]) else 0)
        && |r.value.evaluations| <= 5
        && forall e :: e in r.value.evaluations ==> e in rows && e.args.userId == userId && e.args.domain == domain
      ensures r.Some? ==>
        var f := Filter(rows, InUserDomain(userId, domain));
        && |r.value.evaluations| == (if |f| < 5 then |f| else 5)
        && LastOfReversed(r.value.evaluations, f)
        && r.value == StatsOf(domain, Reverse(f))
    {
      var f := Filter(rows, InUserDomain(userId, domain));
      if |f| == 0 then
        None
      else
        assert f[|f| - 1] in f;
        StatsOfOldestFirst(domain, f);
        Some(StatsOf(domain, Reverse(f)))
    }
  }

  lemma RecentRows(rows: seq<Evaluation>, n: nat)
    ensures var r := Take(SortDesc(Reverse(rows), CreatedAt), n);
      && SortedDesc(r, CreatedAt)
      && (forall e :: e in r ==> e in rows)
      && (forall e, x :: e in rows && e !in r && x in r ==> e.createdAt <= x.createdAt)
      && multiset(r) <= multiset(rows)
  {
    var rev := Reverse(rows);
    var r := Take(SortDesc(rev, CreatedAt), n);
    ReverseMultiset(rows);
    TakeMultiset(SortDesc(rev, CreatedAt), n);
    SortDescTake(rev, CreatedAt, n);
    ReverseMembers(rows);
    forall e | e in r ensures e in rows {
      assert e in rev;
    }
    forall e, x | e in rows && e !in r && x in r ensures e.createdAt <= x.createdAt {
      assert e in rev;
      assert CreatedAt(e) <= CreatedAt(x);
    }
  }

  /** `args.limit || 10`. */
  function RecentLimit(limit: Option<nat>): nat {
    if limit.Some? && limit.value > 0 then limit.value else 10
  }

  function InUserDomain(userId: string, domain: string): Evaluation -> bool {
    (e: Evaluation) => e.args.userId == userId && e.args.domain == domain
  }
}
