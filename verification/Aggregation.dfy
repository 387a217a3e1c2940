/** What the aggregation of job results guarantees: the report is a function of the results as a
    multiset, it counts every result once, and it loses no cost. */
module Aggregation {
  import opened Metrics
  import opened Ordering
  import opened Records
  import opened Rounding

  // ---- the order of jobs and results does not matter ---------------------------------------

  function Without<T>(xs: seq<T>, i: nat): (ys: seq<T>)
    requires i < |xs|
    ensures |ys| == |xs| - 1
  {
    xs[..i] + xs[i + 1..]
  }

  lemma WithoutRemovesOne<T>(xs: seq<T>, i: nat)
    requires i < |xs|
    ensures multiset(xs) == multiset(Without(xs, i)) + multiset{xs[i]}
  {
    assert xs == xs[..i] + [xs[i]] + xs[i + 1..];
  }

  /** The last element of one arrangement, found and removed in another. */
  lemma Match<T>(xs: seq<T>, ys: seq<T>) returns (i: nat)
    requires xs != [] && multiset(xs) == multiset(ys)
    ensures i < |ys| && ys[i] == xs[|xs| - 1]
    ensures multiset(xs[..|xs| - 1]) == multiset(Without(ys, i))
  {
    var n := |xs| - 1;
    assert xs == xs[..n] + [xs[n]];
    PermutationKeepsMembers(xs, ys);
    assert xs[n] in xs;
    i :| 0 <= i < |ys| && ys[i] == xs[n];
    WithoutRemovesOne(ys, i);
    assert multiset(xs[..n]) == multiset(xs) - multiset{xs[n]};
  }

  lemma WithoutLast<T>(xs: seq<T>, i: nat)
    requires i < |xs| - 1
    ensures Without(xs, i)[..|xs| - 2] == Without(xs[..|xs| - 1], i)
  {
  }

  lemma {:induction false} SumWithout(rs: seq<ModelResult>, i: nat, f: ModelResult -> real)
    requires i < |rs|
    ensures SumOf(rs, f) == SumOf(Without(rs, i), f) + f(rs[i])
  {
    if i == |rs| - 1 {
      assert Without(rs, i) == rs[..i];
    } else {
      SumWithout(rs[..|rs| - 1], i, f);
      WithoutLast(rs, i);
    }
  }

  lemma {:induction false} SumPermutes(rs: seq<ModelResult>, qs: seq<ModelResult>, f: ModelResult -> real)
    requires multiset(rs) == multiset(qs)
    ensures SumOf(rs, f) == SumOf(qs, f)
  {
    if rs == [] {
      assert |multiset(qs)| == 0;
    } else {
      var i := Match(rs, qs);
      SumWithout(qs, i, f);
      SumPermutes(rs[..|rs| - 1], Without(qs, i), f);
    }
  }

  lemma {:induction false} LatenciesWithout(rs: seq<ModelResult>, i: nat)
    requires i < |rs|
    ensures LatenciesOf(Without(rs, i)) == Without(LatenciesOf(rs), i)
  {
  }

  lemma {:induction false} LatenciesPermute(rs: seq<ModelResult>, qs: seq<ModelResult>)
    requires multiset(rs) == multiset(qs)
    ensures multiset(LatenciesOf(rs)) == multiset(LatenciesOf(qs))
  {
    if rs == [] {
      assert |multiset(qs)| == 0;
    } else {
      var n := |rs| - 1;
      var i := Match(rs, qs);
      LatenciesWithout(qs, i);
      WithoutRemovesOne(LatenciesOf(qs), i);
      LatenciesPermute(rs[..n], Without(qs, i));
    }
  }

  /** Selecting keeps every copy of what it selects. */
  lemma {:induction false} SelectCount(rs: seq<ModelResult>, p: ModelResult -> bool, r: ModelResult)
    ensures multiset(Select(rs, p))[r] == if p(r) then multiset(rs)[r] else 0
  {
    if rs != [] {
      var n := |rs| - 1;
      assert rs == rs[..n] + [rs[n]];
      SelectCount(rs[..n], p, r);
    }
  }

  lemma SelectPermutes(rs: seq<ModelResult>, qs: seq<ModelResult>, p: ModelResult -> bool)
    requires multiset(rs) == multiset(qs)
    ensures multiset(Select(rs, p)) == multiset(Select(qs, p)) && |Select(rs, p)| == |Select(qs, p)|
  {
    forall r ensures multiset(Select(rs, p))[r] == multiset(Select(qs, p))[r] {
      SelectCount(rs, p, r);
      SelectCount(qs, p, r);
    }
    assert multiset(Select(rs, p)) == multiset(Select(qs, p));
    assert |multiset(Select(rs, p))| == |Select(rs, p)|;
    assert |multiset(Select(qs, p))| == |Select(qs, p)|;
  }

  /** Everything a report says but the order of its samples. */
  ghost predicate SameSamples(rs: seq<ModelResult>, qs: seq<ModelResult>) {
    && |rs| == |qs| && SumOf(rs, Score) == SumOf(qs, Score) && SumOf(rs, Cost) == SumOf(qs, Cost)
    && multiset(LatenciesOf(rs)) == multiset(LatenciesOf(qs))
  }

  lemma PermutedSamples(rs: seq<ModelResult>, qs: seq<ModelResult>, p: ModelResult -> bool)
    requires multiset(rs) == multiset(qs)
    ensures SameSamples(Select(rs, p), Select(qs, p))
  {
    SelectPermutes(rs, qs, p);
    SumPermutes(Select(rs, p), Select(qs, p), Score);
    SumPermutes(Select(rs, p), Select(qs, p), Cost);
    LatenciesPermute(Select(rs, p), Select(qs, p));
  }

  /** The samples of one model fix its report: percentiles do not depend on the input order. */
  lemma ReportIsUnique(m: ModelMetric, k: ModelMetric, rs: seq<ModelResult>, qs: seq<ModelResult>)
    requires m.model == k.model && Reports(m, rs) && Reports(k, qs)
    requires SameSamples(Good(rs, m.model), Good(qs, m.model))
    requires SameSamples(Graded(rs, m.model), Graded(qs, m.model))
    requires |Bad(rs, m.model)| == |Bad(qs, m.model)|
    ensures m == k
  {
    if Good(rs, m.model) != [] {
      var s :| IsSorted(s, LatenciesOf(Good(rs, m.model))) && s != []
        && m.p50 == Percentile(s, 50) && m.p95 == Percentile(s, 95) && m.p99 == Percentile(s, 99);
      var t :| IsSorted(t, LatenciesOf(Good(qs, m.model))) && t != []
        && k.p50 == Percentile(t, 50) && k.p95 == Percentile(t, 95) && k.p99 == Percentile(t, 99);
      SortedUnique(IntLe, s, t);
    }
  }

  lemma PermutedReport(m: ModelMetric, k: ModelMetric, rs: seq<ModelResult>, qs: seq<ModelResult>)
    requires m.model == k.model && Reports(m, rs) && Reports(k, qs) && multiset(rs) == multiset(qs)
    ensures m == k
  {
    PermutedSamples(rs, qs, (r: ModelResult) => r.model == m.model && !r.Failed());
    PermutedSamples(rs, qs, (r: ModelResult) => r.model == m.model && !r.Failed() && r.graded);
    SelectPermutes(rs, qs, (r: ModelResult) => r.model == m.model && r.Failed());
    ReportIsUnique(m, k, rs, qs);
  }

  function NamesOf(ms: seq<ModelMetric>): seq<string> {
    Project(ms, (m: ModelMetric) => m.model)
  }

  lemma NamesAreSorted(ms: seq<ModelMetric>, rs: seq<ModelResult>)
    requires Aggregates(ms, rs)
    ensures NoDuplicates(NamesOf(ms)) && SortedBy(LexLe, NamesOf(ms))
    ensures forall model :: model in NamesOf(ms) <==> model in Models(rs)
  {
    forall model | model in Models(rs) ensures model in NamesOf(ms) {
      assert Has(ms, model);
      var i :| 0 <= i < |ms| && ms[i].model == model;
      assert NamesOf(ms)[i] == model;
    }
  }

  /** The report is a function of the results as a multiset: neither the order of the results or
      jobs nor the iteration order of the map shows. */
  lemma ReportsAgree(ms: seq<ModelMetric>, ks: seq<ModelMetric>, rs: seq<ModelResult>, qs: seq<ModelResult>)
    requires Aggregates(ms, rs) && Aggregates(ks, qs) && multiset(rs) == multiset(qs)
    ensures ms == ks
  {
    NamesAreSorted(ms, rs);
    NamesAreSorted(ks, qs);
    PermutationKeepsMembers(rs, qs);
    assert Models(rs) == Models(qs);
    SameMembersPermute(NamesOf(ms), NamesOf(ks));
    LexIsOrder();
    SortedUnique(LexLe, NamesOf(ms), NamesOf(ks));
    forall i | 0 <= i < |ms| ensures ms[i] == ks[i] {
      assert NamesOf(ms)[i] == NamesOf(ks)[i];
      PermutedReport(ms[i], ks[i], rs, qs);
    }
  }

  lemma {:induction false} FlattenWithout(jobs: seq<JobRecord>, i: nat)
    requires i < |jobs|
    ensures multiset(Flatten(jobs)) == multiset(Flatten(Without(jobs, i))) + multiset(jobs[i].results)
  {
    if i == |jobs| - 1 {
      assert Without(jobs, i) == jobs[..i];
    } else {
      FlattenWithout(jobs[..|jobs| - 1], i);
      WithoutLast(jobs, i);
    }
  }

  lemma {:induction false} FlattenPermutes(jobs: seq<JobRecord>, others: seq<JobRecord>)
    requires multiset(jobs) == multiset(others)
    ensures multiset(Flatten(jobs)) == multiset(Flatten(others))
  {
    if jobs == [] {
      assert |multiset(others)| == 0;
    } else {
      var i := Match(jobs, others);
      FlattenWithout(others, i);
      FlattenPermutes(jobs[..|jobs| - 1], Without(others, i));
    }
  }

  lemma JobOrderDoesNotMatter(ms: seq<ModelMetric>, ks: seq<ModelMetric>, jobs: seq<JobRecord>, others: seq<JobRecord>)
    requires Aggregates(ms, Flatten(jobs)) && Aggregates(ks, Flatten(others)) && multiset(jobs) == multiset(others)
    ensures ms == ks
  {
    FlattenPermutes(jobs, others);
    ReportsAgree(ms, ks, Flatten(jobs), Flatten(others));
  }

  // ---- reported percentiles ----------------------------------------------------------------

  lemma {:induction false} CountWithout(xs: seq<int>, i: nat, p: int -> bool)
    requires i < |xs|
    ensures CountWhere(xs, p) == CountWhere(Without(xs, i), p) + if p(xs[i]) then 1 else 0
  {
    if i == |xs| - 1 {
      assert Without(xs, i) == xs[..i];
    } else {
      CountWithout(xs[..|xs| - 1], i, p);
      WithoutLast(xs, i);
    }
  }

  lemma {:induction false} CountPermutes(xs: seq<int>, ys: seq<int>, p: int -> bool)
    requires multiset(xs) == multiset(ys)
    ensures CountWhere(xs, p) == CountWhere(ys, p)
  {
    if xs == [] {
      assert |multiset(ys)| == 0;
    } else {
      var i := Match(xs, ys);
      CountWithout(ys, i, p);
      CountPermutes(xs[..|xs| - 1], Without(ys, i), p);
    }
  }

  /** v is a p-th percentile of the samples by the nearest-rank definition: at least p percent of
      them are at most v, and fewer lie below it. */
  ghost predicate NearestRankOf(v: int, xs: seq<int>, p: nat) {
    && v in xs
    && 100 * CountWhere(xs, x => x <= v) >= p * |xs|
    && 100 * CountWhere(xs, x => x < v) < p * |xs|
  }

  lemma SortedPercentile(sorted: seq<int>, xs: seq<int>, p: nat)
    requires IsSorted(sorted, xs) && sorted != [] && 1 <= p <= 100
    ensures NearestRankOf(Percentile(sorted, p), xs, p)
  {
    var v := Percentile(sorted, p);
    PercentileIsNearestRank(sorted, p);
    CountPermutes(sorted, xs, x => x <= v);
    CountPermutes(sorted, xs, x => x < v);
    PermutationKeepsMembers(sorted, xs);
    assert |multiset(sorted)| == |multiset(xs)|;
  }

  /** The percentiles of a report, on the latencies in the order they came in. */
  lemma ReportedPercentiles(m: ModelMetric, rs: seq<ModelResult>)
    requires Reports(m, rs) && Good(rs, m.model) != []
    ensures var ls := LatenciesOf(Good(rs, m.model));
      && NearestRankOf(m.p50, ls, 50) && NearestRankOf(m.p95, ls, 95) && NearestRankOf(m.p99, ls, 99)
      && m.p50 <= m.p95 <= m.p99
  {
    var ls := LatenciesOf(Good(rs, m.model));
    var s :| IsSorted(s, ls) && s != []
      && m.p50 == Percentile(s, 50) && m.p95 == Percentile(s, 95) && m.p99 == Percentile(s, 99);
    SortedPercentile(s, ls, 50);
    SortedPercentile(s, ls, 95);
    SortedPercentile(s, ls, 99);
    PercentilesAreOrdered(s, 50, 95);
    PercentilesAreOrdered(s, 95, 99);
  }

  // ---- conservation ------------------------------------------------------------------------

  /** One model's share of a weight. */
  function ShareOf(rs: seq<ModelResult>, model: string, w: ModelResult -> real): real {
    SumOf(rs, (r: ModelResult) => if r.model == model then w(r) else 0.0)
  }

  function Shares(rs: seq<ModelResult>, models: seq<string>, w: ModelResult -> real): real {
    if models == [] then 0.0 else Shares(rs, models[..|models| - 1], w) + ShareOf(rs, models[|models| - 1], w)
  }

  lemma {:induction false} SharesSnoc(rs: seq<ModelResult>, r: ModelResult, models: seq<string>, w: ModelResult -> real)
    requires NoDuplicates(models)
    ensures Shares(rs + [r], models, w) == Shares(rs, models, w) + if r.model in models then w(r) else 0.0
  {
    if models != [] {
      var n := |models| - 1;
      assert models == models[..n] + [models[n]];
      assert models[n] !in models[..n];
      SharesSnoc(rs, r, models[..n], w);
      assert (rs + [r])[..|rs|] == rs;
    }
  }

  /** The shares of all models add up to the whole. */
  lemma {:induction false} SharesAddUp(rs: seq<ModelResult>, models: seq<string>, w: ModelResult -> real)
    requires NoDuplicates(models) && forall r :: r in rs ==> r.model in models
    ensures Shares(rs, models, w) == SumOf(rs, w)
  {
    if rs == [] {
      NoShares(models, w);
    } else {
      var n := |rs| - 1;
      assert rs == rs[..n] + [rs[n]];
      SharesAddUp(rs[..n], models, w);
      SharesSnoc(rs[..n], rs[n], models, w);
    }
  }

  lemma {:induction false} NoShares(models: seq<string>, w: ModelResult -> real)
    ensures Shares([], models, w) == 0.0
  {
    if models != [] {
      NoShares(models[..|models| - 1], w);
    }
  }

  function One(r: ModelResult): real { 1.0 }

  function CostIfGood(r: ModelResult): real { if r.Failed() then 0.0 else r.costUSD }

  lemma ShareSnoc(rs: seq<ModelResult>, r: ModelResult, model: string, w: ModelResult -> real)
    ensures ShareOf(rs + [r], model, w) == ShareOf(rs, model, w) + if r.model == model then w(r) else 0.0
  {
    assert (rs + [r])[..|rs|] == rs;
  }

  lemma {:induction false} CountsAreShares(rs: seq<ModelResult>, model: string)
    ensures (|Good(rs, model)| + |Bad(rs, model)|) as real == ShareOf(rs, model, One)
  {
    if rs != [] {
      var n := |rs| - 1;
      assert rs == rs[..n] + [rs[n]];
      CountsAreShares(rs[..n], model);
      SelectSnoc(rs[..n], rs[n], (r: ModelResult) => r.model == model && !r.Failed());
      SelectSnoc(rs[..n], rs[n], (r: ModelResult) => r.model == model && r.Failed());
      ShareSnoc(rs[..n], rs[n], model, One);
    }
  }

  lemma {:induction false} CostsAreShares(rs: seq<ModelResult>, model: string)
    ensures SumOf(Good(rs, model), Cost) == ShareOf(rs, model, CostIfGood)
  {
    if rs != [] {
      var n := |rs| - 1;
      assert rs == rs[..n] + [rs[n]];
      CostsAreShares(rs[..n], model);
      SelectSnoc(rs[..n], rs[n], (r: ModelResult) => r.model == model && !r.Failed());
      FoldSnoc(Good(rs[..n], model), rs[n]);
      ShareSnoc(rs[..n], rs[n], model, CostIfGood);
    }
  }

  lemma {:induction false} OnesCount(rs: seq<ModelResult>)
    ensures SumOf(rs, One) == |rs| as real
  {
    if rs != [] {
      OnesCount(rs[..|rs| - 1]);
    }
  }

  function TotalEvals(ms: seq<ModelMetric>): nat {
    if ms == [] then 0 else TotalEvals(ms[..|ms| - 1]) + ms[|ms| - 1].totalEvals
  }

  function ReportedCost(ms: seq<ModelMetric>): real {
    if ms == [] then 0.0 else ReportedCost(ms[..|ms| - 1]) + ms[|ms| - 1].totalCostUSD
  }

  lemma NamesSnoc(ms: seq<ModelMetric>)
    requires ms != []
    ensures NamesOf(ms)[..|ms| - 1] == NamesOf(ms[..|ms| - 1])
  {
  }

  lemma ReportedShare(m: ModelMetric, rs: seq<ModelResult>)
    requires Reports(m, rs)
    ensures m.totalEvals as real == ShareOf(rs, m.model, One)
    ensures Abs(m.totalCostUSD - ShareOf(rs, m.model, CostIfGood)) <= 0.000_000_5
  {
    CountsAreShares(rs, m.model);
    CostsAreShares(rs, m.model);
    RoundToIsClose(SumOf(Good(rs, m.model), Cost), 1_000_000.0);
  }

  /** What ReportedShare says of every metric. */
  ghost predicate SharesReported(ms: seq<ModelMetric>, rs: seq<ModelResult>) {
    forall i :: 0 <= i < |ms| ==>
                  && ms[i].totalEvals as real == ShareOf(rs, ms[i].model, One)
                  && Abs(ms[i].totalCostUSD - ShareOf(rs, ms[i].model, CostIfGood)) <= 0.000_000_5
  }

  /** Each of n rounded rows is off by half a millionth at most. */
  predicate WithinRounding(reported: real, exact: real, n: nat) {
    exact - 0.000_000_5 * n as real <= reported <= exact + 0.000_000_5 * n as real
  }

  lemma {:induction false} TotalsAreShares(ms: seq<ModelMetric>, rs: seq<ModelResult>)
    requires SharesReported(ms, rs)
    ensures TotalEvals(ms) as real == Shares(rs, NamesOf(ms), One)
    ensures WithinRounding(ReportedCost(ms), Shares(rs, NamesOf(ms), CostIfGood), |ms|)
  {
    if ms != [] {
      TotalsAreShares(ms[..|ms| - 1], rs);
      NamesSnoc(ms);
    }
  }

  lemma AggregatesReportShares(ms: seq<ModelMetric>, rs: seq<ModelResult>)
    requires Aggregates(ms, rs)
    ensures TotalEvals(ms) as real == Shares(rs, NamesOf(ms), One)
    ensures WithinRounding(ReportedCost(ms), Shares(rs, NamesOf(ms), CostIfGood), |ms|)
  {
    forall i | 0 <= i < |ms|
      ensures ms[i].totalEvals as real == ShareOf(rs, ms[i].model, One)
      ensures Abs(ms[i].totalCostUSD - ShareOf(rs, ms[i].model, CostIfGood)) <= 0.000_000_5
    {
      ReportedShare(ms[i], rs);
    }
    TotalsAreShares(ms, rs);
  }

  lemma EveryResultHasItsModel(ms: seq<ModelMetric>, rs: seq<ModelResult>, w: ModelResult -> real)
    requires Aggregates(ms, rs)
    ensures Shares(rs, NamesOf(ms), w) == SumOf(rs, w)
  {
    NamesAreSorted(ms, rs);
    forall r | r in rs ensures r.model in NamesOf(ms) {
      assert r.model in Models(rs);
    }
    SharesAddUp(rs, NamesOf(ms), w);
  }

  /** Every result is counted under exactly one model. */
  lemma EveryResultIsCounted(ms: seq<ModelMetric>, rs: seq<ModelResult>)
    requires Aggregates(ms, rs)
    ensures TotalEvals(ms) == |rs|
  {
    EveryResultHasItsModel(ms, rs, One);
    AggregatesReportShares(ms, rs);
    OnesCount(rs);
  }

  function Positions(rs: seq<ModelResult>, p: ModelResult -> bool): set<nat> {
    set i: nat | i < |rs| && p(rs[i])
  }

  lemma {:induction false} SelectCounts(rs: seq<ModelResult>, p: ModelResult -> bool)
    ensures |Select(rs, p)| == |Positions(rs, p)|
  {
    if rs != [] {
      var n := |rs| - 1;
      SelectCounts(rs[..n], p);
      assert Positions(rs, p) == Positions(rs[..n], p) + (if p(rs[n]) then {n} else {});
    }
  }

  lemma FailuresCount(rs: seq<ModelResult>, model: string)
    ensures |Bad(rs, model)| == |set i: nat | i < |rs| && rs[i].model == model && rs[i].errorMessage != ""|
  {
    var bad := (r: ModelResult) => r.model == model && r.Failed();
    SelectCounts(rs, bad);
    assert Positions(rs, bad) == set i: nat | i < |rs| && rs[i].model == model && rs[i].errorMessage != "";
  }

  lemma SuccessesCount(rs: seq<ModelResult>, model: string)
    ensures |Good(rs, model)| == |set i: nat | i < |rs| && rs[i].model == model && rs[i].errorMessage == ""|
  {
    var good := (r: ModelResult) => r.model == model && !r.Failed();
    SelectCounts(rs, good);
    assert Positions(rs, good) == set i: nat | i < |rs| && rs[i].model == model && rs[i].errorMessage == "";
  }

  lemma GradedCount(rs: seq<ModelResult>, model: string)
    ensures |Graded(rs, model)| ==
      |set i: nat | i < |rs| && rs[i].model == model && rs[i].errorMessage == "" && rs[i].graded|
  {
    var graded := (r: ModelResult) => r.model == model && !r.Failed() && r.graded;
    SelectCounts(rs, graded);
    assert Positions(rs, graded) ==
      set i: nat | i < |rs| && rs[i].model == model && rs[i].errorMessage == "" && rs[i].graded;
  }

  lemma GoodAndBad(rs: seq<ModelResult>, model: string)
    ensures |set i: nat | i < |rs| && rs[i].model == model && rs[i].errorMessage == ""|
          + |set i: nat | i < |rs| && rs[i].model == model && rs[i].errorMessage != ""|
         == |set i: nat | i < |rs| && rs[i].model == model|
  {
    var good, bad := set i: nat | i < |rs| && rs[i].model == model && rs[i].errorMessage == "",
                     set i: nat | i < |rs| && rs[i].model == model && rs[i].errorMessage != "";
    assert good + bad == set i: nat | i < |rs| && rs[i].model == model;
    assert good !! bad;
  }

  /** A report's counts are numbers of results of its model: all, those with an error message, and the
      graded ones without. */
  lemma CountsByMessage(m: ModelMetric, rs: seq<ModelResult>)
    requires Reports(m, rs)
    ensures m.totalEvals == |set i: nat | i < |rs| && rs[i].model == m.model|
    ensures m.failedEvals == |set i: nat | i < |rs| && rs[i].model == m.model && rs[i].errorMessage != ""|
    ensures m.gradedEvals ==
      |set i: nat | i < |rs| && rs[i].model == m.model && rs[i].errorMessage == "" && rs[i].graded|
  {
    FailuresCount(rs, m.model);
    SuccessesCount(rs, m.model);
    GradedCount(rs, m.model);
    GoodAndBad(rs, m.model);
  }

  function ResultCount(jobs: seq<JobRecord>): nat {
    if jobs == [] then 0 else ResultCount(jobs[..|jobs| - 1]) + |jobs[|jobs| - 1].results|
  }

  /** Nothing of the jobs is left out or counted twice. */
  lemma {:induction false} ResultsOfJobs(jobs: seq<JobRecord>, r: ModelResult)
    ensures |Flatten(jobs)| == ResultCount(jobs)
    ensures r in Flatten(jobs) <==> exists j :: j in jobs && r in j.results
  {
    if jobs != [] {
      var n := |jobs| - 1;
      ResultsOfJobs(jobs[..n], r);
      assert jobs == jobs[..n] + [jobs[n]];
    }
  }

  /** The evaluations reported add up to the results the jobs recorded. */
  lemma EveryJobIsCounted(ms: seq<ModelMetric>, jobs: seq<JobRecord>)
    requires Aggregates(ms, Flatten(jobs))
    ensures TotalEvals(ms) == ResultCount(jobs)
    ensures forall j, r :: j in jobs && r in j.results ==> r.model in NamesOf(ms)
  {
    EveryResultIsCounted(ms, Flatten(jobs));
    forall j, r | j in jobs && r in j.results ensures r.model in NamesOf(ms) {
      ResultsOfJobs(jobs, r);
      assert r.model in Models(Flatten(jobs));
      NamesAreSorted(ms, Flatten(jobs));
    }
    if jobs != [] {
      ResultsOfJobs(jobs, Failure("", ""));
    }
  }

  /** Recorded job totals: what BuildRecord stores. */
  ghost predicate TotalsRecorded(jobs: seq<JobRecord>) {
    forall j :: j in jobs ==> j.totalCostUSD == SumOf(j.results, CostIfGood)
  }

  function JobCosts(jobs: seq<JobRecord>): real {
    if jobs == [] then 0.0 else JobCosts(jobs[..|jobs| - 1]) + jobs[|jobs| - 1].totalCostUSD
  }

  lemma {:induction false} SumAppend(rs: seq<ModelResult>, qs: seq<ModelResult>, f: ModelResult -> real)
    ensures SumOf(rs + qs, f) == SumOf(rs, f) + SumOf(qs, f)
  {
    if qs == [] {
      assert rs + qs == rs;
    } else {
      var n := |qs| - 1;
      assert (rs + qs)[..|rs| + n] == rs + qs[..n];
      SumAppend(rs, qs[..n], f);
    }
  }

  lemma {:induction false} JobCostsAreResultCosts(jobs: seq<JobRecord>)
    requires TotalsRecorded(jobs)
    ensures JobCosts(jobs) == SumOf(Flatten(jobs), CostIfGood)
  {
    if jobs != [] {
      var n := |jobs| - 1;
      JobCostsAreResultCosts(jobs[..n]);
      SumAppend(Flatten(jobs[..n]), jobs[n].results, CostIfGood);
    }
  }

  lemma RowsAddUp(ms: seq<ModelMetric>, rs: seq<ModelResult>)
    requires Aggregates(ms, rs)
    ensures Shares(rs, NamesOf(ms), CostIfGood) == SumOf(rs, CostIfGood)
    ensures WithinRounding(ReportedCost(ms), SumOf(rs, CostIfGood), |ms|)
  {
    EveryResultHasItsModel(ms, rs, CostIfGood);
    AggregatesReportShares(ms, rs);
  }

  /** Up to the rounding of each row, the models' costs add up to the jobs' recorded totals. */
  lemma CostIsConserved(ms: seq<ModelMetric>, jobs: seq<JobRecord>)
    requires Aggregates(ms, Flatten(jobs)) && TotalsRecorded(jobs)
    ensures Shares(Flatten(jobs), NamesOf(ms), CostIfGood) == JobCosts(jobs)
    ensures WithinRounding(ReportedCost(ms), JobCosts(jobs), |ms|)
  {
    JobCostsAreResultCosts(jobs);
    RowsAddUp(ms, Flatten(jobs));
  }
}
