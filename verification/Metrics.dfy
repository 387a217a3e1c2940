/** Per-model aggregation of job results: counters, nearest-rank percentiles, averages. */
module Metrics {
  import opened Ordering
  import opened Records
  import opened Rounding

  datatype RegressionStatus = Stable | Degraded | Critical | Ungraded

  datatype ModelMetric = ModelMetric(
    model: string, totalEvals: nat, failedEvals: nat, gradedEvals: nat,
    p50: int, p95: int, p99: int, avgSemanticScore: real, avgGradedScore: real,
    totalCostUSD: real, status: RegressionStatus)

  function Flatten(jobs: seq<JobRecord>): seq<ModelResult> {
    if jobs == [] then [] else Flatten(jobs[..|jobs| - 1]) + jobs[|jobs| - 1].results
  }

  // ---- specification: filter, then fold ----------------------------------------------------

  function Select(rs: seq<ModelResult>, p: ModelResult -> bool): seq<ModelResult> {
    if rs == [] then []
    else
      var r := rs[|rs| - 1];
      Select(rs[..|rs| - 1], p) + if p(r) then [r] else []
  }

  function SumOf(rs: seq<ModelResult>, f: ModelResult -> real): real {
    if rs == [] then 0.0 else SumOf(rs[..|rs| - 1], f) + f(rs[|rs| - 1])
  }

  function LatenciesOf(rs: seq<ModelResult>): (ls: seq<int>)
    ensures |ls| == |rs| && forall i :: 0 <= i < |rs| ==> ls[i] == rs[i].latencyMs
  {
    if rs == [] then [] else LatenciesOf(rs[..|rs| - 1]) + [rs[|rs| - 1].latencyMs]
  }

  function Score(r: ModelResult): real { r.semanticScore }

  function Cost(r: ModelResult): real { r.costUSD }

  /** The successful, failed and graded results of one model. */
  function Good(rs: seq<ModelResult>, model: string): seq<ModelResult> {
    Select(rs, (r: ModelResult) => r.model == model && !r.Failed())
  }

  function Bad(rs: seq<ModelResult>, model: string): seq<ModelResult> {
    Select(rs, (r: ModelResult) => r.model == model && r.Failed())
  }

  function Graded(rs: seq<ModelResult>, model: string): seq<ModelResult> {
    Select(rs, (r: ModelResult) => r.model == model && !r.Failed() && r.graded)
  }

  function Models(rs: seq<ModelResult>): set<string> {
    set r | r in rs :: r.model
  }

  // ---- percentiles --------------------------------------------------------------------------

  /** ceil(p * n / 100), at least 1 and at most n. */
  function NearestRank(p: nat, n: nat): (rank: nat)
    requires n > 0
    ensures 1 <= rank <= n
  {
    var rank := (p * n + 99) / 100;
    if rank < 1 then 1 else if rank > n then n else rank
  }

  function Percentile(sorted: seq<int>, p: nat): int
    requires sorted != []
  {
    sorted[NearestRank(p, |sorted|) - 1]
  }

  predicate IntLe(a: int, b: int) { a <= b }

  function CountWhere(xs: seq<int>, p: int -> bool): nat {
    if xs == [] then 0 else CountWhere(xs[..|xs| - 1], p) + if p(xs[|xs| - 1]) then 1 else 0
  }

  lemma {:induction false} CountAtMost(xs: seq<int>, v: int, k: nat)
    requires SortedBy(IntLe, xs) && k <= |xs| && forall i :: 0 <= i < k ==> xs[i] <= v
    ensures CountWhere(xs, x => x <= v) >= k
    decreases |xs|
  {
    if xs != [] {
      CountAtMost(xs[..|xs| - 1], v, if k == |xs| then k - 1 else k);
    }
  }

  lemma {:induction false} CountBelow(xs: seq<int>, v: int, k: nat)
    requires SortedBy(IntLe, xs) && k <= |xs| && forall i :: k <= i < |xs| ==> xs[i] >= v
    ensures CountWhere(xs, x => x < v) <= k
    decreases |xs|
  {
    if xs != [] {
      CountBelow(xs[..|xs| - 1], v, if k == |xs| then k - 1 else k);
    }
  }

  lemma RankIsCeiling(p: nat, n: nat)
    requires n > 0 && 1 <= p <= 100
    ensures var rank := NearestRank(p, n);
      1 <= rank <= n && 100 * rank >= p * n && 100 * (rank - 1) < p * n
  {
    var samples := p * n;
    Proportion(p, n);
    assert samples <= 100 * n && samples >= 1;
  }

  lemma Proportion(p: nat, n: nat)
    requires n > 0 && 1 <= p <= 100
    ensures 1 <= p * n <= 100 * n
  {
    assert (100 - p) * n >= 0;
    assert (p - 1) * n >= 0;
  }

  /** The nearest-rank definition: a sample with at least ceil(p n / 100) samples at or below it and
      fewer strictly below. */
  lemma PercentileIsNearestRank(sorted: seq<int>, p: nat)
    requires sorted != [] && SortedBy(IntLe, sorted) && 1 <= p <= 100
    ensures var v := Percentile(sorted, p);
      && v in sorted
      && 100 * CountWhere(sorted, x => x <= v) >= p * |sorted|
      && 100 * CountWhere(sorted, x => x < v) < p * |sorted|
  {
    var n, rank, v := |sorted|, NearestRank(p, |sorted|), Percentile(sorted, p);
    RankIsCeiling(p, n);
    forall i | 0 <= i < rank ensures sorted[i] <= v {
      assert i < rank - 1 ==> IntLe(sorted[i], sorted[rank - 1]);
    }
    forall i | rank - 1 <= i < n ensures sorted[i] >= v {
      assert rank - 1 < i ==> IntLe(sorted[rank - 1], sorted[i]);
    }
    CountAtMost(sorted, v, rank);
    CountBelow(sorted, v, rank - 1);
  }

  lemma PercentilesAreOrdered(sorted: seq<int>, p: nat, q: nat)
    requires sorted != [] && SortedBy(IntLe, sorted) && p <= q
    ensures Percentile(sorted, p) <= Percentile(sorted, q)
  {
    var n := |sorted|;
    assert p * n <= q * n by { assert (q - p) * n >= 0; }
    var i, j := NearestRank(p, n) - 1, NearestRank(q, n) - 1;
    assert i < j ==> IntLe(sorted[i], sorted[j]);
  }

  // ---- one metric ---------------------------------------------------------------------------

  function Classify(score: real): RegressionStatus {
    if score < 0.70 then Critical else if score < 0.85 then Degraded else Stable
  }

  ghost predicate IsSorted(sorted: seq<int>, xs: seq<int>) {
    SortedBy(IntLe, sorted) && multiset(sorted) == multiset(xs)
  }

  /** m reports exactly the model's results among rs. */
  ghost predicate Reports(m: ModelMetric, rs: seq<ModelResult>) {
    var good, bad, graded := Good(rs, m.model), Bad(rs, m.model), Graded(rs, m.model);
    && m.totalEvals == |good| + |bad| && m.failedEvals == |bad| && m.gradedEvals == |graded|
    && m.totalCostUSD == RoundTo(SumOf(good, Cost), 1_000_000.0)
    && (if good == [] then m.p50 == m.p95 == m.p99 == 0 && m.avgSemanticScore == 0.0
        else
          && (exists sorted :: IsSorted(sorted, LatenciesOf(good)) && sorted != [] &&
                m.p50 == Percentile(sorted, 50) && m.p95 == Percentile(sorted, 95) && m.p99 == Percentile(sorted, 99))
          && m.avgSemanticScore == RoundTo(SumOf(good, Score) / |good| as real, 1000.0))
    && (if graded == [] then m.avgGradedScore == 0.0 && m.status == Ungraded
        else
          && m.avgGradedScore == RoundTo(SumOf(graded, Score) / |graded| as real, 1000.0)
          && m.status == Classify(m.avgGradedScore))
  }

  /** The accumulator of one model. */
  datatype Acc = Acc(latencies: seq<int>, scoreSum: real, scoreCount: nat, gradedSum: real, gradedCount: nat,
                     failed: nat, cost: real)

  const EMPTY_ACC := Acc([], 0.0, 0, 0.0, 0, 0, 0.0)

  ghost predicate Accumulates(a: Acc, rs: seq<ModelResult>, model: string) {
    var good, bad, graded := Good(rs, model), Bad(rs, model), Graded(rs, model);
    && a.latencies == LatenciesOf(good) && a.scoreCount == |good| && a.scoreSum == SumOf(good, Score)
    && a.gradedCount == |graded| && a.gradedSum == SumOf(graded, Score)
    && a.failed == |bad| && a.cost == SumOf(good, Cost)
  }

  function Add(a: Acc, r: ModelResult): Acc {
    if r.Failed() then a.(failed := a.failed + 1)
    else
      var b := a.(latencies := a.latencies + [r.latencyMs], scoreSum := a.scoreSum + r.semanticScore,
                  scoreCount := a.scoreCount + 1, cost := a.cost + r.costUSD);
      if r.graded then b.(gradedSum := b.gradedSum + r.semanticScore, gradedCount := b.gradedCount + 1) else b
  }

  lemma SelectSnoc(rs: seq<ModelResult>, r: ModelResult, p: ModelResult -> bool)
    ensures Select(rs + [r], p) == if p(r) then Select(rs, p) + [r] else Select(rs, p)
  {
    assert (rs + [r])[..|rs|] == rs;
  }

  lemma SumSnoc(rs: seq<ModelResult>, r: ModelResult, f: ModelResult -> real)
    ensures SumOf(rs + [r], f) == SumOf(rs, f) + f(r)
  {
    assert (rs + [r])[..|rs|] == rs;
  }

  lemma SelectionsSnoc(rs: seq<ModelResult>, r: ModelResult, model: string)
    ensures Good(rs + [r], model) == if r.model == model && !r.Failed() then Good(rs, model) + [r] else Good(rs, model)
    ensures Bad(rs + [r], model) == if r.model == model && r.Failed() then Bad(rs, model) + [r] else Bad(rs, model)
    ensures Graded(rs + [r], model) ==
      if r.model == model && !r.Failed() && r.graded then Graded(rs, model) + [r] else Graded(rs, model)
  {
    SelectSnoc(rs, r, (r: ModelResult) => r.model == model && !r.Failed());
    SelectSnoc(rs, r, (r: ModelResult) => r.model == model && r.Failed());
    SelectSnoc(rs, r, (r: ModelResult) => r.model == model && !r.Failed() && r.graded);
  }

  lemma AddOne(a: Acc, rs: seq<ModelResult>, r: ModelResult, model: string)
    requires Accumulates(a, rs, model)
    ensures Accumulates(if r.model == model then Add(a, r) else a, rs + [r], model)
  {
    SelectionsSnoc(rs, r, model);
    if r.model == model && !r.Failed() {
      FoldSnoc(Good(rs, model), r);
      if r.graded {
        FoldSnoc(Graded(rs, model), r);
      }
    }
  }

  lemma FoldSnoc(rs: seq<ModelResult>, r: ModelResult)
    ensures SumOf(rs + [r], Score) == SumOf(rs, Score) + r.semanticScore
    ensures SumOf(rs + [r], Cost) == SumOf(rs, Cost) + r.costUSD
    ensures LatenciesOf(rs + [r]) == LatenciesOf(rs) + [r.latencyMs]
  {
    assert (rs + [r])[..|rs|] == rs;
  }

  lemma NothingSelected(rs: seq<ModelResult>, model: string)
    requires model !in Models(rs)
    ensures Accumulates(EMPTY_ACC, rs, model)
  {
    SelectsNone(rs, (r: ModelResult) => r.model == model && !r.Failed());
    SelectsNone(rs, (r: ModelResult) => r.model == model && r.Failed());
    SelectsNone(rs, (r: ModelResult) => r.model == model && !r.Failed() && r.graded);
  }

  lemma {:induction false} SelectsNone(rs: seq<ModelResult>, p: ModelResult -> bool)
    requires forall r :: r in rs ==> !p(r)
    ensures Select(rs, p) == []
  {
    if rs != [] {
      SelectsNone(rs[..|rs| - 1], p);
    }
  }

  // ---- the loops ----------------------------------------------------------------------------

  ghost predicate AccMap(byModel: map<string, Acc>, rs: seq<ModelResult>) {
    && byModel.Keys == Models(rs)
    && forall model :: model in byModel ==> Accumulates(byModel[model], rs, model)
  }

  method AddResult(byModel: map<string, Acc>, ghost rs: seq<ModelResult>, r: ModelResult)
    returns (after: map<string, Acc>)
    requires AccMap(byModel, rs)
    ensures AccMap(after, rs + [r])
  {
    if r.model !in byModel {
      NothingSelected(rs, r.model);
    }
    var a := if r.model in byModel then byModel[r.model] else EMPTY_ACC;
    after := byModel[r.model := Add(a, r)];
    AddedKeepsAccMap(byModel, rs, r, a);
  }

  lemma AddedKeepsAccMap(byModel: map<string, Acc>, rs: seq<ModelResult>, r: ModelResult, a: Acc)
    requires AccMap(byModel, rs) && Accumulates(a, rs, r.model) && (r.model in byModel ==> a == byModel[r.model])
    ensures AccMap(byModel[r.model := Add(a, r)], rs + [r])
  {
    var after := byModel[r.model := Add(a, r)];
    assert Models(rs + [r]) == Models(rs) + {r.model};
    forall model | model in after ensures Accumulates(after[model], rs + [r], model) {
      AddOne(if model == r.model then a else byModel[model], rs, r, model);
    }
  }

  method AddResults(byModel: map<string, Acc>, ghost rs: seq<ModelResult>, results: seq<ModelResult>)
    returns (after: map<string, Acc>)
    requires AccMap(byModel, rs)
    ensures AccMap(after, rs + results)
  {
    after := byModel;
    assert rs + results[..0] == rs;
    for k := 0 to |results|
      invariant AccMap(after, rs + results[..k])
    {
      assert rs + results[..k + 1] == rs + results[..k] + [results[k]];
      after := AddResult(after, rs + results[..k], results[k]);
    }
    assert results[..|results|] == results;
  }

  method Accumulate(jobs: seq<JobRecord>) returns (byModel: map<string, Acc>)
    ensures AccMap(byModel, Flatten(jobs))
  {
    byModel := map[];
    for j := 0 to |jobs|
      invariant AccMap(byModel, Flatten(jobs[..j]))
    {
      assert jobs[..j + 1][..j] == jobs[..j];
      byModel := AddResults(byModel, Flatten(jobs[..j]), jobs[j].results);
    }
    assert jobs[..|jobs|] == jobs;
  }

  method Summarize(model: string, a: Acc, ghost rs: seq<ModelResult>) returns (m: ModelMetric)
    requires Accumulates(a, rs, model)
    ensures m.model == model && Reports(m, rs)
  {
    var p50, p95, p99, avg, avgGraded, status := 0, 0, 0, 0.0, 0.0, Ungraded;
    if |a.latencies| > 0 {
      var sorted := Sort(IntLe, a.latencies);
      p50, p95, p99 := Percentile(sorted, 50), Percentile(sorted, 95), Percentile(sorted, 99);
      assert IsSorted(sorted, a.latencies);
    }
    if a.scoreCount > 0 {
      avg := RoundTo(a.scoreSum / a.scoreCount as real, 1000.0);
    }
    if a.gradedCount > 0 {
      avgGraded := RoundTo(a.gradedSum / a.gradedCount as real, 1000.0);
      status := Classify(avgGraded);
    }
    m := ModelMetric(model, |a.latencies| + a.failed, a.failed, a.gradedCount, p50, p95, p99,
                     avg, avgGraded, RoundTo(a.cost, 1_000_000.0), status);
  }

  predicate ByModel(a: ModelMetric, b: ModelMetric) {
    LexLe(a.model, b.model)
  }

  lemma ByModelIsTotal()
    ensures TotalPreorder(ByModel)
  {
    forall a, b ensures ByModel(a, b) || ByModel(b, a) { LexTotal(a.model, b.model); }
    forall a, b, c | ByModel(a, b) && ByModel(b, c) ensures ByModel(a, c) { LexTransitive(a.model, b.model, c.model); }
  }

  /** One report per model that has results, strictly sorted by model. */
  ghost predicate Aggregates(metrics: seq<ModelMetric>, rs: seq<ModelResult>) {
    && (forall i, j :: 0 <= i < j < |metrics| ==>
          LexLe(metrics[i].model, metrics[j].model) && metrics[i].model != metrics[j].model)
    && (forall i :: 0 <= i < |metrics| ==> metrics[i].model in Models(rs) && Reports(metrics[i], rs))
    && (forall model :: model in Models(rs) ==> Has(metrics, model))
  }

  ghost predicate Has(ms: seq<ModelMetric>, model: string) {
    exists i :: 0 <= i < |ms| && ms[i].model == model
  }

  ghost predicate OnePerModel(ms: seq<ModelMetric>, models: set<string>, rs: seq<ModelResult>) {
    && (forall m :: m in ms ==> m.model in models && Reports(m, rs))
    && (forall model :: model in models ==> Has(ms, model))
    && (forall i, j :: 0 <= i < j < |ms| ==> ms[i].model != ms[j].model)
  }

  /** The reports of the first models of an order. */
  ghost predicate ReportsOf(ms: seq<ModelMetric>, order: seq<string>, rs: seq<ModelResult>) {
    |ms| <= |order| && forall i :: 0 <= i < |ms| ==> ms[i].model == order[i] && Reports(ms[i], rs)
  }

  lemma NextReport(ms: seq<ModelMetric>, order: seq<string>, rs: seq<ModelResult>, m: ModelMetric)
    requires |ms| < |order| && ReportsOf(ms, order, rs) && m.model == order[|ms|] && Reports(m, rs)
    ensures ReportsOf(ms + [m], order, rs)
  {
    var ns := ms + [m];
    forall i | 0 <= i < |ns| ensures ns[i].model == order[i] && Reports(ns[i], rs) {
      assert ns[i] == if i < |ms| then ms[i] else m;
    }
  }

  /** One report per accumulator; the models come in an arbitrary order. */
  method SummarizeAll(byModel: map<string, Acc>, ghost rs: seq<ModelResult>) returns (ms: seq<ModelMetric>)
    requires AccMap(byModel, rs)
    ensures OnePerModel(ms, Models(rs), rs)
  {
    var order := AnyOrder(byModel.Keys);
    ms := [];
    for k := 0 to |order|
      invariant |ms| == k && ReportsOf(ms, order, rs)
    {
      var m := Summarize(order[k], byModel[order[k]], rs);
      NextReport(ms, order, rs, m);
      ms := ms + [m];
    }
    EachModelOnce(order, ms, rs);
  }

  lemma EachModelOnce(order: seq<string>, ms: seq<ModelMetric>, rs: seq<ModelResult>)
    requires NoDuplicates(order) && forall k :: k in order <==> k in Models(rs)
    requires |ms| == |order| && ReportsOf(ms, order, rs)
    ensures OnePerModel(ms, Models(rs), rs)
  {
    forall model | model in Models(rs) ensures Has(ms, model) {
      var i :| 0 <= i < |order| && order[i] == model;
      assert ms[i].model == model;
    }
    forall i, j | 0 <= i < j < |ms| ensures ms[i].model != ms[j].model {
      assert order[i] != order[j];
    }
    forall m | m in ms ensures m.model in Models(rs) && Reports(m, rs) {
      var i :| 0 <= i < |ms| && ms[i] == m;
      assert order[i] in order;
    }
  }

  method AggregateModelMetrics(jobs: seq<JobRecord>) returns (metrics: seq<ModelMetric>)
    ensures Aggregates(metrics, Flatten(jobs))
  {
    var byModel := Accumulate(jobs);
    var unsorted := SummarizeAll(byModel, Flatten(jobs));
    ByModelIsTotal();
    metrics := Sort(ByModel, unsorted);
    SortedAggregates(unsorted, metrics, Flatten(jobs));
  }

  lemma SortedAggregates(unsorted: seq<ModelMetric>, metrics: seq<ModelMetric>, rs: seq<ModelResult>)
    requires OnePerModel(unsorted, Models(rs), rs)
    requires multiset(metrics) == multiset(unsorted) && SortedBy(ByModel, metrics)
    ensures Aggregates(metrics, rs)
  {
    SortedStaysDistinct(unsorted, metrics);
    PermutationKeepsMembers(unsorted, metrics);
    forall model | model in Models(rs) ensures Has(metrics, model) {
      var i :| 0 <= i < |unsorted| && unsorted[i].model == model;
      assert unsorted[i] in metrics;
    }
    forall i | 0 <= i < |metrics| ensures metrics[i].model in Models(rs) && Reports(metrics[i], rs) {
      assert metrics[i] in unsorted;
    }
    forall i, j | 0 <= i < j < |metrics| ensures LexLe(metrics[i].model, metrics[j].model) {
      assert ByModel(metrics[i], metrics[j]);
    }
  }

  lemma SortedStaysDistinct(xs: seq<ModelMetric>, ys: seq<ModelMetric>)
    requires multiset(xs) == multiset(ys)
    requires forall i, j :: 0 <= i < j < |xs| ==> xs[i].model != xs[j].model
    ensures forall i, j :: 0 <= i < j < |ys| ==> ys[i].model != ys[j].model
  {
    PermutationKeepsNoDuplicates(xs, ys);
    PermutationKeepsMembers(xs, ys);
    forall i, j | 0 <= i < j < |ys| ensures ys[i].model != ys[j].model {
      assert ys[i] in xs && ys[j] in xs;
    }
  }
}
