/** The regression gate: what its verdict means, what can and cannot influence it, and how far
    rounding can move it. */
module Gate {
  import opened Aggregation
  import opened JobStore
  import opened Metrics
  import opened Ordering
  import opened Records
  import opened Retention
  import opened Rounding
  import opened Scorer

  const COMPARISON_WINDOW := 500

  /** A parsed floating-point threshold. */
  datatype Limit = NaN | Percent(value: real)

  datatype Query = Absent | Unparsable | Number(limit: Limit)

  /** The threshold to apply, or None for a bad request. */
  function Threshold(q: Query): (limit: Option<Limit>)
    ensures limit.Some? <==>
      q.Absent? || (q.Number? && (q.limit.NaN? || 0.0 < q.limit.value <= 100.0))
    ensures limit.Some? ==> limit.value == if q.Absent? then Percent(5.0) else q.limit
  {
    match q
    case Absent => Some(Percent(DRIFT_THRESHOLD))
    case Unparsable => None
    case Number(NaN) => Some(NaN)
    case Number(Percent(v)) => if v <= 0.0 || v > 100.0 then None else Some(Percent(v))
  }

  predicate Exceeds(drift: real, limit: Limit) {
    limit.Percent? && drift > limit.value
  }

  /** What the gate reads of a model that has graded results. */
  datatype GradedRow = GradedRow(model: string, avg: real)

  function GradedRows(ms: seq<ModelMetric>): seq<GradedRow> {
    if ms == [] then []
    else
      var m := ms[|ms| - 1];
      GradedRows(ms[..|ms| - 1]) + if m.gradedEvals == 0 then [] else [GradedRow(m.model, m.avgGradedScore)]
  }

  function Failing(rows: seq<GradedRow>, limit: Limit): seq<string> {
    if rows == [] then []
    else
      var row := rows[|rows| - 1];
      Failing(rows[..|rows| - 1], limit) + if Exceeds(Drift(row.avg), limit) then [row.model] else []
  }

  function MaxDrift(rows: seq<GradedRow>): (d: real)
    ensures d >= 0.0
  {
    if rows == [] then 0.0
    else
      var before, last := MaxDrift(rows[..|rows| - 1]), Drift(rows[|rows| - 1].avg);
      if last > before then last else before
  }

  /** One decimal, halves up. */
  function RoundTo1(v: real): real
    requires v >= 0.0
  {
    (v * 10.0 + 0.5).Floor as real / 10.0
  }

  datatype Verdict = Verdict(passed: bool, statusCode: int, exitCode: int, gradedModels: nat, maxDrift: real,
                             failing: seq<string>)

  ghost predicate Judges(v: Verdict, rows: seq<GradedRow>, limit: Limit) {
    && v.failing == Failing(rows, limit) && (v.passed <==> v.failing == [])
    && v.exitCode == (if v.passed then 0 else 1) && v.statusCode == (if v.passed then 200 else 409)
    && v.gradedModels == |rows| && v.maxDrift == RoundTo1(MaxDrift(rows))
  }

  /** What one more metric adds to the running values of the loop. */
  lemma OneMoreMetric(metrics: seq<ModelMetric>, k: nat, limit: Limit)
    requires k < |metrics|
    ensures var m, rows := metrics[k], GradedRows(metrics[..k]);
      if m.gradedEvals == 0 then GradedRows(metrics[..k + 1]) == rows
      else
        var after, drift := GradedRows(metrics[..k + 1]), Drift(m.avgGradedScore);
        && |after| == |rows| + 1 && MaxDrift(after) == (if drift > MaxDrift(rows) then drift else MaxDrift(rows))
        && Failing(after, limit) == Failing(rows, limit) + if Exceeds(drift, limit) then [m.model] else []
  {
    var m, rows := metrics[k], GradedRows(metrics[..k]);
    assert metrics[..k + 1][..k] == metrics[..k];
    assert (rows + [GradedRow(m.model, m.avgGradedScore)])[..|rows|] == rows;
  }

  method RegressionCheck(metrics: seq<ModelMetric>, limit: Limit) returns (v: Verdict)
    ensures Judges(v, GradedRows(metrics), limit)
  {
    var failing, maxDrift, graded := [], 0.0, 0;
    for k := 0 to |metrics|
      invariant failing == Failing(GradedRows(metrics[..k]), limit)
      invariant maxDrift == MaxDrift(GradedRows(metrics[..k]))
      invariant graded == |GradedRows(metrics[..k])|
    {
      var m := metrics[k];
      OneMoreMetric(metrics, k, limit);
      if m.gradedEvals == 0 {
        continue;
      }
      graded := graded + 1;
      var drift := Drift(m.avgGradedScore);
      maxDrift := if drift > maxDrift then drift else maxDrift;
      if Exceeds(drift, limit) {
        failing := failing + [m.model];
      }
    }
    assert metrics[..|metrics|] == metrics;
    var passed := |failing| == 0;
    v := Verdict(passed, if passed then 200 else 409, if passed then 0 else 1, graded, RoundTo1(maxDrift), failing);
  }

  /** The handler's answer. JSON has no NaN, so an answer that would quote one loses its body. */
  datatype Answer = BadRequest | Judged(verdict: Verdict, hasBody: bool)

  /** The handler: the gate judges the newest jobs the store lists. `page` and `ids` are that list. */
  method HandleRegressionCheck(store: HybridStore, q: Query, redisUp: bool)
    returns (answer: Answer, ghost page: seq<JobRecord>, ghost ids: seq<Ranked>, ghost metrics: seq<ModelMetric>)
    requires store.Valid() && (store.redis != null ==> store.redis.Valid())
    ensures answer.BadRequest? <==> Threshold(q).None?
    ensures answer.Judged? ==>
      && Judges(answer.verdict, GradedRows(metrics), Threshold(q).value) && Aggregates(metrics, Flatten(page))
      && (answer.hasBody <==> q != Number(NaN))
      && if store.redis != null && redisUp then
        PageOf(ids, Ranks(store.redis.all), IdOf, RankLe, COMPARISON_WINDOW) && Picks(page, ids, store.redis.jobs)
      else
        PageOf(page, store.ideal, JobIdOf, NotNewer, COMPARISON_WINDOW)
  {
    page, ids, metrics := [], [], [];
    var limit := Threshold(q);
    if limit.None? {
      return BadRequest, page, ids, metrics;
    }
    var jobs, ranks := store.ListJobs(COMPARISON_WINDOW, redisUp);
    var ms := AggregateModelMetrics(jobs);
    var v := RegressionCheck(ms, limit.value);
    return Judged(v, limit.value.Percent?), jobs, ranks, ms;
  }

  // ---- what the verdict means --------------------------------------------------------------

  lemma {:induction false} FailingIff(rows: seq<GradedRow>, limit: Limit, model: string)
    ensures model in Failing(rows, limit) <==>
      exists row :: row in rows && row.model == model && Exceeds(Drift(row.avg), limit)
  {
    if rows != [] {
      var n := |rows| - 1;
      assert rows == rows[..n] + [rows[n]];
      FailingIff(rows[..n], limit, model);
      assert rows[n] in rows;
    }
  }

  /** The gate passes exactly when no graded model's drift exceeds the limit. */
  lemma PassesIff(v: Verdict, rows: seq<GradedRow>, limit: Limit)
    requires Judges(v, rows, limit)
    ensures v.passed <==> forall row :: row in rows ==> !Exceeds(Drift(row.avg), limit)
  {
    forall row | row in rows ensures Exceeds(Drift(row.avg), limit) ==> row.model in v.failing {
      FailingIff(rows, limit, row.model);
    }
    if v.failing != [] {
      FailingIff(rows, limit, v.failing[0]);
    }
  }

  lemma {:induction false} MaxDriftIsMax(rows: seq<GradedRow>)
    ensures forall row :: row in rows ==> Drift(row.avg) <= MaxDrift(rows)
    ensures MaxDrift(rows) == 0.0 || exists row :: row in rows && Drift(row.avg) == MaxDrift(rows)
  {
    if rows != [] {
      var n := |rows| - 1;
      assert rows == rows[..n] + [rows[n]];
      MaxDriftIsMax(rows[..n]);
      assert rows[n] in rows;
    }
  }

  /** The reported maximum is the largest drift, to one decimal. */
  lemma ReportedDrift(v: Verdict, rows: seq<GradedRow>, limit: Limit)
    requires Judges(v, rows, limit)
    ensures MaxDrift(rows) - 0.05 <= v.maxDrift <= MaxDrift(rows) + 0.05
    ensures forall row :: row in rows ==> Drift(row.avg) <= v.maxDrift + 0.05
  {
    MaxDriftIsMax(rows);
    var x := MaxDrift(rows) * 10.0 + 0.5;
    assert x - 1.0 < x.Floor as real <= x;
  }

  // ---- non-interference --------------------------------------------------------------------

  predicate Counts(r: ModelResult) {
    !r.Failed() && r.graded
  }

  /** The results the gate depends on. */
  function Relevant(rs: seq<ModelResult>): seq<ModelResult> {
    Select(rs, Counts)
  }

  lemma {:induction false} GradedIsRelevant(rs: seq<ModelResult>, model: string)
    ensures Graded(rs, model) == Select(Relevant(rs), (r: ModelResult) => r.model == model)
  {
    if rs != [] {
      var n := |rs| - 1;
      assert rs == rs[..n] + [rs[n]];
      GradedIsRelevant(rs[..n], model);
      SelectSnoc(rs[..n], rs[n], (r: ModelResult) => r.model == model && !r.Failed() && r.graded);
      SelectSnoc(rs[..n], rs[n], Counts);
      SelectSnoc(Relevant(rs[..n]), rs[n], (r: ModelResult) => r.model == model);
    }
  }

  lemma GradedDependsOnRelevant(rs: seq<ModelResult>, qs: seq<ModelResult>, model: string)
    requires multiset(Relevant(rs)) == multiset(Relevant(qs))
    ensures |Graded(rs, model)| == |Graded(qs, model)|
    ensures SumOf(Graded(rs, model), Score) == SumOf(Graded(qs, model), Score)
  {
    GradedIsRelevant(rs, model);
    GradedIsRelevant(qs, model);
    PermutedSamples(Relevant(rs), Relevant(qs), (r: ModelResult) => r.model == model);
  }

  /** The graded average of a model. */
  function GradedAverage(rs: seq<ModelResult>, model: string): real
    requires Graded(rs, model) != []
  {
    RoundTo(SumOf(Graded(rs, model), Score) / |Graded(rs, model)| as real, 1000.0)
  }

  ghost predicate RowsSorted(rows: seq<GradedRow>) {
    forall i, j :: 0 <= i < j < |rows| ==> LexLe(rows[i].model, rows[j].model) && rows[i].model != rows[j].model
  }

  /** rows are the models with graded results, strictly sorted, with their averages. */
  ghost predicate RowsOf(rows: seq<GradedRow>, rs: seq<ModelResult>) {
    && RowsSorted(rows)
    && (forall row :: row in rows ==> Graded(rs, row.model) != [] && row.avg == GradedAverage(rs, row.model))
    && (forall model :: Graded(rs, model) != [] ==> exists row :: row in rows && row.model == model)
  }

  lemma {:induction false} RowsComeFromMetrics(ms: seq<ModelMetric>, row: GradedRow)
    ensures row in GradedRows(ms) <==>
      exists m :: m in ms && m.gradedEvals != 0 && row == GradedRow(m.model, m.avgGradedScore)
  {
    if ms != [] {
      var n := |ms| - 1;
      assert ms == ms[..n] + [ms[n]];
      RowsComeFromMetrics(ms[..n], row);
      assert ms[n] in ms;
    }
  }

  ghost predicate StrictlySorted(ms: seq<ModelMetric>) {
    forall i, j :: 0 <= i < j < |ms| ==> LexLe(ms[i].model, ms[j].model) && ms[i].model != ms[j].model
  }

  lemma {:induction false} RowsAreSorted(ms: seq<ModelMetric>)
    requires StrictlySorted(ms)
    ensures RowsSorted(GradedRows(ms))
  {
    if ms != [] {
      var n := |ms| - 1;
      var before := GradedRows(ms[..n]);
      RowsAreSorted(ms[..n]);
      forall row | row in before ensures LexLe(row.model, ms[n].model) && row.model != ms[n].model {
        RowsComeFromMetrics(ms[..n], row);
        var m :| m in ms[..n] && row == GradedRow(m.model, m.avgGradedScore);
        var i :| 0 <= i < n && ms[i] == m;
      }
      var last := GradedRow(ms[n].model, ms[n].avgGradedScore);
      assert forall i :: 0 <= i < |before| ==> before[i] in before;
      assert RowsSorted(before + [last]);
      assert before + [] == before;
    }
  }

  lemma {:induction false} SelectedAreMembers(rs: seq<ModelResult>, p: ModelResult -> bool)
    ensures forall r :: r in Select(rs, p) ==> r in rs && p(r)
  {
    if rs != [] {
      SelectedAreMembers(rs[..|rs| - 1], p);
    }
  }

  lemma ReportedRow(m: ModelMetric, rs: seq<ModelResult>)
    requires Reports(m, rs)
    ensures m.gradedEvals != 0 <==> Graded(rs, m.model) != []
    ensures m.gradedEvals != 0 ==> m.avgGradedScore == GradedAverage(rs, m.model)
  {
  }

  ghost predicate RowsReported(ms: seq<ModelMetric>, rs: seq<ModelResult>) {
    forall m :: m in ms ==>
                  && (m.gradedEvals != 0 <==> Graded(rs, m.model) != [])
                  && (m.gradedEvals != 0 ==> m.avgGradedScore == GradedAverage(rs, m.model))
  }

  lemma ReportedRows(ms: seq<ModelMetric>, rs: seq<ModelResult>)
    requires Aggregates(ms, rs)
    ensures RowsReported(ms, rs) && StrictlySorted(ms)
  {
    forall m | m in ms
      ensures m.gradedEvals != 0 <==> Graded(rs, m.model) != []
      ensures m.gradedEvals != 0 ==> m.avgGradedScore == GradedAverage(rs, m.model)
    {
      ReportedRow(m, rs);
    }
  }

  lemma GradedModelIsReported(ms: seq<ModelMetric>, rs: seq<ModelResult>, model: string) returns (m: ModelMetric)
    requires Aggregates(ms, rs) && Graded(rs, model) != []
    ensures m in ms && m.model == model
  {
    SelectedAreMembers(rs, (r: ModelResult) => r.model == model && !r.Failed() && r.graded);
    var r := Graded(rs, model)[0];
    assert r in rs && r.model in Models(rs);
    assert Has(ms, model);
    var i :| 0 <= i < |ms| && ms[i].model == model;
    m := ms[i];
  }

  lemma AggregatesGiveRows(ms: seq<ModelMetric>, rs: seq<ModelResult>)
    requires Aggregates(ms, rs)
    ensures RowsOf(GradedRows(ms), rs)
  {
    ReportedRows(ms, rs);
    RowsAreSorted(ms);
    forall row | row in GradedRows(ms) ensures Graded(rs, row.model) != [] && row.avg == GradedAverage(rs, row.model) {
      RowsComeFromMetrics(ms, row);
    }
    forall model | Graded(rs, model) != [] ensures exists row :: row in GradedRows(ms) && row.model == model {
      var m := GradedModelIsReported(ms, rs, model);
      RowsComeFromMetrics(ms, GradedRow(model, m.avgGradedScore));
    }
  }

  function RowNames(rows: seq<GradedRow>): seq<string> {
    Project(rows, (row: GradedRow) => row.model)
  }

  lemma RowNamesAre(rows: seq<GradedRow>, rs: seq<ModelResult>)
    requires RowsOf(rows, rs)
    ensures NoDuplicates(RowNames(rows)) && SortedBy(LexLe, RowNames(rows))
    ensures forall model :: model in RowNames(rows) <==> Graded(rs, model) != []
  {
    forall model | Graded(rs, model) != [] ensures model in RowNames(rows) {
      var row :| row in rows && row.model == model;
      var i :| 0 <= i < |rows| && rows[i] == row;
      assert RowNames(rows)[i] == model;
    }
  }

  lemma RowsDependOnRelevant(rows: seq<GradedRow>, others: seq<GradedRow>, rs: seq<ModelResult>, qs: seq<ModelResult>)
    requires RowsOf(rows, rs) && RowsOf(others, qs) && multiset(Relevant(rs)) == multiset(Relevant(qs))
    ensures rows == others
  {
    RowNamesAre(rows, rs);
    RowNamesAre(others, qs);
    forall model ensures model in RowNames(rows) <==> model in RowNames(others) {
      GradedDependsOnRelevant(rs, qs, model);
    }
    SameMembersPermute(RowNames(rows), RowNames(others));
    LexIsOrder();
    SortedUnique(LexLe, RowNames(rows), RowNames(others));
    forall i | 0 <= i < |rows| ensures rows[i] == others[i] {
      assert RowNames(rows)[i] == RowNames(others)[i];
      assert rows[i] in rows && others[i] in others;
      GradedDependsOnRelevant(rs, qs, rows[i].model);
    }
  }

  /** Non-interference: results that are failed, simulated or ungraded have no influence on any
      part of the verdict, and neither has the order of the graded ones. */
  lemma OnlyGradedResultsMatter(v: Verdict, w: Verdict, ms: seq<ModelMetric>, ks: seq<ModelMetric>,
                                rs: seq<ModelResult>, qs: seq<ModelResult>, limit: Limit)
    requires Aggregates(ms, rs) && Judges(v, GradedRows(ms), limit)
    requires Aggregates(ks, qs) && Judges(w, GradedRows(ks), limit)
    requires multiset(Relevant(rs)) == multiset(Relevant(qs))
    ensures v == w
  {
    AggregatesGiveRows(ms, rs);
    AggregatesGiveRows(ks, qs);
    RowsDependOnRelevant(GradedRows(ms), GradedRows(ks), rs, qs);
  }

  lemma {:induction false} SelectAppend(rs: seq<ModelResult>, qs: seq<ModelResult>, p: ModelResult -> bool)
    ensures Select(rs + qs, p) == Select(rs, p) + Select(qs, p)
  {
    if qs == [] {
      assert rs + qs == rs;
    } else {
      var n := |qs| - 1;
      assert (rs + qs)[..|rs| + n] == rs + qs[..n];
      SelectAppend(rs, qs[..n], p);
    }
  }

  /** Inserting results that do not count, anywhere, leaves the counting ones as they were. */
  lemma NoiseIsInvisible(before: seq<ModelResult>, noise: seq<ModelResult>, after: seq<ModelResult>)
    requires forall r :: r in noise ==> !Counts(r)
    ensures Relevant(before + noise + after) == Relevant(before + after)
  {
    SelectAppend(before + noise, after, Counts);
    SelectAppend(before, noise, Counts);
    SelectAppend(before, after, Counts);
    SelectsNone(noise, Counts);
  }
}
