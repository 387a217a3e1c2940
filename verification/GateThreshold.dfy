/** Which thresholds leave the gate able to fail. */
module GateThreshold {
  import opened Gate
  import opened GateAccuracy
  import opened Metrics
  import opened Records
  import opened Rounding
  import opened Scorer

  /** NaN is accepted as a threshold, and no report whatever fails it. */
  lemma NaNIsAccepted(v: Verdict, rows: seq<GradedRow>)
    requires Judges(v, rows, NaN)
    ensures Threshold(Number(NaN)) == Some(NaN) && v.passed
  {
    PassesIff(v, rows, NaN);
  }

  // ---- the report on a single result -------------------------------------------------------

  function ReportOn(r: ModelResult): ModelMetric {
    var avg := RoundTo(r.semanticScore, 1000.0);
    ModelMetric(r.model, 1, 0, 1, r.latencyMs, r.latencyMs, r.latencyMs, avg, avg,
                RoundTo(r.costUSD, 1_000_000.0), Classify(avg))
  }

  lemma OnlySelected(r: ModelResult, p: ModelResult -> bool)
    ensures Select([r], p) == if p(r) then [r] else []
  {
    assert [] + [r] == [r];
    SelectSnoc([], r, p);
  }

  lemma SelectionsOn(r: ModelResult)
    requires Counts(r)
    ensures Good([r], r.model) == [r] && Bad([r], r.model) == [] && Graded([r], r.model) == [r]
  {
    OnlySelected(r, (q: ModelResult) => q.model == r.model && !q.Failed());
    OnlySelected(r, (q: ModelResult) => q.model == r.model && q.Failed());
    OnlyResult(r, r.model);
  }

  lemma SumsOn(r: ModelResult)
    ensures SumOf([r], Score) == r.semanticScore && SumOf([r], Cost) == r.costUSD
    ensures IsSorted([r.latencyMs], LatenciesOf([r]))
  {
    assert [] + [r] == [r];
    FoldSnoc([], r);
  }

  lemma ReportsOn(r: ModelResult)
    requires Counts(r)
    ensures Reports(ReportOn(r), [r])
  {
    SelectionsOn(r);
    SumsOn(r);
    var sorted := [r.latencyMs];
    assert IsSorted(sorted, LatenciesOf([r])) && sorted != [];
  }

  lemma SingleReport(r: ModelResult)
    requires Counts(r)
    ensures Aggregates([ReportOn(r)], [r])
  {
    ReportsOn(r);
    assert [ReportOn(r)][0].model == r.model;
  }

  // ---- reports with scores in range --------------------------------------------------------

  ghost predicate InRange(rs: seq<ModelResult>) {
    forall r :: r in rs ==> 0.0 <= r.semanticScore <= 1.0
  }

  lemma {:induction false} SumInRange(rs: seq<ModelResult>)
    requires InRange(rs)
    ensures 0.0 <= SumOf(rs, Score) <= |rs| as real
  {
    if rs != [] {
      assert rs == rs[..|rs| - 1] + [rs[|rs| - 1]];
      SumInRange(rs[..|rs| - 1]);
    }
  }

  lemma QuotientInRange(x: real, n: real)
    requires n > 0.0 && 0.0 <= x <= n
    ensures 0.0 <= x / n <= 1.0
  {
    DivideOrder(0.0, x, n);
    DivideOrder(x, n, n);
  }

  lemma RoundedInRange(x: real)
    requires 0.0 <= x <= 1.0
    ensures 0.0 <= RoundTo(x, 1000.0) <= 1.0
  {
    RoundIsMonotone(0.0, x * 1000.0);
    RoundIsMonotone(x * 1000.0, 1000.0);
    assert Round(0.0) == 0 && Round(1000.0) == 1000;
  }

  lemma AverageInRange(rs: seq<ModelResult>)
    requires InRange(rs) && rs != []
    ensures 0.0 <= RoundTo(SumOf(rs, Score) / |rs| as real, 1000.0) <= 1.0
  {
    SumInRange(rs);
    QuotientInRange(SumOf(rs, Score), |rs| as real);
    RoundedInRange(SumOf(rs, Score) / |rs| as real);
  }

  /** The drift of a report on scores in [0, 1] is at most 100. */
  lemma DriftAtMost100(ms: seq<ModelMetric>, rs: seq<ModelResult>, row: GradedRow)
    requires Aggregates(ms, rs) && InRange(rs) && row in GradedRows(ms)
    ensures Drift(row.avg) <= 100.0
  {
    AggregatesGiveRows(ms, rs);
    var graded := Graded(rs, row.model);
    SelectedAreMembers(rs, (r: ModelResult) => r.model == row.model && !r.Failed() && r.graded);
    AverageInRange(graded);
  }

  /** Some report on results with scores in [0, 1] fails the gate. */
  ghost predicate CanFail(limit: Limit) {
    exists v, ms, rs :: IsFailure(v, ms, rs, limit)
  }

  ghost predicate IsFailure(v: Verdict, ms: seq<ModelMetric>, rs: seq<ModelResult>, limit: Limit) {
    InRange(rs) && Aggregates(ms, rs) && Judges(v, GradedRows(ms), limit) && !v.passed
  }

  /** A model whose only answer is worthless. */
  lemma WorthlessFails(limit: Limit, r: ModelResult) returns (v: Verdict)
    requires limit.Percent? && limit.value < 100.0 && Counts(r) && r.semanticScore == 0.0
    ensures IsFailure(v, [ReportOn(r)], [r], limit)
  {
    var rows := GradedRows([ReportOn(r)]);
    SingleReport(r);
    var failing := Failing(rows, limit);
    v := Verdict(failing == [], if failing == [] then 200 else 409, if failing == [] then 0 else 1, |rows|,
                 RoundTo1(MaxDrift(rows)), failing);
    SingleResultDecides(v, [ReportOn(r)], r, limit);
    assert Round(0.0) == 0;
  }

  /** Of the thresholds the handler accepts, exactly the numbers below 100 let the gate fail at all:
      NaN and 100 accept every report. */
  lemma CanFailIff(q: Query)
    requires Threshold(q).Some?
    ensures CanFail(Threshold(q).value) <==> Threshold(q).value.Percent? && Threshold(q).value.value < 100.0
  {
    var limit := Threshold(q).value;
    if limit.Percent? && limit.value < 100.0 {
      var r := ModelResult("m", 0, 0, 0, 0.0, false, true, false, 0.0, true, 100.0, "");
      var v := WorthlessFails(limit, r);
    }
    forall v, ms, rs | IsFailure(v, ms, rs, limit) ensures limit.Percent? && limit.value < 100.0 {
      PassesIff(v, GradedRows(ms), limit);
      var row :| row in GradedRows(ms) && Exceeds(Drift(row.avg), limit);
      DriftAtMost100(ms, rs, row);
    }
  }
}
