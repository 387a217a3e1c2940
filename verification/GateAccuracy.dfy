/** How far the two roundings, of each score and of the average, can move the gate. */
module GateAccuracy {
  import opened Gate
  import opened Metrics
  import opened Records
  import opened Rounding
  import opened Scorer

  function Total(xs: seq<real>): real {
    if xs == [] then 0.0 else Total(xs[..|xs| - 1]) + xs[|xs| - 1]
  }

  function Mean(xs: seq<real>): real
    requires xs != []
  {
    Total(xs) / |xs| as real
  }

  /** `raws` are the scores of rs before Evaluate rounded them. */
  ghost predicate RoundedScores(rs: seq<ModelResult>, raws: seq<real>) {
    |rs| == |raws| && forall i :: 0 <= i < |rs| ==> rs[i].semanticScore == RoundTo(raws[i], 1000.0)
  }

  lemma {:induction false} SumOfRounded(rs: seq<ModelResult>, raws: seq<real>)
    requires RoundedScores(rs, raws)
    ensures -0.0005 * |rs| as real <= SumOf(rs, Score) - Total(raws) <= 0.0005 * |rs| as real
  {
    if rs != [] {
      var n := |rs| - 1;
      assert RoundedScores(rs[..n], raws[..n]);
      SumOfRounded(rs[..n], raws[..n]);
      RoundToIsClose(raws[n], 1000.0);
    }
  }

  lemma DivideShifted(b: real, c: real, n: real)
    requires n > 0.0
    ensures (b + c * n) / n == b / n + c
  {
    assert (c * n) / n == c;
  }

  lemma QuotientsStayClose(a: real, b: real, n: nat)
    requires n > 0 && -0.0005 * n as real <= a - b <= 0.0005 * n as real
    ensures Abs(a / n as real - b / n as real) <= 0.0005
  {
    DivideOrder(a, b + 0.0005 * n as real, n as real);
    DivideOrder(b + -0.0005 * n as real, a, n as real);
    DivideShifted(b, 0.0005, n as real);
    DivideShifted(b, -0.0005, n as real);
  }

  /** The reported average is within 0.001 of the mean of the unrounded scores. */
  lemma AverageIsAccurate(rs: seq<ModelResult>, raws: seq<real>)
    requires rs != [] && RoundedScores(rs, raws)
    ensures Abs(RoundTo(SumOf(rs, Score) / |rs| as real, 1000.0) - Mean(raws)) <= 0.001
  {
    SumOfRounded(rs, raws);
    QuotientsStayClose(SumOf(rs, Score), Total(raws), |rs|);
    RoundToIsClose(SumOf(rs, Score) / |rs| as real, 1000.0);
  }

  /** The drift that average implies is off by at most 0.1 / 0.92 percentage points. */
  predicate ClearOf(drift: real, limit: Limit) {
    limit.NaN? || Abs(drift - limit.value) > 0.1 / 0.92
  }

  lemma DriftFollowsScore(x: real, y: real, limit: Limit)
    requires Abs(x - y) <= 0.001 && ClearOf(Drift(y), limit)
    ensures Exceeds(Drift(x), limit) <==> Exceeds(Drift(y), limit)
  {
  }

  /** A model fails the gate exactly when its rounded average does. */
  lemma FailsByAverage(v: Verdict, ms: seq<ModelMetric>, rs: seq<ModelResult>, limit: Limit, model: string)
    requires Aggregates(ms, rs) && Judges(v, GradedRows(ms), limit) && Graded(rs, model) != []
    ensures model in v.failing <==> Exceeds(Drift(GradedAverage(rs, model)), limit)
  {
    var rows := GradedRows(ms);
    AggregatesGiveRows(ms, rs);
    FailingIff(rows, limit, model);
    var row :| row in rows && row.model == model;
  }

  /** For every model whose exact drift is clear of the limit, the gate decides as if nothing had
      been rounded. */
  lemma GateIsAccurate(v: Verdict, ms: seq<ModelMetric>, rs: seq<ModelResult>, limit: Limit, model: string,
                       raws: seq<real>)
    requires Aggregates(ms, rs) && Judges(v, GradedRows(ms), limit)
    requires Graded(rs, model) != [] && RoundedScores(Graded(rs, model), raws)
    requires ClearOf(Drift(Mean(raws)), limit)
    ensures model in v.failing <==> Exceeds(Drift(Mean(raws)), limit)
  {
    FailsByAverage(v, ms, rs, limit, model);
    AverageDecidesAsMean(rs, limit, model, raws);
  }

  lemma AverageDecidesAsMean(rs: seq<ModelResult>, limit: Limit, model: string, raws: seq<real>)
    requires Graded(rs, model) != [] && RoundedScores(Graded(rs, model), raws)
    requires ClearOf(Drift(Mean(raws)), limit)
    ensures Exceeds(Drift(GradedAverage(rs, model)), limit) <==> Exceeds(Drift(Mean(raws)), limit)
  {
    var average, mean := GradedAverage(rs, model), Mean(raws);
    assert Abs(average - mean) <= 0.001 by { AverageIsAccurate(Graded(rs, model), raws); }
    DriftFollowsScore(average, mean, limit);
  }

  lemma RoundAgain(s: real)
    ensures RoundTo(RoundTo(s, 1000.0), 1000.0) == RoundTo(s, 1000.0)
    ensures RoundTo(s, 1000.0) < 0.874 <==> s < 0.8735
  {
    var n := Round(s * 1000.0);
    assert RoundTo(s, 1000.0) * 1000.0 == n as real;
    assert Round(n as real) == n;
    if s < 0.0 {
      RoundIsMonotone(s * 1000.0, 0.0);
    }
  }

  lemma OnlyResult(r: ModelResult, model: string)
    requires Counts(r)
    ensures Graded([r], model) == if model == r.model then [r] else []
    ensures SumOf([r], Score) == r.semanticScore
  {
    SelectSnoc([], r, (r: ModelResult) => r.model == model && !r.Failed() && r.graded);
    SumSnoc([], r, Score);
    assert [] + [r] == [r];
  }

  lemma OnlyModelDecides(v: Verdict, ms: seq<ModelMetric>, r: ModelResult, limit: Limit)
    requires Counts(r) && Aggregates(ms, [r]) && Judges(v, GradedRows(ms), limit)
    ensures v.passed <==> r.model !in v.failing
  {
    var rows := GradedRows(ms);
    AggregatesGiveRows(ms, [r]);
    if v.failing != [] {
      var model := v.failing[0];
      FailingIff(rows, limit, model);
      OnlyResult(r, model);
    }
  }

  lemma SingleResultDecides(v: Verdict, ms: seq<ModelMetric>, r: ModelResult, limit: Limit)
    requires Counts(r) && Aggregates(ms, [r]) && Judges(v, GradedRows(ms), limit)
    ensures v.passed <==> !Exceeds(Drift(RoundTo(r.semanticScore, 1000.0)), limit)
  {
    OnlyModelDecides(v, ms, r, limit);
    OnlyResult(r, r.model);
    FailsByAverage(v, ms, [r], limit, r.model);
  }

  lemma AtDefaultLimit(score: real)
    ensures Exceeds(Drift(score), Percent(DRIFT_THRESHOLD)) <==> score < 0.874
  {
  }

  /** The status of a model follows from the sum of its graded scores: critical below 0.6995 on average,
      degraded below 0.8495, ungraded without any. */
  lemma StatusFollowsScores(m: ModelMetric, rs: seq<ModelResult>)
    requires Reports(m, rs)
    ensures var n, total := |Graded(rs, m.model)| as real, SumOf(Graded(rs, m.model), Score);
      && (m.status == Ungraded <==> Graded(rs, m.model) == [])
      && (m.status == Critical <==> Graded(rs, m.model) != [] && total < 0.6995 * n)
      && (m.status == Degraded <==> Graded(rs, m.model) != [] && 0.6995 * n <= total < 0.8495 * n)
      && (m.status == Stable <==> Graded(rs, m.model) != [] && 0.8495 * n <= total)
  {
    var n, total := |Graded(rs, m.model)|, SumOf(Graded(rs, m.model), Score);
    if n > 0 {
      RoundedBelow(total, n, 700);
      RoundedBelow(total, n, 850);
    }
  }

  /** A mean rounds below a limit exactly when it is half a thousandth below. */
  lemma RoundedBelow(total: real, n: nat, limit: nat)
    requires n > 0 && limit > 0
    ensures RoundTo(total / n as real, 1000.0) < limit as real / 1000.0 <==>
      total < ((limit as real - 0.5) / 1000.0) * n as real
  {
    var mean := total / n as real;
    RoundBelow(mean, limit);
    QuotientBelow(total, (limit as real - 0.5) / 1000.0, n as real);
  }

  lemma RoundBelow(x: real, limit: nat)
    requires limit > 0
    ensures RoundTo(x, 1000.0) < limit as real / 1000.0 <==> x < (limit as real - 0.5) / 1000.0
  {
    var k := Round(x * 1000.0);
    RoundIff(x * 1000.0, k);
    assert RoundTo(x, 1000.0) == k as real / 1000.0;
    assert k < limit <==> k <= limit - 1;
  }

  lemma QuotientBelow(total: real, y: real, n: real)
    requires n > 0.0
    ensures total / n < y <==> total < y * n
  {
    var mean := total / n;
    assert total == mean * n;
    Scaled(mean, y, n);
  }

  lemma Scaled(x: real, y: real, n: real)
    requires n > 0.0
    ensures x < y <==> x * n < y * n
  {
  }

  /** Every result raises its alert on its own raw score. */
  ghost predicate AlertsOf(rs: seq<ModelResult>, raws: seq<real>) {
    && RoundedScores(rs, raws)
    && forall i :: 0 <= i < |rs| ==> (rs[i].regressionAlert <==> Drift(raws[i]) > DRIFT_THRESHOLD)
  }

  ghost predicate SomeAlert(rs: seq<ModelResult>) {
    exists r :: r in rs && r.regressionAlert
  }

  ghost predicate SomeBelow(raws: seq<real>, score: real) {
    exists i :: 0 <= i < |raws| && raws[i] < score
  }

  lemma AlertMeansBelow(rs: seq<ModelResult>, raws: seq<real>)
    requires AlertsOf(rs, raws)
    ensures SomeAlert(rs) <==> SomeBelow(raws, 0.874)
  {
    forall i | 0 <= i < |raws| ensures rs[i].regressionAlert <==> raws[i] < 0.874 {
      AtDefaultLimit(raws[i]);
    }
    if SomeAlert(rs) {
      var r :| r in rs && r.regressionAlert;
      var i :| 0 <= i < |rs| && rs[i] == r;
    }
  }

  /** Where alert and gate disagree on a model: one of its graded results raises an alert and yet it
      does not fail exactly when some raw score is below 0.874 and the rounded average is not. */
  lemma AlertsOnPassingModelIff(v: Verdict, ms: seq<ModelMetric>, rs: seq<ModelResult>, model: string, raws: seq<real>)
    requires Aggregates(ms, rs) && Judges(v, GradedRows(ms), Percent(DRIFT_THRESHOLD))
    requires Graded(rs, model) != [] && AlertsOf(Graded(rs, model), raws)
    ensures SomeAlert(Graded(rs, model)) && model !in v.failing <==>
      SomeBelow(raws, 0.874) && GradedAverage(rs, model) >= 0.874
  {
    AlertMeansBelow(Graded(rs, model), raws);
    FailsByAverage(v, ms, rs, Percent(DRIFT_THRESHOLD), model);
    AtDefaultLimit(GradedAverage(rs, model));
  }

  /** The gate passes exactly when no model's rounded average is below 0.874. */
  lemma PassesByAverages(v: Verdict, ms: seq<ModelMetric>, rs: seq<ModelResult>)
    requires Aggregates(ms, rs) && Judges(v, GradedRows(ms), Percent(DRIFT_THRESHOLD))
    ensures v.passed <==> forall model :: Graded(rs, model) != [] ==> GradedAverage(rs, model) >= 0.874
  {
    var rows := GradedRows(ms);
    AggregatesGiveRows(ms, rs);
    PassesIff(v, rows, Percent(DRIFT_THRESHOLD));
    forall model | Graded(rs, model) != []
      ensures exists row :: row in rows && row.model == model && row.avg == GradedAverage(rs, model)
    {
    }
    forall row | row in rows
      ensures Exceeds(Drift(row.avg), Percent(DRIFT_THRESHOLD)) <==> row.avg < 0.874
    {
      AtDefaultLimit(row.avg);
    }
  }

  /** The same for the whole gate: it passes although some graded result raised an alert exactly when
      some raw score is below 0.874 and no model's rounded average is. */
  lemma GatePassesAlertsIff(v: Verdict, ms: seq<ModelMetric>, rs: seq<ModelResult>, raws: seq<real>)
    requires Aggregates(ms, rs) && Judges(v, GradedRows(ms), Percent(DRIFT_THRESHOLD))
    requires AlertsOf(Relevant(rs), raws)
    ensures SomeAlert(Relevant(rs)) && v.passed <==>
      SomeBelow(raws, 0.874) && forall model :: Graded(rs, model) != [] ==> GradedAverage(rs, model) >= 0.874
  {
    AlertMeansBelow(Relevant(rs), raws);
    PassesByAverages(v, ms, rs);
  }

  /** A model with a single graded result: with raw score s it raises an alert below 0.874, but fails
      the gate only below 0.8735. */
  lemma AlertPassesGateIff(v: Verdict, ms: seq<ModelMetric>, r: ModelResult, s: real)
    requires Counts(r) && r.semanticScore == RoundTo(s, 1000.0)
    requires r.regressionAlert <==> Drift(s) > DRIFT_THRESHOLD
    requires Aggregates(ms, [r]) && Judges(v, GradedRows(ms), Percent(DRIFT_THRESHOLD))
    ensures v.passed <==> s >= 0.8735
    ensures r.regressionAlert && v.passed <==> 0.8735 <= s < 0.874
  {
    SingleResultDecides(v, ms, r, Percent(DRIFT_THRESHOLD));
    RoundAgain(s);
    AtDefaultLimit(RoundTo(s, 1000.0));
    AtDefaultLimit(s);
  }
  lemma BothGraded(r: ModelResult, q: ModelResult, model: string)
    requires Counts(r) && Counts(q) && r.model == q.model
    ensures Graded([r, q], model) == if model == r.model then [r, q] else []
    ensures SumOf([r, q], Score) == r.semanticScore + q.semanticScore
  {
    OnlyResult(r, model);
    assert [r, q] == [r] + [q];
    SelectSnoc([r], q, (x: ModelResult) => x.model == model && !x.Failed() && x.graded);
    SumSnoc([r], q, Score);
  }

  lemma RoundedSpread()
    ensures RoundTo(0.8, 1000.0) == 0.8 && RoundTo(1.0, 1000.0) == 1.0 && RoundTo(0.9, 1000.0) == 0.9
  {
    assert Round(800.0) == 800 && Round(1000.0) == 1000 && Round(900.0) == 900;
  }

  lemma SpreadAverage(r: ModelResult, q: ModelResult, model: string)
    requires Counts(r) && Counts(q) && r.model == q.model && r.semanticScore == 0.8 && q.semanticScore == 1.0
    ensures Graded([r, q], model) != [] ==> GradedAverage([r, q], model) >= 0.874
  {
    BothGraded(r, q, model);
    RoundedSpread();
    if Graded([r, q], model) != [] {
      assert SumOf(Graded([r, q], model), Score) / |Graded([r, q], model)| as real == 0.9;
    }
  }

  /** Scores far from the threshold do it too: of two answers scored 0.8 and 1.0 the first raises an
      alert, and the gate passes on their average. */
  lemma SpreadAnswersPass(v: Verdict, ms: seq<ModelMetric>, r: ModelResult, q: ModelResult)
    requires Counts(r) && Counts(q) && r.model == q.model
    requires AlertsOf([r, q], [0.8, 1.0])
    requires Aggregates(ms, [r, q]) && Judges(v, GradedRows(ms), Percent(DRIFT_THRESHOLD))
    ensures r.regressionAlert && v.passed
  {
    assert [0.8, 1.0][0] == 0.8 && [r, q][0] == r && [r, q][1] == q && [0.8, 1.0][1] == 1.0;
    AtDefaultLimit(0.8);
    RoundedSpread();
    forall model ensures Graded([r, q], model) != [] ==> GradedAverage([r, q], model) >= 0.874 {
      SpreadAverage(r, q, model);
    }
    PassesByAverages(v, ms, [r, q]);
  }
}
