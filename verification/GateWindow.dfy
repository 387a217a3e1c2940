/** The gate only sees the 500 newest jobs. */
module GateWindow {
  import opened Aggregation
  import opened Gate
  import opened Metrics
  import opened Records

  /** The jobs the gate sees, of a list with the newest first. */
  function Window(jobs: seq<JobRecord>): seq<JobRecord> {
    if |jobs| <= COMPARISON_WINDOW then jobs else jobs[..COMPARISON_WINDOW]
  }

  /** The graded results of a list of jobs. */
  function GradedResults(jobs: seq<JobRecord>): seq<ModelResult> {
    Relevant(Flatten(jobs))
  }

  lemma {:induction false} FlattenAppend(jobs: seq<JobRecord>, more: seq<JobRecord>)
    ensures Flatten(jobs + more) == Flatten(jobs) + Flatten(more)
  {
    if more == [] {
      assert jobs + more == jobs;
    } else {
      var n := |more| - 1;
      assert (jobs + more)[..|jobs| + n] == jobs + more[..n];
      FlattenAppend(jobs, more[..n]);
    }
  }

  lemma GradedResultsAppend(jobs: seq<JobRecord>, more: seq<JobRecord>)
    ensures GradedResults(jobs + more) == GradedResults(jobs) + GradedResults(more)
  {
    FlattenAppend(jobs, more);
    SelectAppend(Flatten(jobs), Flatten(more), Counts);
  }

  /** The verdict of the gate on a job list. */
  ghost predicate Decides(v: Verdict, jobs: seq<JobRecord>, limit: Limit) {
    exists ms :: Aggregates(ms, Flatten(Window(jobs))) && Judges(v, GradedRows(ms), limit)
  }

  lemma SameGradedSameDecision(v: Verdict, w: Verdict, jobs: seq<JobRecord>, others: seq<JobRecord>, limit: Limit)
    requires Decides(v, jobs, limit) && Decides(w, others, limit)
    requires multiset(GradedResults(Window(jobs))) == multiset(GradedResults(Window(others)))
    ensures v == w
  {
    var ms :| Aggregates(ms, Flatten(Window(jobs))) && Judges(v, GradedRows(ms), limit);
    var ks :| Aggregates(ks, Flatten(Window(others))) && Judges(w, GradedRows(ks), limit);
    OnlyGradedResultsMatter(v, w, ms, ks, Flatten(Window(jobs)), Flatten(Window(others)), limit);
  }

  /** The jobs that newer ones push out of the window. */
  function PushedOut(newer: seq<JobRecord>, jobs: seq<JobRecord>): seq<JobRecord> {
    var room := if |newer| <= COMPARISON_WINDOW then COMPARISON_WINDOW - |newer| else 0;
    if |Window(jobs)| <= room then [] else Window(jobs)[room..]
  }

  /** The others of the window. */
  function Staying(newer: seq<JobRecord>, jobs: seq<JobRecord>): seq<JobRecord> {
    var room := if |newer| <= COMPARISON_WINDOW then COMPARISON_WINDOW - |newer| else 0;
    if |Window(jobs)| <= room then Window(jobs) else Window(jobs)[..room]
  }

  lemma WindowSplits(newer: seq<JobRecord>, jobs: seq<JobRecord>)
    ensures Window(jobs) == Staying(newer, jobs) + PushedOut(newer, jobs)
    ensures if |newer| <= COMPARISON_WINDOW then Window(newer + jobs) == newer + Staying(newer, jobs)
            else Staying(newer, jobs) == []
  {
  }

  lemma NewerFillWindow(newer: seq<JobRecord>, jobs: seq<JobRecord>)
    requires |newer| >= COMPARISON_WINDOW
    ensures Window(newer + jobs) == newer[..COMPARISON_WINDOW]
    ensures newer == Window(newer + jobs) + newer[COMPARISON_WINDOW..]
  {
  }

  /** Newer jobs without graded results leave the graded results in view as they are exactly when
      they push none of them out; then the verdict is the same too. */
  lemma UngradedJobsInvisibleIff(newer: seq<JobRecord>, jobs: seq<JobRecord>)
    requires GradedResults(newer) == []
    ensures GradedResults(Window(newer + jobs)) == GradedResults(Window(jobs)) <==>
      GradedResults(PushedOut(newer, jobs)) == []
  {
    var out, stay := PushedOut(newer, jobs), Staying(newer, jobs);
    WindowSplits(newer, jobs);
    GradedResultsAppend(stay, out);
    if |newer| <= COMPARISON_WINDOW {
      GradedResultsAppend(newer, stay);
    } else {
      NewerFillWindow(newer, jobs);
      GradedResultsAppend(Window(newer + jobs), newer[COMPARISON_WINDOW..]);
    }
  }

  lemma UngradedJobsKeepVerdict(newer: seq<JobRecord>, jobs: seq<JobRecord>, v: Verdict, w: Verdict, limit: Limit)
    requires GradedResults(newer) == [] && GradedResults(PushedOut(newer, jobs)) == []
    requires Decides(v, jobs, limit) && Decides(w, newer + jobs, limit)
    ensures v == w
  {
    UngradedJobsInvisibleIff(newer, jobs);
    SameGradedSameDecision(v, w, jobs, newer + jobs, limit);
  }

  lemma NothingGradedPasses(v: Verdict, jobs: seq<JobRecord>, limit: Limit)
    requires Decides(v, jobs, limit) && GradedResults(Window(jobs)) == []
    ensures v.passed && v.gradedModels == 0
  {
    var rs := Flatten(Window(jobs));
    var ms :| Aggregates(ms, rs) && Judges(v, GradedRows(ms), limit);
    NoRowsPass(v, ms, rs, limit);
  }

  lemma NoRowsPass(v: Verdict, ms: seq<ModelMetric>, rs: seq<ModelResult>, limit: Limit)
    requires Aggregates(ms, rs) && Judges(v, GradedRows(ms), limit) && Relevant(rs) == []
    ensures v.passed && v.gradedModels == 0
  {
    AggregatesGiveRows(ms, rs);
    var rows := GradedRows(ms);
    if rows != [] {
      assert rows[0] in rows;
      GradedIsRelevant(rs, rows[0].model);
      assert false;
    }
  }

  /** 500 newer jobs without graded results make the gate pass, whatever the older ones hold. */
  lemma NewerJobsBlindTheGate(newer: seq<JobRecord>, jobs: seq<JobRecord>, v: Verdict, limit: Limit)
    requires |newer| >= COMPARISON_WINDOW && GradedResults(newer) == []
    requires Decides(v, newer + jobs, limit)
    ensures v.passed && v.gradedModels == 0
  {
    NewerFillWindow(newer, jobs);
    GradedResultsAppend(Window(newer + jobs), newer[COMPARISON_WINDOW..]);
    NothingGradedPasses(v, newer + jobs, limit);
  }

  // ---- what the window leaves out ---------------------------------------------------------

  function GradedEvals(ms: seq<ModelMetric>): nat {
    if ms == [] then 0 else GradedEvals(ms[..|ms| - 1]) + ms[|ms| - 1].gradedEvals
  }

  function OneIfCounts(r: ModelResult): real {
    if Counts(r) then 1.0 else 0.0
  }

  lemma {:induction false} GradedIsShare(rs: seq<ModelResult>, model: string)
    ensures |Graded(rs, model)| as real == ShareOf(rs, model, OneIfCounts)
  {
    if rs != [] {
      var n := |rs| - 1;
      assert rs == rs[..n] + [rs[n]];
      GradedIsShare(rs[..n], model);
      SelectSnoc(rs[..n], rs[n], (r: ModelResult) => r.model == model && !r.Failed() && r.graded);
      ShareSnoc(rs[..n], rs[n], model, OneIfCounts);
    }
  }

  lemma {:induction false} RelevantIsSum(rs: seq<ModelResult>)
    ensures |Relevant(rs)| as real == SumOf(rs, OneIfCounts)
  {
    if rs != [] {
      RelevantIsSum(rs[..|rs| - 1]);
    }
  }

  lemma {:induction false} GradedEvalsAreShares(ms: seq<ModelMetric>, rs: seq<ModelResult>)
    requires forall i :: 0 <= i < |ms| ==> ms[i].gradedEvals as real == ShareOf(rs, ms[i].model, OneIfCounts)
    ensures GradedEvals(ms) as real == Shares(rs, NamesOf(ms), OneIfCounts)
  {
    if ms != [] {
      GradedEvalsAreShares(ms[..|ms| - 1], rs);
      NamesSnoc(ms);
    }
  }

  lemma ReportedGraded(m: ModelMetric, rs: seq<ModelResult>)
    requires Reports(m, rs)
    ensures m.gradedEvals as real == ShareOf(rs, m.model, OneIfCounts)
  {
    GradedIsShare(rs, m.model);
  }

  /** Every graded result is counted under exactly one model. */
  lemma EveryGradedResultIsCounted(ms: seq<ModelMetric>, rs: seq<ModelResult>)
    requires Aggregates(ms, rs)
    ensures GradedEvals(ms) == |Relevant(rs)|
  {
    forall i | 0 <= i < |ms| ensures ms[i].gradedEvals as real == ShareOf(rs, ms[i].model, OneIfCounts) {
      ReportedGraded(ms[i], rs);
    }
    GradedEvalsAreShares(ms, rs);
    EveryResultHasItsModel(ms, rs, OneIfCounts);
    RelevantIsSum(rs);
  }

  lemma WindowIsHead(jobs: seq<JobRecord>)
    ensures |Window(jobs)| <= |jobs| && jobs == Window(jobs) + jobs[|Window(jobs)|..]
  {
  }

  /** The reported counts cover all graded results ever stored exactly when none lies beyond the
      window. */
  lemma WindowCountsAllIff(ms: seq<ModelMetric>, jobs: seq<JobRecord>)
    requires Aggregates(ms, Flatten(Window(jobs)))
    ensures GradedEvals(ms) == |GradedResults(jobs)| <==> GradedResults(jobs[|Window(jobs)|..]) == []
  {
    EveryGradedResultIsCounted(ms, Flatten(Window(jobs)));
    WindowIsHead(jobs);
    GradedResultsAppend(Window(jobs), jobs[|Window(jobs)|..]);
  }
}
