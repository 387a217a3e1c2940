/** Running one job: the parallel fan-out, the result of each model call, and the job record. */
module Runner {
  import opened Aggregation
  import opened Gate
  import opened Metrics
  import opened Pricing
  import opened Records
  import opened Rounding
  import opened Scorer
  import opened Text

  /** How a provider's Generate ends. */
  datatype Outcome =
    | Error(message: string)
    | NoResponse
    | Response(text: string, latencyMs: int, promptTokens: int, completionTokens: int, simulated: bool)
    | Panic

  /** What a run depends on besides the job: prices, characters, and the similarity of a response
      to the job's ground truth. */
  datatype Setting = Setting(rates: Rates, alphabet: Alphabet, similarity: string -> real)

  /** `createdAt` was stamped when the job was enqueued. */
  datatype Job = Job(jobId: string, suiteId: string, prompt: string, groundTruth: string, targetModels: seq<string>,
                     createdAt: int)

  /** One model call. A simulated response is never graded. */
  function EvaluateModel(e: Setting, job: Job, model: string, outcome: Outcome): (r: ModelResult)
    requires e.rates.Valid() && !outcome.Panic?
  {
    match outcome
    case Error(message) => Failure(model, message)
    case NoResponse => Failure(model, model + " returned no response")
    case Response(text, latency, prompt, completion, simulated) =>
      var raw := Evaluate(e.alphabet, text, job.groundTruth, e.similarity(text));
      var card := if simulated then raw.(graded := false, regressionAlert := false, driftPercent := 0.0) else raw;
      ModelResult(model, latency, prompt, completion, CalculateCost(e.rates, model, prompt, completion),
                  card.exactMatch, card.graded, simulated, card.semanticScore, card.regressionAlert,
                  card.driftPercent, "")
  }

  /** What goroutine i leaves in its slot: a panic is contained to the model's own result. */
  function Slot(e: Setting, job: Job, model: string, outcome: Outcome): ModelResult
    requires e.rates.Valid()
  {
    if outcome.Panic? then Failure(model, "internal error while evaluating model")
    else EvaluateModel(e, job, model, outcome)
  }

  /** Calling the models one after the other. */
  function Sequentially(e: Setting, job: Job, models: seq<string>, outcomes: seq<Outcome>): (rs: seq<ModelResult>)
    requires e.rates.Valid() && |models| == |outcomes|
    ensures |rs| == |models|
  {
    if models == [] then []
    else [Slot(e, job, models[0], outcomes[0])] + Sequentially(e, job, models[1..], outcomes[1..])
  }

  lemma {:induction false} SequentiallyAt(e: Setting, job: Job, models: seq<string>, outcomes: seq<Outcome>, i: nat)
    requires e.rates.Valid() && |models| == |outcomes| && i < |models|
    ensures Sequentially(e, job, models, outcomes)[i] == Slot(e, job, models[i], outcomes[i])
  {
    if i > 0 {
      SequentiallyAt(e, job, models[1..], outcomes[1..], i - 1);
    }
  }

  /** r is what is recorded of one call: its latency and tokens, its price at these tokens, and the
      evaluation of its text; a simulation is not graded, and a failure has its message and no numbers. */
  ghost predicate Answers(r: ModelResult, e: Setting, job: Job, model: string, outcome: Outcome)
    requires e.rates.Valid()
  {
    && r.model == model
    && match outcome
       case Panic => r.errorMessage != "" && HasNoNumbers(r)
       case NoResponse => r.errorMessage != "" && HasNoNumbers(r)
       case Error(message) => r.errorMessage == message && HasNoNumbers(r)
       case Response(text, latency, prompt, completion, simulated) =>
         && r.errorMessage == "" && r.latencyMs == latency && r.promptTokens == prompt
         && r.completionTokens == completion && r.simulated == simulated
         && r.costUSD == CalculateCost(e.rates, model, prompt, completion)
         && Scored(r, Evaluate(e.alphabet, text, job.groundTruth, e.similarity(text)))
  }

  predicate HasNoNumbers(r: ModelResult) {
    && r.latencyMs == 0 && r.promptTokens == 0 && r.completionTokens == 0 && r.costUSD == 0.0 && r.semanticScore == 0.0
    && !r.exactMatch && !r.graded && !r.simulated && !r.regressionAlert && r.driftPercent == 0.0
  }

  predicate Scored(r: ModelResult, card: ScoreCard) {
    && r.semanticScore == card.semanticScore && r.exactMatch == card.exactMatch
    && r.graded == (card.graded && !r.simulated) && r.regressionAlert == (card.regressionAlert && !r.simulated)
    && r.driftPercent == if r.simulated then 0.0 else card.driftPercent
  }

  /** total is what the responses cost at the tokens they report, summed up in the order of the models. */
  ghost predicate IsBill(total: real, rates: Rates, models: seq<string>, outcomes: seq<Outcome>)
    requires rates.Valid() && |models| == |outcomes|
  {
    exists sums: seq<real> :: IsBillBy(sums, rates, models, outcomes) && total == sums[|models|]
  }

  ghost predicate IsBillBy(sums: seq<real>, rates: Rates, models: seq<string>, outcomes: seq<Outcome>)
    requires rates.Valid() && |models| == |outcomes|
  {
    && |sums| == |models| + 1 && sums[0] == 0.0
    && forall i :: 0 <= i < |models| ==>
         sums[i + 1] == sums[i] +
           match outcomes[i]
           case Response(_, _, prompt, completion, _) => CalculateCost(rates, models[i], prompt, completion)
           case _ => 0.0
  }

  lemma SlotAnswers(e: Setting, job: Job, model: string, outcome: Outcome)
    requires e.rates.Valid()
    ensures Answers(Slot(e, job, model, outcome), e, job, model, outcome)
  {
    if outcome.NoResponse? {
      assert (model + " returned no response")[|model|] == ' ';
    }
    RoundIff(0.0, 0);
  }

  lemma {:induction false} SumIsBilled(e: Setting, job: Job, models: seq<string>, outcomes: seq<Outcome>,
                                       rs: seq<ModelResult>) returns (sums: seq<real>)
    requires e.rates.Valid() && |models| == |outcomes| == |rs|
    requires forall i :: 0 <= i < |rs| ==> Answers(rs[i], e, job, models[i], outcomes[i])
    ensures IsBillBy(sums, e.rates, models, outcomes) && sums[|models|] == SumOf(rs, CostIfGood)
  {
    if models == [] {
      sums := [0.0];
    } else {
      var n := |models| - 1;
      var before := SumIsBilled(e, job, models[..n], outcomes[..n], rs[..n]);
      assert Answers(rs[n], e, job, models[n], outcomes[n]);
      sums := before + [SumOf(rs, CostIfGood)];
      forall i | 0 <= i < |models|
        ensures sums[i + 1] == sums[i] +
          match outcomes[i]
          case Response(_, _, prompt, completion, _) => CalculateCost(e.rates, models[i], prompt, completion)
          case _ => 0.0
      {
        if i < n {
          assert sums[i + 1] == before[i + 1] && sums[i] == before[i];
          assert models[..n][i] == models[i] && outcomes[..n][i] == outcomes[i];
        }
      }
    }
  }

  /** The body of a goroutine, with its recover. */
  method Goroutine(e: Setting, job: Job, model: string, outcome: Outcome) returns (r: ModelResult)
    requires e.rates.Valid()
    ensures r == Slot(e, job, model, outcome)
  {
    if outcome.Panic? {
      r := Failure(model, "internal error while evaluating model");
    } else {
      r := EvaluateModel(e, job, model, outcome);
    }
  }

  /** The fan-out: goroutines start one after the other, finish in any order, and each writes its
      own slot; Wait returns when all have started and none is left. */
  method FanOut(e: Setting, job: Job, outcomes: seq<Outcome>) returns (results: array<ModelResult>)
    requires e.rates.Valid() && |outcomes| == |job.targetModels|
    ensures fresh(results) && results[..] == Sequentially(e, job, job.targetModels, outcomes)
  {
    var models := job.targetModels;
    ghost var want := Sequentially(e, job, models, outcomes);
    results := new ModelResult[|models|](_ => Failure("", ""));
    var started: nat, running: set<nat> := 0, {};
    while started < |models| || running != {}
      invariant started <= |models| && forall i :: i in running ==> i < started
      invariant forall i :: 0 <= i < started && i !in running ==> results[i] == want[i]
      decreases |models| - started, |running|
    {
      var startsNext: bool := *;
      if started < |models| && (running == {} || startsNext) {
        running := running + {started};
        started := started + 1;
      } else {
        var i :| i in running;
        results[i] := Goroutine(e, job, models[i], outcomes[i]);
        SequentiallyAt(e, job, models, outcomes, i);
        running := running - {i};
      }
    }
  }

  // ---- the record --------------------------------------------------------------------------

  /** r is a better answer than s: a higher score, or the same score sooner. */
  predicate Better(r: ModelResult, s: ModelResult) {
    r.semanticScore > s.semanticScore || (r.semanticScore == s.semanticScore && r.latencyMs < s.latencyMs)
  }

  /** The earliest of the best successful results. */
  ghost predicate IsWinner(rs: seq<ModelResult>, w: nat) {
    && w < |rs| && !rs[w].Failed()
    && (forall i :: 0 <= i < |rs| && !rs[i].Failed() ==> !Better(rs[i], rs[w]))
    && (forall i :: 0 <= i < w && !rs[i].Failed() ==> Better(rs[w], rs[i]))
  }

  lemma WinnerIsUnique(rs: seq<ModelResult>, v: nat, w: nat)
    requires IsWinner(rs, v) && IsWinner(rs, w)
    ensures v == w
  {
  }

  ghost predicate AllFailed(rs: seq<ModelResult>) {
    forall r :: r in rs ==> r.Failed()
  }

  /** record is what the results of the job amount to. */
  ghost predicate Summarizes(record: JobRecord, job: Job, rs: seq<ModelResult>, completedAt: int) {
    && record.jobId == job.jobId && record.suiteId == job.suiteId && record.prompt == job.prompt
    && record.groundTruth == job.groundTruth && record.targetModels == job.targetModels
    && record.createdAt == job.createdAt && record.completedAt == Some(completedAt) && record.results == rs
    && record.totalCostUSD == SumOf(rs, CostIfGood)
    && record.status == (if AllFailed(rs) && rs != [] then JobStatus.Failed else Completed)
    && (if AllFailed(rs) then record.winningModel == ""
        else exists w: nat :: IsWinner(rs, w) && record.winningModel == rs[w].model)
  }

  /** The running winner over a prefix: no result yet, or the winner so far. */
  ghost predicate WinnerSoFar(rs: seq<ModelResult>, winner: Option<nat>) {
    if winner.None? then AllFailed(rs) else IsWinner(rs, winner.value)
  }

  lemma NextWinner(rs: seq<ModelResult>, r: ModelResult, winner: Option<nat>)
    requires WinnerSoFar(rs, winner)
    ensures WinnerSoFar(rs + [r],
                        if !r.Failed() && (winner.None? || Better(r, rs[winner.value])) then Some(|rs|) else winner)
  {
    var ns := rs + [r];
    assert forall i :: 0 <= i < |ns| ==> ns[i] == if i < |rs| then rs[i] else r;
    assert forall i :: 0 <= i < |rs| ==> rs[i] in rs;
  }

  method BuildRecord(job: Job, results: seq<ModelResult>, completedAt: int) returns (record: JobRecord)
    ensures Summarizes(record, job, results, completedAt)
  {
    var totalCost, succeeded := 0.0, 0;
    var winner: Option<nat> := None;
    for i := 0 to |results|
      invariant totalCost == SumOf(results[..i], CostIfGood)
      invariant WinnerSoFar(results[..i], winner) && (winner.Some? ==> winner.value < i)
      invariant succeeded == 0 <==> winner.None?
      invariant succeeded >= 0
    {
      var res := results[i];
      assert results[..i + 1] == results[..i] + [res];
      SumSnoc(results[..i], res, CostIfGood);
      NextWinner(results[..i], res, winner);
      if res.Failed() {
        continue;
      }
      succeeded := succeeded + 1;
      totalCost := totalCost + res.costUSD;
      if winner.None? || Better(res, results[winner.value]) {
        winner := Some(i);
      }
    }
    assert results[..|results|] == results;
    var status := if succeeded == 0 && |results| > 0 then JobStatus.Failed else Completed;
    WinnerMeansSuccess(results, winner);
    record := JobRecord(job.jobId, job.suiteId, status, job.prompt, job.groundTruth, job.targetModels,
                        if winner.Some? then results[winner.value].model else "",
                        totalCost, job.createdAt, Some(completedAt), results);
  }

  lemma WinnerMeansSuccess(rs: seq<ModelResult>, winner: Option<nat>)
    requires WinnerSoFar(rs, winner)
    ensures winner.None? <==> AllFailed(rs)
  {
    if winner.Some? {
      assert rs[winner.value] in rs;
    }
  }

  /** Run: the record of a job, however its goroutines interleave. */
  method Run(e: Setting, job: Job, outcomes: seq<Outcome>, completedAt: int) returns (record: JobRecord)
    requires e.rates.Valid() && |outcomes| == |job.targetModels|
    ensures Summarizes(record, job, Sequentially(e, job, job.targetModels, outcomes), completedAt)
    ensures RecordsOutcomes(record, e, job, outcomes)
  {
    var results := FanOut(e, job, outcomes);
    record := BuildRecord(job, results[..], completedAt);
    SummaryRecordsOutcomes(record, e, job, outcomes, completedAt);
  }

  /** What a record says of the calls of its job, call by call: the results, the bill, the status and
      the winner. */
  ghost predicate RecordsOutcomes(record: JobRecord, e: Setting, job: Job, outcomes: seq<Outcome>)
    requires e.rates.Valid() && |outcomes| == |job.targetModels|
  {
    && |record.results| == |outcomes|
    && (forall i :: 0 <= i < |outcomes| ==> Answers(record.results[i], e, job, job.targetModels[i], outcomes[i]))
    && IsBill(record.totalCostUSD, e.rates, job.targetModels, outcomes)
    && (record.status == JobStatus.Failed <==> outcomes != [] && forall o :: o in outcomes ==> Fails(o))
    && (record.status == JobStatus.Failed || record.status == Completed)
    && (if forall o :: o in outcomes ==> Fails(o) then record.winningModel == ""
        else exists w: nat :: Wins(record, job, outcomes, w))
  }

  predicate Fails(o: Outcome) {
    o.Panic? || o.NoResponse? || (o.Error? && o.message != "")
  }

  /** Call w did not fail, none scored higher, and of those that scored as high none was faster, nor as
      fast and earlier in the list. */
  ghost predicate Wins(record: JobRecord, job: Job, outcomes: seq<Outcome>, w: nat)
    requires |outcomes| == |job.targetModels| == |record.results|
  {
    && w < |outcomes| && !Fails(outcomes[w]) && record.winningModel == job.targetModels[w]
    && forall i :: 0 <= i < |outcomes| && !Fails(outcomes[i]) ==>
         var mine, best := record.results[i].semanticScore, record.results[w].semanticScore;
         mine < best || (mine == best &&
           (Latency(outcomes[i]) > Latency(outcomes[w]) || (Latency(outcomes[i]) == Latency(outcomes[w]) && i >= w)))
  }

  function Latency(o: Outcome): int {
    if o.Response? then o.latencyMs else 0
  }

  lemma AnswersFail(r: ModelResult, e: Setting, job: Job, model: string, outcome: Outcome)
    requires e.rates.Valid() && Answers(r, e, job, model, outcome)
    ensures r.Failed() <==> Fails(outcome)
    ensures r.latencyMs == Latency(outcome)
  {
  }

  lemma WinnerWins(record: JobRecord, e: Setting, job: Job, outcomes: seq<Outcome>, w: nat)
    requires e.rates.Valid() && |record.results| == |outcomes| == |job.targetModels|
    requires forall i :: 0 <= i < |outcomes| ==> Answers(record.results[i], e, job, job.targetModels[i], outcomes[i])
    requires IsWinner(record.results, w) && record.winningModel == record.results[w].model
    ensures Wins(record, job, outcomes, w)
  {
    forall i | 0 <= i < |outcomes|
      ensures record.results[i].Failed() <==> Fails(outcomes[i])
      ensures record.results[i].latencyMs == Latency(outcomes[i])
    {
      AnswersFail(record.results[i], e, job, job.targetModels[i], outcomes[i]);
    }
  }

  lemma SummaryRecordsOutcomes(record: JobRecord, e: Setting, job: Job, outcomes: seq<Outcome>, completedAt: int)
    requires e.rates.Valid() && |outcomes| == |job.targetModels|
    requires Summarizes(record, job, Sequentially(e, job, job.targetModels, outcomes), completedAt)
    ensures RecordsOutcomes(record, e, job, outcomes)
  {
    var rs := record.results;
    forall i | 0 <= i < |outcomes| ensures Answers(rs[i], e, job, job.targetModels[i], outcomes[i]) {
      SequentiallyAt(e, job, job.targetModels, outcomes, i);
      SlotAnswers(e, job, job.targetModels[i], outcomes[i]);
    }
    var sums := SumIsBilled(e, job, job.targetModels, outcomes, rs);
    AllFailedIff(rs, e, job, outcomes);
    if !AllFailed(rs) {
      var w: nat :| IsWinner(rs, w) && record.winningModel == rs[w].model;
      WinnerWins(record, e, job, outcomes, w);
    }
  }

  lemma AllFailedIff(rs: seq<ModelResult>, e: Setting, job: Job, outcomes: seq<Outcome>)
    requires e.rates.Valid() && |rs| == |outcomes| == |job.targetModels|
    requires forall i :: 0 <= i < |outcomes| ==> Answers(rs[i], e, job, job.targetModels[i], outcomes[i])
    ensures AllFailed(rs) <==> forall o :: o in outcomes ==> Fails(o)
  {
    forall i | 0 <= i < |outcomes| ensures rs[i].Failed() <==> Fails(outcomes[i]) {
      AnswersFail(rs[i], e, job, job.targetModels[i], outcomes[i]);
    }
    if AllFailed(rs) {
      forall o | o in outcomes ensures Fails(o) {
        var i :| 0 <= i < |outcomes| && outcomes[i] == o;
        assert rs[i] in rs;
      }
    }
    if forall o :: o in outcomes ==> Fails(o) {
      forall r | r in rs ensures r.Failed() {
        var i :| 0 <= i < |rs| && rs[i] == r;
        assert outcomes[i] in outcomes;
      }
    }
  }

  /** The job and the outcomes of its calls determine the record. */
  lemma RecordIsDetermined(r1: JobRecord, r2: JobRecord, job: Job, rs: seq<ModelResult>, completedAt: int)
    requires Summarizes(r1, job, rs, completedAt) && Summarizes(r2, job, rs, completedAt)
    ensures r1 == r2
  {
    if !AllFailed(rs) {
      var v: nat :| IsWinner(rs, v) && r1.winningModel == rs[v].model;
      var w: nat :| IsWinner(rs, w) && r2.winningModel == rs[w].model;
      WinnerIsUnique(rs, v, w);
    }
  }

  /** A call fails exactly by panicking, by answering nothing, or by an error with a message. */
  lemma SlotFailsIff(e: Setting, job: Job, model: string, outcome: Outcome)
    requires e.rates.Valid()
    ensures Slot(e, job, model, outcome).Failed() <==>
      outcome.Panic? || outcome.NoResponse? || (outcome.Error? && outcome.message != "")
  {
    if outcome.NoResponse? {
      assert (model + " returned no response")[|model|] == ' ';
    }
  }

  /** Only a real response to a job with a ground truth counts for the regression gate. */
  lemma SlotCountsIff(e: Setting, job: Job, model: string, outcome: Outcome)
    requires e.rates.Valid()
    ensures Counts(Slot(e, job, model, outcome)) <==>
      outcome.Response? && !outcome.simulated && NormalizeText(e.alphabet, job.groundTruth) != ""
    ensures !Counts(Slot(e, job, model, outcome)) ==>
      !Slot(e, job, model, outcome).regressionAlert && Slot(e, job, model, outcome).driftPercent == 0.0
  {
    SlotFailsIff(e, job, model, outcome);
    assert Round(0.0) == 0;
  }

  /** A job whose calls all failed or were simulated, or that has no ground truth, cannot move the
      gate, wherever its results stand among the others. */
  lemma UncountedJobIsInvisible(e: Setting, job: Job, outcomes: seq<Outcome>, before: seq<ModelResult>,
                                after: seq<ModelResult>)
    requires e.rates.Valid() && |outcomes| == |job.targetModels|
    requires NormalizeText(e.alphabet, job.groundTruth) == "" ||
      forall o :: o in outcomes ==> o.Response? ==> o.simulated
    ensures var rs := Sequentially(e, job, job.targetModels, outcomes);
      Relevant(before + rs + after) == Relevant(before + after)
  {
    var rs := Sequentially(e, job, job.targetModels, outcomes);
    forall r | r in rs ensures !Counts(r) {
      var i :| 0 <= i < |rs| && rs[i] == r;
      assert outcomes[i] in outcomes;
      SequentiallyAt(e, job, job.targetModels, outcomes, i);
      SlotCountsIff(e, job, job.targetModels[i], outcomes[i]);
    }
    NoiseIsInvisible(before, rs, after);
  }

  /** Every job was recorded by BuildRecord. */
  ghost predicate BuiltRecords(jobs: seq<JobRecord>) {
    forall j :: j in jobs ==> exists job, completedAt :: Summarizes(j, job, j.results, completedAt)
  }

  /** Conservation, end to end: what the models are reported to have cost is what the jobs cost. */
  lemma BuiltRecordsAddUp(ms: seq<ModelMetric>, jobs: seq<JobRecord>)
    requires Aggregates(ms, Flatten(jobs)) && BuiltRecords(jobs)
    ensures Shares(Flatten(jobs), NamesOf(ms), CostIfGood) == JobCosts(jobs)
    ensures WithinRounding(ReportedCost(ms), JobCosts(jobs), |ms|)
  {
    CostIsConserved(ms, jobs);
  }
}
