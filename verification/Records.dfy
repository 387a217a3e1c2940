/** Job records and per-model results. Scores, costs and drifts are exact reals. */
module Records {

  datatype Option<T> = None | Some(value: T)

  datatype JobStatus = Queued | Running | Completed | Failed {
    predicate Final() { this == Completed || this == Failed }
  }

  datatype ModelResult = ModelResult(
    model: string, latencyMs: int, promptTokens: int, completionTokens: int, costUSD: real,
    exactMatch: bool, graded: bool, simulated: bool, semanticScore: real,
    regressionAlert: bool, driftPercent: real, errorMessage: string)
  {
    predicate Failed() { errorMessage != "" }
  }

  /** `createdAt` and `completedAt` are nanoseconds. */
  datatype JobRecord = JobRecord(
    jobId: string, suiteId: string, status: JobStatus, prompt: string, groundTruth: string,
    targetModels: seq<string>, winningModel: string, totalCostUSD: real,
    createdAt: int, completedAt: Option<int>, results: seq<ModelResult>)

  /** What a failed model call leaves. */
  function Failure(model: string, message: string): ModelResult {
    ModelResult(model, 0, 0, 0, 0.0, false, false, false, 0.0, false, 0.0, message)
  }
}
