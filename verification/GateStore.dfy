/** The gate's window as the store gives it: which jobs the list it judges can hold. */
module GateStore {
  import opened Gate
  import opened GateWindow
  import opened JobStore
  import opened Metrics
  import opened Records
  import opened Retention

  /** The list HandleRegressionCheck judges: records behind a page of ranks, or a page of the cache's
      ideal. */
  ghost predicate IsGateList(page: seq<JobRecord>, ids: seq<Ranked>, all: map<string, JobRecord>,
                             jobs: map<string, JobRecord>, fromRedis: bool) {
    if fromRedis then
      JobsOf(jobs, all) && PageOf(ids, Ranks(all), IdOf, RankLe, COMPARISON_WINDOW) && Picks(page, ids, jobs)
    else
      PageOf(page, all, JobIdOf, NotNewer, COMPARISON_WINDOW)
  }

  predicate HasGraded(j: JobRecord) {
    Relevant(j.results) != []
  }

  /** 500 stored jobs without graded results, each created in a later millisecond than every job with
      some. */
  ghost predicate Crowds(crowd: set<string>, all: map<string, JobRecord>) {
    && crowd <= all.Keys && |crowd| >= COMPARISON_WINDOW
    && (forall k :: k in crowd ==> !HasGraded(all[k]))
    && (forall k, id :: k in crowd && id in all && HasGraded(all[id]) ==> Rank(all[id]).ms < Rank(all[k]).ms)
  }

  lemma CrowdedOutOfMemory(page: seq<JobRecord>, all: map<string, JobRecord>, crowd: set<string>, j: JobRecord)
    requires KeyedBy(all, JobIdOf) && PageOf(page, all, JobIdOf, NotNewer, COMPARISON_WINDOW)
    requires Crowds(crowd, all) && j in page
    ensures !HasGraded(j)
  {
    if HasGraded(j) {
      var id := JobIdOf(j);
      forall k | k in crowd ensures !NotNewer(all[k], all[id]) {
        assert Rank(all[id]).ms < Rank(all[k]).ms;
      }
      CrowdedOut(page, all, JobIdOf, NotNewer, COMPARISON_WINDOW, crowd, id);
    }
  }

  lemma GradedRankIsOff(ids: seq<Ranked>, all: map<string, JobRecord>, crowd: set<string>, id: string)
    requires KeyedBy(all, JobIdOf) && PageOf(ids, Ranks(all), IdOf, RankLe, COMPARISON_WINDOW)
    requires Crowds(crowd, all) && id in all && HasGraded(all[id])
    ensures Ranks(all)[id] !in ids
  {
    forall k | k in crowd ensures !RankLe(Ranks(all)[k], Ranks(all)[id]) {
      assert Rank(all[id]).ms < Rank(all[k]).ms;
    }
    CrowdedOut(ids, Ranks(all), IdOf, RankLe, COMPARISON_WINDOW, crowd, id);
  }

  lemma RankIsKept(ids: seq<Ranked>, all: map<string, JobRecord>, r: Ranked)
    requires PageOf(ids, Ranks(all), IdOf, RankLe, COMPARISON_WINDOW) && r in ids
    ensures r.id in all && Ranks(all)[r.id] == r
  {
  }

  lemma CrowdedOutOfRedis(page: seq<JobRecord>, ids: seq<Ranked>, all: map<string, JobRecord>,
                          jobs: map<string, JobRecord>, crowd: set<string>, j: JobRecord)
    requires JobsOf(jobs, all) && PageOf(ids, Ranks(all), IdOf, RankLe, COMPARISON_WINDOW)
    requires Crowds(crowd, all) && Picks(page, ids, jobs) && j in page
    ensures !HasGraded(j)
  {
    var r := PickedFrom(page, ids, jobs, j);
    RankIsKept(ids, all, r);
    if HasGraded(j) {
      GradedRankIsOff(ids, all, crowd, r.id);
    }
  }

  lemma {:induction false} NoneGraded(page: seq<JobRecord>)
    requires forall j :: j in page ==> !HasGraded(j)
    ensures GradedResults(page) == []
  {
    if page != [] {
      var n := |page| - 1;
      NoneGraded(page[..n]);
      assert page[n] in page;
      SelectAppend(Flatten(page[..n]), page[n].results, Counts);
    }
  }

  /** Whatever else the store holds: such a crowd makes the handler answer "passed" without a graded
      model, from Redis and from memory, at every threshold. */
  lemma StoredJobsBlindTheGate(page: seq<JobRecord>, ids: seq<Ranked>, all: map<string, JobRecord>,
                               jobs: map<string, JobRecord>, fromRedis: bool, crowd: set<string>, v: Verdict,
                               ms: seq<ModelMetric>, limit: Limit)
    requires KeyedBy(all, JobIdOf) && IsGateList(page, ids, all, jobs, fromRedis) && Crowds(crowd, all)
    requires Aggregates(ms, Flatten(page)) && Judges(v, GradedRows(ms), limit)
    ensures v.passed && v.exitCode == 0 && v.gradedModels == 0
  {
    forall j | j in page ensures !HasGraded(j) {
      if fromRedis {
        CrowdedOutOfRedis(page, ids, all, jobs, crowd, j);
      } else {
        CrowdedOutOfMemory(page, all, crowd, j);
      }
    }
    NoneGraded(page);
    NoRowsPass(v, ms, Flatten(page), limit);
  }
}
