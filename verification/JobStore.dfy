/** The hybrid job store: a bounded in-memory cache in front of a bounded Redis recency index,
    both measured against the ideal store that forgets nothing. */
module JobStore {
  import opened RedisStream
  import opened Ordering
  import opened Records
  import opened Retention

  /** Bounds the recency index and the in-memory cache. */
  const MAX_INDEXED_JOBS: nat := 5000
  const DEFAULT_LIMIT := 20

  predicate NotNewer(a: JobRecord, b: JobRecord) {
    a.createdAt <= b.createdAt
  }

  function JobIdOf(j: JobRecord): string {
    j.jobId
  }

  /** A member of the sorted set with its score, UnixMilli of createdAt. */
  datatype Ranked = Ranked(ms: int, id: string)

  function IdOf(r: Ranked): string {
    r.id
  }

  /** Redis orders by score and breaks ties by member. */
  predicate RankLe(a: Ranked, b: Ranked) {
    a.ms < b.ms || (a.ms == b.ms && LexLe(a.id, b.id))
  }

  lemma OrdersAreTotal()
    ensures TotalPreorder(NotNewer) && TotalPreorder(RankLe) && Antisymmetric(RankLe)
  {
    LexIsOrder();
    forall a, b ensures RankLe(a, b) || RankLe(b, a) { LexTotal(a.id, b.id); }
  }

  function Rank(j: JobRecord): Ranked {
    Ranked(j.createdAt / 1_000_000, j.jobId)
  }

  /** The index orders jobs by the millisecond they were created in, and within one by their ids. */
  lemma RankByMilli(a: JobRecord, b: JobRecord, m: int, n: int)
    requires m * 1_000_000 <= a.createdAt < (m + 1) * 1_000_000
    requires n * 1_000_000 <= b.createdAt < (n + 1) * 1_000_000
    ensures RankLe(Rank(a), Rank(b)) <==> m < n || (m == n && LexLe(a.jobId, b.jobId))
    ensures Rank(a).id == a.jobId
  {
    MilliOf(a.createdAt, m);
    MilliOf(b.createdAt, n);
  }

  lemma MilliOf(t: int, m: int)
    requires m * 1_000_000 <= t < (m + 1) * 1_000_000
    ensures t / 1_000_000 == m
  {
  }

  function Ranks(all: map<string, JobRecord>): map<string, Ranked> {
    map id | id in all :: Rank(all[id])
  }

  /** The index holds exactly the top entries of all jobs. */
  ghost predicate IsTopIndex(index: map<string, Ranked>, all: map<string, JobRecord>) {
    Keeps(index, Ranks(all), RankLe, MAX_INDEXED_JOBS)
  }

  /** The cache holds newest jobs of all jobs, in their latest versions. */
  ghost predicate IsTopCache(cache: map<string, JobRecord>, all: map<string, JobRecord>) {
    Keeps(cache, all, NotNewer, MAX_INDEXED_JOBS)
  }

  /** Saving this version does not move an indexed job below one that was dropped. */
  ghost predicate StaysIndexed(index: map<string, Ranked>, all: map<string, JobRecord>, job: JobRecord) {
    job.jobId in index ==> forall id :: id in all && id !in index ==> RankLe(Rank(all[id]), Rank(job))
  }

  /** Saving this version does not make a cached job older than one that was evicted. */
  ghost predicate StaysCached(cache: map<string, JobRecord>, all: map<string, JobRecord>, job: JobRecord) {
    job.jobId in cache ==> forall id :: id in all && id !in cache ==> NotNewer(all[id], job)
  }

  ghost predicate JobsOf(jobs: map<string, JobRecord>, all: map<string, JobRecord>) {
    KeyedBy(all, JobIdOf) && forall id :: id in jobs ==> id in all && jobs[id] == all[id]
  }

  /** Redis, as the store uses it; `all` is what it would hold without bounds or expiry. */
  class RedisDb {
    var jobs: map<string, JobRecord>     // eval:job:<id>
    var index: map<string, Ranked>       // eval:jobs:index
    ghost var all: map<string, JobRecord>

    ghost predicate Valid()
      reads this
    {
      JobsOf(jobs, all) && IsTopIndex(index, all)
    }

    /** No indexed job has outlived its TTL. */
    predicate NothingExpired()
      reads this
    {
      forall id :: id in index ==> id in jobs
    }

    constructor ()
      ensures Valid() && all == map[] && NothingExpired()
    {
      jobs, index, all := map[], map[], map[];
    }

    /** SET, ZADD and ZREMRANGEBYRANK in one transaction. */
    method SaveJob(job: JobRecord)
      requires Valid()
      modifies this
      ensures all == old(all)[job.jobId := job] && jobs == old(jobs)[job.jobId := job]
      ensures Evicts(old(index)[job.jobId := Rank(job)], index, RankLe, MAX_INDEXED_JOBS)
      ensures Valid() <==> StaysIndexed(old(index), old(all), job)
      ensures old(NothingExpired()) ==> NothingExpired()
    {
      var kept := Trim(index[job.jobId := Rank(job)]);
      SaveKeepsValidIff(jobs, index, all, job, kept);
      Write(job, kept);
    }

    method Write(job: JobRecord, kept: map<string, Ranked>)
      modifies this
      ensures all == old(all)[job.jobId := job] && jobs == old(jobs)[job.jobId := job] && index == kept
    {
      jobs, index, all := jobs[job.jobId := job], kept, all[job.jobId := job];
    }

    /** ZREMRANGEBYRANK 0 -(n+1). */
    static method Trim(added: map<string, Ranked>) returns (kept: map<string, Ranked>)
      requires KeyedBy(added, IdOf)
      ensures Evicts(added, kept, RankLe, MAX_INDEXED_JOBS)
    {
      OrdersAreTotal();
      kept := Evict(added, IdOf, RankLe, MAX_INDEXED_JOBS);
    }

    /** ZREVRANGE 0 n-1 and MGET; expired jobs are skipped. */
    method List(n: nat) returns (page: seq<JobRecord>, ids: seq<Ranked>)
      requires Valid()
      ensures PageOf(ids, Ranks(all), IdOf, RankLe, Min(n, MAX_INDEXED_JOBS))
      ensures Picks(page, ids, jobs)
    {
      ids := TopRanks(n);
      page := MGet(jobs, ids);
    }

    static method MGet(jobs: map<string, JobRecord>, top: seq<Ranked>) returns (page: seq<JobRecord>)
      ensures Picks(page, top, jobs)
    {
      page := [];
      ghost var ks: seq<nat> := [];
      for k := 0 to |top|
        invariant PicksAt(page, top[..k], jobs, ks)
      {
        assert top[..k + 1] == top[..k] + [top[k]];
        if top[k].id in jobs {
          page := page + [jobs[top[k].id]];
          ks := ks + [k];
        }
      }
      assert top[..|top|] == top;
    }

    method TopRanks(n: nat) returns (top: seq<Ranked>)
      requires Valid()
      ensures PageOf(top, Ranks(all), IdOf, RankLe, Min(n, MAX_INDEXED_JOBS))
    {
      OrdersAreTotal();
      assert KeyedBy(index, IdOf);
      var ranked := Descending(index, IdOf, RankLe);
      FirstPage(ranked, index, Ranks(all), IdOf, RankLe, MAX_INDEXED_JOBS, n);
      top := ranked[..Min(n, |ranked|)];
    }
  }

  lemma SaveKeepsJobs(jobs: map<string, JobRecord>, all: map<string, JobRecord>, job: JobRecord)
    requires JobsOf(jobs, all)
    ensures JobsOf(jobs[job.jobId := job], all[job.jobId := job])
  {
  }

  lemma SaveKeepsValidIff(jobs: map<string, JobRecord>, index: map<string, Ranked>, all: map<string, JobRecord>,
                          job: JobRecord, kept: map<string, Ranked>)
    requires JobsOf(jobs, all) && IsTopIndex(index, all)
    requires Evicts(index[job.jobId := Rank(job)], kept, RankLe, MAX_INDEXED_JOBS)
    ensures JobsOf(jobs[job.jobId := job], all[job.jobId := job])
    ensures IsTopIndex(kept, all[job.jobId := job]) <==> StaysIndexed(index, all, job)
  {
    TrimKeepsTopIff(index, all, job, kept);
    SaveKeepsJobs(jobs, all, job);
  }

  /** One version per job, never moved back in time, keeps both bounds exact. */
  lemma SameTimeStays(cache: map<string, JobRecord>, index: map<string, Ranked>, all: map<string, JobRecord>,
                      job: JobRecord)
    requires KeyedBy(all, JobIdOf) && IsTopCache(cache, all) && IsTopIndex(index, all)
    requires job.jobId in all ==> all[job.jobId].createdAt <= job.createdAt
    ensures StaysCached(cache, all, job) && StaysIndexed(index, all, job)
  {
    OrdersAreTotal();
    if job.jobId in all {
      var was := all[job.jobId];
      assert was.createdAt / 1_000_000 <= job.createdAt / 1_000_000;
      LexTotal(job.jobId, job.jobId);
      assert RankLe(Rank(was), Rank(job));
      forall id | job.jobId in index && id in all && id !in index ensures RankLe(Rank(all[id]), Rank(job)) {
        assert Ranks(all)[id] == Rank(all[id]) && index[job.jobId] == Rank(was);
        RankTransitive(Rank(all[id]), Rank(was), Rank(job));
      }
    }
  }

  lemma RankTransitive(a: Ranked, b: Ranked, c: Ranked)
    requires RankLe(a, b) && RankLe(b, c)
    ensures RankLe(a, c)
  {
    OrdersAreTotal();
  }

  lemma TrimKeepsTopIff(index: map<string, Ranked>, all: map<string, JobRecord>, job: JobRecord,
                        after: map<string, Ranked>)
    requires IsTopIndex(index, all)
    requires Evicts(index[job.jobId := Rank(job)], after, RankLe, MAX_INDEXED_JOBS)
    ensures IsTopIndex(after, all[job.jobId := job]) <==> StaysIndexed(index, all, job)
  {
    OrdersAreTotal();
    InsertEvictIff(index, Ranks(all), job.jobId, Rank(job), after, RankLe, MAX_INDEXED_JOBS);
    RanksOfUpdate(all, job);
  }

  lemma RanksOfUpdate(all: map<string, JobRecord>, job: JobRecord)
    ensures Ranks(all[job.jobId := job]) == Ranks(all)[job.jobId := Rank(job)]
    ensures Ranks(all).Keys == all.Keys && forall id :: id in all ==> Ranks(all)[id] == Rank(all[id])
  {
  }

  lemma CacheKeepsTopIff(cache: map<string, JobRecord>, all: map<string, JobRecord>, job: JobRecord,
                         after: map<string, JobRecord>)
    requires IsTopCache(cache, all)
    requires Evicts(cache[job.jobId := job], after, NotNewer, MAX_INDEXED_JOBS)
    ensures IsTopCache(after, all[job.jobId := job]) <==> StaysCached(cache, all, job)
  {
    OrdersAreTotal();
    InsertEvictIff(cache, all, job.jobId, job, after, NotNewer, MAX_INDEXED_JOBS);
  }

  /** ks are the positions of the ranks whose record is there, and page holds these records. */
  ghost predicate PicksAt(page: seq<JobRecord>, ids: seq<Ranked>, jobs: map<string, JobRecord>, ks: seq<nat>) {
    && |ks| == |page| && Increasing(ks)
    && (forall i :: 0 <= i < |ks| ==> ks[i] < |ids| && ids[ks[i]].id in jobs && page[i] == jobs[ids[ks[i]].id])
    && (forall k :: 0 <= k < |ids| && ids[k].id in jobs ==> k in ks)
  }

  /** page is the records of those of the ids that are there, in the order of the ids. */
  ghost predicate Picks(page: seq<JobRecord>, ids: seq<Ranked>, jobs: map<string, JobRecord>) {
    exists ks :: PicksAt(page, ids, jobs, ks)
  }

  ghost predicate Increasing(ks: seq<nat>) {
    forall i, j :: 0 <= i < j < |ks| ==> ks[i] < ks[j]
  }

  lemma {:induction false} PositionSet(ks: seq<nat>) returns (positions: set<nat>)
    requires Increasing(ks)
    ensures |positions| == |ks| && forall k :: k in positions <==> k in ks
  {
    if ks == [] {
      positions := {};
    } else {
      var n := |ks| - 1;
      var before := PositionSet(ks[..n]);
      assert ks == ks[..n] + [ks[n]];
      positions := before + {ks[n]};
    }
  }

  lemma PickedFrom(page: seq<JobRecord>, ids: seq<Ranked>, jobs: map<string, JobRecord>, j: JobRecord)
    returns (r: Ranked)
    requires Picks(page, ids, jobs) && j in page
    ensures r in ids && r.id in jobs && jobs[r.id] == j
  {
    var ks :| PicksAt(page, ids, jobs, ks);
    var i :| 0 <= i < |page| && page[i] == j;
    r := ids[ks[i]];
  }

  lemma StoredIsPicked(page: seq<JobRecord>, ids: seq<Ranked>, jobs: map<string, JobRecord>, r: Ranked)
    requires Picks(page, ids, jobs) && r in ids && r.id in jobs
    ensures jobs[r.id] in page
  {
    var ks :| PicksAt(page, ids, jobs, ks);
    var k: nat :| k < |ids| && ids[k] == r;
    var i :| 0 <= i < |ks| && ks[i] == k;
    assert page[i] == jobs[r.id];
  }

  /** The positions of the ranks whose record is there. */
  function Present(ids: seq<Ranked>, jobs: map<string, JobRecord>): set<nat> {
    set k: nat | k < |ids| && ids[k].id in jobs
  }

  lemma PickedCount(page: seq<JobRecord>, ids: seq<Ranked>, jobs: map<string, JobRecord>)
    requires Picks(page, ids, jobs)
    ensures |page| == |Present(ids, jobs)|
  {
    var ks :| PicksAt(page, ids, jobs, ks);
    var positions := PositionSet(ks);
    assert positions == Present(ids, jobs);
  }

  /** Nothing that is there is left out, nothing else is listed, and nothing twice. */
  lemma PickedAreStored(page: seq<JobRecord>, ids: seq<Ranked>, jobs: map<string, JobRecord>)
    requires Picks(page, ids, jobs)
    ensures forall j :: j in page <==> exists r :: r in ids && r.id in jobs && jobs[r.id] == j
    ensures |page| == |Present(ids, jobs)|
  {
    PickedCount(page, ids, jobs);
    forall r | r in ids && r.id in jobs ensures jobs[r.id] in page {
      StoredIsPicked(page, ids, jobs, r);
    }
    forall j | j in page ensures exists r :: r in ids && r.id in jobs && jobs[r.id] == j {
      var r := PickedFrom(page, ids, jobs, j);
    }
  }

  lemma {:induction false} IncreasingBounds(ks: seq<nat>, n: nat, i: nat)
    requires Increasing(ks) && i < |ks| && forall j :: 0 <= j < |ks| ==> ks[j] < n
    ensures i <= ks[i] && ks[i] + (|ks| - i) <= n
    decreases |ks|
  {
    if |ks| > 1 {
      if i < |ks| - 1 {
        IncreasingBounds(ks[..|ks| - 1], ks[|ks| - 1], i);
      } else {
        IncreasingBounds(ks[..i], ks[i], i - 1);
      }
    }
  }

  lemma AllPositions(ks: seq<nat>, n: nat)
    requires Increasing(ks) && forall k: nat :: k in ks <==> k < n
    ensures |ks| == n && forall i :: 0 <= i < n ==> ks[i] == i
  {
    var positions := PositionSet(ks);
    AllBelow(positions, n);
    forall j | 0 <= j < |ks| ensures ks[j] < n {
      assert ks[j] in ks;
    }
    forall i | 0 <= i < n ensures ks[i] == i {
      IncreasingBounds(ks, n, i);
    }
  }

  /** When every record is there, the page has them all. */
  lemma PicksAll(page: seq<JobRecord>, ids: seq<Ranked>, jobs: map<string, JobRecord>)
    requires Picks(page, ids, jobs) && forall r :: r in ids ==> r.id in jobs
    ensures |page| == |ids| && forall i :: 0 <= i < |ids| ==> page[i] == jobs[ids[i].id]
  {
    var ks :| PicksAt(page, ids, jobs, ks);
    forall k: nat ensures k in ks <==> k < |ids| {
      if k < |ids| { assert ids[k] in ids; }
    }
    AllPositions(ks, |ids|);
  }

  lemma {:induction false} AllBelow(ks: set<nat>, n: nat)
    requires forall k: nat :: k in ks <==> k < n
    ensures |ks| == n
  {
    if n > 0 {
      AllBelow(ks - {n - 1}, n - 1);
    }
  }

  /** The store of one process; `ideal` is every job it saved, in its latest version. */
  class HybridStore {
    const redis: RedisDb?
    var memoryJobs: map<string, JobRecord>
    ghost var ideal: map<string, JobRecord>

    ghost predicate Valid()
      reads this
    {
      KeyedBy(ideal, JobIdOf) && IsTopCache(memoryJobs, ideal)
    }

    constructor (redis: RedisDb?)
      ensures Valid() && this.redis == redis && ideal == map[]
    {
      this.redis, memoryJobs, ideal := redis, map[], map[];
    }

    method EvictOldest()
      requires KeyedBy(memoryJobs, JobIdOf)
      modifies this`memoryJobs
      ensures Evicts(old(memoryJobs), memoryJobs, NotNewer, MAX_INDEXED_JOBS)
    {
      OrdersAreTotal();
      memoryJobs := Evict(memoryJobs, JobIdOf, NotNewer, MAX_INDEXED_JOBS);
    }

    method SaveInMemory(job: JobRecord)
      requires Valid()
      modifies this`memoryJobs, this`ideal
      ensures ideal == old(ideal)[job.jobId := job]
      ensures Evicts(old(memoryJobs)[job.jobId := job], memoryJobs, NotNewer, MAX_INDEXED_JOBS)
      ensures Valid() <==> StaysCached(old(memoryJobs), old(ideal), job)
    {
      memoryJobs := memoryJobs[job.jobId := job];
      EvictOldest();
      CacheKeepsTopIff(old(memoryJobs), ideal, job, memoryJobs);
      ideal := ideal[job.jobId := job];
    }

    /** Saves to memory always, to Redis when there is one; `exec` is how the pipeline ended. */
    method SaveJob(job: JobRecord, exec: Call) returns (ok: bool)
      requires Valid() && (redis != null ==> redis.Valid())
      modifies this, redis
      ensures ok <==> job.jobId != "" && (redis == null || exec.Ok?)
      ensures job.jobId == "" ==> unchanged(this) && (redis != null ==> unchanged(redis))
      ensures job.jobId != "" ==> ideal == old(ideal)[job.jobId := job]
      ensures job.jobId != "" ==> (Valid() <==> StaysCached(old(memoryJobs), old(ideal), job))
      ensures redis != null && job.jobId != "" ==>
        redis.all == if exec.Took() then old(redis.all)[job.jobId := job] else old(redis.all)
      ensures redis != null && (!exec.Took() || job.jobId == "") ==> unchanged(redis)
      ensures redis != null && exec.Took() && job.jobId != "" ==>
        (redis.Valid() <==> StaysIndexed(old(redis.index), old(redis.all), job))
    {
      if job.jobId == "" {
        return false;
      }
      SaveInMemory(job);
      if redis == null {
        return true;
      }
      if exec.Took() {
        redis.SaveJob(job);
      }
      return exec.Ok?;
    }

    /** The job was evicted: the cache is full of jobs at least as new, in their latest versions. */
    ghost predicate Evicted(id: string)
      requires id in ideal
      reads this
    {
      && id !in memoryJobs && |memoryJobs| == MAX_INDEXED_JOBS
      && forall k :: k in memoryJobs ==> k in ideal && memoryJobs[k] == ideal[k] && NotNewer(ideal[id], ideal[k])
    }

    /** Redis answers first; its failures and missing keys fall back to the cached copy. From Redis
        comes the latest version that reached it, from memory the latest version this process saved;
        nothing is found only if the job was never saved or was evicted. */
    method GetJob(id: string, redisUp: bool) returns (job: Option<JobRecord>)
      requires Valid() && (redis != null ==> redis.Valid())
      ensures redis != null && redisUp && id in redis.jobs ==> id in redis.all && job == Some(redis.all[id])
      ensures redis == null || !redisUp || id !in redis.jobs ==>
        if id !in ideal || Evicted(id) then job == None else job == Some(ideal[id])
    {
      if redis != null && redisUp {
        if id in redis.jobs {
          return Some(redis.jobs[id]);
        }
      }
      if id in memoryJobs {
        return Some(memoryJobs[id]);
      }
      if id in ideal {
        OmittedWhenFull(memoryJobs, ideal, id, NotNewer, MAX_INDEXED_JOBS);
      }
      return None;
    }

    /** A page from Redis, or from memory when Redis is absent or failing. */
    method ListJobs(limit: int, redisUp: bool) returns (page: seq<JobRecord>, ids: seq<Ranked>)
      requires Valid() && (redis != null ==> redis.Valid())
      ensures var n := if limit <= 0 then DEFAULT_LIMIT else limit;
        if redis != null && redisUp then
          PageOf(ids, Ranks(redis.all), IdOf, RankLe, Min(n, MAX_INDEXED_JOBS)) && Picks(page, ids, redis.jobs)
        else
          PageOf(page, ideal, JobIdOf, NotNewer, Min(n, MAX_INDEXED_JOBS))
    {
      var n := if limit <= 0 then DEFAULT_LIMIT else limit;
      ids := [];
      if redis != null && redisUp {
        page, ids := redis.List(n);
        return;
      }
      OrdersAreTotal();
      var all := Descending(memoryJobs, JobIdOf, NotNewer);
      FirstPage(all, memoryJobs, ideal, JobIdOf, NotNewer, MAX_INDEXED_JOBS, n);
      page := all[..Min(n, |all|)];
    }
  }

  // ---- whole runs of saves -----------------------------------------------------------------

  /** What an unbounded store holds after the saves. */
  function Saved(jobs: seq<JobRecord>): map<string, JobRecord> {
    if jobs == [] then map[]
    else
      var last := jobs[|jobs| - 1];
      Saved(jobs[..|jobs| - 1])[last.jobId := last]
  }

  /** No save dates a job back; the program keeps the creation time of the first save. */
  ghost predicate NeverDatedBack(jobs: seq<JobRecord>) {
    forall i, j :: 0 <= i < j < |jobs| && jobs[i].jobId == jobs[j].jobId ==> jobs[i].createdAt <= jobs[j].createdAt
  }

  /** The caches and indexes before, between and after the saves, however ties are evicted. */
  ghost predicate SaveRun(jobs: seq<JobRecord>, caches: seq<map<string, JobRecord>>,
                          indexes: seq<map<string, Ranked>>) {
    && |caches| == |indexes| == |jobs| + 1 && caches[0] == map[] && indexes[0] == map[]
    && forall i :: 0 <= i < |jobs| ==>
         && Evicts(caches[i][jobs[i].jobId := jobs[i]], caches[i + 1], NotNewer, MAX_INDEXED_JOBS)
         && Evicts(indexes[i][jobs[i].jobId := Rank(jobs[i])], indexes[i + 1], RankLe, MAX_INDEXED_JOBS)
  }

  lemma {:induction false} SavedEarlier(jobs: seq<JobRecord>, id: string)
    requires id in Saved(jobs)
    ensures Saved(jobs)[id].jobId == id && exists i :: 0 <= i < |jobs| && jobs[i] == Saved(jobs)[id]
  {
    var n := |jobs| - 1;
    if jobs[n].jobId != id {
      SavedEarlier(jobs[..n], id);
      var i :| 0 <= i < n && jobs[..n][i] == Saved(jobs)[id];
      assert jobs[i] == Saved(jobs)[id];
    } else {
      assert jobs[n] == Saved(jobs)[id];
    }
  }

  lemma SavedIsKeyed(jobs: seq<JobRecord>)
    ensures KeyedBy(Saved(jobs), JobIdOf)
  {
    forall id | id in Saved(jobs) ensures Saved(jobs)[id].jobId == id {
      SavedEarlier(jobs, id);
    }
  }

  lemma NextSave(jobs: seq<JobRecord>, i: nat)
    requires NeverDatedBack(jobs) && i < |jobs|
    ensures var all, job := Saved(jobs[..i]), jobs[i];
      && KeyedBy(all, JobIdOf) && Saved(jobs[..i + 1]) == all[job.jobId := job]
      && (job.jobId in all ==> all[job.jobId].createdAt <= job.createdAt)
  {
    var all, job := Saved(jobs[..i]), jobs[i];
    assert jobs[..i + 1][..i] == jobs[..i];
    SavedIsKeyed(jobs[..i]);
    if job.jobId in all {
      SavedEarlier(jobs[..i], job.jobId);
      var k :| 0 <= k < i && jobs[..i][k] == all[job.jobId];
      assert jobs[k].jobId == job.jobId;
    }
  }

  lemma SaveKeepsTops(cache: map<string, JobRecord>, index: map<string, Ranked>, all: map<string, JobRecord>,
                      job: JobRecord, cache': map<string, JobRecord>, index': map<string, Ranked>)
    requires KeyedBy(all, JobIdOf) && IsTopCache(cache, all) && IsTopIndex(index, all)
    requires job.jobId in all ==> all[job.jobId].createdAt <= job.createdAt
    requires Evicts(cache[job.jobId := job], cache', NotNewer, MAX_INDEXED_JOBS)
    requires Evicts(index[job.jobId := Rank(job)], index', RankLe, MAX_INDEXED_JOBS)
    ensures IsTopCache(cache', all[job.jobId := job]) && IsTopIndex(index', all[job.jobId := job])
  {
    SameTimeStays(cache, index, all, job);
    CacheKeepsTopIff(cache, all, job, cache');
    TrimKeepsTopIff(index, all, job, index');
  }

  lemma NothingSaved(jobs: seq<JobRecord>)
    ensures IsTopCache(map[], Saved(jobs[..0])) && IsTopIndex(map[], Saved(jobs[..0]))
  {
    assert Ranks(Saved(jobs[..0])) == map[];
  }

  /** After any run of saves that date no job back the cache holds the newest of all jobs ever
      saved, in their latest versions, and the index the top of them; no eviction forgets more. */
  lemma {:induction false} RunsKeepTheTop(jobs: seq<JobRecord>, caches: seq<map<string, JobRecord>>,
                                          indexes: seq<map<string, Ranked>>, i: nat)
    requires SaveRun(jobs, caches, indexes) && NeverDatedBack(jobs) && i <= |jobs|
    ensures IsTopCache(caches[i], Saved(jobs[..i])) && IsTopIndex(indexes[i], Saved(jobs[..i]))
  {
    if i == 0 {
      NothingSaved(jobs);
    } else {
      RunsKeepTheTop(jobs, caches, indexes, i - 1);
      NextSave(jobs, i - 1);
      SaveKeepsTops(caches[i - 1], indexes[i - 1], Saved(jobs[..i - 1]), jobs[i - 1], caches[i], indexes[i]);
    }
  }

  // ---- the two lists ----------------------------------------------------------------------

  /** The sorted set is determined by the jobs ever saved: it is exactly their top. */
  lemma IndexIsExactlyTheTop(index: map<string, Ranked>, other: map<string, Ranked>, all: map<string, JobRecord>)
    requires KeyedBy(all, JobIdOf)
    requires Keeps(index, Ranks(all), RankLe, MAX_INDEXED_JOBS) && Keeps(other, Ranks(all), RankLe, MAX_INDEXED_JOBS)
    ensures index == other
  {
    OrdersAreTotal();
    KeepsUnique(index, other, Ranks(all), RankLe, MAX_INDEXED_JOBS);
  }

  ghost predicate DistinctMillis(all: map<string, JobRecord>) {
    forall a, b :: a in all && b in all && Rank(all[a]).ms == Rank(all[b]).ms ==> a == b
  }

  /** page holds the records behind the ranks ids. */
  ghost predicate RecordsOf(page: seq<JobRecord>, ids: seq<Ranked>, all: map<string, JobRecord>) {
    && |page| == |ids|
    && forall i :: 0 <= i < |ids| ==> ids[i].id in all && page[i] == all[ids[i].id] && ids[i] == Rank(page[i])
  }

  lemma OmittedIsOlder(all: map<string, JobRecord>, ids: seq<Ranked>, page: seq<JobRecord>, n: nat, id: string, i: nat)
    requires KeyedBy(all, JobIdOf) && DistinctMillis(all) && PageOf(ids, Ranks(all), IdOf, RankLe, n)
    requires RecordsOf(page, ids, all) && id in all && i < |page| && all[id] !in page
    ensures NotNewer(all[id], page[i])
  {
    forall k | 0 <= k < |ids| ensures ids[k] != Rank(all[id]) {
      assert page[k] in page;
    }
    assert Ranks(all)[id] == Rank(all[id]) && Rank(all[id]) !in ids;
    assert RankLe(Rank(all[id]), ids[i]);
  }

  /** With distinct milliseconds a page by rank is a page by creation time. */
  lemma RankedPageIsNewest(all: map<string, JobRecord>, ids: seq<Ranked>, page: seq<JobRecord>, n: nat)
    requires KeyedBy(all, JobIdOf) && DistinctMillis(all) && PageOf(ids, Ranks(all), IdOf, RankLe, n)
    requires RecordsOf(page, ids, all)
    ensures PageOf(page, all, JobIdOf, NotNewer, n)
  {
    assert Ranks(all).Keys == all.Keys;
    forall i, j | 0 <= i < j < |page| ensures NotNewer(page[j], page[i]) && page[i] != page[j] {
      assert ids[i] != ids[j] && RankLe(ids[j], ids[i]);
    }
    forall id, i | id in all && 0 <= i < |page| && all[id] !in page ensures NotNewer(all[id], page[i]) {
      OmittedIsOlder(all, ids, page, n, id, i);
    }
  }

  lemma PagesAgree(p: seq<JobRecord>, q: seq<JobRecord>, all: map<string, JobRecord>, n: nat)
    requires DistinctMillis(all) && PageOf(p, all, JobIdOf, NotNewer, n) && PageOf(q, all, JobIdOf, NotNewer, n)
    ensures p == q
  {
    OrdersAreTotal();
    PageUnique(p, q, all, JobIdOf, NotNewer, n, |p|);
    assert p[..|p|] == p && q[..|p|] == q;
  }

  /** When every save reached Redis, nothing expired and no two jobs share a millisecond, Redis and
      memory list the same jobs in the same order. */
  lemma ListsAgree(all: map<string, JobRecord>, jobs: map<string, JobRecord>, ids: seq<Ranked>,
                   fromRedis: seq<JobRecord>, fromMemory: seq<JobRecord>, n: nat)
    requires KeyedBy(all, JobIdOf) && DistinctMillis(all)
    requires forall id :: id in jobs ==> id in all && jobs[id] == all[id]
    requires PageOf(ids, Ranks(all), IdOf, RankLe, n) && forall r :: r in ids ==> r.id in jobs
    requires Picks(fromRedis, ids, jobs) && PageOf(fromMemory, all, JobIdOf, NotNewer, n)
    ensures fromRedis == fromMemory
  {
    var page := fromRedis;
    PicksAll(page, ids, jobs);
    forall i | 0 <= i < |ids| ensures ids[i].id in all && page[i] == all[ids[i].id] && ids[i] == Rank(page[i]) {
      assert ids[i] in ids;
    }
    RankedPageIsNewest(all, ids, page, n);
    PagesAgree(page, fromMemory, all, n);
  }
}
