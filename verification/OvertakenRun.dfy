/** A concrete run: node 2 reclaims a message that node 1 is still about to start, finishes and
    acknowledges it, and node 1 then writes "running" over the completed record. */
module OvertakenRun {
  import opened Records
  import opened RedisStream
  import opened Protocol
  import opened Durability
  import opened Runs
  import opened Sets

  const JOB: JobId := 7
  const FIRST := Lease(1, 1)
  const SECOND := Lease(1, 2)

  const READING := FRESH.(slots := 1, wg := 1, reader := Dispatch)
  const RECLAIMING := FRESH.(slots := 1, wg := 1, reclaimer := Dispatch)

  // The stream after the enqueue, the read, the reclaim and the acknowledgement.
  const S1 := Stream(map[1 := Job(JOB)], 1, 0, map[], map[], 0, map[], map[1 := Job(JOB)], map[], {})
  const S2 := S1.(lastDelivered := 1, pending := map[1 := 1], delivered := map[1 := 1],
                      clock := 1, since := map[1 := 1])
  const S3 := S2.(pending := map[1 := 2], delivered := map[1 := 2], clock := 2, since := map[1 := 2])
  const S4 := S3.(pending := map[], acks := map[1 := SECOND])

  const READY := INIT.(
    stream := S1, store := INIT.store[JOB := Record(Queued, false)], submits := INIT.submits[JOB := Accepted(1)],
    nodes := INIT.nodes[1 := FRESH][2 := FRESH])

  const TAKEN := READY.(
    stream := S2, nodes := READY.nodes[1 := READING], tasks := READY.tasks[FIRST := Task(1, Mark)])

  const TAKEN_TWICE := TAKEN.(
    stream := S3, nodes := TAKEN.nodes[2 := RECLAIMING], tasks := TAKEN.tasks[SECOND := Task(2, Mark)])

  const ACKNOWLEDGED := TAKEN_TWICE.(
    stream := S4, store := TAKEN_TWICE.store[JOB := Record(Completed, false)], finals := {JOB},
    tasks := TAKEN_TWICE.tasks[SECOND := Task(2, Delete)])

  const SUBMIT := SubmitEvents(JOB, {}) + [Main(1, Join(1)), Main(2, Join(1))]
  const TAKE := FetchEvents(1, Reader, Read(1, true)) + BeginEvents(1, Reader, FIRST)
  const RECLAIM := FetchEvents(2, Reclaimer, Claim(1, true)) + BeginEvents(2, Reclaimer, SECOND)
  const FINISH := FinishEvents(SECOND) + [OfTask(SECOND, AckJob(Ok))]
  const OVERWRITE := OfTask(FIRST, MarkRunning(Ok))

  lemma AddStream()
    ensures EMPTY_STREAM.XAdd(Job(JOB), {}) == S1
  {
  }

  lemma ReadStream()
    ensures S1.IsFullBatch(1) && S1.ReadBatch(1) == {1} && S1.XReadGroup(1, 1) == S2 && S2.Leases({1}) == {FIRST}
  {
    assert S1.ReadBatch(1) == {1} && S1.Undelivered() == {1};
  }

  lemma ClaimStream()
    ensures S2.Scan(1) == {1} && S2.Claimable({1}) == {1} && S2.XAutoClaim(2, {1}) == S3 && S3.Leases({1}) == {SECOND}
  {
    assert S2.Claimable({1}) == {1};
    assert S2.Eligible(1) == {1} && Below({1}, 1) == {};
  }

  lemma AckStream()
    ensures S3.XAck(SECOND) == S4
  {
  }

  const ENQUEUED_ONCE := INIT.(
    stream := S1, store := INIT.store[JOB := Record(Queued, false)], submits := INIT.submits[JOB := Accepted(1)])

  lemma FirstSubmit(s: State, j: JobId)
    requires s.stream == EMPTY_STREAM && j == JOB && j !in s.submits
    ensures Steps(s, SubmitEvents(j, {})) ==
      s.(stream := S1, store := s.store[j := Record(Queued, false)], submits := s.submits[j := Accepted(1)])
  {
    AddStream();
    SubmitsUntrimmed(s, j);
  }

  lemma JoinSteps()
    ensures Steps(ENQUEUED_ONCE, [Main(1, Join(1)), Main(2, Join(1))]) == READY
  {
    Joins(ENQUEUED_ONCE);
  }

  lemma Submission()
    ensures Steps(INIT, SUBMIT) == READY
  {
    FirstSubmit(INIT, JOB);
    JoinSteps();
    StepsAppend(INIT, SubmitEvents(JOB, {}), [Main(1, Join(1)), Main(2, Join(1))]);
  }

  lemma Joins(s: State)
    requires s.nodes == map[]
    ensures Steps(s, [Main(1, Join(1)), Main(2, Join(1))]) == s.(nodes := s.nodes[1 := FRESH][2 := FRESH])
  {
    var es := [Main(1, Join(1)), Main(2, Join(1))];
    assert es[1..] == [es[1]];
    OneStep(s, es);
    OneStep(Step(s, es[0]), es[1..]);
  }

  function Got(s: State, n: NodeId, lp: LoopId, st: Stream, l: Lease): State {
    s.(stream := st, tasks := s.tasks[l := Task(n, Waiting(lp))], nodes := s.nodes[n := FRESH.WithLoop(lp, Dispatch)])
  }

  lemma GetsOne(s: State, n: NodeId, lp: LoopId, a: LoopStep, st: Stream, l: Lease)
    requires n in s.nodes && s.nodes[n] == FRESH && Fetchable(s.stream, lp, a) && s.WaitingFor(n, lp) == {}
    requires DeliveryOf(s, n, a).st == st && st.Leases(DeliveryOf(s, n, a).batch) == {l}
    ensures Steps(s, FetchEvents(n, lp, a)) == Got(s, n, lp, st, l) && IsNext(Got(s, n, lp, st, l), n, lp, l)
  {
    Fetches(s, n, lp, a);
    WaitsFor(s, Fetched(s, n, lp, DeliveryOf(s, n, a)), n, lp, l);
  }

  lemma BeginsOne(s: State, n: NodeId, lp: LoopId, st: Stream, l: Lease)
    requires IsNext(Got(s, n, lp, st, l), n, lp, l) && l.msg in st.appended && st.appended[l.msg].Job?
    ensures Steps(Got(s, n, lp, st, l), BeginEvents(n, lp, l)) == TookOne(s, n, lp, st, l)
  {
    Begins(Got(s, n, lp, st, l), n, lp, l);
    PutTwice(s.tasks, l, Task(n, Waiting(lp)), Task(n, Mark));
    PutTwice(s.nodes, n, FRESH.WithLoop(lp, Dispatch), FRESH.WithLoop(lp, Dispatch).(slots := 1, wg := 1));
  }

  function TookOne(s: State, n: NodeId, lp: LoopId, st: Stream, l: Lease): State {
    s.(stream := st, tasks := s.tasks[l := Task(n, Mark)],
       nodes := s.nodes[n := FRESH.WithLoop(lp, Dispatch).(slots := 1, wg := 1)])
  }

  /** One message comes in and its goroutine decodes it. */
  lemma TakesOne(s: State, n: NodeId, lp: LoopId, a: LoopStep, st: Stream, l: Lease)
    requires n in s.nodes && s.nodes[n] == FRESH && Fetchable(s.stream, lp, a) && s.WaitingFor(n, lp) == {}
    requires DeliveryOf(s, n, a).st == st && st.Leases(DeliveryOf(s, n, a).batch) == {l}
    requires l.msg in st.appended && st.appended[l.msg].Job?
    ensures Steps(s, FetchEvents(n, lp, a) + BeginEvents(n, lp, l)) == TookOne(s, n, lp, st, l)
  {
    GetsOne(s, n, lp, a, st, l);
    BeginsOne(s, n, lp, st, l);
    StepsThrough(s, FetchEvents(n, lp, a), Got(s, n, lp, st, l), BeginEvents(n, lp, l), TookOne(s, n, lp, st, l));
  }

  lemma WaitsFor(s: State, t: State, n: NodeId, lp: LoopId, l: Lease)
    requires s.WaitingFor(n, lp) == {} && n in t.nodes && t.nodes[n] == FRESH.WithLoop(lp, Dispatch)
    requires var ls := {l}; t.tasks == s.tasks + map k | k in ls :: Task(n, Waiting(lp))
    ensures t.tasks == s.tasks[l := Task(n, Waiting(lp))] && IsNext(t, n, lp, l)
  {
    forall k ensures k in t.WaitingFor(n, lp) <==> k == l {
      assert k !in s.WaitingFor(n, lp);
    }
  }

  lemma TakeSteps()
    ensures Steps(READY, TAKE) == TAKEN
  {
    ReadStream();
    TakesOne(READY, 1, Reader, Read(1, true), S2, FIRST);
  }

  lemma ReclaimSteps()
    ensures Steps(TAKEN, RECLAIM) == TAKEN_TWICE
  {
    ClaimStream();
    assert TAKEN.WaitingFor(2, Reclaimer) == {};
    TakesOne(TAKEN, 2, Reclaimer, Claim(1, true), S3, SECOND);
  }

  function Saved(): State {
    Goto(TAKEN_TWICE.(store := TAKEN_TWICE.store[JOB := Record(Completed, false)],
                      finals := TAKEN_TWICE.finals + {JOB}),
         SECOND, Ack)
  }

  lemma FinishSteps()
    ensures Steps(TAKEN_TWICE, FINISH) == ACKNOWLEDGED
  {
    Finishes(TAKEN_TWICE, SECOND);
    AcknowledgeStep(Saved());
    StepsAppend(TAKEN_TWICE, FinishEvents(SECOND), [OfTask(SECOND, AckJob(Ok))]);
  }

  lemma AcknowledgeStep(d: State)
    requires d == Saved()
    ensures Steps(d, [OfTask(SECOND, AckJob(Ok))]) == ACKNOWLEDGED
  {
    OneStep(d, [OfTask(SECOND, AckJob(Ok))]);
    Acknowledges(d, SECOND);
    AckStream();
    assert Goto(d, SECOND, Delete).tasks == ACKNOWLEDGED.tasks;
  }

  /** Without exclusive holding the promise fails: an acknowledged, completed job ends up "running"
      with nothing left on the stream that would ever finish it. */
  lemma OvertakenHolderOverwrites()
    ensures var s := Exec(SUBMIT + TAKE + RECLAIM + FINISH + [OVERWRITE]);
      && 1 in s.stream.acks && 1 !in s.stream.pending && 1 !in s.dlq
      && PayloadIs(s, 1, JOB) && JOB in s.finals
      && JOB in s.store && s.store[JOB].status == Running
      && !AckedIsFinal(s)
  {
    ReachesAcknowledged();
    LastStep();
    ExecSteps(SUBMIT + TAKE + RECLAIM + FINISH, [OVERWRITE]);
    var s := Exec(SUBMIT + TAKE + RECLAIM + FINISH + [OVERWRITE]);
    assert !Durable(s, 1);
  }

  ghost predicate PayloadIs(s: State, m: MsgId, j: JobId) {
    m in s.stream.appended && s.stream.appended[m] == Job(j)
  }

  lemma ReachesAcknowledged()
    ensures Exec(SUBMIT + TAKE + RECLAIM + FINISH) == ACKNOWLEDGED
  {
    Submission();
    TakeSteps();
    ReclaimSteps();
    FinishSteps();
    ExecSteps([], SUBMIT);
    assert [] + SUBMIT == SUBMIT;
    ExecSteps(SUBMIT, TAKE);
    ExecSteps(SUBMIT + TAKE, RECLAIM);
    ExecSteps(SUBMIT + TAKE + RECLAIM, FINISH);
  }

  lemma LastStep()
    ensures var s := Steps(ACKNOWLEDGED, [OVERWRITE]);
      s == Goto(ACKNOWLEDGED.(store := ACKNOWLEDGED.store[JOB := Record(Running, false)]), FIRST, Evaluating(false))
  {
    OneStep(ACKNOWLEDGED, [OVERWRITE]);
    assert TaskEnabled(ACKNOWLEDGED, FIRST, MarkRunning(Ok));
  }
}
