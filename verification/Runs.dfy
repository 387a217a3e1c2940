/** Running several events in a row, for building concrete runs. */
module Runs {
  import opened Records
  import opened RedisStream
  import opened Protocol

  function Steps(s: State, es: seq<Event>): State
    decreases |es|
  {
    if es == [] then s else Steps(Step(s, es[0]), es[1..])
  }

  lemma {:induction false} ExecSteps(es: seq<Event>, fs: seq<Event>)
    ensures Exec(es + fs) == Steps(Exec(es), fs)
    decreases |fs|
  {
    if fs == [] {
      assert es + fs == es;
    } else {
      assert es + fs == (es + [fs[0]]) + fs[1..];
      assert (es + [fs[0]])[..|es|] == es;
      ExecSteps(es + [fs[0]], fs[1..]);
    }
  }

  lemma {:induction false} StepsAppend(s: State, es: seq<Event>, fs: seq<Event>)
    ensures Steps(s, es + fs) == Steps(Steps(s, es), fs)
    decreases |es|
  {
    if es == [] {
      assert es + fs == fs;
    } else {
      assert (es + fs)[1..] == es[1..] + fs;
      StepsAppend(Step(s, es[0]), es[1..], fs);
    }
  }

  lemma OneStep(s: State, es: seq<Event>)
    requires es != []
    ensures Steps(s, es) == Steps(Step(s, es[0]), es[1..])
    ensures |es| == 1 ==> Steps(s, es) == Step(s, es[0])
  {
  }

  lemma NoTrim(s: Stream)
    ensures s.MayTrim({})
  {
  }

  /** A submission that meets no failure. */
  function SubmitEvents(j: JobId, trim: set<MsgId>): seq<Event> {
    [Api(j, Begin), Api(j, SaveQueued(Ok))] + [Api(j, Enqueue(Ok, trim))]
  }

  lemma PutTwice<K, V>(m: map<K, V>, k: K, v: V, w: V)
    ensures m[k := v][k := w] == m[k := w]
  {
  }

  /** The state between the two Redis calls of a submission. */
  function Registered(s: State, j: JobId): State {
    s.(store := s.store[j := Record(Queued, false)], submits := s.submits[j := Enqueueing])
  }

  lemma Registers(s: State, j: JobId)
    requires j !in s.submits
    ensures Steps(s, [Api(j, Begin), Api(j, SaveQueued(Ok))]) == Registered(s, j)
  {
    var es := [Api(j, Begin), Api(j, SaveQueued(Ok))];
    var a := s.(submits := s.submits[j := Saving]);
    assert Step(s, es[0]) == a;
    assert es[1..] == [es[1]];
    OneStep(s, es);
    OneStep(a, es[1..]);
    PutTwice(s.submits, j, Saving, Enqueueing);
  }

  function Submitted(s: State, j: JobId, trim: set<MsgId>): State {
    s.(stream := s.stream.XAdd(Job(j), trim), store := s.store[j := Record(Queued, false)],
       submits := s.submits[j := Accepted(s.stream.lastId + 1)])
  }

  lemma MayEnqueue(s: State, j: JobId, trim: set<MsgId>)
    requires s.stream.MayTrim(trim)
    ensures ApiEnabled(Registered(s, j), j, Enqueue(Ok, trim))
  {
  }

  lemma ApiStepApplies(s: State, j: JobId, a: ApiStep)
    requires ApiEnabled(s, j, a)
    ensures Step(s, Api(j, a)) == ApplyApi(s, j, a)
  {
  }

  lemma EnqueueApplies(s: State, j: JobId, trim: set<MsgId>)
    ensures ApplyApi(Registered(s, j), j, Enqueue(Ok, trim)) == Submitted(s, j, trim)
  {
    PutTwice(s.submits, j, Enqueueing, Accepted(s.stream.lastId + 1));
  }

  lemma Enqueues(s: State, j: JobId, trim: set<MsgId>)
    requires s.stream.MayTrim(trim)
    ensures Step(Registered(s, j), Api(j, Enqueue(Ok, trim))) == Submitted(s, j, trim)
  {
    MayEnqueue(s, j, trim);
    ApiStepApplies(Registered(s, j), j, Enqueue(Ok, trim));
    EnqueueApplies(s, j, trim);
  }

  lemma SubmitsBy(s: State, j: JobId, trim: set<MsgId>, t: State)
    requires j !in s.submits && Step(Registered(s, j), Api(j, Enqueue(Ok, trim))) == t
    ensures Steps(s, SubmitEvents(j, trim)) == t
  {
    StepsAppend(s, [Api(j, Begin), Api(j, SaveQueued(Ok))], [Api(j, Enqueue(Ok, trim))]);
    Registers(s, j);
    OneStep(Registered(s, j), [Api(j, Enqueue(Ok, trim))]);
  }

  lemma Submits(s: State, j: JobId, trim: set<MsgId>)
    requires j !in s.submits && s.stream.MayTrim(trim)
    ensures Steps(s, SubmitEvents(j, trim)) == Submitted(s, j, trim)
  {
    Enqueues(s, j, trim);
    SubmitsBy(s, j, trim, Submitted(s, j, trim));
  }

  lemma SubmitsUntrimmed(s: State, j: JobId)
    requires j !in s.submits
    ensures Steps(s, SubmitEvents(j, {})) == Submitted(s, j, {})
  {
    NoTrim(s.stream);
    Submits(s, j, {});
  }

  // ---- a worker with one slot, taking and finishing messages --------------------------------

  /** A worker process that has just joined, with one slot. */
  const FRESH := Node(1, 0, 0, false, false, Top, Top, Serving)

  lemma TwoSteps(s: State, es: seq<Event>)
    requires |es| == 2
    ensures Steps(s, es) == Step(Step(s, es[0]), es[1])
  {
    OneStep(s, es);
    OneStep(Step(s, es[0]), es[1..]);
  }

  lemma StepsThrough(s: State, es: seq<Event>, t: State, fs: seq<Event>, u: State)
    requires Steps(s, es) == t && Steps(t, fs) == u
    ensures Steps(s, es + fs) == u
  {
    StepsAppend(s, es, fs);
  }

  // Fetching a batch.

  predicate Fetchable(st: Stream, lp: LoopId, a: LoopStep) {
    || (a.Read? && a.reply && lp == Reader && st.IsFullBatch(a.upto))
    || (a.Claim? && a.reply && lp == Reclaimer)
  }

  function FetchEvents(n: NodeId, lp: LoopId, a: LoopStep): seq<Event> {
    [Loop(n, lp, Tick), Loop(n, lp, a)]
  }

  function Fetched(s: State, n: NodeId, lp: LoopId, d: Delivery): State {
    var ls := d.st.Leases(d.batch);
    s.(stream := d.st, tasks := s.tasks + map l | l in ls :: Task(n, Waiting(lp)),
       nodes := s.nodes[n := FRESH.WithLoop(lp, Dispatch)])
  }

  lemma Ticks(s: State, n: NodeId, lp: LoopId)
    requires n in s.nodes && s.nodes[n] == FRESH
    ensures Step(s, Loop(n, lp, Tick)) == s.(nodes := s.nodes[n := FRESH.WithLoop(lp, Call)])
  {
  }

  lemma FetchStep(s: State, n: NodeId, lp: LoopId, a: LoopStep)
    requires Fetchable(s.stream, lp, a)
    ensures Step(s.(nodes := s.nodes[n := FRESH.WithLoop(lp, Call)]), Loop(n, lp, a)) ==
      Fetched(s, n, lp, DeliveryOf(s, n, a))
  {
    var t := s.(nodes := s.nodes[n := FRESH.WithLoop(lp, Call)]);
    assert LoopEnabled(t, n, lp, a) && DeliveryOf(t, n, a) == DeliveryOf(s, n, a);
    FetchReceives(s, t, n, lp, a);
  }

  lemma FetchReceives(s: State, t: State, n: NodeId, lp: LoopId, a: LoopStep)
    requires a.Read? || a.Claim?
    requires a.reply && t == s.(nodes := s.nodes[n := FRESH.WithLoop(lp, Call)])
    ensures Receive(t, n, lp, DeliveryOf(s, n, a), true) == Fetched(s, n, lp, DeliveryOf(s, n, a))
  {
    PutTwice(s.nodes, n, FRESH.WithLoop(lp, Call), FRESH.WithLoop(lp, Dispatch));
  }

  lemma Fetches(s: State, n: NodeId, lp: LoopId, a: LoopStep)
    requires n in s.nodes && s.nodes[n] == FRESH && Fetchable(s.stream, lp, a)
    ensures Steps(s, FetchEvents(n, lp, a)) == Fetched(s, n, lp, DeliveryOf(s, n, a))
  {
    TwoSteps(s, FetchEvents(n, lp, a));
    Ticks(s, n, lp);
    FetchStep(s, n, lp, a);
  }

  // Starting the next message of a batch.

  function FirstPhase(p: Payload): Phase {
    if p.Job? then Mark else DeadLetter
  }

  function BeginEvents(n: NodeId, lp: LoopId, l: Lease): seq<Event> {
    [Loop(n, lp, Acquire), Loop(n, lp, Start(l))] + [OfTask(l, DecodePayload)]
  }

  function Begun(s: State, n: NodeId, l: Lease, ph: Phase): State
    requires n in s.nodes
  {
    s.(tasks := s.tasks[l := Task(n, ph)],
       nodes := s.nodes[n := s.nodes[n].(slots := s.nodes[n].slots + 1, wg := s.nodes[n].wg + 1)])
  }

  /** l is the next message the loop dispatches, and a slot is free. */
  ghost predicate IsNext(s: State, n: NodeId, lp: LoopId, l: Lease) {
    && n in s.nodes && s.nodes[n].Loop(lp) == Dispatch && !s.nodes[n].stopping && s.nodes[n].slots < s.nodes[n].capacity
    && l in s.WaitingFor(n, lp) && forall k :: k in s.WaitingFor(n, lp) ==> l.msg <= k.msg
  }

  lemma Starts(s: State, n: NodeId, lp: LoopId, l: Lease)
    requires IsNext(s, n, lp, l)
    ensures Steps(s, [Loop(n, lp, Acquire), Loop(n, lp, Start(l))]) == Begun(s, n, l, Decode)
  {
    var nd := s.nodes[n];
    var t := s.(nodes := s.nodes[n := nd.WithLoop(lp, SlotHeld).(slots := nd.slots + 1)]);
    assert Step(s, Loop(n, lp, Acquire)) == t;
    assert t.WaitingFor(n, lp) == s.WaitingFor(n, lp);
    assert LoopEnabled(t, n, lp, Start(l));
    PutTwice(s.nodes, n, t.nodes[n], nd.(slots := nd.slots + 1, wg := nd.wg + 1));
    TwoSteps(s, [Loop(n, lp, Acquire), Loop(n, lp, Start(l))]);
  }

  lemma Decodes(s: State, l: Lease)
    requires l in s.tasks && s.tasks[l].node in s.nodes && s.tasks[l].phase == Decode
    ensures Steps(s, [OfTask(l, DecodePayload)]) == Goto(s, l, FirstPhase(s.PayloadOf(l)))
  {
    OneStep(s, [OfTask(l, DecodePayload)]);
  }

  lemma Begins(s: State, n: NodeId, lp: LoopId, l: Lease)
    requires IsNext(s, n, lp, l)
    ensures Steps(s, BeginEvents(n, lp, l)) == Begun(s, n, l, FirstPhase(s.PayloadOf(l)))
  {
    Starts(s, n, lp, l);
    var b := Begun(s, n, l, Decode);
    Decodes(b, l);
    PutTwice(s.tasks, l, Task(n, Decode), Task(n, FirstPhase(s.PayloadOf(l))));
    StepsThrough(s, [Loop(n, lp, Acquire), Loop(n, lp, Start(l))], b, [OfTask(l, DecodePayload)],
                 Goto(b, l, FirstPhase(b.PayloadOf(l))));
  }

  // Running it to the point of acknowledging.

  function FinishEvents(l: Lease): seq<Event> {
    [OfTask(l, MarkRunning(Ok)), OfTask(l, Return(Completed)), OfTask(l, CheckCancel), OfTask(l, SaveResult(Ok))]
  }

  lemma FourSteps(s: State, es: seq<Event>)
    requires |es| == 4
    ensures Steps(s, es) == Step(Step(Step(Step(s, es[0]), es[1]), es[2]), es[3])
  {
    OneStep(s, es);
    OneStep(Step(s, es[0]), es[1..]);
    assert es[1..][1..] == es[2..] && es[2..][1..] == es[3..];
    OneStep(Step(Step(s, es[0]), es[1]), es[2..]);
    OneStep(Step(Step(Step(s, es[0]), es[1]), es[2]), es[3..]);
  }

  /** What the job's or message's end leaves behind. */
  function Settles(s: State, l: Lease): State {
    match s.PayloadOf(l)
    case Job(j) => s.(store := s.store[j := Record(Completed, false)], finals := s.finals + {j})
    case Malformed => s.(dlq := s.dlq + {l.msg})
  }

  lemma Evaluates(s: State, l: Lease)
    requires l in s.tasks && s.tasks[l].node in s.nodes && s.tasks[l].phase == Mark && s.PayloadOf(l).Job?
    requires !s.nodes[s.tasks[l].node].jobCancelled
    ensures var a := s.(store := s.store[s.PayloadOf(l).id := Record(Running, false)]);
      Step(Step(Step(s, OfTask(l, MarkRunning(Ok))), OfTask(l, Return(Completed))), OfTask(l, CheckCancel)) ==
      Goto(a, l, Save(Record(Completed, false)))
  {
    var j := s.PayloadOf(l).id;
    var a := Goto(s.(store := s.store[j := Record(Running, false)]), l, Evaluating(false));
    assert Step(s, OfTask(l, MarkRunning(Ok))) == a;
    var b := Goto(a, l, Check(Record(Completed, false)));
    assert Step(a, OfTask(l, Return(Completed))) == b;
    assert b.tasks[l := Task(s.tasks[l].node, Save(Record(Completed, false)))]
        == s.tasks[l := Task(s.tasks[l].node, Save(Record(Completed, false)))];
  }

  lemma SavesResult(s: State, l: Lease, r: Record)
    requires l in s.tasks && s.tasks[l].node in s.nodes && s.tasks[l].phase == Save(r) && s.PayloadOf(l).Job?
    requires r.status.Final()
    ensures var j := s.PayloadOf(l).id;
      Step(s, OfTask(l, SaveResult(Ok))) == Goto(s.(store := s.store[j := r], finals := s.finals + {j}), l, Ack)
  {
  }

  /** A holder that meets no failure, from marking its job running to saving the result. */
  lemma Finishes(s: State, l: Lease)
    requires l in s.tasks && s.tasks[l].node in s.nodes && s.tasks[l].phase == Mark && s.PayloadOf(l).Job?
    requires !s.nodes[s.tasks[l].node].jobCancelled
    ensures Steps(s, FinishEvents(l)) == Goto(Settles(s, l), l, Ack)
  {
    var j := s.PayloadOf(l).id;
    var c := Goto(s.(store := s.store[j := Record(Running, false)]), l, Save(Record(Completed, false)));
    Evaluates(s, l);
    assert c.PayloadOf(l) == s.PayloadOf(l);
    SavesResult(c, l, Record(Completed, false));
    PutTwice(s.store, j, Record(Running, false), Record(Completed, false));
    PutTwice(s.tasks, l, c.tasks[l], s.tasks[l].(phase := Ack));
    FourSteps(s, FinishEvents(l));
  }

  lemma DeadLetters(s: State, l: Lease)
    requires l in s.tasks && s.tasks[l].node in s.nodes && s.tasks[l].phase == DeadLetter && s.PayloadOf(l).Malformed?
    ensures Steps(s, [OfTask(l, SendToDLQ(Ok))]) == Goto(Settles(s, l), l, Ack)
  {
    OneStep(s, [OfTask(l, SendToDLQ(Ok))]);
  }

  function SettleEvents(p: Payload, l: Lease): seq<Event> {
    if p.Job? then FinishEvents(l) else [OfTask(l, SendToDLQ(Ok))]
  }

  lemma SettlesMessage(s: State, l: Lease)
    requires l in s.tasks && s.tasks[l].node in s.nodes && s.tasks[l].phase == FirstPhase(s.PayloadOf(l))
    requires !s.nodes[s.tasks[l].node].jobCancelled
    ensures Steps(s, SettleEvents(s.PayloadOf(l), l)) == Goto(Settles(s, l), l, Ack)
  {
    if s.PayloadOf(l).Job? {
      Finishes(s, l);
    } else {
      DeadLetters(s, l);
    }
  }

  // Acknowledging and deleting.

  lemma Acknowledges(s: State, l: Lease)
    requires l in s.tasks && s.tasks[l].node in s.nodes && s.tasks[l].phase == Ack
    ensures Step(s, OfTask(l, AckJob(Ok))) == Goto(s.(stream := s.stream.XAck(l)), l, Delete)
  {
  }

  lemma FinishesAcked(s: State, l: Lease)
    requires l in s.tasks && s.tasks[l].node in s.nodes && l.msg in s.stream.acks && s.stream.acks[l.msg] == l
    ensures var n := s.tasks[l].node; var nd := s.nodes[n];
      Finish(s, l) == s.(tasks := s.tasks - {l}, nodes := s.nodes[n := nd.(slots := nd.slots - 1, wg := nd.wg - 1)])
  {
    var none: map<Lease, NodeId> := map[];
    assert s.released + none == s.released;
    assert (set k | k in {l} && !(k.msg in s.stream.acks && s.stream.acks[k.msg] == k)) == {};
  }

  lemma Deletes(s: State, l: Lease)
    requires l in s.tasks && s.tasks[l].node in s.nodes && s.tasks[l].phase == Delete
    requires l.msg in s.stream.acks && s.stream.acks[l.msg] == l
    ensures var n := s.tasks[l].node; var nd := s.nodes[n];
      Step(s, OfTask(l, DeleteMessage(Ok))) ==
      s.(stream := s.stream.XDel(l.msg), tasks := s.tasks - {l},
         nodes := s.nodes[n := nd.(slots := nd.slots - 1, wg := nd.wg - 1)])
  {
    FinishesAcked(s.(stream := s.stream.XDel(l.msg)), l);
  }
}
