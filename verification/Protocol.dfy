/** The at-least-once job protocol as a state machine: API submissions, worker nodes with their
    read and reclaim loops, one task per leased message, and the shared Redis state.

    An `Event` is one atomic step of one participant. `Step` ignores an event whose guard is
    false, so every sequence of events is a run and `Exec` reaches exactly the reachable states:
    any number of nodes, any interleaving, failed calls, lost replies, crashes and shutdowns. */
module Protocol {
  import opened Records
  import opened RedisStream

  /** A stored job record; `sawCancel` is history: some model call of the run saw cancellation. */
  datatype Record = Record(status: JobStatus, sawCancel: bool)

  datatype SubmitPc =
    | Saving                  // about to save the queued record
    | Enqueueing              // about to XADD
    | Accepted(msg: MsgId)    // answered 202, job is on the stream
    | Fallback                // XADD reported an error
    | Local                   // running inside the API process
    | Rejecting               // no local slot: about to store "failed"
    | Closed

  datatype Phase =
    | Waiting(loop: LoopId)   // delivered, not yet dispatched
    | Decode | Mark
    | Evaluating(saw: bool)   // inside runner.Run
    | Check(rec: Record) | Save(rec: Record)
    | DeadLetter | Ack | Delete

  datatype Task = Task(node: NodeId, phase: Phase)

  datatype LoopId = Reader | Reclaimer

  datatype LoopPc = Top | Call | Dispatch | SlotHeld | Exited

  datatype MainPc = Serving | Draining | Drained | Crashed

  /** One worker process: the semaphore, the WaitGroup, the two contexts and the two loops. */
  datatype Node = Node(capacity: int, slots: int, wg: int, stopping: bool, jobCancelled: bool,
                       reader: LoopPc, reclaimer: LoopPc, main: MainPc)
  {
    function Loop(lp: LoopId): LoopPc {
      if lp == Reader then reader else reclaimer
    }

    function WithLoop(lp: LoopId, pc: LoopPc): Node {
      if lp == Reader then this.(reader := pc) else this.(reclaimer := pc)
    }
  }

  datatype State = State(
    stream: Stream,
    store: map<JobId, Record>,      // the shared job store
    finals: set<JobId>,             // history: jobs that ever had a final record saved
    dlq: set<MsgId>,                // history: messages ever added to the dead-letter stream
    submits: map<JobId, SubmitPc>,
    nodes: map<NodeId, Node>,
    tasks: map<Lease, Task>,
    released: map<Lease, NodeId>)   // history: leases given up without having acknowledged
  {
    function PayloadOf(l: Lease): Payload {
      if l.msg in stream.appended then stream.appended[l.msg] else Malformed
    }

    /** Tasks of node n that run in a goroutine. */
    function Live(n: NodeId): set<Lease> {
      set l | l in tasks && tasks[l].node == n && !tasks[l].phase.Waiting?
    }

    function WaitingFor(n: NodeId, lp: LoopId): set<Lease> {
      set l | l in tasks && tasks[l] == Task(n, Waiting(lp))
    }
  }

  datatype ApiStep =
    | Begin | SaveQueued(c: Call) | Enqueue(c: Call, trim: set<MsgId>)
    | RunLocally | NoCapacity | SaveLocal(status: JobStatus, c: Call) | SaveRejected(c: Call)

  datatype LoopStep =
    | Tick | Exit | Read(upto: MsgId, reply: bool) | Claim(cutoff: nat, reply: bool) | NoReply
    | BatchDone | Acquire | GiveUp | Start(lease: Lease)

  datatype TaskStep =
    | DecodePayload | MarkRunning(c: Call) | SeeCancel | Return(status: JobStatus) | CheckCancel
    | SaveResult(c: Call) | SendToDLQ(c: Call) | AckJob(c: Call) | DeleteMessage(c: Call) | Panic

  datatype MainStep = Join(capacity: int) | Signal | BeginDrain | Deadline | EndDrain | Crash

  datatype Event =
    | Api(job: JobId, api: ApiStep)
    | Junk(trim: set<MsgId>)                        // somebody adds an undecodable entry
    | Loop(node: NodeId, lp: LoopId, loop: LoopStep)
    | OfTask(lease: Lease, task: TaskStep)
    | Main(n: NodeId, main: MainStep)

  const INIT := State(EMPTY_STREAM, map[], {}, {}, map[], map[], map[], map[])

  // ---- API: handleSubmitJob, tryEnqueue, runLocally --------------------------------------

  predicate ApiEnabled(s: State, j: JobId, a: ApiStep) {
    match a
    case Begin => j !in s.submits
    case SaveQueued(_) => j in s.submits && s.submits[j] == Saving
    case Enqueue(c, trim) =>
      j in s.submits && s.submits[j] == Enqueueing && if c.Took() then s.stream.MayTrim(trim) else trim == {}
    case RunLocally => j in s.submits && s.submits[j] == Fallback
    case NoCapacity => j in s.submits && s.submits[j] == Fallback
    case SaveLocal(status, _) => j in s.submits && s.submits[j] == Local && status.Final()
    case SaveRejected(_) => j in s.submits && s.submits[j] == Rejecting
  }

  function Put(s: State, j: JobId, r: Record, c: Call): State {
    if !c.Took() then s
    else s.(store := s.store[j := r], finals := if r.status.Final() then s.finals + {j} else s.finals)
  }

  function Enqueued(s: State, j: JobId, c: Call, trim: set<MsgId>): State {
    s.(stream := if c.Took() then s.stream.XAdd(Job(j), trim) else s.stream,
       submits := s.submits[j := if c.Ok? then Accepted(s.stream.lastId + 1) else Fallback])
  }

  function ApplyApi(s: State, j: JobId, a: ApiStep): State {
    match a
    case Begin => s.(submits := s.submits[j := Saving])
    case SaveQueued(c) => Put(s, j, Record(Queued, false), c).(submits := s.submits[j := Enqueueing])
    case Enqueue(c, trim) => Enqueued(s, j, c, trim)
    case RunLocally => s.(submits := s.submits[j := Local])
    case NoCapacity => s.(submits := s.submits[j := Rejecting])
    case SaveLocal(status, c) => Put(s, j, Record(status, false), c).(submits := s.submits[j := Closed])
    case SaveRejected(c) => Put(s, j, Record(Failed, false), c).(submits := s.submits[j := Closed])
  }

  // ---- worker loops: runLoop, reclaimLoop, dispatch ---------------------------------------

  predicate LoopEnabled(s: State, n: NodeId, lp: LoopId, a: LoopStep) {
    n in s.nodes &&
    var nd := s.nodes[n];
    var pc := nd.Loop(lp);
    match a
    case Tick => pc == Top && (lp == Reclaimer || !nd.stopping)   // a ready ticker may win against ctx.Done
    case Exit => pc == Top && nd.stopping
    case Read(upto, _) =>
      pc == Call && lp == Reader && s.stream.IsFullBatch(upto)
    case Claim(_, _) =>
      pc == Call && lp == Reclaimer
    case NoReply => pc == Call
    case BatchDone => pc == Dispatch && s.WaitingFor(n, lp) == {}
    case Acquire => pc == Dispatch && s.WaitingFor(n, lp) != {} && nd.slots < nd.capacity
    case GiveUp => (pc == SlotHeld || (pc == Dispatch && s.WaitingFor(n, lp) != {})) && nd.stopping
    case Start(l) =>
      && pc == SlotHeld && !nd.stopping
      && l in s.WaitingFor(n, lp) && forall k :: k in s.WaitingFor(n, lp) ==> l.msg <= k.msg
  }

  /** What a read or a claim hands out, and the stream after it. */
  datatype Delivery = Delivery(st: Stream, batch: set<MsgId>)

  function DeliveryOf(s: State, n: NodeId, a: LoopStep): Delivery
    requires a.Read? || a.Claim?
  {
    match a
    case Read(upto, _) => Delivery(s.stream.XReadGroup(n, upto), s.stream.ReadBatch(upto))
    case Claim(cutoff, _) =>
      var ids := s.stream.Scan(cutoff);
      Delivery(s.stream.XAutoClaim(n, ids), s.stream.Claimable(ids))
  }

  /** A delivery reaches loop lp of node n, or its reply is lost on the way. */
  function Receive(s: State, n: NodeId, lp: LoopId, d: Delivery, reply: bool): State
    requires n in s.nodes
  {
    if reply then
      var ls := d.st.Leases(d.batch);
      s.(stream := d.st,
         tasks := s.tasks + map l | l in ls :: Task(n, Waiting(lp)),
         nodes := s.nodes[n := s.nodes[n].WithLoop(lp, Dispatch)])
    else
      s.(stream := d.st, nodes := s.nodes[n := s.nodes[n].WithLoop(lp, Top)])
  }

  /** Drops tasks; those that did not acknowledge their message are released. */
  function Abandon(s: State, n: NodeId, ls: set<Lease>): State {
    var unacked := set l | l in ls && !(l.msg in s.stream.acks && s.stream.acks[l.msg] == l);
    s.(tasks := s.tasks - ls, released := s.released + map l | l in unacked :: n)
  }

  function ApplyLoop(s: State, n: NodeId, lp: LoopId, a: LoopStep): State
    requires LoopEnabled(s, n, lp, a)
  {
    var nd := s.nodes[n];
    match a
    case Tick => s.(nodes := s.nodes[n := nd.WithLoop(lp, Call)])
    case Exit => s.(nodes := s.nodes[n := nd.WithLoop(lp, Exited)])
    case Read(_, reply) => Receive(s, n, lp, DeliveryOf(s, n, a), reply)
    case Claim(_, reply) => Receive(s, n, lp, DeliveryOf(s, n, a), reply)
    case NoReply => s.(nodes := s.nodes[n := nd.WithLoop(lp, Top)])
    case BatchDone => s.(nodes := s.nodes[n := nd.WithLoop(lp, Top)])
    case Acquire => s.(nodes := s.nodes[n := nd.WithLoop(lp, SlotHeld).(slots := nd.slots + 1)])
    case GiveUp =>
      var freed := if nd.Loop(lp) == SlotHeld then nd.(slots := nd.slots - 1) else nd;
      Abandon(s, n, s.WaitingFor(n, lp)).(
        nodes := s.nodes[n := freed.WithLoop(lp, if lp == Reader then Exited else Top)])
    case Start(l) =>
      s.(tasks := s.tasks[l := Task(n, Decode)],
         nodes := s.nodes[n := nd.WithLoop(lp, Dispatch).(wg := nd.wg + 1)])
  }

  // ---- one goroutine: processMessage, markRunning, deadLetter, ackAndDelete ----------------

  predicate TaskEnabled(s: State, l: Lease, a: TaskStep) {
    l in s.tasks && s.tasks[l].node in s.nodes &&
    var ph := s.tasks[l].phase;
    match a
    case DecodePayload => ph == Decode
    case MarkRunning(_) => ph == Mark && s.PayloadOf(l).Job?
    case SeeCancel => ph.Evaluating? && s.nodes[s.tasks[l].node].jobCancelled
    case Return(status) => ph.Evaluating? && status.Final()
    case CheckCancel => ph.Check?
    case SaveResult(_) => ph.Save? && s.PayloadOf(l).Job?
    case SendToDLQ(_) => ph == DeadLetter
    case AckJob(_) => ph == Ack
    case DeleteMessage(_) => ph == Delete
    case Panic => !ph.Waiting? && ph != DeadLetter
  }

  /** The goroutine returns: its deferred calls free the slot and the WaitGroup. */
  function Finish(s: State, l: Lease): State
    requires l in s.tasks && s.tasks[l].node in s.nodes
  {
    var n := s.tasks[l].node;
    var nd := s.nodes[n];
    Abandon(s, n, {l}).(nodes := s.nodes[n := nd.(slots := nd.slots - 1, wg := nd.wg - 1)])
  }

  function Goto(s: State, l: Lease, ph: Phase): State
    requires l in s.tasks
  {
    s.(tasks := s.tasks[l := s.tasks[l].(phase := ph)])
  }

  /** What the Redis command of step a does to the shared state. */
  function CallEffect(s: State, l: Lease, a: TaskStep): (t: State)
    requires TaskEnabled(s, l, a)
    ensures t.tasks == s.tasks && t.nodes == s.nodes && t.released == s.released && t.submits == s.submits
  {
    match a
    case MarkRunning(c) => Put(s, s.PayloadOf(l).id, Record(Running, false), c)
    case SaveResult(c) => Put(s, s.PayloadOf(l).id, s.tasks[l].phase.rec, c)
    case SendToDLQ(c) => if c.Took() then s.(dlq := s.dlq + {l.msg}) else s
    case AckJob(c) => if c.Took() then s.(stream := s.stream.XAck(l)) else s
    case DeleteMessage(c) => if c.Took() then s.(stream := s.stream.XDel(l.msg)) else s
    case _ => s
  }

  datatype Next = To(phase: Phase) | Done

  /** Where the goroutine goes after step a. */
  function AfterStep(s: State, l: Lease, a: TaskStep): Next
    requires TaskEnabled(s, l, a)
  {
    var ph := s.tasks[l].phase;
    match a
    case DecodePayload => To(if s.PayloadOf(l).Job? then Mark else DeadLetter)
    case MarkRunning(_) => To(Evaluating(false))      // an error is only logged
    case SeeCancel => To(Evaluating(true))
    case Return(status) => To(Check(Record(status, ph.saw)))
    case CheckCancel => if s.nodes[s.tasks[l].node].jobCancelled then Done else To(Save(ph.rec))
    case SaveResult(c) => if c.Ok? then To(Ack) else Done
    case SendToDLQ(c) => if c.Ok? then To(Ack) else Done
    case AckJob(c) => if c.Ok? then To(Delete) else Done
    case DeleteMessage(_) => Done
    case Panic => To(DeadLetter)
  }

  function Advance(s: State, l: Lease, next: Next): State
    requires l in s.tasks && s.tasks[l].node in s.nodes
  {
    match next
    case To(ph) => Goto(s, l, ph)
    case Done => Finish(s, l)
  }

  function ApplyTask(s: State, l: Lease, a: TaskStep): State
    requires TaskEnabled(s, l, a)
  {
    Advance(CallEffect(s, l, a), l, AfterStep(s, l, a))
  }

  // ---- process lifetime: main, drain -------------------------------------------------------

  predicate MainEnabled(s: State, n: NodeId, a: MainStep) {
    if a.Join? then n !in s.nodes && a.capacity >= 1
    else
      n in s.nodes &&
      var nd := s.nodes[n];
      match a
      case Signal => nd.main == Serving
      case BeginDrain => nd.main == Serving && nd.reader == Exited && nd.reclaimer == Exited
      case Deadline => nd.main == Draining
      case EndDrain => nd.main == Draining && nd.wg == 0
      case Crash => nd.main == Serving || nd.main == Draining
      case Join(_) => false
  }

  function ApplyMain(s: State, n: NodeId, a: MainStep): State
    requires MainEnabled(s, n, a)
  {
    if a.Join? then s.(nodes := s.nodes[n := Node(a.capacity, 0, 0, false, false, Top, Top, Serving)])
    else
      var nd := s.nodes[n];
      match a
      case Signal => s.(nodes := s.nodes[n := nd.(stopping := true)])
      case BeginDrain => s.(nodes := s.nodes[n := nd.(main := Draining)])
      case Deadline => s.(nodes := s.nodes[n := nd.(jobCancelled := true)])
      case EndDrain => s.(nodes := s.nodes[n := nd.(main := Drained)])
      case Crash =>
        Abandon(s, n, s.Live(n) + s.WaitingFor(n, Reader) + s.WaitingFor(n, Reclaimer)).(
          nodes := s.nodes[n := nd.(slots := 0, wg := 0, reader := Exited, reclaimer := Exited, main := Crashed)])
      case Join(_) => s
  }

  // ---- runs -------------------------------------------------------------------------------

  predicate Enabled(s: State, e: Event) {
    match e
    case Api(j, a) => ApiEnabled(s, j, a)
    case Junk(trim) => s.stream.MayTrim(trim)
    case Loop(n, lp, a) => LoopEnabled(s, n, lp, a)
    case OfTask(l, a) => TaskEnabled(s, l, a)
    case Main(n, a) => MainEnabled(s, n, a)
  }

  function Step(s: State, e: Event): State {
    if !Enabled(s, e) then s
    else
      match e
      case Api(j, a) => ApplyApi(s, j, a)
      case Junk(trim) => s.(stream := s.stream.XAdd(Malformed, trim))
      case Loop(n, lp, a) => ApplyLoop(s, n, lp, a)
      case OfTask(l, a) => ApplyTask(s, l, a)
      case Main(n, a) => ApplyMain(s, n, a)
  }

  /** The state after the events es. */
  function Exec(es: seq<Event>): State {
    if es == [] then INIT else Step(Exec(es[..|es| - 1]), es[|es| - 1])
  }
}
