/** Invariants of submissions, cancellation and worker processes, kept by every event. */
module NodeInvariants {
  import opened RedisStream
  import opened Protocol
  import opened ProtocolInvariants

  // ---- submissions ------------------------------------------------------------------------

  /** A job is on the stream at most once, and only after its queued record was attempted. */
  ghost predicate SubmitInv(s: State) {
    && (forall m :: m in s.stream.appended && s.stream.appended[m].Job? ==>
          var j := s.stream.appended[m].id; j in s.submits && s.submits[j] != Saving && s.submits[j] != Enqueueing)
    && (forall m, k :: m in s.stream.appended && k in s.stream.appended && s.stream.appended[m].Job? ==>
          s.stream.appended[m] == s.stream.appended[k] ==> m == k)
    && (forall j :: j in s.submits && s.submits[j].Accepted? ==>
          s.submits[j].msg in s.stream.appended && s.stream.appended[s.submits[j].msg] == Job(j))
  }

  /** No submission moves, and no message is added. */
  ghost predicate AppendsNothing(s: State, t: State) {
    t.submits == s.submits && t.stream.appended == s.stream.appended
  }

  lemma LoopAppendsNothing(s: State, n: NodeId, lp: LoopId, a: LoopStep)
    requires LoopEnabled(s, n, lp, a)
    ensures AppendsNothing(s, ApplyLoop(s, n, lp, a)) && ApplyLoop(s, n, lp, a).store == s.store
  {
    match a
    case Read(_, _) =>
    case Claim(_, _) =>
    case _ =>
  }

  lemma CallAppendsNothing(s: State, l: Lease, a: TaskStep)
    requires TaskEnabled(s, l, a)
    ensures AppendsNothing(s, CallEffect(s, l, a))
  {
    match a
    case AckJob(c) =>
    case DeleteMessage(c) =>
    case _ =>
  }

  lemma TaskAppendsNothing(s: State, l: Lease, a: TaskStep)
    requires TaskEnabled(s, l, a)
    ensures AppendsNothing(s, ApplyTask(s, l, a))
  {
    CallAppendsNothing(s, l, a);
  }

  lemma PcMoveKeepsSubmitInv(s: State, t: State, j: JobId, pc: SubmitPc)
    requires SubmitInv(s) && t.stream.appended == s.stream.appended && t.submits == s.submits[j := pc]
    requires !pc.Accepted? && (j in s.submits ==> s.submits[j] != Saving || pc == Enqueueing)
    requires pc == Saving || pc == Enqueueing ==> j in s.submits ==> s.submits[j] == Saving
    ensures SubmitInv(t)
  {
  }

  lemma AppendKeepsSubmitInv(s: State, t: State, j: JobId, id: MsgId, pc: SubmitPc)
    requires SubmitInv(s) && j in s.submits && s.submits[j] == Enqueueing && id !in s.stream.appended
    requires t.stream.appended == s.stream.appended[id := Job(j)] && t.submits == s.submits[j := pc]
    requires pc == Accepted(id) || pc == Fallback
    ensures SubmitInv(t)
  {
    forall m | m in s.stream.appended ensures s.stream.appended[m] != Job(j) {}
  }

  lemma EnqueueKeepsSubmitInv(s: State, j: JobId, c: Call, trim: set<MsgId>)
    requires s.stream.Valid() && SubmitInv(s) && ApiEnabled(s, j, Enqueue(c, trim)) && c.Took()
    ensures SubmitInv(Enqueued(s, j, c, trim))
  {
    var t, id := Enqueued(s, j, c, trim), s.stream.lastId + 1;
    NextIdIsNew(s.stream);
    EnqueueAppends(s, j, c, trim);
    AppendKeepsSubmitInv(s, t, j, id, if c.Ok? then Accepted(id) else Fallback);
  }

  lemma NextIdIsNew(st: Stream)
    requires st.Valid()
    ensures st.lastId + 1 !in st.appended
  {
  }

  lemma EnqueueAppends(s: State, j: JobId, c: Call, trim: set<MsgId>)
    requires c.Took()
    ensures var t, id := Enqueued(s, j, c, trim), s.stream.lastId + 1;
      && t.stream.appended == s.stream.appended[id := Job(j)]
      && t.submits == s.submits[j := if c.Ok? then Accepted(id) else Fallback]
  {
  }

  lemma ApiKeepsSubmitInv(s: State, j: JobId, a: ApiStep)
    requires s.stream.Valid() && SubmitInv(s) && ApiEnabled(s, j, a)
    ensures SubmitInv(ApplyApi(s, j, a))
  {
    if a.Enqueue? && a.c.Took() {
      EnqueueKeepsSubmitInv(s, j, a.c, a.trim);
    } else {
      var t := ApplyApi(s, j, a);
      PcMoveKeepsSubmitInv(s, t, j, t.submits[j]);
    }
  }

  lemma SubmitFrame(s: State, t: State)
    requires SubmitInv(s) && AppendsNothing(s, t)
    ensures SubmitInv(t)
  {
  }

  lemma JunkKeepsSubmitInv(s: State, trim: set<MsgId>)
    requires s.stream.Valid() && SubmitInv(s)
    ensures SubmitInv(s.(stream := s.stream.XAdd(Malformed, trim)))
  {
    assert s.stream.XAdd(Malformed, trim).appended == s.stream.appended[s.stream.lastId + 1 := Malformed];
  }

  lemma KeepsSubmitInv(s: State, e: Event)
    requires s.stream.Valid() && SubmitInv(s)
    ensures SubmitInv(Step(s, e))
  {
    if Enabled(s, e) {
      match e
      case Api(j, a) => ApiKeepsSubmitInv(s, j, a);
      case Junk(trim) => JunkKeepsSubmitInv(s, trim);
      case Loop(n, lp, a) => LoopAppendsNothing(s, n, lp, a); SubmitFrame(s, ApplyLoop(s, n, lp, a));
      case OfTask(l, a) => TaskAppendsNothing(s, l, a); SubmitFrame(s, ApplyTask(s, l, a));
      case Main(n, a) => SubmitFrame(s, ApplyMain(s, n, a));
    }
  }

  // ---- cancellation -----------------------------------------------------------------------

  ghost predicate CancelOk(s: State, l: Lease)
    requires l in s.tasks
  {
    s.tasks[l].node in s.nodes &&
    var cancelled := s.nodes[s.tasks[l].node].jobCancelled;
    match s.tasks[l].phase
    case Evaluating(saw) => saw ==> cancelled
    case Check(rec) => rec.sawCancel ==> cancelled
    case Save(rec) => !rec.sawCancel
    case _ => true
  }

  /** A run that saw cancellation belongs to a node whose jobCtx is cancelled, and is never saved. */
  ghost predicate CancelInv(s: State) {
    && (forall j :: j in s.store ==> !s.store[j].sawCancel)
    && (forall l :: l in s.tasks ==> CancelOk(s, l))
  }

  /** jobCtx is never un-cancelled. */
  ghost predicate CancelGrows(s: State, t: State) {
    forall n :: n in s.nodes ==> n in t.nodes && (s.nodes[n].jobCancelled ==> t.nodes[n].jobCancelled)
  }

  lemma CancelFrame(s: State, t: State)
    requires CancelInv(s) && CancelGrows(s, t)
    requires forall j :: j in t.store ==> (j in s.store && t.store[j] == s.store[j]) || !t.store[j].sawCancel
    requires forall l :: l in t.tasks ==> (l in s.tasks && t.tasks[l] == s.tasks[l]) || CancelOk(t, l)
    ensures CancelInv(t)
  {
    forall l | l in t.tasks ensures CancelOk(t, l) {
      if l in s.tasks && t.tasks[l] == s.tasks[l] {
        assert CancelOk(s, l);
      }
    }
  }

  lemma ReceiveKeepsCancelInv(s: State, n: NodeId, lp: LoopId, d: Delivery, reply: bool)
    requires CancelInv(s) && n in s.nodes
    ensures CancelInv(Receive(s, n, lp, d, reply))
  {
    CancelFrame(s, Receive(s, n, lp, d, reply));
  }

  lemma AbandonKeepsCancelInv(s: State, n: NodeId, ls: set<Lease>)
    requires CancelInv(s)
    ensures CancelInv(Abandon(s, n, ls))
  {
    CancelFrame(s, Abandon(s, n, ls));
  }

  lemma NodesKeepCancelInv(s: State, n: NodeId, nd: Node)
    requires CancelInv(s) && (n in s.nodes && s.nodes[n].jobCancelled ==> nd.jobCancelled)
    ensures CancelInv(s.(nodes := s.nodes[n := nd]))
  {
    CancelFrame(s, s.(nodes := s.nodes[n := nd]));
  }

  lemma LoopKeepsCancelInv(s: State, n: NodeId, lp: LoopId, a: LoopStep)
    requires CancelInv(s) && LoopEnabled(s, n, lp, a)
    ensures CancelInv(ApplyLoop(s, n, lp, a))
  {
    var t := ApplyLoop(s, n, lp, a);
    match a
    case Read(_, reply) =>
      ReceiveKeepsCancelInv(s, n, lp, DeliveryOf(s, n, a), reply);
    case Claim(_, reply) =>
      ReceiveKeepsCancelInv(s, n, lp, DeliveryOf(s, n, a), reply);
    case GiveUp =>
      AbandonKeepsCancelInv(s, n, s.WaitingFor(n, lp));
      NodesKeepCancelInv(Abandon(s, n, s.WaitingFor(n, lp)), n, t.nodes[n]);
    case Start(l) =>
      CancelFrame(s, t);
    case _ =>
      NodesKeepCancelInv(s, n, t.nodes[n]);
  }

  lemma CallKeepsCancelInv(s: State, l: Lease, a: TaskStep)
    requires CancelInv(s) && TaskEnabled(s, l, a)
    ensures CancelInv(CallEffect(s, l, a))
  {
    assert CancelOk(s, l);
    CancelFrame(s, CallEffect(s, l, a));
  }

  lemma AdvanceKeepsCancelInv(s: State, l: Lease, next: Next)
    requires CancelInv(s) && l in s.tasks && s.tasks[l].node in s.nodes
    requires next.To? ==> CancelOk(Goto(s, l, next.phase), l)
    ensures CancelInv(Advance(s, l, next))
  {
    match next
    case To(ph) =>
      CancelFrame(s, Goto(s, l, ph));
    case Done =>
      var n := s.tasks[l].node;
      AbandonKeepsCancelInv(s, n, {l});
      NodesKeepCancelInv(Abandon(s, n, {l}), n, Finish(s, l).nodes[n]);
  }

  lemma TaskKeepsCancelInv(s: State, l: Lease, a: TaskStep)
    requires CancelInv(s) && TaskEnabled(s, l, a)
    ensures CancelInv(ApplyTask(s, l, a))
  {
    CallKeepsCancelInv(s, l, a);
    assert CancelOk(s, l);
    AdvanceKeepsCancelInv(CallEffect(s, l, a), l, AfterStep(s, l, a));
  }

  lemma MainKeepsCancelInv(s: State, n: NodeId, a: MainStep)
    requires CancelInv(s) && MainEnabled(s, n, a)
    ensures CancelInv(ApplyMain(s, n, a))
  {
    var t := ApplyMain(s, n, a);
    if a.Crash? {
      var ls := s.Live(n) + s.WaitingFor(n, Reader) + s.WaitingFor(n, Reclaimer);
      AbandonKeepsCancelInv(s, n, ls);
      NodesKeepCancelInv(Abandon(s, n, ls), n, t.nodes[n]);
    } else {
      NodesKeepCancelInv(s, n, t.nodes[n]);
    }
  }

  lemma ApiKeepsCancelInv(s: State, j: JobId, a: ApiStep)
    requires CancelInv(s) && ApiEnabled(s, j, a)
    ensures CancelInv(ApplyApi(s, j, a))
  {
    CancelFrame(s, ApplyApi(s, j, a));
  }

  lemma KeepsCancelInv(s: State, e: Event)
    requires CancelInv(s)
    ensures CancelInv(Step(s, e))
  {
    if Enabled(s, e) {
      match e
      case Loop(n, lp, a) => LoopKeepsCancelInv(s, n, lp, a);
      case OfTask(l, a) => TaskKeepsCancelInv(s, l, a);
      case Main(n, a) => MainKeepsCancelInv(s, n, a);
      case Api(j, a) => ApiKeepsCancelInv(s, j, a);
      case Junk(_) =>
    }
  }

  // ---- semaphore, WaitGroup, loops --------------------------------------------------------

  function Holding(pc: LoopPc): int {
    if pc == SlotHeld then 1 else 0
  }

  ghost predicate NodeOk(s: State, n: NodeId)
    requires n in s.nodes
  {
    var nd := s.nodes[n];
    && nd.wg == |s.Live(n)|
    && nd.slots == |s.Live(n)| + Holding(nd.reader) + Holding(nd.reclaimer)
    && nd.slots <= nd.capacity
    && (nd.reader != Dispatch && nd.reader != SlotHeld ==> s.WaitingFor(n, Reader) == {})
    && (nd.reclaimer != Dispatch && nd.reclaimer != SlotHeld ==> s.WaitingFor(n, Reclaimer) == {})
    && (nd.main != Serving ==> nd.reader == Exited && nd.reclaimer == Exited)
    && (nd.jobCancelled ==> nd.main != Serving)
    && (nd.main == Drained || nd.main == Crashed ==> nd.wg == 0)
  }

  ghost predicate NodeInv(s: State) {
    && (forall n :: n in s.nodes ==> NodeOk(s, n))
    && (forall l :: l in s.tasks ==> s.tasks[l].node in s.nodes)
  }

  /** Only node n is touched: the others keep their tasks and their counters. */
  lemma NodeFrame(s: State, t: State, n: NodeId)
    requires NodeInv(s) && n in t.nodes && NodeOk(t, n)
    requires forall k :: k in t.nodes && k != n ==> k in s.nodes && t.nodes[k] == s.nodes[k]
    requires s.nodes.Keys <= t.nodes.Keys
    requires forall l :: l in s.tasks && s.tasks[l].node != n ==> l in t.tasks && t.tasks[l] == s.tasks[l]
    requires forall l :: l in t.tasks && t.tasks[l].node != n ==> l in s.tasks && t.tasks[l] == s.tasks[l]
    ensures NodeInv(t)
  {
    forall k | k in t.nodes && k != n ensures NodeOk(t, k) {
      assert NodeOk(s, k);
      assert t.Live(k) == s.Live(k);
      assert forall lp :: t.WaitingFor(k, lp) == s.WaitingFor(k, lp);
    }
  }

  lemma ReceiveKeepsNodeInv(s: State, n: NodeId, lp: LoopId, d: Delivery, reply: bool)
    requires NodeInv(s) && n in s.nodes && s.nodes[n].Loop(lp) == Call
    requires forall l :: l in s.tasks ==> l !in d.st.Leases(d.batch)
    ensures NodeInv(Receive(s, n, lp, d, reply))
  {
    ReceiveKeepsNodeOk(s, n, lp, d, reply);
    NodeFrame(s, Receive(s, n, lp, d, reply), n);
  }

  lemma ReceiveKeepsNodeOk(s: State, n: NodeId, lp: LoopId, d: Delivery, reply: bool)
    requires n in s.nodes && NodeOk(s, n) && s.nodes[n].Loop(lp) == Call
    requires forall l :: l in s.tasks ==> l !in d.st.Leases(d.batch)
    ensures NodeOk(Receive(s, n, lp, d, reply), n)
  {
    var t := Receive(s, n, lp, d, reply);
    assert t.Live(n) == s.Live(n);
    forall q | q != lp || !reply ensures t.WaitingFor(n, q) == s.WaitingFor(n, q) {}
  }

  lemma GiveUpKeepsNodeOk(s: State, n: NodeId, lp: LoopId)
    requires NodeInv(s) && LoopEnabled(s, n, lp, GiveUp)
    ensures NodeOk(ApplyLoop(s, n, lp, GiveUp), n)
  {
    var t := ApplyLoop(s, n, lp, GiveUp);
    assert NodeOk(s, n);
    assert t.Live(n) == s.Live(n);
    assert t.WaitingFor(n, lp) == {};
    forall q | q != lp ensures t.WaitingFor(n, q) == s.WaitingFor(n, q) {}
  }

  lemma GiveUpKeepsNodeInv(s: State, n: NodeId, lp: LoopId)
    requires NodeInv(s) && LoopEnabled(s, n, lp, GiveUp)
    ensures NodeInv(ApplyLoop(s, n, lp, GiveUp))
  {
    GiveUpKeepsNodeOk(s, n, lp);
    NodeFrame(s, ApplyLoop(s, n, lp, GiveUp), n);
  }

  lemma StartKeepsNodeOk(s: State, n: NodeId, lp: LoopId, l: Lease)
    requires NodeInv(s) && LoopEnabled(s, n, lp, Start(l))
    ensures NodeOk(ApplyLoop(s, n, lp, Start(l)), n)
  {
    var t := ApplyLoop(s, n, lp, Start(l));
    assert NodeOk(s, n);
    assert t.Live(n) == s.Live(n) + {l};
    forall q | q != lp ensures t.WaitingFor(n, q) == s.WaitingFor(n, q) {}
  }

  lemma StartKeepsNodeInv(s: State, n: NodeId, lp: LoopId, l: Lease)
    requires NodeInv(s) && LoopEnabled(s, n, lp, Start(l))
    ensures NodeInv(ApplyLoop(s, n, lp, Start(l)))
  {
    StartKeepsNodeOk(s, n, lp, l);
    NodeFrame(s, ApplyLoop(s, n, lp, Start(l)), n);
  }

  lemma PcStepKeepsNodeInv(s: State, n: NodeId, lp: LoopId, a: LoopStep)
    requires NodeInv(s) && LoopEnabled(s, n, lp, a)
    requires a.Tick? || a.Exit? || a.NoReply? || a.BatchDone? || a.Acquire?
    ensures NodeInv(ApplyLoop(s, n, lp, a))
  {
    var t := ApplyLoop(s, n, lp, a);
    assert NodeOk(s, n);
    assert t.Live(n) == s.Live(n);
    forall q ensures t.WaitingFor(n, q) == s.WaitingFor(n, q) {}
    NodeFrame(s, t, n);
  }

  lemma DeliveryKeepsNodeInv(s: State, n: NodeId, lp: LoopId, a: LoopStep)
    requires LeaseInv(s) && NodeInv(s) && LoopEnabled(s, n, lp, a) && (a.Read? || a.Claim?)
    ensures NodeInv(ApplyLoop(s, n, lp, a))
  {
    DeliversNew(s, n, lp, a);
    LeasesAreNew(s, n, DeliveryOf(s, n, a));
    ReceiveKeepsNodeInv(s, n, lp, DeliveryOf(s, n, a), a.reply);
  }

  lemma LoopKeepsNodeInv(s: State, n: NodeId, lp: LoopId, a: LoopStep)
    requires LeaseInv(s) && NodeInv(s) && LoopEnabled(s, n, lp, a)
    ensures NodeInv(ApplyLoop(s, n, lp, a))
  {
    if a.Read? || a.Claim? {
      DeliveryKeepsNodeInv(s, n, lp, a);
    } else if a.GiveUp? {
      GiveUpKeepsNodeInv(s, n, lp);
    } else if a.Start? {
      StartKeepsNodeInv(s, n, lp, a.lease);
    } else {
      PcStepKeepsNodeInv(s, n, lp, a);
    }
  }

  lemma TasksAndNodesFrame(s: State, t: State)
    requires NodeInv(s) && t.tasks == s.tasks && t.nodes == s.nodes
    ensures NodeInv(t)
  {
    forall n | n in t.nodes ensures NodeOk(t, n) {
      assert NodeOk(s, n) && t.Live(n) == s.Live(n);
      forall lp ensures t.WaitingFor(n, lp) == s.WaitingFor(n, lp) {}
    }
  }

  lemma GotoKeepsNodeInv(s: State, l: Lease, ph: Phase)
    requires NodeInv(s) && l in s.tasks && !s.tasks[l].phase.Waiting? && !ph.Waiting?
    ensures NodeInv(Goto(s, l, ph))
  {
    var t, n := Goto(s, l, ph), s.tasks[l].node;
    assert NodeOk(s, n);
    assert t.Live(n) == s.Live(n);
    forall q ensures t.WaitingFor(n, q) == s.WaitingFor(n, q) {}
    NodeFrame(s, t, n);
  }

  lemma FinishKeepsNodeOk(s: State, l: Lease)
    requires NodeInv(s) && l in s.tasks && !s.tasks[l].phase.Waiting?
    ensures s.tasks[l].node in s.nodes && NodeOk(Finish(s, l), s.tasks[l].node)
  {
    var n := s.tasks[l].node;
    var t := Finish(s, l);
    assert NodeOk(s, n);
    assert l in s.Live(n) && t.Live(n) == s.Live(n) - {l};
    forall q ensures t.WaitingFor(n, q) == s.WaitingFor(n, q) {}
    assert s.nodes[n].main != Drained && s.nodes[n].main != Crashed;
  }

  lemma FinishKeepsNodeInv(s: State, l: Lease)
    requires NodeInv(s) && l in s.tasks && !s.tasks[l].phase.Waiting?
    ensures s.tasks[l].node in s.nodes && NodeInv(Finish(s, l))
  {
    FinishKeepsNodeOk(s, l);
    NodeFrame(s, Finish(s, l), s.tasks[l].node);
  }

  lemma AdvanceKeepsNodeInv(s: State, l: Lease, next: Next)
    requires NodeInv(s) && l in s.tasks && s.tasks[l].node in s.nodes && !s.tasks[l].phase.Waiting?
    requires next.To? ==> !next.phase.Waiting?
    ensures NodeInv(Advance(s, l, next))
  {
    match next
    case To(ph) => GotoKeepsNodeInv(s, l, ph);
    case Done => FinishKeepsNodeInv(s, l);
  }

  lemma TaskKeepsNodeInv(s: State, l: Lease, a: TaskStep)
    requires NodeInv(s) && TaskEnabled(s, l, a)
    ensures NodeInv(ApplyTask(s, l, a))
  {
    TasksAndNodesFrame(s, CallEffect(s, l, a));
    AdvanceKeepsNodeInv(CallEffect(s, l, a), l, AfterStep(s, l, a));
  }

  lemma CrashRemovesItsTasks(s: State, n: NodeId)
    requires MainEnabled(s, n, Crash)
    ensures forall l :: l in ApplyMain(s, n, Crash).tasks <==> l in s.tasks && s.tasks[l].node != n
  {
    forall l | l in s.tasks && s.tasks[l].node == n
      ensures l in s.Live(n) + s.WaitingFor(n, Reader) + s.WaitingFor(n, Reclaimer)
    {
      var task := s.tasks[l];
      match task.phase
      case Waiting(lp) =>
        assert task == Task(n, Waiting(lp));
        assert lp == Reader || lp == Reclaimer;
      case _ => assert l in s.Live(n);
    }
  }

  lemma CrashKeepsNodeInv(s: State, n: NodeId)
    requires NodeInv(s) && MainEnabled(s, n, Crash)
    ensures NodeInv(ApplyMain(s, n, Crash))
  {
    var t := ApplyMain(s, n, Crash);
    CrashRemovesItsTasks(s, n);
    assert t.Live(n) == {} && t.WaitingFor(n, Reader) == {} && t.WaitingFor(n, Reclaimer) == {};
    NodeFrame(s, t, n);
  }

  lemma JoinKeepsNodeInv(s: State, n: NodeId, capacity: int)
    requires NodeInv(s) && MainEnabled(s, n, Join(capacity))
    ensures NodeInv(ApplyMain(s, n, Join(capacity)))
  {
    var t := ApplyMain(s, n, Join(capacity));
    assert t.Live(n) == {} && t.WaitingFor(n, Reader) == {} && t.WaitingFor(n, Reclaimer) == {};
    NodeFrame(s, t, n);
  }

  lemma MainKeepsNodeInv(s: State, n: NodeId, a: MainStep)
    requires NodeInv(s) && MainEnabled(s, n, a)
    ensures NodeInv(ApplyMain(s, n, a))
  {
    match a
    case Crash => CrashKeepsNodeInv(s, n);
    case Join(capacity) => JoinKeepsNodeInv(s, n, capacity);
    case _ =>
      var t := ApplyMain(s, n, a);
      assert NodeOk(s, n);
      assert t.Live(n) == s.Live(n);
      forall q ensures t.WaitingFor(n, q) == s.WaitingFor(n, q) {}
      NodeFrame(s, t, n);
  }

  lemma ApiKeepsNodeInv(s: State, j: JobId, a: ApiStep)
    requires NodeInv(s) && ApiEnabled(s, j, a)
    ensures NodeInv(ApplyApi(s, j, a))
  {
    TasksAndNodesFrame(s, ApplyApi(s, j, a));
  }

  lemma KeepsNodeInv(s: State, e: Event)
    requires LeaseInv(s) && NodeInv(s)
    ensures NodeInv(Step(s, e))
  {
    if Enabled(s, e) {
      match e
      case Loop(n, lp, a) => LoopKeepsNodeInv(s, n, lp, a);
      case OfTask(l, a) => TaskKeepsNodeInv(s, l, a);
      case Main(n, a) => MainKeepsNodeInv(s, n, a);
      case Api(j, a) => ApiKeepsNodeInv(s, j, a);
      case Junk(trim) => TasksAndNodesFrame(s, s.(stream := s.stream.XAdd(Malformed, trim)));
    }
  }

  // ---- all of them, in every reachable state ----------------------------------------------

  ghost predicate Inv(s: State) {
    LeaseInv(s) && SubmitInv(s) && CancelInv(s) && NodeInv(s)
  }

  lemma KeepsLeaseInv(s: State, e: Event)
    requires LeaseInv(s)
    ensures LeaseInv(Step(s, e)) && Grows(s, Step(s, e))
  {
    if Enabled(s, e) {
      match e
      case Api(j, a) => ApiKeepsLeaseInv(s, j, a);
      case Junk(trim) => XAddKeepsLeaseInv(s, Malformed, trim);
      case Loop(n, lp, a) => LoopKeepsLeaseInv(s, n, lp, a);
      case OfTask(l, a) => TaskKeepsLeaseInv(s, l, a);
      case Main(n, a) => MainKeepsLeaseInv(s, n, a);
    }
  }

  lemma KeepsInv(s: State, e: Event)
    requires Inv(s)
    ensures Inv(Step(s, e)) && Grows(s, Step(s, e))
  {
    KeepsLeaseInv(s, e);
    KeepsSubmitInv(s, e);
    KeepsCancelInv(s, e);
    KeepsNodeInv(s, e);
  }

  /** Every reachable state of every run satisfies the invariants. */
  lemma {:induction false} Reachable(es: seq<Event>)
    ensures Inv(Exec(es))
  {
    if es != [] {
      Reachable(es[..|es| - 1]);
      KeepsInv(Exec(es[..|es| - 1]), es[|es| - 1]);
    }
  }

  lemma ExecLast(es: seq<Event>, fs: seq<Event>)
    requires fs != []
    ensures Exec(es + fs) == Step(Exec(es + fs[..|fs| - 1]), fs[|fs| - 1])
  {
    LastSplits(es, fs);
    ExecNext(es + fs, es + fs[..|fs| - 1], fs[|fs| - 1]);
  }

  lemma LastSplits(es: seq<Event>, fs: seq<Event>)
    requires fs != []
    ensures es + fs == (es + fs[..|fs| - 1]) + [fs[|fs| - 1]]
  {
  }

  lemma ExecNext(all: seq<Event>, before: seq<Event>, last: Event)
    requires all == before + [last]
    ensures Exec(all) == Step(Exec(before), last)
  {
    assert all[..|all| - 1] == before && all[|all| - 1] == last;
  }
}
