/** Invariants of the job protocol, each kept by every event. */
module ProtocolInvariants {
  import opened Records
  import opened RedisStream
  import opened Protocol

  /** The message's job had a final record saved, or the message went to the dead-letter stream. */
  ghost predicate Settled(s: State, m: MsgId) {
    m in s.dlq || (m in s.stream.appended && s.stream.appended[m].Job? && s.stream.appended[m].id in s.finals)
  }

  /** Lease l of node n is current, or a later delivery, an acknowledgement or trimming overtook it. */
  ghost predicate Held(s: State, l: Lease, n: NodeId) {
    || (l.msg in s.stream.pending && s.stream.pending[l.msg] == n && s.stream.Deliveries(l.msg) == l.delivery)
    || l.delivery < s.stream.Deliveries(l.msg)
    || l.msg in s.stream.acks
    || l.msg in s.stream.trimmed
  }

  ghost predicate PhaseOk(s: State, l: Lease, ph: Phase) {
    match ph
    case Mark => s.PayloadOf(l).Job?
    case Evaluating(_) => s.PayloadOf(l).Job?
    case Check(rec) => s.PayloadOf(l).Job? && rec.status.Final()
    case Save(rec) => s.PayloadOf(l).Job? && rec.status.Final()
    case Ack => Settled(s, l.msg)
    case Delete => Settled(s, l.msg) && (l.msg in s.stream.acks || l.msg in s.stream.trimmed)
    case _ => true
  }

  ghost predicate TaskOk(s: State, l: Lease) {
    && l.msg in s.stream.delivered
    && l.delivery <= s.stream.delivered[l.msg]
    && (l in s.tasks ==> s.tasks[l].node in s.nodes && Held(s, l, s.tasks[l].node) && PhaseOk(s, l, s.tasks[l].phase))
    && (l in s.released ==>
          l !in s.tasks && Held(s, l, s.released[l]) && !(l.msg in s.stream.acks && s.stream.acks[l.msg] == l))
  }

  /** Messages, leases and tasks agree. */
  ghost predicate LeaseInv(s: State) {
    && s.stream.Valid()
    && (forall m :: m in s.stream.acks ==> Settled(s, m))
    && (forall l :: l in s.tasks || l in s.released ==> TaskOk(s, l))
  }

  /** What every event keeps: histories only grow. */
  ghost predicate Grows(s: State, t: State) {
    && s.stream.EvolvesTo(t.stream)
    && s.finals <= t.finals && s.dlq <= t.dlq && s.nodes.Keys <= t.nodes.Keys
  }

  lemma HeldStays(s: State, t: State, l: Lease, n: NodeId)
    requires Grows(s, t) && s.stream.Valid() && l.msg in s.stream.delivered
    requires l.delivery <= s.stream.delivered[l.msg] && Held(s, l, n)
    ensures Held(t, l, n)
  {
  }

  lemma PhaseStays(s: State, t: State, l: Lease, ph: Phase)
    requires Grows(s, t) && s.stream.Valid() && l.msg in s.stream.delivered && PhaseOk(s, l, ph)
    ensures PhaseOk(t, l, ph)
  {
    assert l.msg in s.stream.appended;
  }

  /** A lease of t that s did not have in this form. */
  ghost predicate NewTask(t: State, l: Lease) {
    && l in t.tasks && l !in t.released
    && l.msg in t.stream.delivered && l.delivery <= t.stream.delivered[l.msg]
    && t.tasks[l].node in t.nodes && Held(t, l, t.tasks[l].node) && PhaseOk(t, l, t.tasks[l].phase)
  }

  ghost predicate NewRelease(s: State, t: State, l: Lease) {
    && l in s.tasks && l !in t.tasks && l in t.released && t.released[l] == s.tasks[l].node
    && !(l.msg in t.stream.acks && t.stream.acks[l.msg] == l)
  }

  /** Enough to look at what an event changed. */
  lemma Rebuild(s: State, t: State)
    requires LeaseInv(s) && Grows(s, t) && t.stream.Valid()
    requires forall m :: m in t.stream.acks && m !in s.stream.acks ==> Settled(t, m) && t.stream.acks[m] in s.tasks
    requires forall l :: l in t.tasks ==> (l in s.tasks && t.tasks[l] == s.tasks[l]) || NewTask(t, l)
    requires forall l :: l in t.released ==>
      (l in s.released && t.released[l] == s.released[l] && l !in t.tasks) || NewRelease(s, t, l)
    ensures LeaseInv(t)
  {
    forall m | m in t.stream.acks ensures Settled(t, m) {
      if m in s.stream.acks {
        assert Settled(s, m);
      }
    }
    forall l | l in t.tasks || l in t.released ensures TaskOk(t, l) {
      if l in t.tasks && l in s.tasks && t.tasks[l] == s.tasks[l] {
        assert TaskOk(s, l);
        HeldStays(s, t, l, s.tasks[l].node);
        PhaseStays(s, t, l, s.tasks[l].phase);
      }
      if l in t.released && l in s.released && l !in t.tasks {
        assert TaskOk(s, l);
        HeldStays(s, t, l, s.released[l]);
      } else if l in t.released {
        assert TaskOk(s, l);
        HeldStays(s, t, l, s.tasks[l].node);
      }
    }
  }

  lemma PutKeepsLeaseInv(s: State, j: JobId, r: Record, c: Call)
    requires LeaseInv(s)
    ensures LeaseInv(Put(s, j, r, c)) && Grows(s, Put(s, j, r, c))
  {
    Rebuild(s, Put(s, j, r, c));
  }

  lemma XAddKeepsLeaseInv(s: State, p: Payload, trim: set<MsgId>)
    requires LeaseInv(s) && trim <= s.stream.entries.Keys + {s.stream.lastId + 1}
    ensures var t := s.(stream := s.stream.XAdd(p, trim)); LeaseInv(t) && Grows(s, t)
  {
    XAddValid(s.stream, p, trim);
    Rebuild(s, s.(stream := s.stream.XAdd(p, trim)));
  }

  lemma SubmitsKeepLeaseInv(s: State, submits: map<JobId, SubmitPc>)
    requires LeaseInv(s)
    ensures LeaseInv(s.(submits := submits)) && Grows(s, s.(submits := submits))
  {
    Rebuild(s, s.(submits := submits));
  }

  lemma ApiKeepsLeaseInv(s: State, j: JobId, a: ApiStep)
    requires LeaseInv(s) && ApiEnabled(s, j, a)
    ensures LeaseInv(ApplyApi(s, j, a)) && Grows(s, ApplyApi(s, j, a))
  {
    var t := match a
      case SaveQueued(c) => Put(s, j, Record(Queued, false), c)
      case SaveLocal(status, c) => Put(s, j, Record(status, false), c)
      case SaveRejected(c) => Put(s, j, Record(Failed, false), c)
      case Enqueue(c, trim) => if c.Took() then s.(stream := s.stream.XAdd(Job(j), trim)) else s
      case _ => s;
    match a {
      case SaveQueued(c) => PutKeepsLeaseInv(s, j, Record(Queued, false), c);
      case SaveLocal(status, c) => PutKeepsLeaseInv(s, j, Record(status, false), c);
      case SaveRejected(c) => PutKeepsLeaseInv(s, j, Record(Failed, false), c);
      case Enqueue(c, trim) => if c.Took() { XAddKeepsLeaseInv(s, Job(j), trim); }
      case _ =>
    }
    SubmitsKeepLeaseInv(t, ApplyApi(s, j, a).submits);
  }

  /** What every delivery by node n does: it hands out messages that nobody acknowledged, each under
      a new delivery count, and changes nothing else. */
  ghost predicate IsDelivery(st: Stream, n: NodeId, d: Delivery) {
    && d.st.Valid() && st.EvolvesTo(d.st) && d.st.acks == st.acks && d.st.appended == st.appended
    && forall m :: m in d.batch ==>
                     && m in d.st.pending && d.st.pending[m] == n && m !in st.acks
                     && st.Deliveries(m) < d.st.Deliveries(m)
  }

  lemma ReadDeliversNew(st: Stream, n: NodeId, upto: MsgId)
    requires st.Valid() && upto in st.entries && st.lastDelivered < upto
    ensures IsDelivery(st, n, Delivery(st.XReadGroup(n, upto), st.ReadBatch(upto)))
  {
    XReadGroupValid(st, n, upto);
  }

  lemma ClaimDeliversNew(st: Stream, n: NodeId, ids: set<MsgId>)
    requires st.Valid() && ids <= st.pending.Keys
    ensures IsDelivery(st, n, Delivery(st.XAutoClaim(n, ids), st.Claimable(ids)))
  {
    XAutoClaimValid(st, n, ids);
  }

  lemma DeliversNew(s: State, n: NodeId, lp: LoopId, a: LoopStep)
    requires s.stream.Valid() && LoopEnabled(s, n, lp, a) && (a.Read? || a.Claim?)
    ensures IsDelivery(s.stream, n, DeliveryOf(s, n, a))
  {
    if a.Read? {
      ReadDeliversNew(s.stream, n, a.upto);
    } else {
      ScanTakesTheFirst(s.stream, a.cutoff);
      ClaimDeliversNew(s.stream, n, s.stream.Scan(a.cutoff));
    }
  }

  lemma LeasesAreNew(s: State, n: NodeId, d: Delivery)
    requires LeaseInv(s) && IsDelivery(s.stream, n, d)
    ensures forall l :: l in s.tasks || l in s.released ==> l !in d.st.Leases(d.batch)
  {
    forall l | l in s.tasks || l in s.released ensures l !in d.st.Leases(d.batch) {
      assert TaskOk(s, l);
    }
  }

  /** A delivery creates leases newer than every lease there is. */
  lemma ReceiveKeepsLeaseInv(s: State, n: NodeId, lp: LoopId, d: Delivery, reply: bool)
    requires LeaseInv(s) && n in s.nodes && IsDelivery(s.stream, n, d)
    ensures LeaseInv(Receive(s, n, lp, d, reply)) && Grows(s, Receive(s, n, lp, d, reply))
  {
    var t := Receive(s, n, lp, d, reply);
    LeasesAreNew(s, n, d);
    if reply {
      forall l | l in d.st.Leases(d.batch) ensures NewTask(t, l) {
        assert l.msg in d.batch && Held(t, l, n);
      }
    }
    Rebuild(s, t);
  }

  lemma AbandonKeepsLeaseInv(s: State, n: NodeId, ls: set<Lease>)
    requires LeaseInv(s) && forall l :: l in ls ==> l in s.tasks && s.tasks[l].node == n
    ensures LeaseInv(Abandon(s, n, ls)) && Grows(s, Abandon(s, n, ls))
  {
    var t := Abandon(s, n, ls);
    forall l | l in t.released && l in s.released ensures l !in s.tasks {
      assert TaskOk(s, l);
    }
    Rebuild(s, t);
  }

  lemma NodesKeepLeaseInv(s: State, nodes: map<NodeId, Node>)
    requires LeaseInv(s) && s.nodes.Keys <= nodes.Keys
    ensures LeaseInv(s.(nodes := nodes)) && Grows(s, s.(nodes := nodes))
  {
    Rebuild(s, s.(nodes := nodes));
  }

  lemma StartKeepsLeaseInv(s: State, n: NodeId, lp: LoopId, l: Lease)
    requires LeaseInv(s) && LoopEnabled(s, n, lp, Start(l))
    ensures LeaseInv(ApplyLoop(s, n, lp, Start(l))) && Grows(s, ApplyLoop(s, n, lp, Start(l)))
  {
    assert TaskOk(s, l);
    Rebuild(s, ApplyLoop(s, n, lp, Start(l)));
  }

  lemma GiveUpKeepsLeaseInv(s: State, n: NodeId, lp: LoopId)
    requires LeaseInv(s) && LoopEnabled(s, n, lp, GiveUp)
    ensures LeaseInv(ApplyLoop(s, n, lp, GiveUp)) && Grows(s, ApplyLoop(s, n, lp, GiveUp))
  {
    AbandonKeepsLeaseInv(s, n, s.WaitingFor(n, lp));
    NodesKeepLeaseInv(Abandon(s, n, s.WaitingFor(n, lp)), ApplyLoop(s, n, lp, GiveUp).nodes);
  }

  lemma LoopKeepsLeaseInv(s: State, n: NodeId, lp: LoopId, a: LoopStep)
    requires LeaseInv(s) && LoopEnabled(s, n, lp, a)
    ensures LeaseInv(ApplyLoop(s, n, lp, a)) && Grows(s, ApplyLoop(s, n, lp, a))
  {
    if a.Read? || a.Claim? {
      DeliversNew(s, n, lp, a);
      ReceiveKeepsLeaseInv(s, n, lp, DeliveryOf(s, n, a), a.reply);
    } else if a.GiveUp? {
      GiveUpKeepsLeaseInv(s, n, lp);
    } else if a.Start? {
      StartKeepsLeaseInv(s, n, lp, a.lease);
    } else {
      NodesKeepLeaseInv(s, ApplyLoop(s, n, lp, a).nodes);
    }
  }

  lemma GotoKeepsLeaseInv(s: State, l: Lease, ph: Phase)
    requires LeaseInv(s) && l in s.tasks && PhaseOk(s, l, ph)
    ensures LeaseInv(Goto(s, l, ph)) && Grows(s, Goto(s, l, ph))
  {
    assert TaskOk(s, l);
    Rebuild(s, Goto(s, l, ph));
  }

  lemma FinishKeepsLeaseInv(s: State, l: Lease)
    requires LeaseInv(s) && l in s.tasks && s.tasks[l].node in s.nodes
    ensures LeaseInv(Finish(s, l)) && Grows(s, Finish(s, l))
  {
    var n := s.tasks[l].node;
    AbandonKeepsLeaseInv(s, n, {l});
    NodesKeepLeaseInv(Abandon(s, n, {l}), Finish(s, l).nodes);
  }

  lemma DlqKeepsLeaseInv(s: State, m: MsgId)
    requires LeaseInv(s)
    ensures var t := s.(dlq := s.dlq + {m}); LeaseInv(t) && Grows(s, t)
  {
    Rebuild(s, s.(dlq := s.dlq + {m}));
  }

  lemma AckKeepsLeaseInv(s: State, l: Lease)
    requires LeaseInv(s) && l in s.tasks && Settled(s, l.msg)
    ensures var t := s.(stream := s.stream.XAck(l)); LeaseInv(t) && Grows(s, t)
  {
    XAckValid(s.stream, l);
    assert TaskOk(s, l);
    Rebuild(s, s.(stream := s.stream.XAck(l)));
  }

  lemma DelKeepsLeaseInv(s: State, m: MsgId)
    requires LeaseInv(s) && (m in s.stream.acks || m in s.stream.trimmed)
    ensures var t := s.(stream := s.stream.XDel(m)); LeaseInv(t) && Grows(s, t)
  {
    XDelValid(s.stream, m);
    Rebuild(s, s.(stream := s.stream.XDel(m)));
  }

  lemma SaveCallKeepsLeaseInv(s: State, l: Lease, a: TaskStep)
    requires LeaseInv(s) && TaskEnabled(s, l, a) && (a.MarkRunning? || a.SaveResult?)
    ensures LeaseInv(CallEffect(s, l, a)) && Grows(s, CallEffect(s, l, a))
  {
    var r := if a.MarkRunning? then Record(Running, false) else s.tasks[l].phase.rec;
    PutKeepsLeaseInv(s, s.PayloadOf(l).id, r, a.c);
  }

  lemma AckCallKeepsLeaseInv(s: State, l: Lease, c: Call)
    requires LeaseInv(s) && TaskEnabled(s, l, AckJob(c))
    ensures LeaseInv(CallEffect(s, l, AckJob(c))) && Grows(s, CallEffect(s, l, AckJob(c)))
  {
    assert TaskOk(s, l);
    AckKeepsLeaseInv(s, l);
  }

  lemma DeleteCallKeepsLeaseInv(s: State, l: Lease, c: Call)
    requires LeaseInv(s) && TaskEnabled(s, l, DeleteMessage(c))
    ensures LeaseInv(CallEffect(s, l, DeleteMessage(c))) && Grows(s, CallEffect(s, l, DeleteMessage(c)))
  {
    assert TaskOk(s, l);
    DelKeepsLeaseInv(s, l.msg);
  }

  lemma CallKeepsLeaseInv(s: State, l: Lease, a: TaskStep)
    requires LeaseInv(s) && TaskEnabled(s, l, a)
    ensures LeaseInv(CallEffect(s, l, a)) && Grows(s, CallEffect(s, l, a))
  {
    if a.MarkRunning? || a.SaveResult? {
      SaveCallKeepsLeaseInv(s, l, a);
    } else if a.AckJob? {
      AckCallKeepsLeaseInv(s, l, a.c);
    } else if a.DeleteMessage? {
      DeleteCallKeepsLeaseInv(s, l, a.c);
    } else if a.SendToDLQ? {
      DlqKeepsLeaseInv(s, l.msg);
    }
  }

  /** The facts a phase relies on hold when the goroutine enters it. */
  lemma NextPhaseOk(s: State, l: Lease, a: TaskStep)
    requires LeaseInv(s) && TaskEnabled(s, l, a) && AfterStep(s, l, a).To?
    ensures PhaseOk(CallEffect(s, l, a), l, AfterStep(s, l, a).phase)
  {
    assert TaskOk(s, l);
    assert l.msg in s.stream.appended;
  }

  lemma AdvanceKeepsLeaseInv(s: State, l: Lease, next: Next)
    requires LeaseInv(s) && l in s.tasks && s.tasks[l].node in s.nodes && (next.To? ==> PhaseOk(s, l, next.phase))
    ensures LeaseInv(Advance(s, l, next)) && Grows(s, Advance(s, l, next))
  {
    match next
    case To(ph) => GotoKeepsLeaseInv(s, l, ph);
    case Done => FinishKeepsLeaseInv(s, l);
  }

  lemma TaskKeepsLeaseInv(s: State, l: Lease, a: TaskStep)
    requires LeaseInv(s) && TaskEnabled(s, l, a)
    ensures LeaseInv(ApplyTask(s, l, a)) && Grows(s, ApplyTask(s, l, a))
  {
    CallKeepsLeaseInv(s, l, a);
    if AfterStep(s, l, a).To? { NextPhaseOk(s, l, a); }
    AdvanceKeepsLeaseInv(CallEffect(s, l, a), l, AfterStep(s, l, a));
    GrowsTransitive(s, CallEffect(s, l, a), ApplyTask(s, l, a));
  }

  lemma GrowsTransitive(s: State, t: State, u: State)
    requires s.stream.Valid() && t.stream.Valid() && Grows(s, t) && Grows(t, u)
    ensures Grows(s, u)
  {
    EvolvesTransitive(s.stream, t.stream, u.stream);
  }

  lemma CrashKeepsLeaseInv(s: State, n: NodeId)
    requires LeaseInv(s) && MainEnabled(s, n, Crash)
    ensures LeaseInv(ApplyMain(s, n, Crash)) && Grows(s, ApplyMain(s, n, Crash))
  {
    var ls := s.Live(n) + s.WaitingFor(n, Reader) + s.WaitingFor(n, Reclaimer);
    AbandonKeepsLeaseInv(s, n, ls);
    NodesKeepLeaseInv(Abandon(s, n, ls), ApplyMain(s, n, Crash).nodes);
  }

  lemma MainKeepsLeaseInv(s: State, n: NodeId, a: MainStep)
    requires LeaseInv(s) && MainEnabled(s, n, a)
    ensures LeaseInv(ApplyMain(s, n, a)) && Grows(s, ApplyMain(s, n, a))
  {
    if a.Crash? {
      CrashKeepsLeaseInv(s, n);
    } else {
      NodesKeepLeaseInv(s, ApplyMain(s, n, a).nodes);
    }
  }
}
