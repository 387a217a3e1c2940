/** When an acknowledged message's stored record is final, and stays final. */
module Durability {
  import opened Records
  import opened RedisStream
  import opened Protocol
  import opened ProtocolInvariants
  import opened NodeInvariants

  /** The stored record of m's job is completed or failed, or m is dead-lettered. */
  ghost predicate Durable(s: State, m: MsgId) {
    m in s.dlq ||
    (m in s.stream.appended && s.stream.appended[m].Job? &&
     var j := s.stream.appended[m].id; j in s.store && s.store[j].status.Final())
  }

  /** ACKNOWLEDGED, or about to be by a worker that has saved its result. */
  ghost predicate Committed(s: State, m: MsgId) {
    m in s.stream.acks || exists l :: l in s.tasks && l.msg == m && s.tasks[l].phase.Ack?
  }

  /** Every acknowledged message has a final record. */
  ghost predicate AckedIsFinal(s: State) {
    forall m :: m in s.stream.acks ==> Durable(s, m)
  }

  /** The same for messages one successful XACK away from being acknowledged. */
  ghost predicate CommittedIsFinal(s: State) {
    && AckedIsFinal(s)
    && forall l :: l in s.tasks && s.tasks[l].phase.Ack? ==> Durable(s, l.msg)
  }

  /** Event e makes a second holder of a committed message write "running" over its result. */
  ghost predicate Overwrites(s: State, e: Event) {
    && Enabled(s, e) && e.OfTask? && e.task.MarkRunning? && e.task.c.Took()
    && Committed(s, e.lease.msg) && e.lease.msg !in s.dlq
  }

  // ---- one event --------------------------------------------------------------------------

  lemma Frame(s: State, t: State)
    requires CommittedIsFinal(s)
    requires forall m :: Durable(s, m) && Committed(s, m) ==> Durable(t, m)
    requires forall m :: m in t.stream.acks && m !in s.stream.acks ==> Durable(t, m)
    requires forall l :: l in t.tasks && t.tasks[l].phase.Ack? ==>
      (l in s.tasks && s.tasks[l].phase.Ack?) || Durable(t, l.msg)
    ensures CommittedIsFinal(t)
  {
    forall m | m in t.stream.acks ensures Durable(t, m) {
      if m in s.stream.acks {
        assert Committed(s, m);
      }
    }
    forall l | l in t.tasks && t.tasks[l].phase.Ack? ensures Durable(t, l.msg) {
      if l in s.tasks && s.tasks[l].phase.Ack? {
        assert Committed(s, l.msg);
      }
    }
  }

  /** Records and dead letters that survive from s to t. */
  ghost predicate KeepsFinals(s: State, t: State) {
    && s.dlq <= t.dlq
    && (forall m :: m in s.stream.appended ==> m in t.stream.appended && t.stream.appended[m] == s.stream.appended[m])
    && (forall j :: j in s.store && s.store[j].status.Final() ==> j in t.store && t.store[j].status.Final())
  }

  lemma KeepsDurable(s: State, t: State, m: MsgId)
    requires KeepsFinals(s, t) && Durable(s, m)
    ensures Durable(t, m)
  {
  }

  lemma KeptFinalsFrame(s: State, t: State)
    requires CommittedIsFinal(s) && KeepsFinals(s, t)
    requires t.stream.acks == s.stream.acks
    requires forall l :: l in t.tasks && t.tasks[l].phase.Ack? ==>
      (l in s.tasks && s.tasks[l].phase.Ack?) || Durable(t, l.msg)
    ensures CommittedIsFinal(t)
  {
    forall m | Durable(s, m) ensures Durable(t, m) { KeepsDurable(s, t, m); }
    Frame(s, t);
  }

  lemma PutStaysFinal(s: State, j: JobId, r: Record, c: Call)
    requires CommittedIsFinal(s) && r.status.Final()
    ensures CommittedIsFinal(Put(s, j, r, c))
  {
    KeptFinalsFrame(s, Put(s, j, r, c));
  }

  /** The queued record is written before the job's message exists. */
  lemma SaveQueuedStaysFinal(s: State, j: JobId, c: Call)
    requires Inv(s) && CommittedIsFinal(s) && ApiEnabled(s, j, SaveQueued(c))
    ensures CommittedIsFinal(Put(s, j, Record(Queued, false), c))
  {
    var t := Put(s, j, Record(Queued, false), c);
    forall m | Durable(s, m) ensures Durable(t, m) {
      assert m in s.stream.appended && s.stream.appended[m].Job? ==> s.stream.appended[m].id != j;
    }
    Frame(s, t);
  }

  lemma XAddStaysFinal(s: State, p: Payload, trim: set<MsgId>)
    requires s.stream.Valid() && CommittedIsFinal(s)
    ensures CommittedIsFinal(s.(stream := s.stream.XAdd(p, trim)))
  {
    KeptFinalsFrame(s, s.(stream := s.stream.XAdd(p, trim)));
  }

  lemma ApiStaysFinal(s: State, j: JobId, a: ApiStep)
    requires Inv(s) && CommittedIsFinal(s) && ApiEnabled(s, j, a)
    ensures CommittedIsFinal(ApplyApi(s, j, a))
  {
    match a {
      case SaveQueued(c) => SaveQueuedStaysFinal(s, j, c);
      case SaveLocal(status, c) => PutStaysFinal(s, j, Record(status, false), c);
      case SaveRejected(c) => PutStaysFinal(s, j, Record(Failed, false), c);
      case Enqueue(c, trim) => XAddStaysFinal(s, Job(j), trim);
      case _ =>
    }
    var t := match a
      case SaveQueued(c) => Put(s, j, Record(Queued, false), c)
      case SaveLocal(status, c) => Put(s, j, Record(status, false), c)
      case SaveRejected(c) => Put(s, j, Record(Failed, false), c)
      case Enqueue(c, trim) => if c.Took() then s.(stream := s.stream.XAdd(Job(j), trim)) else s
      case _ => s;
    KeptFinalsFrame(t, ApplyApi(s, j, a));
  }

  lemma LoopStaysFinal(s: State, n: NodeId, lp: LoopId, a: LoopStep)
    requires Inv(s) && CommittedIsFinal(s) && LoopEnabled(s, n, lp, a)
    ensures CommittedIsFinal(ApplyLoop(s, n, lp, a))
  {
    LoopAppendsNothing(s, n, lp, a);
    LoopAcksNothing(s, n, lp, a);
    KeptFinalsFrame(s, ApplyLoop(s, n, lp, a));
  }

  /** A loop neither acknowledges a message nor moves a task to the point of acknowledging. */
  ghost predicate AcksNothing(s: State, t: State) {
    && t.stream.acks == s.stream.acks && t.dlq == s.dlq
    && forall l :: l in t.tasks && t.tasks[l].phase.Ack? ==> l in s.tasks && s.tasks[l].phase.Ack?
  }

  lemma ReceiveAcksNothing(s: State, n: NodeId, lp: LoopId, d: Delivery, reply: bool)
    requires n in s.nodes && d.st.acks == s.stream.acks
    ensures AcksNothing(s, Receive(s, n, lp, d, reply))
  {
  }

  lemma LoopAcksNothing(s: State, n: NodeId, lp: LoopId, a: LoopStep)
    requires LoopEnabled(s, n, lp, a)
    ensures AcksNothing(s, ApplyLoop(s, n, lp, a))
  {
    if a.Read? || a.Claim? {
      ReceiveAcksNothing(s, n, lp, DeliveryOf(s, n, a), a.reply);
    }
  }

  /** Marking message m running harms no other message, and not m unless it is committed. */
  lemma MarkStaysFinal(s: State, m: MsgId, c: Call)
    requires SubmitInv(s) && CommittedIsFinal(s) && m in s.stream.appended && s.stream.appended[m].Job?
    requires c.Took() && Committed(s, m) ==> m in s.dlq
    ensures CommittedIsFinal(Put(s, s.stream.appended[m].id, Record(Running, false), c))
  {
    var t := Put(s, s.stream.appended[m].id, Record(Running, false), c);
    forall k | Durable(s, k) && Committed(s, k) ensures Durable(t, k) {
      if k !in s.dlq {
        assert s.stream.appended[k] == s.stream.appended[m] ==> k == m;
      }
    }
    Frame(s, t);
  }

  lemma AckStaysFinal(s: State, l: Lease)
    requires CommittedIsFinal(s) && l in s.tasks && s.tasks[l].phase.Ack?
    ensures CommittedIsFinal(s.(stream := s.stream.XAck(l)))
  {
    var t := s.(stream := s.stream.XAck(l));
    forall m | Durable(s, m) ensures Durable(t, m) { KeepsDurable(s, t, m); }
    Frame(s, t);
  }

  lemma DlqStaysFinal(s: State, m: MsgId)
    requires CommittedIsFinal(s)
    ensures CommittedIsFinal(s.(dlq := s.dlq + {m}))
  {
    KeptFinalsFrame(s, s.(dlq := s.dlq + {m}));
  }

  lemma DelStaysFinal(s: State, m: MsgId)
    requires CommittedIsFinal(s)
    ensures CommittedIsFinal(s.(stream := s.stream.XDel(m)))
  {
    KeptFinalsFrame(s, s.(stream := s.stream.XDel(m)));
  }

  lemma CallStaysFinal(s: State, l: Lease, a: TaskStep)
    requires LeaseInv(s) && SubmitInv(s) && CommittedIsFinal(s) && TaskEnabled(s, l, a)
    requires a.MarkRunning? && a.c.Took() && Committed(s, l.msg) ==> l.msg in s.dlq
    ensures CommittedIsFinal(CallEffect(s, l, a))
  {
    assert TaskOk(s, l);
    match a
    case MarkRunning(c) => MarkStaysFinal(s, l.msg, c);
    case SaveResult(c) => PutStaysFinal(s, s.PayloadOf(l).id, s.tasks[l].phase.rec, c);
    case SendToDLQ(c) => DlqStaysFinal(s, l.msg);
    case AckJob(c) => AckStaysFinal(s, l);
    case DeleteMessage(c) => DelStaysFinal(s, l.msg);
    case _ =>
  }

  /** A worker that goes on to acknowledge has saved its record or dead-lettered its message. */
  lemma AckEntersFinal(s: State, l: Lease, a: TaskStep)
    requires LeaseInv(s) && TaskEnabled(s, l, a) && AfterStep(s, l, a) == To(Ack)
    ensures Durable(CallEffect(s, l, a), l.msg)
  {
    assert TaskOk(s, l);
    assert l.msg in s.stream.appended;
  }

  lemma GotoStaysFinal(s: State, l: Lease, ph: Phase)
    requires CommittedIsFinal(s) && l in s.tasks && (ph.Ack? ==> Durable(s, l.msg))
    ensures CommittedIsFinal(Goto(s, l, ph))
  {
    var t := Goto(s, l, ph);
    assert ph.Ack? ==> Durable(t, l.msg);
    KeptFinalsFrame(s, t);
  }

  lemma FinishStaysFinal(s: State, l: Lease)
    requires CommittedIsFinal(s) && l in s.tasks && s.tasks[l].node in s.nodes
    ensures CommittedIsFinal(Finish(s, l))
  {
    KeptFinalsFrame(s, Finish(s, l));
  }

  lemma AdvanceStaysFinal(s: State, l: Lease, next: Next)
    requires CommittedIsFinal(s) && l in s.tasks && s.tasks[l].node in s.nodes
    requires next == To(Ack) ==> Durable(s, l.msg)
    ensures CommittedIsFinal(Advance(s, l, next))
  {
    match next
    case To(ph) => GotoStaysFinal(s, l, ph);
    case Done => FinishStaysFinal(s, l);
  }

  lemma CallKeepsHolder(s: State, l: Lease, a: TaskStep)
    requires TaskEnabled(s, l, a)
    ensures l in CallEffect(s, l, a).tasks && CallEffect(s, l, a).tasks[l].node in CallEffect(s, l, a).nodes
  {
  }

  lemma TaskStaysFinal(s: State, l: Lease, a: TaskStep)
    requires Inv(s) && CommittedIsFinal(s) && TaskEnabled(s, l, a) && !Overwrites(s, OfTask(l, a))
    ensures CommittedIsFinal(ApplyTask(s, l, a))
  {
    CallStaysFinal(s, l, a);
    NextStaysFinal(s, l, a);
  }

  lemma NextStaysFinal(s: State, l: Lease, a: TaskStep)
    requires LeaseInv(s) && TaskEnabled(s, l, a) && CommittedIsFinal(CallEffect(s, l, a))
    ensures CommittedIsFinal(ApplyTask(s, l, a))
  {
    CallKeepsHolder(s, l, a);
    if AfterStep(s, l, a) == To(Ack) { AckEntersFinal(s, l, a); }
    AdvanceStaysFinal(CallEffect(s, l, a), l, AfterStep(s, l, a));
  }

  lemma MainStaysFinal(s: State, n: NodeId, a: MainStep)
    requires CommittedIsFinal(s) && MainEnabled(s, n, a)
    ensures CommittedIsFinal(ApplyMain(s, n, a))
  {
    KeptFinalsFrame(s, ApplyMain(s, n, a));
  }

  /** Exactly the overwriting events break the property. */
  lemma StepStaysFinalIff(s: State, e: Event)
    requires Inv(s) && CommittedIsFinal(s)
    ensures CommittedIsFinal(Step(s, e)) <==> !Overwrites(s, e)
  {
    if Overwrites(s, e) {
      OverwriteBreaks(s, e);
    } else if Enabled(s, e) {
      match e
      case Api(j, a) => ApiStaysFinal(s, j, a);
      case Junk(trim) => XAddStaysFinal(s, Malformed, trim);
      case Loop(n, lp, a) => LoopStaysFinal(s, n, lp, a);
      case OfTask(l, a) => TaskStaysFinal(s, l, a);
      case Main(n, a) => MainStaysFinal(s, n, a);
    }
  }

  lemma OverwriteBreaks(s: State, e: Event)
    requires Inv(s) && Overwrites(s, e)
    ensures !CommittedIsFinal(Step(s, e))
  {
    OverwriteLosesRecord(s, e.lease, e.task.c);
    OtherHolderStays(s, e.lease, e.task.c);
  }

  lemma OtherHolderStays(s: State, l: Lease, c: Call)
    requires TaskEnabled(s, l, MarkRunning(c)) && Committed(s, l.msg)
    ensures Committed(ApplyTask(s, l, MarkRunning(c)), l.msg)
  {
    if l.msg !in s.stream.acks {
      var k :| k in s.tasks && k.msg == l.msg && s.tasks[k].phase.Ack?;
      assert k != l;
    }
  }

  lemma OverwriteLosesRecord(s: State, l: Lease, c: Call)
    requires LeaseInv(s) && TaskEnabled(s, l, MarkRunning(c)) && c.Took() && l.msg !in s.dlq
    ensures var t := ApplyTask(s, l, MarkRunning(c)); !Durable(t, l.msg) && t.stream == s.stream
  {
    assert TaskOk(s, l);
  }

  // ---- whole runs -------------------------------------------------------------------------

  ghost predicate AlwaysCommittedIsFinal(es: seq<Event>) {
    forall i :: 0 <= i <= |es| ==> CommittedIsFinal(Exec(es[..i]))
  }

  ghost predicate NeverOverwrites(es: seq<Event>) {
    forall i :: 0 <= i < |es| ==> !Overwrites(Exec(es[..i]), es[i])
  }

  lemma ExecPrefix(es: seq<Event>, i: nat)
    requires i < |es|
    ensures Exec(es[..i + 1]) == Step(Exec(es[..i]), es[i])
  {
    assert es[..i + 1][..i] == es[..i];
  }

  lemma FinalThenNoOverwrite(es: seq<Event>, i: nat)
    requires i < |es| && AlwaysCommittedIsFinal(es)
    ensures !Overwrites(Exec(es[..i]), es[i])
  {
    Reachable(es[..i]);
    ExecPrefix(es, i);
    StepStaysFinalIff(Exec(es[..i]), es[i]);
  }

  lemma {:induction false} NoOverwriteThenFinal(es: seq<Event>, i: nat)
    requires i <= |es| && NeverOverwrites(es)
    ensures CommittedIsFinal(Exec(es[..i]))
  {
    if i != 0 {
      NoOverwriteThenFinal(es, i - 1);
      Reachable(es[..i - 1]);
      ExecPrefix(es, i - 1);
      StepStaysFinalIff(Exec(es[..i - 1]), es[i - 1]);
    }
  }

  /** A run keeps acknowledged and about-to-be-acknowledged records final, in all its states,
      exactly if no worker marks a committed message running. */
  lemma AckedStaysFinalIff(es: seq<Event>)
    ensures AlwaysCommittedIsFinal(es) <==> NeverOverwrites(es)
  {
    if AlwaysCommittedIsFinal(es) {
      forall i | 0 <= i < |es| ensures !Overwrites(Exec(es[..i]), es[i]) { FinalThenNoOverwrite(es, i); }
    }
    if NeverOverwrites(es) {
      forall i | 0 <= i <= |es| ensures CommittedIsFinal(Exec(es[..i])) { NoOverwriteThenFinal(es, i); }
    }
  }

  lemma AckBreaks(s: State, l: Lease)
    requires Inv(s) && s.stream.trimmed == {} && AckedIsFinal(s)
    requires l in s.tasks && s.tasks[l].phase.Ack? && !Durable(s, l.msg)
    ensures TaskEnabled(s, l, AckJob(Ok)) && !AckedIsFinal(ApplyTask(s, l, AckJob(Ok)))
  {
    assert TaskOk(s, l);
    var t := ApplyTask(s, l, AckJob(Ok));
    assert l.msg in t.stream.acks;
    assert !Durable(t, l.msg);
  }

  /** Once a committed record is lost, one successful XACK away at most, an acknowledged message
      has a record that is not final (nothing being trimmed). */
  lemma OneAckAway(s: State)
    requires Inv(s) && s.stream.trimmed == {} && !CommittedIsFinal(s)
    ensures !AckedIsFinal(s) ||
      exists l :: TaskEnabled(s, l, AckJob(Ok)) && !AckedIsFinal(ApplyTask(s, l, AckJob(Ok)))
  {
    if AckedIsFinal(s) {
      var l :| l in s.tasks && s.tasks[l].phase.Ack? && !Durable(s, l.msg);
      AckBreaks(s, l);
    }
  }
}
