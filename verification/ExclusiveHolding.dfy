/** Runs in which the reclaim loop only takes messages nobody holds. */
module ExclusiveHolding {
  import opened RedisStream
  import opened Protocol
  import opened ProtocolInvariants
  import opened NodeInvariants
  import opened Durability

  /** No live goroutine and no batch waiting for dispatch holds a message that e hands over. */
  ghost predicate ClaimsIdle(s: State, e: Event) {
    Enabled(s, e) && e.Loop? && e.loop.Claim? ==>
      forall l :: l in s.tasks ==> l.msg !in DeliveryOf(s, e.node, e.loop).batch
  }

  ghost predicate ExclusiveRun(es: seq<Event>) {
    forall i :: 0 <= i < |es| ==> ClaimsIdle(Exec(es[..i]), es[i])
  }

  predicate BeforeAck(ph: Phase) {
    ph.Waiting? || ph.Decode? || ph.Mark? || ph.Evaluating? || ph.Check? || ph.Save?
  }

  ghost predicate OneHolder(s: State) {
    && (forall l, k :: l in s.tasks && k in s.tasks && l.msg == k.msg ==> l == k)
    && (forall l :: l in s.tasks && BeforeAck(s.tasks[l].phase) ==> l.msg !in s.stream.acks)
  }

  lemma HolderFrame(s: State, t: State)
    requires OneHolder(s) && t.tasks.Keys <= s.tasks.Keys
    requires forall l :: l in t.tasks && BeforeAck(t.tasks[l].phase) ==>
      BeforeAck(s.tasks[l].phase) && (l.msg in t.stream.acks ==> l.msg in s.stream.acks)
    ensures OneHolder(t)
  {
  }

  lemma ReceiveKeepsOneHolder(s: State, n: NodeId, lp: LoopId, d: Delivery, reply: bool)
    requires OneHolder(s) && n in s.nodes && IsDelivery(s.stream, n, d)
    requires forall l :: l in s.tasks ==> l.msg !in d.batch
    ensures OneHolder(Receive(s, n, lp, d, reply))
  {
    var t := Receive(s, n, lp, d, reply);
    forall l | l in t.tasks ensures l in s.tasks || (l.msg in d.batch && l == Lease(l.msg, d.st.Deliveries(l.msg))) {}
  }

  lemma ReadIsIdle(s: State, n: NodeId, lp: LoopId, a: LoopStep)
    requires LeaseInv(s) && LoopEnabled(s, n, lp, a) && a.Read?
    ensures forall l :: l in s.tasks ==> l.msg !in DeliveryOf(s, n, a).batch
  {
    XReadGroupValid(s.stream, n, a.upto);
    forall l | l in s.tasks ensures l.msg !in s.stream.ReadBatch(a.upto) { assert TaskOk(s, l); }
  }

  lemma DeliveryKeepsOneHolder(s: State, n: NodeId, lp: LoopId, a: LoopStep)
    requires LeaseInv(s) && OneHolder(s) && LoopEnabled(s, n, lp, a) && (a.Read? || a.Claim?)
    requires forall l :: l in s.tasks ==> l.msg !in DeliveryOf(s, n, a).batch
    ensures OneHolder(ApplyLoop(s, n, lp, a))
  {
    DeliversNew(s, n, lp, a);
    ReceiveKeepsOneHolder(s, n, lp, DeliveryOf(s, n, a), a.reply);
  }

  lemma PcStepKeepsOneHolder(s: State, n: NodeId, lp: LoopId, a: LoopStep)
    requires OneHolder(s) && LoopEnabled(s, n, lp, a) && !a.Read? && !a.Claim?
    ensures OneHolder(ApplyLoop(s, n, lp, a))
  {
    HolderFrame(s, ApplyLoop(s, n, lp, a));
  }

  lemma LoopKeepsOneHolder(s: State, n: NodeId, lp: LoopId, a: LoopStep)
    requires LeaseInv(s) && OneHolder(s) && LoopEnabled(s, n, lp, a) && ClaimsIdle(s, Loop(n, lp, a))
    ensures OneHolder(ApplyLoop(s, n, lp, a))
  {
    if a.Read? {
      ReadIsIdle(s, n, lp, a);
      DeliveryKeepsOneHolder(s, n, lp, a);
    } else if a.Claim? {
      DeliveryKeepsOneHolder(s, n, lp, a);
    } else {
      PcStepKeepsOneHolder(s, n, lp, a);
    }
  }

  lemma AckKeepsOneHolder(s: State, l: Lease, c: Call)
    requires OneHolder(s) && TaskEnabled(s, l, AckJob(c))
    ensures OneHolder(ApplyTask(s, l, AckJob(c)))
  {
    var t := ApplyTask(s, l, AckJob(c));
    forall k | k in t.tasks && k.msg == l.msg ensures !BeforeAck(t.tasks[k].phase) {
      assert k in s.tasks;
    }
    HolderFrame(s, t);
  }

  lemma CallAcksOnlyAtAck(s: State, l: Lease, a: TaskStep)
    requires TaskEnabled(s, l, a) && !a.AckJob?
    ensures CallEffect(s, l, a).stream.acks == s.stream.acks
    ensures AfterStep(s, l, a).To? && BeforeAck(AfterStep(s, l, a).phase) ==> BeforeAck(s.tasks[l].phase)
  {
  }

  lemma AdvanceKeepsOneHolder(s: State, l: Lease, next: Next)
    requires OneHolder(s) && l in s.tasks && s.tasks[l].node in s.nodes
    requires next.To? && BeforeAck(next.phase) ==> BeforeAck(s.tasks[l].phase)
    ensures OneHolder(Advance(s, l, next))
  {
    HolderFrame(s, Advance(s, l, next));
  }

  lemma TaskKeepsOneHolder(s: State, l: Lease, a: TaskStep)
    requires OneHolder(s) && TaskEnabled(s, l, a)
    ensures OneHolder(ApplyTask(s, l, a))
  {
    if a.AckJob? {
      AckKeepsOneHolder(s, l, a.c);
    } else {
      CallAcksOnlyAtAck(s, l, a);
      HolderFrame(s, CallEffect(s, l, a));
      AdvanceKeepsOneHolder(CallEffect(s, l, a), l, AfterStep(s, l, a));
    }
  }

  lemma ApiKeepsOneHolder(s: State, j: JobId, a: ApiStep)
    requires OneHolder(s) && ApiEnabled(s, j, a)
    ensures OneHolder(ApplyApi(s, j, a))
  {
    HolderFrame(s, ApplyApi(s, j, a));
  }

  lemma MainKeepsOneHolder(s: State, n: NodeId, a: MainStep)
    requires OneHolder(s) && MainEnabled(s, n, a)
    ensures OneHolder(ApplyMain(s, n, a))
  {
    HolderFrame(s, ApplyMain(s, n, a));
  }

  lemma StepKeepsOneHolder(s: State, e: Event)
    requires LeaseInv(s) && OneHolder(s) && ClaimsIdle(s, e)
    ensures OneHolder(Step(s, e))
  {
    if Enabled(s, e) {
      match e
      case Loop(n, lp, a) => LoopKeepsOneHolder(s, n, lp, a);
      case OfTask(l, a) => TaskKeepsOneHolder(s, l, a);
      case Api(j, a) => ApiKeepsOneHolder(s, j, a);
      case Main(n, a) => MainKeepsOneHolder(s, n, a);
      case Junk(trim) => HolderFrame(s, s.(stream := s.stream.XAdd(Malformed, trim)));
    }
  }

  lemma {:induction false} ExclusiveMeansOneHolder(es: seq<Event>, i: nat)
    requires i <= |es| && ExclusiveRun(es)
    ensures OneHolder(Exec(es[..i]))
  {
    if i != 0 {
      ExclusiveMeansOneHolder(es, i - 1);
      Reachable(es[..i - 1]);
      ExecPrefix(es, i - 1);
      assert ClaimsIdle(Exec(es[..i - 1]), es[i - 1]);
      StepKeepsOneHolder(Exec(es[..i - 1]), es[i - 1]);
    }
  }

  /** If at most one goroutine ever holds a message, every acknowledged message has a completed or
      failed record or is dead-lettered, in every state from its acknowledgement on. */
  lemma ExclusiveRunsStayFinal(es: seq<Event>)
    requires ExclusiveRun(es)
    ensures forall i :: 0 <= i <= |es| ==> AckedIsFinal(Exec(es[..i]))
  {
    forall i | 0 <= i < |es| ensures !Overwrites(Exec(es[..i]), es[i]) {
      ExclusiveMeansOneHolder(es, i);
    }
    AckedStaysFinalIff(es);
    forall i | 0 <= i <= |es| ensures AckedIsFinal(Exec(es[..i])) {
      assert CommittedIsFinal(Exec(es[..i]));
    }
  }
}
