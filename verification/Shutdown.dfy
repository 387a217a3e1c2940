/** What shutting a worker down, or losing it, guarantees. */
module Shutdown {
  import opened RedisStream
  import opened Protocol
  import opened ProtocolInvariants
  import opened NodeInvariants

  /** No record of a run during which a model call saw cancellation is ever in the store. */
  lemma NoCancelledResultStored(es: seq<Event>, j: JobId)
    requires j in Exec(es).store
    ensures !Exec(es).store[j].sawCancel
  {
    Reachable(es);
  }

  ghost predicate Gone(s: State, n: NodeId) {
    n in s.nodes && (s.nodes[n].main == Drained || s.nodes[n].main == Crashed)
  }

  lemma GoneStays(s: State, e: Event, n: NodeId)
    requires NodeInv(s) && Gone(s, n)
    ensures Gone(Step(s, e), n)
  {
    if Enabled(s, e) {
      match e
      case Loop(k, lp, a) => LoopKeepsMain(s, k, lp, a, n);
      case OfTask(l, a) => TaskKeepsMain(s, l, a, n);
      case Main(k, a) => MainKeepsGone(s, k, a, n);
      case Api(j, a) => assert ApplyApi(s, j, a).nodes == s.nodes;
      case Junk(_) =>
    }
  }

  lemma MainKeepsGone(s: State, k: NodeId, a: MainStep, n: NodeId)
    requires MainEnabled(s, k, a) && Gone(s, n)
    ensures Gone(ApplyMain(s, k, a), n)
  {
  }

  lemma TaskKeepsMain(s: State, l: Lease, a: TaskStep, n: NodeId)
    requires TaskEnabled(s, l, a) && n in s.nodes
    ensures var t := ApplyTask(s, l, a); n in t.nodes && t.nodes[n].main == s.nodes[n].main
  {
    assert CallEffect(s, l, a).nodes == s.nodes;
  }

  lemma LoopKeepsMain(s: State, k: NodeId, lp: LoopId, a: LoopStep, n: NodeId)
    requires LoopEnabled(s, k, lp, a) && n in s.nodes
    ensures var t := ApplyLoop(s, k, lp, a); n in t.nodes && t.nodes[n].main == s.nodes[n].main
  {
    match a
    case Read(_, _) =>
    case Claim(_, _) =>
    case _ =>
  }

  lemma GoneHasNoTasks(s: State, n: NodeId)
    requires NodeInv(s) && Gone(s, n)
    ensures forall l :: l in s.tasks ==> s.tasks[l].node != n
  {
    assert NodeOk(s, n);
    assert s.Live(n) == {} && s.WaitingFor(n, Reader) == {} && s.WaitingFor(n, Reclaimer) == {};
    forall l | l in s.tasks ensures s.tasks[l].node != n {
      var task := s.tasks[l];
      match task.phase
      case Waiting(lp) =>
        assert lp == Reader || lp == Reclaimer;
        assert task.node == n ==> l in s.WaitingFor(n, lp);
      case _ =>
        assert task.node == n ==> l in s.Live(n);
    }
  }

  /** When drain returns no goroutine of the node is left, and none ever starts again. */
  lemma DrainedIsFinal(es: seq<Event>, fs: seq<Event>, n: NodeId)
    requires Gone(Exec(es), n)
    ensures Gone(Exec(es + fs), n) && forall l :: l in Exec(es + fs).tasks ==> Exec(es + fs).tasks[l].node != n
  {
    StaysGone(es, fs, n);
    Reachable(es + fs);
    GoneHasNoTasks(Exec(es + fs), n);
  }

  lemma {:induction false} StaysGone(es: seq<Event>, fs: seq<Event>, n: NodeId)
    requires Gone(Exec(es), n)
    ensures Gone(Exec(es + fs), n)
    decreases |fs|
  {
    if fs == [] {
      assert es + fs == es;
    } else {
      StaysGone(es, fs[..|fs| - 1], n);
      ExecLast(es, fs);
      Reachable(es + fs[..|fs| - 1]);
      GoneStays(Exec(es + fs[..|fs| - 1]), fs[|fs| - 1], n);
    }
  }

  /** At most `capacity` goroutines of a node run at any time. */
  lemma ConcurrencyIsBounded(es: seq<Event>, n: NodeId)
    requires n in Exec(es).nodes
    ensures |Exec(es).Live(n)| <= Exec(es).nodes[n].slots <= Exec(es).nodes[n].capacity
  {
    Reachable(es);
    assert NodeOk(Exec(es), n);
  }

  // ---- leases that were given up ----------------------------------------------------------

  /** Lease l acknowledged its message itself. */
  ghost predicate AckedBy(s: State, l: Lease) {
    l.msg in s.stream.acks && s.stream.acks[l.msg] == l
  }

  ghost predicate Accounted(s: State, l: Lease) {
    l in s.tasks || l in s.released || AckedBy(s, l)
  }

  lemma AbandonAccounts(s: State, n: NodeId, ls: set<Lease>, l: Lease)
    requires Accounted(s, l)
    ensures Accounted(Abandon(s, n, ls), l)
  {
  }

  lemma LoopAccounts(s: State, n: NodeId, lp: LoopId, a: LoopStep, l: Lease)
    requires LeaseInv(s) && LoopEnabled(s, n, lp, a) && Accounted(s, l)
    ensures Accounted(ApplyLoop(s, n, lp, a), l)
  {
    LoopKeepsLeaseInv(s, n, lp, a);
    match a
    case GiveUp => AbandonAccounts(s, n, s.WaitingFor(n, lp), l);
    case Read(_, _) =>
    case Claim(_, _) =>
    case _ =>
  }

  lemma TaskAccounts(s: State, k: Lease, a: TaskStep, l: Lease)
    requires LeaseInv(s) && TaskEnabled(s, k, a) && Accounted(s, l)
    ensures Accounted(ApplyTask(s, k, a), l)
  {
    CallKeepsLeaseInv(s, k, a);
    var t := CallEffect(s, k, a);
    assert Accounted(t, l);
    match AfterStep(s, k, a)
    case To(ph) =>
    case Done => AbandonAccounts(t, t.tasks[k].node, {k}, l);
  }

  lemma MainAccounts(s: State, n: NodeId, a: MainStep, l: Lease)
    requires MainEnabled(s, n, a) && Accounted(s, l)
    ensures Accounted(ApplyMain(s, n, a), l)
  {
    if a.Crash? {
      AbandonAccounts(s, n, s.Live(n) + s.WaitingFor(n, Reader) + s.WaitingFor(n, Reclaimer), l);
    }
  }

  lemma ApiAccounts(s: State, j: JobId, a: ApiStep, l: Lease)
    requires ApiEnabled(s, j, a) && Accounted(s, l)
    ensures Accounted(ApplyApi(s, j, a), l)
  {
  }

  lemma StepAccounts(s: State, e: Event, l: Lease)
    requires LeaseInv(s) && Accounted(s, l)
    ensures Accounted(Step(s, e), l)
  {
    if Enabled(s, e) {
      match e
      case Loop(n, lp, a) => LoopAccounts(s, n, lp, a, l);
      case OfTask(k, a) => TaskAccounts(s, k, a, l);
      case Main(n, a) => MainAccounts(s, n, a, l);
      case Api(j, a) => ApiAccounts(s, j, a, l);
      case Junk(_) =>
    }
  }

  /** A message handed to node n stays accounted for until n acknowledges it: n still holds it, or
      n gave it up (undispatched, interrupted, failed or crashed) and it is still pending for n, has
      been delivered again, or another holder acknowledged it after settling it. */
  lemma {:induction false} LeaseNeverVanishes(es: seq<Event>, fs: seq<Event>, l: Lease)
    requires l in Exec(es).tasks
    ensures var s := Exec(es + fs);
      || l in s.tasks
      || AckedBy(s, l)
      || (l in s.released && (
            || (l.msg in s.stream.pending && s.stream.pending[l.msg] == s.released[l]
                && s.stream.Deliveries(l.msg) == l.delivery)
            || l.delivery < s.stream.Deliveries(l.msg)
            || (l.msg in s.stream.acks && s.stream.acks[l.msg] != l && Settled(s, l.msg))
            || l.msg in s.stream.trimmed))
  {
    StaysAccounted(es, fs, l);
    Reachable(es + fs);
    if l in Exec(es + fs).released {
      assert TaskOk(Exec(es + fs), l);
    }
  }

  lemma {:induction false} StaysAccounted(es: seq<Event>, fs: seq<Event>, l: Lease)
    requires Accounted(Exec(es), l)
    ensures Accounted(Exec(es + fs), l)
    decreases |fs|
  {
    if fs == [] {
      assert es + fs == es;
    } else {
      StaysAccounted(es, fs[..|fs| - 1], l);
      ExecLast(es, fs);
      Reachable(es + fs[..|fs| - 1]);
      StepAccounts(Exec(es + fs[..|fs| - 1]), fs[|fs| - 1], l);
    }
  }
}
