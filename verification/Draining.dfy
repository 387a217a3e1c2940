/** What a shutdown signal does: a signalled worker starts nothing more, reads nothing more, and can
    always finish what it runs and drain. */
module Draining {
  import opened Records
  import opened RedisStream
  import opened Protocol
  import opened ProtocolInvariants
  import opened NodeInvariants
  import opened Recovery
  import opened Sets
  import opened Shutdown
  import opened TimedSlots

  // ---- what the signal stops ----------------------------------------------------------------

  ghost predicate Signalled(s: State, n: NodeId) {
    n in s.nodes && s.nodes[n].stopping
  }

  lemma TaskKeepsNode(s: State, l: Lease, a: TaskStep, n: NodeId)
    requires TaskEnabled(s, l, a) && n in s.nodes
    ensures var t := ApplyTask(s, l, a);
      n in t.nodes && t.nodes[n] == s.nodes[n].(slots := t.nodes[n].slots, wg := t.nodes[n].wg)
  {
    assert CallEffect(s, l, a).nodes == s.nodes;
  }

  lemma LoopKeepsStopping(s: State, k: NodeId, lp: LoopId, a: LoopStep, n: NodeId)
    requires LoopEnabled(s, k, lp, a) && Signalled(s, n)
    ensures var t := ApplyLoop(s, k, lp, a);
      Signalled(t, n) && (s.nodes[n].reader != Call ==> t.nodes[n].reader != Call)
  {
    match a
    case Read(_, _) =>
    case Claim(_, _) =>
    case _ =>
  }

  lemma MainKeepsStopping(s: State, k: NodeId, a: MainStep, n: NodeId)
    requires MainEnabled(s, k, a) && Signalled(s, n)
    ensures var t := ApplyMain(s, k, a);
      Signalled(t, n) && (s.nodes[n].reader != Call ==> t.nodes[n].reader != Call)
  {
  }

  /** The signal stays, and a reader that is not in a call begins none. */
  lemma SignalStays(s: State, e: Event, n: NodeId)
    requires Signalled(s, n)
    ensures var t := Step(s, e); Signalled(t, n) && (s.nodes[n].reader != Call ==> t.nodes[n].reader != Call)
  {
    if Enabled(s, e) {
      match e
      case Loop(k, lp, a) => LoopKeepsStopping(s, k, lp, a, n);
      case OfTask(l, a) => TaskKeepsNode(s, l, a, n);
      case Main(k, a) => MainKeepsStopping(s, k, a, n);
      case Api(j, a) => assert ApplyApi(s, j, a).nodes == s.nodes;
      case Junk(_) =>
    }
  }

  lemma SignalledStartsNothing(s: State, e: Event, n: NodeId)
    requires Signalled(s, n)
    ensures Step(s, e).Live(n) <= s.Live(n)
  {
    LiveGrowsByStarts(s, e, n);
  }

  lemma {:induction false} StaysSignalled(es: seq<Event>, fs: seq<Event>, n: NodeId)
    requires Signalled(Exec(es), n)
    ensures var s, t := Exec(es), Exec(es + fs);
      Signalled(t, n) && t.Live(n) <= s.Live(n) && (s.nodes[n].reader != Call ==> t.nodes[n].reader != Call)
    decreases |fs|
  {
    if fs == [] {
      assert es + fs == es;
    } else {
      var before, last := es + fs[..|fs| - 1], fs[|fs| - 1];
      StaysSignalled(es, fs[..|fs| - 1], n);
      ExecLast(es, fs);
      SignalStays(Exec(before), last, n);
      SignalledStartsNothing(Exec(before), last, n);
    }
  }

  lemma SignalTakesEffect(es: seq<Event>, n: NodeId)
    requires n in Exec(es).nodes && Exec(es).nodes[n].main == Serving
    ensures Signalled(Exec(es + [Main(n, Signal)]), n)
    ensures Exec(es + [Main(n, Signal)]).Live(n) == Exec(es).Live(n)
  {
    ExecNext(es + [Main(n, Signal)], es, Main(n, Signal));
  }

  /** After the signal no goroutine is started: whatever happens, those that run ran before it. */
  lemma SignalStopsStarts(es: seq<Event>, fs: seq<Event>, n: NodeId)
    requires n in Exec(es).nodes && Exec(es).nodes[n].main == Serving
    ensures Exec(es + [Main(n, Signal)] + fs).Live(n) <= Exec(es).Live(n)
  {
    SignalTakesEffect(es, n);
    StaysSignalled(es + [Main(n, Signal)], fs, n);
  }

  /** After the signal no read begins: only the one that is under way may still be answered. */
  lemma SignalStopsReading(es: seq<Event>, fs: seq<Event>, n: NodeId)
    requires n in Exec(es).nodes && Exec(es).nodes[n].main == Serving
    ensures !Enabled(Exec(es + [Main(n, Signal)] + fs), Loop(n, Reader, Tick))
  {
    SignalTakesEffect(es, n);
    StaysSignalled(es + [Main(n, Signal)], fs, n);
  }

  lemma ReadEndsCall(s: State, n: NodeId, upto: MsgId, reply: bool)
    requires Enabled(s, Loop(n, Reader, Read(upto, reply)))
    ensures var t := Step(s, Loop(n, Reader, Read(upto, reply)));
      n in t.nodes && t.nodes[n].reader != Call && t.nodes[n].stopping == s.nodes[n].stopping
  {
  }

  /** After the signal at most the read that is under way is answered: no second one follows. */
  lemma SignalStopsReads(es: seq<Event>, fs: seq<Event>, gs: seq<Event>, n: NodeId, u: MsgId, r: bool, v: MsgId,
                         q: bool)
    requires n in Exec(es).nodes && Exec(es).nodes[n].main == Serving
    requires Enabled(Exec(es + [Main(n, Signal)] + fs), Loop(n, Reader, Read(u, r)))
    ensures !Enabled(Exec(es + [Main(n, Signal)] + fs + [Loop(n, Reader, Read(u, r))] + gs),
                     Loop(n, Reader, Read(v, q)))
  {
    var before, read := es + [Main(n, Signal)] + fs, Loop(n, Reader, Read(u, r));
    SignalTakesEffect(es, n);
    StaysSignalled(es + [Main(n, Signal)], fs, n);
    ExecNext(before + [read], before, read);
    ReadEndsCall(Exec(before), n, u, r);
    StaysSignalled(before + [read], gs, n);
  }

  // ---- what only the signal causes -----------------------------------------------------------

  /** What was done to node n so far, read off its state. */
  ghost predicate Explained(s: State, es: seq<Event>, n: NodeId) {
    n in s.nodes ==>
      var nd := s.nodes[n];
      && (nd.stopping ==> Main(n, Signal) in es)
      && (nd.jobCancelled ==> Main(n, Deadline) in es && Main(n, BeginDrain) in es)
      && (nd.main == Draining ==> Main(n, BeginDrain) in es)
      && (nd.main != Crashed && (nd.reader == Exited || nd.reclaimer == Exited) ==> nd.stopping)
      && (nd.main == Draining || nd.main == Drained ==> nd.stopping)
  }

  /** A loop's step leaves what concerns main alone, and a loop leaves on the signal only. */
  ghost predicate Moves(before: Node, after: Node) {
    && after.stopping == before.stopping && after.jobCancelled == before.jobCancelled && after.main == before.main
    && (after.reader == Exited ==> before.reader == Exited || before.stopping)
    && (after.reclaimer == Exited ==> before.reclaimer == Exited || before.stopping)
  }

  lemma FetchMoves(s: State, k: NodeId, lp: LoopId, a: LoopStep)
    requires LoopEnabled(s, k, lp, a) && (a.Read? || a.Claim?)
    ensures var t := ApplyLoop(s, k, lp, a);
      t.nodes.Keys == s.nodes.Keys && forall n :: n in t.nodes ==> Moves(s.nodes[n], t.nodes[n])
  {
    match a
    case Read(_, _) =>
    case Claim(_, _) =>
  }

  lemma LoopMoves(s: State, k: NodeId, lp: LoopId, a: LoopStep)
    requires LoopEnabled(s, k, lp, a)
    ensures var t := ApplyLoop(s, k, lp, a);
      t.nodes.Keys == s.nodes.Keys && forall n :: n in t.nodes ==> Moves(s.nodes[n], t.nodes[n])
  {
    if a.Read? || a.Claim? {
      FetchMoves(s, k, lp, a);
    }
  }

  lemma LoopExplained(s: State, k: NodeId, lp: LoopId, a: LoopStep, es: seq<Event>, n: NodeId)
    requires LoopEnabled(s, k, lp, a) && Explained(s, es, n)
    ensures Explained(ApplyLoop(s, k, lp, a), es, n)
  {
    LoopMoves(s, k, lp, a);
  }

  lemma MainExplained(s: State, k: NodeId, a: MainStep, es: seq<Event>, n: NodeId)
    requires MainEnabled(s, k, a) && Explained(s, es, n)
    ensures Explained(ApplyMain(s, k, a), es + [Main(k, a)], n)
  {
    assert forall e :: e in es ==> e in es + [Main(k, a)];
    assert Main(k, a) in es + [Main(k, a)];
  }

  lemma ExplainedLater(s: State, es: seq<Event>, e: Event, n: NodeId)
    requires Explained(s, es, n)
    ensures Explained(s, es + [e], n)
  {
    assert forall x :: x in es ==> x in es + [e];
  }

  lemma StepExplained(s: State, e: Event, es: seq<Event>, n: NodeId)
    requires Explained(s, es, n)
    ensures Explained(Step(s, e), es + [e], n)
  {
    ExplainedLater(s, es, e, n);
    if Enabled(s, e) {
      match e
      case Loop(k, lp, a) => LoopExplained(s, k, lp, a, es + [e], n);
      case OfTask(l, a) =>
        if n in s.nodes {
          TaskKeepsNode(s, l, a, n);
        }
      case Main(k, a) => MainExplained(s, k, a, es, n);
      case Api(j, a) => assert ApplyApi(s, j, a).nodes == s.nodes;
      case Junk(_) =>
    }
  }

  lemma {:induction false} RunExplained(es: seq<Event>, n: NodeId)
    ensures Explained(Exec(es), es, n)
  {
    if es != [] {
      RunExplained(es[..|es| - 1], n);
      StepExplained(Exec(es[..|es| - 1]), es[|es| - 1], es[..|es| - 1], n);
      assert es == es[..|es| - 1] + [es[|es| - 1]];
    }
  }

  /** Without a signal no loop leaves or gives up a batch, and main does not drain. */
  lemma OnlySignalStops(es: seq<Event>, n: NodeId, lp: LoopId)
    requires n in Exec(es).nodes && Exec(es).nodes[n].main != Crashed && Main(n, Signal) !in es
    ensures var nd := Exec(es).nodes[n]; nd.main == Serving && nd.Loop(lp) != Exited
    ensures !Enabled(Exec(es), Loop(n, lp, GiveUp)) && !Enabled(Exec(es), Main(n, BeginDrain))
  {
    RunExplained(es, n);
  }

  /** No run of a model call is cancelled unless its node drains and the deadline passed. */
  lemma OnlyDeadlineCancels(es: seq<Event>, l: Lease)
    requires Enabled(Exec(es), OfTask(l, SeeCancel))
    ensures var n := Exec(es).tasks[l].node; Main(n, Deadline) in es && Main(n, BeginDrain) in es
  {
    RunExplained(es, Exec(es).tasks[l].node);
  }

  // ---- giving up ----------------------------------------------------------------------------

  /** A loop that gives up its batch on the signal drops it and the slot it may hold, and changes nothing
      in Redis: what it held stays pending. The reader ends, the reclaimer goes back to its timer. */
  lemma GiveUpLeavesPending(es: seq<Event>, n: NodeId, lp: LoopId)
    requires Enabled(Exec(es), Loop(n, lp, GiveUp))
    ensures var s, t := Exec(es), Exec(es + [Loop(n, lp, GiveUp)]);
      && t.stream == s.stream && t.store == s.store && t.dlq == s.dlq && t.finals == s.finals
      && t.tasks == s.tasks - s.WaitingFor(n, lp) && t.Live(n) == s.Live(n)
      && n in t.nodes && t.nodes[n].Loop(lp) == (if lp == Reader then Exited else Top)
      && t.nodes[n].slots == |t.Live(n)| + Holding(t.nodes[n].reader) + Holding(t.nodes[n].reclaimer)
  {
    var s, e := Exec(es), Loop(n, lp, GiveUp);
    ExecNext(es + [e], es, e);
    Reachable(es + [e]);
    GiveUpDrops(s, n, lp);
    assert NodeOk(Exec(es + [e]), n);
  }

  lemma GiveUpDrops(s: State, n: NodeId, lp: LoopId)
    requires LoopEnabled(s, n, lp, GiveUp)
    ensures var t := ApplyLoop(s, n, lp, GiveUp);
      && t.stream == s.stream && t.store == s.store && t.dlq == s.dlq && t.finals == s.finals
      && t.tasks == s.tasks - s.WaitingFor(n, lp) && t.Live(n) == s.Live(n)
      && n in t.nodes && t.nodes[n].Loop(lp) == (if lp == Reader then Exited else Top)
  {
  }

  /** The reclaimer may still claim once its timer and the signal are both there; what it claims then is
      never started. */
  lemma SignalledReclaimerMayClaim(es: seq<Event>, fs: seq<Event>, n: NodeId, cutoff: nat)
    requires Signalled(Exec(es), n) && Exec(es).nodes[n].reclaimer == Top
    ensures var claim := [Loop(n, Reclaimer, Tick), Loop(n, Reclaimer, Claim(cutoff, true))];
      && Enabled(Exec(es), claim[0]) && Enabled(Exec(es + [claim[0]]), claim[1])
      && forall l :: l in Exec(es + claim + fs).Live(n) ==> l in Exec(es).Live(n)
  {
    var tick, call := Loop(n, Reclaimer, Tick), Loop(n, Reclaimer, Claim(cutoff, true));
    ExecNext(es + [tick], es, tick);
    StaysSignalled(es, [tick, call] + fs, n);
    assert es + [tick, call] + fs == es + ([tick, call] + fs);
  }

  // ---- a crash ------------------------------------------------------------------------------

  /** A crash ends all tasks of the node for good and changes nothing in Redis or in the store. */
  lemma CrashEndsEverything(es: seq<Event>, fs: seq<Event>, n: NodeId)
    requires n in Exec(es).nodes && (Exec(es).nodes[n].main == Serving || Exec(es).nodes[n].main == Draining)
    ensures var s, t := Exec(es), Exec(es + [Main(n, Crash)]);
      t.stream == s.stream && t.store == s.store && t.finals == s.finals && t.dlq == s.dlq
    ensures var t := Exec(es + [Main(n, Crash)] + fs); forall l :: l in t.tasks ==> t.tasks[l].node != n
  {
    ExecNext(es + [Main(n, Crash)], es, Main(n, Crash));
    DrainedIsFinal(es + [Main(n, Crash)], fs, n);
  }

  // ---- draining -----------------------------------------------------------------------------

  /** An event of a worker that shuts down in order: its loops leave, its goroutines go on without a
      failed call or a panic, and main drains. */
  predicate Orderly(e: Event, n: NodeId) {
    match e
    case Loop(k, _, a) => k == n && (a.Exit? || a.NoReply? || a.BatchDone? || a.GiveUp?)
    case OfTask(_, a) => SmoothStep(a)
    case Main(k, a) => k == n && (a.BeginDrain? || a.EndDrain?)
    case _ => false
  }

  ghost predicate AllOrderly(gs: seq<Event>, n: NodeId) {
    forall e :: e in gs ==> Orderly(e, n)
  }

  function NextStep(ph: Phase): TaskStep
    requires !ph.Waiting?
  {
    match ph
    case Decode => DecodePayload
    case Mark => MarkRunning(Ok)
    case Evaluating(_) => Return(Completed)
    case Check(_) => CheckCancel
    case Save(_) => SaveResult(Ok)
    case DeadLetter => SendToDLQ(Ok)
    case Ack => AckJob(Ok)
    case Delete => DeleteMessage(Ok)
  }

  /** How many steps a goroutine has ahead of it at most. */
  function StepsLeft(ph: Phase): nat {
    match ph
    case Waiting(_) => 8
    case Decode => 7
    case Mark => 6
    case Evaluating(_) => 5
    case Check(_) => 4
    case Save(_) => 3
    case DeadLetter => 3
    case Ack => 2
    case Delete => 1
  }

  lemma NextIsEnabled(s: State, l: Lease)
    requires LeaseInv(s) && l in s.tasks && !s.tasks[l].phase.Waiting?
    ensures TaskEnabled(s, l, NextStep(s.tasks[l].phase)) && SmoothStep(NextStep(s.tasks[l].phase))
  {
    assert TaskOk(s, l);
  }

  lemma AdvanceLeads(s: State, l: Lease, next: Next)
    requires l in s.tasks && s.tasks[l].node in s.nodes
    ensures var t := Advance(s, l, next);
      l in t.tasks <==> next.To?
    ensures next.To? ==> Advance(s, l, next).tasks[l] == Task(s.tasks[l].node, next.phase)
  {
  }

  lemma NextLeadsOn(s: State, l: Lease)
    requires l in s.tasks && !s.tasks[l].phase.Waiting? && TaskEnabled(s, l, NextStep(s.tasks[l].phase))
    ensures var next := AfterStep(s, l, NextStep(s.tasks[l].phase));
      next.To? ==> !next.phase.Waiting? && StepsLeft(next.phase) < StepsLeft(s.tasks[l].phase)
  {
  }

  /** What the other goroutines and steps leave of node n while one of its goroutines goes on. */
  ghost predicate SameLoops(s: State, t: State, n: NodeId) {
    && n in s.nodes && n in t.nodes && t.nodes[n].reader == s.nodes[n].reader
    && t.nodes[n].reclaimer == s.nodes[n].reclaimer && t.nodes[n].main == s.nodes[n].main
    && t.nodes[n].stopping == s.nodes[n].stopping
  }

  lemma GoesOn(s: State, l: Lease, n: NodeId) returns (e: Event)
    requires Inv(s) && n in s.nodes && l in s.Live(n)
    ensures var t := Step(s, e);
      && Orderly(e, n) && SameLoops(s, t, n) && t.Live(n) <= s.Live(n)
      && (l in t.Live(n) ==> StepsLeft(t.tasks[l].phase) < StepsLeft(s.tasks[l].phase))
  {
    var a := NextStep(s.tasks[l].phase);
    NextIsEnabled(s, l);
    e := OfTask(l, a);
    TaskKeepsNode(s, l, a, n);
    LiveGrowsByStarts(s, e, n);
    NextLeadsOn(s, l);
    AdvanceLeads(CallEffect(s, l, a), l, AfterStep(s, l, a));
  }

  lemma GoesOneStep(es: seq<Event>, l: Lease, n: NodeId) returns (e: Event)
    requires n in Exec(es).nodes && l in Exec(es).Live(n)
    ensures var s, t := Exec(es), Exec(es + [e]);
      && Orderly(e, n) && SameLoops(s, t, n) && t.Live(n) <= s.Live(n)
      && (l in t.Live(n) ==> StepsLeft(t.tasks[l].phase) < StepsLeft(s.tasks[l].phase))
  {
    Reachable(es);
    e := GoesOn(Exec(es), l, n);
    ExecNext(es + [e], es, e);
  }

  lemma {:induction false} FinishesTask(es: seq<Event>, l: Lease, n: NodeId) returns (gs: seq<Event>)
    requires n in Exec(es).nodes && l in Exec(es).Live(n)
    ensures var s, t := Exec(es), Exec(es + gs);
      AllOrderly(gs, n) && SameLoops(s, t, n) && t.Live(n) <= s.Live(n) - {l}
    decreases StepsLeft(Exec(es).tasks[l].phase)
  {
    var e := GoesOneStep(es, l, n);
    gs := [e];
    if l in Exec(es + [e]).Live(n) {
      var rest := FinishesTask(es + [e], l, n);
      gs := [e] + rest;
      assert es + [e] + rest == es + gs;
      LiveWithout(Exec(es), Exec(es + [e]), Exec(es + gs), l, n);
    }
  }

  lemma LiveWithout(s: State, t: State, u: State, l: Lease, n: NodeId)
    requires SameLoops(s, t, n) && t.Live(n) <= s.Live(n) && SameLoops(t, u, n) && u.Live(n) <= t.Live(n) - {l}
    ensures SameLoops(s, u, n) && u.Live(n) <= s.Live(n) - {l}
  {
  }

  lemma {:induction false} FinishesAll(es: seq<Event>, n: NodeId) returns (gs: seq<Event>)
    requires n in Exec(es).nodes
    ensures var s, t := Exec(es), Exec(es + gs); AllOrderly(gs, n) && SameLoops(s, t, n) && t.Live(n) == {}
    decreases |Exec(es).Live(n)|
  {
    if Exec(es).Live(n) == {} {
      gs := [];
      assert es + gs == es;
    } else {
      var first := FinishesOne(es, n);
      var rest := FinishesAll(es + first, n);
      gs := first + rest;
      assert es + first + rest == es + gs;
    }
  }

  lemma FinishesOne(es: seq<Event>, n: NodeId) returns (first: seq<Event>)
    requires n in Exec(es).nodes && Exec(es).Live(n) != {}
    ensures var s, t := Exec(es), Exec(es + first);
      AllOrderly(first, n) && SameLoops(s, t, n) && |t.Live(n)| < |s.Live(n)|
  {
    var l :| l in Exec(es).Live(n);
    first := FinishesTask(es, l, n);
    Fewer(Exec(es + first).Live(n), Exec(es).Live(n), l);
  }

  lemma Fewer(after: set<Lease>, before: set<Lease>, l: Lease)
    requires l in before && after <= before - {l}
    ensures |after| < |before|
  {
    SubsetSize(after, before - {l});
  }

  // The loops.

  function StepsToExit(pc: LoopPc): nat {
    match pc
    case Exited => 0
    case Top => 1
    case _ => 2
  }

  ghost predicate SameMain(s: State, t: State, n: NodeId, lp: LoopId) {
    && n in s.nodes && n in t.nodes && t.nodes[n].main == s.nodes[n].main && t.nodes[n].stopping == s.nodes[n].stopping
    && t.nodes[n].Loop(Other(lp)) == s.nodes[n].Loop(Other(lp))
  }

  function LeavingStep(s: State, n: NodeId, lp: LoopId): LoopStep
    requires n in s.nodes
  {
    match s.nodes[n].Loop(lp)
    case Top => Exit
    case Call => NoReply
    case Dispatch => if s.WaitingFor(n, lp) == {} then BatchDone else GiveUp
    case _ => GiveUp
  }

  lemma LeavesOn(s: State, n: NodeId, lp: LoopId)
    requires Signalled(s, n) && s.nodes[n].Loop(lp) != Exited
    ensures LoopEnabled(s, n, lp, LeavingStep(s, n, lp)) && Orderly(Loop(n, lp, LeavingStep(s, n, lp)), n)
    ensures var t := Step(s, Loop(n, lp, LeavingStep(s, n, lp)));
      SameMain(s, t, n, lp) && StepsToExit(t.nodes[n].Loop(lp)) < StepsToExit(s.nodes[n].Loop(lp))
  {
  }

  lemma LeavesOneStep(es: seq<Event>, n: NodeId, lp: LoopId) returns (e: Event)
    requires Signalled(Exec(es), n) && Exec(es).nodes[n].Loop(lp) != Exited
    ensures var s, t := Exec(es), Exec(es + [e]);
      && Orderly(e, n) && SameMain(s, t, n, lp)
      && StepsToExit(t.nodes[n].Loop(lp)) < StepsToExit(s.nodes[n].Loop(lp))
  {
    e := Loop(n, lp, LeavingStep(Exec(es), n, lp));
    LeavesOn(Exec(es), n, lp);
    ExecNext(es + [e], es, e);
  }

  lemma {:induction false} ExitsLoop(es: seq<Event>, n: NodeId, lp: LoopId) returns (gs: seq<Event>)
    requires Signalled(Exec(es), n)
    ensures var s, t := Exec(es), Exec(es + gs);
      AllOrderly(gs, n) && SameMain(s, t, n, lp) && t.nodes[n].Loop(lp) == Exited
    decreases StepsToExit(Exec(es).nodes[n].Loop(lp))
  {
    if Exec(es).nodes[n].Loop(lp) == Exited {
      gs := [];
      assert es + gs == es;
    } else {
      var e := LeavesOneStep(es, n, lp);
      var rest := ExitsLoop(es + [e], n, lp);
      gs := [e] + rest;
      assert es + [e] + rest == es + gs;
    }
  }

  lemma BothExit(es: seq<Event>, n: NodeId) returns (gs: seq<Event>)
    requires Signalled(Exec(es), n) && Exec(es).nodes[n].main == Serving
    ensures var t := Exec(es + gs);
      && AllOrderly(gs, n) && n in t.nodes && t.nodes[n].main == Serving
      && t.nodes[n].reader == Exited && t.nodes[n].reclaimer == Exited
  {
    var first := ExitsLoop(es, n, Reader);
    var rest := ExitsLoop(es + first, n, Reclaimer);
    gs := first + rest;
    assert es + first + rest == es + gs;
  }

  // Main.

  lemma BeginsDraining(s: State, n: NodeId)
    requires n in s.nodes && s.nodes[n].main == Serving && s.nodes[n].reader == Exited && s.nodes[n].reclaimer == Exited
    ensures var t := Step(s, Main(n, BeginDrain)); n in t.nodes && t.nodes[n].main == Draining
  {
  }

  lemma EndsDraining(s: State, n: NodeId)
    requires NodeInv(s) && n in s.nodes && s.nodes[n].main == Draining && s.Live(n) == {}
    ensures var t := Step(s, Main(n, EndDrain)); n in t.nodes && t.nodes[n].main == Drained
  {
    assert NodeOk(s, n);
  }

  lemma DrainsFrom(es: seq<Event>, n: NodeId) returns (gs: seq<Event>)
    requires n in Exec(es).nodes && Exec(es).nodes[n].main == Draining
    ensures AllOrderly(gs, n) && IsDrained(Exec(es + gs), n)
  {
    var first := FinishesAll(es, n);
    Reachable(es + first);
    EndsDraining(Exec(es + first), n);
    ExecNext(es + first + [Main(n, EndDrain)], es + first, Main(n, EndDrain));
    gs := first + [Main(n, EndDrain)];
    assert es + first + [Main(n, EndDrain)] == es + gs;
  }

  lemma DrainsFromServing(es: seq<Event>, n: NodeId) returns (gs: seq<Event>)
    requires Signalled(Exec(es), n) && Exec(es).nodes[n].main == Serving
    ensures AllOrderly(gs, n) && IsDrained(Exec(es + gs), n)
  {
    var begin := Main(n, BeginDrain);
    var first := BothExit(es, n);
    BeginsDraining(Exec(es + first), n);
    ExecNext(es + first + [begin], es + first, begin);
    var rest := DrainsFrom(es + first + [begin], n);
    gs := first + [begin] + rest;
    assert es + first + [begin] + rest == es + gs;
  }

  lemma Drains(es: seq<Event>, n: NodeId) returns (gs: seq<Event>)
    requires Signalled(Exec(es), n) && Exec(es).nodes[n].main != Crashed
    ensures AllOrderly(gs, n) && IsDrained(Exec(es + gs), n)
  {
    match Exec(es).nodes[n].main
    case Serving => gs := DrainsFromServing(es, n);
    case Draining => gs := DrainsFrom(es, n);
    case Drained =>
      gs := [];
      assert es + gs == es;
  }

  /** Whatever happened since the signal, short of a crash of the node: it can drain, without a crash, a
      panic, a failed call or new work. */
  lemma SignalledNodeCanDrain(es: seq<Event>, fs: seq<Event>, n: NodeId)
    requires n in Exec(es).nodes && Exec(es).nodes[n].main == Serving
    requires var s := Exec(es + [Main(n, Signal)] + fs); n in s.nodes ==> s.nodes[n].main != Crashed
    ensures exists gs :: AllOrderly(gs, n) && IsDrained(Exec(es + [Main(n, Signal)] + fs + gs), n)
  {
    var before := es + [Main(n, Signal)] + fs;
    SignalTakesEffect(es, n);
    StaysSignalled(es + [Main(n, Signal)], fs, n);
    var gs := Drains(before, n);
  }

  ghost predicate IsDrained(s: State, n: NodeId) {
    n in s.nodes && s.nodes[n].main == Drained
  }
}
