/** How long a goroutine can hold its slot: the contexts its calls run under bound it, and their sum is
    the occupancy from which the reclaim window is judged. */
module SlotUse {
  import opened Draining
  import opened NodeInvariants
  import opened Protocol
  import opened ReclaimWindow
  import opened RedisStream

  ghost predicate Running(s: State, l: Lease) {
    l in s.tasks && !s.tasks[l].phase.Waiting?
  }

  /** The time a step may take. Acknowledging and deleting share the context of the save, or of the
      dead-lettering, before them. */
  function TimeLimit(a: TaskStep, timeout: nat): nat {
    match a
    case MarkRunning(_) => PERSIST_TIMEOUT
    case Return(_) => timeout
    case SaveResult(_) => PERSIST_TIMEOUT
    case SendToDLQ(_) => PERSIST_TIMEOUT
    case _ => 0
  }

  /** The time that the goroutine of l may take in the events fs after es. */
  ghost function SlotTime(es: seq<Event>, fs: seq<Event>, l: Lease, timeout: nat): nat
    decreases |fs|
  {
    if fs == [] || !Running(Exec(es), l) then 0
    else StepTime(Exec(es), fs[0], l, timeout) + SlotTime(es + [fs[0]], fs[1..], l, timeout)
  }

  function StepTime(s: State, e: Event, l: Lease, timeout: nat): nat {
    if e.OfTask? && e.lease == l && Enabled(s, e) then TimeLimit(e.task, timeout) else 0
  }

  function StepPanics(s: State, e: Event, l: Lease): nat {
    if e == OfTask(l, Panic) && Enabled(s, e) then 1 else 0
  }

  /** How often that goroutine panics meanwhile. */
  ghost function Panics(es: seq<Event>, fs: seq<Event>, l: Lease): nat
    decreases |fs|
  {
    if fs == [] || !Running(Exec(es), l) then 0
    else StepPanics(Exec(es), fs[0], l) + Panics(es + [fs[0]], fs[1..], l)
  }

  /** What a goroutine in phase ph may still take if it does not panic. */
  function TimeLeft(ph: Phase, timeout: nat): nat {
    match ph
    case Waiting(_) => 0
    case Decode => PERSIST_TIMEOUT + timeout + PERSIST_TIMEOUT
    case Mark => PERSIST_TIMEOUT + timeout + PERSIST_TIMEOUT
    case Evaluating(_) => timeout + PERSIST_TIMEOUT
    case Check(_) => PERSIST_TIMEOUT
    case Save(_) => PERSIST_TIMEOUT
    case DeadLetter => PERSIST_TIMEOUT
    case Ack => 0
    case Delete => 0
  }

  // ---- no longer than that ------------------------------------------------------------------

  lemma AdvanceUses(s: State, l: Lease, a: TaskStep, timeout: nat)
    requires TaskEnabled(s, l, a)
    ensures var next := AfterStep(s, l, a);
      && TimeLimit(a, timeout) + (if next.To? then TimeLeft(next.phase, timeout) else 0)
         <= TimeLeft(s.tasks[l].phase, timeout) + PERSIST_TIMEOUT * StepPanics(s, OfTask(l, a), l)
  {
  }

  lemma LoopLeavesPhase(s: State, k: NodeId, lp: LoopId, a: LoopStep, l: Lease)
    requires LoopEnabled(s, k, lp, a) && Running(s, l) && Running(ApplyLoop(s, k, lp, a), l)
    ensures ApplyLoop(s, k, lp, a).tasks[l].phase == s.tasks[l].phase
  {
    match a
    case Read(_, _) =>
    case Claim(_, _) =>
    case _ =>
  }

  lemma OthersLeavePhase(s: State, e: Event, l: Lease)
    requires Running(s, l) && Running(Step(s, e), l) && !(e.OfTask? && e.lease == l)
    ensures Step(s, e).tasks[l].phase == s.tasks[l].phase
  {
    if Enabled(s, e) {
      match e
      case Loop(k, lp, a) => LoopLeavesPhase(s, k, lp, a, l);
      case OfTask(k, a) => AdvanceLeads(CallEffect(s, k, a), k, AfterStep(s, k, a));
      case Main(k, a) =>
      case Api(j, a) => assert ApplyApi(s, j, a).tasks == s.tasks;
      case Junk(_) =>
    }
  }

  lemma StepUses(s: State, e: Event, l: Lease, timeout: nat)
    requires Running(s, l)
    ensures var t := Step(s, e);
      StepTime(s, e, l, timeout) + (if Running(t, l) then TimeLeft(t.tasks[l].phase, timeout) else 0)
      <= TimeLeft(s.tasks[l].phase, timeout) + PERSIST_TIMEOUT * StepPanics(s, e, l)
  {
    var t := Step(s, e);
    if e.OfTask? && e.lease == l && Enabled(s, e) {
      AdvanceUses(s, l, e.task, timeout);
      AdvanceLeads(CallEffect(s, l, e.task), l, AfterStep(s, l, e.task));
    } else if Running(t, l) && Enabled(s, e) {
      OthersLeavePhase(s, e, l);
    }
  }

  lemma {:induction false} SlotTimeLeft(es: seq<Event>, fs: seq<Event>, l: Lease, timeout: nat)
    requires Running(Exec(es), l)
    ensures SlotTime(es, fs, l, timeout)
         <= TimeLeft(Exec(es).tasks[l].phase, timeout) + PERSIST_TIMEOUT * Panics(es, fs, l)
    decreases |fs|
  {
    if fs != [] {
      ExecNext(es + [fs[0]], es, fs[0]);
      StepUses(Exec(es), fs[0], l, timeout);
      if Running(Exec(es + [fs[0]]), l) {
        SlotTimeLeft(es + [fs[0]], fs[1..], l, timeout);
      }
    }
  }

  /** In every run a goroutine holds its slot for at most the maximum occupancy, and five seconds more
      for each panic, which dead-letters its message. */
  lemma SlotTimeWithin(es: seq<Event>, fs: seq<Event>, l: Lease, timeout: nat)
    requires Running(Exec(es), l)
    ensures SlotTime(es, fs, l, timeout) <= Occupancy(timeout) + PERSIST_TIMEOUT * Panics(es, fs, l)
  {
    SlotTimeLeft(es, fs, l, timeout);
  }

  // ---- and possibly as long -----------------------------------------------------------------

  /** A goroutine with a job whose node goes on. */
  ghost predicate MayFinish(s: State, l: Lease) {
    && Running(s, l) && s.tasks[l].node in s.nodes && s.PayloadOf(l).Job?
    && !s.nodes[s.tasks[l].node].jobCancelled
  }

  lemma NextUses(s: State, l: Lease, timeout: nat)
    requires MayFinish(s, l) && TaskEnabled(s, l, NextStep(s.tasks[l].phase))
    ensures var a, t := NextStep(s.tasks[l].phase), Step(s, OfTask(l, NextStep(s.tasks[l].phase)));
      && !a.Panic?
      && TimeLeft(s.tasks[l].phase, timeout)
         == TimeLimit(a, timeout) + (if Running(t, l) then TimeLeft(t.tasks[l].phase, timeout) else 0)
      && (Running(t, l) ==> MayFinish(t, l) && StepsLeft(t.tasks[l].phase) < StepsLeft(s.tasks[l].phase))
  {
    var a := NextStep(s.tasks[l].phase);
    AdvanceLeads(CallEffect(s, l, a), l, AfterStep(s, l, a));
    TaskKeepsNode(s, l, a, s.tasks[l].node);
    NextLeadsOn(s, l);
  }

  lemma NextEvent(es: seq<Event>, l: Lease, timeout: nat) returns (e: Event)
    requires MayFinish(Exec(es), l)
    ensures var s, t := Exec(es), Exec(es + [e]);
      && StepPanics(s, e, l) == 0
      && TimeLeft(s.tasks[l].phase, timeout)
         == StepTime(s, e, l, timeout) + (if Running(t, l) then TimeLeft(t.tasks[l].phase, timeout) else 0)
      && (Running(t, l) ==> MayFinish(t, l) && StepsLeft(t.tasks[l].phase) < StepsLeft(s.tasks[l].phase))
  {
    e := OfTask(l, NextStep(Exec(es).tasks[l].phase));
    Reachable(es);
    NextIsEnabled(Exec(es), l);
    ExecNext(es + [e], es, e);
    NextUses(Exec(es), l, timeout);
  }

  lemma {:induction false} TakesAllTime(es: seq<Event>, l: Lease, timeout: nat) returns (fs: seq<Event>)
    requires MayFinish(Exec(es), l)
    ensures SlotTime(es, fs, l, timeout) == TimeLeft(Exec(es).tasks[l].phase, timeout) && Panics(es, fs, l) == 0
    decreases StepsLeft(Exec(es).tasks[l].phase)
  {
    var e := NextEvent(es, l, timeout);
    var rest := [];
    if Running(Exec(es + [e]), l) {
      rest := TakesAllTime(es + [e], l, timeout);
    }
    fs := [e] + rest;
    assert fs[0] == e && fs[1..] == rest;
  }

  /** From every state in which a job's goroutine has just begun, short of the drain deadline, it may
      hold its slot for the whole occupancy without a panic. */
  lemma SlotTimeReached(es: seq<Event>, l: Lease, timeout: nat)
    requires MayFinish(Exec(es), l) && Exec(es).tasks[l].phase == Decode
    ensures exists fs :: SlotTime(es, fs, l, timeout) == Occupancy(timeout) && Panics(es, fs, l) == 0
  {
    var fs := TakesAllTime(es, l, timeout);
  }
}
