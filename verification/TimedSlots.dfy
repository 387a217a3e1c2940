/** How long the protocol itself keeps a delivered message: with prompt and fair slots and a bounded
    occupancy, no holder is as old as a window that never steals. */
module TimedSlots {
  import opened Records
  import opened RedisStream
  import opened Protocol
  import opened ProtocolInvariants
  import opened NodeInvariants
  import opened Sets
  import opened Durability
  import opened ExclusiveHolding
  import opened TimedRuns
  import ReclaimWindow

  function Other(lp: LoopId): LoopId {
    if lp == Reader then Reclaimer else Reader
  }

  /** Node n starts a goroutine. */
  predicate Starting(s: State, e: Event, n: NodeId) {
    Enabled(s, e) && e.Loop? && e.node == n && e.loop.Start?
  }

  /** Its loop lp does. */
  predicate StartsTask(s: State, e: Event, n: NodeId, lp: LoopId) {
    Starting(s, e, n) && e.lp == lp
  }

  // ---- one step -----------------------------------------------------------------------------

  /** Nothing is delivered or started: tasks keep their nodes, and end or go on. */
  ghost predicate Quiet(s: State, t: State) {
    forall l :: l in t.tasks ==>
      && l in s.tasks && t.tasks[l].node == s.tasks[l].node
      && (t.tasks[l] == s.tasks[l] || (!s.tasks[l].phase.Waiting? && !t.tasks[l].phase.Waiting?))
  }

  predicate IsFetch(e: Event) {
    e.Loop? && (e.loop.Read? || e.loop.Claim?)
  }

  lemma ApiIsQuiet(s: State, j: JobId, a: ApiStep)
    requires ApiEnabled(s, j, a)
    ensures ApplyApi(s, j, a).tasks == s.tasks
  {
  }

  lemma LoopIsQuiet(s: State, n: NodeId, lp: LoopId, a: LoopStep)
    requires LoopEnabled(s, n, lp, a) && !a.Start? && !a.Read? && !a.Claim?
    ensures Quiet(s, ApplyLoop(s, n, lp, a))
  {
  }

  lemma AdvanceIsQuiet(s: State, l: Lease, next: Next)
    requires l in s.tasks && s.tasks[l].node in s.nodes && !s.tasks[l].phase.Waiting?
    requires next.To? ==> !next.phase.Waiting?
    ensures Quiet(s, Advance(s, l, next))
  {
  }

  lemma TaskIsQuiet(s: State, l: Lease, a: TaskStep)
    requires TaskEnabled(s, l, a)
    ensures Quiet(s, ApplyTask(s, l, a))
  {
    AdvanceIsQuiet(CallEffect(s, l, a), l, AfterStep(s, l, a));
  }

  lemma MainIsQuiet(s: State, n: NodeId, a: MainStep)
    requires MainEnabled(s, n, a)
    ensures Quiet(s, ApplyMain(s, n, a))
  {
  }

  lemma OthersAreQuiet(s: State, e: Event)
    requires Enabled(s, e) ==> !IsFetch(e) && !(e.Loop? && e.loop.Start?)
    ensures Quiet(s, Step(s, e))
  {
    if Enabled(s, e) {
      match e
      case Api(j, a) => ApiIsQuiet(s, j, a);
      case Junk(trim) => assert Step(s, e).tasks == s.tasks;
      case Loop(n, lp, a) => LoopIsQuiet(s, n, lp, a);
      case OfTask(l, a) => TaskIsQuiet(s, l, a);
      case Main(n, a) => MainIsQuiet(s, n, a);
    }
  }

  /** A delivery adds waiting tasks of its own loop, or none. */
  ghost predicate Arrives(s: State, t: State, n: NodeId, lp: LoopId, ls: set<Lease>) {
    forall l :: l in t.tasks ==>
      (l in s.tasks && t.tasks[l] == s.tasks[l]) || (l in ls && t.tasks[l] == Task(n, Waiting(lp)))
  }

  lemma ReceiveArrives(s: State, n: NodeId, lp: LoopId, d: Delivery, reply: bool)
    requires n in s.nodes
    ensures Arrives(s, Receive(s, n, lp, d, reply), n, lp, if reply then d.st.Leases(d.batch) else {})
  {
  }

  function Fetched(s: State, e: Event): set<Lease>
    requires Enabled(s, e) && IsFetch(e)
  {
    var d := DeliveryOf(s, e.node, e.loop);
    if e.loop.reply then d.st.Leases(d.batch) else {}
  }

  lemma FetchArrives(s: State, e: Event)
    requires Enabled(s, e) && IsFetch(e)
    ensures Arrives(s, Step(s, e), e.node, e.lp, Fetched(s, e))
  {
    ReceiveArrives(s, e.node, e.lp, DeliveryOf(s, e.node, e.loop), e.loop.reply);
  }

  lemma FetchIsNew(s: State, e: Event)
    requires LeaseInv(s) && Enabled(s, e) && IsFetch(e)
    ensures forall l :: l in s.tasks ==> l !in Fetched(s, e)
    ensures forall l :: l in Fetched(s, e) ==> s.stream.Deliveries(l.msg) < l.delivery
  {
    DeliversNew(s, e.node, e.lp, e.loop);
    LeasesAreNew(s, e.node, DeliveryOf(s, e.node, e.loop));
  }

  lemma StartIsOneTask(s: State, e: Event, n: NodeId, lp: LoopId)
    requires StartsTask(s, e, n, lp)
    ensures e.loop.lease in s.WaitingFor(n, lp)
    ensures Step(s, e).tasks == s.tasks[e.loop.lease := Task(n, Decode)]
  {
  }

  /** A node's goroutines come from its starts only. */
  lemma LiveGrowsByStarts(s: State, e: Event, n: NodeId)
    ensures var t := Step(s, e);
      if Starting(s, e, n) then t.Live(n) <= s.Live(n) + {e.loop.lease}
      else t.Live(n) <= s.Live(n)
  {
    if Enabled(s, e) && IsFetch(e) {
      FetchArrives(s, e);
    } else if Enabled(s, e) && e.Loop? && e.loop.Start? {
      StartIsOneTask(s, e, e.node, e.lp);
    } else {
      OthersAreQuiet(s, e);
    }
  }

  lemma StartShrinks(s: State, e: Event, n: NodeId, lp: LoopId)
    requires StartsTask(s, e, n, lp)
    ensures |Step(s, e).WaitingFor(n, lp)| + 1 <= |s.WaitingFor(n, lp)|
  {
    var before, after := s.WaitingFor(n, lp), Step(s, e).WaitingFor(n, lp);
    StartIsOneTask(s, e, n, lp);
    assert after <= before - {e.loop.lease};
    SubsetSize(after, before - {e.loop.lease});
  }

  lemma NothingWaits(s: State, e: Event)
    requires NodeInv(s) && Enabled(s, e) && IsFetch(e)
    ensures s.WaitingFor(e.node, e.lp) == {}
  {
    assert NodeOk(s, e.node);
  }

  /** While a batch waits it only shrinks, and by one with every start. */
  lemma WaitingShrinks(s: State, e: Event, n: NodeId, lp: LoopId)
    requires NodeInv(s) && s.WaitingFor(n, lp) != {} && n in s.nodes
    ensures Step(s, e).WaitingFor(n, lp) <= s.WaitingFor(n, lp)
  {
    if Enabled(s, e) && IsFetch(e) {
      NothingWaits(s, e);
      FetchArrives(s, e);
    } else if Enabled(s, e) && e.Loop? && e.loop.Start? {
      StartIsOneTask(s, e, e.node, e.lp);
    } else {
      OthersAreQuiet(s, e);
    }
  }

  /** A task stays with its node, and once started does not wait again. */
  lemma TaskStaysPut(s: State, e: Event, l: Lease)
    requires LeaseInv(s) && l in s.tasks && l in Step(s, e).tasks
    ensures var t := Step(s, e);
      t.tasks[l].node == s.tasks[l].node && (t.tasks[l].phase.Waiting? ==> s.tasks[l] == t.tasks[l])
  {
    if Enabled(s, e) && IsFetch(e) {
      FetchArrives(s, e);
      FetchIsNew(s, e);
    } else if Enabled(s, e) && e.Loop? && e.loop.Start? {
      StartIsOneTask(s, e, e.node, e.lp);
    } else {
      OthersAreQuiet(s, e);
    }
  }

  lemma {:induction false} LeaseCount(st: Stream, batch: set<MsgId>)
    ensures |st.Leases(batch)| <= |batch|
    decreases |batch|
  {
    if batch == {} {
      assert st.Leases(batch) == {};
    } else {
      var m :| m in batch;
      LeaseCount(st, batch - {m});
      assert st.Leases(batch) == st.Leases(batch - {m}) + {Lease(m, st.Deliveries(m))};
    }
  }

  lemma BatchSize(s: State, n: NodeId, lp: LoopId, a: LoopStep)
    requires s.stream.Valid() && LoopEnabled(s, n, lp, a) && (a.Read? || a.Claim?)
    ensures |DeliveryOf(s, n, a).batch| <= CLAIM_BATCH
  {
    if a.Claim? {
      ScanTakesTheFirst(s.stream, a.cutoff);
      SubsetSize(s.stream.Claimable(s.stream.Scan(a.cutoff)), s.stream.Scan(a.cutoff));
    }
  }

  /** The step that delivers lease l to loop lp of node n. */
  ghost predicate Delivers(s: State, e: Event, l: Lease, n: NodeId, lp: LoopId) {
    var t := Step(s, e);
    && l in t.tasks && t.tasks[l] == Task(n, Waiting(lp)) && s.stream.Deliveries(l.msg) < l.delivery
    && |t.WaitingFor(n, lp)| <= CLAIM_BATCH
  }

  lemma FetchedSize(s: State, e: Event)
    requires s.stream.Valid() && Enabled(s, e) && IsFetch(e)
    ensures |Fetched(s, e)| <= CLAIM_BATCH
  {
    var d := DeliveryOf(s, e.node, e.loop);
    BatchSize(s, e.node, e.lp, e.loop);
    LeaseCount(d.st, d.batch);
  }

  lemma ArrivesAlone(s: State, t: State, n: NodeId, lp: LoopId, ls: set<Lease>)
    requires Arrives(s, t, n, lp, ls) && s.WaitingFor(n, lp) == {}
    ensures |t.WaitingFor(n, lp)| <= |ls|
  {
    forall l | l in t.WaitingFor(n, lp) ensures l in ls {
      assert l !in s.WaitingFor(n, lp);
    }
    SubsetSize(t.WaitingFor(n, lp), ls);
  }

  lemma FetchedBatch(s: State, e: Event)
    requires Inv(s) && Enabled(s, e) && IsFetch(e)
    ensures |Step(s, e).WaitingFor(e.node, e.lp)| <= CLAIM_BATCH
  {
    NothingWaits(s, e);
    FetchArrives(s, e);
    FetchedSize(s, e);
    ArrivesAlone(s, Step(s, e), e.node, e.lp, Fetched(s, e));
  }

  lemma NewTaskIsDelivered(s: State, e: Event, l: Lease) returns (n: NodeId, lp: LoopId)
    requires Inv(s) && l !in s.tasks && l in Step(s, e).tasks
    ensures Delivers(s, e, l, n, lp)
  {
    if Enabled(s, e) && IsFetch(e) {
      n, lp := e.node, e.lp;
      FetchArrives(s, e);
      FetchIsNew(s, e);
      FetchedBatch(s, e);
    } else if Enabled(s, e) && e.Loop? && e.loop.Start? {
      StartIsOneTask(s, e, e.node, e.lp);
      assert false;
    } else {
      OthersAreQuiet(s, e);
      assert false;
    }
  }
  // ---- runs ---------------------------------------------------------------------------------

  ghost function At(es: seq<Event>, i: nat): State
    requires i <= |es|
  {
    Exec(es[..i])
  }

  lemma AtNext(es: seq<Event>, i: nat)
    requires i < |es|
    ensures At(es, i + 1) == Step(At(es, i), es[i])
  {
    assert es[..i + 1][..i] == es[..i];
  }

  /** When the state before event i came about. */
  function Begin(ts: seq<nat>, i: nat): nat
    requires i <= |ts|
  {
    if i == 0 then 0 else ts[i - 1]
  }

  ghost predicate LiveAt(es: seq<Event>, i: nat, n: NodeId, l: Lease)
    requires i <= |es|
  {
    l in At(es, i).Live(n)
  }

  ghost predicate WaitsAt(es: seq<Event>, i: nat, n: NodeId, lp: LoopId)
    requires i <= |es|
  {
    n in At(es, i).nodes && At(es, i).WaitingFor(n, lp) != {}
  }

  ghost predicate StartsAt(es: seq<Event>, i: nat, n: NodeId, lp: LoopId)
    requires i < |es|
  {
    StartsTask(At(es, i), es[i], n, lp)
  }

  /** No goroutine holds its slot for longer than R. */
  ghost predicate Occupies(es: seq<Event>, ts: seq<nat>, R: nat)
    requires |ts| == |es|
  {
    forall a, b, n, l :: 0 <= a <= b < |es| && LiveAt(es, a, n, l) && LiveAt(es, b, n, l) ==> ts[b] <= Begin(ts, a) + R
  }

  /** A loop that holds a slot for its next message, or could take one. */
  ghost predicate CanMove(s: State, n: NodeId, lp: LoopId)
    requires n in s.nodes
  {
    var nd := s.nodes[n];
    nd.Loop(lp) == SlotHeld || (nd.Loop(lp) == Dispatch && s.WaitingFor(n, lp) != {} && nd.slots < nd.capacity)
  }

  /** Dispatching takes no time of its own: the clock only moves on while no loop can. */
  ghost predicate Prompt(es: seq<Event>, ts: seq<nat>)
    requires |ts| == |es|
  {
    forall i, n, lp :: 0 <= i < |es| && n in At(es, i).nodes && Begin(ts, i) < ts[i] ==> !CanMove(At(es, i), n, lp)
  }

  ghost predicate WaitsThrough(es: seq<Event>, a: nat, b: nat, n: NodeId, lp: LoopId)
    requires a <= b <= |es|
  {
    forall x :: a <= x <= b ==> WaitsAt(es, x, n, lp)
  }

  /** While loop lp waits, the other one starts at i and at k. */
  ghost predicate Passes(es: seq<Event>, i: nat, k: nat, n: NodeId, lp: LoopId)
    requires i < k < |es|
  {
    WaitsThrough(es, i, k, n, lp) && StartsAt(es, i, n, Other(lp)) && StartsAt(es, k, n, Other(lp))
  }

  /** Slots go first come, first served: a waiting loop is not passed twice in a row. */
  ghost predicate FairSlots(es: seq<Event>) {
    forall i, k, n, lp :: 0 <= i < k < |es| && Passes(es, i, k, n, lp) ==> StartsBetween(es, i, k, n, lp)
  }

  ghost predicate StartsBetween(es: seq<Event>, i: nat, k: nat, n: NodeId, lp: LoopId)
    requires i < k < |es|
  {
    exists j :: i < j < k && StartsAt(es, j, n, lp)
  }

  /** Every node has at least C slots. */
  ghost predicate Roomy(es: seq<Event>, C: nat) {
    forall i, n :: 0 <= i < |es| && n in At(es, i).nodes ==> At(es, i).nodes[n].capacity >= C
  }

  // ---- counting starts ----------------------------------------------------------------------

  /** Whose starts they are, event by event. */
  ghost function Starters(es: seq<Event>, n: NodeId): (ws: seq<Option<LoopId>>)
    ensures |ws| == |es| && forall i, lp :: 0 <= i < |es| ==> (ws[i] == Some(lp) <==> StartsAt(es, i, n, lp))
  {
    seq(|es|, i requires 0 <= i < |es| => if Starting(At(es, i), es[i], n) then Some(es[i].lp) else None)
  }

  function Count(ws: seq<Option<LoopId>>, lp: LoopId, a: nat, b: nat): nat
    requires a <= b <= |ws|
    decreases b
  {
    if a == b then 0 else Count(ws, lp, a, b - 1) + if ws[b - 1] == Some(lp) then 1 else 0
  }

  function Both(ws: seq<Option<LoopId>>, a: nat, b: nat): nat
    requires a <= b <= |ws|
  {
    Count(ws, Reader, a, b) + Count(ws, Reclaimer, a, b)
  }

  lemma {:induction false} CountSplits(ws: seq<Option<LoopId>>, lp: LoopId, a: nat, x: nat, b: nat)
    requires a <= x <= b <= |ws|
    ensures Count(ws, lp, a, b) == Count(ws, lp, a, x) + Count(ws, lp, x, b)
    decreases b
  {
    if x < b {
      CountSplits(ws, lp, a, x, b - 1);
    }
  }

  /** The last start of the two loops was the other's. */
  predicate OtherLast(ws: seq<Option<LoopId>>, lp: LoopId, a: nat, b: nat)
    requires a <= b <= |ws|
    decreases b
  {
    a < b && (ws[b - 1] == Some(Other(lp)) || (ws[b - 1] == None && OtherLast(ws, lp, a, b - 1)))
  }

  /** The other loop does not start twice without this one in between. */
  ghost predicate InTurn(ws: seq<Option<LoopId>>, lp: LoopId, a: nat, b: nat)
    requires a <= b <= |ws|
  {
    forall i, k :: a <= i < k < b && ws[i] == ws[k] == Some(Other(lp)) ==> exists j :: i < j < k && ws[j] == Some(lp)
  }

  /** When that start was. */
  function LastOther(ws: seq<Option<LoopId>>, lp: LoopId, a: nat, b: nat): (i: nat)
    requires a <= b <= |ws| && OtherLast(ws, lp, a, b)
    ensures a <= i < b && ws[i] == Some(Other(lp))
    decreases b
  {
    if ws[b - 1] == Some(Other(lp)) then b - 1 else LastOther(ws, lp, a, b - 1)
  }

  lemma {:induction false} NobodySince(ws: seq<Option<LoopId>>, lp: LoopId, a: nat, b: nat, j: nat)
    requires a <= b <= |ws| && OtherLast(ws, lp, a, b) && LastOther(ws, lp, a, b) < j < b
    ensures ws[j] == None
    decreases b
  {
    if j < b - 1 {
      NobodySince(ws, lp, a, b - 1, j);
    }
  }

  lemma NotTwice(ws: seq<Option<LoopId>>, lp: LoopId, a: nat, b: nat)
    requires a < b <= |ws| && InTurn(ws, lp, a, b) && OtherLast(ws, lp, a, b - 1)
    ensures ws[b - 1] != Some(Other(lp))
  {
    var i := LastOther(ws, lp, a, b - 1);
    if ws[b - 1] == Some(Other(lp)) {
      assert ws[i] == ws[b - 1];
      var j :| i < j < b - 1 && ws[j] == Some(lp);
      NobodySince(ws, lp, a, b - 1, j);
    }
  }

  lemma OneOfTwo(w: Option<LoopId>, lp: LoopId)
    ensures w == None || w == Some(lp) || w == Some(Other(lp))
  {
    if w.Some? {
      assert (w.value.Reader? || w.value.Reclaimer?) && (lp.Reader? || lp.Reclaimer?);
    }
  }

  /** A loop served in turn is at most one start behind the other. */
  lemma {:induction false} OtherStarts(ws: seq<Option<LoopId>>, lp: LoopId, a: nat, b: nat)
    requires a <= b <= |ws| && InTurn(ws, lp, a, b)
    ensures Count(ws, Other(lp), a, b) <= Count(ws, lp, a, b) + (if OtherLast(ws, lp, a, b) then 1 else 0)
    decreases b
  {
    if a < b {
      OtherStarts(ws, lp, a, b - 1);
      OneOfTwo(ws[b - 1], lp);
      if OtherLast(ws, lp, a, b - 1) {
        NotTwice(ws, lp, a, b);
      }
    }
  }

  /** The goroutines of node n, state by state. */
  ghost function Lives(es: seq<Event>, n: NodeId): (lives: seq<set<Lease>>)
    ensures |lives| == |es| + 1 && forall i :: 0 <= i <= |es| ==> lives[i] == At(es, i).Live(n)
  {
    seq(|es| + 1, i requires 0 <= i <= |es| => At(es, i).Live(n))
  }

  ghost predicate ComeFromStarts(lives: seq<set<Lease>>, ws: seq<Option<LoopId>>) {
    |lives| == |ws| + 1 && forall i :: 0 <= i < |ws| ==> |lives[i + 1] - lives[i]| <= if ws[i].Some? then 1 else 0
  }

  /** Those of a later state that an earlier one did not have were started in between. */
  lemma {:induction false} NewLiveWereStarted(lives: seq<set<Lease>>, ws: seq<Option<LoopId>>, a: nat, b: nat)
    requires ComeFromStarts(lives, ws) && a <= b <= |ws|
    ensures |lives[b] - lives[a]| <= Both(ws, a, b)
    decreases b
  {
    if a == b {
      assert lives[b] - lives[a] == {};
    } else {
      NewLiveWereStarted(lives, ws, a, b - 1);
      OneOfTwo(ws[b - 1], Reader);
      OneMoreLive(lives[a], lives[b - 1], lives[b]);
      assert |lives[b - 1 + 1] - lives[b - 1]| <= if ws[b - 1].Some? then 1 else 0;
    }
  }

  lemma OneMoreLive(before: set<Lease>, mid: set<Lease>, after: set<Lease>)
    ensures |after - before| <= |mid - before| + |after - mid|
  {
    SubsetSize(after - before, (mid - before) + (after - mid));
    assert |(mid - before) + (after - mid)| <= |mid - before| + |after - mid|;
  }

  lemma OneStepOfLive(es: seq<Event>, n: NodeId, i: nat)
    requires i < |es|
    ensures |At(es, i + 1).Live(n) - At(es, i).Live(n)| <= if Starting(At(es, i), es[i], n) then 1 else 0
  {
    AtNext(es, i);
    LiveGrowsByStarts(At(es, i), es[i], n);
    var started := if Starting(At(es, i), es[i], n) then {es[i].loop.lease} else {};
    SubsetSize(At(es, i + 1).Live(n) - At(es, i).Live(n), started);
  }

  lemma LivesComeFromStarts(es: seq<Event>, n: NodeId)
    ensures ComeFromStarts(Lives(es, n), Starters(es, n))
  {
    var lives, ws := Lives(es, n), Starters(es, n);
    forall i | 0 <= i < |es| ensures |lives[i + 1] - lives[i]| <= if ws[i].Some? then 1 else 0 {
      OneStepOfLive(es, n, i);
      if Starting(At(es, i), es[i], n) { assert StartsAt(es, i, n, es[i].lp); }
    }
  }

  /** How many messages of its batch wait for loop lp, state by state. */
  ghost function Waits(es: seq<Event>, n: NodeId, lp: LoopId): (ks: seq<nat>)
    ensures |ks| == |es| + 1 && forall i :: 0 <= i <= |es| ==> ks[i] == |At(es, i).WaitingFor(n, lp)|
  {
    seq(|es| + 1, i requires 0 <= i <= |es| => |At(es, i).WaitingFor(n, lp)|)
  }

  lemma {:induction false} OwnStarts(ks: seq<nat>, ws: seq<Option<LoopId>>, lp: LoopId, a: nat, b: nat)
    requires a <= b <= |ws| < |ks|
    requires forall i :: a <= i < b ==> ks[i + 1] + (if ws[i] == Some(lp) then 1 else 0) <= ks[i]
    ensures Count(ws, lp, a, b) + ks[b] <= ks[a]
    decreases b
  {
    if a < b {
      OwnStarts(ks, ws, lp, a, b - 1);
      assert ks[b - 1 + 1] + (if ws[b - 1] == Some(lp) then 1 else 0) <= ks[b - 1];
    }
  }

  lemma OneStepOfBatch(es: seq<Event>, n: NodeId, lp: LoopId, ws: seq<Option<LoopId>>, i: nat)
    requires i < |es| && WaitsAt(es, i, n, lp) && ws == Starters(es, n)
    ensures |At(es, i + 1).WaitingFor(n, lp)| + (if ws[i] == Some(lp) then 1 else 0) <= |At(es, i).WaitingFor(n, lp)|
  {
    var s := At(es, i);
    AtNext(es, i);
    Reachable(es[..i]);
    if StartsAt(es, i, n, lp) {
      StartShrinks(s, es[i], n, lp);
    } else {
      WaitingShrinks(s, es[i], n, lp);
      SubsetSize(Step(s, es[i]).WaitingFor(n, lp), s.WaitingFor(n, lp));
    }
  }

  lemma StarterBetween(es: seq<Event>, n: NodeId, lp: LoopId, ws: seq<Option<LoopId>>, i: nat, k: nat)
    requires i < k < |es| && ws == Starters(es, n) && StartsBetween(es, i, k, n, lp)
    ensures exists j :: i < j < k && ws[j] == Some(lp)
  {
    var j :| i < j < k && StartsAt(es, j, n, lp);
    assert ws[j] == Some(lp);
  }

  lemma FairIsInTurn(es: seq<Event>, n: NodeId, lp: LoopId, ws: seq<Option<LoopId>>, a: nat, b: nat)
    requires a <= b < |es| && WaitsThrough(es, a, b, n, lp) && FairSlots(es) && ws == Starters(es, n)
    ensures InTurn(ws, lp, a, b)
  {
    forall i, k | a <= i < k < b && ws[i] == ws[k] == Some(Other(lp))
      ensures exists j :: i < j < k && ws[j] == Some(lp)
    {
      assert StartsAt(es, i, n, Other(lp)) && StartsAt(es, k, n, Other(lp));
      assert WaitsThrough(es, i, k, n, lp);
      assert Passes(es, i, k, n, lp);
      StarterBetween(es, n, lp, ws, i, k);
    }
  }

  /** While a message waits, fewer than twice its batch start. */
  lemma StartsAhead(es: seq<Event>, n: NodeId, lp: LoopId, ws: seq<Option<LoopId>>, a: nat, b: nat, batch: nat)
    requires a <= b < |es| && WaitsThrough(es, a, b, n, lp) && FairSlots(es) && ws == Starters(es, n)
    requires |At(es, a).WaitingFor(n, lp)| <= batch
    ensures Both(ws, a, b) <= 2 * batch - 1
  {
    var ks := Waits(es, n, lp);
    forall i | a <= i < b ensures ks[i + 1] + (if ws[i] == Some(lp) then 1 else 0) <= ks[i] {
      assert WaitsAt(es, i, n, lp);
      OneStepOfBatch(es, n, lp, ws, i);
    }
    OwnStarts(ks, ws, lp, a, b);
    FairIsInTurn(es, n, lp, ws, a, b);
    OtherStarts(ws, lp, a, b);
    assert WaitsAt(es, b, n, lp);
    assert |At(es, b).WaitingFor(n, lp)| > 0;
  }

  // ---- rounds -------------------------------------------------------------------------------

  /** Where time passes while a loop waits, all slots run. */
  lemma AllSlotsRun(s: State, n: NodeId, lp: LoopId)
    requires NodeInv(s) && n in s.nodes && s.WaitingFor(n, lp) != {}
    requires !CanMove(s, n, Reader) && !CanMove(s, n, Reclaimer)
    ensures |s.Live(n)| >= s.nodes[n].capacity
  {
    assert NodeOk(s, n);
  }

  /** The first moment after `bound` between events a and b. */
  lemma {:induction false} Crossing(ts: seq<nat>, a: nat, b: nat, bound: nat) returns (x: nat)
    requires a <= b < |ts| && Begin(ts, a) <= bound < ts[b]
    ensures a <= x <= b && Begin(ts, x) <= bound < ts[x]
    decreases b
  {
    if a == b || ts[b - 1] <= bound {
      x := b;
    } else {
      x := Crossing(ts, a, b - 1, bound);
    }
  }

  lemma NotLiveSince(es: seq<Event>, ts: seq<nat>, n: NodeId, l: Lease, x: nat, y: nat, R: nat)
    requires |ts| == |es| && Occupies(es, ts, R) && x <= y < |es| && LiveAt(es, y, n, l) && Begin(ts, x) + R < ts[y]
    ensures !LiveAt(es, x, n, l)
  {
  }

  /** A round: R after event x every slot has been started anew. */
  lemma OneRound(es: seq<Event>, ts: seq<nat>, n: NodeId, lp: LoopId, x: nat, y: nat, C: nat, R: nat)
    requires |ts| == |es| && Occupies(es, ts, R) && Prompt(es, ts) && Roomy(es, C)
    requires x <= y < |es| && WaitsAt(es, y, n, lp) && Begin(ts, y) < ts[y] && Begin(ts, x) + R < ts[y]
    ensures Both(Starters(es, n), x, y) >= C
  {
    var now, before := At(es, y).Live(n), At(es, x).Live(n);
    forall l | l in now ensures l !in before {
      NotLiveSince(es, ts, n, l, x, y, R);
    }
    assert now - before == now;
    LivesComeFromStarts(es, n);
    NewLiveWereStarted(Lives(es, n), Starters(es, n), x, y);
    Reachable(es[..y]);
    assert !CanMove(At(es, y), n, Reader) && !CanMove(At(es, y), n, Reclaimer);
    AllSlotsRun(At(es, y), n, lp);
  }

  lemma OneLess(m: nat, k: nat)
    requires m > 0
    ensures m * k == (m - 1) * k + k && (m - 1) * k >= 0
  {
  }

  /** Every R of waiting starts C more. */
  lemma {:induction false} RoundsStart(es: seq<Event>, ts: seq<nat>, n: NodeId, lp: LoopId, ws: seq<Option<LoopId>>,
                                       a: nat, b: nat, C: nat, R: nat, m: nat)
    requires |ts| == |es| && Occupies(es, ts, R) && Prompt(es, ts) && Roomy(es, C) && ws == Starters(es, n)
    requires a <= b < |es| && WaitsThrough(es, a, b, n, lp) && ts[b] > Begin(ts, a) + m * R
    ensures Both(ws, a, b) >= m * C
    decreases m
  {
    if m > 0 {
      OneLess(m, R);
      OneLess(m, C);
      var y := Crossing(ts, a, b, Begin(ts, a) + m * R);
      var x := Crossing(ts, a, y, Begin(ts, a) + (m - 1) * R);
      assert WaitsThrough(es, a, x, n, lp) && WaitsAt(es, y, n, lp);
      RoundsStart(es, ts, n, lp, ws, a, x, C, R, m - 1);
      OneRound(es, ts, n, lp, x, y, C, R);
      BothSplit(ws, a, x, y, b);
    }
  }

  lemma BothSplit(ws: seq<Option<LoopId>>, a: nat, x: nat, y: nat, b: nat)
    requires a <= x <= y <= b <= |ws|
    ensures Both(ws, a, b) >= Both(ws, a, x) + Both(ws, x, y)
  {
    CountSplits(ws, Reader, a, x, y);
    CountSplits(ws, Reclaimer, a, x, y);
    CountSplits(ws, Reader, a, y, b);
    CountSplits(ws, Reclaimer, a, y, b);
  }

  lemma MoreThan(k: nat, C: nat)
    requires C > 0
    ensures (k / C + 1) * C > k
  {
    assert k == k / C * C + k % C;
    assert (k / C + 1) * C == k / C * C + C;
  }

  /** So a message of a batch waits at most as many rounds as there are starts ahead of it. */
  lemma WaitsAtMost(es: seq<Event>, ts: seq<nat>, n: NodeId, lp: LoopId, a: nat, b: nat, C: nat, R: nat, batch: nat)
    requires |ts| == |es| && Occupies(es, ts, R) && Prompt(es, ts) && Roomy(es, C) && FairSlots(es) && C > 0
    requires a <= b < |es| && WaitsThrough(es, a, b, n, lp) && batch > 0
    requires |At(es, a).WaitingFor(n, lp)| <= batch
    ensures ts[b] <= Begin(ts, a) + ((2 * batch - 1) / C + 1) * R
  {
    var m := (2 * batch - 1) / C + 1;
    MoreThan(2 * batch - 1, C);
    StartsAhead(es, n, lp, Starters(es, n), a, b, batch);
    if ts[b] > Begin(ts, a) + m * R {
      RoundsStart(es, ts, n, lp, Starters(es, n), a, b, C, R, m);
    }
  }
  // ---- every task ---------------------------------------------------------------------------

  /** Lease l reached loop lp of node n just before state a and is held in all states up to i. */
  ghost predicate HeldSince(es: seq<Event>, l: Lease, n: NodeId, lp: LoopId, a: nat, i: nat)
    requires i <= |es|
  {
    && 0 < a <= i && |At(es, a).WaitingFor(n, lp)| <= CLAIM_BATCH && IsWaiting(es, l, a)
    && forall x :: a <= x <= i ==> HeldAt(es, l, n, lp, x)
  }

  ghost predicate IsWaiting(es: seq<Event>, l: Lease, x: nat)
    requires x <= |es|
  {
    l in At(es, x).tasks && At(es, x).tasks[l].phase.Waiting?
  }

  ghost predicate HeldAt(es: seq<Event>, l: Lease, n: NodeId, lp: LoopId, x: nat)
    requires x <= |es|
  {
    && l in At(es, x).tasks && At(es, x).tasks[l].node == n && n in At(es, x).nodes
    && (At(es, x).tasks[l].phase.Waiting? ==> At(es, x).tasks[l].phase == Waiting(lp))
  }

  lemma StillHeld(es: seq<Event>, l: Lease, n: NodeId, lp: LoopId, x: nat)
    requires x < |es| && HeldAt(es, l, n, lp, x) && l in At(es, x + 1).tasks
    ensures HeldAt(es, l, n, lp, x + 1) && (IsWaiting(es, l, x + 1) ==> IsWaiting(es, l, x))
  {
    TaskStaysAt(es, l, x);
    TaskHasNode(es, l, x + 1);
  }

  lemma TaskStaysAt(es: seq<Event>, l: Lease, x: nat)
    requires x < |es| && l in At(es, x).tasks && l in At(es, x + 1).tasks
    ensures At(es, x + 1).tasks[l].node == At(es, x).tasks[l].node
    ensures At(es, x + 1).tasks[l].phase.Waiting? ==> At(es, x).tasks[l] == At(es, x + 1).tasks[l]
  {
    AtNext(es, x);
    Reachable(es[..x]);
    TaskStaysPut(At(es, x), es[x], l);
  }

  lemma TaskHasNode(es: seq<Event>, l: Lease, x: nat)
    requires x <= |es| && l in At(es, x).tasks
    ensures At(es, x).tasks[l].node in At(es, x).nodes
  {
    Reachable(es[..x]);
  }

  lemma DeliveredInto(es: seq<Event>, l: Lease, i: nat) returns (n: NodeId, lp: LoopId)
    requires 0 < i <= |es| && l !in At(es, i - 1).tasks && l in At(es, i).tasks
    ensures At(es, i).tasks[l] == Task(n, Waiting(lp)) && |At(es, i).WaitingFor(n, lp)| <= CLAIM_BATCH
    ensures At(es, i - 1).stream.Deliveries(l.msg) < l.delivery
  {
    AtNext(es, i - 1);
    Reachable(es[..i - 1]);
    n, lp := NewTaskIsDelivered(At(es, i - 1), es[i - 1], l);
  }

  lemma DeliveredEarlier(es: seq<Event>, ts: seq<nat>, l: Lease, i: nat)
    requires |ts| == |es| && 0 < i <= |es| && l in At(es, i - 1).tasks
    ensures DeliveredAt(es[..i], ts[..i], l) == DeliveredAt(es[..i - 1], ts[..i - 1], l)
  {
    assert es[..i][..i - 1] == es[..i - 1] && ts[..i][..i - 1] == ts[..i - 1];
    HeldWasDelivered(es, l, i - 1);
  }

  lemma HeldWasDelivered(es: seq<Event>, l: Lease, x: nat)
    requires x <= |es| && l in At(es, x).tasks
    ensures l.delivery <= At(es, x).stream.Deliveries(l.msg)
  {
    Reachable(es[..x]);
    TaskWasDelivered(At(es, x), l);
  }

  lemma JustDelivered(es: seq<Event>, ts: seq<nat>, l: Lease, i: nat)
    requires |ts| == |es| && 0 < i <= |es| && At(es, i - 1).stream.Deliveries(l.msg) < l.delivery
    ensures DeliveredAt(es[..i], ts[..i], l) == ts[i - 1]
  {
    assert es[..i][..i - 1] == es[..i - 1];
  }

  lemma HeldFromDelivery(es: seq<Event>, l: Lease, i: nat) returns (n: NodeId, lp: LoopId)
    requires 0 < i <= |es| && l !in At(es, i - 1).tasks && l in At(es, i).tasks
    ensures HeldSince(es, l, n, lp, i, i) && At(es, i - 1).stream.Deliveries(l.msg) < l.delivery
  {
    n, lp := DeliveredInto(es, l, i);
    TaskHasNode(es, l, i);
  }

  /** Every task is held since its delivery. */
  lemma {:induction false} TaskIsHeld(es: seq<Event>, ts: seq<nat>, l: Lease, i: nat)
    returns (n: NodeId, lp: LoopId, a: nat)
    requires |ts| == |es| && i <= |es| && l in At(es, i).tasks
    ensures HeldSince(es, l, n, lp, a, i) && Begin(ts, a) == DeliveredAt(es[..i], ts[..i], l)
    decreases i
  {
    if i == 0 {
      assert false;
    } else if l in At(es, i - 1).tasks {
      n, lp, a := TaskIsHeld(es, ts, l, i - 1);
      assert HeldAt(es, l, n, lp, i - 1);
      StillHeld(es, l, n, lp, i - 1);
      DeliveredEarlier(es, ts, l, i);
    } else {
      n, lp := HeldFromDelivery(es, l, i);
      a := i;
      JustDelivered(es, ts, l, i);
    }
  }

  lemma {:induction false} WaitedBefore(es: seq<Event>, l: Lease, n: NodeId, lp: LoopId, a: nat, x: nat, i: nat)
    requires i <= |es| && HeldSince(es, l, n, lp, a, i) && a <= x <= i && IsWaiting(es, l, i)
    ensures IsWaiting(es, l, x)
    decreases i
  {
    if x < i {
      assert HeldAt(es, l, n, lp, i - 1) && HeldAt(es, l, n, lp, i);
      StillHeld(es, l, n, lp, i - 1);
      WaitedBefore(es, l, n, lp, a, x, i - 1);
    }
  }

  /** The last state up to i in which it waits. */
  lemma {:induction false} LastWait(es: seq<Event>, l: Lease, n: NodeId, lp: LoopId, a: nat, i: nat) returns (p: nat)
    requires i <= |es| && HeldSince(es, l, n, lp, a, i)
    ensures a <= p <= i && IsWaiting(es, l, p) && (p < i ==> !IsWaiting(es, l, p + 1) && !IsWaiting(es, l, i))
    decreases i
  {
    if IsWaiting(es, l, i) {
      p := i;
    } else {
      p := LastWait(es, l, n, lp, a, i - 1);
    }
  }

  lemma HeldWaits(es: seq<Event>, l: Lease, n: NodeId, lp: LoopId, a: nat, p: nat)
    requires p <= |es| && HeldSince(es, l, n, lp, a, p) && IsWaiting(es, l, p)
    ensures WaitsThrough(es, a, p, n, lp)
  {
    forall x | a <= x <= p ensures WaitsAt(es, x, n, lp) {
      assert HeldAt(es, l, n, lp, x);
      WaitedBefore(es, l, n, lp, a, x, p);
      assert l in At(es, x).WaitingFor(n, lp);
    }
  }

  lemma RunsAtMost(es: seq<Event>, ts: seq<nat>, R: nat, l: Lease, n: NodeId, lp: LoopId, p: nat, i: nat)
    requires |ts| == |es| && Occupies(es, ts, R) && p < i < |es|
    requires HeldAt(es, l, n, lp, p + 1) && HeldAt(es, l, n, lp, i)
    requires !IsWaiting(es, l, p + 1) && !IsWaiting(es, l, i)
    ensures ts[i] <= ts[p] + R
  {
    assert LiveAt(es, p + 1, n, l) && LiveAt(es, i, n, l);
  }

  /** No task is older than its worst-case rounds, from the delivery of its message on. */
  lemma TaskAge(es: seq<Event>, ts: seq<nat>, C: nat, R: nat, l: Lease, i: nat)
    requires |ts| == |es| && Occupies(es, ts, R) && Prompt(es, ts) && Roomy(es, C) && FairSlots(es) && C > 0
    requires i < |es| && l in At(es, i).tasks
    ensures ts[i] <= DeliveredAt(es[..i], ts[..i], l) + ((2 * CLAIM_BATCH - 1) / C + 2) * R
  {
    var n, lp, a := TaskIsHeld(es, ts, l, i);
    var p := LastWait(es, l, n, lp, a, i);
    assert HeldSince(es, l, n, lp, a, p);
    HeldWaits(es, l, n, lp, a, p);
    WaitsAtMost(es, ts, n, lp, a, p, C, R, CLAIM_BATCH);
    OneMoreRound((2 * CLAIM_BATCH - 1) / C, R);
    if p < i {
      assert HeldAt(es, l, n, lp, p + 1) && HeldAt(es, l, n, lp, i);
      RunsAtMost(es, ts, R, l, n, lp, p, i);
    }
  }

  lemma OneMoreRound(q: nat, R: nat)
    ensures (q + 2) * R == (q + 1) * R + R && (q + 1) * R >= 0
  {
  }

  // ---- the window ---------------------------------------------------------------------------

  /** The hypotheses on slots: at least C of them at every node, none held for longer than R, handed
      out at once, first come, first served. */
  ghost predicate SlotsWork(es: seq<Event>, ts: seq<nat>, C: nat, R: nat) {
    Timed(es, ts) && Occupies(es, ts, R) && Prompt(es, ts) && FairSlots(es) && Roomy(es, C)
  }

  /** A window in which no schedule of a claimed batch is ever stolen from keeps every run: each holder
      is done before its message may be claimed. */
  lemma SafeWindowIsKept(es: seq<Event>, ts: seq<nat>, C: nat, R: nat, window: nat)
    requires C > 0 && SlotsWork(es, ts, C, R) && ReclaimWindow.NeverStolen(C, R, CLAIM_BATCH, window)
    ensures DoneWithin(es, ts, window)
  {
    ReclaimWindow.NeverStolenIff(C, R, CLAIM_BATCH, window);
    forall i, l | 0 <= i < |es| && l in Exec(es[..i]).tasks
      ensures ts[i] < DeliveredAt(es[..i], ts[..i], l) + window
    {
      TaskAge(es, ts, C, R, l, i);
    }
  }

  /** So with claims that wait for such a window, every acknowledged message has a completed or failed
      record, or is dead-lettered, in every state from its acknowledgement on. */
  lemma SafeWindowStaysFinal(es: seq<Event>, ts: seq<nat>, C: nat, R: nat, window: nat)
    requires C > 0 && SlotsWork(es, ts, C, R) && ReclaimWindow.NeverStolen(C, R, CLAIM_BATCH, window)
    requires ClaimsAfter(es, ts, window)
    ensures ExclusiveRun(es) && forall i :: 0 <= i <= |es| ==> AckedIsFinal(Exec(es[..i]))
  {
    SafeWindowIsKept(es, ts, C, R, window);
    WindowMeansExclusive(es, ts, window);
    WindowedRunsStayFinal(es, ts, window);
  }

  /** The shipped defaults are such a window: 25 slots, 30 seconds per model call, 300 seconds. */
  lemma DefaultsStayFinal(es: seq<Event>, ts: seq<nat>)
    requires SlotsWork(es, ts, 25, ReclaimWindow.Occupancy(30)) && ClaimsAfter(es, ts, 300)
    ensures ExclusiveRun(es) && forall i :: 0 <= i <= |es| ==> AckedIsFinal(Exec(es[..i]))
  {
    ReclaimWindow.DefaultsSuffice();
    SafeWindowStaysFinal(es, ts, 25, ReclaimWindow.Occupancy(30), 300);
  }
}
