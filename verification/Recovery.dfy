/** From every reachable state a newly joined worker, meeting no failure, brings any message still on
    the stream to its end: it fetches full batches, works through the older messages first, and
    needs nobody else to move, however the other workers were stopped and whatever they hold. */
module Recovery {
  import opened Records
  import opened RedisStream
  import opened Protocol
  import opened ProtocolInvariants
  import opened NodeInvariants
  import opened NoLoss
  import opened Runs
  import opened Sets

  predicate SmoothStep(a: TaskStep) {
    match a
    case MarkRunning(c) => c.Ok?
    case SaveResult(c) => c.Ok?
    case SendToDLQ(c) => c.Ok?
    case AckJob(c) => c.Ok?
    case DeleteMessage(c) => c.Ok?
    case Return(status) => status == Completed
    case DecodePayload => true
    case CheckCancel => true
    case _ => false
  }

  /** An event of worker n in which every call succeeds and is answered. */
  predicate Smooth(e: Event, n: NodeId) {
    match e
    case Loop(k, _, a) => k == n && (a.Read? || a.Claim? ==> a.reply) && !a.NoReply? && !a.GiveUp?
    case OfTask(_, a) => SmoothStep(a)
    case Main(k, a) => k == n && a.Join?
    case _ => false
  }

  ghost predicate AllSmooth(fs: seq<Event>, n: NodeId) {
    forall e :: e in fs ==> Smooth(e, n)
  }

  /** What the end of message m looks like: its job is completed, or it was undecodable and is
      dead-lettered. */
  ghost predicate Done(t: State, m: MsgId, p: Payload) {
    match p
    case Job(j) => j in t.finals && j in t.store && t.store[j] == Record(Completed, false)
    case Malformed => m in t.dlq
  }

  // ---- one message --------------------------------------------------------------------------

  /** Worker n is dispatching a batch: nothing of its own runs, and each message of the batch is
      pending and there once. */
  ghost predicate Serving(s: State, n: NodeId, lp: LoopId) {
    && n in s.nodes && s.nodes[n] == FRESH.WithLoop(lp, Dispatch)
    && (forall l :: l in s.tasks && s.tasks[l].node == n ==> l in s.WaitingFor(n, lp))
    && (forall l :: l in s.WaitingFor(n, lp) ==> l.msg in s.stream.pending && l.msg in s.stream.appended)
    && (forall l, k :: l in s.WaitingFor(n, lp) && k in s.WaitingFor(n, lp) && l.msg == k.msg ==> l == k)
  }

  function ServeEvents(n: NodeId, lp: LoopId, l: Lease, p: Payload): seq<Event> {
    BeginEvents(n, lp, l) + SettleEvents(p, l) + [OfTask(l, AckJob(Ok)), OfTask(l, DeleteMessage(Ok))]
  }

  /** The state after message l was settled, acknowledged and deleted. */
  function Served(s: State, l: Lease): State {
    Settles(s, l).(stream := s.stream.XAck(l).XDel(l.msg), tasks := s.tasks - {l})
  }

  lemma ServeEventsAreSmooth(n: NodeId, lp: LoopId, l: Lease, p: Payload)
    ensures AllSmooth(ServeEvents(n, lp, l, p), n)
  {
  }

  lemma PutBack<K, V>(m: map<K, V>, k: K, v: V)
    requires k in m
    ensures m[k := v][k := m[k]] == m
  {
  }

  /** The state after l was acknowledged and its entry deleted. */
  function Retired(s: State, l: Lease): State
    requires l in s.tasks && s.tasks[l].node in s.nodes
  {
    var n := s.tasks[l].node;
    var nd := s.nodes[n];
    s.(stream := s.stream.XAck(l).XDel(l.msg), tasks := s.tasks - {l},
       nodes := s.nodes[n := nd.(slots := nd.slots - 1, wg := nd.wg - 1)])
  }

  lemma Retires(s: State, l: Lease)
    requires l in s.tasks && s.tasks[l].node in s.nodes && s.tasks[l].phase == Ack && l.msg in s.stream.pending
    ensures Steps(s, [OfTask(l, AckJob(Ok)), OfTask(l, DeleteMessage(Ok))]) == Retired(s, l)
  {
    TwoSteps(s, [OfTask(l, AckJob(Ok)), OfTask(l, DeleteMessage(Ok))]);
    Acknowledges(s, l);
    var a := Goto(s.(stream := s.stream.XAck(l)), l, Delete);
    Deletes(a, l);
    assert a.tasks - {l} == s.tasks - {l};
  }

  /** The state in which the worker is about to acknowledge l. */
  function AboutToAck(s: State, n: NodeId, l: Lease): State
    requires n in s.nodes
  {
    Goto(Settles(Begun(s, n, l, FirstPhase(s.PayloadOf(l))), l), l, Ack)
  }

  lemma NextIsSettled(s: State, n: NodeId, lp: LoopId, l: Lease)
    requires Serving(s, n, lp) && IsNext(s, n, lp, l)
    ensures Steps(s, BeginEvents(n, lp, l) + SettleEvents(s.PayloadOf(l), l)) == AboutToAck(s, n, l)
  {
    var b := Begun(s, n, l, FirstPhase(s.PayloadOf(l)));
    Begins(s, n, lp, l);
    SettlesMessage(b, l);
    StepsThrough(s, BeginEvents(n, lp, l), b, SettleEvents(s.PayloadOf(l), l), AboutToAck(s, n, l));
  }

  lemma HoldsSlotToAck(s: State, n: NodeId, lp: LoopId, l: Lease)
    requires Serving(s, n, lp) && l in s.WaitingFor(n, lp)
    ensures var c := AboutToAck(s, n, l);
      && l in c.tasks && c.tasks[l] == Task(n, Ack) && l.msg in c.stream.pending
      && c.tasks - {l} == s.tasks - {l}
  {
  }

  lemma SettledIsRetired(s: State, n: NodeId, lp: LoopId, l: Lease)
    requires Serving(s, n, lp) && l in s.WaitingFor(n, lp)
    ensures Steps(AboutToAck(s, n, l), [OfTask(l, AckJob(Ok)), OfTask(l, DeleteMessage(Ok))]) == Served(s, l)
  {
    HoldsSlotToAck(s, n, lp, l);
    RetiredIsServed(s, n, lp, l);
    Retires(AboutToAck(s, n, l), l);
  }

  lemma RetiredIsServed(s: State, n: NodeId, lp: LoopId, l: Lease)
    requires Serving(s, n, lp) && l in s.WaitingFor(n, lp)
    ensures var c := AboutToAck(s, n, l); l in c.tasks && n in c.nodes && c.tasks[l].node == n
    ensures Retired(AboutToAck(s, n, l), l) == Served(s, l)
  {
    HoldsSlotToAck(s, n, lp, l);
    PutBack(s.nodes, n, AboutToAck(s, n, l).nodes[n]);
  }

  lemma NextIsServed(s: State, n: NodeId, lp: LoopId, l: Lease)
    requires Serving(s, n, lp) && IsNext(s, n, lp, l)
    ensures Steps(s, ServeEvents(n, lp, l, s.PayloadOf(l))) == Served(s, l)
  {
    NextIsSettled(s, n, lp, l);
    SettledIsRetired(s, n, lp, l);
    StepsThrough(s, BeginEvents(n, lp, l) + SettleEvents(s.PayloadOf(l), l), AboutToAck(s, n, l),
                 [OfTask(l, AckJob(Ok)), OfTask(l, DeleteMessage(Ok))], Served(s, l));
  }

  // ---- one batch ----------------------------------------------------------------------------

  ghost predicate Awaits(s: State, n: NodeId, lp: LoopId, m: MsgId) {
    exists l :: l in s.WaitingFor(n, lp) && l.msg == m
  }

  /** Serving only takes messages of the batch off the stream. */
  ghost predicate ServedOnly(s: State, t: State, n: NodeId, lp: LoopId) {
    && t.stream.appended == s.stream.appended && t.stream.lastDelivered == s.stream.lastDelivered
    && (forall k :: k in t.stream.entries ==> k in s.stream.entries && t.stream.entries[k] == s.stream.entries[k])
    && (forall k :: k in s.stream.entries && !Awaits(s, n, lp, k) ==> k in t.stream.entries)
    && (forall k :: k in t.stream.pending ==> k in s.stream.pending && !Awaits(s, n, lp, k))
    && (forall k :: k in s.stream.pending && !Awaits(s, n, lp, k) ==> k in t.stream.pending)
  }

  lemma NextWaiting(s: State, n: NodeId, lp: LoopId) returns (l: Lease)
    requires Serving(s, n, lp) && s.WaitingFor(n, lp) != {}
    ensures IsNext(s, n, lp, l)
  {
    var ids := set k | k in s.WaitingFor(n, lp) :: k.msg;
    var any :| any in s.WaitingFor(n, lp);
    assert any.msg in ids;
    var m := Least(ids);
    l :| l in s.WaitingFor(n, lp) && l.msg == m;
    forall k | k in s.WaitingFor(n, lp) ensures l.msg <= k.msg {
      assert k.msg in ids;
    }
  }

  lemma ServedKeepsServing(s: State, n: NodeId, lp: LoopId, l: Lease)
    requires Serving(s, n, lp) && l in s.WaitingFor(n, lp)
    ensures Serving(Served(s, l), n, lp) && Served(s, l).WaitingFor(n, lp) == s.WaitingFor(n, lp) - {l}
  {
    var t := Served(s, l);
    assert t.nodes == s.nodes && t.tasks == s.tasks - {l};
    forall k ensures k in t.WaitingFor(n, lp) <==> k in s.WaitingFor(n, lp) - {l} {}
  }

  lemma ServedTakesOne(s: State, n: NodeId, lp: LoopId, l: Lease, t: State)
    requires Serving(s, n, lp) && l in s.WaitingFor(n, lp) && ServedOnly(Served(s, l), t, n, lp)
    ensures ServedOnly(s, t, n, lp)
  {
    ServedKeepsServing(s, n, lp, l);
    var u := Served(s, l);
    forall k ensures Awaits(s, n, lp, k) <==> Awaits(u, n, lp, k) || k == l.msg {
      if Awaits(s, n, lp, k) {
        var w :| w in s.WaitingFor(n, lp) && w.msg == k;
        assert w == l || w in u.WaitingFor(n, lp);
      }
    }
  }

  /** The worker goes through its batch, smallest id first, up to message m if that is in it. */
  lemma {:induction false} ServesBatch(s: State, n: NodeId, lp: LoopId, m: MsgId) returns (fs: seq<Event>)
    requires Serving(s, n, lp)
    ensures AllSmooth(fs, n)
    ensures Awaits(s, n, lp, m) ==> Done(Steps(s, fs), m, s.stream.appended[m])
    ensures !Awaits(s, n, lp, m) ==>
      && Serving(Steps(s, fs), n, lp) && Steps(s, fs).WaitingFor(n, lp) == {} && ServedOnly(s, Steps(s, fs), n, lp)
    decreases |s.WaitingFor(n, lp)|
  {
    if s.WaitingFor(n, lp) == {} {
      fs := [];
    } else {
      var l := NextWaiting(s, n, lp);
      var t := Served(s, l);
      fs := ServeEvents(n, lp, l, s.PayloadOf(l));
      ServeEventsAreSmooth(n, lp, l, s.PayloadOf(l));
      NextIsServed(s, n, lp, l);
      if l.msg != m {
        ServedKeepsServing(s, n, lp, l);
        StillAwaited(s, n, lp, l, m);
        var gs := ServesBatch(t, n, lp, m);
        StepsAppend(s, fs, gs);
        if !Awaits(s, n, lp, m) {
          ServedTakesOne(s, n, lp, l, Steps(t, gs));
        }
        fs := fs + gs;
      }
    }
  }

  lemma StillAwaited(s: State, n: NodeId, lp: LoopId, l: Lease, m: MsgId)
    requires Serving(s, n, lp) && l in s.WaitingFor(n, lp) && l.msg != m
    ensures Awaits(s, n, lp, m) <==> Awaits(Served(s, l), n, lp, m)
  {
    ServedKeepsServing(s, n, lp, l);
    if Awaits(s, n, lp, m) {
      var w :| w in s.WaitingFor(n, lp) && w.msg == m;
      assert w in Served(s, l).WaitingFor(n, lp);
    }
  }

  // ---- fetching -----------------------------------------------------------------------------

  /** Node n has just joined or worked off a batch: no task is its own. */
  ghost predicate Idle(s: State, n: NodeId) {
    n in s.nodes && s.nodes[n] == FRESH && forall l :: l in s.tasks ==> s.tasks[l].node != n
  }

  lemma Joined(s: State) returns (n: NodeId)
    requires LeaseInv(s)
    ensures Idle(Step(s, Main(n, Join(1))), n)
    ensures Step(s, Main(n, Join(1))) == s.(nodes := s.nodes[n := FRESH])
  {
    n := UpperBound(s.nodes.Keys);
    assert n !in s.nodes.Keys;
    forall l | l in s.tasks ensures s.tasks[l].node != n {
      assert TaskOk(s, l);
    }
  }

  /** The worker waits for exactly the batch it fetched. */
  lemma FetchedIsServing(s: State, n: NodeId, lp: LoopId, d: Delivery)
    requires LeaseInv(s) && Idle(s, n) && IsDelivery(s.stream, n, d)
    ensures Serving(Fetched(s, n, lp, d), n, lp)
    ensures forall m :: Awaits(Fetched(s, n, lp, d), n, lp, m) <==> m in d.batch
  {
    var t := Fetched(s, n, lp, d);
    forall l ensures l in t.WaitingFor(n, lp) <==> l in d.st.Leases(d.batch) {}
    forall m | m in d.batch ensures Awaits(t, n, lp, m) {
      assert Lease(m, d.st.Deliveries(m)) in t.WaitingFor(n, lp);
    }
    forall l | l in d.st.Leases(d.batch) ensures l.msg in d.st.appended {
      assert l.msg in d.batch && l.msg in d.st.pending;
    }
  }

  lemma {:induction false} StepsKeepInv(s: State, fs: seq<Event>)
    requires Inv(s)
    ensures Inv(Steps(s, fs))
    decreases |fs|
  {
    if fs != [] {
      KeepsInv(s, fs[0]);
      StepsKeepInv(Step(s, fs[0]), fs[1..]);
    }
  }

  lemma BatchIsDone(s: State, n: NodeId, lp: LoopId)
    requires Serving(s, n, lp) && s.WaitingFor(n, lp) == {}
    ensures Steps(s, [Loop(n, lp, BatchDone)]) == s.(nodes := s.nodes[n := FRESH])
    ensures Idle(Steps(s, [Loop(n, lp, BatchDone)]), n)
  {
    OneStep(s, [Loop(n, lp, BatchDone)]);
  }

  /** A delivered batch is worked off: its messages, and nothing else, are off the stream. */
  ghost predicate WorkedOff(d: Delivery, u: Stream) {
    && u.lastDelivered == d.st.lastDelivered && u.appended == d.st.appended
    && (forall k :: k in u.entries ==> k in d.st.entries && u.entries[k] == d.st.entries[k])
    && (forall k :: k in d.st.entries && k !in d.batch ==> k in u.entries)
    && (forall k :: k in u.pending <==> k in d.st.pending && k !in d.batch)
  }

  lemma ServedIsWorkedOff(f: State, t: State, n: NodeId, lp: LoopId, d: Delivery)
    requires f.stream == d.st && (forall m :: Awaits(f, n, lp, m) <==> m in d.batch) && ServedOnly(f, t, n, lp)
    ensures WorkedOff(d, t.stream)
  {
  }

  /** The end of a worked-off batch: message m is done, or the worker is about to fetch again. */
  ghost predicate BatchEnd(t: State, n: NodeId, lp: LoopId, d: Delivery, m: MsgId) {
    if m in d.batch then m in d.st.appended && Done(t, m, d.st.appended[m])
    else Serving(t, n, lp) && t.WaitingFor(n, lp) == {} && WorkedOff(d, t.stream)
  }

  lemma ServesFetched(f: State, n: NodeId, lp: LoopId, d: Delivery, m: MsgId) returns (gs: seq<Event>)
    requires Serving(f, n, lp) && f.stream == d.st && forall k :: Awaits(f, n, lp, k) <==> k in d.batch
    ensures AllSmooth(gs, n) && BatchEnd(Steps(f, gs), n, lp, d, m)
  {
    gs := ServesBatch(f, n, lp, m);
    if Awaits(f, n, lp, m) {
      var l :| l in f.WaitingFor(n, lp) && l.msg == m;
    } else {
      ServedIsWorkedOff(f, Steps(f, gs), n, lp, d);
    }
  }

  lemma FetchEventsAreSmooth(n: NodeId, lp: LoopId, a: LoopStep)
    requires (a.Read? || a.Claim?) && a.reply
    ensures AllSmooth(FetchEvents(n, lp, a), n)
  {
  }

  lemma FetchIsServing(s: State, n: NodeId, lp: LoopId, a: LoopStep, d: Delivery, f: State)
    requires LeaseInv(s) && Idle(s, n) && Fetchable(s.stream, lp, a) && d == DeliveryOf(s, n, a)
    requires f == Fetched(s, n, lp, d)
    ensures Serving(f, n, lp) && f.stream == d.st && forall k :: Awaits(f, n, lp, k) <==> k in d.batch
  {
    FetchDeliversNew(s, n, lp, a);
    FetchedIsServing(s, n, lp, d);
  }

  lemma ServesAfter(s: State, es: seq<Event>, f: State, n: NodeId, lp: LoopId, d: Delivery, m: MsgId)
    returns (fs: seq<Event>)
    requires Steps(s, es) == f && AllSmooth(es, n)
    requires Serving(f, n, lp) && f.stream == d.st && forall k :: Awaits(f, n, lp, k) <==> k in d.batch
    ensures AllSmooth(fs, n) && BatchEnd(Steps(s, fs), n, lp, d, m)
  {
    var gs := ServesFetched(f, n, lp, d, m);
    StepsAppend(s, es, gs);
    fs := es + gs;
  }

  lemma FetchesAndServes(s: State, n: NodeId, lp: LoopId, a: LoopStep, d: Delivery, m: MsgId) returns (fs: seq<Event>)
    requires LeaseInv(s) && Idle(s, n) && Fetchable(s.stream, lp, a) && d == DeliveryOf(s, n, a)
    ensures AllSmooth(fs, n) && BatchEnd(Steps(s, fs), n, lp, d, m)
  {
    var f := Fetched(s, n, lp, d);
    FetchIsServing(s, n, lp, a, d, f);
    FetchEventsAreSmooth(n, lp, a);
    Fetches(s, n, lp, a);
    fs := ServesAfter(s, FetchEvents(n, lp, a), f, n, lp, d, m);
  }

  ghost predicate WorkedOffBatch(t: State, n: NodeId, d: Delivery, m: MsgId) {
    if m in d.batch then m in d.st.appended && Done(t, m, d.st.appended[m])
    else Idle(t, n) && WorkedOff(d, t.stream)
  }

  lemma EndsAfter(s: State, es: seq<Event>, t: State, n: NodeId, lp: LoopId, d: Delivery, m: MsgId)
    returns (fs: seq<Event>)
    requires Steps(s, es) == t && AllSmooth(es, n) && BatchEnd(t, n, lp, d, m)
    ensures AllSmooth(fs, n) && WorkedOffBatch(Steps(s, fs), n, d, m)
  {
    fs := es;
    if m !in d.batch {
      BatchIsDone(t, n, lp);
      StepsAppend(s, es, [Loop(n, lp, BatchDone)]);
      fs := es + [Loop(n, lp, BatchDone)];
    }
  }

  /** Fetch and serve one batch: message m gets done, or the worker is idle again and the messages
      of the batch are off the stream. */
  lemma WorksOffBatch(s: State, n: NodeId, lp: LoopId, a: LoopStep, d: Delivery, m: MsgId) returns (fs: seq<Event>)
    requires Inv(s) && Idle(s, n) && Fetchable(s.stream, lp, a) && d == DeliveryOf(s, n, a)
    ensures AllSmooth(fs, n) && Inv(Steps(s, fs)) && WorkedOffBatch(Steps(s, fs), n, d, m)
  {
    var es := FetchesAndServes(s, n, lp, a, d, m);
    fs := EndsAfter(s, es, Steps(s, es), n, lp, d, m);
    StepsKeepInv(s, fs);
  }

  lemma FetchDeliversNew(s: State, n: NodeId, lp: LoopId, a: LoopStep)
    requires s.stream.Valid() && Fetchable(s.stream, lp, a)
    ensures IsDelivery(s.stream, n, DeliveryOf(s, n, a))
  {
    if a.Read? {
      ReadDeliversNew(s.stream, n, a.upto);
    } else {
      ScanTakesTheFirst(s.stream, a.cutoff);
      ClaimDeliversNew(s.stream, n, s.stream.Scan(a.cutoff));
    }
  }

  // ---- an undelivered message ---------------------------------------------------------------

  /** Where a read of COUNT entries stops. */
  lemma FullBatch(st: Stream) returns (u: MsgId)
    requires st.Undelivered() != {}
    ensures st.IsFullBatch(u)
  {
    var ids := st.Undelivered();
    var first := Lowest(ids, READ_BATCH);
    LowestAreFirst(ids, READ_BATCH);
    assert |first| > 0;
    u := Greatest(first);
    forall k ensures k in st.ReadBatch(u) <==> k in first {
      if k in ids && k !in first { assert u < k; }
    }
    assert st.ReadBatch(u) == first;
    if |first| == |ids| { SubsetSize(first, ids); }
  }

  lemma {:induction false} ReadsUntil(s: State, n: NodeId, m: MsgId) returns (fs: seq<Event>)
    requires Inv(s) && Idle(s, n) && m in s.stream.entries && s.stream.lastDelivered < m
    ensures AllSmooth(fs, n) && Done(Steps(s, fs), m, s.stream.entries[m])
    decreases |s.stream.ReadBatch(m)|
  {
    assert m in s.stream.Undelivered();
    var u := FullBatch(s.stream);
    var d := Delivery(s.stream.XReadGroup(n, u), s.stream.ReadBatch(u));
    fs := WorksOffBatch(s, n, Reader, Read(u, true), d, m);
    if u < m {
      var t := Steps(s, fs);
      ReadOn(s.stream, t.stream, n, u, m);
      var gs := ReadsUntil(t, n, m);
      StepsAppend(s, fs, gs);
      fs := fs + gs;
    }
  }

  lemma ReadOn(st: Stream, u: Stream, n: NodeId, upto: MsgId, m: MsgId)
    requires m in st.entries && st.IsFullBatch(upto) && upto < m
    requires WorkedOff(Delivery(st.XReadGroup(n, upto), st.ReadBatch(upto)), u)
    ensures m in u.entries && u.entries[m] == st.entries[m] && u.lastDelivered < m
    ensures |u.ReadBatch(m)| < |st.ReadBatch(m)|
  {
    assert upto in st.ReadBatch(m);
    assert u.ReadBatch(m) <= st.ReadBatch(m) - {upto};
    SubsetSize(u.ReadBatch(m), st.ReadBatch(m) - {upto});
  }

  // ---- a pending message --------------------------------------------------------------------

  function PendingUpTo(st: Stream, m: MsgId): set<MsgId> {
    set k | k in st.pending && k <= m
  }

  lemma {:induction false} ClaimsUntil(s: State, n: NodeId, m: MsgId) returns (fs: seq<Event>)
    requires Inv(s) && Idle(s, n) && m in s.stream.entries && m in s.stream.pending
    ensures AllSmooth(fs, n) && Done(Steps(s, fs), m, s.stream.entries[m])
    decreases |PendingUpTo(s.stream, m)|
  {
    var ids := s.stream.Scan(s.stream.clock);
    var d := Delivery(s.stream.XAutoClaim(n, ids), s.stream.Claimable(ids));
    fs := WorksOffBatch(s, n, Reclaimer, Claim(s.stream.clock, true), d, m);
    if m !in d.batch {
      var t := Steps(s, fs);
      ClaimOn(s.stream, t.stream, n, m);
      var gs := ClaimsUntil(t, n, m);
      StepsAppend(s, fs, gs);
      fs := fs + gs;
    }
  }

  lemma ClaimOn(st: Stream, u: Stream, n: NodeId, m: MsgId)
    requires st.Valid() && m in st.entries && m in st.pending && m !in st.Scan(st.clock)
    requires WorkedOff(Delivery(st.XAutoClaim(n, st.Scan(st.clock)), st.Claimable(st.Scan(st.clock))), u)
    ensures m in u.entries && u.entries[m] == st.entries[m] && m in u.pending
    ensures |PendingUpTo(u, m)| < |PendingUpTo(st, m)|
  {
    var ids := st.Scan(st.clock);
    ScanTakesTheFirst(st, st.clock);
    assert forall k :: k in st.Eligible(st.clock) <==> MayBeScanned(st, st.clock, k);
    AutoClaimKeys(st, n, ids);
    assert m in st.Eligible(st.clock) && ids != {};
    var k :| k in ids;
    assert k in PendingUpTo(st, m) && k !in u.pending;
    assert PendingUpTo(u, m) <= PendingUpTo(st, m) - {k};
    SubsetSize(PendingUpTo(u, m), PendingUpTo(st, m) - {k});
  }

  // ---- every reachable state ----------------------------------------------------------------

  /** No reachable state is stuck: every recoverable message has a continuation of the run, of one
      new worker meeting no failure, that completes its job, or dead-letters it if undecodable. */
  lemma AlwaysRecoverable(es: seq<Event>, m: MsgId)
    requires Recoverable(Exec(es), m)
    ensures exists fs, n :: AllSmooth(fs, n) && Done(Exec(es + fs), m, Exec(es).stream.entries[m])
  {
    Reachable(es);
    var s := Exec(es);
    var n := Joined(s);
    var join := [Main(n, Join(1))];
    OneStep(s, join);
    KeepsInv(s, join[0]);
    var t := Steps(s, join);
    var gs;
    if s.stream.lastDelivered < m {
      gs := ReadsUntil(t, n, m);
    } else {
      gs := ClaimsUntil(t, n, m);
    }
    StepsAppend(s, join, gs);
    ExecSteps(es, join + gs);
    assert AllSmooth(join + gs, n) && Done(Exec(es + (join + gs)), m, s.stream.entries[m]);
  }

  /** An undecodable entry does not stay: a worker can dead-letter it. */
  lemma JunkCanBeDeadLettered(es: seq<Event>, after: seq<Event>, m: MsgId)
    requires after == es + [Junk({})] && m == Exec(es).stream.lastId + 1
    ensures exists fs, n :: AllSmooth(fs, n) && m in Exec(after + fs).dlq
  {
    JunkIsRecoverable(es, after, m);
    CanBeDeadLettered(after, m);
  }

  lemma CanBeDeadLettered(es: seq<Event>, m: MsgId)
    requires Recoverable(Exec(es), m) && Exec(es).stream.entries[m] == Malformed
    ensures exists fs, n :: AllSmooth(fs, n) && m in Exec(es + fs).dlq
  {
    AlwaysRecoverable(es, m);
    var fs, n :| AllSmooth(fs, n) && Done(Exec(es + fs), m, Exec(es).stream.entries[m]);
    assert m in Exec(es + fs).dlq;
  }

  lemma JunkIsRecoverable(es: seq<Event>, after: seq<Event>, m: MsgId)
    requires after == es + [Junk({})] && m == Exec(es).stream.lastId + 1
    ensures Recoverable(Exec(after), m) && Exec(after).stream.entries[m] == Malformed
  {
    StreamIsValid(es);
    ExecNext(after, es, Junk({}));
    JunkLeads(Exec(es), Exec(after), m);
  }

  lemma StreamIsValid(es: seq<Event>)
    ensures Exec(es).stream.Valid()
  {
    Reachable(es);
  }

  lemma JunkLeads(s: State, t: State, m: MsgId)
    requires s.stream.Valid() && t == Step(s, Junk({})) && m == s.stream.lastId + 1
    ensures Recoverable(t, m) && t.stream.entries[m] == Malformed
  {
    JunkAdds(s);
    AddedIsNew(s.stream, Malformed);
  }

  lemma JunkAdds(s: State)
    ensures Step(s, Junk({})) == s.(stream := s.stream.XAdd(Malformed, {}))
  {
    NoTrim(s.stream);
  }

  lemma AddedIsNew(st: Stream, p: Payload)
    requires st.Valid()
    ensures var t, m := st.XAdd(p, {}), st.lastId + 1; m in t.entries && t.entries[m] == p && t.lastDelivered < m
  {
  }

  /** As long as nothing is trimmed, an accepted job is finished or dead-lettered, or can still be
      completed. */
  lemma AcceptedJobCanComplete(es: seq<Event>, j: JobId)
    requires var s := Exec(es); j in s.submits && s.submits[j].Accepted? && s.stream.trimmed == {}
    ensures var s := Exec(es);
      || j in s.finals || s.submits[j].msg in s.dlq
      || exists fs, n :: AllSmooth(fs, n) && Done(Exec(es + fs), s.submits[j].msg, Job(j))
  {
    var m := Exec(es).submits[j].msg;
    Reachable(es);
    AcceptedJobNotLost(es, j);
    if Recoverable(Exec(es), m) {
      AlwaysRecoverable(es, m);
    }
  }
}
