/** No accepted job is lost, no acknowledged message comes back, and what MAXLEN can take away. */
module NoLoss {
  import opened RedisStream
  import opened Protocol
  import opened ProtocolInvariants
  import opened NodeInvariants
  import opened Runs
  import opened Sets

  /** The group can still hand m out, or has it pending with its entry intact. */
  ghost predicate Recoverable(s: State, m: MsgId) {
    m in s.stream.entries && (s.stream.lastDelivered < m || m in s.stream.pending)
  }

  /** In every reachable state every message ever added is recoverable, settled or trimmed. */
  lemma NoMessageLost(es: seq<Event>, m: MsgId)
    requires m in Exec(es).stream.appended
    ensures var s := Exec(es); Recoverable(s, m) || Settled(s, m) || m in s.stream.trimmed
  {
    Reachable(es);
    var s := Exec(es);
    assert m in s.stream.acks ==> Settled(s, m);
  }

  /** A submission answered 202 through the stream is on its way to a final record as long as
      nothing is trimmed: queued, pending, finished once, or dead-lettered. */
  lemma AcceptedJobNotLost(es: seq<Event>, j: JobId)
    requires var s := Exec(es); j in s.submits && s.submits[j].Accepted? && s.stream.trimmed == {}
    ensures var s := Exec(es); var m := s.submits[j].msg;
      && m in s.stream.appended && s.stream.appended[m] == Job(j)
      && (Recoverable(s, m) || j in s.finals || m in s.dlq)
  {
    Reachable(es);
    NoMessageLost(es, Exec(es).submits[j].msg);
  }

  // ---- the pending list -------------------------------------------------------------------

  /** Acknowledge-before-delete keeps every pending id in the stream. */
  lemma PendingIsSound(es: seq<Event>)
    ensures var st := Exec(es).stream;
      && st.pending.Keys <= st.entries.Keys + st.trimmed
      && st.pending.Keys !! st.Undelivered()
      && st.pending.Keys !! st.acks.Keys
      && st.acks.Keys !! st.Undelivered()
  {
    Reachable(es);
  }

  lemma AckedNotDelivered(s: State, e: Event, m: MsgId)
    requires s.stream.Valid() && m in s.stream.acks
    ensures Step(s, e).stream.Deliveries(m) == s.stream.Deliveries(m)
  {
    if Enabled(s, e) {
      match e
      case Loop(n, lp, a) => LoopDoesNotDeliver(s, n, lp, a, m);
      case Api(j, a) => ApiDeliversNothing(s, j, a, m);
      case OfTask(l, a) => TaskDeliversNothing(s, l, a, m);
      case _ =>
    }
  }

  lemma LoopDoesNotDeliver(s: State, n: NodeId, lp: LoopId, a: LoopStep, m: MsgId)
    requires s.stream.Valid() && m in s.stream.acks && LoopEnabled(s, n, lp, a)
    ensures ApplyLoop(s, n, lp, a).stream.Deliveries(m) == s.stream.Deliveries(m)
  {
    match a
    case Read(upto, _) => assert m !in s.stream.ReadBatch(upto);
    case Claim(cutoff, _) => assert m !in s.stream.Scan(cutoff);
    case _ =>
  }

  lemma ApiDeliversNothing(s: State, j: JobId, a: ApiStep, m: MsgId)
    requires ApiEnabled(s, j, a)
    ensures ApplyApi(s, j, a).stream.Deliveries(m) == s.stream.Deliveries(m)
  {
  }

  lemma TaskDeliversNothing(s: State, l: Lease, a: TaskStep, m: MsgId)
    requires TaskEnabled(s, l, a)
    ensures ApplyTask(s, l, a).stream.Deliveries(m) == s.stream.Deliveries(m)
  {
    assert CallEffect(s, l, a).stream.Deliveries(m) == s.stream.Deliveries(m);
  }

  lemma AckedStays(s: State, e: Event, m: MsgId)
    requires Inv(s) && m in s.stream.acks
    ensures var t := Step(s, e);
      && m in t.stream.acks && t.stream.acks[m] == s.stream.acks[m]
      && m !in t.stream.pending && t.stream.Deliveries(m) == s.stream.Deliveries(m)
  {
    KeepsInv(s, e);
    AckedNotDelivered(s, e, m);
  }

  /** A read or claim whose reply is lost delivers all the same: its messages are pending for the node,
      by a delivery that no task holds, so only a later claim brings them back. */
  lemma LostReplyLeavesPending(es: seq<Event>, n: NodeId, lp: LoopId, a: LoopStep)
    requires (a.Read? || a.Claim?) && !a.reply && Enabled(Exec(es), Loop(n, lp, a))
    ensures var s, t := Exec(es), Exec(es + [Loop(n, lp, a)]);
      && t.tasks == s.tasks
      && (a.Read? ==> t.stream.lastDelivered == a.upto)
      && forall m :: m in DeliveryOf(s, n, a).batch ==>
           && m in t.stream.pending && t.stream.pending[m] == n
           && s.stream.Deliveries(m) < t.stream.Deliveries(m)
           && Lease(m, t.stream.Deliveries(m)) !in t.tasks
  {
    var s := Exec(es);
    Reachable(es);
    ExecNext(es + [Loop(n, lp, a)], es, Loop(n, lp, a));
    DeliversNew(s, n, lp, a);
    UnheldDelivery(s, n, a);
  }

  lemma UnheldDelivery(s: State, n: NodeId, a: LoopStep)
    requires LeaseInv(s) && (a.Read? || a.Claim?) && IsDelivery(s.stream, n, DeliveryOf(s, n, a))
    ensures forall m :: m in DeliveryOf(s, n, a).batch ==> Lease(m, DeliveryOf(s, n, a).st.Deliveries(m)) !in s.tasks
  {
    var d := DeliveryOf(s, n, a);
    LeasesAreNew(s, n, d);
    forall m | m in d.batch ensures Lease(m, d.st.Deliveries(m)) !in s.tasks {
      assert Lease(m, d.st.Deliveries(m)) in d.st.Leases(d.batch);
    }
  }

  /** Once acknowledged, a message stays acknowledged and is never delivered or reclaimed again,
      whatever other holders still do. */
  lemma {:induction false} AckedNeverReturns(es: seq<Event>, fs: seq<Event>, m: MsgId)
    requires m in Exec(es).stream.acks
    ensures var s, t := Exec(es).stream, Exec(es + fs).stream;
      && m in t.acks && t.acks[m] == s.acks[m] && m !in t.pending
      && t.Deliveries(m) == s.Deliveries(m)
    decreases |fs|
  {
    if fs == [] {
      assert es + fs == es;
      Reachable(es);
    } else {
      var gs := fs[..|fs| - 1];
      AckedNeverReturns(es, gs, m);
      Reachable(es + gs);
      ExecLast(es, fs);
      AckedStays(Exec(es + gs), fs[|fs| - 1], m);
    }
  }

  // ---- MAXLEN -----------------------------------------------------------------------------

  /** Entries older than m. */
  function Older(s: Stream, m: MsgId): set<MsgId> {
    set k | k in s.entries && k < m
  }

  ghost predicate LosesOne(s: State, trim: set<MsgId>) {
    s.stream.MayTrim(trim) && exists m :: m in trim && m in s.stream.appended && !Settled(s, m)
  }

  /** Some trimming the next XADD may do throws away a message that is not settled. */
  ghost predicate NextAddMayLose(s: State) {
    exists trim :: LosesOne(s, trim)
  }

  /** The producer's check: an unsettled entry sits among the oldest ones beyond the cap. */
  ghost predicate UnsettledBeyondCap(s: State) {
    exists m :: m in s.stream.entries && !Settled(s, m) && |Older(s.stream, m)| + MAX_STREAM_LEN <= |s.stream.entries|
  }

  lemma LossIsBeyondCap(s: State, trim: set<MsgId>)
    requires s.stream.Valid() && LosesOne(s, trim)
    ensures UnsettledBeyondCap(s)
  {
    var m :| m in trim && m in s.stream.appended && !Settled(s, m);
    TrimmedIsBeyondCap(s.stream, trim, m);
  }

  /** MAXLEN can lose a job exactly if an unsettled entry is that far from the stream's end. */
  lemma NextAddMayLoseIff(s: State)
    requires Inv(s)
    ensures NextAddMayLose(s) <==> UnsettledBeyondCap(s)
  {
    if NextAddMayLose(s) {
      var trim :| LosesOne(s, trim);
      LossIsBeyondCap(s, trim);
    }
    if UnsettledBeyondCap(s) {
      BeyondCapIsLoss(s);
    }
  }

  lemma BeyondCapIsLoss(s: State)
    requires s.stream.Valid() && UnsettledBeyondCap(s)
    ensures NextAddMayLose(s)
  {
    var m :| m in s.stream.entries && !Settled(s, m) && |Older(s.stream, m)| + MAX_STREAM_LEN <= |s.stream.entries|;
    BeyondCapIsTrimmable(s.stream, m);
    assert LosesOne(s, Older(s.stream, m) + {m});
  }

  lemma TrimmedIsBeyondCap(st: Stream, trim: set<MsgId>, m: MsgId)
    requires st.Valid() && st.MayTrim(trim) && m in trim && m in st.appended
    ensures m in st.entries && |Older(st, m)| + MAX_STREAM_LEN <= |st.entries|
  {
    var all := st.entries.Keys + {st.lastId + 1};
    assert m in all;
    forall k | k in Older(st, m) + {m} ensures k in trim {
      assert k in all && k <= m;
    }
    SubsetSize(Older(st, m) + {m}, trim);
    SubsetSize(trim, all);
  }

  lemma BeyondCapIsTrimmable(st: Stream, m: MsgId)
    requires st.Valid() && m in st.entries && |Older(st, m)| + MAX_STREAM_LEN <= |st.entries|
    ensures st.MayTrim(Older(st, m) + {m})
  {
    var id := st.lastId + 1;
    var trim, all := Older(st, m) + {m}, st.entries.Keys + {id};
    assert id !in st.entries.Keys;
    SubsetSize(trim, all);
    assert |all| == |st.entries| + 1 && |trim| == |Older(st, m)| + 1;
    forall a, b | a in trim && b in all && b !in trim ensures a < b {}
  }

  /** The ids 1 to n. */
  function Ids(n: nat): (ids: set<MsgId>)
    ensures |ids| == n && forall k :: k in ids <==> 1 <= k <= n
  {
    if n == 0 then {} else Ids(n - 1) + {n}
  }

  /** The events that add n jobs, nobody reading. */
  function Fill(n: nat): seq<Event> {
    if n == 0 then [] else Fill(n - 1) + SubmitEvents(n, {})
  }

  /** n jobs submitted and accepted, nothing delivered. */
  ghost predicate HoldsUnread(s: State, n: nat) {
    && s.stream.lastId == n && s.stream.lastDelivered == 0 && s.finals == {} && s.dlq == {}
    && s.stream.trimmed == {}
    && (forall k :: k in s.stream.entries <==> 1 <= k <= n)
    && (forall k :: k in s.submits <==> 1 <= k <= n)
    && (forall k :: 1 <= k <= n ==> k in s.submits && s.submits[k] == Accepted(k))
    && (forall k :: 1 <= k <= n ==> k in s.stream.appended && s.stream.appended[k] == Job(k))
  }

  lemma FillOne(s: State, n: nat)
    requires 1 <= n && HoldsUnread(s, n - 1)
    ensures HoldsUnread(Submitted(s, n, {}), n)
  {
    var t := Submitted(s, n, {});
    assert t.stream.entries == s.stream.entries[n := Job(n)] && t.stream.appended == s.stream.appended[n := Job(n)];
  }

  lemma FillNext(s: State, n: nat)
    requires 1 <= n && HoldsUnread(s, n - 1)
    ensures HoldsUnread(Steps(s, SubmitEvents(n, {})), n)
  {
    FillOne(s, n);
    SubmitsUntrimmed(s, n);
  }

  lemma NothingFilled()
    ensures HoldsUnread(Exec(Fill(0)), 0)
  {
    assert Fill(0) == [];
  }

  lemma {:induction false} Filled(n: nat)
    ensures HoldsUnread(Exec(Fill(n)), n)
  {
    if n == 0 {
      NothingFilled();
    } else {
      Filled(n - 1);
      FillNext(Exec(Fill(n - 1)), n);
      ExecSteps(Fill(n - 1), SubmitEvents(n, {}));
    }
  }

  /** Job j was accepted and is gone: not on the stream, not finished, not dead-lettered. */
  ghost predicate AcceptedAndLost(s: State, j: JobId) {
    j in s.submits && s.submits[j].Accepted? && !Recoverable(s, s.submits[j].msg) && !Settled(s, s.submits[j].msg)
  }

  lemma EntryCount(st: Stream, n: nat)
    requires forall k :: k in st.entries <==> 1 <= k <= n
    ensures |st.entries| == n
  {
    assert st.entries.Keys == Ids(n);
  }

  lemma NodeIsTrimmable(st: Stream, n: nat, size: nat)
    requires st.Valid() && (forall k :: k in st.entries <==> 1 <= k <= n)
    requires 1 <= size && n == MAX_STREAM_LEN - 1 + size
    ensures st.MayTrim(Ids(size))
  {
    EntryCount(st, n);
    assert Older(st, size) + {size} == Ids(size);
    assert |Older(st, size)| == size - 1;
    BeyondCapIsTrimmable(st, size);
  }

  /** The jobs 1 to size were accepted and dropped together. */
  ghost predicate DroppedNode(s: State, size: nat) {
    s.stream.trimmed == Ids(size) && forall j :: 1 <= j <= size ==> AcceptedAndLost(s, j)
  }

  lemma DropsNode(s: State, n: nat, size: nat)
    requires HoldsUnread(s, n) && size <= n
    ensures DroppedNode(Submitted(s, n + 1, Ids(size)), size)
  {
  }

  lemma FilledIsTrimmable(n: nat, size: nat)
    requires 1 <= size && n == MAX_STREAM_LEN - 1 + size
    ensures Exec(Fill(n)).stream.MayTrim(Ids(size)) && n + 1 !in Exec(Fill(n)).submits
  {
    Filled(n);
    Reachable(Fill(n));
    NodeIsTrimmable(Exec(Fill(n)).stream, n, size);
  }

  lemma FillAndTrim(n: nat, trim: set<MsgId>)
    requires Exec(Fill(n)).stream.MayTrim(trim) && n + 1 !in Exec(Fill(n)).submits
    ensures Exec(Fill(n) + SubmitEvents(n + 1, trim)) == Submitted(Exec(Fill(n)), n + 1, trim)
  {
    ExecSteps(Fill(n), SubmitEvents(n + 1, trim));
    Submits(Exec(Fill(n)), n + 1, trim);
  }

  lemma LosesOldest(n: nat, size: nat)
    requires 1 <= size && n == MAX_STREAM_LEN - 1 + size
    ensures DroppedNode(Exec(Fill(n) + SubmitEvents(n + 1, Ids(size))), size)
  {
    Filled(n);
    FilledIsTrimmable(n, size);
    FillAndTrim(n, Ids(size));
    DropsNode(Exec(Fill(n)), n, size);
  }

  /** Trimming by whole nodes of any size: with the stream at its cap and one node beyond it, the next
      submission is accepted at the price of all accepted jobs of the oldest node, and no earlier
      one could have dropped that node. */
  lemma AcceptedJobCanBeLost(size: nat)
    requires 1 <= size
    ensures exists es :: DroppedNode(Exec(es), size)
  {
    var n: nat :| n == MAX_STREAM_LEN - 1 + size;
    LosesOldest(n, size);
  }
}
