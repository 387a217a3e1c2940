/** The Redis stream `eval:jobs`, its one consumer group and the commands the queue issues on them.

    Idle times are logical: `clock` counts the calls that delivered, and `since` says at which of
    them a pending message was last handed out. The last three fields are history. */
module RedisStream {
  import opened Sets

  type MsgId = nat
  type JobId = nat
  type NodeId = nat

  /** XADD trims to about this many entries. */
  const MAX_STREAM_LEN := 50000
  /** COUNT of XREADGROUP. */
  const READ_BATCH := 5
  /** COUNT of XAUTOCLAIM. */
  const CLAIM_BATCH := 10

  /** How a call to Redis ends: done; failed without effect; done although the caller sees an error. */
  datatype Call = Ok | Lost | Unseen {
    predicate Took() { this != Lost }
  }

  /** What a worker makes of a message: a job, or something it cannot decode. */
  datatype Payload = Job(id: JobId) | Malformed

  /** The n-th delivery of a message: the right to process it until it is delivered again. */
  datatype Lease = Lease(msg: MsgId, delivery: nat)

  datatype Stream = Stream(
    entries: map<MsgId, Payload>,    // what XRANGE shows
    lastId: MsgId,                   // id of the newest entry ever added
    lastDelivered: MsgId,            // the group's cursor
    pending: map<MsgId, NodeId>,     // the group's pending list
    delivered: map<MsgId, nat>,      // delivery counters
    clock: nat,                      // delivering calls so far
    since: map<MsgId, nat>,          // the call that last delivered each message
    appended: map<MsgId, Payload>,   // history: every entry ever added
    acks: map<MsgId, Lease>,         // history: the lease whose XACK took the message off the pending list
    trimmed: set<MsgId>)             // history: entries MAXLEN dropped
  {
    /** Entries the group has not been given yet. */
    function Undelivered(): set<MsgId> {
      set m | m in entries && lastDelivered < m
    }

    function Deliveries(m: MsgId): nat {
      if m in delivered then delivered[m] else 0
    }

    function Since(m: MsgId): nat {
      if m in since then since[m] else 0
    }

    /** XADD with MAXLEN ~: the new entry goes in, `trim` goes out. */
    function XAdd(p: Payload, trim: set<MsgId>): Stream {
      var id := lastId + 1;
      this.(entries := entries[id := p] - trim, lastId := id, appended := appended[id := p], trimmed := trimmed + trim)
    }

    /** What MAXLEN may drop: nothing, or some of the oldest entries while enough remain. */
    predicate MayTrim(trim: set<MsgId>) {
      var all := entries.Keys + {lastId + 1};
      && trim <= all
      && (forall a, b :: a in trim && b in all && b !in trim ==> a < b)
      && (trim != {} ==> |all - trim| >= MAX_STREAM_LEN)
    }

    /** The entries XREADGROUP hands out when it stops at `upto`. */
    function ReadBatch(upto: MsgId): set<MsgId> {
      set m | m in entries && lastDelivered < m <= upto
    }

    /** That batch is as large as COUNT and the stream allow. */
    predicate IsFullBatch(upto: MsgId) {
      && upto in entries && lastDelivered < upto && |ReadBatch(upto)| <= READ_BATCH
      && (|ReadBatch(upto)| == READ_BATCH || ReadBatch(upto) == Undelivered())
    }

    /** Consumer n gets `batch`. */
    function Hand(n: NodeId, batch: set<MsgId>): Stream {
      this.(pending := pending + map m | m in batch :: n,
            delivered := delivered + map m | m in batch :: Deliveries(m) + 1,
            clock := clock + 1,
            since := since + map m | m in batch :: clock + 1)
    }

    /** XREADGROUP ">" by consumer n. */
    function XReadGroup(n: NodeId, upto: MsgId): Stream {
      Hand(n, ReadBatch(upto)).(lastDelivered := upto)
    }

    /** Pending ids XAUTOCLAIM acts on: idle since `cutoff` or earlier, or without an entry. */
    function Eligible(cutoff: nat): set<MsgId> {
      set m | m in pending && (m !in entries || Since(m) <= cutoff)
    }

    /** It scans from the smallest id on and stops after COUNT of them. */
    function Scan(cutoff: nat): set<MsgId> {
      Lowest(Eligible(cutoff), CLAIM_BATCH)
    }

    /** The messages XAUTOCLAIM really hands over: it drops pending ids whose entry is gone. */
    function Claimable(ids: set<MsgId>): set<MsgId> {
      set m | m in ids && m in entries
    }

    /** XAUTOCLAIM by consumer n, scanning the pending ids `ids`. */
    function XAutoClaim(n: NodeId, ids: set<MsgId>): Stream {
      this.(pending := pending - ids).Hand(n, Claimable(ids))
    }

    /** XACK sent by the holder of lease l. */
    function XAck(l: Lease): Stream {
      if l.msg in pending then this.(pending := pending - {l.msg}, acks := acks[l.msg := l]) else this
    }

    function XDel(m: MsgId): Stream {
      this.(entries := entries - {m})
    }

    /** The leases a delivery of `batch` creates, read off the state after it. */
    function Leases(batch: set<MsgId>): set<Lease> {
      set m | m in batch :: Lease(m, Deliveries(m))
    }

    ghost predicate Consistent() {
      && lastDelivered <= lastId
      && (forall m :: m in entries ==> m in appended && appended[m] == entries[m])
      && (forall m :: m in appended ==> 1 <= m <= lastId)
      && (forall m :: m in delivered ==> m in appended && m <= lastDelivered)
      && (forall m :: m in pending ==> m in delivered && m !in acks && (m in entries || m in trimmed))
      && (forall m :: m in acks ==> m in delivered && acks[m].msg == m)
      && (forall m :: m in trimmed ==> m in appended && m !in entries)
    }

    /** Every message ever added is somewhere. */
    ghost predicate Accounted() {
      && (forall m :: m in appended ==>
            (m in entries && lastDelivered < m) || m in pending || m in acks || m in trimmed)
      && (forall m :: m in appended ==> m in entries || m in acks || m in trimmed)
    }

    ghost predicate Valid() {
      Consistent() && Accounted() && forall m :: m in pending ==> Since(m) <= clock
    }

    ghost predicate HistoriesGrow(t: Stream) {
      && (forall m :: m in appended ==> m in t.appended && t.appended[m] == appended[m])
      && (forall m :: m in delivered ==> m in t.delivered && delivered[m] <= t.delivered[m])
      && (forall m :: m in acks ==> m in t.acks && t.acks[m] == acks[m])
      && trimmed <= t.trimmed
    }

    /** What no command undoes: histories grow, and a pending message only leaves the pending list
        or changes hands by a new delivery, an acknowledgement or trimming. */
    ghost predicate EvolvesTo(t: Stream) {
      && HistoriesGrow(t)
      && (forall m :: m in pending && Deliveries(m) == t.Deliveries(m) ==>
            (m in t.pending && t.pending[m] == pending[m]) || m in t.acks || m in t.trimmed)
    }
  }

  const EMPTY_STREAM := Stream(map[], 0, 0, map[], map[], 0, map[], map[], map[], {})

  lemma XAddValid(s: Stream, p: Payload, trim: set<MsgId>)
    requires s.Valid() && trim <= s.entries.Keys + {s.lastId + 1}
    ensures s.XAdd(p, trim).Valid() && s.EvolvesTo(s.XAdd(p, trim))
  {
    var id := s.lastId + 1;
    forall m | m in trim ensures m == id || m in s.entries {
      assert m in s.entries.Keys + {id};
    }
  }

  lemma HandIsDated(s: Stream, n: NodeId, batch: set<MsgId>, m: MsgId)
    requires (m in s.pending ==> s.Since(m) <= s.clock) && m in s.Hand(n, batch).pending
    ensures s.Hand(n, batch).Since(m) <= s.Hand(n, batch).clock
  {
  }

  lemma HandEvolves(s: Stream, n: NodeId, batch: set<MsgId>)
    requires s.Valid()
    ensures s.EvolvesTo(s.Hand(n, batch))
  {
    assert forall m :: m in batch ==> s.Hand(n, batch).Deliveries(m) == s.Deliveries(m) + 1;
  }

  lemma XReadGroupValid(s: Stream, n: NodeId, upto: MsgId)
    requires s.Valid() && upto in s.entries && s.lastDelivered < upto
    ensures s.XReadGroup(n, upto).Valid() && s.EvolvesTo(s.XReadGroup(n, upto))
    ensures forall m :: m in s.ReadBatch(upto) ==> m !in s.delivered
  {
    HandEvolves(s, n, s.ReadBatch(upto));
    ReadGroupIsConsistent(s, n, upto);
    ReadGroupIsAccounted(s, n, upto);
    forall m | m in s.XReadGroup(n, upto).pending
      ensures s.XReadGroup(n, upto).Since(m) <= s.XReadGroup(n, upto).clock
    {
      HandIsDated(s, n, s.ReadBatch(upto), m);
    }
  }

  lemma ReadGroupIsConsistent(s: Stream, n: NodeId, upto: MsgId)
    requires s.Valid() && upto in s.entries && s.lastDelivered < upto
    ensures s.XReadGroup(n, upto).Consistent()
  {
    ReadGroupKeys(s, n, upto);
  }

  lemma ReadGroupKeys(s: Stream, n: NodeId, upto: MsgId)
    ensures var t, batch := s.XReadGroup(n, upto), s.ReadBatch(upto);
      && (forall m :: m in t.delivered <==> m in s.delivered || m in batch)
      && (forall m :: m in t.pending <==> m in s.pending || m in batch)
  {
  }

  lemma ReadGroupIsAccounted(s: Stream, n: NodeId, upto: MsgId)
    requires s.Valid()
    ensures s.XReadGroup(n, upto).Accounted()
  {
    var t, batch := s.XReadGroup(n, upto), s.ReadBatch(upto);
    assert forall m :: m in t.pending <==> m in s.pending || m in batch;
  }

  /** A pending id a scan may take: its entry is gone, or it was last handed out by a call up to `cutoff`. */
  predicate MayBeScanned(s: Stream, cutoff: nat, m: MsgId) {
    m in s.pending && (m in s.entries ==> s.Since(m) <= cutoff)
  }

  /** A scan takes nothing delivered after the cutoff; it leaves a pending id that it may take only if it
      took COUNT smaller ones; and what was delivered no later than one it takes, it may take too. */
  lemma ScanTakesTheFirst(s: Stream, cutoff: nat)
    ensures var ids := s.Scan(cutoff);
      && ids <= s.pending.Keys && |ids| <= CLAIM_BATCH && (forall m :: m in ids ==> MayBeScanned(s, cutoff, m))
      && (forall k :: MayBeScanned(s, cutoff, k) && k !in ids ==>
            |ids| == CLAIM_BATCH && forall m :: m in ids ==> m < k)
      && (forall m, k :: m in ids && m in s.entries && k in s.pending && s.Since(k) <= s.Since(m) ==>
            MayBeScanned(s, cutoff, k))
      && (|ids| == CLAIM_BATCH || ids == s.Eligible(cutoff))
  {
    LowestAreFirst(s.Eligible(cutoff), CLAIM_BATCH);
    assert forall k :: MayBeScanned(s, cutoff, k) <==> k in s.Eligible(cutoff);
    if |s.Scan(cutoff)| == |s.Eligible(cutoff)| {
      SubsetSize(s.Scan(cutoff), s.Eligible(cutoff));
    }
  }

  /** A read takes at most COUNT of the undelivered entries, the smallest ids first, and leaves exactly the
      others undelivered. */
  lemma ReadTakesTheFirst(s: Stream, n: NodeId, upto: MsgId)
    requires s.IsFullBatch(upto)
    ensures var batch := s.ReadBatch(upto);
      && batch != {} && batch <= s.Undelivered() && |batch| <= READ_BATCH
      && (forall k :: k in s.Undelivered() && k !in batch ==> |batch| == READ_BATCH && forall m :: m in batch ==> m < k)
      && s.XReadGroup(n, upto).Undelivered() == s.Undelivered() - batch
  {
    assert upto in s.ReadBatch(upto);
  }

  /** What a read just handed out is no earlier claim's: its idle time starts at that call. */
  lemma ReadStartsIdleTime(s: Stream, n: NodeId, upto: MsgId, cutoff: nat, m: MsgId)
    requires s.Valid() && s.IsFullBatch(upto) && m in s.entries && s.lastDelivered < m <= upto && cutoff <= s.clock
    ensures var t := s.XReadGroup(n, upto);
      t.clock == s.clock + 1 && t.Since(m) == t.clock && m !in t.Scan(cutoff)
  {
    ScanTakesTheFirst(s.XReadGroup(n, upto), cutoff);
  }

  /** The same of a claim. */
  lemma ClaimStartsIdleTime(s: Stream, n: NodeId, at: nat, cutoff: nat, m: MsgId)
    requires s.Valid() && m in s.Claimable(s.Scan(at)) && cutoff <= s.clock
    ensures var t := s.XAutoClaim(n, s.Scan(at));
      t.clock == s.clock + 1 && t.Since(m) == t.clock && m !in t.Scan(cutoff)
  {
    ScanTakesTheFirst(s.XAutoClaim(n, s.Scan(at)), cutoff);
  }

  lemma XAutoClaimValid(s: Stream, n: NodeId, ids: set<MsgId>)
    requires s.Valid() && ids <= s.pending.Keys
    ensures s.XAutoClaim(n, ids).Valid() && s.EvolvesTo(s.XAutoClaim(n, ids))
  {
    AutoClaimIsValid(s, n, ids);
    XAutoClaimEvolves(s, n, ids);
  }

  lemma AutoClaimIsValid(s: Stream, n: NodeId, ids: set<MsgId>)
    requires s.Valid() && ids <= s.pending.Keys
    ensures s.XAutoClaim(n, ids).Valid()
  {
    var t := s.XAutoClaim(n, ids);
    AutoClaimKeys(s, n, ids);
    assert t.Consistent() && t.Accounted();
    forall m | m in t.pending ensures t.Since(m) <= t.clock {
      HandIsDated(s.(pending := s.pending - ids), n, s.Claimable(ids), m);
    }
  }

  lemma AutoClaimKeys(s: Stream, n: NodeId, ids: set<MsgId>)
    requires s.Valid() && ids <= s.pending.Keys
    ensures forall m :: m in s.XAutoClaim(n, ids).pending <==> m in s.pending && (m in ids ==> m in s.entries)
    ensures s.XAutoClaim(n, ids).delivered.Keys == s.delivered.Keys
  {
  }

  lemma XAutoClaimEvolves(s: Stream, n: NodeId, ids: set<MsgId>)
    requires s.Valid() && ids <= s.pending.Keys
    ensures s.EvolvesTo(s.XAutoClaim(n, ids))
  {
    var t, live := s.XAutoClaim(n, ids), s.Claimable(ids);
    forall m | m in s.delivered ensures m in t.delivered && s.delivered[m] <= t.delivered[m] {}
    forall m | m in s.pending && s.Deliveries(m) == t.Deliveries(m)
      ensures (m in t.pending && t.pending[m] == s.pending[m]) || m in t.trimmed
    {
      if m in ids && m !in live {
        assert m in s.trimmed;
      }
    }
  }

  lemma XAckValid(s: Stream, l: Lease)
    requires s.Valid()
    ensures s.XAck(l).Valid() && s.EvolvesTo(s.XAck(l))
  {
    XAckIsConsistent(s, l);
    XAckEvolves(s, l);
  }

  lemma XAckIsConsistent(s: Stream, l: Lease)
    requires s.Valid()
    ensures s.XAck(l).Consistent() && s.XAck(l).Accounted()
  {
  }

  lemma XAckEvolves(s: Stream, l: Lease)
    requires s.Valid()
    ensures s.EvolvesTo(s.XAck(l))
  {
    assert s.HistoriesGrow(s.XAck(l));
  }

  lemma XDelValid(s: Stream, m: MsgId)
    requires s.Valid() && (m in s.acks || m in s.trimmed)
    ensures s.XDel(m).Valid() && s.EvolvesTo(s.XDel(m))
  {
  }

  lemma HistoriesGrowOn(s: Stream, t: Stream, u: Stream)
    requires s.HistoriesGrow(t) && t.HistoriesGrow(u)
    ensures s.HistoriesGrow(u)
  {
  }

  lemma PendingEvolves(s: Stream, t: Stream, u: Stream, m: MsgId)
    requires s.Valid() && s.EvolvesTo(t) && t.EvolvesTo(u) && m in s.pending && s.Deliveries(m) == u.Deliveries(m)
    ensures (m in u.pending && u.pending[m] == s.pending[m]) || m in u.acks || m in u.trimmed
  {
    assert m in s.delivered && s.Deliveries(m) == t.Deliveries(m);
  }

  lemma EvolvesTransitive(s: Stream, t: Stream, u: Stream)
    requires s.Valid() && t.Valid() && s.EvolvesTo(t) && t.EvolvesTo(u)
    ensures s.EvolvesTo(u)
  {
    HistoriesGrowOn(s, t, u);
    forall m | m in s.pending && s.Deliveries(m) == u.Deliveries(m)
      ensures (m in u.pending && u.pending[m] == s.pending[m]) || m in u.acks || m in u.trimmed
    {
      PendingEvolves(s, t, u, m);
    }
  }
}
