/** Runs with a clock: when every holder is done with its message before the reclaim window is over,
    reclaiming finds only messages nobody holds. */
module TimedRuns {
  import opened RedisStream
  import opened Protocol
  import opened ProtocolInvariants
  import opened NodeInvariants
  import opened Durability
  import opened ExclusiveHolding

  /** The time of each event; time does not run backwards. */
  ghost predicate Timed(es: seq<Event>, ts: seq<nat>) {
    |ts| == |es| && forall i, j :: 0 <= i < j < |ts| ==> ts[i] <= ts[j]
  }

  /** When the delivery of lease l happened: at the event that raised the message's delivery count to
      it. */
  ghost function DeliveredAt(es: seq<Event>, ts: seq<nat>, l: Lease): nat
    requires |ts| == |es|
  {
    if es == [] then 0
    else
      var n := |es| - 1;
      if Exec(es[..n]).stream.Deliveries(l.msg) < l.delivery then ts[n] else DeliveredAt(es[..n], ts[..n], l)
  }

  lemma {:induction false} DeliveredBefore(es: seq<Event>, ts: seq<nat>, l: Lease)
    requires Timed(es, ts) && es != []
    ensures DeliveredAt(es, ts, l) <= ts[|es| - 1]
  {
    var n := |es| - 1;
    if n > 0 && !(Exec(es[..n]).stream.Deliveries(l.msg) < l.delivery) {
      DeliveredBefore(es[..n], ts[..n], l);
    }
  }

  /** A message's later delivery is not earlier. */
  lemma {:induction false} DeliveriesAreOrdered(es: seq<Event>, ts: seq<nat>, m: MsgId, d: nat, e: nat)
    requires Timed(es, ts) && d <= e
    ensures DeliveredAt(es, ts, Lease(m, d)) <= DeliveredAt(es, ts, Lease(m, e))
  {
    if es != [] {
      var n := |es| - 1;
      if Exec(es[..n]).stream.Deliveries(m) < e {
        DeliveredBefore(es, ts, Lease(m, d));
      } else {
        DeliveriesAreOrdered(es[..n], ts[..n], m, d, e);
      }
    }
  }

  /** No task, waiting or running, is as old as the window. */
  ghost predicate DoneWithin(es: seq<Event>, ts: seq<nat>, window: nat)
    requires |ts| == |es|
  {
    forall i, l :: 0 <= i < |es| && l in Exec(es[..i]).tasks ==> ts[i] < DeliveredAt(es[..i], ts[..i], l) + window
  }

  /** Reclaiming hands over only messages last delivered a window ago. */
  ghost predicate ClaimsAfter(es: seq<Event>, ts: seq<nat>, window: nat)
    requires |ts| == |es|
  {
    forall i, m :: 0 <= i < |es| && HandsOver(Exec(es[..i]), es[i], m) ==>
      DeliveredAt(es[..i], ts[..i], Lease(m, Exec(es[..i]).stream.Deliveries(m))) + window <= ts[i]
  }

  ghost predicate HandsOver(s: State, e: Event, m: MsgId) {
    Enabled(s, e) && e.Loop? && e.loop.Claim? && m in DeliveryOf(s, e.node, e.loop).batch
  }

  /** A task's delivery is its message's latest or an earlier one. */
  lemma TaskWasDelivered(s: State, l: Lease)
    requires LeaseInv(s) && l in s.tasks
    ensures l.delivery <= s.stream.Deliveries(l.msg)
  {
    assert TaskOk(s, l);
  }

  lemma HeldIsNotHandedOver(es: seq<Event>, ts: seq<nat>, window: nat, i: nat, s: State, l: Lease)
    requires Timed(es, ts) && DoneWithin(es, ts, window) && ClaimsAfter(es, ts, window) && i < |es|
    requires s == Exec(es[..i]) && LeaseInv(s) && l in s.tasks
    ensures !HandsOver(s, es[i], l.msg)
  {
    TaskWasDelivered(s, l);
    DeliveriesAreOrdered(es[..i], ts[..i], l.msg, l.delivery, s.stream.Deliveries(l.msg));
  }

  lemma WindowKeepsIdle(es: seq<Event>, ts: seq<nat>, window: nat, i: nat)
    requires Timed(es, ts) && DoneWithin(es, ts, window) && ClaimsAfter(es, ts, window) && i < |es|
    ensures ClaimsIdle(Exec(es[..i]), es[i])
  {
    var s := Exec(es[..i]);
    Reachable(es[..i]);
    forall l | l in s.tasks ensures !HandsOver(s, es[i], l.msg) {
      HeldIsNotHandedOver(es, ts, window, i, s, l);
    }
  }

  /** A run in which every holder is done within the window, and claims wait for the window, is
      exclusive: no message ever has two holders. */
  lemma WindowMeansExclusive(es: seq<Event>, ts: seq<nat>, window: nat)
    requires Timed(es, ts) && DoneWithin(es, ts, window) && ClaimsAfter(es, ts, window)
    ensures ExclusiveRun(es)
  {
    forall i | 0 <= i < |es| ensures ClaimsIdle(Exec(es[..i]), es[i]) {
      WindowKeepsIdle(es, ts, window, i);
    }
  }

  /** In such a run every acknowledged message has a completed or failed record, or is dead-lettered,
      in every state from its acknowledgement on. */
  lemma WindowedRunsStayFinal(es: seq<Event>, ts: seq<nat>, window: nat)
    requires Timed(es, ts) && DoneWithin(es, ts, window) && ClaimsAfter(es, ts, window)
    ensures forall i :: 0 <= i <= |es| ==> AckedIsFinal(Exec(es[..i]))
  {
    WindowMeansExclusive(es, ts, window);
    ExclusiveRunsStayFinal(es);
  }
}
