/** How long a delivered message may wait for a slot and run, and the idle window that keeps the
    reclaim loop away from it. Times are in seconds after the delivery of a batch. */
module ReclaimWindow {
  import opened RedisStream
  import opened Sets

  /** Runtime settings, clamped by Normalize. */
  class Config {
    var workerConcurrency: int
    var defaultTimeoutSec: int
    var budgetCapUSD: real
    var reclaimIdleSec: int

    constructor (concurrency: int, timeout: int, budget: real, idle: int)
      ensures workerConcurrency == concurrency && defaultTimeoutSec == timeout
      ensures budgetCapUSD == budget && reclaimIdleSec == idle
    {
      workerConcurrency, defaultTimeoutSec, budgetCapUSD, reclaimIdleSec := concurrency, timeout, budget, idle;
    }

    predicate Usable()
      reads this
    {
      workerConcurrency >= 1 && defaultTimeoutSec >= 1 && budgetCapUSD > 0.0 && reclaimIdleSec >= 2 * defaultTimeoutSec
    }

    /** Settings become usable; those that are usable are left alone. */
    method Normalize()
      modifies this
      ensures Usable() && (old(Usable()) ==> unchanged(this))
      ensures workerConcurrency == if old(workerConcurrency) >= 1 then old(workerConcurrency) else 1
      ensures defaultTimeoutSec == if old(defaultTimeoutSec) >= 1 then old(defaultTimeoutSec) else 30
      ensures budgetCapUSD == if old(budgetCapUSD) > 0.0 then old(budgetCapUSD) else 10.0
      ensures reclaimIdleSec ==
        if old(reclaimIdleSec) >= 2 * defaultTimeoutSec then old(reclaimIdleSec) else 2 * defaultTimeoutSec
    {
      if workerConcurrency < 1 {
        workerConcurrency := 1;
      }
      if defaultTimeoutSec < 1 {
        defaultTimeoutSec := 30;
      }
      if budgetCapUSD <= 0.0 {
        budgetCapUSD := 10.0;
      }
      var floor := defaultTimeoutSec * 2;
      if reclaimIdleSec < floor {
        reclaimIdleSec := floor;
      }
    }
  }

  // ---- granting |free| slots ----------------------------------------------------------------

  function FirstFree(free: seq<nat>): (i: nat)
    requires free != []
    ensures i < |free| && forall k :: 0 <= k < |free| ==> free[i] <= free[k]
  {
    if |free| == 1 then 0
    else
      var i := FirstFree(free[..|free| - 1]);
      if free[|free| - 1] < free[i] then |free| - 1 else i
  }

  /** The slots after the first one that gets free was taken for d. */
  function Occupy(free: seq<nat>, d: nat): (next: seq<nat>)
    requires free != []
    ensures |next| == |free|
  {
    free[FirstFree(free) := free[FirstFree(free)] + d]
  }

  /** When each request is granted: slot i is busy until free[i], request k holds its slot for ds[k]. */
  function Starts(free: seq<nat>, ds: seq<nat>): (starts: seq<nat>)
    requires free != []
    ensures |starts| == |ds|
    decreases |ds|
  {
    if ds == [] then [] else [free[FirstFree(free)]] + Starts(Occupy(free, ds[0]), ds[1..])
  }

  /** The slots after all requests were granted. */
  function After(free: seq<nat>, ds: seq<nat>): (next: seq<nat>)
    requires free != []
    ensures |next| == |free|
    decreases |ds|
  {
    if ds == [] then free else After(Occupy(free, ds[0]), ds[1..])
  }

  lemma {:induction false} StartsSnoc(free: seq<nat>, ds: seq<nat>, d: nat)
    requires free != []
    ensures var next := After(free, ds);
      && Starts(free, ds + [d]) == Starts(free, ds) + [next[FirstFree(next)]]
      && After(free, ds + [d]) == Occupy(next, d)
    decreases |ds|
  {
    if ds != [] {
      assert (ds + [d])[1..] == ds[1..] + [d];
      StartsSnoc(Occupy(free, ds[0]), ds[1..], d);
    }
  }

  // ---- two dispatchers on the same slots ----------------------------------------------------

  /** A request for a slot; `mine` marks those of the batch looked at, the others come from the
      worker's other loop. */
  datatype Request = Request(mine: bool, occupies: nat)

  function Durations(q: seq<Request>): (ds: seq<nat>)
    ensures |ds| == |q| && forall i :: 0 <= i < |q| ==> ds[i] == q[i].occupies
  {
    if q == [] then [] else Durations(q[..|q| - 1]) + [q[|q| - 1].occupies]
  }

  function Mine(q: seq<Request>): seq<nat> {
    if q == [] then []
    else
      var r := q[|q| - 1];
      Mine(q[..|q| - 1]) + if r.mine then [r.occupies] else []
  }

  /** Each loop has one outstanding request, and both are served first come, first served: the other
      loop never gets two slots in a row while the batch waits. */
  ghost predicate Alternates(q: seq<Request>) {
    forall i :: 0 <= i < |q| - 1 ==> q[i].mine || q[i + 1].mine
  }

  /** Slot i gets free at `start`, no slot earlier, and it alone is taken, for d. */
  ghost predicate TakesFirst(free: seq<nat>, after: seq<nat>, i: nat, start: nat, d: nat) {
    && i < |free| && free[i] == start && (forall k :: 0 <= k < |free| ==> start <= free[k])
    && after == free[i := start + d]
  }

  /** A slot is taken: the channel send of one request succeeds. */
  method Grant(free: array<nat>, d: nat) returns (start: nat)
    requires free.Length > 0
    modifies free
    ensures start == old(free[..])[FirstFree(old(free[..]))] && free[..] == Occupy(old(free[..]), d)
    ensures exists i :: TakesFirst(old(free[..]), free[..], i, start, d)
  {
    ghost var before := free[..];
    var i := 0;
    for n := 1 to free.Length
      invariant 0 <= i < n && i == FirstFree(free[..n])
      invariant free[..] == before
    {
      assert free[..n + 1][..n] == free[..n];
      if free[n] < free[i] {
        i := n;
      }
    }
    assert free[..free.Length] == free[..];
    start := free[i];
    free[i] := free[i] + d;
    assert TakesFirst(before, free[..], i, start, d);
  }

  /** The other loop asks for a slot, or does not, if it has no request waiting. */
  method MayAsk(waiting: seq<Request>, limit: nat) returns (after: seq<Request>)
    ensures after == waiting ||
      (exists d: nat :: d <= limit && after == waiting + [Request(false, d)] && forall r :: r in waiting ==> r.mine)
  {
    after := waiting;
    var asks: bool := *;
    if asks && forall r :: r in waiting ==> r.mine {
      var d: nat :| d <= limit;
      after := waiting + [Request(false, d)];
    }
  }

  /** What waits while message k of the batch has not got its slot: its request and at most one of
      the other loop. */
  ghost predicate Queue(waiting: seq<Request>, d: nat, limit: nat) {
    && 1 <= |waiting| <= 2
    && (exists i :: 0 <= i < |waiting| && waiting[i] == Request(true, d))
    && (forall i :: 0 <= i < |waiting| && waiting[i] != Request(true, d) ==>
          !waiting[i].mine && waiting[i].occupies <= limit)
    && (|waiting| == 2 ==> waiting[0].mine != waiting[1].mine)
  }

  /** The batch arrives: its loop asks for the first slot, maybe after the other loop. */
  method FirstRequests(batch: seq<nat>, limit: nat) returns (waiting: seq<Request>)
    requires batch != []
    ensures Queue(waiting, batch[0], limit)
  {
    waiting := MayAsk([], limit);
    waiting := waiting + [Request(true, batch[0])];
    assert waiting[|waiting| - 1] == Request(true, batch[0]);
  }

  /** The front request is granted while the other loop may ask; a loop whose request was granted asks
      for its next message. */
  method Rotate(waiting: seq<Request>, batch: seq<nat>, k: nat, limit: nat) returns (after: seq<Request>)
    requires k < |batch| && Queue(waiting, batch[k], limit)
    ensures !waiting[0].mine ==> Queue(after, batch[k], limit) && after[0].mine
    ensures waiting[0].mine && k + 1 < |batch| ==> Queue(after, batch[k + 1], limit)
  {
    var behind := MayAsk(waiting, limit);
    after := behind[1..];
    if waiting[0].mine && k + 1 < |batch| {
      after := MayAsk(after, limit);
      after := after + [Request(true, batch[k + 1])];
      assert after[|after| - 1] == Request(true, batch[k + 1]);
    }
  }

  /** What the grants so far amount to: k messages of the batch have their slots. */
  ghost predicate Progress(free: seq<nat>, q: seq<Request>, starts: seq<nat>, batch: seq<nat>, k: nat, limit: nat)
    requires free != []
  {
    && k <= |batch| && Mine(q) == batch[..k] && Alternates(q) && (forall r :: r in q && !r.mine ==> r.occupies <= limit)
    && starts == Starts(free, Durations(q))
  }

  lemma OneMoreGrant(free: seq<nat>, q: seq<Request>, starts: seq<nat>, batch: seq<nat>, k: nat, limit: nat, r: Request)
    requires free != [] && Progress(free, q, starts, batch, k, limit) && k < |batch|
    requires if r.mine then r.occupies == batch[k] else r.occupies <= limit
    requires q != [] && !q[|q| - 1].mine ==> r.mine
    ensures var next := After(free, Durations(q));
      && Progress(free, q + [r], starts + [next[FirstFree(next)]], batch, if r.mine then k + 1 else k, limit)
      && After(free, Durations(q + [r])) == Occupy(next, r.occupies)
  {
    Granted(free, q, r);
    assert batch[..k + 1] == batch[..k] + [batch[k]];
  }

  /** Where the two loops stand between grants: k messages of the batch have their slots, the next one
      waits, and the other loop, if granted last, is not first in line. */
  ghost predicate Between(free: seq<nat>, now: seq<nat>, q: seq<Request>, starts: seq<nat>, waiting: seq<Request>,
                          batch: seq<nat>, k: nat, limit: nat)
    requires free != []
  {
    && Progress(free, q, starts, batch, k, limit) && now == After(free, Durations(q))
    && (k < |batch| ==> Queue(waiting, batch[k], limit) && (q != [] && !q[|q| - 1].mine ==> waiting[0].mine))
  }

  /** One grant leads from one such point to the next. */
  lemma NextGrant(free: seq<nat>, now: seq<nat>, q: seq<Request>, starts: seq<nat>, waiting: seq<Request>,
                  after: seq<Request>, batch: seq<nat>, k: nat, limit: nat)
    requires free != [] && Between(free, now, q, starts, waiting, batch, k, limit) && k < |batch|
    requires !waiting[0].mine ==> Queue(after, batch[k], limit) && after[0].mine
    requires waiting[0].mine && k + 1 < |batch| ==> Queue(after, batch[k + 1], limit)
    ensures var next := waiting[0];
      Between(free, Occupy(now, next.occupies), q + [next], starts + [now[FirstFree(now)]], after, batch,
              if next.mine then k + 1 else k, limit)
  {
    var next := waiting[0];
    FrontIsAllowed(waiting, batch[k], limit);
    OneMoreGrant(free, q, starts, batch, k, limit, next);
    assert (q + [next])[|q + [next]| - 1] == next;
  }

  lemma FrontIsAllowed(waiting: seq<Request>, d: nat, limit: nat)
    requires Queue(waiting, d, limit)
    ensures if waiting[0].mine then waiting[0].occupies == d else waiting[0].occupies <= limit
  {
  }

  /** Both dispatch loops at work on one semaphore while one of them hands over `batch`: requests
      queue up and the front is granted next. q is the order of the grants. */
  method Dispatch(free: array<nat>, batch: seq<nat>, limit: nat) returns (q: seq<Request>, starts: seq<nat>)
    requires free.Length > 0
    modifies free
    ensures Mine(q) == batch && Alternates(q) && forall r :: r in q && !r.mine ==> r.occupies <= limit
    ensures starts == Starts(old(free[..]), Durations(q)) && free[..] == After(old(free[..]), Durations(q))
  {
    q, starts := [], [];
    if batch == [] {
      return;
    }
    ghost var before := free[..];
    var k := 0;
    var waiting := FirstRequests(batch, limit);
    while k < |batch|
      invariant Between(before, free[..], q, starts, waiting, batch, k, limit)
      decreases |batch| - k, if k < |batch| && waiting[0].mine then 0 else 1
    {
      ghost var now := free[..];
      var next := waiting[0];
      var after := Rotate(waiting, batch, k, limit);
      var start := Grant(free, next.occupies);
      NextGrant(before, now, q, starts, waiting, after, batch, k, limit);
      q, starts, waiting := q + [next], starts + [start], after;
      k := if next.mine then k + 1 else k;
    }
    assert batch[..|batch|] == batch;
  }

  lemma Granted(free: seq<nat>, q: seq<Request>, r: Request)
    requires free != []
    ensures Durations(q + [r]) == Durations(q) + [r.occupies]
    ensures Mine(q + [r]) == Mine(q) + if r.mine then [r.occupies] else []
    ensures var next := After(free, Durations(q));
      && Starts(free, Durations(q + [r])) == Starts(free, Durations(q)) + [next[FirstFree(next)]]
      && After(free, Durations(q + [r])) == Occupy(next, r.occupies)
  {
    assert (q + [r])[..|q|] == q;
    StartsSnoc(free, Durations(q), r.occupies);
  }

  /** Under that discipline message k has at most 2k + 1 requests ahead of it. */
  lemma {:induction false} AheadOf(q: seq<Request>, i: nat)
    requires Alternates(q) && i < |q| && q[i].mine
    ensures i + 1 <= 2 * |Mine(q[..i + 1])|
  {
    assert q[..i + 1][..i] == q[..i];
    if i > 0 {
      if q[i - 1].mine {
        AheadOf(q, i - 1);
      } else if i > 1 {
        assert q[i - 2].mine;
        AheadOf(q, i - 2);
        assert q[..i][..i - 1] == q[..i - 1];
      }
    }
  }

  lemma {:induction false} MineGrows(q: seq<Request>, i: nat)
    requires i <= |q|
    ensures |Mine(q[..i])| <= |Mine(q)|
    decreases |q|
  {
    if i < |q| {
      MineGrows(q[..|q| - 1], i);
      assert q[..|q| - 1][..i] == q[..i];
    } else {
      assert q[..i] == q;
    }
  }

  /** Slots busy beyond time x. */
  function Late(free: seq<nat>, x: int): set<nat> {
    set i: nat | i < |free| && free[i] > x
  }

  /** Slots free before time x. */
  function Early(free: seq<nat>, x: int): set<nat> {
    set i: nat | i < |free| && free[i] < x
  }

  predicate AtMost(xs: seq<nat>, x: int) {
    forall i :: 0 <= i < |xs| ==> xs[i] <= x
  }

  function Indices(n: nat): (s: set<nat>)
    ensures |s| == n && forall i: nat :: i in s <==> i < n
  {
    if n == 0 then {} else Indices(n - 1) + {n - 1}
  }

  /** The time of the completed rounds of C jobs before job k. */
  function Delay(k: nat, C: nat, R: nat): nat
    requires C > 0
  {
    if k < C then 0 else R + Delay(k - C, C, R)
  }

  lemma {:induction false} DelayOfRounds(q: nat, r: nat, C: nat, R: nat)
    requires r < C
    ensures Delay(q * C + r, C, R) == q * R
    decreases q
  {
    if q > 0 {
      var p := q - 1;
      assert q * C == p * C + C && q * R == p * R + R;
      assert p * C >= 0;
      DelayOfRounds(p, r, C, R);
    }
  }

  lemma DelayIsRounds(k: nat, C: nat, R: nat)
    requires C > 0
    ensures Delay(k, C, R) == k / C * R
  {
    assert k == k / C * C + k % C;
    DelayOfRounds(k / C, k % C, C, R);
  }

  lemma {:induction false} DelayGrows(k: nat, n: nat, C: nat, R: nat)
    requires k <= n && C > 0
    ensures Delay(k, C, R) <= Delay(n, C, R)
  {
    if k >= C {
      DelayGrows(k - C, n - C, C, R);
    }
  }

  lemma StartsTail(free: seq<nat>, ds: seq<nat>, k: nat)
    requires free != [] && k < |ds|
    ensures Starts(free, ds)[k] ==
      if k == 0 then free[FirstFree(free)] else Starts(Occupy(free, ds[0]), ds[1..])[k - 1]
  {
  }

  lemma OccupyLate(free: seq<nat>, d: nat, R: nat, x: nat)
    requires free != [] && d <= R && AtMost(free, x + R) && free[FirstFree(free)] <= x
    ensures AtMost(Occupy(free, d), x + R) && |Late(Occupy(free, d), x)| <= |Late(free, x)| + 1
    ensures Late(Occupy(free, d), x + R) == {}
  {
    SubsetSize(Late(Occupy(free, d), x), Late(free, x) + {FirstFree(free)});
  }

  /** With r of the C slots busy for one round more than the others, message k starts within the
      rounds of k + r jobs. */
  lemma {:induction false} StartsBy(free: seq<nat>, ds: seq<nat>, R: nat, x: nat, r: nat, k: nat)
    requires r < |free| && k < |ds| && AtMost(ds, R)
    requires AtMost(free, x + R) && |Late(free, x)| <= r
    ensures Starts(free, ds)[k] <= x + Delay(k + r, |free|, R)
    decreases k
  {
    FirstIsNotLate(free, x);
    StartsTail(free, ds, k);
    if k > 0 {
      OccupyLate(free, ds[0], R, x);
      if r + 1 < |free| {
        StartsBy(Occupy(free, ds[0]), ds[1..], R, x, r + 1, k - 1);
      } else {
        StartsBy(Occupy(free, ds[0]), ds[1..], R, x + R, 0, k - 1);
      }
    }
  }

  lemma FirstIsNotLate(free: seq<nat>, x: nat)
    requires free != [] && |Late(free, x)| < |free|
    ensures free[FirstFree(free)] <= x
  {
    if forall i :: i in Indices(|free|) ==> i in Late(free, x) {
      SubsetSize(Indices(|free|), Late(free, x));
    }
    var i :| i in Indices(|free|) && i !in Late(free, x);
  }

  /** The same bound is reached when everything takes as long as it may. */
  lemma {:induction false} StartsNoEarlier(free: seq<nat>, ds: seq<nat>, R: nat, x: nat, r: nat, k: nat)
    requires r < |free| && k < |ds| && (forall j :: 0 <= j < |ds| ==> ds[j] == R)
    requires AtLeast(free, x) && |Early(free, x + R)| <= |free| - r
    ensures Starts(free, ds)[k] >= x + Delay(k + r, |free|, R)
    decreases k
  {
    StartsTail(free, ds, k);
    if k > 0 {
      var next := Occupy(free, R);
      OccupyEarly(free, R, x, r);
      if r + 1 < |free| {
        StartsNoEarlier(next, ds[1..], R, x, r + 1, k - 1);
      } else {
        AllBusyOneRound(next, R, x);
        StartsNoEarlier(next, ds[1..], R, x + R, 0, k - 1);
      }
    }
  }

  lemma AllBusyOneRound(next: seq<nat>, R: nat, x: nat)
    requires |Early(next, x + R)| <= 0
    ensures AtLeast(next, x + R) && |Early(next, x + R + R)| <= |next|
  {
    NoneEarly(next, x + R);
    SubsetSize(Early(next, x + R + R), Indices(|next|));
  }

  predicate AtLeast(xs: seq<nat>, x: int) {
    forall i :: 0 <= i < |xs| ==> xs[i] >= x
  }

  lemma NoneEarly(free: seq<nat>, x: int)
    requires |Early(free, x)| <= 0
    ensures AtLeast(free, x)
  {
    forall i | 0 <= i < |free| ensures free[i] >= x {
      assert i !in Early(free, x);
    }
  }

  lemma OccupyEarly(free: seq<nat>, R: nat, x: nat, r: nat)
    requires free != [] && r < |free| && AtLeast(free, x) && |Early(free, x + R)| <= |free| - r
    ensures AtLeast(Occupy(free, R), x) && |Early(Occupy(free, R), x + R)| <= |free| - r - 1
  {
    var i, next := FirstFree(free), Occupy(free, R);
    assert next[i] >= x + R && forall j :: 0 <= j < |free| && j != i ==> next[j] == free[j];
    if free[i] < x + R {
      assert i in Early(free, x + R);
      SubsetSize(Early(next, x + R), Early(free, x + R) - {i});
    } else {
      assert Early(next, x + R) == {};
    }
  }

  // ---- the window --------------------------------------------------------------------------

  /** A batch is delivered at time 0. Jobs occupy a slot for at most R; the loop's earlier batches have
      all started, and the other loop may have a request waiting. q is the order of grants. */
  ghost predicate Schedule(free: seq<nat>, q: seq<Request>, C: nat, R: nat, batch: nat) {
    |free| == C && AtMost(free, R) && AtMost(Durations(q), R) && Alternates(q) && |Mine(q)| <= batch
  }

  /** No message is idle for `window`, which is when a claim may take it, while its holder is still
      waiting or running. */
  ghost predicate NeverStolen(C: nat, R: nat, batch: nat, window: nat)
    requires C > 0
  {
    forall free, q: seq<Request>, i :: Schedule(free, q, C, R, batch) && 0 <= i < |q| && q[i].mine ==>
      Starts(free, Durations(q))[i] + q[i].occupies < window
  }

  lemma SafeWindow(free: seq<nat>, q: seq<Request>, C: nat, R: nat, batch: nat, i: nat)
    requires C > 0 && batch > 0 && Schedule(free, q, C, R, batch) && i < |q| && q[i].mine
    ensures Starts(free, Durations(q))[i] + q[i].occupies <= Delay(2 * batch - 1, C, R) + R + R
  {
    AheadOf(q, i);
    MineGrows(q, i + 1);
    assert Late(free, R) == {};
    StartsBy(free, Durations(q), R, R, 0, i);
    DelayGrows(i, 2 * batch - 1, C, R);
    assert Durations(q)[i] <= R;
  }

  /** The other loop and the batch take turns. */
  function Turns(R: nat, batch: nat): (q: seq<Request>)
    ensures |q| == 2 * batch && forall i :: 0 <= i < |q| ==> q[i] == Request(i % 2 == 1, R)
  {
    if batch == 0 then [] else Turns(R, batch - 1) + [Request(false, R), Request(true, R)]
  }

  lemma {:induction false} TurnsAreMine(R: nat, batch: nat)
    ensures |Mine(Turns(R, batch))| == batch
  {
    if batch > 0 {
      var before := Turns(R, batch - 1);
      TurnsAreMine(R, batch - 1);
      Granted([0], before, Request(false, R));
      Granted([0], before + [Request(false, R)], Request(true, R));
      assert Turns(R, batch) == before + [Request(false, R)] + [Request(true, R)];
    }
  }

  lemma TurnsAreSchedule(C: nat, R: nat, batch: nat)
    requires C > 0 && batch > 0
    ensures Schedule(seq(C, _ => R), Turns(R, batch), C, R, batch)
  {
    TurnsAreMine(R, batch);
  }

  lemma WorstCase(C: nat, R: nat, batch: nat)
    requires C > 0 && batch > 0
    ensures var free, q := seq(C, _ => R), Turns(R, batch);
      && Schedule(free, q, C, R, batch) && q[2 * batch - 1] == Request(true, R)
      && Starts(free, Durations(q))[2 * batch - 1] + R >= Delay(2 * batch - 1, C, R) + R + R
  {
    var free, q := seq(C, _ => R), Turns(R, batch);
    TurnsAreSchedule(C, R, batch);
    SubsetSize(Early(free, R + R), Indices(C));
    StartsNoEarlier(free, Durations(q), R, R, 0, 2 * batch - 1);
  }

  /** Exactly the windows longer than ceil(2 batch / C) + 1 worst-case occupancies are safe. */
  lemma NeverStolenIff(C: nat, R: nat, batch: nat, window: nat)
    requires C > 0 && batch > 0
    ensures NeverStolen(C, R, batch, window) <==> window > ((2 * batch - 1) / C + 2) * R
  {
    DelayIsRounds(2 * batch - 1, C, R);
    TwoMore((2 * batch - 1) / C, R);
    if NeverStolen(C, R, batch, window) {
      WorstCase(C, R, batch);
    }
    if window > ((2 * batch - 1) / C + 2) * R {
      forall free, q: seq<Request>, i | Schedule(free, q, C, R, batch) && 0 <= i < |q| && q[i].mine
        ensures Starts(free, Durations(q))[i] + q[i].occupies < window
      {
        SafeWindow(free, q, C, R, batch, i);
      }
    }
  }

  lemma TwoMore(q: nat, R: nat)
    ensures (q + 2) * R == q * R + R + R
  {
  }

  /** A job holds its slot while it is marked running, evaluated and persisted: see SlotUse. */
  const PERSIST_TIMEOUT := 5

  function Occupancy(timeout: nat): nat {
    PERSIST_TIMEOUT + timeout + PERSIST_TIMEOUT
  }

  /** The floor of Normalize, twice the model timeout, never suffices: whatever the concurrency,
      some schedule lets even the first message of a batch be reclaimed while it runs. */
  lemma FloorNeverSuffices(C: nat, timeout: nat, batch: nat)
    requires C > 0 && timeout >= 1 && batch > 0
    ensures !NeverStolen(C, Occupancy(timeout), batch, 2 * timeout)
  {
    var R := Occupancy(timeout);
    NeverStolenIff(C, R, batch, 2 * timeout);
    TwoMore((2 * batch - 1) / C, R);
  }

  /** The shipped defaults (25 slots, 30 s, 300 s) keep both read and reclaimed batches safe. */
  lemma DefaultsSuffice()
    ensures NeverStolen(25, Occupancy(30), READ_BATCH, 300) && NeverStolen(25, Occupancy(30), CLAIM_BATCH, 300)
  {
    NeverStolenIff(25, Occupancy(30), READ_BATCH, 300);
    NeverStolenIff(25, Occupancy(30), CLAIM_BATCH, 300);
  }
}
