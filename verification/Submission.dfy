/** The API's handler after the budget check, statement by statement, run without interruption: it
    takes only steps of the protocol, and what it leaves behind is stated for every outcome of its calls. */
module Submission {
  import opened Records
  import opened RedisStream
  import opened Protocol
  import opened Runs

  /** How the calls of a submission end; `redis` says whether Redis is configured, `slotFree` whether
      the local executor has room. */
  datatype Outcomes = Outcomes(queued: Call, redis: bool, enqueue: Call, trim: set<MsgId>, slotFree: bool,
                               rejected: Call)
  {
    /** The job went on the stream, whether the API saw it or not. */
    predicate Appends() { redis && enqueue.Took() }
  }

  datatype Answer = OnStream | Locally | Unavailable

  class Server {
    var s: State                     // the shared Redis state and the processes
    ghost var trace: seq<Event>      // how it came about

    ghost predicate Valid()
      reads this
    {
      s == Exec(trace)
    }

    constructor ()
      ensures Valid() && s == INIT && trace == []
    {
      s, trace := INIT, [];
    }

    method Do(e: Event)
      requires Valid() && Enabled(s, e)
      modifies this
      ensures Valid() && s == Step(old(s), e) && old(trace) < trace
    {
      s := Step(s, e);
      trace := trace + [e];
    }

    /** A record is stored and, if it is final, remembered as such, exactly if the call took effect. */
    twostate predicate Saves(j: JobId, r: Record, c: Call)
      reads this
    {
      && s.store == (if c.Took() then old(s.store)[j := r] else old(s.store))
      && s.finals == (if c.Took() && r.status.Final() then old(s.finals) + {j} else old(s.finals))
    }

    method Append(j: JobId, c: Call, trim: set<MsgId>)
      requires Valid() && j in s.submits && s.submits[j] == Enqueueing
      requires if c.Took() then s.stream.MayTrim(trim) else trim == {}
      modifies this
      ensures Valid() && old(trace) < trace && s == Enqueued(old(s), j, c, trim)
    {
      Do(Api(j, Enqueue(c, trim)));
    }

    /** tryEnqueue: publishes to the stream when Redis is configured. */
    method TryEnqueue(j: JobId, io: Outcomes) returns (ok: bool)
      requires Valid() && j in s.submits && s.submits[j] == Enqueueing
      requires io.Appends() ==> s.stream.MayTrim(io.trim)
      modifies this
      ensures Valid() && old(trace) < trace && (ok <==> io.redis && io.enqueue.Ok?)
      ensures s.store == old(s.store) && s.finals == old(s.finals) && s.dlq == old(s.dlq) && s.tasks == old(s.tasks)
      ensures s.submits == old(s.submits)[j := if ok then Accepted(old(s.stream.lastId) + 1) else Fallback]
      ensures var id := old(s.stream.lastId) + 1;
        && s.stream.appended == (if io.Appends() then old(s.stream.appended)[id := Job(j)] else old(s.stream.appended))
        && (io.Appends() && id !in io.trim ==> id in s.stream.entries)
        && s.stream.pending == old(s.stream.pending) && s.stream.lastDelivered == old(s.stream.lastDelivered)
    {
      if !io.redis {
        Append(j, Lost, {});
        return false;
      }
      Append(j, io.enqueue, if io.enqueue.Took() then io.trim else {});
      return io.enqueue.Ok?;
    }

    /** runLocally: takes a slot of the local executor, or refuses. */
    method RunLocally(j: JobId, slotFree: bool) returns (ok: bool)
      requires Valid() && j in s.submits && s.submits[j] == Fallback
      modifies this
      ensures Valid() && old(trace) < trace && ok == slotFree
      ensures s == old(s).(submits := old(s.submits)[j := if ok then Local else Rejecting])
    {
      if slotFree {
        Do(Api(j, Protocol.RunLocally));
      } else {
        Do(Api(j, NoCapacity));
      }
      return slotFree;
    }

    method SaveQueuedRecord(j: JobId, c: Call)
      requires Valid() && j !in s.submits
      modifies this
      ensures Valid() && old(trace) < trace && Saves(j, Record(Queued, false), c)
      ensures s.stream == old(s.stream) && s.dlq == old(s.dlq) && s.tasks == old(s.tasks)
      ensures s.submits == old(s.submits)[j := Enqueueing]
    {
      Do(Api(j, Begin));
      Do(Api(j, SaveQueued(c)));
    }

    method Refuse(j: JobId, c: Call)
      requires Valid() && j in s.submits && s.submits[j] == Rejecting
      modifies this
      ensures Valid() && old(trace) < trace && Saves(j, Record(JobStatus.Failed, false), c)
      ensures s.stream == old(s.stream) && s.dlq == old(s.dlq) && s.tasks == old(s.tasks)
      ensures s.submits == old(s.submits)[j := Closed]
    {
      Do(Api(j, SaveRejected(c)));
    }

    /** The queued record and the stream. */
    method Publish(j: JobId, io: Outcomes) returns (ok: bool)
      requires Valid() && j !in s.submits && s.stream.MayTrim(io.trim)
      modifies this
      ensures Valid() && old(trace) < trace && (ok <==> io.redis && io.enqueue.Ok?)
      ensures Saves(j, Record(Queued, false), io.queued) && s.dlq == old(s.dlq) && s.tasks == old(s.tasks)
      ensures s.submits == old(s.submits)[j := if ok then Accepted(old(s.stream.lastId) + 1) else Fallback]
      ensures var id := old(s.stream.lastId) + 1;
        && s.stream.appended == (if io.Appends() then old(s.stream.appended)[id := Job(j)] else old(s.stream.appended))
        && (io.Appends() && id !in io.trim ==> id in s.stream.entries)
        && s.stream.pending == old(s.stream.pending) && s.stream.lastDelivered == old(s.stream.lastDelivered)
    {
      ghost var submits, id := s.submits, s.stream.lastId + 1;
      SaveQueuedRecord(j, io.queued);
      ok := TryEnqueue(j, io);
      PutTwice(submits, j, Enqueueing, if ok then Accepted(id) else Fallback);
    }

    /** What follows when the job could not be published. */
    method RunOrRefuse(j: JobId, io: Outcomes) returns (answer: Answer)
      requires Valid() && j in s.submits && s.submits[j] == Fallback
      modifies this
      ensures Valid() && old(trace) < trace && answer == if io.slotFree then Locally else Unavailable
      ensures s.stream == old(s.stream) && s.dlq == old(s.dlq) && s.tasks == old(s.tasks)
      ensures s.submits == old(s.submits)[j := if answer == Locally then Local else Closed]
      ensures answer == Locally ==> s.store == old(s.store) && s.finals == old(s.finals)
      ensures answer == Unavailable ==> Saves(j, Record(JobStatus.Failed, false), io.rejected)
    {
      ghost var submits := s.submits;
      var running := RunLocally(j, io.slotFree);
      if running {
        return Locally;
      }
      Refuse(j, io.rejected);
      PutTwice(submits, j, Rejecting, Closed);
      return Unavailable;
    }

    /** handleSubmitJob for a job within its budget: on the stream, or run in the API process, or refused
        and recorded as failed. A job whose append was not seen to succeed is on the stream as well. */
    method SubmitJob(j: JobId, io: Outcomes) returns (answer: Answer)
      requires Valid() && j !in s.submits && s.stream.MayTrim(io.trim)
      modifies this
      ensures Valid() && old(trace) < trace && s.dlq == old(s.dlq) && s.tasks == old(s.tasks)
      ensures answer == if io.redis && io.enqueue.Ok? then OnStream else if io.slotFree then Locally else Unavailable
      ensures s.submits == old(s.submits)[j :=
        match answer
        case OnStream => Accepted(old(s.stream.lastId) + 1)
        case Locally => Local
        case Unavailable => Closed]
      ensures s.stream.appended ==
        if io.Appends() then old(s.stream.appended)[old(s.stream.lastId) + 1 := Job(j)] else old(s.stream.appended)
      ensures s.stream.pending == old(s.stream.pending) && s.stream.lastDelivered == old(s.stream.lastDelivered)
      ensures var queued := if io.queued.Took() then old(s.store)[j := Record(Queued, false)] else old(s.store);
        if answer == Unavailable && io.rejected.Took() then
          s.store == queued[j := Record(JobStatus.Failed, false)] && s.finals == old(s.finals) + {j}
        else
          s.store == queued && s.finals == old(s.finals)
    {
      ghost var submits := s.submits;
      var enqueued := Publish(j, io);
      if enqueued {
        return OnStream;
      }
      answer := RunOrRefuse(j, io);
      PutTwice(submits, j, Fallback, if answer == Locally then Local else Closed);
    }

    /** The goroutine of a local run, when its evaluation has ended. */
    method FinishLocalRun(j: JobId, status: JobStatus, save: Call)
      requires Valid() && j in s.submits && s.submits[j] == Local && status.Final()
      modifies this
      ensures Valid() && old(trace) < trace
      ensures s.stream == old(s.stream) && s.dlq == old(s.dlq) && s.tasks == old(s.tasks)
      ensures Saves(j, Record(status, false), save) && s.submits == old(s.submits)[j := Closed]
    {
      Do(Api(j, SaveLocal(status, save)));
    }
  }
}
