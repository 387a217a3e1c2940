/** The body of one worker goroutine, statement by statement, run without interruption: it takes
    only steps of the protocol, and what it leaves behind is stated for every outcome of its calls. */
module Worker {
  import opened Records
  import opened RedisStream
  import opened Protocol
  import opened ProtocolInvariants

  /** How the goroutine's calls end; `panics` stands for a panic inside the evaluation, `deadline` for
      the drain deadline passing during it. */
  datatype Outcomes = Outcomes(mark: Call, panics: bool, deadline: bool, status: JobStatus, save: Call, dlq: Call,
                               ack: Call, del: Call)

  class WorkerEngine {
    var s: State                     // the shared Redis state and the processes
    ghost var trace: seq<Event>      // how it came about

    ghost predicate Valid()
      reads this
    {
      s == Exec(trace)
    }

    predicate AtPhase(l: Lease, ph: Phase)
      reads this
    {
      l in s.tasks && s.tasks[l].node in s.nodes && s.tasks[l].phase == ph
    }

    constructor ()
      ensures Valid() && s == INIT && trace == []
    {
      s, trace := INIT, [];
    }

    method Do(e: Event)
      requires Valid() && Enabled(s, e)
      modifies this
      ensures Valid() && s == Step(old(s), e) && old(trace) < trace
    {
      s := Step(s, e);
      trace := trace + [e];
    }

    method DeleteEntry(l: Lease, del: Call)
      requires Valid() && AtPhase(l, Delete)
      modifies this
      ensures Valid() && old(trace) < trace && l !in s.tasks && s.stream.appended == old(s.stream.appended)
      ensures s.store == old(s.store) && s.dlq == old(s.dlq) && s.finals == old(s.finals)
      ensures s.stream.pending == old(s.stream.pending)
      ensures s.stream.entries == if del.Took() then old(s.stream.entries) - {l.msg} else old(s.stream.entries)
    {
      Do(OfTask(l, DeleteMessage(del)));
    }

    method AckAndDelete(l: Lease, ack: Call, del: Call)
      requires Valid() && AtPhase(l, Ack)
      modifies this
      ensures Valid() && old(trace) < trace && l !in s.tasks && s.stream.appended == old(s.stream.appended)
      ensures s.store == old(s.store) && s.dlq == old(s.dlq) && s.finals == old(s.finals)
      ensures s.stream.pending == if ack.Took() then old(s.stream.pending) - {l.msg} else old(s.stream.pending)
      ensures s.stream.entries ==
        if ack.Ok? && del.Took() then old(s.stream.entries) - {l.msg} else old(s.stream.entries)
    {
      Do(OfTask(l, AckJob(ack)));
      if !ack.Ok? {
        return;
      }
      DeleteEntry(l, del);
    }

    method DeadLetterMessage(l: Lease, io: Outcomes)
      requires Valid() && AtPhase(l, DeadLetter)
      modifies this
      ensures Valid() && old(trace) < trace && l !in s.tasks && s.stream.appended == old(s.stream.appended)
      ensures s.store == old(s.store) && s.finals == old(s.finals)
      ensures s.dlq == if io.dlq.Took() then old(s.dlq) + {l.msg} else old(s.dlq)
      ensures s.stream.pending ==
        if io.dlq.Ok? && io.ack.Took() then old(s.stream.pending) - {l.msg} else old(s.stream.pending)
    {
      Do(OfTask(l, SendToDLQ(io.dlq)));
      if !io.dlq.Ok? {
        return;
      }
      AckAndDelete(l, io.ack, io.del);
    }

    /** The steps after a Run that returned; `saw` says whether one of its calls saw cancellation. */
    method SaveAndAck(l: Lease, io: Outcomes, saw: bool)
      requires Valid() && AtPhase(l, Check(Record(io.status, saw))) && s.PayloadOf(l).Job? && io.status.Final()
      requires saw ==> s.nodes[s.tasks[l].node].jobCancelled
      modifies this
      ensures Valid() && old(trace) < trace && l !in s.tasks && s.stream.appended == old(s.stream.appended)
      ensures s.dlq == old(s.dlq)
      ensures var j := old(s.PayloadOf(l).id);
        if old(s.nodes[s.tasks[l].node].jobCancelled) then
          s.store == old(s.store) && s.finals == old(s.finals) && s.stream == old(s.stream)
        else
          && s.store == (if io.save.Took() then old(s.store)[j := Record(io.status, false)] else old(s.store))
          && s.finals == (if io.save.Took() then old(s.finals) + {j} else old(s.finals))
          && s.stream.pending ==
            (if io.save.Ok? && io.ack.Took() then old(s.stream.pending) - {l.msg} else old(s.stream.pending))
    {
      Do(OfTask(l, CheckCancel));
      if l !in s.tasks {
        return;
      }
      Do(OfTask(l, SaveResult(io.save)));
      if !io.save.Ok? {
        return;
      }
      AckAndDelete(l, io.ack, io.del);
    }

    /** Run: it returns, possibly after the drain deadline cancelled it. */
    method Evaluate(l: Lease, io: Outcomes) returns (saw: bool)
      requires Valid() && AtPhase(l, Evaluating(false)) && io.status.Final()
      modifies this
      ensures Valid() && old(trace) < trace && AtPhase(l, Check(Record(io.status, saw)))
      ensures s.stream == old(s.stream) && s.store == old(s.store) && s.finals == old(s.finals) && s.dlq == old(s.dlq)
      ensures s.tasks[l].node == old(s.tasks[l].node)
      ensures var n := old(s.tasks[l].node);
        s.nodes[n].jobCancelled <==> old(s.nodes[n].jobCancelled) || (io.deadline && old(s.nodes[n].main) == Draining)
      ensures saw ==> s.nodes[s.tasks[l].node].jobCancelled
    {
      var n := s.tasks[l].node;
      saw := false;
      if io.deadline && s.nodes[n].main == Draining {
        Do(Main(n, Deadline));
        Do(OfTask(l, SeeCancel));
        saw := true;
      }
      Do(OfTask(l, Return(io.status)));
    }

    /** What processing the message of lease l leaves of record, finals, dead letters and pending list,
        for every outcome: undecodable or panicking, it is dead-lettered and nothing is recorded beyond
        "running"; cancelled, it stays pending; otherwise the result is stored and acknowledged. */
    twostate predicate Processed(l: Lease, io: Outcomes)
      reads this
      requires old(l in s.tasks)
    {
      var p, n := old(s.PayloadOf(l)), old(s.tasks[l].node);
      if p.Malformed? then
        && s.store == old(s.store) && s.finals == old(s.finals) && DeadLettered(l, io)
      else
        var marked := if io.mark.Took() then old(s.store)[p.id := Record(Running, false)] else old(s.store);
        if io.panics then
          s.store == marked && s.finals == old(s.finals) && DeadLettered(l, io)
        else if old(n in s.nodes && s.nodes[n].jobCancelled) ||
                (io.deadline && old(n in s.nodes && s.nodes[n].main == Draining)) then
          s.store == marked && s.finals == old(s.finals) && s.dlq == old(s.dlq) && s.stream == old(s.stream)
        else
          && s.store == (if io.save.Took() then old(s.store)[p.id := Record(io.status, false)] else marked)
          && s.finals == (if io.save.Took() then old(s.finals) + {p.id} else old(s.finals))
          && s.dlq == old(s.dlq)
          && s.stream.pending ==
            (if io.save.Ok? && io.ack.Took() then old(s.stream.pending) - {l.msg} else old(s.stream.pending))
    }

    /** The message went to the dead-letter stream if that call took effect, and off the pending list if
        it was seen to and the acknowledgement took effect. */
    twostate predicate DeadLettered(l: Lease, io: Outcomes)
      reads this
    {
      && s.dlq == (if io.dlq.Took() then old(s.dlq) + {l.msg} else old(s.dlq))
      && s.stream.pending ==
        (if io.dlq.Ok? && io.ack.Took() then old(s.stream.pending) - {l.msg} else old(s.stream.pending))
    }

    /** processMessage on a decodable job. */
    method ProcessJob(l: Lease, io: Outcomes)
      requires Valid() && AtPhase(l, Mark) && s.PayloadOf(l).Job? && io.status.Final()
      modifies this
      ensures Valid() && old(trace) < trace && l !in s.tasks && s.stream.appended == old(s.stream.appended)
      ensures Processed(l, io)
    {
      Do(OfTask(l, MarkRunning(io.mark)));
      if io.panics {
        Do(OfTask(l, Panic));
        DeadLetterMessage(l, io);
      } else {
        var saw := Evaluate(l, io);
        SaveAndAck(l, io, saw);
      }
    }

    /** The goroutine on any message. It leaves the pending list only after its record is saved or it is
        dead-lettered. */
    method ProcessMessage(l: Lease, io: Outcomes)
      requires Valid() && AtPhase(l, Decode) && io.status.Final()
      modifies this
      ensures Valid() && old(trace) < trace && l !in s.tasks
      ensures Processed(l, io)
      ensures l.msg in old(s.stream.pending) && l.msg !in s.stream.pending ==> Settled(s, l.msg)
    {
      var j := s.PayloadOf(l);
      Do(OfTask(l, DecodePayload));
      if j.Malformed? {
        DeadLetterMessage(l, io);
      } else {
        ProcessJob(l, io);
      }
    }
  }
}
