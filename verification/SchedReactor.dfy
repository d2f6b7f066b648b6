/**
 * One stream's send queue and the claim on its single outstanding write
 * (src/daemon/sched-reactor.hh). Each method is one critical section or one call
 * into the stream; any interleaving of them is a run.
 */
module SchedReactor {
  type Msg = string

  const LIMIT: int := 65536
  const MAX_BATCH: int := 1024

  /** Who holds the claim `writing`: nobody; somebody about to fill a batch; somebody about to
      start the write of one; the stream. */
  datatype Writer = Idle | Kicked | Filled(batch: seq<Msg>) | InFlight(batch: seq<Msg>)

  /** What the stream sees. */
  datatype Action = Write(batch: seq<Msg>) | WriteDone(ok: bool) | Finish

  /** A write is outstanding. */
  ghost predicate Open(trace: seq<Action>) {
    trace != [] && trace[|trace| - 1].Write?
  }

  /** Writes one at a time, of 1 to MAX_BATCH messages; Finish once, at the end, with no write outstanding. */
  ghost predicate TraceOk(trace: seq<Action>) {
    trace == [] ||
    (var front := trace[..|trace| - 1];
     && TraceOk(front) && (front != [] ==> !front[|front| - 1].Finish?)
     && match trace[|trace| - 1]
        case Write(batch) => !Open(front) && 0 < |batch| <= MAX_BATCH
        case WriteDone(_) => Open(front)
        case Finish => !Open(front))
  }

  /** All messages written, in order. */
  ghost function Written(trace: seq<Action>): seq<Msg> {
    if trace == [] then []
    else
      var last := trace[|trace| - 1];
      Written(trace[..|trace| - 1]) + (if last.Write? then last.batch else [])
  }

  lemma TraceMore(trace: seq<Action>, act: Action)
    requires TraceOk(trace) && (trace != [] ==> !trace[|trace| - 1].Finish?)
    requires act.Write? ==> !Open(trace) && 0 < |act.batch| <= MAX_BATCH
    requires act.WriteDone? ==> Open(trace)
    requires act.Finish? ==> !Open(trace)
    ensures TraceOk(trace + [act]) && Open(trace + [act]) == act.Write?
    ensures Written(trace + [act]) == Written(trace) + (if act.Write? then act.batch else [])
  {
  }

  class Reactor {
    var queue: seq<Msg>
    var writing: bool
    var closed: bool
    var readsDone: bool
    var finished: bool
    var writer: Writer
    var checks: nat                 // calls of MaybeDone to come
    var finishing: bool             // the call of Finish is to come
    ghost var accepted: seq<Msg>
    ghost var trace: seq<Action>

    ghost predicate Valid()
      reads this
    {
      && writing == !writer.Idle? && |queue| <= LIMIT
      && TraceOk(trace) && Open(trace) == writer.InFlight?
      && (writer.Filled? ==> 0 < |writer.batch| <= MAX_BATCH)
      // nothing is lost, doubled or reordered
      && accepted == Written(trace) + (if writer.Filled? then writer.batch else []) + queue
      // somebody writes, unless there is nothing to write
      && (queue != [] && !closed ==> writing)
      && (readsDone ==> closed)
      && (finished ==> readsDone && !writing)
      && (finished == (finishing || Ended()))
      && (finishing ==> !Ended())
      && (readsDone && !writing && !finished ==> checks > 0)
    }

    /** Finish was called. */
    ghost predicate Ended()
      reads this
    {
      trace != [] && trace[|trace| - 1].Finish?
    }

    constructor ()
      ensures Valid() && accepted == [] && trace == [] && !closed && !readsDone
    {
      queue, writing, closed, readsDone, finished := [], false, false, false, false;
      writer, checks, finishing, accepted, trace := Idle, 0, false, [], [];
    }

    /** Queues the message, or closes for good. */
    method Send(msg: Msg) returns (ok: bool)
      requires Valid()
      modifies this
      ensures Valid() && trace == old(trace) && readsDone == old(readsDone)
      ensures ok <==> !old(closed) && |old(queue)| < LIMIT
      ensures ok ==> accepted == old(accepted) + [msg] && closed == old(closed)
      ensures !ok ==> accepted == old(accepted) && closed
    {
      if closed || |queue| >= LIMIT {
        closed := true;
        return false;
      }
      queue, accepted := queue + [msg], accepted + [msg];
      if !writing {
        writing, writer := true, Kicked;
      }
      return true;
    }

    /** Moves up to MAX_BATCH messages from the queue to a batch. */
    method Fill() returns (batch: seq<Msg>)
      modifies this`queue
      ensures batch + queue == old(queue) && |batch| <= MAX_BATCH
      ensures batch == [] <==> old(queue) == []
    {
      batch := [];
      while queue != [] && |batch| < MAX_BATCH
        invariant batch + queue == old(queue) && |batch| <= MAX_BATCH
        invariant batch == [] ==> queue == old(queue)
        decreases |queue|
      {
        batch := batch + [queue[0]];
        queue := queue[1..];
      }
    }

    /** The holder of the claim takes the next batch, or gives the claim up. */
    method WriteNext()
      requires Valid() && writer.Kicked?
      modifies this
      ensures Valid() && trace == old(trace) && accepted == old(accepted)
      ensures !old(closed) && old(queue) != [] <==> writer.Filled?
    {
      var batch := [];
      if !closed {
        batch := Fill();
      }
      if batch != [] {
        writer := Filled(batch);
      } else {
        writing, writer, checks := false, Idle, checks + 1;
      }
    }

    method StartWrite()
      requires Valid() && writer.Filled?
      modifies this`writer, this`trace
      ensures Valid() && trace == old(trace) + [Write(old(writer).batch)]
    {
      TraceMore(trace, Write(writer.batch));
      trace := trace + [Write(writer.batch)];
      writer := InFlight(writer.batch);
    }

    method OnWriteDone(ok: bool)
      requires Valid() && writer.InFlight?
      modifies this
      ensures Valid() && trace == old(trace) + [WriteDone(ok)] && accepted == old(accepted)
      ensures ok ==> writer.Kicked? && closed == old(closed)
      ensures !ok ==> closed && !writing
    {
      TraceMore(trace, WriteDone(ok));
      trace := trace + [WriteDone(ok)];
      if ok {
        writer := Kicked;
      } else {
        closed, writing, writer, checks := true, false, Idle, checks + 1;
      }
    }

    method OnCancel()
      requires Valid()
      modifies this`closed
      ensures Valid() && closed
    {
      closed := true;
    }

    /** Reads ended. */
    method End()
      requires Valid() && !readsDone
      modifies this
      ensures Valid() && closed && readsDone && trace == old(trace) && accepted == old(accepted) && queue == old(queue)
    {
      closed, readsDone, checks := true, true, checks + 1;
    }

    method MaybeDone()
      requires Valid() && checks > 0
      modifies this
      ensures Valid() && trace == old(trace) && accepted == old(accepted)
      ensures finished == (old(finished) || (readsDone && !writing))
    {
      checks := checks - 1;
      var fin := readsDone && !writing && !finished;
      if fin {
        finished, finishing := true, true;
      }
    }

    method CallFinish()
      requires Valid() && finishing
      modifies this`finishing, this`trace
      ensures Valid() && trace == old(trace) + [Finish]
    {
      TraceMore(trace, Finish);
      trace := trace + [Finish];
      finishing := false;
    }

    /** What is written is an in-order prefix of what was accepted. */
    lemma WrittenIsPrefix()
      requires Valid()
      ensures Written(trace) <= accepted
    {
    }

    /** Once every callback has run, Finish was called iff reads ended and nobody writes. */
    lemma FinishedExactly()
      requires Valid() && checks == 0 && !finishing
      ensures Ended() <==> readsDone && !writing
    {
    }

    /** Any interleaving; what cannot happen in a state is skipped. */
    method Run(events: seq<Event>)
      requires Valid()
      modifies this
      ensures Valid()
    {
      for i := 0 to |events|
        invariant Valid()
      {
        Step(events[i]);
      }
    }

    method Step(event: Event)
      requires Valid()
      modifies this
      ensures Valid()
    {
      hide TraceOk, Open, Written;
      match event {
        case Sent(msg) => var _ := Send(msg);
        case Deferred => if writer.Kicked? { WriteNext(); }
        case Begun => if writer.Filled? { StartWrite(); }
        case Completed(ok) => if writer.InFlight? { OnWriteDone(ok); }
        case Cancelled => OnCancel();
        case ReadsEnded => if !readsDone { End(); }
        case Checked => if checks > 0 { MaybeDone(); }
        case Closing => if finishing { CallFinish(); }
      }
    }
  }

  datatype Event = Sent(msg: Msg) | Deferred | Begun | Completed(ok: bool) | Cancelled | ReadsEnded | Checked | Closing

  /** Finish is the last action, and so the only Finish. */
  lemma {:induction false} FinishIsLast(trace: seq<Action>, i: int)
    requires TraceOk(trace) && 0 <= i < |trace| && trace[i].Finish?
    ensures i == |trace| - 1
  {
    if i < |trace| - 1 {
      var front := trace[..|trace| - 1];
      FinishIsLast(front, i);
    }
  }

  /** Between two writes the first one completes. */
  lemma {:induction false} OneWriteAtATime(trace: seq<Action>, i: int)
    requires TraceOk(trace) && 0 <= i < |trace| - 1 && trace[i].Write?
    ensures trace[i + 1].WriteDone?
  {
    var front := trace[..|trace| - 1];
    if i < |trace| - 2 {
      OneWriteAtATime(front, i);
    } else {
      assert Open(front);
    }
  }
}
