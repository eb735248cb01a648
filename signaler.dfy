/** The earlier queued event emitter: the same `signal` and worker loop as
    the polling one, with a plain boolean run flag and a sender that makes
    exactly one receive, bounded by the socket's time-out, per envelope. */
module Signaler {
  import opened Values
  import opened Envelopes
  import opened Transport

  /** The peer named in the time-out log entry. */
  const Peer: string := "signaler"

  class Signaler {
    /** `_signal_queue`, front first. */
    var queue: seq<EventEnvelope>
    /** What went over the socket and to the log. */
    var trace: seq<Effect<EventEnvelope>>
    /** `_do_work`, the flag that keeps the worker looping. */
    var doWork: bool
    /** `_worker_signaler`. */
    var thread: ThreadState

    constructor ()
      ensures queue == [] && trace == [] && !doWork && thread == NotStarted
    {
      queue, trace, doWork, thread := [], [], false, NotStarted;
    }

    /** `signal`: an unregistered name raises "Unknown signal" and an
        envelope the encoder refuses is logged and re-raised, neither queuing
        anything; otherwise exactly one `{signal, data}` envelope is queued,
        whatever the run flag. */
    method Signal(name: string, data: Value := Null) returns (r: Result<(), Error>)
      modifies this
      ensures doWork == old(doWork) && thread == old(thread)
      ensures BuildSignal(name, data).Ok? ==>
                r == Ok(()) && queue == old(queue) + [EventEnvelope(name, data)] && trace == old(trace)
      ensures BuildSignal(name, data).Err? ==>
                r == Err(BuildSignal(name, data).error) && queue == old(queue)
                && trace == old(trace) + (if r.error == NotSerializable then [Logged(SerializationFailed)] else [])
    {
      var built := BuildSignal(name, data);
      if built.Err? {
        if built.error == NotSerializable {
          trace := trace + [Logged(SerializationFailed)];
        }
        return Err(built.error);
      }
      queue := queue + [built.value];
      r := Ok(());
    }

    /** `start`: sets the run flag, then starts the worker thread, which
        raises when the thread was started before. */
    method Start() returns (r: Result<(), Error>)
      modifies this
      ensures doWork && queue == old(queue) && trace == old(trace)
      ensures old(thread) == NotStarted ==> r == Ok(()) && thread == Running
      ensures old(thread) != NotStarted ==> r == Err(ThreadAlreadyStarted) && thread == old(thread)
    {
      doWork := true;
      if thread != NotStarted {
        return Err(ThreadAlreadyStarted);
      }
      thread := Running;
      r := Ok(());
    }

    /** `stop`: clears the run flag; the worker finishes at its next check. */
    method Stop()
      modifies this
      ensures !doWork && queue == old(queue) && trace == old(trace) && thread == old(thread)
    {
      doWork := false;
    }

    /** `_send_request`: one send, then one receive, whose time-out
        (`reply == None`) is logged and not raised. */
    method SendRequest(request: EventEnvelope, reply: Option<string>)
      modifies this
      ensures queue == old(queue) && doWork == old(doWork) && thread == old(thread)
      ensures trace == old(trace) + SingleRoundTrip(request, reply, Peer)
    {
      trace := trace + [Send(request)];
      match reply {
        case Some(response) =>
          trace := trace + [Recv(response)];
        case None =>
          trace := trace + [RecvTimeout, Logged(TimeoutContacting(Peer))];
      }
    }

    /** One pass of `_worker`'s loop: the flag is checked first, and a
        cleared flag ends the thread before anything is taken. */
    method WorkerStep(reply: Option<string>)
      modifies this
      ensures doWork == old(doWork)
      ensures old(thread) != Running || (old(doWork) && old(queue) == []) ==>
                queue == old(queue) && trace == old(trace) && thread == old(thread)
      ensures old(thread) == Running && !old(doWork) ==>
                thread == Finished && queue == old(queue) && trace == old(trace)
      ensures old(thread) == Running && old(doWork) && old(queue) != [] ==>
                thread == Running && queue == old(queue)[1..]
                && trace == old(trace) + SingleRoundTrip(old(queue)[0], reply, Peer)
    {
      if thread != Running {
        return;
      }
      if !doWork {
        thread := Finished;
        return;
      }
      if queue != [] {
        var request := queue[0];
        queue := queue[1..];
        SendRequest(request, reply);
      }
    }

    /** Runs the worker until it has emptied the queue or finished: with the
        flag set every queued envelope is sent in queue order, the k-th
        receive getting `replies(k)`; with the flag cleared the
        thread finishes and sends nothing. */
    method Drain(replies: nat -> Option<string>)
      modifies this
      ensures doWork == old(doWork)
      ensures old(thread) != Running ==> queue == old(queue) && trace == old(trace) && thread == old(thread)
      ensures old(thread) == Running && !old(doWork) ==>
                thread == Finished && queue == old(queue) && trace == old(trace)
      ensures old(thread) == Running && old(doWork) ==>
                thread == Running && queue == []
                && trace == old(trace) + SingleRoundTrips(old(queue), replies, Peer, 0)
    {
      if thread != Running {
        return;
      }
      ghost var sent: seq<EventEnvelope> := [];
      var k := 0;
      while thread == Running && (!doWork || queue != [])
        invariant doWork == old(doWork) && k == |sent|
        invariant !doWork ==> sent == []
        invariant thread == Running || (thread == Finished && !doWork)
        invariant old(queue) == sent + queue
        invariant trace == old(trace) + SingleRoundTrips(sent, replies, Peer, 0)
        decreases |queue| + (if thread == Running then 1 else 0)
      {
        var head := if queue == [] then EventEnvelope("", Null) else queue[0];
        var sending := doWork;
        ghost var before, q := trace, queue;
        WorkerStep(replies(k));
        if sending {
          SingleRoundTripsExtend(old(trace), before, trace, old(queue), sent, q, replies, Peer);
          sent := sent + [head];
          k := k + 1;
        }
      }
      assert thread == Running ==> sent + queue == sent;
    }
  }
}
