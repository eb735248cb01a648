/** The queued event emitter with a polling sender: `signal` validates and
    queues an event envelope; a worker thread sends the queue in order, one
    polling round trip per envelope, for as long as its run flag is set. */
module BaseSignaler {
  import opened Values
  import opened Envelopes
  import opened Transport

  /** POLL_TRIES. */
  const PollTries: nat := 3

  /** The peer named in the time-out log entry (the message says "backend"). */
  const Peer: string := "backend"

  class Signaler {
    /** `_signal_queue`, front first. */
    var queue: seq<EventEnvelope>
    /** What went over the socket and to the log. */
    var trace: seq<Effect<EventEnvelope>>
    /** `_do_work`, the event that keeps the worker looping. */
    var doWork: bool
    /** `_worker_signaler`. */
    var thread: ThreadState

    constructor ()
      ensures queue == [] && trace == [] && !doWork && thread == NotStarted
    {
      queue, trace, doWork, thread := [], [], false, NotStarted;
    }

    /** `signal`: an unregistered name raises "Unknown signal" and an
        envelope the encoder refuses is logged and re-raised, neither queuing
        anything; otherwise exactly one `{signal, data}` envelope is queued,
        whatever the run flag. */
    method Signal(name: string, data: Value := Null) returns (r: Result<(), Error>)
      modifies this
      ensures doWork == old(doWork) && thread == old(thread)
      ensures BuildSignal(name, data).Ok? ==>
                r == Ok(()) && queue == old(queue) + [EventEnvelope(name, data)] && trace == old(trace)
      ensures BuildSignal(name, data).Err? ==>
                r == Err(BuildSignal(name, data).error) && queue == old(queue)
                && trace == old(trace) + (if r.error == NotSerializable then [Logged(SerializationFailed)] else [])
    {
      var built := BuildSignal(name, data);
      if built.Err? {
        if built.error == NotSerializable {
          trace := trace + [Logged(SerializationFailed)];
        }
        return Err(built.error);
      }
      queue := queue + [built.value];
      r := Ok(());
    }

    /** `start`: sets the run flag, then starts the worker thread, which
        raises when the thread was started before. */
    method Start() returns (r: Result<(), Error>)
      modifies this
      ensures doWork && queue == old(queue) && trace == old(trace)
      ensures old(thread) == NotStarted ==> r == Ok(()) && thread == Running
      ensures old(thread) != NotStarted ==> r == Err(ThreadAlreadyStarted) && thread == old(thread)
    {
      doWork := true;
      if thread != NotStarted {
        return Err(ThreadAlreadyStarted);
      }
      thread := Running;
      r := Ok(());
    }

    /** `stop`: clears the run flag; the worker finishes at its next check. */
    method Stop()
      modifies this
      ensures !doWork && queue == old(queue) && trace == old(trace) && thread == old(thread)
    {
      doWork := false;
    }

    /** `_send_request`: one send followed by the bounded poll loop. */
    method SendRequest(request: EventEnvelope, poll: nat -> Option<string>)
      modifies this
      ensures queue == old(queue) && doWork == old(doWork) && thread == old(thread)
      ensures trace == old(trace) + RoundTrip(request, poll, PollTries, Peer)
    {
      trace := trace + [Send(request)];
      var reply, _, effects := PollForReply<EventEnvelope>(poll, PollTries);
      trace := trace + effects;
      if reply.None? {
        trace := trace + [Logged(TimeoutContacting(Peer))];
      }
    }

    /** One pass of `_worker`'s loop: the flag is checked first, and a
        cleared flag ends the thread before anything is taken. */
    method WorkerStep(poll: nat -> Option<string>)
      modifies this
      ensures doWork == old(doWork)
      ensures old(thread) != Running || (old(doWork) && old(queue) == []) ==>
                queue == old(queue) && trace == old(trace) && thread == old(thread)
      ensures old(thread) == Running && !old(doWork) ==>
                thread == Finished && queue == old(queue) && trace == old(trace)
      ensures old(thread) == Running && old(doWork) && old(queue) != [] ==>
                thread == Running && queue == old(queue)[1..]
                && trace == old(trace) + RoundTrip(old(queue)[0], poll, PollTries, Peer)
    {
      if thread != Running {
        return;
      }
      if !doWork {
        thread := Finished;
        return;
      }
      if queue != [] {
        var request := queue[0];
        queue := queue[1..];
        SendRequest(request, poll);
      }
    }

    /** Runs the worker until it has emptied the queue or finished: with the
        flag set every queued envelope is sent in queue order, the k-th round
        trip seeing the poll outcomes `net(k)`; with the flag cleared the
        thread finishes and sends nothing. */
    method Drain(net: nat -> nat -> Option<string>)
      modifies this
      ensures doWork == old(doWork)
      ensures old(thread) != Running ==> queue == old(queue) && trace == old(trace) && thread == old(thread)
      ensures old(thread) == Running && !old(doWork) ==>
                thread == Finished && queue == old(queue) && trace == old(trace)
      ensures old(thread) == Running && old(doWork) ==>
                thread == Running && queue == []
                && trace == old(trace) + RoundTrips(old(queue), net, PollTries, Peer, 0)
    {
      if thread != Running {
        return;
      }
      ghost var sent: seq<EventEnvelope> := [];
      var k := 0;
      while thread == Running && (!doWork || queue != [])
        invariant doWork == old(doWork) && k == |sent|
        invariant !doWork ==> sent == []
        invariant thread == Running || (thread == Finished && !doWork)
        invariant old(queue) == sent + queue
        invariant trace == old(trace) + RoundTrips(sent, net, PollTries, Peer, 0)
        decreases |queue| + (if thread == Running then 1 else 0)
      {
        var head := if queue == [] then EventEnvelope("", Null) else queue[0];
        var sending := doWork;
        ghost var before, q := trace, queue;
        WorkerStep(net(k));
        if sending {
          RoundTripsExtend(old(trace), before, trace, old(queue), sent, q, net, PollTries, Peer);
          sent := sent + [head];
          k := k + 1;
        }
      }
      assert thread == Running ==> sent + queue == sent;
    }
  }

  /** `signal` called once per envelope of `evs`, in order, each with a
      registered name and encodable data: the queue grows by exactly `evs`. */
  method SignalAll(s: Signaler, evs: seq<EventEnvelope>)
    requires forall e :: e in evs ==> BuildSignal(e.signal, e.data).Ok?
    modifies s
    ensures s.queue == old(s.queue) + evs
    ensures s.trace == old(s.trace) && s.doWork == old(s.doWork) && s.thread == old(s.thread)
  {
    var i := 0;
    while i < |evs|
      invariant 0 <= i <= |evs|
      invariant s.queue == old(s.queue) + evs[..i]
      invariant s.trace == old(s.trace) && s.doWork == old(s.doWork) && s.thread == old(s.thread)
    {
      assert evs[i] in evs;
      var _ := s.Signal(evs[i].signal, evs[i].data);
      assert evs[..i + 1] == evs[..i] + [evs[i]];
      i := i + 1;
    }
    assert evs[..i] == evs;
  }

  /** Envelopes signalled before `start` are all sent once the worker runs,
      once each and in signalling order, and the queue is left empty. */
  method SignalledBeforeStart(evs: seq<EventEnvelope>, net: nat -> nat -> Option<string>)
    returns (sent: seq<EventEnvelope>, left: seq<EventEnvelope>)
    requires forall e :: e in evs ==> BuildSignal(e.signal, e.data).Ok?
    ensures sent == evs && left == []
  {
    var s := new Signaler();
    SignalAll(s, evs);
    assert s.queue == [] + evs == evs;
    var _ := s.Start();
    assert s.thread == Running && s.doWork && s.trace == [] && s.queue == evs;
    s.Drain(net);
    assert s.trace == [] + RoundTrips(evs, net, PollTries, Peer, 0);
    assert s.trace == RoundTrips(evs, net, PollTries, Peer, 0);
    RoundTripsSendInOrder(evs, net, PollTries, Peer, 0);
    sent, left := SentMessages(s.trace), s.queue;
  }

  /** Once `stop` has cleared the flag, the worker finishes without sending
      anything that is still queued, and the queue is left as it was. */
  method StoppedWorkerSendsNothing(evs: seq<EventEnvelope>, net: nat -> nat -> Option<string>)
    returns (sent: seq<EventEnvelope>, finished: bool, left: seq<EventEnvelope>)
    requires forall e :: e in evs ==> BuildSignal(e.signal, e.data).Ok?
    ensures sent == [] && finished && left == evs
  {
    var s := new Signaler();
    var _ := s.Start();
    SignalAll(s, evs);
    assert s.queue == [] + evs == evs;
    s.Stop();
    s.Drain(net);
    sent, finished, left := SentMessages(s.trace), s.thread == Finished, s.queue;
  }
}
