/** The queued call dispatcher: a call builds its envelope and queues it at
    once; a single worker takes the queue in order and makes one polling
    round trip per envelope, until it takes the stop sentinel. */
module BaseBackendProxy {
  import opened Values
  import opened Envelopes
  import opened Transport

  /** POLL_TRIES. */
  const PollTries: nat := 3

  /** The peer named in the time-out log entry. */
  const Peer: string := "backend"

  /** A queue entry: an encoded envelope, or the raw STOP_REQUEST sentinel,
      which no encoded envelope equals. */
  datatype QueueItem = Encoded(request: CallEnvelope) | Sentinel

  /** What one call puts on the queue: its envelope, followed by the
      sentinel when the call is the stop request. */
  function Enqueued(env: CallEnvelope, stopRequest: string): (items: seq<QueueItem>)
    ensures 1 <= |items| <= 2 && items[0] == Encoded(env)
    ensures |items| == 2 <==> env.apiMethod == Str(stopRequest)
    ensures |items| == 2 ==> items[1] == Sentinel
  {
    [Encoded(env)] + (if env.apiMethod == Str(stopRequest) then [Sentinel] else [])
  }

  predicate HasSentinel(q: seq<QueueItem>)
  {
    Sentinel in q
  }

  /** The envelopes queued ahead of the first sentinel, in queue order:
      exactly what the worker sends. */
  function PendingSends(q: seq<QueueItem>): seq<CallEnvelope>
  {
    if q == [] || q[0].Sentinel? then [] else [q[0].request] + PendingSends(q[1..])
  }

  /** What is left on the queue once the worker has taken the first sentinel
      (nothing, when there is none). */
  function AfterSentinel(q: seq<QueueItem>): seq<QueueItem>
  {
    if q == [] then [] else if q[0].Sentinel? then q[1..] else AfterSentinel(q[1..])
  }

  function EncodedAll(envs: seq<CallEnvelope>): (items: seq<QueueItem>)
    ensures |items| == |envs| && forall i :: 0 <= i < |envs| ==> items[i] == Encoded(envs[i])
  {
    if envs == [] then [] else [Encoded(envs[0])] + EncodedAll(envs[1..])
  }

  /** The queue is the envelopes that will be sent, then (if present) the
      first sentinel, then the items behind it, which are never sent. */
  lemma {:induction false} QueueSplitsAtSentinel(q: seq<QueueItem>)
    ensures HasSentinel(q) ==> q == EncodedAll(PendingSends(q)) + [Sentinel] + AfterSentinel(q)
    ensures !HasSentinel(q) ==> q == EncodedAll(PendingSends(q)) && AfterSentinel(q) == []
  {
    if q != [] && q[0].Encoded? {
      QueueSplitsAtSentinel(q[1..]);
      assert q == [q[0]] + q[1..];
    } else if q != [] {
      assert q == [Sentinel] + q[1..];
    }
  }

  /** Items queued behind a sentinel change nothing about what is sent. */
  lemma {:induction false} QueuedAfterStopNeverSent(q: seq<QueueItem>, later: seq<QueueItem>)
    requires HasSentinel(q)
    ensures PendingSends(q + later) == PendingSends(q)
    ensures HasSentinel(q + later)
  {
    assert (q + later)[0] == q[0];
    if q[0].Encoded? {
      assert (q + later)[1..] == q[1..] + later;
      QueuedAfterStopNeverSent(q[1..], later);
    }
  }

  /** Before any stop, the envelopes queued are exactly the ones still to be sent. */
  lemma {:induction false} PendingExtends(q: seq<QueueItem>, env: CallEnvelope)
    requires !HasSentinel(q)
    ensures PendingSends(q + [Encoded(env)]) == PendingSends(q) + [env]
    ensures !HasSentinel(q + [Encoded(env)])
  {
    if q != [] {
      assert (q + [Encoded(env)])[1..] == q[1..] + [Encoded(env)];
      PendingExtends(q[1..], env);
    } else {
      assert PendingSends([Encoded(env)]) == [env] + PendingSends([]);
    }
  }

  /** A stop call on a queue without a sentinel is the last envelope the
      worker will send, and the worker leaves the queue empty. */
  lemma {:induction false} StopCallIsLastSend(q: seq<QueueItem>, env: CallEnvelope, stopRequest: string)
    requires !HasSentinel(q) && env.apiMethod == Str(stopRequest)
    ensures PendingSends(q + Enqueued(env, stopRequest)) == PendingSends(q) + [env]
    ensures HasSentinel(q + Enqueued(env, stopRequest)) && AfterSentinel(q + Enqueued(env, stopRequest)) == []
  {
    var items := Enqueued(env, stopRequest);
    assert items == [Encoded(env), Sentinel];
    if q != [] {
      assert (q + items)[1..] == q[1..] + items;
      StopCallIsLastSend(q[1..], env, stopRequest);
    } else {
      assert q + items == items;
      assert items[1..] == [Sentinel];
      assert PendingSends(items) == [env] + PendingSends([Sentinel]);
    }
  }

  class BackendProxy {
    /** STOP_REQUEST: the name of the stop call, which also serves as the
        worker's sentinel. */
    const stopRequest: string
    /** `_call_queue`, front first. */
    var queue: seq<QueueItem>
    /** What went over the socket and to the log. */
    var trace: seq<Effect<CallEnvelope>>
    /** False once the worker has taken the sentinel and left its loop. */
    var workerAlive: bool

    constructor (stopRequest: string)
      ensures this.stopRequest == stopRequest
      ensures queue == [] && trace == [] && workerAlive
    {
      this.stopRequest := stopRequest;
      queue, trace, workerAlive := [], [], true;
    }

    /** `_api_call`: positional arguments and a missing method name raise
        before anything is built; an envelope the encoder refuses is logged
        and re-raised; otherwise the call is queued and returns at once. */
    method ApiCall(args: seq<Value>, kwargs: map<string, Value>) returns (r: Result<(), Error>)
      modifies this
      ensures workerAlive == old(workerAlive)
      ensures |args| > 0 ==> r == Err(PositionalArguments) && queue == old(queue) && trace == old(trace)
      ensures |args| == 0 && BuildRequest(kwargs).Ok? ==>
                r == Ok(()) && trace == old(trace)
                && queue == old(queue) + Enqueued(BuildRequest(kwargs).value, stopRequest)
      ensures |args| == 0 && BuildRequest(kwargs).Err? ==>
                r == Err(BuildRequest(kwargs).error) && queue == old(queue)
                && trace == old(trace) + (if r.error == NotSerializable then [Logged(SerializationFailed)] else [])
    {
      if |args| > 0 {
        return Err(PositionalArguments);
      }
      var built := BuildRequest(kwargs);
      if built.Err? {
        if built.error == NotSerializable {
          trace := trace + [Logged(SerializationFailed)];
        }
        return Err(built.error);
      }
      queue := queue + [Encoded(built.value)];
      if built.value.apiMethod == Str(stopRequest) {
        queue := queue + [Sentinel];
      }
      r := Ok(());
    }

    /** `_send_request`: one send followed by the bounded poll loop. */
    method SendRequest(request: CallEnvelope, poll: nat -> Option<string>)
      modifies this
      ensures queue == old(queue) && workerAlive == old(workerAlive)
      ensures trace == old(trace) + RoundTrip(request, poll, PollTries, Peer)
    {
      trace := trace + [Send(request)];
      var reply, _, effects := PollForReply<CallEnvelope>(poll, PollTries);
      trace := trace + effects;
      if reply.None? {
        trace := trace + [Logged(TimeoutContacting(Peer))];
      }
    }

    /** One pass of `_worker`'s loop: an empty queue is skipped, the sentinel
        ends the worker, anything else is sent. */
    method WorkerStep(poll: nat -> Option<string>)
      modifies this
      ensures !old(workerAlive) || old(queue) == [] ==>
                queue == old(queue) && trace == old(trace) && workerAlive == old(workerAlive)
      ensures old(workerAlive) && old(queue) != [] ==> queue == old(queue)[1..]
      ensures old(workerAlive) && old(queue) != [] && old(queue)[0].Sentinel? ==>
                !workerAlive && trace == old(trace)
      ensures old(workerAlive) && old(queue) != [] && old(queue)[0].Encoded? ==>
                workerAlive && trace == old(trace) + RoundTrip(old(queue)[0].request, poll, PollTries, Peer)
    {
      if !workerAlive || queue == [] {
        return;
      }
      var item := queue[0];
      queue := queue[1..];
      match item
      case Sentinel =>
        workerAlive := false;
      case Encoded(request) =>
        SendRequest(request, poll);
    }

    /** Runs the worker until the queue is empty or it has taken the
        sentinel: everything ahead of the first sentinel is sent in queue
        order, the k-th round trip seeing the poll outcomes `net(k)`, and
        nothing behind it is. */
    method Drain(net: nat -> nat -> Option<string>)
      modifies this
      ensures !old(workerAlive) ==> queue == old(queue) && trace == old(trace) && !workerAlive
      ensures old(workerAlive) ==>
                trace == old(trace) + RoundTrips(PendingSends(old(queue)), net, PollTries, Peer, 0)
                && workerAlive == !HasSentinel(old(queue))
                && queue == AfterSentinel(old(queue))
    {
      if !workerAlive {
        return;
      }
      ghost var sent: seq<CallEnvelope> := [];
      ghost var q0 := queue;
      var k := 0;
      while workerAlive && queue != []
        invariant k == |sent|
        invariant DrainProgress(q0, sent, queue, workerAlive)
        invariant trace == old(trace) + RoundTrips(sent, net, PollTries, Peer, 0)
        decreases |queue|
      {
        ghost var q, before := queue, trace;
        var head := queue[0];
        WorkerStep(net(k));
        DrainStep(q0, sent, q);
        if head.Encoded? {
          RoundTripsStep(old(trace), before, trace, sent, head.request, net, PollTries, Peer);
          sent := sent + [head.request];
          k := k + 1;
        }
      }
      DrainDone(q0, sent, queue, workerAlive);
    }
  }

  /** The worker has taken a prefix of `q0` and sent the envelopes `sent`
      in it; `q` is what remains. */
  ghost predicate DrainProgress(q0: seq<QueueItem>, sent: seq<CallEnvelope>, q: seq<QueueItem>, alive: bool)
  {
    if alive then
      PendingSends(q0) == sent + PendingSends(q) && AfterSentinel(q0) == AfterSentinel(q)
      && HasSentinel(q0) == HasSentinel(q)
    else
      PendingSends(q0) == sent && HasSentinel(q0) && q == AfterSentinel(q0)
  }

  lemma DrainStep(q0: seq<QueueItem>, sent: seq<CallEnvelope>, q: seq<QueueItem>)
    requires q != [] && DrainProgress(q0, sent, q, true)
    ensures q[0].Encoded? ==> DrainProgress(q0, sent + [q[0].request], q[1..], true)
    ensures q[0].Sentinel? ==> DrainProgress(q0, sent, q[1..], false)
  {
    if q[0].Encoded? {
      assert PendingSends(q) == [q[0].request] + PendingSends(q[1..]);
    }
  }

  lemma DrainDone(q0: seq<QueueItem>, sent: seq<CallEnvelope>, q: seq<QueueItem>, alive: bool)
    requires DrainProgress(q0, sent, q, alive) && (alive ==> q == [])
    ensures PendingSends(q0) == sent && alive == !HasSentinel(q0) && q == AfterSentinel(q0)
  {
    if alive {
      assert sent + PendingSends(q) == sent;
    }
  }

  /** What the worker sends is exactly the queued envelopes ahead of the
      first sentinel, once each and in the order they were queued. */
  lemma DrainSendsPendingInOrder(q: seq<QueueItem>, net: nat -> nat -> Option<string>)
    ensures SentMessages(RoundTrips(PendingSends(q), net, PollTries, Peer, 0)) == PendingSends(q)
  {
    RoundTripsSendInOrder(PendingSends(q), net, PollTries, Peer, 0);
  }

  /** A call made after the stop call is queued behind the sentinel and is
      never sent: of the three calls `first`, the stop call and `later`,
      only the first two are sent, in that order, and `later` is left
      queued once the worker has stopped. */
  method StopCutsOffLaterCalls(stopRequest: string, first: map<string, Value>, stop: map<string, Value>,
                               later: map<string, Value>, net: nat -> nat -> Option<string>)
    returns (sent: seq<CallEnvelope>, alive: bool, left: seq<QueueItem>)
    requires BuildRequest(first).Ok? && BuildRequest(stop).Ok? && BuildRequest(later).Ok?
    requires BuildRequest(first).value.apiMethod != Str(stopRequest)
    requires BuildRequest(stop).value.apiMethod == Str(stopRequest)
    ensures sent == [BuildRequest(first).value, BuildRequest(stop).value]
    ensures !alive && left == Enqueued(BuildRequest(later).value, stopRequest)
  {
    var a, b := BuildRequest(first).value, BuildRequest(stop).value;
    var rest := Enqueued(BuildRequest(later).value, stopRequest);
    var p := QueueThreeCalls(stopRequest, first, stop, later);
    StopQueueSplits(a, b, rest);
    p.Drain(net);
    assert p.trace == [] + RoundTrips([a, b], net, PollTries, Peer, 0);
    assert p.trace == RoundTrips([a, b], net, PollTries, Peer, 0);
    RoundTripsSendInOrder([a, b], net, PollTries, Peer, 0);
    sent, alive, left := SentMessages(p.trace), p.workerAlive, p.queue;
  }

  /** A fresh proxy after the calls `first`, the stop call and `later`:
      whatever `later` queues sits behind the sentinel. */
  method QueueThreeCalls(stopRequest: string, first: map<string, Value>, stop: map<string, Value>,
                         later: map<string, Value>) returns (p: BackendProxy)
    requires BuildRequest(first).Ok? && BuildRequest(stop).Ok? && BuildRequest(later).Ok?
    requires BuildRequest(first).value.apiMethod != Str(stopRequest)
    requires BuildRequest(stop).value.apiMethod == Str(stopRequest)
    ensures fresh(p) && p.stopRequest == stopRequest && p.workerAlive && p.trace == []
    ensures p.queue == [Encoded(BuildRequest(first).value), Encoded(BuildRequest(stop).value), Sentinel]
                       + Enqueued(BuildRequest(later).value, stopRequest)
  {
    var a, b := BuildRequest(first).value, BuildRequest(stop).value;
    assert Enqueued(a, stopRequest) == [Encoded(a)];
    assert Enqueued(b, stopRequest) == [Encoded(b), Sentinel];
    p := new BackendProxy(stopRequest);
    var _ := p.ApiCall([], first);
    var _ := p.ApiCall([], stop);
    var _ := p.ApiCall([], later);
  }

  lemma StopQueueSplits(a: CallEnvelope, b: CallEnvelope, rest: seq<QueueItem>)
    ensures var q := [Encoded(a), Encoded(b), Sentinel] + rest;
            PendingSends(q) == [a, b] && AfterSentinel(q) == rest && HasSentinel(q)
  {
    var q := [Encoded(a), Encoded(b), Sentinel] + rest;
    assert q[1..] == [Encoded(b), Sentinel] + rest;
    assert q[1..][1..] == [Sentinel] + rest;
    assert q[1..][1..][1..] == rest;
    assert PendingSends(q[1..][1..]) == [];
    assert PendingSends(q[1..]) == [b] + PendingSends(q[1..][1..]);
    assert PendingSends(q) == [a] + PendingSends(q[1..]);
    assert AfterSentinel(q[1..][1..]) == rest;
    assert AfterSentinel(q) == AfterSentinel(q[1..]) == AfterSentinel(q[1..][1..]);
    assert q[2] == Sentinel;
  }
}
