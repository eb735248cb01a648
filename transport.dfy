/** The request side of a lock-step connection, reduced to what a sender
    observably does: a trace of socket operations and of the log entries
    at warning level and above. Whether a reply is waiting at the i-th poll
    (or at the single receive) is an input, since it depends on the peer. */
module Transport {
  import opened Values

  datatype LogEntry =
    | RetryingReceive(tries: nat, limit: nat) // warning: "Retrying receive... tries/limit"
    | TimeoutContacting(peer: string)         // critical: "Timeout error contacting <peer>."
    | SerializationFailed                     // critical: "Error serializing request into JSON."

  datatype Effect<M> =
    | Send(msg: M)
    | Poll(ready: bool)
    | Recv(reply: string)
    | RecvTimeout            // a receive that gave up after the socket's time-out
    | Logged(entry: LogEntry)

  /** The life of a sender's worker thread: `start()` may start it once; it
      finishes when its loop sees the run flag cleared. */
  datatype ThreadState = NotStarted | Running | Finished

  /** The messages sent, in order. */
  function SentMessages<M>(t: seq<Effect<M>>): (r: seq<M>)
    ensures |r| <= |t|
  {
    if t == [] then [] else (if t[0].Send? then [t[0].msg] else []) + SentMessages(t[1..])
  }

  /** The number of polls made. */
  function PollCount<M>(t: seq<Effect<M>>): (n: nat)
    ensures n <= |t|
  {
    if t == [] then 0 else (if t[0].Poll? then 1 else 0) + PollCount(t[1..])
  }

  lemma {:induction false} SentMessagesAppend<M>(a: seq<Effect<M>>, b: seq<Effect<M>>)
    ensures SentMessages(a + b) == SentMessages(a) + SentMessages(b)
  {
    if a != [] {
      assert (a + b)[1..] == a[1..] + b;
      SentMessagesAppend(a[1..], b);
    } else {
      assert a + b == b;
    }
  }

  lemma {:induction false} PollCountAppend<M>(a: seq<Effect<M>>, b: seq<Effect<M>>)
    ensures PollCount(a + b) == PollCount(a) + PollCount(b)
  {
    if a != [] {
      assert (a + b)[1..] == a[1..] + b;
      PollCountAppend(a[1..], b);
    } else {
      assert a + b == b;
    }
  }

  /** A poll loop bounded by `limit` still polls once when `limit` is 0. */
  function MaxPolls(limit: nat): (n: nat)
    ensures n >= 1 && n >= limit
    ensures limit > 0 ==> n == limit
  {
    if limit == 0 then 1 else limit
  }

  /** The effects of the poll loop from its `tries`-th poll on: a reply that
      is waiting is received and ends the loop; a poll that times out is
      followed by a retry warning while fewer than `limit` polls failed. */
  function PollLoop<M>(poll: nat -> Option<string>, limit: nat, tries: nat): seq<Effect<M>>
    decreases limit - tries
  {
    match poll(tries)
    case Some(r) => [Poll(true), Recv(r)]
    case None =>
      if tries + 1 < limit
      then [Poll(false), Logged(RetryingReceive(tries + 1, limit))] + PollLoop(poll, limit, tries + 1)
      else [Poll(false)]
  }

  /** The reply the poll loop started at `tries` ends with, if any. */
  function FirstReply(poll: nat -> Option<string>, limit: nat, tries: nat): Option<string>
    decreases limit - tries
  {
    match poll(tries)
    case Some(r) => Some(r)
    case None => if tries + 1 < limit then FirstReply(poll, limit, tries + 1) else None
  }

  /** The poll loop of a round trip: polls at most `MaxPolls(limit)` times,
      stops at the first poll that finds a reply, and comes back without a
      reply only when every poll timed out. */
  method PollForReply<M>(poll: nat -> Option<string>, limit: nat)
    returns (reply: Option<string>, polls: nat, effects: seq<Effect<M>>)
    ensures 1 <= polls <= MaxPolls(limit)
    ensures forall i :: 0 <= i < polls - 1 ==> poll(i).None?
    ensures reply == poll(polls - 1)
    ensures reply.None? ==> polls == MaxPolls(limit)
    ensures effects == PollLoop(poll, limit, 0) && reply == FirstReply(poll, limit, 0)
    ensures PollCount(effects) == polls
  {
    var tries: nat := 0;
    reply, effects := None, [];
    while true
      invariant tries < MaxPolls(limit)
      invariant PollLoop<M>(poll, limit, 0) == effects + PollLoop<M>(poll, limit, tries)
      invariant FirstReply(poll, limit, 0) == FirstReply(poll, limit, tries)
      invariant PollCount(effects) == tries
      invariant forall i :: 0 <= i < tries ==> poll(i).None?
      decreases MaxPolls(limit) - tries
    {
      var ready := poll(tries);
      var step: seq<Effect<M>> := PollStep(poll, limit, tries);
      PollStepKeeps(poll, limit, tries, effects);
      if ready.Some? || tries + 1 >= limit {
        reply, polls, effects := ready, tries + 1, effects + step;
        return;
      }
      effects := effects + step;
      tries := tries + 1;
    }
  }

  /** Read off the trace of the poll loop started at `tries`: it polls at
      least once and at most the remaining number of times, every poll but
      its last timed out, its reply is what the last poll found, and it ends
      without one only after the last allowed poll. */
  lemma {:induction false} PollLoopFacts<M>(poll: nat -> Option<string>, limit: nat, tries: nat)
    requires tries < MaxPolls(limit)
    ensures var n := PollCount(PollLoop<M>(poll, limit, tries));
            1 <= n <= MaxPolls(limit) - tries
            && (forall i :: tries <= i < tries + n - 1 ==> poll(i).None?)
            && FirstReply(poll, limit, tries) == poll(tries + n - 1)
            && (FirstReply(poll, limit, tries).None? ==> tries + n == MaxPolls(limit))
    decreases limit - tries
  {
    PollLoopUnfold<M>(poll, limit, tries);
    if poll(tries).None? && tries + 1 < limit {
      PollLoopFacts<M>(poll, limit, tries + 1);
      PollCountAppend(PollStep<M>(poll, limit, tries), PollLoop<M>(poll, limit, tries + 1));
    }
  }

  /** The effects of the `tries`-th poll, up to but excluding the next one. */
  function PollStep<M>(poll: nat -> Option<string>, limit: nat, tries: nat): seq<Effect<M>>
  {
    match poll(tries)
    case Some(r) => [Poll(true), Recv(r)]
    case None => if tries + 1 < limit then [Poll(false), Logged(RetryingReceive(tries + 1, limit))] else [Poll(false)]
  }

  /** One poll of the loop keeps the loop's invariant, or ends the loop. */
  lemma PollStepKeeps<M>(poll: nat -> Option<string>, limit: nat, tries: nat, effects: seq<Effect<M>>)
    requires PollLoop<M>(poll, limit, 0) == effects + PollLoop<M>(poll, limit, tries)
    requires FirstReply(poll, limit, 0) == FirstReply(poll, limit, tries)
    requires PollCount(effects) == tries
    ensures PollCount(effects + PollStep<M>(poll, limit, tries)) == tries + 1
    ensures poll(tries).Some? || tries + 1 >= limit ==>
              PollLoop<M>(poll, limit, 0) == effects + PollStep<M>(poll, limit, tries)
              && FirstReply(poll, limit, 0) == poll(tries)
    ensures poll(tries).None? && tries + 1 < limit ==>
              PollLoop<M>(poll, limit, 0) == (effects + PollStep<M>(poll, limit, tries)) + PollLoop<M>(poll, limit, tries + 1)
              && FirstReply(poll, limit, 0) == FirstReply(poll, limit, tries + 1)
  {
    PollLoopUnfold<M>(poll, limit, tries);
    PollCountAppend(effects, PollStep<M>(poll, limit, tries));
  }

  lemma PollLoopUnfold<M>(poll: nat -> Option<string>, limit: nat, tries: nat)
    ensures PollCount(PollStep<M>(poll, limit, tries)) == 1
    ensures poll(tries).Some? || tries + 1 >= limit ==>
              PollLoop<M>(poll, limit, tries) == PollStep(poll, limit, tries)
              && FirstReply(poll, limit, tries) == poll(tries)
    ensures poll(tries).None? && tries + 1 < limit ==>
              PollLoop<M>(poll, limit, tries) == PollStep(poll, limit, tries) + PollLoop(poll, limit, tries + 1)
              && FirstReply(poll, limit, tries) == FirstReply(poll, limit, tries + 1)
  {
    var step: seq<Effect<M>> := PollStep(poll, limit, tries);
    assert PollCount(step) == (if step[0].Poll? then 1 else 0) + PollCount(step[1..]);
    assert PollCount(step[1..]) == 0 by {
      assert step[1..] == [] || (|step[1..]| == 1 && !step[1..][0].Poll? && step[1..][1..] == []);
    }
  }

  /** The poll loop never sends. */
  lemma {:induction false} PollLoopSendsNothing<M>(poll: nat -> Option<string>, limit: nat, tries: nat)
    ensures SentMessages(PollLoop<M>(poll, limit, tries)) == []
    decreases limit - tries
  {
    var t := PollLoop<M>(poll, limit, tries);
    if poll(tries).None? && tries + 1 < limit {
      var step: seq<Effect<M>> := [Poll(false), Logged(RetryingReceive(tries + 1, limit))];
      PollLoopSendsNothing<M>(poll, limit, tries + 1);
      SentMessagesAppend(step, PollLoop<M>(poll, limit, tries + 1));
    }
  }

  /** `_send_request` of the polling sender: one send, the poll loop, and a
      critical log entry when no reply came. */
  function RoundTrip<M>(msg: M, poll: nat -> Option<string>, limit: nat, peer: string): seq<Effect<M>>
  {
    [Send(msg)] + PollLoop(poll, limit, 0)
    + (if FirstReply(poll, limit, 0).None? then [Logged(TimeoutContacting(peer))] else [])
  }

  /** A round trip sends exactly its own message. */
  lemma RoundTripSendsOnce<M>(msg: M, poll: nat -> Option<string>, limit: nat, peer: string)
    ensures SentMessages(RoundTrip(msg, poll, limit, peer)) == [msg]
  {
    var loop := PollLoop<M>(poll, limit, 0);
    var tail: seq<Effect<M>> := if FirstReply(poll, limit, 0).None? then [Logged(TimeoutContacting(peer))] else [];
    PollLoopSendsNothing<M>(poll, limit, 0);
    SentMessagesAppend([Send(msg)] + loop, tail);
    SentMessagesAppend([Send(msg)], loop);
  }

  /** The round trips of `msgs`, the k-th of which sees the poll outcomes `net(k)`. */
  function RoundTrips<M>(msgs: seq<M>, net: nat -> nat -> Option<string>, limit: nat, peer: string, k: nat): seq<Effect<M>>
    decreases |msgs|
  {
    if msgs == [] then []
    else RoundTrip(msgs[0], net(k), limit, peer) + RoundTrips(msgs[1..], net, limit, peer, k + 1)
  }

  lemma {:induction false} RoundTripsSnoc<M>(msgs: seq<M>, m: M, net: nat -> nat -> Option<string>, limit: nat, peer: string, k: nat)
    ensures RoundTrips(msgs + [m], net, limit, peer, k)
         == RoundTrips(msgs, net, limit, peer, k) + RoundTrip(m, net(k + |msgs|), limit, peer)
    decreases |msgs|
  {
    if msgs != [] {
      assert (msgs + [m])[1..] == msgs[1..] + [m];
      RoundTripsSnoc(msgs[1..], m, net, limit, peer, k + 1);
    }
  }

  /** A worker that has sent `sent` from the queue `q0`, leaving `queue`,
      and now makes the round trip of the head of `queue`. */
  lemma RoundTripsExtend<M>(t0: seq<Effect<M>>, before: seq<Effect<M>>, after: seq<Effect<M>>,
                            q0: seq<M>, sent: seq<M>, queue: seq<M>,
                            net: nat -> nat -> Option<string>, limit: nat, peer: string)
    requires queue != [] && q0 == sent + queue && before == t0 + RoundTrips(sent, net, limit, peer, 0)
    requires after == before + RoundTrip(queue[0], net(|sent|), limit, peer)
    ensures q0 == (sent + [queue[0]]) + queue[1..]
    ensures after == t0 + RoundTrips(sent + [queue[0]], net, limit, peer, 0)
  {
    assert queue == [queue[0]] + queue[1..];
    RoundTripsSnoc(sent, queue[0], net, limit, peer, 0);
  }

  lemma RoundTripsStep<M>(t0: seq<Effect<M>>, before: seq<Effect<M>>, after: seq<Effect<M>>, sent: seq<M>, m: M,
                          net: nat -> nat -> Option<string>, limit: nat, peer: string)
    requires before == t0 + RoundTrips(sent, net, limit, peer, 0)
    requires after == before + RoundTrip(m, net(|sent|), limit, peer)
    ensures after == t0 + RoundTrips(sent + [m], net, limit, peer, 0)
  {
    RoundTripsSnoc(sent, m, net, limit, peer, 0);
  }

  /** Round trips made one after another send exactly their messages, in order. */
  lemma {:induction false} RoundTripsSendInOrder<M>(msgs: seq<M>, net: nat -> nat -> Option<string>, limit: nat, peer: string, k: nat)
    ensures SentMessages(RoundTrips(msgs, net, limit, peer, k)) == msgs
    decreases |msgs|
  {
    if msgs != [] {
      RoundTripSendsOnce(msgs[0], net(k), limit, peer);
      RoundTripsSendInOrder(msgs[1..], net, limit, peer, k + 1);
      SentMessagesAppend(RoundTrip(msgs[0], net(k), limit, peer), RoundTrips(msgs[1..], net, limit, peer, k + 1));
    }
  }

  /** `_send_request` of a sender without polling: one send, then exactly
      one receive, which either returns the reply or times out and is logged. */
  function SingleRoundTrip<M>(msg: M, reply: Option<string>, peer: string): (t: seq<Effect<M>>)
    ensures |t| >= 2 && t[0] == Send(msg)
    ensures SentMessages(t) == [msg]
    ensures reply.Some? ==> t[1..] == [Recv(reply.value)]
    ensures reply.None? ==> t[1..] == [RecvTimeout, Logged(TimeoutContacting(peer))]
  {
    var rest: seq<Effect<M>> := match reply
      case Some(r) => [Recv(r)]
      case None => [RecvTimeout, Logged(TimeoutContacting(peer))];
    SentMessagesAppend([Send(msg)], rest);
    [Send(msg)] + rest
  }

  /** The single-receive round trips of `msgs`, the k-th of which receives `replies(k)`. */
  function SingleRoundTrips<M>(msgs: seq<M>, replies: nat -> Option<string>, peer: string, k: nat): seq<Effect<M>>
    decreases |msgs|
  {
    if msgs == [] then []
    else SingleRoundTrip(msgs[0], replies(k), peer) + SingleRoundTrips(msgs[1..], replies, peer, k + 1)
  }

  lemma {:induction false} SingleRoundTripsSnoc<M>(msgs: seq<M>, m: M, replies: nat -> Option<string>, peer: string, k: nat)
    ensures SingleRoundTrips(msgs + [m], replies, peer, k)
         == SingleRoundTrips(msgs, replies, peer, k) + SingleRoundTrip(m, replies(k + |msgs|), peer)
    decreases |msgs|
  {
    if msgs != [] {
      assert (msgs + [m])[1..] == msgs[1..] + [m];
      SingleRoundTripsSnoc(msgs[1..], m, replies, peer, k + 1);
    }
  }

  lemma SingleRoundTripsExtend<M>(t0: seq<Effect<M>>, before: seq<Effect<M>>, after: seq<Effect<M>>,
                                  q0: seq<M>, sent: seq<M>, queue: seq<M>,
                                  replies: nat -> Option<string>, peer: string)
    requires queue != [] && q0 == sent + queue && before == t0 + SingleRoundTrips(sent, replies, peer, 0)
    requires after == before + SingleRoundTrip(queue[0], replies(|sent|), peer)
    ensures q0 == (sent + [queue[0]]) + queue[1..]
    ensures after == t0 + SingleRoundTrips(sent + [queue[0]], replies, peer, 0)
  {
    assert queue == [queue[0]] + queue[1..];
    SingleRoundTripsSnoc(sent, queue[0], replies, peer, 0);
  }

  lemma {:induction false} SingleRoundTripsSendInOrder<M>(msgs: seq<M>, replies: nat -> Option<string>, peer: string, k: nat)
    ensures SentMessages(SingleRoundTrips(msgs, replies, peer, k)) == msgs
    decreases |msgs|
  {
    if msgs != [] {
      SingleRoundTripsSendInOrder(msgs[1..], replies, peer, k + 1);
      SentMessagesAppend(SingleRoundTrip(msgs[0], replies(k), peer), SingleRoundTrips(msgs[1..], replies, peer, k + 1));
    }
  }
}
