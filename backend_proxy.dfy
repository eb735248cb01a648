/** The earlier, synchronous call dispatcher: each call builds the same
    envelope as the queued one, sends it at once and makes exactly one
    receive attempt before returning. */
module BackendProxy {
  import opened Values
  import opened Envelopes
  import opened Transport

  /** The peer named in the time-out log entry. */
  const Peer: string := "backend"

  class BackendProxy {
    /** What went over the socket and to the log. */
    var trace: seq<Effect<CallEnvelope>>

    constructor ()
      ensures trace == []
    {
      trace := [];
    }

    /** `_api_call`: a missing method name raises and sends nothing; an
        envelope the encoder refuses is logged as critical and re-raised
        before anything is sent; otherwise the envelope is sent, then one
        receive is made, whose time-out (`reply == None`) is logged and not
        raised. */
    method ApiCall(kwargs: map<string, Value>, reply: Option<string>) returns (r: Result<(), Error>)
      modifies this
      ensures BuildRequest(kwargs).Ok? ==>
                r == Ok(()) && trace == old(trace) + SingleRoundTrip(BuildRequest(kwargs).value, reply, Peer)
      ensures BuildRequest(kwargs).Err? ==>
                r == Err(BuildRequest(kwargs).error)
                && trace == old(trace) + (if r.error == NotSerializable then [Logged(SerializationFailed)] else [])
    {
      var built := BuildRequest(kwargs);
      if built.Err? {
        if built.error == NotSerializable {
          trace := trace + [Logged(SerializationFailed)];
        }
        return Err(built.error);
      }
      trace := trace + [Send(built.value)];
      match reply {
        case Some(response) =>
          trace := trace + [Recv(response)];
        case None =>
          trace := trace + [RecvTimeout, Logged(TimeoutContacting(Peer))];
      }
      r := Ok(());
    }
  }
}
