/** The demo backend's handlers: each API method computes its payload and
    makes exactly one `signal` call on the backend's signaler. */
module DemoBackend {
  import opened Values
  import opened Envelopes
  import Api
  import Signaler
  import Transport
  import SignalerQt

  /** Exceptions a handler raises before it signals anything. */
  datatype HandlerError =
    | AddTypeError       // `a+b` is not defined for the two operands
    | NotUnicode         // `blocking_method`'s assertion on `data`
    | BadDelay           // `time.sleep` refuses the delay
    | SignalFailed(error: Error)

  /** A call of one handler with its parameters. */
  datatype HandlerCall =
    | Reset
    | Add(a: Value, b: Value)
    | GetStoredData
    | BlockingMethod(data: Value, delay: Value)
    | Twice01
    | Twice02

  /** The methods `DemoBackend` defines, in the order it defines them. */
  const HandlerNames: seq<string> := ["reset", "add", "get_stored_data", "blocking_method", "twice_01", "twice_02"]

  /** The API method a handler call implements. */
  function HandlerName(c: HandlerCall): (n: string)
    ensures n in HandlerNames
  {
    match c
    case Reset => "reset"
    case Add(_, _) => "add"
    case GetStoredData => "get_stored_data"
    case BlockingMethod(_, _) => "blocking_method"
    case Twice01 => "twice_01"
    case Twice02 => "twice_02"
  }

  /** A delay `time.sleep` accepts: a non-negative number. */
  predicate ValidDelay(delay: Value)
  {
    Numeric(delay) && AsInt(delay) >= 0
  }

  /** The signal name and the payload a handler passes to `signal`, or the
      exception it raises first. Every name it signals is registered and is
      declared by the demo sink with as many arguments as the payload gives. */
  function Payload(c: HandlerCall): (r: Result<(string, Value), HandlerError>)
    ensures r.Err? <==> (c.Add? && Plus(c.a, c.b).None?)
                        || (c.BlockingMethod? && (!c.data.Str? || !ValidDelay(c.delay)))
    ensures r.Err? ==> !r.error.SignalFailed?
    ensures r.Ok? ==> r.value.0 in Api.Signals && r.value.0 in SignalerQt.DemoSignals
                      && SignalerQt.DemoSignals[r.value.0] == (if r.value.1 == Null then 0 else 1)
    ensures c.Add? && r.Ok? ==> r.value.1 == Plus(c.a, c.b).value
  {
    match c
    case Reset => Ok(("reset_ok", Null))
    case Add(a, b) =>
      var sum := Plus(a, b);
      if sum.None? then Err(AddTypeError) else Ok(("add_result", sum.value))
    case GetStoredData => Ok(("stored_data", Str("Lorem Data")))
    case BlockingMethod(data, delay) =>
      if !data.Str? then Err(NotUnicode)
      else if !ValidDelay(delay) then Err(BadDelay)
      else Ok(("blocking_method_ok", Null))
    case Twice01 => Ok(("twice_signal", Null))
    case Twice02 => Ok(("twice_signal", Null))
  }

  /** Handler calls of different kinds implement different methods. */
  lemma HandlerNameOneToOne(c1: HandlerCall, c2: HandlerCall)
    ensures HandlerName(c1) == HandlerName(c2) <==>
              c1.Reset? == c2.Reset? && c1.Add? == c2.Add? && c1.GetStoredData? == c2.GetStoredData?
              && c1.BlockingMethod? == c2.BlockingMethod? && c1.Twice01? == c2.Twice01? && c1.Twice02? == c2.Twice02?
  {
  }

  /** Every method the demo defines is implemented by some handler call. */
  lemma HandlerNameOnto()
    ensures forall n :: n in HandlerNames ==> exists c :: HandlerName(c) == n
  {
    assert HandlerName(Reset) == HandlerNames[0];
    assert HandlerName(Add(Null, Null)) == HandlerNames[1];
    assert HandlerName(GetStoredData) == HandlerNames[2];
    assert HandlerName(BlockingMethod(Null, Null)) == HandlerNames[3];
    assert HandlerName(Twice01) == HandlerNames[4];
    assert HandlerName(Twice02) == HandlerNames[5];
  }

  /** Every API method has a handler and every handler is an API method, so
      no valid call fails for want of one. */
  lemma EveryApiMethodHandled()
    ensures forall n :: n in Api.Methods <==> n in HandlerNames
    ensures forall n :: n in Api.Methods ==> exists c :: HandlerName(c) == n
    ensures forall c :: HandlerName(c) in Api.Methods
  {
    HandlerNameOnto();
  }

  /** A handler's `signal` call never raises "Unknown signal", and succeeds
      whenever the handler's inputs are encodable. */
  lemma {:induction false} HandlerSignalSucceeds(c: HandlerCall)
    requires Payload(c).Ok?
    requires c.Add? ==> Serializable(c.a) && Serializable(c.b)
    ensures BuildSignal(Payload(c).value.0, Payload(c).value.1).Ok?
  {
    if c.Add? {
      PlusPreservesSerializable(c.a, c.b);
    }
  }

  /** End to end: the envelope a handler queues, once delivered to the demo
      sink, is emitted on the signal of the same name with the handler's
      payload, and with the number of arguments that signal declares. */
  lemma HandlerReachesGui(c: HandlerCall)
    requires Payload(c).Ok? && BuildSignal(Payload(c).value.0, Payload(c).value.1).Ok?
    ensures var e := BuildSignal(Payload(c).value.0, Payload(c).value.1).value;
            var d := SignalerQt.Decide(Some(EventToJson(e)), SignalerQt.DemoSignals);
            d.Emit? && d.call.signal == Payload(c).value.0
            && SignalerQt.ArityMatches(d.call, SignalerQt.DemoSignals)
            && (d.call.EmitWith? ==> d.call.data == Payload(c).value.1)
  {
    var e := BuildSignal(Payload(c).value.0, Payload(c).value.1).value;
    var fields := EventToJson(e).fields;
    assert fields["signal"] == Str(e.signal) && fields["data"] == e.data;
  }

  /** `add(2, 2)` makes the GUI's `add_result` fire with 4. */
  lemma AddTwoAndTwo()
    ensures Payload(Add(Int(2), Int(2))) == Ok(("add_result", Int(4)))
    ensures BuildSignal("add_result", Int(4)) == Ok(EventEnvelope("add_result", Int(4)))
    ensures SignalerQt.Decide(Some(EventToJson(EventEnvelope("add_result", Int(4)))), SignalerQt.DemoSignals)
            == SignalerQt.Emit(SignalerQt.EmitWith("add_result", Int(4)))
  {
    var fields := EventToJson(EventEnvelope("add_result", Int(4))).fields;
    assert fields["signal"] == Str("add_result") && fields["data"] == Int(4);
  }

  class DemoBackend {
    /** `_signaler`. */
    const signaler: Signaler.Signaler

    constructor ()
      ensures fresh(signaler)
      ensures signaler.queue == [] && signaler.trace == [] && !signaler.doWork
      ensures signaler.thread == Transport.NotStarted
    {
      signaler := new Signaler.Signaler();
    }

    /** Runs a handler's one `signal` call, unless the handler raised first. */
    method Signal(c: HandlerCall) returns (r: Result<(), HandlerError>)
      modifies signaler
      ensures signaler.doWork == old(signaler.doWork) && signaler.thread == old(signaler.thread)
      ensures Payload(c).Err? ==> r == Err(Payload(c).error)
                                  && signaler.queue == old(signaler.queue) && signaler.trace == old(signaler.trace)
      ensures Payload(c).Ok? && BuildSignal(Payload(c).value.0, Payload(c).value.1).Ok? ==>
                r == Ok(()) && signaler.trace == old(signaler.trace)
                && signaler.queue == old(signaler.queue) + [EventEnvelope(Payload(c).value.0, Payload(c).value.1)]
      ensures Payload(c).Ok? && BuildSignal(Payload(c).value.0, Payload(c).value.1).Err? ==>
                r == Err(SignalFailed(NotSerializable)) && signaler.queue == old(signaler.queue)
                && signaler.trace == old(signaler.trace) + [Transport.Logged(Transport.SerializationFailed)]
    {
      var p := Payload(c);
      if p.Err? {
        return Err(p.error);
      }
      var s := signaler.Signal(p.value.0, p.value.1);
      if s.Err? {
        return Err(SignalFailed(s.error));
      }
      r := Ok(());
    }

    /** `reset`: queues one `reset_ok` with no data. */
    method ResetHandler() returns (r: Result<(), HandlerError>)
      modifies signaler
      ensures r == Ok(()) && signaler.trace == old(signaler.trace)
      ensures signaler.queue == old(signaler.queue) + [EventEnvelope("reset_ok", Null)]
      ensures signaler.doWork == old(signaler.doWork) && signaler.thread == old(signaler.thread)
    {
      r := Signal(Reset);
    }

    /** `add`: queues one `add_result` carrying `a+b`; operands `+` rejects
        raise before anything is queued. */
    method AddHandler(a: Value, b: Value) returns (r: Result<(), HandlerError>)
      modifies signaler
      ensures signaler.doWork == old(signaler.doWork) && signaler.thread == old(signaler.thread)
      ensures Plus(a, b).None? ==> r == Err(AddTypeError)
                                   && signaler.queue == old(signaler.queue) && signaler.trace == old(signaler.trace)
      ensures Plus(a, b).Some? && Serializable(a) && Serializable(b) ==>
                r == Ok(()) && signaler.trace == old(signaler.trace)
                && signaler.queue == old(signaler.queue) + [EventEnvelope("add_result", Plus(a, b).value)]
      ensures Numeric(a) && Numeric(b) ==>
                r == Ok(()) && signaler.queue == old(signaler.queue) + [EventEnvelope("add_result", Int(AsInt(a) + AsInt(b)))]
    {
      if Plus(a, b).Some? && Serializable(a) && Serializable(b) {
        HandlerSignalSucceeds(Add(a, b));
      }
      r := Signal(Add(a, b));
    }

    /** `get_stored_data`: queues one `stored_data` carrying 'Lorem Data'. */
    method GetStoredDataHandler() returns (r: Result<(), HandlerError>)
      modifies signaler
      ensures r == Ok(()) && signaler.trace == old(signaler.trace)
      ensures signaler.queue == old(signaler.queue) + [EventEnvelope("stored_data", Str("Lorem Data"))]
      ensures signaler.doWork == old(signaler.doWork) && signaler.thread == old(signaler.thread)
    {
      r := Signal(GetStoredData);
    }

    /** `blocking_method`: `data` must be a unicode string and the delay one
        `time.sleep` accepts; only after the delay is `blocking_method_ok`
        queued, with no data. */
    method BlockingMethodHandler(data: Value, delay: Value) returns (r: Result<(), HandlerError>)
      modifies signaler
      ensures signaler.doWork == old(signaler.doWork) && signaler.thread == old(signaler.thread)
      ensures signaler.trace == old(signaler.trace)
      ensures !data.Str? ==> r == Err(NotUnicode) && signaler.queue == old(signaler.queue)
      ensures data.Str? && !ValidDelay(delay) ==> r == Err(BadDelay) && signaler.queue == old(signaler.queue)
      ensures data.Str? && ValidDelay(delay) ==>
                r == Ok(()) && signaler.queue == old(signaler.queue) + [EventEnvelope("blocking_method_ok", Null)]
    {
      r := Signal(BlockingMethod(data, delay));
    }

    /** `twice_01`: queues one `twice_signal` with no data. */
    method Twice01Handler() returns (r: Result<(), HandlerError>)
      modifies signaler
      ensures r == Ok(()) && signaler.trace == old(signaler.trace)
      ensures signaler.queue == old(signaler.queue) + [EventEnvelope("twice_signal", Null)]
      ensures signaler.doWork == old(signaler.doWork) && signaler.thread == old(signaler.thread)
    {
      r := Signal(Twice01);
    }

    /** `twice_02`: queues one `twice_signal` with no data, like `twice_01`. */
    method Twice02Handler() returns (r: Result<(), HandlerError>)
      modifies signaler
      ensures r == Ok(()) && signaler.trace == old(signaler.trace)
      ensures signaler.queue == old(signaler.queue) + [EventEnvelope("twice_signal", Null)]
      ensures signaler.doWork == old(signaler.doWork) && signaler.thread == old(signaler.thread)
    {
      r := Signal(Twice02);
    }
  }
}
