/** The prototype backend server: it answers every raw message "OK" and only
    then decides, against its own two-name API, which signal to request. */
module Backend {
  import Api

  /** The prototype's own `API`, unrelated to the registry of the bridge. */
  const PrototypeApi: seq<string> := ["test_api_call", "demo_api_call"]

  const InvalidApiCall: string := "invalid_api_call"
  const ApiCallOk: string := "api_call_ok"

  /** `_process_message`: the signals requested for one message, in order. A
      message outside the prototype's API requests `invalid_api_call`,
      `test_api_call` requests `api_call_ok` (through `test_api_call`), and
      `demo_api_call` is accepted and requests nothing. */
  function ProcessMessage(msg: string): seq<string>
  {
    (if msg !in PrototypeApi then [InvalidApiCall] else [])
    + (if msg == "test_api_call" then [ApiCallOk] else [])
  }

  /** At most one signal is requested per message: `invalid_api_call`
      exactly for messages outside the prototype's API, `api_call_ok`
      exactly for `test_api_call`, and none for `demo_api_call`. */
  lemma ProcessMessageDecides(msg: string)
    ensures var requests := ProcessMessage(msg);
            |requests| <= 1
            && (InvalidApiCall in requests <==> msg !in PrototypeApi)
            && (ApiCallOk in requests <==> msg == "test_api_call")
            && (msg == "demo_api_call" ==> requests == [])
  {
  }

  /** No message requests both signals, since `test_api_call` is in the
      prototype's API. */
  lemma NeverBoth(msg: string)
    ensures !(InvalidApiCall in ProcessMessage(msg) && ApiCallOk in ProcessMessage(msg))
  {
    ProcessMessageDecides(msg);
  }

  /** The prototype's signal names are not in the bridge's signal registry,
      so a signaler that checks names against it would refuse them. */
  lemma PrototypeSignalsUnregistered(msg: string)
    ensures forall n :: n in ProcessMessage(msg) ==> n !in Api.Signals
  {
  }

  datatype ServerEffect =
    | Received(msg: string)
    | Replied(text: string)
    | SignalRequested(name: string)

  function Requests(names: seq<string>): seq<ServerEffect>
  {
    if names == [] then [] else [SignalRequested(names[0])] + Requests(names[1..])
  }

  /** One turn of the server loop: receive, reply "OK", then process. */
  function Turn(msg: string): seq<ServerEffect>
  {
    [Received(msg), Replied("OK")] + Requests(ProcessMessage(msg))
  }

  function ServeEffects(messages: seq<string>): seq<ServerEffect>
  {
    if messages == [] then [] else Turn(messages[0]) + ServeEffects(messages[1..])
  }

  lemma {:induction false} ServeSnoc(messages: seq<string>, m: string)
    ensures ServeEffects(messages + [m]) == ServeEffects(messages) + Turn(m)
  {
    if messages == [] {
      assert [] + [m] == [m];
    } else {
      assert (messages + [m])[1..] == messages[1..] + [m];
      ServeSnoc(messages[1..], m);
    }
  }

  lemma ServePrefixStep(t0: seq<ServerEffect>, before: seq<ServerEffect>, after: seq<ServerEffect>, messages: seq<string>, i: nat)
    requires i < |messages|
    requires before == t0 + ServeEffects(messages[..i]) && after == before + Turn(messages[i])
    ensures after == t0 + ServeEffects(messages[..i + 1])
  {
    var done, m := messages[..i], messages[i];
    assert messages[..i + 1] == done + [m];
    ServeSnoc(done, m);
    assert after == t0 + (ServeEffects(done) + Turn(m));
  }

  function ReceiptCount(t: seq<ServerEffect>): nat
  {
    if t == [] then 0 else (if t[0].Received? then 1 else 0) + ReceiptCount(t[1..])
  }

  lemma {:induction false} ReceiptCountAppend(a: seq<ServerEffect>, b: seq<ServerEffect>)
    ensures ReceiptCount(a + b) == ReceiptCount(a) + ReceiptCount(b)
  {
    if a == [] {
      assert a + b == b;
    } else {
      assert (a + b)[1..] == a[1..] + b;
      ReceiptCountAppend(a[1..], b);
    }
  }

  /** Every message is received exactly once, and every receipt is followed
      at once by the "OK" reply, before any signal is requested for it. */
  lemma {:induction false} ReplyFollowsEveryReceipt(messages: seq<string>)
    ensures ReceiptCount(ServeEffects(messages)) == |messages|
    ensures var t := ServeEffects(messages);
            forall j :: 0 <= j < |t| && t[j].Received? ==> j + 1 < |t| && t[j + 1] == Replied("OK")
  {
    if messages != [] {
      var turn := Turn(messages[0]);
      var rest := ServeEffects(messages[1..]);
      ReplyFollowsEveryReceipt(messages[1..]);
      ReceiptCountAppend(turn, rest);
      var rs := Requests(ProcessMessage(messages[0]));
      ReceiptCountAppend([Received(messages[0]), Replied("OK")], rs);
      assert ReceiptCount(rs) == 0 by {
        RequestsReceiveNothing(ProcessMessage(messages[0]));
      }
      var t := turn + rest;
      forall j | 0 <= j < |t| && t[j].Received?
        ensures j + 1 < |t| && t[j + 1] == Replied("OK")
      {
        if j >= |turn| {
          assert t[j] == rest[j - |turn|];
          assert t[j + 1] == rest[j + 1 - |turn|];
        } else {
          TurnReceivesOnce(messages[0]);
          assert t[j] == turn[j];
        }
      }
    }
  }

  /** Within one turn only the first effect is a receipt. */
  lemma TurnReceivesOnce(msg: string)
    ensures forall j :: 1 <= j < |Turn(msg)| ==> !Turn(msg)[j].Received?
  {
    var rs := Requests(ProcessMessage(msg));
    forall j | 1 <= j < |Turn(msg)|
      ensures !Turn(msg)[j].Received?
    {
      if j >= 2 {
        RequestsOnlyRequest(ProcessMessage(msg), j - 2);
        assert Turn(msg)[j] == rs[j - 2];
      }
    }
  }

  lemma {:induction false} RequestsOnlyRequest(names: seq<string>, i: nat)
    requires i < |Requests(names)|
    ensures |Requests(names)| == |names| && Requests(names)[i] == SignalRequested(names[i])
  {
    RequestsLength(names);
    if i > 0 {
      RequestsOnlyRequest(names[1..], i - 1);
    }
  }

  lemma {:induction false} RequestsLength(names: seq<string>)
    ensures |Requests(names)| == |names|
  {
    if names != [] {
      RequestsLength(names[1..]);
    }
  }

  lemma {:induction false} RequestsReceiveNothing(names: seq<string>)
    ensures ReceiptCount(Requests(names)) == 0
  {
    if names != [] {
      RequestsReceiveNothing(names[1..]);
    }
  }

  class Backend {
    /** What the server did, in order; the signal requests go to its signaler. */
    var trace: seq<ServerEffect>

    constructor ()
      ensures trace == []
    {
      trace := [];
    }

    /** `_process_message` on one message, against an abstract signaler. */
    method ProcessMessageStep(msg: string)
      modifies this
      ensures trace == old(trace) + Requests(ProcessMessage(msg))
    {
      if msg !in PrototypeApi {
        trace := trace + [SignalRequested(InvalidApiCall)];
      }
      if msg == "test_api_call" {
        TestApiCall();
      }
    }

    /** `test_api_call`: requests `api_call_ok`. */
    method TestApiCall()
      modifies this
      ensures trace == old(trace) + [SignalRequested(ApiCallOk)]
    {
      trace := trace + [SignalRequested(ApiCallOk)];
    }

    /** One turn of the server loop: the message is received and answered
        "OK" before it is processed. */
    method HandleMessage(msg: string)
      modifies this
      ensures trace == old(trace) + Turn(msg)
    {
      trace := trace + [Received(msg), Replied("OK")];
      ProcessMessageStep(msg);
    }

    /** The server loop on the given messages: each is received and answered
        "OK" before it is processed. */
    method Serve(messages: seq<string>)
      modifies this
      ensures trace == old(trace) + ServeEffects(messages)
    {
      var i := 0;
      while i < |messages|
        invariant 0 <= i <= |messages|
        invariant trace == old(trace) + ServeEffects(messages[..i])
      {
        ghost var before := trace;
        HandleMessage(messages[i]);
        ServePrefixStep(old(trace), before, trace, messages, i);
        i := i + 1;
      }
      assert messages[..i] == messages;
    }
  }
}
