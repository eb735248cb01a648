/** The event sink: a reply-side loop that acknowledges every request with
    "OK" before looking at it, then checks the event envelope and either
    emits the matching GUI signal or logs and drops the request. */
module SignalerQt {
  import opened Values
  import Api

  /** An emitter call: with no argument when the payload is None. */
  datatype EmitCall = EmitNoArgs(signal: string) | EmitWith(signal: string, data: Value)

  /** What `_process_request` does with one decoded request. */
  datatype Decision =
    | Malformed                       // logged as critical and re-raised
    | DropUnknown(signal: Value)      // not a registered name: logged as an error
    | DropNotImplemented(name: string) // no emitter attribute: logged as a warning
    | Emit(call: EmitCall)
    | WrongArity(call: EmitCall)      // the emit raises TypeError, which is not caught

  datatype RouterLog =
    | MalformedRequest
    | UnknownSignalReceived(signal: Value)
    | SignalNotImplemented(name: string)

  datatype QtEffect =
    | Received(request: Option<Value>)
    | Replied(text: string)
    | Logged(entry: RouterLog)
    | Emitted(call: EmitCall)
    | EmitRaised(call: EmitCall)

  /** The request decodes to an object with both a `signal` and a `data`
      key (`None` stands for text that is not JSON at all). */
  predicate WellFormed(request: Option<Value>)
  {
    request.Some? && request.value.Obj? && "signal" in request.value.fields && "data" in request.value.fields
  }

  /** The signal name of a decoded request, if it is a registered one. */
  predicate Registered(v: Value)
  {
    v.Str? && v.s in Api.Signals
  }

  /** An emit call passes as many arguments as the declared signal takes. */
  predicate ArityMatches(call: EmitCall, declared: map<string, nat>)
  {
    call.signal in declared && declared[call.signal] == (if call.EmitWith? then 1 else 0)
  }

  /** `_process_request`: malformed input is fatal; an unregistered name and
      a registered name without an emitter are dropped; otherwise exactly one
      emit is made, carrying the payload unless it is None, and it raises
      when the declared signal takes another number of arguments. The
      emitters are the declared Qt signals with the arguments each takes. */
  function Decide(request: Option<Value>, emitters: map<string, nat>): (d: Decision)
    ensures d.Malformed? <==> !WellFormed(request)
    ensures d.DropUnknown? ==> WellFormed(request) && d.signal == request.value.fields["signal"]
                               && !Registered(d.signal)
    ensures d.DropNotImplemented? ==> WellFormed(request) && request.value.fields["signal"] == Str(d.name)
                                      && d.name in Api.Signals && d.name !in emitters
    ensures d.Emit? || d.WrongArity? <==> WellFormed(request) && Registered(request.value.fields["signal"])
                                          && request.value.fields["signal"].s in emitters
    ensures d.Emit? || d.WrongArity? ==>
              request.value.fields["signal"] == Str(d.call.signal)
              && (d.call.EmitNoArgs? <==> request.value.fields["data"] == Null)
              && (d.call.EmitWith? ==> d.call.data == request.value.fields["data"])
              && (d.Emit? <==> ArityMatches(d.call, emitters))
  {
    if !WellFormed(request) then Malformed
    else
      var signal := request.value.fields["signal"];
      var data := request.value.fields["data"];
      if !Registered(signal) then DropUnknown(signal)
      else if signal.s !in emitters then DropNotImplemented(signal.s)
      else
        var call := if data == Null then EmitNoArgs(signal.s) else EmitWith(signal.s, data);
        if ArityMatches(call, emitters) then Emit(call) else WrongArity(call)
  }

  /** The two outcomes that raise out of `_process_request` and so end `run`. */
  predicate Ends(d: Decision)
  {
    d.Malformed? || d.WrongArity?
  }

  /** The single effect of processing a request after its reply. */
  function Processing(d: Decision): QtEffect
  {
    match d
    case Malformed => Logged(MalformedRequest)
    case DropUnknown(s) => Logged(UnknownSignalReceived(s))
    case DropNotImplemented(n) => Logged(SignalNotImplemented(n))
    case Emit(c) => Emitted(c)
    case WrongArity(c) => EmitRaised(c)
  }

  /** One iteration of `run`'s loop on a received request: receive, reply
      "OK", process. */
  function Iteration(request: Option<Value>, emitters: map<string, nat>): seq<QtEffect>
  {
    [Received(request), Replied("OK"), Processing(Decide(request, emitters))]
  }

  /** A malformed request, or an emit with the wrong number of arguments,
      raises out of `run`, which ends the loop. */
  predicate Crashes(requests: seq<Option<Value>>, emitters: map<string, nat>)
  {
    requests != [] && (Ends(Decide(requests[0], emitters)) || Crashes(requests[1..], emitters))
  }

  /** The number of requests the loop takes, the first one that raises included. */
  function Served(requests: seq<Option<Value>>, emitters: map<string, nat>): (n: nat)
    ensures n <= |requests|
  {
    if requests == [] then 0
    else if Ends(Decide(requests[0], emitters)) then 1
    else 1 + Served(requests[1..], emitters)
  }

  /** The effects of the loop on a run of requests. */
  function ServeEffects(requests: seq<Option<Value>>, emitters: map<string, nat>): seq<QtEffect>
  {
    if requests == [] then []
    else Iteration(requests[0], emitters)
         + (if Ends(Decide(requests[0], emitters)) then [] else ServeEffects(requests[1..], emitters))
  }

  /** The loop's trace is one block per request taken: the receipt, then
      the "OK" reply, then the one effect of processing it; so every request
      is acknowledged before it is processed, and each causes at most one emit. */
  lemma {:induction false} ServeEffectsAt(requests: seq<Option<Value>>, emitters: map<string, nat>, j: nat)
    requires j < Served(requests, emitters)
    ensures |ServeEffects(requests, emitters)| == 3 * Served(requests, emitters)
    ensures ServeEffects(requests, emitters)[3 * j] == Received(requests[j])
    ensures ServeEffects(requests, emitters)[3 * j + 1] == Replied("OK")
    ensures ServeEffects(requests, emitters)[3 * j + 2] == Processing(Decide(requests[j], emitters))
  {
    ServeLength(requests, emitters);
    if j > 0 {
      var rest := requests[1..];
      ServeEffectsAt(rest, emitters, j - 1);
      BlockShift(ServeEffects(requests, emitters), Iteration(requests[0], emitters), ServeEffects(rest, emitters), j);
      assert requests[j] == rest[j - 1];
    }
  }

  /** Behind a leading block of three, block `j` is block `j - 1` of the rest. */
  lemma BlockShift(t: seq<QtEffect>, head: seq<QtEffect>, rest: seq<QtEffect>, j: nat)
    requires 0 < j && |head| == 3 && t == head + rest && 3 * j - 1 < |rest|
    ensures t[3 * j] == rest[3 * (j - 1)] && t[3 * j + 1] == rest[3 * (j - 1) + 1] && t[3 * j + 2] == rest[3 * (j - 1) + 2]
  {
  }

  /** The loop takes requests up to and including the first one that
      raises, and all of them when none does. */
  lemma {:induction false} ServedStopsAtFirstRaise(requests: seq<Option<Value>>, emitters: map<string, nat>)
    ensures var n := Served(requests, emitters);
            (forall j :: 0 <= j < n - 1 ==> !Ends(Decide(requests[j], emitters)))
            && (n < |requests| ==> n > 0 && Ends(Decide(requests[n - 1], emitters)))
            && (Crashes(requests, emitters) <==> n > 0 && Ends(Decide(requests[n - 1], emitters)))
  {
    if requests != [] && !Ends(Decide(requests[0], emitters)) {
      var rest := requests[1..];
      ServedStopsAtFirstRaise(rest, emitters);
      var n := Served(requests, emitters);
      assert n == 1 + Served(rest, emitters);
      forall j | 0 <= j < n - 1
        ensures !Ends(Decide(requests[j], emitters))
      {
        if j > 0 {
          assert requests[j] == rest[j - 1];
        }
      }
      if n > 1 {
        assert requests[n - 1] == rest[n - 2];
      }
    }
  }

  lemma {:induction false} ServeLength(requests: seq<Option<Value>>, emitters: map<string, nat>)
    ensures |ServeEffects(requests, emitters)| == 3 * Served(requests, emitters)
  {
    if requests != [] && !Ends(Decide(requests[0], emitters)) {
      ServeLength(requests[1..], emitters);
    }
  }

  /** Only registered names that have an emitter are ever emitted. */
  lemma {:induction false} OnlyImplementedSignalsEmitted(requests: seq<Option<Value>>, emitters: map<string, nat>)
    ensures forall e :: e in ServeEffects(requests, emitters) && e.Emitted? ==>
              e.call.signal in Api.Signals && ArityMatches(e.call, emitters)
  {
    if requests != [] {
      var d := Decide(requests[0], emitters);
      if !Ends(d) {
        OnlyImplementedSignalsEmitted(requests[1..], emitters);
      }
    }
  }

  lemma {:induction false} ServeSnoc(requests: seq<Option<Value>>, r: Option<Value>, emitters: map<string, nat>)
    requires !Crashes(requests, emitters)
    ensures ServeEffects(requests + [r], emitters) == ServeEffects(requests, emitters) + Iteration(r, emitters)
    ensures Crashes(requests + [r], emitters) == Ends(Decide(r, emitters))
  {
    if requests == [] {
      assert [] + [r] == [r];
    } else {
      assert (requests + [r])[1..] == requests[1..] + [r];
      ServeSnoc(requests[1..], r, emitters);
    }
  }

  lemma {:induction false} ServeAfterCrash(requests: seq<Option<Value>>, rest: seq<Option<Value>>, emitters: map<string, nat>)
    requires Crashes(requests, emitters)
    ensures ServeEffects(requests + rest, emitters) == ServeEffects(requests, emitters)
    ensures Crashes(requests + rest, emitters)
  {
    assert (requests + rest)[0] == requests[0];
    if !Ends(Decide(requests[0], emitters)) {
      assert (requests + rest)[1..] == requests[1..] + rest;
      ServeAfterCrash(requests[1..], rest, emitters);
    }
  }

  /** The GUI signals `DemoSignalerQt` declares, with the number of
      arguments each takes. */
  const DemoSignals: map<string, nat> :=
    map["add_result" := 1, "reset_ok" := 0, "stored_data" := 1, "blocking_method_ok" := 0, "twice_signal" := 0]

  /** On `DemoSignalerQt`, a payload sent to a signal declared without
      arguments makes the emit raise, and so does None sent to one that
      takes an argument. */
  lemma DemoArityMismatchRaises()
    ensures Decide(Some(Obj(map["signal" := Str("reset_ok"), "data" := Int(1)])), DemoSignals)
            == WrongArity(EmitWith("reset_ok", Int(1)))
    ensures Decide(Some(Obj(map["signal" := Str("add_result"), "data" := Null])), DemoSignals)
            == WrongArity(EmitNoArgs("add_result"))
  {
    var f := map["signal" := Str("reset_ok"), "data" := Int(1)];
    assert f["signal"] == Str("reset_ok") && f["data"] == Int(1);
    var g := map["signal" := Str("add_result"), "data" := Null];
    assert g["signal"] == Str("add_result") && g["data"] == Null;
  }

  /** `DemoSignalerQt` declares an emitter for every registered name, so a
      registered name never takes the "not implemented" path. */
  lemma DemoImplementsEverySignal(request: Option<Value>)
    ensures forall s :: s in Api.Signals <==> s in DemoSignals
    ensures !Decide(request, DemoSignals).DropNotImplemented?
  {
  }

  class SignalerQt {
    /** The names of the emitter attributes the sink declares. */
    const emitters: map<string, nat>
    /** `_stop`. */
    var stopFlag: bool
    /** True once `run` has left its loop, either seeing `_stop` or by a
        re-raised error. */
    var loopExited: bool
    var trace: seq<QtEffect>

    constructor (emitters: map<string, nat>)
      ensures this.emitters == emitters && !stopFlag && !loopExited && trace == []
    {
      this.emitters := emitters;
      stopFlag, loopExited, trace := false, false, [];
    }

    /** `stop`: sets `_stop`; the loop checks it before its next receive. */
    method Stop()
      modifies this
      ensures stopFlag && loopExited == old(loopExited) && trace == old(trace)
    {
      stopFlag := true;
    }

    /** One turn of `run`'s loop: with `_stop` set the loop ends without
        receiving; otherwise the request is received, answered "OK" and then
        processed, and one that raises ends the loop. */
    method ServeOne(request: Option<Value>) returns (received: bool)
      modifies this
      ensures stopFlag == old(stopFlag)
      ensures received <==> !old(loopExited) && !old(stopFlag)
      ensures !received ==> trace == old(trace) && loopExited
      ensures received ==> trace == old(trace) + Iteration(request, emitters)
                           && loopExited == Ends(Decide(request, emitters))
    {
      if loopExited {
        return false;
      }
      if stopFlag {
        loopExited := true;
        return false;
      }
      trace := trace + [Received(request), Replied("OK")];
      var d := Decide(request, emitters);
      trace := trace + [Processing(d)];
      loopExited := Ends(d);
      received := true;
    }

    /** `run` on the given incoming requests: takes them in order until one
        raises (that one included); stops at once when `_stop` is set. */
    method Serve(requests: seq<Option<Value>>) returns (consumed: nat)
      modifies this
      ensures stopFlag == old(stopFlag)
      ensures old(loopExited) || old(stopFlag) ==> consumed == 0 && trace == old(trace) && loopExited
      ensures !old(loopExited) && !old(stopFlag) ==>
                consumed == Served(requests, emitters)
                && trace == old(trace) + ServeEffects(requests, emitters)
                && loopExited == Crashes(requests, emitters)
    {
      if loopExited || stopFlag {
        var _ := ServeOne(if requests == [] then None else requests[0]);
        return 0;
      }
      var i := 0;
      while i < |requests| && !loopExited
        invariant 0 <= i <= |requests| && !stopFlag
        invariant trace == old(trace) + ServeEffects(requests[..i], emitters)
        invariant loopExited == Crashes(requests[..i], emitters)
        invariant Served(requests[..i], emitters) == i
      {
        ghost var before := trace;
        var _ := ServeOne(requests[i]);
        ServeLoopStep(old(trace), before, trace, requests, i, emitters, loopExited);
        i := i + 1;
      }
      ServeLoopDone(requests, i, emitters);
      consumed := i;
    }
  }

  /** One turn of `Serve`'s loop extends its trace, its crash flag and its
      count from the requests taken to the next one. */
  lemma ServeLoopStep(t0: seq<QtEffect>, before: seq<QtEffect>, after: seq<QtEffect>,
                      requests: seq<Option<Value>>, i: nat, emitters: map<string, nat>, exited: bool)
    requires i < |requests| && !Crashes(requests[..i], emitters) && Served(requests[..i], emitters) == i
    requires before == t0 + ServeEffects(requests[..i], emitters)
    requires after == before + Iteration(requests[i], emitters)
    requires exited == Ends(Decide(requests[i], emitters))
    ensures after == t0 + ServeEffects(requests[..i + 1], emitters)
    ensures exited == Crashes(requests[..i + 1], emitters) && Served(requests[..i + 1], emitters) == i + 1
  {
    var done, r := requests[..i], requests[i];
    assert requests[..i + 1] == done + [r];
    ServeSnoc(done, r, emitters);
    ServedSnoc(done, r, emitters);
    assert after == t0 + (ServeEffects(done, emitters) + Iteration(r, emitters));
  }

  /** When `Serve`'s loop ends, the requests it took account for the whole run. */
  lemma ServeLoopDone(requests: seq<Option<Value>>, i: nat, emitters: map<string, nat>)
    requires i <= |requests| && (i < |requests| ==> Crashes(requests[..i], emitters))
    ensures ServeEffects(requests, emitters) == ServeEffects(requests[..i], emitters)
    ensures Crashes(requests, emitters) == Crashes(requests[..i], emitters)
    ensures Served(requests, emitters) == Served(requests[..i], emitters)
  {
    if i < |requests| {
      assert requests == requests[..i] + requests[i..];
      ServeAfterCrash(requests[..i], requests[i..], emitters);
      ServedAfterCrash(requests[..i], requests[i..], emitters);
    } else {
      assert requests[..i] == requests;
    }
  }

  lemma {:induction false} ServedSnoc(requests: seq<Option<Value>>, r: Option<Value>, emitters: map<string, nat>)
    requires !Crashes(requests, emitters) && Served(requests, emitters) == |requests|
    ensures Served(requests + [r], emitters) == |requests| + 1
  {
    if requests != [] {
      assert (requests + [r])[1..] == requests[1..] + [r];
      ServedSnoc(requests[1..], r, emitters);
    }
  }

  lemma {:induction false} ServedAfterCrash(requests: seq<Option<Value>>, rest: seq<Option<Value>>, emitters: map<string, nat>)
    requires Crashes(requests, emitters)
    ensures Served(requests + rest, emitters) == Served(requests, emitters)
  {
    assert (requests + rest)[0] == requests[0];
    if !Ends(Decide(requests[0], emitters)) {
      assert (requests + rest)[1..] == requests[1..] + rest;
      ServedAfterCrash(requests[1..], rest, emitters);
    }
  }
}
