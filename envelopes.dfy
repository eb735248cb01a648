/** The messages of the bridge and the checks made before one is queued:
    the call envelope `{api_method, arguments}` built by both backend
    proxies, the event envelope `{signal, data}` built by both signalers,
    the errors these raise to their caller, and the dynamic attribute
    lookup that turns a registry name into a member. */
module Envelopes {
  import opened Values
  import Api

  /** `{'api_method': ..., 'arguments': ...}`; the method is whatever value
      the caller passed under the `api_method` keyword. */
  datatype CallEnvelope = CallEnvelope(apiMethod: Value, arguments: map<string, Value>)

  /** `{'signal': ..., 'data': ...}`. */
  datatype EventEnvelope = EventEnvelope(signal: string, data: Value)

  /** Exceptions raised synchronously to the caller. */
  datatype Error =
    | PositionalArguments      // "All arguments need to be kwargs!"
    | MissingMethodName        // "Missing argument, no method name specified."
    | NotSerializable          // the JSON encoder refused the envelope
    | UnknownSignal(name: string)
    | ThreadAlreadyStarted     // a worker thread can only be started once

  const MethodKey: string := "api_method"

  /** The JSON document an envelope is encoded as. */
  function CallToJson(env: CallEnvelope): Value
  {
    Obj(map["api_method" := env.apiMethod, "arguments" := Obj(env.arguments)])
  }

  function EventToJson(e: EventEnvelope): Value
  {
    Obj(map["signal" := Str(e.signal), "data" := e.data])
  }

  /** A call envelope can be encoded exactly when its method value and every
      argument can. */
  lemma CallEncodable(env: CallEnvelope)
    ensures Serializable(CallToJson(env)) <==> Serializable(env.apiMethod) && AllSerializable(env.arguments)
  {
    var f := map["api_method" := env.apiMethod, "arguments" := Obj(env.arguments)];
    assert f["api_method"] == env.apiMethod && f["arguments"] == Obj(env.arguments);
  }

  lemma EventEncodable(e: EventEnvelope)
    ensures Serializable(EventToJson(e)) <==> Serializable(e.data)
  {
    var f := map["signal" := Str(e.signal), "data" := e.data];
    assert f["signal"] == Str(e.signal) && f["data"] == e.data;
  }

  /** Pops `api_method` from the keyword arguments, wraps the rest as the
      call's arguments and checks that the result can be encoded. */
  function BuildRequest(kwargs: map<string, Value>): (r: Result<CallEnvelope, Error>)
    ensures r == Err(MissingMethodName) <==> MethodKey !in kwargs || kwargs[MethodKey] == Null
    ensures r.Err? ==> r.error == MissingMethodName || r.error == NotSerializable
    ensures r.Ok? ==> MethodKey in kwargs && r.value.apiMethod == kwargs[MethodKey] != Null
    ensures r.Ok? ==> MethodKey !in r.value.arguments
                      && forall k :: k in kwargs && k != MethodKey ==> k in r.value.arguments && r.value.arguments[k] == kwargs[k]
    ensures r.Ok? ==> r.value.arguments.Keys == kwargs.Keys - {MethodKey}
    ensures r.Ok? <==> MethodKey in kwargs && kwargs[MethodKey] != Null && AllSerializable(kwargs)
  {
    var name := if MethodKey in kwargs then kwargs[MethodKey] else Null;
    if name == Null then Err(MissingMethodName)
    else
      var env := CallEnvelope(name, kwargs - {MethodKey});
      CallEncodable(env);
      if Serializable(CallToJson(env)) then Ok(env) else Err(NotSerializable)
  }

  /** No keyword argument is lost: restoring the popped method name gives
      back exactly the keyword arguments of the call. */
  lemma {:induction false} RequestKeepsArguments(kwargs: map<string, Value>)
    requires BuildRequest(kwargs).Ok?
    ensures var env := BuildRequest(kwargs).value; env.arguments[MethodKey := env.apiMethod] == kwargs
  {
    var env := BuildRequest(kwargs).value;
    var m := env.arguments[MethodKey := env.apiMethod];
    assert m.Keys == kwargs.Keys;
    forall k | k in m ensures m[k] == kwargs[k] {
    }
  }

  /** Validates a signal name and builds its envelope; `data` is `Null` when
      the caller leaves it out. */
  function BuildSignal(name: string, data: Value): (r: Result<EventEnvelope, Error>)
    ensures name !in Api.Signals ==> r == Err(UnknownSignal(name))
    ensures name in Api.Signals && !Serializable(data) ==> r == Err(NotSerializable)
    ensures r.Ok? <==> name in Api.Signals && Serializable(data)
    ensures r.Ok? ==> r.value.signal == name && r.value.data == data
  {
    if name !in Api.Signals then Err(UnknownSignal(name))
    else
      var e := EventEnvelope(name, data);
      EventEncodable(e);
      if Serializable(EventToJson(e)) then Ok(e) else Err(NotSerializable)
  }

  /** What attribute access on a backend proxy yields: a caller with
      `api_method` fixed to the name, or Python's ordinary lookup. */
  datatype ProxyAttribute = ApiCaller(apiMethod: string) | OrdinaryProxyAttribute(name: string)

  function ProxyAttributeOf(name: string): (a: ProxyAttribute)
    ensures a.ApiCaller? <==> name in Api.Methods
    ensures a == ApiCaller(name) || a == OrdinaryProxyAttribute(name)
  {
    if name in Api.Methods then ApiCaller(name) else OrdinaryProxyAttribute(name)
  }

  /** The keyword arguments the bound caller passes on: the fixed
      `api_method` merged with the call's own keywords (the call's win). */
  function BoundKwargs(apiMethod: string, kwargs: map<string, Value>): (b: map<string, Value>)
    ensures b.Keys == kwargs.Keys + {MethodKey}
    ensures forall k :: k in kwargs ==> b[k] == kwargs[k]
    ensures MethodKey !in kwargs ==> b[MethodKey] == Str(apiMethod)
  {
    map[MethodKey := Str(apiMethod)] + kwargs
  }

  /** Calling the attribute of a registered name without an `api_method`
      keyword of its own names that method, and carries all the call's
      keywords as arguments. */
  lemma BoundCallNamesMethod(name: string, kwargs: map<string, Value>)
    requires ProxyAttributeOf(name).ApiCaller?
    requires MethodKey !in kwargs
    ensures var r := BuildRequest(BoundKwargs(ProxyAttributeOf(name).apiMethod, kwargs));
            (r.Ok? <==> AllSerializable(kwargs))
            && (r.Ok? ==> r.value == CallEnvelope(Str(name), kwargs))
  {
    var b := BoundKwargs(name, kwargs);
    assert b[MethodKey] == Str(name);
    assert b - {MethodKey} == kwargs;
    assert AllSerializable(b) <==> AllSerializable(kwargs) by {
      if AllSerializable(kwargs) {
        forall k | k in b ensures Serializable(b[k]) {
          if k != MethodKey { assert b[k] == kwargs[k]; }
        }
      }
      if AllSerializable(b) {
        forall k | k in kwargs ensures Serializable(kwargs[k]) {
          assert b[k] == kwargs[k];
        }
      }
    }
  }

  /** What attribute access on a signaler yields: the name itself for a
      registered signal, otherwise Python's ordinary lookup. */
  datatype SignalAttribute = SignalName(name: string) | OrdinarySignalAttribute(name: string)

  function SignalAttributeOf(name: string): (a: SignalAttribute)
    ensures a.SignalName? <==> name in Api.Signals
    ensures a.name == name
  {
    if name in Api.Signals then SignalName(name) else OrdinarySignalAttribute(name)
  }

  /** `signal(S.x, data)` for a registered `x` passes the name check, so it
      fails only if the payload cannot be encoded. */
  lemma SignalByAttribute(name: string, data: Value)
    requires SignalAttributeOf(name).SignalName?
    ensures BuildSignal(SignalAttributeOf(name).name, data).Ok? <==> Serializable(data)
  {
  }
}
