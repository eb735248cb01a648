# GUI ↔ backend message bridge, modelled in Dafny

The bridge connects a GUI process to a backend process over two lock-step
request/reply channels.

- **Call channel.** The GUI-side *backend proxy* turns an attribute call
  such as `proxy.add(a=2, b=2)` into a call envelope `{api_method, arguments}`
  and sends it to the backend. The queued proxy (`base/backend_proxy.py`) puts
  it on a FIFO queue, and one worker sends the queue in order until it takes
  the stop sentinel. The earlier synchronous proxy (`backend_proxy.py`) sends
  at once.
- **Event channel.** The backend-side *signaler* turns `signal(name, data)`
  into an event envelope `{signal, data}`, queues it, and a worker sends the
  queue in order while its run flag is set (`base/signaler.py`,
  `signaler.py`). The GUI-side sink (`signaler_qt.py`) acknowledges every
  request with "OK" and then emits the Qt signal of that name, with or
  without the payload.
- **Registries** (`api.py`). The names that may be called and the names that
  may be signalled.
- **Demo handlers** (`demo_backend.py`). Each API method computes a payload
  and makes exactly one `signal` call.
- **Prototype router** (`backend.py`). An older server that answers each raw
  message "OK" and then maps it to a signal request.

How the model represents each part:

- **Sockets.** A sender's observable behaviour is a trace of `Effect`s: sends,
  polls, receives, time-outs, and the log entries at warning level and above.
- **What the peer does.** This is an input. A polling sender sees `poll(i)`
  at its i-th poll, and `net(k)` is the poll outcome function of the k-th
  round trip. A single-receive sender sees `replies(k)`.
- **JSON documents.** They are the `Value` datatype. `Opaque` stands for a
  Python object the encoder refuses. A text that does not parse is `None`.
- **Worker threads.** Each becomes a sequential `Drain` method, and a server
  loop becomes `Serve` over the requests it receives.

Where the code and the system's design description disagree, the model
follows the code:

- Neither proxy checks `api_method` against `API`. Any non-`None` name is
  queued or sent.
- The prototype router checks messages against its own two-name list, not
  against the registry.
- There is no heartbeat, liveness flag, in-flight tracking or
  RUNNING→STOPPING→STOPPED shutdown in the code, so none is modelled.

Modules, one per source file, plus four shared ones:

| module | file | models |
|---|---|---|
| `Api` | api.dfy | `api.py` |
| `Values` | values.dfy | JSON values, Python `+` |
| `Envelopes` | envelopes.dfy | envelope building and the `__getattribute__` lookups, which are identical in the proxies and in the signalers |
| `Transport` | transport.dfy | the send/poll/receive round trips |
| `BaseBackendProxy` | base_backend_proxy.dfy | `base/backend_proxy.py` |
| `BackendProxy` | backend_proxy.dfy | `backend_proxy.py` |
| `BaseSignaler` | base_signaler.dfy | `base/signaler.py` |
| `Signaler` | signaler.dfy | `signaler.py` |
| `SignalerQt` | signaler_qt.dfy | `signaler_qt.py` |
| `DemoBackend` | demo_backend.dfy | `demo_backend.py` |
| `Backend` | backend.dfy | `backend.py` |

## Model

| member | source | states |
|---|---|---|
| Api.MethodsAreSixDistinctNames | api.py:7-15 | the callable-method registry holds six pairwise-distinct names |
| Api.SignalsAreFiveDistinctNames | api.py:18-24 | the signal registry holds five pairwise-distinct names |
| Api.RegistriesDisjoint | api.py:7-24 | no name is in both registries |
| Api.AddIsRegistered | api.py:8-19 | `add` is a callable method and `add_result` a signal |
| Values.Plus | demo_backend.py:35 | Python `+`: numeric sum (booleans count as 0/1), string and list concatenation, and a TypeError (`None`) for every other pairing |
| Values.PlusPreservesSerializable | demo_backend.py:35 | the sum of two encodable values is encodable |
| Envelopes.CallToJson | base/backend_proxy.py:90-93 | the request dict `{api_method, arguments}`; Envelopes.CallEncodable states when it encodes |
| Envelopes.EventToJson | base/signaler.py:80-83 | the request dict `{signal, data}`; Envelopes.EventEncodable states when it encodes, and DemoBackend.HandlerReachesGui that the sink reads back its fields |
| Envelopes.CallEncodable | base/backend_proxy.py:90-102 | a call envelope encodes exactly when its method value and every argument do |
| Envelopes.EventEncodable | base/signaler.py:80-92 | an event envelope encodes exactly when its payload does |
| Envelopes.BuildRequest | base/backend_proxy.py:86-102 | a missing or `None` `api_method` raises "Missing argument"; otherwise the envelope carries that method and the kwargs minus `api_method`; it fails to encode exactly when some kwarg is unencodable |
| Envelopes.RequestKeepsArguments | backend_proxy.py:38-45 | putting the popped `api_method` back into the arguments gives exactly the call's kwargs |
| Envelopes.BuildSignal | base/signaler.py:77-92 | an unregistered name raises "Unknown signal" before encoding is tried; otherwise the envelope is `{signal: name, data: data}`, and it fails exactly when the data is unencodable |
| Envelopes.ProxyAttributeOf | base/backend_proxy.py:159-162 | a registered method name yields a caller bound to that name; any other name uses ordinary lookup |
| Envelopes.BoundKwargs | base/backend_proxy.py:160 | the bound caller's keywords: every keyword of the call, plus `api_method`, which is the bound name unless the call passes its own |
| Envelopes.BoundCallNamesMethod | backend_proxy.py:80-83 | calling a registered name's attribute, when the call passes no `api_method` of its own, builds an envelope naming that method, with all the call's kwargs as arguments |
| Envelopes.SignalAttributeOf | signaler.py:60-63 | a registered signal name yields the name itself; any other name uses ordinary lookup |
| Envelopes.SignalByAttribute | base/signaler.py:65-78 | signalling by a registered attribute never fails the name check |
| Transport.MaxPolls | base/backend_proxy.py:134-139 | the poll loop polls at least once, and exactly `POLL_TRIES` times at most when `POLL_TRIES` is positive |
| Transport.PollLoop | base/backend_proxy.py:125-139 | the poll loop's effects from a given poll on; its properties are stated by Transport.PollLoopFacts and Transport.PollLoopSendsNothing |
| Transport.FirstReply | base/backend_proxy.py:125-139 | the reply the poll loop ends with, if any; Transport.PollLoopFacts ties it to the last poll |
| Transport.PollForReply | base/backend_proxy.py:125-139 | polls until the first reply, at most `MaxPolls` times; all earlier polls timed out; no reply only when every poll timed out; the effects are the retry-warning trace `PollLoop` |
| Transport.PollLoopFacts | base/backend_proxy.py:125-139 | from any poll on, the loop polls at least once and at most the remaining number of times, every poll but its last timed out, its reply is what the last poll found, and it ends without one only after the last allowed poll |
| Transport.PollLoopSendsNothing | base/backend_proxy.py:128-139 | the poll loop never sends |
| Transport.RoundTrip | base/backend_proxy.py:119-146 | one send, the poll loop, then a critical log entry when no reply came; Transport.RoundTripSendsOnce states that it sends exactly its message once |
| Transport.RoundTripSendsOnce | base/backend_proxy.py:119-143 | a polling round trip sends exactly its own message, once |
| Transport.RoundTripsSendInOrder | base/backend_proxy.py:58-69 | consecutive round trips send exactly their messages, in order |
| Transport.SingleRoundTrip | signaler.py:119-138 | one send is followed by exactly one receive; a time-out is logged, not raised |
| Transport.SingleRoundTripsSendInOrder | signaler.py:96-102 | consecutive single-receive round trips send exactly their messages, in order |
| BaseBackendProxy.Enqueued | base/backend_proxy.py:104-108 | a call queues its envelope, followed by the sentinel exactly when it is the stop call |
| BaseBackendProxy.PendingSends | base/backend_proxy.py:58-66 | the envelopes ahead of the first sentinel, in queue order; BaseBackendProxy.QueueSplitsAtSentinel and BaseBackendProxy.BackendProxy.Drain state that these are exactly what is sent |
| BaseBackendProxy.AfterSentinel | base/backend_proxy.py:58-66 | what is left once the worker has taken the first sentinel; BaseBackendProxy.BackendProxy.Drain states that this is the queue it leaves |
| BaseBackendProxy.QueueSplitsAtSentinel | base/backend_proxy.py:58-69 | a queue is the envelopes the worker will send, then the first sentinel, then items never sent |
| BaseBackendProxy.QueuedAfterStopNeverSent | base/backend_proxy.py:63-64 | items queued behind a sentinel change nothing about what is sent |
| BaseBackendProxy.PendingExtends | base/backend_proxy.py:104-105 | before any stop, a queued call is the last envelope that will be sent |
| BaseBackendProxy.StopCallIsLastSend | base/backend_proxy.py:104-108 | the stop call is the last envelope sent, and the worker leaves the queue empty |
| BaseBackendProxy.BackendProxy.constructor | base/backend_proxy.py:28-52 | the queue and the trace are empty and the worker is running |
| BaseBackendProxy.BackendProxy.ApiCall | base/backend_proxy.py:73-108 | positional arguments raise; a missing method raises; an unencodable envelope is logged and re-raised; none of these queues anything; otherwise the queue grows by `Enqueued` and nothing is sent |
| BaseBackendProxy.BackendProxy.SendRequest | base/backend_proxy.py:110-146 | one send, the bounded poll loop, and a critical log entry when no reply came |
| BaseBackendProxy.BackendProxy.WorkerStep | base/backend_proxy.py:58-69 | an empty queue changes nothing; the sentinel ends the worker without sending; an envelope is sent with one round trip |
| BaseBackendProxy.BackendProxy.Drain | base/backend_proxy.py:54-71 | the worker sends exactly the envelopes ahead of the first sentinel, in queue order; it is left alive exactly when there was no sentinel; the queue is what was behind the sentinel |
| BaseBackendProxy.DrainSendsPendingInOrder | base/backend_proxy.py:58-69 | the messages sent are the pending envelopes, each once and in order |
| BaseBackendProxy.QueueThreeCalls | base/backend_proxy.py:73-108 | after a call, the stop call and a later call, the queue is the two envelopes, the sentinel, then what the later call queued |
| BaseBackendProxy.StopCutsOffLaterCalls | base/backend_proxy.py:58-108 | after draining, only the first call and the stop call were sent, in that order; the worker has stopped and the later call is still queued |
| BackendProxy.BackendProxy.constructor | backend_proxy.py:20-29 | nothing sent yet |
| BackendProxy.BackendProxy.ApiCall | backend_proxy.py:31-67 | a missing method raises and sends nothing; an unencodable envelope is logged and re-raised before any send; otherwise exactly one send then one receive, and a time-out is logged while the call still returns normally |
| BaseSignaler.Signaler.constructor | base/signaler.py:26-52 | empty queue, run flag clear, thread not started |
| BaseSignaler.Signaler.Signal | base/signaler.py:70-95 | an unknown name or unencodable data queues nothing (the latter is logged); otherwise exactly one `{signal, data}` envelope is queued, with data defaulting to `None`, whatever the run flag |
| BaseSignaler.Signaler.Start | base/signaler.py:111-116 | sets the run flag; starts the thread, and a second start raises |
| BaseSignaler.Signaler.Stop | base/signaler.py:118-122 | clears the run flag and nothing else |
| BaseSignaler.Signaler.SendRequest | base/signaler.py:124-160 | one send followed by the bounded poll loop; no reply is logged |
| BaseSignaler.Signaler.WorkerStep | base/signaler.py:101-107 | the flag is checked first; a cleared flag finishes the thread; otherwise the head of the queue, if any, is sent |
| BaseSignaler.Signaler.Drain | base/signaler.py:97-109 | with the flag set, the whole queue is sent in order; with it cleared, the thread finishes and nothing is sent |
| BaseSignaler.SignalAll | base/signaler.py:70-95 | signalling any run of valid envelopes, one `signal` call each, grows the queue by exactly that run and sends nothing |
| BaseSignaler.SignalledBeforeStart | base/signaler.py:95-116 | any envelopes signalled before `start` are all sent once it runs, each once and in signalling order, and the queue is left empty |
| BaseSignaler.StoppedWorkerSendsNothing | base/signaler.py:101-122 | whatever is queued when `stop` clears the flag, the worker finishes without sending any of it, and the queue is left as it was |
| Signaler.Signaler.constructor | signaler.py:22-47 | empty queue, run flag False, thread not started |
| Signaler.Signaler.Signal | signaler.py:65-90 | as in the polling signaler: an unknown name or unencodable data queues nothing; otherwise exactly one envelope is queued |
| Signaler.Signaler.Start | signaler.py:106-111 | sets the run flag True; a second start raises |
| Signaler.Signaler.Stop | signaler.py:113-117 | sets the run flag False |
| Signaler.Signaler.SendRequest | signaler.py:119-138 | one send and one receive; a time-out is logged and not propagated |
| Signaler.Signaler.WorkerStep | signaler.py:96-102 | the flag is checked first; otherwise the head of the queue, if any, is sent |
| Signaler.Signaler.Drain | signaler.py:92-104 | while the flag is True the whole queue is sent in FIFO order; with it False nothing is sent |
| SignalerQt.Decide | signaler_qt.py:60-92 | fatal exactly when the text is not JSON or lacks `signal`/`data`; drops unregistered names and names with no emitter; otherwise one emit of that name, with no argument exactly when data is `None`, else with exactly the data, and the emit raises exactly when the declared signal takes another number of arguments |
| SignalerQt.Served | signaler_qt.py:47-52 | the loop takes at most the requests it is given |
| SignalerQt.ServedStopsAtFirstRaise | signaler_qt.py:47-52 | the loop takes every request up to and including the first one that raises (malformed, or an emit with the wrong number of arguments), all of them when none does, and it crashed exactly when the last one taken raised |
| SignalerQt.ServeEffectsAt | signaler_qt.py:47-52 | for each request taken: receipt, then the "OK" reply, then the single effect of processing it, so at most one emit per request |
| SignalerQt.OnlyImplementedSignalsEmitted | signaler_qt.py:78-92 | only registered names that have an emitter are emitted, and always with the number of arguments that emitter declares |
| SignalerQt.DemoArityMismatchRaises | signaler_qt.py:89-105 | on `DemoSignalerQt`, data sent to `reset_ok` and `None` sent to `add_result` make the emit raise |
| SignalerQt.DemoImplementsEverySignal | signaler_qt.py:95-107 | `DemoSignalerQt` declares every registered signal, so none takes the "not implemented" path |
| SignalerQt.SignalerQt.constructor | signaler_qt.py:21-23 | `_stop` is False |
| SignalerQt.SignalerQt.Stop | signaler_qt.py:54-58 | sets `_stop` and nothing else |
| SignalerQt.SignalerQt.ServeOne | signaler_qt.py:47-92 | with `_stop` set the loop ends without receiving; otherwise receive, reply "OK", then process; a malformed request or an emit with the wrong number of arguments ends the loop |
| SignalerQt.SignalerQt.Serve | signaler_qt.py:25-92 | the loop's trace is `ServeEffects` of the requests, up to and including the first one that raises, which ends it; with `_stop` set no request is received |
| DemoBackend.HandlerName | demo_backend.py:19-64 | each handler implements one of the demo's method names |
| DemoBackend.HandlerNameOneToOne | demo_backend.py:19-64 | two handler calls implement the same method exactly when they are of the same kind |
| DemoBackend.HandlerNameOnto | demo_backend.py:19-64 | every method the demo defines is implemented by some handler call |
| DemoBackend.Payload | demo_backend.py:19-64 | a handler raises only for an `a+b` TypeError, non-unicode `data` or a delay `sleep` refuses; each signalled name is registered and declared by the demo sink with the arity of its payload; `add` signals `a+b` |
| DemoBackend.EveryApiMethodHandled | demo_backend.py:14-17 | every API name has a handler and every handler is an API name; every API name is implemented by some handler call |
| DemoBackend.HandlerSignalSucceeds | demo_backend.py:19-64 | handlers' `signal` calls never raise "Unknown signal", and succeed on encodable inputs |
| DemoBackend.HandlerReachesGui | demo_backend.py:19-64 | what a handler queues, delivered to the demo sink, is emitted on the same name with its payload and the declared arity |
| DemoBackend.AddTwoAndTwo | demo_backend.py:26-35 | `add(2, 2)` makes the GUI's `add_result` fire with 4 |
| DemoBackend.DemoBackend.constructor | backend.py:24-25 | the backend owns a fresh, idle signaler whose thread has not been started, so its first `start` succeeds |
| DemoBackend.DemoBackend.Signal | demo_backend.py:19-64 | a handler either raises before signalling or makes exactly one `signal` call with its payload |
| DemoBackend.DemoBackend.ResetHandler | demo_backend.py:19-24 | queues exactly one `reset_ok` with no data |
| DemoBackend.DemoBackend.AddHandler | demo_backend.py:26-35 | queues exactly one `add_result` with `a+b`; operands `+` rejects raise and queue nothing |
| DemoBackend.DemoBackend.GetStoredDataHandler | demo_backend.py:37-41 | queues exactly one `stored_data` with 'Lorem Data' |
| DemoBackend.DemoBackend.BlockingMethodHandler | demo_backend.py:43-58 | non-unicode `data` raises, and so does a delay `sleep` refuses; otherwise exactly one `blocking_method_ok` with no data is queued (the delay itself is not modelled) |
| DemoBackend.DemoBackend.Twice01Handler | demo_backend.py:60-61 | queues exactly one `twice_signal` with no data |
| DemoBackend.DemoBackend.Twice02Handler | demo_backend.py:63-64 | queues exactly one `twice_signal` with no data |
| Backend.ProcessMessage | backend.py:40-45 | the signal requests for one message, in order; Backend.ProcessMessageDecides states what they are |
| Backend.ProcessMessageDecides | backend.py:40-45 | a message outside the prototype's API requests `invalid_api_call`; `test_api_call` requests `api_call_ok`; `demo_api_call` requests nothing; at most one request per message |
| Backend.NeverBoth | backend.py:40-45 | no message requests both signals |
| Backend.PrototypeSignalsUnregistered | backend.py:41-48 | the prototype's signal names are not in the bridge's signal registry |
| Backend.ReplyFollowsEveryReceipt | backend.py:32-38 | every message is received once and answered "OK" immediately, before anything is requested for it |
| Backend.Backend.constructor | backend.py:24-25 | nothing received yet |
| Backend.Backend.ProcessMessageStep | backend.py:40-45 | appends exactly the requests `ProcessMessage` decides |
| Backend.Backend.TestApiCall | backend.py:47-48 | requests `api_call_ok` |
| Backend.Backend.HandleMessage | backend.py:32-38 | one turn: the message is received and answered "OK" before it is processed |
| Backend.Backend.Serve | backend.py:32-38 | the server loop receives, replies "OK", then processes each message, in order |

## Left out

- ZMQ sockets, CURVE key pairs, the authenticator, and bind/connect/socket options. These are foreign I/O. Sends and receives become trace entries, and the peer's behaviour becomes an input.
- The REQ socket's own state machine. After a receive time-out a real REQ socket still waits for the outstanding reply and refuses the next send. This holds for the polling worker and equally for the synchronous proxy (backend_proxy.py:61-67) and the synchronous signaler (signaler.py:132-138). The model lets every sender send again.
- The error that refused send raises. It is a `ZMQError`, and the workers catch only `Queue.Empty` (base/backend_proxy.py:67, base/signaler.py:105, signaler.py:100), so in the source it ends the worker thread for good. In the synchronous proxy it reaches the caller of the next `_api_call`. The model, which sends again, has neither outcome.
- JSON text. `dumps`/`loads` become the `Value` datatype. `Serializable` says what the encoder accepts, and `None` stands for text that does not parse.
- Python 2's `str` and `unicode` are both `Str`. `blocking_method`'s `isinstance(data, unicode)` therefore holds for every decoded string.
- `Values.Plus` takes every `Opaque` operand (an object the encoder refuses) not to support `+`. Some such objects do, for example `complex` values, and their sums are not modelled.
- Floating-point values. `Value` has no float, so `add` on floats and fractional delays are not modelled.
- Threads, `Queue.Queue` locking, `threading.Event`, and every `time.sleep`, including the blocking method's delay. Each worker is a sequential `Drain`, run after the calls that feed it, so interleavings of callers and worker are not modelled.
- The infinite loops. `_worker`, `run` and the prototype server's loop become `Drain` and `Serve` over finite inputs.
- Qt objects. An emit is a trace entry, and the emitters are the declared signal names with the number of arguments each takes. An emit with another number of arguments is the `EmitRaised` entry. Its TypeError ends `run`, as in the source.
- Logging below warning level. The debug messages are not in the traces.
- The keyword-to-parameter binding that calls a handler from a received envelope. It is not in the code, so handlers are methods taking their parameters.
- The dispatch from a received call envelope to a demo handler. `Backend._process_message` never dispatches to handlers; DemoBackend.EveryApiMethodHandled states only that the names match.
- `run_backend` and the prototype's constructor loop. These are process start-up and I/O. `Backend.Backend.Serve` models the loop body.
- The prototype's signal names: the source reads the two names as attributes of the signaler class. signaler.py does not define them, and its `signal` would refuse them as unregistered (Backend.PrototypeSignalsUnregistered). The model records the decision against an abstract signaler, as the names are evidently meant.
- `STOP_REQUEST`'s value. api.py does not define it, so it is the opaque parameter `stopRequest`, and the sentinel is a separate queue item distinct from every encoded envelope.
- DemoBackend.DemoBackend.AddHandler: the case where `a+b` succeeds on lists holding unencodable values is stated only through DemoBackend.DemoBackend.Signal.
- Certificates, logging setup, demo_app.py, app.py, runme.py and demo_signaler_qt.py are not part of this model.
