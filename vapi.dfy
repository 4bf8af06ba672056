/**
 * src/services/vapi.js: the transport state of the voice-assistant call,
 * `ws` and `sessionId`, and the operations that change it. The HTTP request,
 * the WebSocket and its events are modelled by what they do to that state:
 * the `/call` response, and whether `new WebSocket(url)` throws, are
 * parameters; every socket created is kept in `sockets`, `ws` points at one
 * of them, and the library's `open` and `error` events are methods.
 */
module Vapi {
  import opened Wrappers
  import opened JsText
  import opened Errors

  /** `WebSocket.CONNECTING`, `OPEN`, `CLOSING`, `CLOSED` */
  datatype ReadyState = Connecting | Open | Closing | Closed

  datatype Socket = Socket(url: string, readyState: ReadyState)

  /** The events the service emits. */
  datatype Event = OpenEvent | CloseEvent | ErrorEvent(error: Error)

  type Buffer = seq<bv8>

  /** `config.vapi` */
  datatype VapiConfig = VapiConfig(apiKey: Option<string>, assistantId: Option<string>)

  datatype AudioFormat = AudioFormat(format: string, container: string, sampleRate: nat)

  /** The body posted to `/call`. */
  datatype CallRequest = CallRequest(assistantId: string, provider: string, audioFormat: AudioFormat, name: string)

  datatype Transport = Transport(websocketCallUrl: Option<string>)
  datatype Monitor = Monitor(listenUrl: Option<string>)

  /** The fields of `response.data` the service reads. */
  datatype CallResponse = CallResponse(id: Option<string>, transport: Option<Transport>, webCallUrl: Option<string>,
                                       websocketCallUrl: Option<string>, monitor: Option<Monitor>)

  /** What `startCall` resolves with: `{ sessionId }`. */
  datatype CallSession = CallSession(sessionId: Option<string>)

  /**
   * The service's fields, and the traces of what it did: every socket made
   * (`ws` is an index into them), every request posted, every event emitted
   * and every buffer sent, with the socket it went to. `errorListeners`
   * counts the listeners for the service's own 'error' event: the service is
   * an EventEmitter, and no code of the program subscribes to it.
   */
  datatype VapiState = VapiState(ws: Option<nat>, sessionId: Option<string>, sockets: seq<Socket>,
                                 requests: seq<CallRequest>, emitted: seq<Event>, sent: seq<(nat, Buffer)>,
                                 errorListeners: nat)

  const PcmFormat := AudioFormat("pcm_s16le", "raw", 16000)
  const NoUrlText := "No WebSocket URL found in VAPI response"

  /** `a || b` on possibly absent strings: `a` when truthy, else `b`. */
  function OrElse(a: Option<string>, b: Option<string>): Option<string>
  {
    if Truthy(a) then a else b
  }

  /** The four URL fields in the order the `||` chain tries them. */
  function Candidates(call: CallResponse): (c: seq<Option<string>>)
    ensures |c| == 4
  {
    [if call.transport.Some? then call.transport.value.websocketCallUrl else None,
     call.webCallUrl,
     call.websocketCallUrl,
     if call.monitor.Some? then call.monitor.value.listenUrl else None]
  }

  /**
   * The `||` chain: `transport.websocketCallUrl || webCallUrl ||
   * websocketCallUrl || monitor.listenUrl`. When every field is falsy the chain
   * yields its last operand, which is falsy as well.
   */
  function SocketUrl(call: CallResponse): (r: Option<string>)
    ensures Truthy(r) ==> r in Candidates(call)
    ensures !Truthy(r) ==> r == Candidates(call)[3] && forall i :: 0 <= i < 4 ==> !Truthy(Candidates(call)[i])
  {
    var c := Candidates(call);
    OrElse(c[0], OrElse(c[1], OrElse(c[2], c[3])))
  }

  /** The reference: the first truthy element of a list of candidates. */
  function FirstTruthy(c: seq<Option<string>>): (r: Option<string>)
    ensures Truthy(r) ==> r in c
  {
    if |c| == 0 then None
    else if Truthy(c[0]) then c[0]
    else FirstTruthy(c[1..])
  }

  lemma {:induction false} FirstTruthyIsFirst(c: seq<Option<string>>)
    ensures Truthy(FirstTruthy(c)) <==> exists i :: 0 <= i < |c| && Truthy(c[i])
    ensures Truthy(FirstTruthy(c)) ==>
              exists i :: 0 <= i < |c| && c[i] == FirstTruthy(c) && forall j :: 0 <= j < i ==> !Truthy(c[j])
  {
    if |c| > 0 && !Truthy(c[0]) {
      FirstTruthyIsFirst(c[1..]);
      if exists i :: 0 <= i < |c| && Truthy(c[i]) {
        var i :| 0 <= i < |c| && Truthy(c[i]);
        assert c[1..][i - 1] == c[i];
      }
      if Truthy(FirstTruthy(c)) {
        var i :| 0 <= i < |c| - 1 && c[1..][i] == FirstTruthy(c[1..]) && forall j :: 0 <= j < i ==> !Truthy(c[1..][j]);
        assert c[i + 1] == FirstTruthy(c);
        assert forall j :: 0 <= j < i + 1 ==> !Truthy(c[j]) by {
          forall j | 0 <= j < i + 1 ensures !Truthy(c[j]) {
            if j > 0 {
              assert c[j] == c[1..][j - 1];
            }
          }
        }
      }
    } else if |c| > 0 {
      assert c[0] == FirstTruthy(c);
    }
  }

  /** The socket URL is the first truthy candidate, in the order transport, webCallUrl, websocketCallUrl, monitor. */
  lemma {:induction false} SocketUrlIsFirstCandidate(call: CallResponse)
    ensures Truthy(SocketUrl(call)) == Truthy(FirstTruthy(Candidates(call)))
    ensures Truthy(SocketUrl(call)) ==> SocketUrl(call) == FirstTruthy(Candidates(call))
  {
    var c := Candidates(call);
    var c1 := c[1..];
    var c2 := c1[1..];
    var c3 := c2[1..];
    assert c3[1..] == [];
    assert FirstTruthy(c3) == if Truthy(c[3]) then c[3] else None;
    assert FirstTruthy(c2) == if Truthy(c[2]) then c[2] else FirstTruthy(c3);
    assert FirstTruthy(c1) == if Truthy(c[1]) then c[1] else FirstTruthy(c2);
  }

  /** `ws`, when set, names a socket that is not open: the open handler drops `ws` as soon as its socket opens. */
  predicate Valid(s: VapiState)
  {
    s.ws.Some? ==> s.ws.value < |s.sockets| && s.sockets[s.ws.value].readyState != Open
  }

  datatype StartStep = StartStep(result: Result<Option<CallSession>, Error>, state: VapiState)

  /**
   * `startCall(channelId)`: with a credential missing it resolves to null
   * and does nothing; otherwise it posts the request, rethrows a failure,
   * fails without a URL, and then records the session id before connecting.
   */
  function StartOutcome(s: VapiState, cfg: VapiConfig, channelId: string,
                        response: Result<CallResponse, Error>, connect: Result<(), Error>): (r: StartStep)
    ensures r.result == Ok(None) <==> !Truthy(cfg.apiKey) || !Truthy(cfg.assistantId)
    ensures r.state.emitted == s.emitted && r.state.sent == s.sent
    ensures |r.state.sockets| >= |s.sockets| && r.state.sockets[..|s.sockets|] == s.sockets
    ensures r.result.Err? ==> r.state.ws == s.ws && r.state.sockets == s.sockets
    ensures r.result.Ok? && r.result.value.Some? ==>
              r.result.value == Some(CallSession(r.state.sessionId)) && r.state.ws == Some(|s.sockets|) &&
              |r.state.sockets| == |s.sockets| + 1 && r.state.sockets[|s.sockets|].readyState == Connecting
  {
    if !Truthy(cfg.apiKey) || !Truthy(cfg.assistantId) then StartStep(Ok(None), s)
    else
      var request := CallRequest(cfg.assistantId.value, "vapi.websocket", PcmFormat, "Discord-" + channelId);
      var posted := s.(requests := s.requests + [request]);
      match response
      case Err(e) => StartStep(Err(e), posted)
      case Ok(call) =>
        var url := SocketUrl(call);
        if !Truthy(url) then StartStep(Err(PlainError(NoUrlText)), posted)
        else
          var identified := posted.(sessionId := call.id);
          match connect
          case Err(e) => StartStep(Err(e), identified)
          case Ok(_) =>
            var connected := identified.(sockets := identified.sockets + [Socket(url.value, Connecting)],
                                         ws := Some(|identified.sockets|));
            StartStep(Ok(Some(CallSession(call.id))), connected)
  }

  /** The library's `open` event on socket `k`: it is now open, and the handler emits open, close and drops `ws`. */
  function OpenOutcome(s: VapiState, k: nat): (r: VapiState)
    requires k < |s.sockets|
    ensures r.ws.None? && Valid(r)
    ensures |r.sockets| == |s.sockets| && r.sockets[k].readyState == Open && r.sockets[k].url == s.sockets[k].url
    ensures forall j :: 0 <= j < |s.sockets| && j != k ==> r.sockets[j] == s.sockets[j]
    ensures r.emitted == s.emitted + [OpenEvent, CloseEvent]
    ensures r.sessionId == s.sessionId && r.requests == s.requests && r.sent == s.sent
  {
    s.(sockets := s.sockets[k := s.sockets[k].(readyState := Open)],
       emitted := s.emitted + [OpenEvent, CloseEvent],
       ws := None)
  }

  /** The result of the socket's error handler: the error it throws, if any, and the new state. */
  datatype ErrorStep = ErrorStep(thrown: Option<Error>, state: VapiState)

  /**
   * The library's `error` event: the handler emits 'error' on the service.
   * An EventEmitter with no 'error' listener throws the emitted error, so the
   * handler then throws it out of the socket's callback.
   */
  function ErrorOutcome(s: VapiState, e: Error): (r: ErrorStep)
    ensures r.state == s.(emitted := s.emitted + [ErrorEvent(e)])
    ensures r.thrown.Some? <==> s.errorListeners == 0
    ensures r.thrown.Some? ==> r.thrown.value == e
  {
    ErrorStep(if s.errorListeners == 0 then Some(e) else None, s.(emitted := s.emitted + [ErrorEvent(e)]))
  }

  /**
   * The `uncaughtException` handler of src/app.js: an error thrown out of a
   * callback is logged and the process exits with status 1.
   */
  function ExitOnUncaught(thrown: Option<Error>): (code: Option<int>)
    ensures code.Some? <==> thrown.Some?
    ensures code.Some? ==> code.value == 1
  {
    if thrown.Some? then Some(1) else None
  }

  /** `sendAudio(buffer)`: sent only through a present, open socket; otherwise only logged. */
  function SendOutcome(s: VapiState, buffer: Buffer): (r: VapiState)
    requires s.ws.Some? ==> s.ws.value < |s.sockets|
    ensures r.(sent := s.sent) == s
    ensures r.sent == s.sent || (s.ws.Some? && r.sent == s.sent + [(s.ws.value, buffer)])
    ensures r.sent != s.sent <==> s.ws.Some? && s.sockets[s.ws.value].readyState == Open
  {
    if s.ws.Some? && s.sockets[s.ws.value].readyState == Open then s.(sent := s.sent + [(s.ws.value, buffer)])
    else s
  }

  /** `stopCall()`: closes and drops `ws` if there is one; `sessionId` stays. */
  function StopOutcome(s: VapiState): (r: VapiState)
    requires s.ws.Some? ==> s.ws.value < |s.sockets|
    ensures r.ws.None? && Valid(r)
    ensures r.sessionId == s.sessionId && r.requests == s.requests && r.emitted == s.emitted && r.sent == s.sent
    ensures |r.sockets| == |s.sockets|
    ensures s.ws.Some? ==> r.sockets[s.ws.value].readyState == Closing
    ensures forall j :: 0 <= j < |s.sockets| && (s.ws.None? || j != s.ws.value) ==> r.sockets[j] == s.sockets[j]
  {
    if s.ws.Some? then s.(sockets := s.sockets[s.ws.value := s.sockets[s.ws.value].(readyState := Closing)], ws := None)
    else s
  }

  class VapiService {
    var ws: Option<nat>
    var sessionId: Option<string>
    var sockets: seq<Socket>
    var requests: seq<CallRequest>
    var emitted: seq<Event>
    var sent: seq<(nat, Buffer)>
    var errorListeners: nat

    function State(): VapiState
      reads this
    {
      VapiState(ws, sessionId, sockets, requests, emitted, sent, errorListeners)
    }

    constructor ()
      ensures State() == VapiState(None, None, [], [], [], [], 0)
      ensures Valid(State())
    {
      ws := None;
      sessionId := None;
      sockets := [];
      requests := [];
      emitted := [];
      sent := [];
      errorListeners := 0;
    }

    method StartCall(cfg: VapiConfig, channelId: string, response: Result<CallResponse, Error>, connect: Result<(), Error>)
      returns (r: Result<Option<CallSession>, Error>)
      modifies this
      ensures StartStep(r, State()) == StartOutcome(old(State()), cfg, channelId, response, connect)
    {
      if !Truthy(cfg.apiKey) || !Truthy(cfg.assistantId) {
        return Ok(None);
      }
      requests := requests + [CallRequest(cfg.assistantId.value, "vapi.websocket", PcmFormat, "Discord-" + channelId)];
      if response.Err? {
        return Err(response.error);
      }
      var call := response.value;
      var webCallUrl := SocketUrl(call);
      if !Truthy(webCallUrl) {
        return Err(PlainError(NoUrlText));
      }
      sessionId := call.id;
      if connect.Err? {
        return Err(connect.error);
      }
      sockets := sockets + [Socket(webCallUrl.value, Connecting)];
      ws := Some(|sockets| - 1);
      return Ok(Some(CallSession(sessionId)));
    }

    /** The `open` handler registered on socket `k`; it clears the service's `ws`, whichever socket that is. */
    method OnOpen(k: nat)
      requires k < |sockets| && sockets[k].readyState == Connecting
      modifies this
      ensures State() == OpenOutcome(old(State()), k)
    {
      sockets := sockets[k := sockets[k].(readyState := Open)];
      emitted := emitted + [OpenEvent];
      emitted := emitted + [CloseEvent];
      ws := None;
    }

    /** The `error` handler of socket `k`: re-emits the error, which is thrown when nothing listens for it. */
    method OnError(k: nat, e: Error) returns (thrown: Option<Error>)
      requires k < |sockets|
      modifies this
      ensures ErrorStep(thrown, State()) == ErrorOutcome(old(State()), e)
    {
      emitted := emitted + [ErrorEvent(e)];
      if errorListeners == 0 {
        return Some(e);
      }
      return None;
    }

    method SendAudio(buffer: Buffer)
      requires ws.Some? ==> ws.value < |sockets|
      modifies this
      ensures State() == SendOutcome(old(State()), buffer)
    {
      if ws.Some? && sockets[ws.value].readyState == Open {
        sent := sent + [(ws.value, buffer)];
      }
    }

    method StopCall()
      requires ws.Some? ==> ws.value < |sockets|
      modifies this
      ensures State() == StopOutcome(old(State()))
    {
      if ws.Some? {
        sockets := sockets[ws.value := sockets[ws.value].(readyState := Closing)];
        ws := None;
      }
    }
  }

  // ---------------------------------------------------------------- properties

  /** A missing credential resolves to null with no request and no change at all. */
  lemma CredentialGuard(s: VapiState, cfg: VapiConfig, channelId: string, response: Result<CallResponse, Error>, connect: Result<(), Error>)
    requires !Truthy(cfg.apiKey) || !Truthy(cfg.assistantId)
    ensures StartOutcome(s, cfg, channelId, response, connect) == StartStep(Ok(None), s)
  {
  }

  /** With credentials, exactly one request is posted: raw 16-bit PCM at 16000 Hz, named after the channel. */
  lemma RequestShape(s: VapiState, cfg: VapiConfig, channelId: string, response: Result<CallResponse, Error>, connect: Result<(), Error>)
    requires Truthy(cfg.apiKey) && Truthy(cfg.assistantId)
    ensures StartOutcome(s, cfg, channelId, response, connect).state.requests
         == s.requests + [CallRequest(cfg.assistantId.value, "vapi.websocket", AudioFormat("pcm_s16le", "raw", 16000), "Discord-" + channelId)]
  {
  }

  /** Without any URL candidate the call fails with the fixed message, and `ws` and `sessionId` stay as they were. */
  lemma NoUrlLeavesTransport(s: VapiState, cfg: VapiConfig, channelId: string, call: CallResponse, connect: Result<(), Error>)
    requires Truthy(cfg.apiKey) && Truthy(cfg.assistantId)
    requires forall i :: 0 <= i < 4 ==> !Truthy(Candidates(call)[i])
    ensures StartOutcome(s, cfg, channelId, Ok(call), connect).result == Err(PlainError(NoUrlText))
    ensures StartOutcome(s, cfg, channelId, Ok(call), connect).state.ws == s.ws
    ensures StartOutcome(s, cfg, channelId, Ok(call), connect).state.sessionId == s.sessionId
  {
    SocketUrlIsFirstCandidate(call);
    FirstTruthyIsFirst(Candidates(call));
  }

  /** On success `sessionId` is the call's id, the result carries that id, and `ws` is a new connecting socket to the URL. */
  lemma {:induction false} SuccessfulStart(s: VapiState, cfg: VapiConfig, channelId: string, call: CallResponse)
    requires Truthy(cfg.apiKey) && Truthy(cfg.assistantId) && Truthy(SocketUrl(call))
    ensures StartOutcome(s, cfg, channelId, Ok(call), Ok(())).result == Ok(Some(CallSession(call.id)))
    ensures StartOutcome(s, cfg, channelId, Ok(call), Ok(())).state.sessionId == call.id
    ensures StartOutcome(s, cfg, channelId, Ok(call), Ok(())).state.ws == Some(|s.sockets|)
    ensures StartOutcome(s, cfg, channelId, Ok(call), Ok(())).state.sockets
         == s.sockets + [Socket(SocketUrl(call).value, Connecting)]
  {
  }

  /** Every operation and event keeps the invariant: `ws`, when set, is never an open socket. */
  lemma {:induction false} OperationsKeepValid(s: VapiState, cfg: VapiConfig, channelId: string,
                                               response: Result<CallResponse, Error>, connect: Result<(), Error>,
                                               k: nat, buffer: Buffer)
    requires Valid(s)
    ensures Valid(StartOutcome(s, cfg, channelId, response, connect).state)
    ensures k < |s.sockets| ==> Valid(OpenOutcome(s, k))
    ensures Valid(SendOutcome(s, buffer))
    ensures Valid(StopOutcome(s))
  {
  }

  /**
   * Because the open handler drops `ws` at once, `sendAudio` never sends in a
   * reachable state: every buffer is dropped.
   */
  lemma {:induction false} AudioIsAlwaysDropped(s: VapiState, buffer: Buffer)
    requires Valid(s)
    ensures SendOutcome(s, buffer) == s
  {
  }

  /** The open handler emits open then close, and leaves no socket to send to. */
  lemma {:induction false} OpenThenClose(s: VapiState, k: nat)
    requires k < |s.sockets|
    ensures OpenOutcome(s, k).emitted == s.emitted + [OpenEvent, CloseEvent]
    ensures OpenOutcome(s, k).ws.None?
  {
  }

  /** A present, open socket does get the buffer: the guard is the only reason audio is dropped. */
  lemma SendsThroughOpenSocket(s: VapiState, buffer: Buffer)
    requires s.ws.Some? && s.ws.value < |s.sockets| && s.sockets[s.ws.value].readyState == Open
    ensures SendOutcome(s, buffer).sent == s.sent + [(s.ws.value, buffer)]
  {
  }

  /** No operation or event of the service adds an 'error' listener. */
  lemma {:induction false} NoListenerIsAdded(s: VapiState, cfg: VapiConfig, channelId: string,
                                             response: Result<CallResponse, Error>, connect: Result<(), Error>,
                                             k: nat, buffer: Buffer, e: Error)
    requires s.ws.Some? ==> s.ws.value < |s.sockets|
    ensures StartOutcome(s, cfg, channelId, response, connect).state.errorListeners == s.errorListeners
    ensures k < |s.sockets| ==> OpenOutcome(s, k).errorListeners == s.errorListeners
    ensures SendOutcome(s, buffer).errorListeners == s.errorListeners
    ensures StopOutcome(s).errorListeners == s.errorListeners
    ensures ErrorOutcome(s, e).state.errorListeners == s.errorListeners
  {
  }

  /**
   * With no 'error' listener, which is every state the service reaches, a
   * socket error is thrown out of the handler and the process exits with
   * status 1; a second error would find the same state.
   */
  lemma {:induction false} SocketErrorEndsProcess(s: VapiState, e: Error)
    requires s.errorListeners == 0
    ensures ErrorOutcome(s, e).thrown == Some(e)
    ensures ExitOnUncaught(ErrorOutcome(s, e).thrown) == Some(1)
    ensures ErrorOutcome(s, e).state.errorListeners == 0
  {
  }

  /** `stopCall` is idempotent, leaves `ws` null, and never clears `sessionId`. */
  lemma {:induction false} StopIdempotent(s: VapiState)
    requires s.ws.Some? ==> s.ws.value < |s.sockets|
    ensures StopOutcome(s).ws.None?
    ensures StopOutcome(s).sessionId == s.sessionId
    ensures StopOutcome(StopOutcome(s)) == StopOutcome(s)
  {
  }
}
