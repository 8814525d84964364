/**
 * What the two realtime hooks (`useGeminiLiveAudio` and `useOpenAiRealTime`)
 * have in common: the socket ref, the four state flags, the response queue
 * ref, `resetHookState`, the `open`/`close`/`error` listeners registered by
 * `connectWebSocket`, `disconnectSocket` and the outbound gate `sendMessage`.
 *
 * Each handler is a function from the hook's state to its new state and the
 * effects it performs, in order. A React state setter is an immediate field
 * write here.
 */
module Session {
  import opened Wrappers
  import opened CodecBridge

  /** `WebSocket.readyState` of the socket the hook holds. */
  datatype SocketReadyState = Connecting | Open | Closing | Closed

  /** The `CloseEvent` handed to `onSocketClose`. */
  datatype CloseEvent = CloseEvent(code: int, reason: string)

  /** The error `Event` handed to `onSocketError`, seen only through its `type`. */
  datatype ErrorEvent = ErrorEvent(eventType: string)

  /** Usage counters reported by the service; forwarded untouched. */
  datatype UsageMetadata = UsageMetadata(counters: map<string, int>)

  /** The messages the hooks put on the wire (before `JSON.stringify`). */
  datatype ClientMessage =
    | GeminiSetup                                          // {setup: {}}
    | GeminiRealtimeAudio(data: string, mimeType: string)  // {realtimeInput: {audio: {data, mimeType}}}
    | OpenAiSessionUpdate(instructions: string)            // {type: "session.update", session: {instructions}}
    | OpenAiAudioAppend(audio: string)                     // {type: "input_audio_buffer.append", audio}

  /** One thing a handler does to the outside world: a callback it calls or a frame it sends. */
  datatype Effect<M> =
    | MessageReceived(received: M)               // onMessageReceived
    | ReadyToReceiveAudio                         // onReadyToReceiveAudio
    | AudioResponseComplete(base64Audio: string)  // onAudioResponseComplete
    | UsageReport(usage: UsageMetadata)           // onUsageReport
    | SocketClosed(event: CloseEvent)             // onSocketClose
    | SocketError(error: ErrorEvent)              // onSocketError
    | Transmit(frame: ClientMessage)            // webSocketRef.current.send(...)

  /**
   * The hook's state. `socket` is `webSocketRef.current`: None for null, and
   * otherwise the ready state of the socket it holds.
   */
  datatype HookState = HookState(
    socket: Option<SocketReadyState>,
    isWebSocketConnecting: bool,
    isWebSocketConnected: bool,
    isInitialized: bool,
    isAiResponseInProgress: bool,
    responseQueue: seq<string>)

  /** JavaScript truthiness of an optional string: present and not empty. */
  predicate Truthy(text: Option<string>) {
    text.Some? && text.value != ""
  }

  /** The initial values of the refs and `useState` hooks. */
  function Initial(): HookState {
    HookState(None, false, false, false, false, [])
  }

  /** Queued chunks are truthy and decodable, so that combining them is defined. */
  predicate QueueValid(s: HookState) {
    AllDecodable(s.responseQueue) && forall i :: 0 <= i < |s.responseQueue| ==> s.responseQueue[i] != ""
  }

  /** The audio payloads a list of effects hands to `onAudioResponseComplete`, in order. */
  function Payloads<M>(effects: seq<Effect<M>>): seq<string> {
    if effects == [] then []
    else (if effects[0].AudioResponseComplete? then [effects[0].base64Audio] else []) + Payloads(effects[1..])
  }

  /** The usage objects a list of effects hands to `onUsageReport`, in order. */
  function Usages<M>(effects: seq<Effect<M>>): seq<UsageMetadata> {
    if effects == [] then []
    else (if effects[0].UsageReport? then [effects[0].usage] else []) + Usages(effects[1..])
  }

  /** The frames a list of effects sends, in order. */
  function Transmitted<M>(effects: seq<Effect<M>>): seq<ClientMessage> {
    if effects == [] then []
    else (if effects[0].Transmit? then [effects[0].frame] else []) + Transmitted(effects[1..])
  }

  lemma {:induction false} PayloadsAppend<M>(a: seq<Effect<M>>, b: seq<Effect<M>>)
    ensures Payloads(a + b) == Payloads(a) + Payloads(b)
    decreases |a|
  {
    if a == [] {
      assert a + b == b;
    } else {
      assert (a + b)[0] == a[0];
      assert (a + b)[1..] == a[1..] + b;
      PayloadsAppend(a[1..], b);
    }
  }

  lemma {:induction false} UsagesAppend<M>(a: seq<Effect<M>>, b: seq<Effect<M>>)
    ensures Usages(a + b) == Usages(a) + Usages(b)
    decreases |a|
  {
    if a == [] {
      assert a + b == b;
    } else {
      assert (a + b)[0] == a[0];
      assert (a + b)[1..] == a[1..] + b;
      UsagesAppend(a[1..], b);
    }
  }

  lemma {:induction false} TransmittedAppend<M>(a: seq<Effect<M>>, b: seq<Effect<M>>)
    ensures Transmitted(a + b) == Transmitted(a) + Transmitted(b)
    decreases |a|
  {
    if a == [] {
      assert a + b == b;
    } else {
      assert (a + b)[0] == a[0];
      assert (a + b)[1..] == a[1..] + b;
      TransmittedAppend(a[1..], b);
    }
  }

  // ---------------------------------------------------------------------------
  // Handlers shared by both protocols

  /** `resetHookState`: drop the socket, clear every flag, empty the queue. */
  function ResetHookState(s: HookState): (r: HookState)
    ensures r.socket == None && r.responseQueue == []
    ensures !r.isWebSocketConnecting && !r.isWebSocketConnected && !r.isInitialized && !r.isAiResponseInProgress
  {
    Initial()
  }

  /**
   * `connectWebSocket`: set the connecting flag; return at once if a socket
   * is already held (before the `try`, so the `finally` that clears the flag
   * does not run); otherwise create the socket, unless its construction
   * throws, and clear the flag.
   */
  function Connect(s: HookState, constructionThrows: bool): (r: HookState)
    ensures s.socket.Some? ==> r == s.(isWebSocketConnecting := true)
    ensures s.socket.None? ==> !r.isWebSocketConnecting
    ensures s.socket.None? ==> r.socket == (if constructionThrows then None else Some(Connecting))
    ensures r.isWebSocketConnected == s.isWebSocketConnected && r.isInitialized == s.isInitialized
    ensures r.isAiResponseInProgress == s.isAiResponseInProgress && r.responseQueue == s.responseQueue
  {
    var flagged := s.(isWebSocketConnecting := true);
    if s.socket.Some? then flagged
    else if constructionThrows then flagged.(isWebSocketConnecting := false)
    else flagged.(socket := Some(Connecting), isWebSocketConnecting := false)
  }

  /**
   * The `open` listener followed by the effect that depends on
   * `isWebSocketConnected`: the socket is now OPEN, the connected flag is set,
   * and, because the flag changed, the protocol's setup frame is sent through
   * the socket ref (not through the gate).
   */
  function OnOpen<M>(s: HookState, setup: ClientMessage): (r: (HookState, seq<Effect<M>>))
    ensures r.0 == s.(socket := if s.socket.Some? then Some(SocketReadyState.Open) else None, isWebSocketConnected := true)
    ensures Transmitted(r.1) == (if s.socket.Some? && !s.isWebSocketConnected then [setup] else [])
    ensures Payloads(r.1) == [] && Usages(r.1) == []
    ensures r.1 == (if s.socket.Some? && !s.isWebSocketConnected then [Transmit(setup)] else [])
  {
    var s' := s.(socket := if s.socket.Some? then Some(SocketReadyState.Open) else None, isWebSocketConnected := true);
    var effects: seq<Effect<M>> := if s.socket.Some? && !s.isWebSocketConnected then [Transmit(setup)] else [];
    (s', effects)
  }

  /** The `close` listener: clear the connected flag, reset everything, then call `onSocketClose`. */
  function OnClose<M>(s: HookState, event: CloseEvent): (r: (HookState, seq<Effect<M>>))
    ensures r.0 == Initial()
    ensures r.1 == [SocketClosed(event)]
  {
    var cleared := s.(isWebSocketConnected := false);
    (ResetHookState(cleared), [SocketClosed(event)])
  }

  /**
   * The `error` listener: `onSocketError?.(error)`. The callback is optional;
   * `hasOnSocketError` says whether the caller supplied one. The state is
   * left alone.
   */
  function OnError<M>(s: HookState, error: ErrorEvent, hasOnSocketError: bool): (r: (HookState, seq<Effect<M>>))
    ensures r.0 == s
    ensures hasOnSocketError ==> r.1 == [SocketError(error)]
    ensures !hasOnSocketError ==> r.1 == []
  {
    (s, if hasOnSocketError then [SocketError(error)] else [])
  }

  /** `disconnectSocket`: `close()` on the held socket, which moves a connecting or open socket to CLOSING. */
  function Disconnect(s: HookState): (r: HookState)
    ensures r.socket.None? <==> s.socket.None?
    ensures s.socket == Some(Connecting) || s.socket == Some(SocketReadyState.Open) ==> r.socket == Some(Closing)
    ensures s.socket.None? || s.socket == Some(Closing) || s.socket == Some(Closed) ==> r == s
    ensures r == s.(socket := r.socket)
  {
    match s.socket
    case Some(Connecting) => s.(socket := Some(Closing))
    case Some(Open) => s.(socket := Some(Closing))
    case _ => s
  }

  /** The gate of `sendMessage`: a socket is held, it is OPEN, and the hook is connected and initialized. */
  predicate CanSend(s: HookState)
    ensures CanSend(s) ==> s.socket == Some(SocketReadyState.Open) && s.isWebSocketConnected && s.isInitialized
    ensures s.socket.None? || !s.isWebSocketConnected || !s.isInitialized ==> !CanSend(s)
  {
    s.socket == Some(SocketReadyState.Open) && s.isWebSocketConnected && s.isInitialized
  }

  /** `sendMessage`: the frames it transmits. */
  function SendMessage(s: HookState, message: ClientMessage): (sent: seq<ClientMessage>)
    ensures sent != [] <==> s.socket == Some(SocketReadyState.Open) && s.isWebSocketConnected && s.isInitialized
    ensures sent != [] ==> sent == [message]
  {
    if CanSend(s) then [message] else []
  }

  // ---------------------------------------------------------------------------
  // Properties of the shared handlers

  /**
   * A close event leaves no socket, every flag false and the queue empty, and
   * calls `onSocketClose` exactly once, after the reset.
   */
  lemma CloseResetsThenNotifies<M>(s: HookState, event: CloseEvent)
    ensures var r := OnClose<M>(s, event);
      r.0.socket == None && r.0.responseQueue == [] &&
      !r.0.isWebSocketConnecting && !r.0.isWebSocketConnected && !r.0.isInitialized && !r.0.isAiResponseInProgress &&
      |r.1| == 1 && r.1[0].SocketClosed? && Payloads(r.1) == [] && Transmitted(r.1) == []
  {
  }

  /** `connectWebSocket` while a socket is held creates no new socket and changes nothing but the connecting flag. */
  lemma ConnectWhileHeldKeepsSocket(s: HookState, constructionThrows: bool)
    requires s.socket.Some?
    ensures Connect(s, constructionThrows).socket == s.socket
    ensures Connect(s, constructionThrows).isWebSocketConnecting
  {
  }

  /** `disconnectSocket` twice is `disconnectSocket` once; before any socket exists it does nothing. */
  lemma DisconnectIdempotent(s: HookState)
    ensures Disconnect(Disconnect(s)) == Disconnect(s)
    ensures s.socket.None? ==> Disconnect(s) == s
  {
  }

  /** Nothing is ever sent by an uninitialized hook or through a socket that is not OPEN. */
  lemma NothingSentBeforeReady(s: HookState, message: ClientMessage)
    requires !s.isInitialized || s.socket != Some(SocketReadyState.Open) || !s.isWebSocketConnected
    ensures SendMessage(s, message) == []
  {
  }

  /**
   * An error neither tears the session down nor hands anything on: the state
   * is unchanged, the gate stays as it was, and no audio, usage or frame
   * results.
   */
  lemma ErrorLeavesSessionAlone<M>(s: HookState, error: ErrorEvent, hasOnSocketError: bool, message: ClientMessage)
    ensures SendMessage(OnError<M>(s, error, hasOnSocketError).0, message) == SendMessage(s, message)
    ensures Payloads(OnError<M>(s, error, hasOnSocketError).1) == []
    ensures Usages(OnError<M>(s, error, hasOnSocketError).1) == []
    ensures Transmitted(OnError<M>(s, error, hasOnSocketError).1) == []
  {
  }

  /** After `disconnectSocket` the gate is shut, whatever the state was. */
  lemma NothingSentAfterDisconnect(s: HookState, message: ClientMessage)
    ensures SendMessage(Disconnect(s), message) == []
  {
  }

  /** After a close event nothing can be sent until a new socket is opened and initialized. */
  lemma NothingSentAfterClose<M>(s: HookState, event: CloseEvent, message: ClientMessage)
    ensures SendMessage(OnClose<M>(s, event).0, message) == []
  {
  }

  /** Every shared handler keeps the queue valid. */
  lemma SharedHandlersKeepQueueValid<M>(s: HookState, setup: ClientMessage, event: CloseEvent, constructionThrows: bool)
    requires QueueValid(s)
    ensures QueueValid(Connect(s, constructionThrows))
    ensures QueueValid(OnOpen<M>(s, setup).0)
    ensures QueueValid(OnClose<M>(s, event).0)
    ensures QueueValid(Disconnect(s))
  {
  }
}
