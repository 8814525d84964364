/**
 * `useGeminiLiveAudio`: the Live API variant. Every inbound message is one
 * envelope; the handler looks at `setupComplete`, at the audio parts of
 * `serverContent.modelTurn`, at `serverContent` itself, at
 * `serverContent.generationComplete` and at `usageMetadata`, in that order.
 */
module GeminiLive {
  import opened Wrappers
  import opened Base64
  import opened CodecBridge
  import opened Session

  /** `part.inlineData`: a blob whose `data` is base64 PCM. */
  datatype Blob = Blob(data: Option<string>)

  /** One element of `modelTurn.parts` (a null part has no `inlineData`). */
  datatype Part = Part(inlineData: Option<Blob>)

  /** `serverContent.modelTurn`. */
  datatype Content = Content(parts: Option<seq<Part>>)

  /** `message.serverContent`. */
  datatype LiveServerContent = LiveServerContent(modelTurn: Option<Content>, generationComplete: bool)

  /** An inbound message after `JSON.parse`; `setupComplete` is whether that field is present. */
  datatype LiveServerMessage = LiveServerMessage(
    setupComplete: bool,
    serverContent: Option<LiveServerContent>,
    usageMetadata: Option<UsageMetadata>)

  /** The MIME type of every uploaded chunk. */
  const AudioMimeType: string := "audio/pcm;rate=16000"

  /** `message?.serverContent?.modelTurn?.parts`, with a missing list read as no parts. */
  function PartsOf(m: LiveServerMessage): seq<Part> {
    match m.serverContent
    case Some(LiveServerContent(Some(Content(Some(parts))), _)) => parts
    case _ => []
  }

  /** `part?.inlineData?.data`. */
  function InlineDataOf(part: Part): Option<string> {
    match part.inlineData
    case Some(blob) => blob.data
    case None => None
  }

  /** `message?.serverContent?.generationComplete`. */
  predicate GenerationComplete(m: LiveServerMessage) {
    m.serverContent.Some? && m.serverContent.value.generationComplete
  }

  /** What one part contributes to the queue: its data when truthy, nothing otherwise. */
  function ChunkOf(part: Part): seq<string> {
    if Truthy(InlineDataOf(part)) then [InlineDataOf(part).value] else []
  }

  /** The chunks the `for` loop pushes, in part order. */
  function AudioChunks(parts: seq<Part>): (r: seq<string>)
    ensures |r| <= |parts|
    ensures forall i :: 0 <= i < |r| ==> r[i] != ""
  {
    if parts == [] then [] else AudioChunks(parts[..|parts| - 1]) + ChunkOf(parts[|parts| - 1])
  }

  /** The service sends valid base64 in every truthy `inlineData.data`. */
  predicate PartsWellFormed(parts: seq<Part>) {
    forall i :: 0 <= i < |parts| ==> Truthy(InlineDataOf(parts[i])) ==> IsBase64(InlineDataOf(parts[i]).value)
  }

  predicate WellFormed(m: LiveServerMessage) {
    PartsWellFormed(PartsOf(m))
  }

  /** No chunk is held outside a turn: a non-empty queue implies a response in progress. */
  predicate NoChunksOutsideTurn(s: HookState) {
    s.responseQueue != [] ==> s.isAiResponseInProgress
  }

  /** What the loop pushes are truthy, decodable chunks. */
  lemma {:induction false} AudioChunksValid(parts: seq<Part>)
    requires PartsWellFormed(parts)
    ensures AllDecodable(AudioChunks(parts))
    ensures forall i :: 0 <= i < |AudioChunks(parts)| ==> AudioChunks(parts)[i] != ""
  {
    if parts != [] {
      var n := |parts| - 1;
      assert PartsWellFormed(parts[..n]) by {
        forall i | 0 <= i < n ensures parts[..n][i] == parts[i] { }
      }
      AudioChunksValid(parts[..n]);
      var c := ChunkOf(parts[n]);
      assert AllDecodable(c) && forall i :: 0 <= i < |c| ==> c[i] != "";
      DecodeAllAppend(AudioChunks(parts[..n]), c);
    }
  }

  /** Appending the pushed chunks keeps the queue valid. */
  lemma QueueValidAppend(s: HookState, parts: seq<Part>)
    requires QueueValid(s) && PartsWellFormed(parts)
    ensures QueueValid(s.(responseQueue := s.responseQueue + AudioChunks(parts)))
  {
    AudioChunksValid(parts);
    DecodeAllAppend(s.responseQueue, AudioChunks(parts));
  }

  // ---------------------------------------------------------------------------
  // The message handler

  /** `onReadyToReceiveAudio` when the message carries `setupComplete`. */
  function ReadyEffects(m: LiveServerMessage): seq<Effect<LiveServerMessage>> {
    if m.setupComplete then [ReadyToReceiveAudio] else []
  }

  /** `onAudioResponseComplete(combined)` when the message completes the generation. */
  function FlushEffects(m: LiveServerMessage, queue: seq<string>): seq<Effect<LiveServerMessage>>
    requires AllDecodable(queue)
  {
    if GenerationComplete(m) then [AudioResponseComplete(Combine(queue))] else []
  }

  /** `onUsageReport(usageMetadata)` when the message carries usage. */
  function UsageEffects(m: LiveServerMessage): seq<Effect<LiveServerMessage>> {
    match m.usageMetadata
    case Some(u) => [UsageReport(u)]
    case None => []
  }

  /** The `message` listener: the new state and, in order, every callback it makes. */
  function OnMessage(s: HookState, m: LiveServerMessage): (r: (HookState, seq<Effect<LiveServerMessage>>))
    requires QueueValid(s) && WellFormed(m)
    ensures QueueValid(r.0)
    ensures |r.1| > 0 && r.1[0] == MessageReceived(m)
  {
    QueueValidAppend(if m.setupComplete then s.(isInitialized := true) else s, PartsOf(m));
    var ready := if m.setupComplete then s.(isInitialized := true) else s;
    var pushed := ready.(responseQueue := ready.responseQueue + AudioChunks(PartsOf(m)));
    var active := if m.serverContent.Some? then pushed.(isAiResponseInProgress := true) else pushed;
    var done := if GenerationComplete(m) then active.(isAiResponseInProgress := false, responseQueue := []) else active;
    (done, [MessageReceived(m)] + ReadyEffects(m) + FlushEffects(m, active.responseQueue) + UsageEffects(m))
  }

  /** The `open` listener and the setup-on-connect effect: `{setup: {}}` goes out once. */
  function OnSocketOpen(s: HookState): (r: (HookState, seq<Effect<LiveServerMessage>>))
    ensures r.0.isWebSocketConnected
    ensures s.socket.Some? && !s.isWebSocketConnected ==> Transmitted(r.1) == [GeminiSetup]
  {
    OnOpen(s, GeminiSetup)
  }

  /** `sendBase64AudioStringChunk`: wrap the chunk as `realtimeInput.audio` and pass it to the gate. */
  function SendAudioChunk(s: HookState, base64String: string): (sent: seq<ClientMessage>)
    ensures sent != [] <==> CanSend(s)
    ensures sent != [] ==> sent == [GeminiRealtimeAudio(base64String, "audio/pcm;rate=16000")]
  {
    if s.socket.Some? then SendMessage(s, GeminiRealtimeAudio(base64String, AudioMimeType)) else []
  }

  // ---------------------------------------------------------------------------
  // Properties of the message handler

  /** `AudioChunks` follows the order of the parts: the chunks of a prefix come first. */
  lemma {:induction false} AudioChunksAppend(a: seq<Part>, b: seq<Part>)
    ensures AudioChunks(a + b) == AudioChunks(a) + AudioChunks(b)
    decreases |b|
  {
    if b == [] {
      assert a + b == a;
    } else {
      var n := |b| - 1;
      assert (a + b)[..|a + b| - 1] == a + b[..n];
      assert (a + b)[|a + b| - 1] == b[n];
      AudioChunksAppend(a, b[..n]);
    }
  }

  /** When every part carries truthy data, the queue receives exactly that data, part by part. */
  lemma {:induction false} AudioChunksAllTruthy(parts: seq<Part>)
    requires forall i :: 0 <= i < |parts| ==> Truthy(InlineDataOf(parts[i]))
    ensures |AudioChunks(parts)| == |parts|
    ensures forall i :: 0 <= i < |parts| ==> InlineDataOf(parts[i]) == Some(AudioChunks(parts)[i])
  {
    if parts != [] {
      var n := |parts| - 1;
      AudioChunksAllTruthy(parts[..n]);
      assert forall i :: 0 <= i < n ==> parts[..n][i] == parts[i];
    }
  }

  /** Parts without truthy data push nothing. */
  lemma {:induction false} AudioChunksNoneTruthy(parts: seq<Part>)
    requires forall i :: 0 <= i < |parts| ==> !Truthy(InlineDataOf(parts[i]))
    ensures AudioChunks(parts) == []
  {
    if parts != [] {
      AudioChunksNoneTruthy(parts[..|parts| - 1]);
    }
  }

  /** The effects of one message are the received notice, then the ready, flush and usage effects. */
  lemma OnMessageEffectsShape(s: HookState, m: LiveServerMessage)
    requires QueueValid(s) && WellFormed(m)
    ensures AllDecodable(s.responseQueue + AudioChunks(PartsOf(m)))
    ensures OnMessage(s, m).1
         == [MessageReceived(m)] + ReadyEffects(m) + FlushEffects(m, s.responseQueue + AudioChunks(PartsOf(m))) + UsageEffects(m)
  {
    QueueValidAppend(s, PartsOf(m));
  }

  /** The payloads one message hands on: one combination of the whole queue when it completes the generation. */
  lemma OnMessagePayloads(s: HookState, m: LiveServerMessage)
    requires QueueValid(s) && WellFormed(m)
    ensures AllDecodable(s.responseQueue + AudioChunks(PartsOf(m)))
    ensures Payloads(OnMessage(s, m).1) == (if GenerationComplete(m) then [Combine(s.responseQueue + AudioChunks(PartsOf(m)))] else [])
  {
    OnMessageEffectsShape(s, m);
    var e0: seq<Effect<LiveServerMessage>> := [MessageReceived(m)];
    var e1, e2, e3 := ReadyEffects(m), FlushEffects(m, s.responseQueue + AudioChunks(PartsOf(m))), UsageEffects(m);
    PayloadsAppend(e0, e1);
    PayloadsAppend(e0 + e1, e2);
    PayloadsAppend(e0 + e1 + e2, e3);
  }

  /** The usage one message reports. */
  lemma OnMessageUsages(s: HookState, m: LiveServerMessage)
    requires QueueValid(s) && WellFormed(m)
    ensures Usages(OnMessage(s, m).1) == (if m.usageMetadata.Some? then [m.usageMetadata.value] else [])
  {
    OnMessageEffectsShape(s, m);
    var e0: seq<Effect<LiveServerMessage>> := [MessageReceived(m)];
    var e1, e2, e3 := ReadyEffects(m), FlushEffects(m, s.responseQueue + AudioChunks(PartsOf(m))), UsageEffects(m);
    UsagesAppend(e0, e1);
    UsagesAppend(e0 + e1, e2);
    UsagesAppend(e0 + e1 + e2, e3);
  }

  /** The frames one message sends: none. */
  lemma OnMessageSendsNothing(s: HookState, m: LiveServerMessage)
    requires QueueValid(s) && WellFormed(m)
    ensures Transmitted(OnMessage(s, m).1) == []
  {
    OnMessageEffectsShape(s, m);
    var e0: seq<Effect<LiveServerMessage>> := [MessageReceived(m)];
    var e1, e2, e3 := ReadyEffects(m), FlushEffects(m, s.responseQueue + AudioChunks(PartsOf(m))), UsageEffects(m);
    TransmittedAppend(e0, e1);
    TransmittedAppend(e0 + e1, e2);
    TransmittedAppend(e0 + e1 + e2, e3);
  }

  /** A message with `setupComplete` sets `isInitialized` and calls `onReadyToReceiveAudio` exactly once; without it, neither happens. */
  lemma SetupCompleteMakesReady(s: HookState, m: LiveServerMessage)
    requires QueueValid(s) && WellFormed(m)
    ensures OnMessage(s, m).0.isInitialized == (s.isInitialized || m.setupComplete)
    ensures multiset(OnMessage(s, m).1)[ReadyToReceiveAudio] == (if m.setupComplete then 1 else 0)
  {
    OnMessageEffectsShape(s, m);
    var e0: seq<Effect<LiveServerMessage>> := [MessageReceived(m)];
    var e1, e2, e3 := ReadyEffects(m), FlushEffects(m, s.responseQueue + AudioChunks(PartsOf(m))), UsageEffects(m);
    assert multiset(OnMessage(s, m).1) == multiset(e0) + multiset(e1) + multiset(e2) + multiset(e3);
    assert multiset(e0)[ReadyToReceiveAudio] == 0;
    assert multiset(e2)[ReadyToReceiveAudio] == 0 && multiset(e3)[ReadyToReceiveAudio] == 0;
  }

  /**
   * Without `generationComplete`, the truthy chunks are appended to the queue
   * in arrival order; `serverContent` marks a response in progress; and no
   * audio is handed on.
   */
  lemma ChunksQueuedInArrivalOrder(s: HookState, m: LiveServerMessage)
    requires QueueValid(s) && WellFormed(m)
    requires !GenerationComplete(m)
    ensures OnMessage(s, m).0.responseQueue == s.responseQueue + AudioChunks(PartsOf(m))
    ensures m.serverContent.Some? ==> OnMessage(s, m).0.isAiResponseInProgress
    ensures m.serverContent.None? ==> OnMessage(s, m).0.isAiResponseInProgress == s.isAiResponseInProgress
    ensures Payloads(OnMessage(s, m).1) == []
  {
    OnMessagePayloads(s, m);
  }

  /**
   * `generationComplete` clears the in-progress flag, empties the queue and
   * hands on one payload: the combination of the queue, including the chunks
   * carried by this very message, whose bytes are those chunks' bytes in order.
   */
  lemma GenerationCompleteFlushes(s: HookState, m: LiveServerMessage)
    requires QueueValid(s) && WellFormed(m)
    requires GenerationComplete(m)
    ensures !OnMessage(s, m).0.isAiResponseInProgress && OnMessage(s, m).0.responseQueue == []
    ensures AllDecodable(s.responseQueue + AudioChunks(PartsOf(m)))
    ensures Payloads(OnMessage(s, m).1) == [Combine(s.responseQueue + AudioChunks(PartsOf(m)))]
    ensures AllDecodable(AudioChunks(PartsOf(m)))
    ensures Decode(Payloads(OnMessage(s, m).1)[0])
         == Some(Concat(DecodeAll(s.responseQueue)) + Concat(DecodeAll(AudioChunks(PartsOf(m)))))
  {
    OnMessagePayloads(s, m);
    AudioChunksValid(PartsOf(m));
    CombineAppend(s.responseQueue, AudioChunks(PartsOf(m)));
  }

  /** A completing message with no parts, on an empty queue, hands on the empty payload. */
  lemma EmptyTurnGivesEmptyPayload(s: HookState, m: LiveServerMessage)
    requires QueueValid(s) && WellFormed(m)
    requires GenerationComplete(m) && PartsOf(m) == [] && s.responseQueue == []
    ensures Payloads(OnMessage(s, m).1) == [""]
  {
    OnMessagePayloads(s, m);
    assert s.responseQueue + AudioChunks(PartsOf(m)) == [];
    CombineEmpty();
  }

  /** `usageMetadata` is forwarded exactly when present, and a message never transmits anything. */
  lemma UsageForwardedWhenPresent(s: HookState, m: LiveServerMessage)
    requires QueueValid(s) && WellFormed(m)
    ensures Usages(OnMessage(s, m).1) == (if m.usageMetadata.Some? then [m.usageMetadata.value] else [])
    ensures Transmitted(OnMessage(s, m).1) == []
  {
    OnMessageUsages(s, m);
    OnMessageSendsNothing(s, m);
  }

  /** A message leaves the socket and its flags alone. */
  lemma MessageLeavesConnectionAlone(s: HookState, m: LiveServerMessage)
    requires QueueValid(s) && WellFormed(m)
    ensures OnMessage(s, m).0.socket == s.socket
    ensures OnMessage(s, m).0.isWebSocketConnecting == s.isWebSocketConnecting
    ensures OnMessage(s, m).0.isWebSocketConnected == s.isWebSocketConnected
  {
  }

  /** Every handler keeps chunks from outliving their turn. */
  lemma HandlersKeepChunksInTurn(s: HookState, m: LiveServerMessage, event: CloseEvent, constructionThrows: bool)
    requires QueueValid(s) && WellFormed(m)
    requires NoChunksOutsideTurn(s)
    ensures NoChunksOutsideTurn(OnMessage(s, m).0)
    ensures NoChunksOutsideTurn(OnSocketOpen(s).0)
    ensures NoChunksOutsideTurn(OnClose<LiveServerMessage>(s, event).0)
    ensures NoChunksOutsideTurn(Connect(s, constructionThrows))
    ensures NoChunksOutsideTurn(Disconnect(s))
  {
    if m.serverContent.None? {
      assert PartsOf(m) == [];
    }
  }

  // ---------------------------------------------------------------------------
  // The hook as an object whose refs and state the listeners update in place

  class GeminiLiveAudio {
    var webSocket: Option<SocketReadyState>
    var isWebSocketConnecting: bool
    var isWebSocketConnected: bool
    var isInitialized: bool
    var isAiResponseInProgress: bool
    var responseQueue: seq<string>

    function State(): HookState
      reads this
    {
      HookState(webSocket, isWebSocketConnecting, isWebSocketConnected, isInitialized, isAiResponseInProgress, responseQueue)
    }

    predicate Valid()
      reads this
    {
      QueueValid(State()) && NoChunksOutsideTurn(State())
    }

    constructor ()
      ensures Valid() && State() == Initial()
    {
      webSocket := None;
      isWebSocketConnecting, isWebSocketConnected, isInitialized, isAiResponseInProgress := false, false, false, false;
      responseQueue := [];
    }

    method ResetHookState()
      modifies this
      ensures Valid() && State() == Session.ResetHookState(old(State()))
    {
      webSocket := None;
      isWebSocketConnecting := false;
      isWebSocketConnected := false;
      isInitialized := false;
      responseQueue := [];
      isAiResponseInProgress := false;
    }

    method ConnectWebSocket(constructionThrows: bool)
      requires Valid()
      modifies this
      ensures Valid() && State() == Connect(old(State()), constructionThrows)
    {
      isWebSocketConnecting := true;
      if webSocket.Some? {
        return;
      }
      if !constructionThrows {
        webSocket := Some(Connecting);
      }
      isWebSocketConnecting := false;
    }

    method HandleOpen() returns (effects: seq<Effect<LiveServerMessage>>)
      requires Valid()
      modifies this
      ensures Valid() && (State(), effects) == OnSocketOpen(old(State()))
    {
      var wasConnected := isWebSocketConnected;
      if webSocket.Some? {
        webSocket := Some(SocketReadyState.Open);
      }
      isWebSocketConnected := true;
      effects := [];
      if !wasConnected && webSocket.Some? {
        effects := [Transmit(GeminiSetup)];
      }
    }

    method HandleClose(event: CloseEvent) returns (effects: seq<Effect<LiveServerMessage>>)
      modifies this
      ensures Valid() && (State(), effects) == OnClose<LiveServerMessage>(old(State()), event)
    {
      isWebSocketConnected := false;
      ResetHookState();
      effects := [SocketClosed(event)];
    }

    method HandleError(error: ErrorEvent, hasOnSocketError: bool) returns (effects: seq<Effect<LiveServerMessage>>)
      ensures effects == OnError<LiveServerMessage>(State(), error, hasOnSocketError).1
    {
      effects := [];
      if hasOnSocketError {
        effects := [SocketError(error)];
      }
    }

    /** The `for` loop of the message listener: push every truthy `inlineData.data`, in order. */
    method PushAudioChunks(parts: seq<Part>)
      modifies this
      ensures responseQueue == old(responseQueue) + AudioChunks(parts)
      ensures webSocket == old(webSocket) && isAiResponseInProgress == old(isAiResponseInProgress)
      ensures isWebSocketConnecting == old(isWebSocketConnecting) && isWebSocketConnected == old(isWebSocketConnected)
      ensures isInitialized == old(isInitialized)
    {
      for i := 0 to |parts|
        invariant responseQueue == old(responseQueue) + AudioChunks(parts[..i])
        invariant webSocket == old(webSocket) && isAiResponseInProgress == old(isAiResponseInProgress)
        invariant isWebSocketConnecting == old(isWebSocketConnecting) && isWebSocketConnected == old(isWebSocketConnected)
        invariant isInitialized == old(isInitialized)
      {
        assert parts[..i + 1][..i] == parts[..i];
        var audioChunk := InlineDataOf(parts[i]);
        if audioChunk.Some? && audioChunk.value != "" {
          responseQueue := responseQueue + [audioChunk.value];
        }
      }
      assert parts[..|parts|] == parts;
    }

    /** The turn bookkeeping of the message listener: mark a response in progress, and flush on completion. */
    method UpdateTurn(m: LiveServerMessage) returns (flushed: seq<Effect<LiveServerMessage>>)
      requires QueueValid(State())
      modifies this
      ensures var active := if m.serverContent.Some? then old(State()).(isAiResponseInProgress := true) else old(State());
        State() == if GenerationComplete(m) then active.(isAiResponseInProgress := false, responseQueue := []) else active
      ensures flushed == FlushEffects(m, old(responseQueue))
    {
      flushed := [];
      if m.serverContent.Some? {
        isAiResponseInProgress := true;
      }
      if GenerationComplete(m) {
        isAiResponseInProgress := false;
        var combinedBase64 := CombineBase64ArrayList(responseQueue);
        responseQueue := [];
        flushed := [AudioResponseComplete(combinedBase64)];
      }
    }

    method HandleMessage(m: LiveServerMessage) returns (effects: seq<Effect<LiveServerMessage>>)
      requires Valid() && WellFormed(m)
      modifies this
      ensures Valid() && (State(), effects) == OnMessage(old(State()), m)
    {
      ghost var s0 := State();
      HandlersKeepChunksInTurn(s0, m, CloseEvent(0, ""), false);
      OnMessageEffectsShape(s0, m);
      effects := [MessageReceived(m)];
      if m.setupComplete {
        isInitialized := true;
        effects := effects + [ReadyToReceiveAudio];
      }
      assert effects == [MessageReceived(m)] + ReadyEffects(m);
      ghost var ready := State();
      assert ready == if m.setupComplete then s0.(isInitialized := true) else s0;
      PushAudioChunks(PartsOf(m));
      assert State() == ready.(responseQueue := ready.responseQueue + AudioChunks(PartsOf(m)));
      QueueValidAppend(ready, PartsOf(m));
      var flushed := UpdateTurn(m);
      effects := effects + flushed;
      if m.usageMetadata.Some? {
        effects := effects + [UsageReport(m.usageMetadata.value)];
      }
      assert effects == [MessageReceived(m)] + ReadyEffects(m) + flushed + UsageEffects(m);
    }

    method DisconnectSocket()
      requires Valid()
      modifies this
      ensures Valid() && State() == Disconnect(old(State()))
    {
      if webSocket == Some(Connecting) || webSocket == Some(SocketReadyState.Open) {
        webSocket := Some(Closing);
      }
    }

    method SendMessage(messageObject: ClientMessage) returns (sent: seq<ClientMessage>)
      ensures sent == Session.SendMessage(State(), messageObject)
      ensures sent != [] <==> webSocket == Some(SocketReadyState.Open) && isWebSocketConnected && isInitialized
    {
      sent := [];
      if webSocket.Some? && webSocket.value == SocketReadyState.Open && isWebSocketConnected && isInitialized {
        sent := [messageObject];
      }
    }

    method SendBase64AudioStringChunk(base64String: string) returns (sent: seq<ClientMessage>)
      ensures sent == SendAudioChunk(State(), base64String)
    {
      sent := [];
      if webSocket.Some? {
        sent := SendMessage(GeminiRealtimeAudio(base64String, AudioMimeType));
      }
    }
  }
}
