/**
 * `useOpenAiRealTime`: the typed-event variant. Each inbound event is
 * dispatched on its `type`; `response.usage` is forwarded whatever the type.
 * Besides the shared state the hook keeps the `transcription` accumulator.
 */
module OpenAiRealtime {
  import opened Wrappers
  import opened Base64
  import opened CodecBridge
  import opened Session

  /**
   * The `type` of an inbound event: the five the listener dispatches on, and
   * `Other(name)` for any other type string.
   */
  datatype EventType =
    | SessionUpdated                // "session.updated"
    | ResponseCreated               // "response.created"
    | ResponseAudioDelta            // "response.audio.delta"
    | ResponseAudioDone             // "response.audio.done"
    | ResponseAudioTranscriptDelta  // "response.audio_transcript.delta"
    | Other(name: string)

  /** An inbound event after `JSON.parse`: its `type`, its `delta`, and `response.usage`. */
  datatype ServerEvent = ServerEvent(kind: EventType, delta: Option<string>, responseUsage: Option<UsageMetadata>)

  /** The shared hook state plus the `transcription` state. */
  datatype RealtimeState = RealtimeState(hook: HookState, transcription: string)

  /** The initial values of every ref and state of the hook. */
  function InitialState(): RealtimeState {
    RealtimeState(Initial(), "")
  }

  /** The five type strings the listener compares `messageObject.type` against. */
  const HandledTypes: set<string> :=
    {"session.updated", "response.created", "response.audio.delta", "response.audio.done", "response.audio_transcript.delta"}

  /** The `===` tests on `messageObject.type`: the branch a type string selects. */
  function KindOf(t: string): (k: EventType)
    ensures k.Other? <==> t !in HandledTypes
    ensures k.Other? ==> k.name == t
    ensures k == ResponseCreated <==> t == "response.created"
    ensures k == ResponseAudioDone <==> t == "response.audio.done"
    ensures k == ResponseAudioDelta <==> t == "response.audio.delta"
    ensures k == SessionUpdated <==> t == "session.updated"
    ensures k == ResponseAudioTranscriptDelta <==> t == "response.audio_transcript.delta"
  {
    if t == "response.created" then ResponseCreated
    else if t == "response.audio.done" then ResponseAudioDone
    else if t == "response.audio.delta" then ResponseAudioDelta
    else if t == "session.updated" then SessionUpdated
    else if t == "response.audio_transcript.delta" then ResponseAudioTranscriptDelta
    else Other(t)
  }

  /**
   * An event as `JSON.parse` leaves it: an `Other` kind carries a type string
   * none of the five tests matches, and the service sends valid base64 in
   * every truthy audio delta.
   */
  predicate WellFormed(e: ServerEvent) {
    && (e.kind.Other? ==> e.kind.name !in HandledTypes)
    && (e.kind == ResponseAudioDelta && Truthy(e.delta) ==> IsBase64(e.delta.value))
  }

  /** Every type string, parsed by `KindOf`, gives a well-formed event when its audio delta is valid base64. */
  lemma KindOfWellFormed(t: string, delta: Option<string>, usage: Option<UsageMetadata>)
    requires t == "response.audio.delta" && Truthy(delta) ==> IsBase64(delta.value)
    ensures WellFormed(ServerEvent(KindOf(t), delta, usage))
  {
  }

  /** `prev + messageObject.delta`: string concatenation turns a missing delta into "undefined". */
  function DeltaText(delta: Option<string>): (r: string)
    ensures delta.Some? ==> r == delta.value
    ensures delta.None? ==> r == "undefined"
  {
    match delta
    case Some(text) => text
    case None => "undefined"
  }

  /** `onAudioResponseComplete(combined)` on `response.audio.done`. */
  function FlushEffects(e: ServerEvent, queue: seq<string>): seq<Effect<ServerEvent>>
    requires AllDecodable(queue)
  {
    if e.kind == ResponseAudioDone then [AudioResponseComplete(Combine(queue))] else []
  }

  /** `onUsageReport(response.usage)` whenever it is present. */
  function UsageEffects(e: ServerEvent): seq<Effect<ServerEvent>> {
    match e.responseUsage
    case Some(u) => [UsageReport(u)]
    case None => []
  }

  /** `onReadyToReceiveAudio` on `session.updated`. */
  function ReadyEffects(e: ServerEvent): seq<Effect<ServerEvent>> {
    if e.kind == SessionUpdated then [ReadyToReceiveAudio] else []
  }

  /** The `message` listener: the six `if`s in source order, over the new state and the callbacks made. */
  function OnMessage(s: RealtimeState, e: ServerEvent): (r: (RealtimeState, seq<Effect<ServerEvent>>))
    requires QueueValid(s.hook) && WellFormed(e)
    ensures QueueValid(r.0.hook)
    ensures |r.1| > 0 && r.1[0] == MessageReceived(e)
  {
    var created :=
      if e.kind == ResponseCreated then s.(hook := s.hook.(isAiResponseInProgress := true), transcription := "") else s;
    var done :=
      if e.kind == ResponseAudioDone then created.(hook := created.hook.(isAiResponseInProgress := false, responseQueue := []))
      else created;
    var pushed :=
      if e.kind == ResponseAudioDelta && Truthy(e.delta) then done.(hook := done.hook.(responseQueue := done.hook.responseQueue + [e.delta.value]))
      else done;
    var updated := if e.kind == SessionUpdated then pushed.(hook := pushed.hook.(isInitialized := true)) else pushed;
    var transcribed :=
      if e.kind == ResponseAudioTranscriptDelta then updated.(transcription := updated.transcription + DeltaText(e.delta))
      else updated;
    assert QueueValid(transcribed.hook) by {
      if e.kind == ResponseAudioDelta && Truthy(e.delta) {
        assert DecodeChunk(e.delta.value).Some?;
        DecodeAllAppend(s.hook.responseQueue, [e.delta.value]);
      }
    }
    (transcribed, [MessageReceived(e)] + FlushEffects(e, s.hook.responseQueue) + UsageEffects(e) + ReadyEffects(e))
  }

  /** The `open` listener and the `session.update`-on-connect effect. */
  function OnSocketOpen(s: RealtimeState, instructions: string): (r: (RealtimeState, seq<Effect<ServerEvent>>))
    ensures r.0.hook.isWebSocketConnected && r.0.transcription == s.transcription
    ensures s.hook.socket.Some? && !s.hook.isWebSocketConnected ==> Transmitted(r.1) == [OpenAiSessionUpdate(instructions)]
  {
    var (hook, effects) := OnOpen<ServerEvent>(s.hook, OpenAiSessionUpdate(instructions));
    (s.(hook := hook), effects)
  }

  /**
   * The same effect re-run because `instructions` changed: while connected,
   * `session.update` is sent again through the socket ref.
   */
  function OnInstructionsChanged(s: RealtimeState, instructions: string): (sent: seq<ClientMessage>)
    ensures sent != [] <==> s.hook.isWebSocketConnected && s.hook.socket.Some?
    ensures sent != [] ==> sent == [OpenAiSessionUpdate(instructions)]
  {
    if s.hook.isWebSocketConnected && s.hook.socket.Some? then [OpenAiSessionUpdate(instructions)] else []
  }

  /** The `close` listener: `resetHookState` (which here also clears `transcription`), then `onSocketClose`. */
  function OnSocketClose(s: RealtimeState, event: CloseEvent): (r: (RealtimeState, seq<Effect<ServerEvent>>))
    ensures r.0 == InitialState() && r.1 == [SocketClosed(event)]
  {
    var (hook, effects) := OnClose<ServerEvent>(s.hook, event);
    (RealtimeState(hook, ""), effects)
  }

  /** `sendBase64AudioStringChunk`: wrap the chunk as `input_audio_buffer.append` and pass it to the gate. */
  function SendAudioChunk(s: RealtimeState, base64String: string): (sent: seq<ClientMessage>)
    ensures sent != [] <==> CanSend(s.hook)
    ensures sent != [] ==> sent == [OpenAiAudioAppend(base64String)]
  {
    if s.hook.socket.Some? then SendMessage(s.hook, OpenAiAudioAppend(base64String)) else []
  }

  // ---------------------------------------------------------------------------
  // Properties of the message handler

  /**
   * The callbacks one event causes, each at most once and in source order:
   * `onMessageReceived`, then `onAudioResponseComplete`, `onUsageReport` and
   * `onReadyToReceiveAudio`.
   */
  lemma OnMessageEffectsShape(s: RealtimeState, e: ServerEvent)
    requires QueueValid(s.hook) && WellFormed(e)
    ensures OnMessage(s, e).1
         == [MessageReceived(e)] + FlushEffects(e, s.hook.responseQueue) + UsageEffects(e) + ReadyEffects(e)
  {
  }

  /** The payloads one event hands on: the combined queue on `response.audio.done`, nothing otherwise. */
  lemma OnMessagePayloads(s: RealtimeState, e: ServerEvent)
    requires QueueValid(s.hook) && WellFormed(e)
    ensures Payloads(OnMessage(s, e).1) == (if e.kind == ResponseAudioDone then [Combine(s.hook.responseQueue)] else [])
  {
    var e0: seq<Effect<ServerEvent>> := [MessageReceived(e)];
    var e1, e2, e3 := FlushEffects(e, s.hook.responseQueue), UsageEffects(e), ReadyEffects(e);
    assert OnMessage(s, e).1 == e0 + e1 + e2 + e3;
    PayloadsAppend(e0, e1);
    PayloadsAppend(e0 + e1, e2);
    PayloadsAppend(e0 + e1 + e2, e3);
  }

  /** `response.usage` is forwarded exactly when present, whatever the event's type. */
  lemma UsageForwardedWhateverType(s: RealtimeState, e: ServerEvent)
    requires QueueValid(s.hook) && WellFormed(e)
    ensures Usages(OnMessage(s, e).1) == (if e.responseUsage.Some? then [e.responseUsage.value] else [])
  {
    var e0: seq<Effect<ServerEvent>> := [MessageReceived(e)];
    var e1, e2, e3 := FlushEffects(e, s.hook.responseQueue), UsageEffects(e), ReadyEffects(e);
    assert OnMessage(s, e).1 == e0 + e1 + e2 + e3;
    UsagesAppend(e0, e1);
    UsagesAppend(e0 + e1, e2);
    UsagesAppend(e0 + e1 + e2, e3);
  }

  /** An inbound event never transmits anything. */
  lemma OnMessageSendsNothing(s: RealtimeState, e: ServerEvent)
    requires QueueValid(s.hook) && WellFormed(e)
    ensures Transmitted(OnMessage(s, e).1) == []
  {
    var e0: seq<Effect<ServerEvent>> := [MessageReceived(e)];
    var e1, e2, e3 := FlushEffects(e, s.hook.responseQueue), UsageEffects(e), ReadyEffects(e);
    assert OnMessage(s, e).1 == e0 + e1 + e2 + e3;
    TransmittedAppend(e0, e1);
    TransmittedAppend(e0 + e1, e2);
    TransmittedAppend(e0 + e1 + e2, e3);
  }

  /** `response.created` marks a response in progress and clears the transcription, and changes nothing else. */
  lemma ResponseCreatedStartsTurn(s: RealtimeState, e: ServerEvent)
    requires QueueValid(s.hook) && WellFormed(e)
    requires e.kind == ResponseCreated
    ensures OnMessage(s, e).0 == RealtimeState(s.hook.(isAiResponseInProgress := true), "")
    ensures Payloads(OnMessage(s, e).1) == []
  {
    OnMessagePayloads(s, e);
  }

  /** `response.audio.delta` appends a truthy delta to the queue, in arrival order, and changes nothing else. */
  lemma AudioDeltaQueued(s: RealtimeState, e: ServerEvent)
    requires QueueValid(s.hook) && WellFormed(e)
    requires e.kind == ResponseAudioDelta
    ensures Truthy(e.delta) ==> OnMessage(s, e).0 == s.(hook := s.hook.(responseQueue := s.hook.responseQueue + [e.delta.value]))
    ensures !Truthy(e.delta) ==> OnMessage(s, e).0 == s
    ensures Payloads(OnMessage(s, e).1) == []
  {
    OnMessagePayloads(s, e);
  }

  /**
   * `response.audio.done` clears the in-progress flag, empties the queue and
   * hands on exactly one payload, whose bytes are the queued chunks' bytes in order.
   */
  lemma AudioDoneFlushes(s: RealtimeState, e: ServerEvent)
    requires QueueValid(s.hook) && WellFormed(e)
    requires e.kind == ResponseAudioDone
    ensures OnMessage(s, e).0 == s.(hook := s.hook.(isAiResponseInProgress := false, responseQueue := []))
    ensures Payloads(OnMessage(s, e).1) == [Combine(s.hook.responseQueue)]
    ensures Decode(Payloads(OnMessage(s, e).1)[0]) == Some(Concat(DecodeAll(s.hook.responseQueue)))
  {
    OnMessagePayloads(s, e);
  }

  /** `session.updated` sets `isInitialized` and changes nothing else; it hands on no audio. */
  lemma SessionUpdatedStep(s: RealtimeState, e: ServerEvent)
    requires QueueValid(s.hook) && WellFormed(e)
    requires e.kind == SessionUpdated
    ensures OnMessage(s, e).0 == s.(hook := s.hook.(isInitialized := true))
    ensures Payloads(OnMessage(s, e).1) == []
  {
    OnMessagePayloads(s, e);
  }

  /** `session.updated` sets `isInitialized` and calls `onReadyToReceiveAudio` exactly once; no other type does either. */
  lemma SessionUpdatedMakesReady(s: RealtimeState, e: ServerEvent)
    requires QueueValid(s.hook) && WellFormed(e)
    ensures OnMessage(s, e).0.hook.isInitialized == (s.hook.isInitialized || e.kind == SessionUpdated)
    ensures multiset(OnMessage(s, e).1)[ReadyToReceiveAudio] == (if e.kind == SessionUpdated then 1 else 0)
  {
    var e0: seq<Effect<ServerEvent>> := [MessageReceived(e)];
    var e1, e2, e3 := FlushEffects(e, s.hook.responseQueue), UsageEffects(e), ReadyEffects(e);
    assert OnMessage(s, e).1 == e0 + e1 + e2 + e3;
    assert multiset(OnMessage(s, e).1) == multiset(e0) + multiset(e1) + multiset(e2) + multiset(e3);
    assert multiset(e0)[ReadyToReceiveAudio] == 0;
    assert multiset(e1)[ReadyToReceiveAudio] == 0 && multiset(e2)[ReadyToReceiveAudio] == 0;
  }

  /** `response.audio_transcript.delta` appends its delta to the transcription and changes nothing else. */
  lemma TranscriptDeltaAppends(s: RealtimeState, e: ServerEvent)
    requires QueueValid(s.hook) && WellFormed(e)
    requires e.kind == ResponseAudioTranscriptDelta
    ensures OnMessage(s, e).0 == s.(transcription := s.transcription + DeltaText(e.delta))
    ensures Payloads(OnMessage(s, e).1) == []
  {
    OnMessagePayloads(s, e);
  }

  /** An event of any other type changes no state and hands on no audio. */
  lemma OtherTypesChangeNothing(s: RealtimeState, e: ServerEvent)
    requires QueueValid(s.hook) && WellFormed(e)
    requires e.kind.Other?
    ensures OnMessage(s, e).0 == s
    ensures Payloads(OnMessage(s, e).1) == []
  {
    OnMessagePayloads(s, e);
  }

  /**
   * Unlike the envelope variant, this one queues an audio delta even when no
   * response is in progress: a delta before `response.created` is held for
   * the next `response.audio.done`.
   */
  lemma DeltaOutsideTurnIsQueued(s: RealtimeState, e: ServerEvent)
    requires QueueValid(s.hook) && WellFormed(e)
    requires !s.hook.isAiResponseInProgress && e.kind == ResponseAudioDelta && Truthy(e.delta)
    ensures OnMessage(s, e).0.hook.responseQueue != [] && !OnMessage(s, e).0.hook.isAiResponseInProgress
  {
  }

  /** A close event resets every field, the transcription included, and then calls `onSocketClose` once. */
  lemma CloseResetsTranscription(s: RealtimeState, event: CloseEvent)
    ensures OnSocketClose(s, event).0.transcription == ""
    ensures OnSocketClose(s, event).0.hook == Initial()
    ensures |OnSocketClose(s, event).1| == 1 && OnSocketClose(s, event).1[0].SocketClosed?
  {
  }

  // ---------------------------------------------------------------------------
  // A sequence of events

  /** Every event of a sequence is well formed. */
  predicate AllWellFormed(events: seq<ServerEvent>)
    decreases |events|
  {
    events == [] || (WellFormed(events[0]) && AllWellFormed(events[1..]))
  }

  /** The state after a sequence of events, and every callback made along the way. */
  function Run(s: RealtimeState, events: seq<ServerEvent>): (r: (RealtimeState, seq<Effect<ServerEvent>>))
    requires QueueValid(s.hook) && AllWellFormed(events)
    ensures QueueValid(r.0.hook)
    decreases |events|
  {
    if events == [] then (s, [])
    else
      var (next, now) := OnMessage(s, events[0]);
      var (last, later) := Run(next, events[1..]);
      (last, now + later)
  }

  /** One step of a run: the first event's callbacks come before all later ones. */
  lemma RunCons(s: RealtimeState, events: seq<ServerEvent>)
    requires QueueValid(s.hook) && AllWellFormed(events) && events != []
    ensures Run(s, events).0 == Run(OnMessage(s, events[0]).0, events[1..]).0
    ensures Payloads(Run(s, events).1) == Payloads(OnMessage(s, events[0]).1) + Payloads(Run(OnMessage(s, events[0]).0, events[1..]).1)
  {
    PayloadsAppend(OnMessage(s, events[0]).1, Run(OnMessage(s, events[0]).0, events[1..]).1);
  }

  /** "Zm9v" is the encoding of "foo". */
  lemma FooEncoding()
    ensures Encode([102, 111, 111]) == "Zm9v"
  {
    var b: seq<byte> := [102, 111, 111];
    assert b[3..] == [];
    assert Encode(b) == EncodeTriple(102, 111, 111);
    assert 102 / 4 == 25 && (102 % 4) * 16 + 111 / 16 == 38 && (111 % 16) * 4 + 111 / 64 == 61 && 111 % 64 == 47;
    assert CharOf(25) == 'Z' && CharOf(38) == 'm' && CharOf(61) == '9' && CharOf(47) == 'v';
  }

  /** "YmFy" is the encoding of "bar". */
  lemma BarEncoding()
    ensures Encode([98, 97, 114]) == "YmFy"
  {
    var b: seq<byte> := [98, 97, 114];
    assert b[3..] == [];
    assert Encode(b) == EncodeTriple(98, 97, 114);
    assert 98 / 4 == 24 && (98 % 4) * 16 + 97 / 16 == 38 && (97 % 16) * 4 + 114 / 64 == 5 && 114 % 64 == 50;
    assert CharOf(24) == 'Y' && CharOf(38) == 'm' && CharOf(5) == 'F' && CharOf(50) == 'y';
  }

  /** Both chunks are valid base64, and combining them is their concatenation. */
  lemma FooBarEncodings()
    ensures IsBase64("Zm9v") && IsBase64("YmFy")
    ensures AllDecodable(["Zm9v", "YmFy"]) && Combine(["Zm9v", "YmFy"]) == "Zm9vYmFy"
  {
    FooEncoding();
    BarEncoding();
    EncodeIsBase64([102, 111, 111]);
    EncodeIsBase64([98, 97, 114]);
    CombineAligned([102, 111, 111], [98, 97, 114]);
  }

  /** `response.created`, one delta per chunk, `response.audio.done`. */
  function TwoChunkTurn(a: string, b: string): seq<ServerEvent> {
    [ServerEvent(ResponseCreated, None, None),
     ServerEvent(ResponseAudioDelta, Some(a), None),
     ServerEvent(ResponseAudioDelta, Some(b), None),
     ServerEvent(ResponseAudioDone, None, None)]
  }

  /** The same turn after `session.updated`. */
  function TwoChunkSession(a: string, b: string): seq<ServerEvent> {
    [ServerEvent(SessionUpdated, None, None)] + TwoChunkTurn(a, b)
  }

  /** The end of such a turn: one more delta, then `response.audio.done`, flush the queue with that delta appended. */
  lemma LastDeltaThenDone(s: RealtimeState, a: string, b: string)
    requires QueueValid(s.hook) && s.hook.responseQueue == [a]
    requires b != "" && IsBase64(b)
    ensures AllWellFormed([ServerEvent(ResponseAudioDelta, Some(b), None), ServerEvent(ResponseAudioDone, None, None)])
    ensures AllDecodable([a, b])
    ensures var r := Run(s, [ServerEvent(ResponseAudioDelta, Some(b), None), ServerEvent(ResponseAudioDone, None, None)]);
      && Payloads(r.1) == [Combine([a, b])]
      && !r.0.hook.isAiResponseInProgress && r.0.hook.isInitialized == s.hook.isInitialized && r.0.hook.responseQueue == []
  {
    var db := ServerEvent(ResponseAudioDelta, Some(b), None);
    var f := ServerEvent(ResponseAudioDone, None, None);
    assert DecodeChunk(b).Some?;
    assert [a] + [b] == [a, b];
    AudioDeltaQueued(s, db);
    var s4 := s.(hook := s.hook.(responseQueue := [a, b]));
    AudioDoneFlushes(s4, f);
    assert [db, f][1..] == [f] && [f][1..] == [];
    RunCons(s4, [f]);
    RunCons(s, [db, f]);
  }

  /**
   * A turn in which two chunks stream in, starting from an empty queue, hands
   * on exactly one payload, the combination of the two chunks in arrival
   * order, and ends idle with an empty queue; readiness is untouched.
   */
  lemma TwoChunkTurnFlushesOnce(s: RealtimeState, a: string, b: string)
    requires s.hook.responseQueue == []
    requires a != "" && b != "" && IsBase64(a) && IsBase64(b)
    ensures AllWellFormed(TwoChunkTurn(a, b))
    ensures AllDecodable([a, b])
    ensures Payloads(Run(s, TwoChunkTurn(a, b)).1) == [Combine([a, b])]
    ensures var last := Run(s, TwoChunkTurn(a, b)).0.hook;
      !last.isAiResponseInProgress && last.isInitialized == s.hook.isInitialized && last.responseQueue == []
  {
    var c := ServerEvent(ResponseCreated, None, None);
    var da := ServerEvent(ResponseAudioDelta, Some(a), None);
    var tail := [ServerEvent(ResponseAudioDelta, Some(b), None), ServerEvent(ResponseAudioDone, None, None)];
    assert DecodeChunk(a).Some?;
    var s2 := RealtimeState(s.hook.(isAiResponseInProgress := true), "");
    ResponseCreatedStartsTurn(s, c);
    assert [] + [a] == [a];
    AudioDeltaQueued(s2, da);
    var s3 := s2.(hook := s2.hook.(responseQueue := [a]));
    LastDeltaThenDone(s3, a, b);
    var events := TwoChunkTurn(a, b);
    assert events[1..] == [da] + tail && ([da] + tail)[1..] == tail;
    RunCons(s2, [da] + tail);
    RunCons(s, events);
  }

  /**
   * A session in which two chunks stream in after `session.updated` hands on
   * exactly one payload, the two chunks combined in arrival order, and ends
   * initialized and idle with an empty queue.
   */
  lemma TwoChunkSessionFlushesOnce(s: RealtimeState, a: string, b: string)
    requires s.hook.responseQueue == []
    requires a != "" && b != "" && IsBase64(a) && IsBase64(b)
    ensures AllWellFormed(TwoChunkSession(a, b))
    ensures AllDecodable([a, b])
    ensures Payloads(Run(s, TwoChunkSession(a, b)).1) == [Combine([a, b])]
    ensures var last := Run(s, TwoChunkSession(a, b)).0.hook;
      !last.isAiResponseInProgress && last.isInitialized && last.responseQueue == []
  {
    var u := ServerEvent(SessionUpdated, None, None);
    var s1 := s.(hook := s.hook.(isInitialized := true));
    SessionUpdatedStep(s, u);
    TwoChunkTurnFlushesOnce(s1, a, b);
    var events := TwoChunkSession(a, b);
    assert events[0] == u && events[1..] == TwoChunkTurn(a, b);
    RunCons(s, events);
  }

  /** The session in which "Zm9v" and "YmFy" stream in hands on exactly one payload, "Zm9vYmFy". */
  lemma FooBarSession(s: RealtimeState)
    requires s.hook.responseQueue == []
    ensures AllWellFormed(TwoChunkSession("Zm9v", "YmFy"))
    ensures Payloads(Run(s, TwoChunkSession("Zm9v", "YmFy")).1) == ["Zm9vYmFy"]
  {
    FooBarEncodings();
    TwoChunkSessionFlushesOnce(s, "Zm9v", "YmFy");
  }

  // ---------------------------------------------------------------------------
  // The hook as an object whose refs and state the listeners update in place

  class OpenAiRealTime {
    var webSocket: Option<SocketReadyState>
    var isWebSocketConnecting: bool
    var isWebSocketConnected: bool
    var isInitialized: bool
    var isAiResponseInProgress: bool
    var transcription: string
    var responseQueue: seq<string>

    function State(): RealtimeState
      reads this
    {
      RealtimeState(
        HookState(webSocket, isWebSocketConnecting, isWebSocketConnected, isInitialized, isAiResponseInProgress, responseQueue),
        transcription)
    }

    predicate Valid()
      reads this
    {
      QueueValid(State().hook)
    }

    constructor ()
      ensures Valid() && State() == InitialState()
    {
      webSocket := None;
      isWebSocketConnecting, isWebSocketConnected, isInitialized, isAiResponseInProgress := false, false, false, false;
      transcription := "";
      responseQueue := [];
    }

    method ResetHookState()
      modifies this
      ensures Valid() && State() == InitialState()
    {
      webSocket := None;
      isWebSocketConnecting := false;
      isWebSocketConnected := false;
      isInitialized := false;
      responseQueue := [];
      isAiResponseInProgress := false;
      transcription := "";
    }

    method ConnectWebSocket(constructionThrows: bool)
      requires Valid()
      modifies this
      ensures Valid() && State() == old(State()).(hook := Connect(old(State()).hook, constructionThrows))
    {
      isWebSocketConnecting := true;
      if webSocket.Some? {
        return;
      }
      if !constructionThrows {
        webSocket := Some(Connecting);
      }
      isWebSocketConnecting := false;
    }

    method HandleOpen(instructions: string) returns (effects: seq<Effect<ServerEvent>>)
      requires Valid()
      modifies this
      ensures Valid() && (State(), effects) == OnSocketOpen(old(State()), instructions)
    {
      var wasConnected := isWebSocketConnected;
      if webSocket.Some? {
        webSocket := Some(SocketReadyState.Open);
      }
      isWebSocketConnected := true;
      effects := [];
      if !wasConnected && webSocket.Some? {
        effects := [Transmit(OpenAiSessionUpdate(instructions))];
      }
    }

    method InstructionsChanged(instructions: string) returns (sent: seq<ClientMessage>)
      ensures sent == OnInstructionsChanged(State(), instructions)
    {
      sent := [];
      if isWebSocketConnected && webSocket.Some? {
        sent := [OpenAiSessionUpdate(instructions)];
      }
    }

    method HandleClose(event: CloseEvent) returns (effects: seq<Effect<ServerEvent>>)
      modifies this
      ensures Valid() && (State(), effects) == OnSocketClose(old(State()), event)
    {
      isWebSocketConnected := false;
      ResetHookState();
      effects := [SocketClosed(event)];
    }

    method HandleError(error: ErrorEvent, hasOnSocketError: bool) returns (effects: seq<Effect<ServerEvent>>)
      ensures effects == OnError<ServerEvent>(State().hook, error, hasOnSocketError).1
    {
      effects := [];
      if hasOnSocketError {
        effects := [SocketError(error)];
      }
    }

    method HandleMessage(e: ServerEvent) returns (effects: seq<Effect<ServerEvent>>)
      requires Valid() && WellFormed(e)
      modifies this
      ensures Valid() && (State(), effects) == OnMessage(old(State()), e)
    {
      effects := [MessageReceived(e)];
      if e.kind == ResponseCreated {
        isAiResponseInProgress := true;
        transcription := "";
      }
      if e.kind == ResponseAudioDone {
        isAiResponseInProgress := false;
        var combinedBase64 := CombineBase64ArrayList(responseQueue);
        responseQueue := [];
        effects := effects + [AudioResponseComplete(combinedBase64)];
      }
      if e.kind == ResponseAudioDelta {
        var audioChunk := e.delta;
        if audioChunk.Some? && audioChunk.value != "" {
          DecodeAllAppend(responseQueue, [audioChunk.value]);
          responseQueue := responseQueue + [audioChunk.value];
        }
      }
      if e.responseUsage.Some? {
        effects := effects + [UsageReport(e.responseUsage.value)];
      }
      if e.kind == SessionUpdated {
        isInitialized := true;
        effects := effects + [ReadyToReceiveAudio];
      }
      if e.kind == ResponseAudioTranscriptDelta {
        transcription := transcription + DeltaText(e.delta);
      }
      assert effects == [MessageReceived(e)] + FlushEffects(e, old(responseQueue)) + UsageEffects(e) + ReadyEffects(e);
    }

    method DisconnectSocket()
      requires Valid()
      modifies this
      ensures Valid() && State() == old(State()).(hook := Disconnect(old(State()).hook))
    {
      if webSocket == Some(Connecting) || webSocket == Some(SocketReadyState.Open) {
        webSocket := Some(Closing);
      }
    }

    method SendMessage(messageObject: ClientMessage) returns (sent: seq<ClientMessage>)
      ensures sent == Session.SendMessage(State().hook, messageObject)
      ensures sent != [] <==> webSocket == Some(SocketReadyState.Open) && isWebSocketConnected && isInitialized
    {
      sent := [];
      if webSocket.Some? && webSocket.value == SocketReadyState.Open && isWebSocketConnected && isInitialized {
        sent := [messageObject];
      }
    }

    method SendBase64AudioStringChunk(base64String: string) returns (sent: seq<ClientMessage>)
      ensures sent == SendAudioChunk(State(), base64String)
    {
      sent := [];
      if webSocket.Some? {
        sent := SendMessage(OpenAiAudioAppend(base64String));
      }
    }
  }
}
