# Realtime voice session core, in Dafny

This project models the audio core of a mobile client that holds a live
spoken conversation with a cloud realtime-AI service over one WebSocket.
Microphone audio goes up as base64 PCM chunks. Synthesized speech comes down
as a stream of base64 deltas, which the client collects into one utterance
per turn and hands on for playback.

The modules follow the program's structure:

- `Base64` is the codec that `Buffer.from(text, "base64")` and
  `toString("base64")` stand for. It follows section 4 of RFC 4648: the
  standard alphabet and `=` padding.
- `CodecBridge` models `combineBase64ArrayList`, which both provider hooks
  define identically. It decodes every chunk, counting a falsy chunk as zero
  bytes, copies the chunks into one buffer at a running offset, and encodes
  that buffer once. The method keeps the source's array and loop, and is
  proved equal to the function `Combine`. Decoding `Combine(xs)` gives the
  in-order concatenation of the decoded chunks.
- `Session` holds what the two realtime hooks share: the socket ref, the
  four state flags, the response queue, `resetHookState`, the `open`,
  `close` and `error` listeners, `disconnectSocket`, and the outbound gate
  `sendMessage`.
- `GeminiLive` models `useGeminiLiveAudio`, where each inbound message is
  one nested envelope.
- `OpenAiRealtime` models `useOpenAiRealTime`, where inbound events are
  typed, and which also keeps a transcription.
- `AudioBufferQueue` models `useAudioBufferQueue`, which tracks the id of the
  last buffer enqueued. When the node reports that this buffer ended, it
  resets the playing flags.

Each hook appears twice:

- As pure step functions from state to new state plus the ordered list of
  effects: the callbacks called and the frames sent. The lemmas are proved
  about these.
- As a class whose fields are the hook's refs and state. Its methods update
  those fields in place, and each is proved to match its step function.

React state setters are modelled as immediate field writes. The effects that
run when `isWebSocketConnected` changes are folded into the `open` step.

Some behaviour is modelled exactly as written:

- `connectWebSocket` called while a socket is held returns before its
  `try`/`finally`, so `isWebSocketConnecting` stays true.
- A transcript delta without `delta` appends the text "undefined", because
  JavaScript's `prev + undefined` does that.
- `sendMessage` checks only the socket, the connected flag and the
  initialized flag. Neither hook gates transmission on playback or on a
  response in progress.
- The OpenAI hook queues an audio delta even when no response is in
  progress.
- `resetState` of the buffer queue neither stops nor clears the node,
  because those calls are commented out.
- Enqueueing never starts playback, because that call is commented out too.

## Model

| member | source | states |
|---|---|---|
| Base64.Encode | react-native-app/hooks/useGeminiLiveAudio.ts:230 | the encoding of n bytes is 4·⌈n/3⌉ characters long |
| Base64.Decode | react-native-app/hooks/useGeminiLiveAudio.ts:206 | a length that is not a multiple of four is rejected; 4k accepted characters decode to between 3k-2 and 3k bytes |
| Base64.DecodeEncode | react-native-app/hooks/useGeminiLiveAudio.ts:206 | decoding undoes encoding for every byte string |
| Base64.EncodeIsBase64 | react-native-app/hooks/useGeminiLiveAudio.ts:230 | every encoding is valid padded base64 |
| Base64.EncodeAppend | react-native-app/hooks/useGeminiLiveAudio.ts:230 | when the left part is a whole number of 3-byte groups, encoding the concatenation is the concatenation of the encodings |
| CodecBridge.DecodeChunk | react-native-app/hooks/useGeminiLiveAudio.ts:205-215 | a falsy text gives zero bytes; any other text decodes exactly when it is valid base64 |
| CodecBridge.DecodeAll | react-native-app/hooks/useGeminiLiveAudio.ts:204-216 | one decoded chunk per input text, in list order; a falsy text gives zero bytes |
| CodecBridge.DecodeAllAppend | react-native-app/hooks/useGeminiLiveAudio.ts:204-216 | decoding distributes over appending lists of texts |
| CodecBridge.TotalLength | react-native-app/hooks/useGeminiLiveAudio.ts:219 | the `reduce` sum is at least every chunk's length, and is zero exactly when every chunk is empty |
| CodecBridge.ConcatLength | react-native-app/hooks/useGeminiLiveAudio.ts:219-222 | the combined buffer's length equals the sum of the chunk lengths (`totalLength`) |
| CodecBridge.ConcatAppend | react-native-app/hooks/useGeminiLiveAudio.ts:224-227 | concatenating lists of chunks keeps their order |
| CodecBridge.OffsetWithinTotal | react-native-app/hooks/useGeminiLiveAudio.ts:224-227 | chunk i starts at offset TotalLength(chunks[..i]) and ends within `totalLength` |
| CodecBridge.Combine | react-native-app/hooks/ai/useOpenAiRealTimeHook.ts:191-221 | the combined string decodes to the in-order concatenation of every chunk's bytes |
| CodecBridge.SetAt | react-native-app/hooks/useGeminiLiveAudio.ts:225 | `combined.set(chunk, offset)` writes the chunk at the offset and leaves every other byte unchanged |
| CodecBridge.CombineBase64ArrayList | react-native-app/hooks/useGeminiLiveAudio.ts:203-233 | the array-and-offset loop computes exactly `Combine`, so its result decodes to the in-order concatenation of the chunks |
| CodecBridge.CombineEmpty | react-native-app/hooks/useGeminiLiveAudio.ts:219-230 | combining no chunks gives the empty string |
| CodecBridge.CombineAppend | react-native-app/hooks/useGeminiLiveAudio.ts:203-233 | combining xs ++ ys decodes to the bytes of xs followed by the bytes of ys |
| CodecBridge.CombinePair | react-native-app/hooks/useGeminiLiveAudio.ts:203-233 | combining two chunks is the encoding of their decoded bytes laid end to end |
| CodecBridge.FalsyChunkContributesNothing | react-native-app/hooks/useGeminiLiveAudio.ts:205-215 | a falsy chunk anywhere in the list changes nothing in the result |
| CodecBridge.CombineSingle | react-native-app/hooks/useGeminiLiveAudio.ts:203-233 | combining the encoding of some bytes gives that encoding back |
| CodecBridge.CombineAligned | react-native-app/hooks/useGeminiLiveAudio.ts:203-233 | when the first chunk carries whole 3-byte groups, combining two encodings is string concatenation |
| Session.ResetHookState | react-native-app/hooks/useGeminiLiveAudio.ts:31-38 | the socket ref becomes null, all four flags become false, the queue becomes empty |
| Session.Connect | react-native-app/hooks/useGeminiLiveAudio.ts:40-119 | with a socket held, only the connecting flag changes (it is left true); otherwise a CONNECTING socket is held unless construction throws, and the flag is cleared |
| Session.OnOpen | react-native-app/hooks/useGeminiLiveAudio.ts:56-59 | the socket is OPEN and connected is set; the only effect is the setup frame, sent exactly when a socket is held and the hook was not connected yet; no callback is called |
| Session.OnClose | react-native-app/hooks/useGeminiLiveAudio.ts:61-65 | the state becomes the initial state, then `onSocketClose` is called once with the event |
| Session.OnError | react-native-app/hooks/useGeminiLiveAudio.ts:67-70 | the state is unchanged; `onSocketError` is called once with the error event when the caller supplied it, and nothing is called otherwise |
| Session.ErrorLeavesSessionAlone | react-native-app/hooks/useGeminiLiveAudio.ts:67-70 | an error leaves the outbound gate as it was and hands on no audio, no usage and no frame |
| Session.Disconnect | react-native-app/hooks/useGeminiLiveAudio.ts:132-136 | a connecting or open socket moves to CLOSING; a closing or closed socket, or no socket, leaves the state as it was; no other field changes |
| Session.CanSend | react-native-app/hooks/useGeminiLiveAudio.ts:159-166 | the gate is open only with an OPEN socket held and the hook connected and initialized; without a socket, or unconnected, or uninitialized, it is shut |
| Session.SendMessage | react-native-app/hooks/useGeminiLiveAudio.ts:157-169 | a frame goes out if and only if the socket is OPEN and the hook is connected and initialized, and it is the given message |
| Session.CloseResetsThenNotifies | react-native-app/hooks/useGeminiLiveAudio.ts:61-65 | after a close, no socket, every flag false, an empty queue, and exactly one `onSocketClose` with no audio and no frame |
| Session.ConnectWhileHeldKeepsSocket | react-native-app/hooks/useGeminiLiveAudio.ts:42-45 | connecting while a socket is held keeps that socket and leaves the connecting flag true |
| Session.DisconnectIdempotent | react-native-app/hooks/useGeminiLiveAudio.ts:132-136 | disconnecting twice is disconnecting once, and disconnecting without a socket does nothing |
| Session.NothingSentBeforeReady | react-native-app/hooks/useGeminiLiveAudio.ts:159-166 | nothing is sent unless initialized, connected and OPEN |
| Session.NothingSentAfterDisconnect | react-native-app/hooks/useGeminiLiveAudio.ts:132-136 | after `disconnectSocket` nothing is sent, whatever the state was |
| Session.NothingSentAfterClose | react-native-app/hooks/ai/useOpenAiRealTimeHook.ts:153-165 | after a close event the gate sends nothing |
| Session.SharedHandlersKeepQueueValid | react-native-app/hooks/useGeminiLiveAudio.ts:29-38 | connect, open, close and disconnect keep every queued chunk truthy and decodable |
| GeminiLive.AudioChunks | react-native-app/hooks/useGeminiLiveAudio.ts:87-94 | the loop pushes at most one chunk per part, and every chunk pushed is truthy |
| GeminiLive.AudioChunksValid | react-native-app/hooks/useGeminiLiveAudio.ts:87-94 | the loop pushes only truthy, decodable chunks |
| GeminiLive.QueueValidAppend | react-native-app/hooks/useGeminiLiveAudio.ts:87-94 | appending the pushed chunks keeps the queue valid |
| GeminiLive.AudioChunksAppend | react-native-app/hooks/useGeminiLiveAudio.ts:88-93 | the chunks of a prefix of the parts come before the chunks of the rest |
| GeminiLive.AudioChunksAllTruthy | react-native-app/hooks/useGeminiLiveAudio.ts:88-93 | when every part has truthy data, the i-th pushed chunk is the i-th part's data |
| GeminiLive.AudioChunksNoneTruthy | react-native-app/hooks/useGeminiLiveAudio.ts:89-92 | parts without truthy data push nothing |
| GeminiLive.OnMessage | react-native-app/hooks/useGeminiLiveAudio.ts:72-112 | the message handler keeps the queue valid, and its first callback is `onMessageReceived(message)` |
| GeminiLive.OnSocketOpen | react-native-app/hooks/useGeminiLiveAudio.ts:146-155 | on connect, `{setup: {}}` is sent once through the held socket |
| GeminiLive.SendAudioChunk | react-native-app/hooks/useGeminiLiveAudio.ts:171-190 | a chunk goes out if and only if the gate is open, wrapped as `realtimeInput.audio` with MIME type `audio/pcm;rate=16000` |
| GeminiLive.OnMessageEffectsShape | react-native-app/hooks/useGeminiLiveAudio.ts:79-111 | the callbacks come in source order: received, ready, flush over the queue including this message's chunks, usage |
| GeminiLive.OnMessagePayloads | react-native-app/hooks/useGeminiLiveAudio.ts:100-107 | one payload, the combination of the whole queue, exactly when the message completes the generation |
| GeminiLive.OnMessageUsages | react-native-app/hooks/useGeminiLiveAudio.ts:109-111 | `usageMetadata` is reported exactly when present |
| GeminiLive.OnMessageSendsNothing | react-native-app/hooks/useGeminiLiveAudio.ts:72-112 | an inbound message sends no frame |
| GeminiLive.SetupCompleteMakesReady | react-native-app/hooks/useGeminiLiveAudio.ts:81-84 | `setupComplete` sets `isInitialized` and calls `onReadyToReceiveAudio` exactly once; without it, neither happens |
| GeminiLive.ChunksQueuedInArrivalOrder | react-native-app/hooks/useGeminiLiveAudio.ts:85-98 | without completion, truthy chunks are appended in arrival order, `serverContent` marks a response in progress, and no audio is handed on |
| GeminiLive.GenerationCompleteFlushes | react-native-app/hooks/useGeminiLiveAudio.ts:100-107 | completion clears the flag and the queue and hands on one payload that decodes to the old queue's bytes followed by this message's chunk bytes |
| GeminiLive.EmptyTurnGivesEmptyPayload | react-native-app/hooks/useGeminiLiveAudio.ts:100-107 | a completion with no audio at all hands on the empty string |
| GeminiLive.UsageForwardedWhenPresent | react-native-app/hooks/useGeminiLiveAudio.ts:109-111 | usage is forwarded exactly when present and no frame is sent |
| GeminiLive.MessageLeavesConnectionAlone | react-native-app/hooks/useGeminiLiveAudio.ts:72-112 | a message changes neither the socket nor the connecting and connected flags |
| GeminiLive.HandlersKeepChunksInTurn | react-native-app/hooks/useGeminiLiveAudio.ts:96-107 | every handler keeps the invariant that a non-empty queue implies a response in progress |
| GeminiLive.GeminiLiveAudio.constructor | react-native-app/hooks/useGeminiLiveAudio.ts:24-29 | the refs and state start at their initial values |
| GeminiLive.GeminiLiveAudio.ResetHookState | react-native-app/hooks/useGeminiLiveAudio.ts:31-38 | the fields become the initial state |
| GeminiLive.GeminiLiveAudio.ConnectWebSocket | react-native-app/hooks/useGeminiLiveAudio.ts:40-119 | the fields change as `Connect` says |
| GeminiLive.GeminiLiveAudio.HandleOpen | react-native-app/hooks/useGeminiLiveAudio.ts:56-59 | the fields and effects are those of `OnSocketOpen` |
| GeminiLive.GeminiLiveAudio.HandleClose | react-native-app/hooks/useGeminiLiveAudio.ts:61-65 | the fields and effects are those of `OnClose` |
| GeminiLive.GeminiLiveAudio.HandleError | react-native-app/hooks/useGeminiLiveAudio.ts:67-70 | `onSocketError?.(error)`: one call with the event when a callback was supplied, none otherwise, and no field changes |
| GeminiLive.GeminiLiveAudio.PushAudioChunks | react-native-app/hooks/useGeminiLiveAudio.ts:87-94 | the `for` loop appends exactly `AudioChunks(parts)` to the queue and changes no other field |
| GeminiLive.GeminiLiveAudio.UpdateTurn | react-native-app/hooks/useGeminiLiveAudio.ts:96-107 | `serverContent` marks a response in progress; completion clears the flag and the queue and hands on the combination of the queue |
| GeminiLive.GeminiLiveAudio.HandleMessage | react-native-app/hooks/useGeminiLiveAudio.ts:72-112 | the in-place handler produces the fields and callbacks of `OnMessage` |
| GeminiLive.GeminiLiveAudio.DisconnectSocket | react-native-app/hooks/useGeminiLiveAudio.ts:132-136 | the fields change as `Disconnect` says |
| GeminiLive.GeminiLiveAudio.SendMessage | react-native-app/hooks/useGeminiLiveAudio.ts:157-169 | sends the message if and only if the socket is OPEN and the hook is connected and initialized |
| GeminiLive.GeminiLiveAudio.SendBase64AudioStringChunk | react-native-app/hooks/useGeminiLiveAudio.ts:171-190 | sends exactly what `SendAudioChunk` says |
| OpenAiRealtime.KindOf | react-native-app/hooks/ai/useOpenAiRealTimeHook.ts:80-107 | each of the five compared strings selects its own branch and only that string does ("response.created", "response.audio.done", "response.audio.delta", "session.updated", "response.audio_transcript.delta"); any other string is carried as `Other` unchanged |
| OpenAiRealtime.KindOfWellFormed | react-native-app/hooks/ai/useOpenAiRealTimeHook.ts:78-107 | every parsed type string gives a well-formed event, given a valid base64 audio delta |
| OpenAiRealtime.OnMessage | react-native-app/hooks/ai/useOpenAiRealTimeHook.ts:74-108 | the event handler keeps the queue valid, and its first callback is `onMessageReceived(event)` |
| OpenAiRealtime.OnSocketOpen | react-native-app/hooks/ai/useOpenAiRealTimeHook.ts:57-60 | on connect the hook is connected, and `session.update` with the instructions is sent once through the held socket |
| OpenAiRealtime.OnInstructionsChanged | react-native-app/hooks/ai/useOpenAiRealTimeHook.ts:141-151 | new instructions are sent as `session.update` if and only if connected with a socket held |
| OpenAiRealtime.OnSocketClose | react-native-app/hooks/ai/useOpenAiRealTimeHook.ts:62-67 | the close resets every field, the transcription included, then calls `onSocketClose` once |
| OpenAiRealtime.SendAudioChunk | react-native-app/hooks/ai/useOpenAiRealTimeHook.ts:167-177 | a chunk goes out if and only if the gate is open, wrapped as `input_audio_buffer.append` |
| OpenAiRealtime.OnMessageEffectsShape | react-native-app/hooks/ai/useOpenAiRealTimeHook.ts:79-104 | an event causes `onMessageReceived`, then `onAudioResponseComplete` on `response.audio.done`, `onUsageReport` when `response.usage` is present and `onReadyToReceiveAudio` on `session.updated`, each at most once and in that order, and nothing else |
| OpenAiRealtime.OnMessagePayloads | react-native-app/hooks/ai/useOpenAiRealTimeHook.ts:84-91 | one payload, the combined queue, exactly on `response.audio.done` |
| OpenAiRealtime.UsageForwardedWhateverType | react-native-app/hooks/ai/useOpenAiRealTimeHook.ts:98-100 | `response.usage` is forwarded exactly when present, whatever the event's type |
| OpenAiRealtime.OnMessageSendsNothing | react-native-app/hooks/ai/useOpenAiRealTimeHook.ts:74-108 | an inbound event sends no frame |
| OpenAiRealtime.ResponseCreatedStartsTurn | react-native-app/hooks/ai/useOpenAiRealTimeHook.ts:80-83 | `response.created` sets the in-progress flag, clears the transcription, and changes nothing else |
| OpenAiRealtime.AudioDeltaQueued | react-native-app/hooks/ai/useOpenAiRealTimeHook.ts:92-97 | a truthy audio delta is appended to the queue; a falsy one changes nothing |
| OpenAiRealtime.AudioDoneFlushes | react-native-app/hooks/ai/useOpenAiRealTimeHook.ts:84-91 | `response.audio.done` clears the flag and the queue and hands on one payload that decodes to the queued bytes in order |
| OpenAiRealtime.SessionUpdatedStep | react-native-app/hooks/ai/useOpenAiRealTimeHook.ts:101-104 | `session.updated` sets `isInitialized` and changes nothing else |
| OpenAiRealtime.SessionUpdatedMakesReady | react-native-app/hooks/ai/useOpenAiRealTimeHook.ts:101-104 | `onReadyToReceiveAudio` is called exactly once on `session.updated` and never on any other type |
| OpenAiRealtime.DeltaText | react-native-app/hooks/ai/useOpenAiRealTimeHook.ts:106 | `prev + messageObject.delta` appends the delta's text, or the word "undefined" when the field is absent |
| OpenAiRealtime.TranscriptDeltaAppends | react-native-app/hooks/ai/useOpenAiRealTimeHook.ts:105-107 | a transcript delta is appended to the transcription ("undefined" when absent), and nothing else changes |
| OpenAiRealtime.OtherTypesChangeNothing | react-native-app/hooks/ai/useOpenAiRealTimeHook.ts:74-108 | an event whose type string is none of the five compared ones changes no state and hands on no audio |
| OpenAiRealtime.DeltaOutsideTurnIsQueued | react-native-app/hooks/ai/useOpenAiRealTimeHook.ts:92-97 | an audio delta arriving with no response in progress is still queued |
| OpenAiRealtime.CloseResetsTranscription | react-native-app/hooks/ai/useOpenAiRealTimeHook.ts:29-37 | after a close the transcription is empty and the shared state is initial |
| OpenAiRealtime.Run | react-native-app/hooks/ai/useOpenAiRealTimeHook.ts:74-108 | any sequence of events keeps the queue valid |
| OpenAiRealtime.RunCons | react-native-app/hooks/ai/useOpenAiRealTimeHook.ts:74-108 | the first event's payloads come before those of all later events |
| OpenAiRealtime.LastDeltaThenDone | react-native-app/hooks/ai/useOpenAiRealTimeHook.ts:84-97 | a delta followed by `response.audio.done` hands on the queue with that delta appended, as one payload, and leaves the queue empty |
| OpenAiRealtime.TwoChunkTurnFlushesOnce | react-native-app/hooks/ai/useOpenAiRealTimeHook.ts:80-97 | `response.created`, two deltas and `response.audio.done` hand on exactly one payload, the two chunks combined in arrival order, and leave the hook idle with an empty queue |
| OpenAiRealtime.TwoChunkSessionFlushesOnce | react-native-app/hooks/ai/useOpenAiRealTimeHook.ts:80-104 | `session.updated`, `response.created`, two deltas and `response.audio.done` hand on exactly one payload, the two chunks combined in arrival order, and leave the hook initialized and idle with an empty queue |
| OpenAiRealtime.FooBarSession | react-native-app/hooks/ai/useOpenAiRealTimeHook.ts:84-97 | the deltas "Zm9v" and "YmFy" are handed on as the single payload "Zm9vYmFy" |
| OpenAiRealtime.OpenAiRealTime.constructor | react-native-app/hooks/ai/useOpenAiRealTimeHook.ts:21-27 | the refs and state start at their initial values |
| OpenAiRealtime.OpenAiRealTime.ResetHookState | react-native-app/hooks/ai/useOpenAiRealTimeHook.ts:29-37 | the fields, the transcription included, become the initial state |
| OpenAiRealtime.OpenAiRealTime.ConnectWebSocket | react-native-app/hooks/ai/useOpenAiRealTimeHook.ts:39-115 | the fields change as `Connect` says |
| OpenAiRealtime.OpenAiRealTime.HandleOpen | react-native-app/hooks/ai/useOpenAiRealTimeHook.ts:57-60 | the fields and effects are those of `OnSocketOpen` |
| OpenAiRealtime.OpenAiRealTime.InstructionsChanged | react-native-app/hooks/ai/useOpenAiRealTimeHook.ts:141-151 | sends what `OnInstructionsChanged` says |
| OpenAiRealtime.OpenAiRealTime.HandleClose | react-native-app/hooks/ai/useOpenAiRealTimeHook.ts:62-67 | the fields and effects are those of `OnSocketClose` |
| OpenAiRealtime.OpenAiRealTime.HandleError | react-native-app/hooks/ai/useOpenAiRealTimeHook.ts:69-72 | `onSocketError?.(error)`: one call with the event when a callback was supplied, none otherwise, and no field changes |
| OpenAiRealtime.OpenAiRealTime.HandleMessage | react-native-app/hooks/ai/useOpenAiRealTimeHook.ts:74-108 | the in-place handler produces the fields and callbacks of `OnMessage` |
| OpenAiRealtime.OpenAiRealTime.DisconnectSocket | react-native-app/hooks/ai/useOpenAiRealTimeHook.ts:128-132 | the fields change as `Disconnect` says |
| OpenAiRealtime.OpenAiRealTime.SendMessage | react-native-app/hooks/ai/useOpenAiRealTimeHook.ts:153-165 | sends the message if and only if the socket is OPEN and the hook is connected and initialized |
| OpenAiRealtime.OpenAiRealTime.SendBase64AudioStringChunk | react-native-app/hooks/ai/useOpenAiRealTimeHook.ts:167-177 | sends exactly what `SendAudioChunk` says |
| AudioBufferQueue.SetPlaying | react-native-app/hooks/audio/useAudioBufferQueue.ts:14-17 | the playing state and its ref both take the new value; nothing else changes |
| AudioBufferQueue.Reset | react-native-app/hooks/audio/useAudioBufferQueue.ts:21-29 | not playing, empty last id, the node untouched |
| AudioBufferQueue.Mounted | react-native-app/hooks/audio/useAudioBufferQueue.ts:31-41 | after mounting, a fresh node is held, nothing plays, and no last id is recorded |
| AudioBufferQueue.Enqueue | react-native-app/hooks/audio/useAudioBufferQueue.ts:58-68 | returns the node's id unchanged (undefined without a node), records it as the last id only when truthy, and leaves the playing flags alone |
| AudioBufferQueue.Play | react-native-app/hooks/audio/useAudioBufferQueue.ts:43-56 | with a node and a non-empty last id: one `start()`, playing set, handler installed; otherwise nothing changes |
| AudioBufferQueue.CallbacksKeepValid | react-native-app/hooks/audio/useAudioBufferQueue.ts:14-17 | every callback keeps the playing state equal to its ref, and playing implies an installed handler and a non-empty last id |
| AudioBufferQueue.ResetIdempotent | react-native-app/hooks/audio/useAudioBufferQueue.ts:21-29 | `resetState` twice is `resetState` once |
| AudioBufferQueue.ResetLeavesSinkAlone | react-native-app/hooks/audio/useAudioBufferQueue.ts:25-28 | `resetState` changes only the flags and the last id, never the node |
| AudioBufferQueue.EnqueueNeverStartsPlayback | react-native-app/hooks/audio/useAudioBufferQueue.ts:64-66 | enqueueing neither starts the node nor sets playing nor installs the handler |
| AudioBufferQueue.PlayStartsIffReady | react-native-app/hooks/audio/useAudioBufferQueue.ts:43-47 | `start()` is called exactly when the last id is non-empty |
| AudioBufferQueue.PlayBeforeEnqueueDoesNothing | react-native-app/hooks/audio/useAudioBufferQueue.ts:43-44 | `playAudio` right after mounting does nothing |
| AudioBufferQueue.DrainOnlyForNewest | react-native-app/hooks/audio/useAudioBufferQueue.ts:48-54 | once the handler is installed, a buffer's end resets the hook if and only if it is the last enqueued buffer; any other end changes nothing |
| AudioBufferQueue.EnqueueMovesDrainPoint | react-native-app/hooks/audio/useAudioBufferQueue.ts:58-63 | after enqueueing a newer truthy id, the older buffer's end changes nothing and the newer one's end drains |
| AudioBufferQueue.EndAfterDrainIgnored | react-native-app/hooks/audio/useAudioBufferQueue.ts:50-53 | after the drain, the end of any real buffer is ignored, so the drain fires once |
| AudioBufferQueue.RunKeepsValid | react-native-app/hooks/audio/useAudioBufferQueue.ts:14-68 | every sequence of calls and node callbacks keeps the invariant |
| AudioBufferQueue.Ended | react-native-app/hooks/audio/useAudioBufferQueue.ts:48-54 | with the handler installed, the end of the last recorded id resets the hook; every other end, and any end before the handler is installed, changes nothing |
| AudioBufferQueue.GaplessPlayback | react-native-app/hooks/audio/useAudioBufferQueue.ts:43-68 | enqueue a, play, enqueue b: the end of a leaves the hook playing, and only the end of b drains it, with one `start()` call |
| AudioBufferQueue.EnqueueAllRecords | react-native-app/hooks/audio/useAudioBufferQueue.ts:58-68 | enqueueing a run of ids appends them to the node's log in order, keeps the flags and the handler, and makes a truthy last id the drain point |
| AudioBufferQueue.EndsOfOthersIgnored | react-native-app/hooks/audio/useAudioBufferQueue.ts:48-54 | any number of ends of ids other than the last recorded one change nothing |
| AudioBufferQueue.EndsAfterDrainIgnored | react-native-app/hooks/audio/useAudioBufferQueue.ts:48-54 | once drained, any number of ends of any ids change nothing |
| AudioBufferQueue.DrainsOncePerRun | react-native-app/hooks/audio/useAudioBufferQueue.ts:43-68 | for any run of buffers, the first enqueued before play and the rest during playback: every end before the newest's keeps the hook playing with the newest as drain point, the newest's end resets it, and every later end is ignored |
| AudioBufferQueue.AudioBufferQueueHook.constructor | react-native-app/hooks/audio/useAudioBufferQueue.ts:9-19 | the refs and state start at their initial values |
| AudioBufferQueue.AudioBufferQueueHook.UpdateIsAudioPlaying | react-native-app/hooks/audio/useAudioBufferQueue.ts:14-17 | the fields change as `SetPlaying` says |
| AudioBufferQueue.AudioBufferQueueHook.ResetState | react-native-app/hooks/audio/useAudioBufferQueue.ts:21-29 | the fields change as `Reset` says |
| AudioBufferQueue.AudioBufferQueueHook.Mount | react-native-app/hooks/audio/useAudioBufferQueue.ts:31-41 | the fields change as `Mounted` says |
| AudioBufferQueue.AudioBufferQueueHook.EnqueueAudioBufferQueue | react-native-app/hooks/audio/useAudioBufferQueue.ts:58-68 | the fields and result are those of `Enqueue` |
| AudioBufferQueue.AudioBufferQueueHook.PlayAudio | react-native-app/hooks/audio/useAudioBufferQueue.ts:43-56 | the fields change as `Play` says |
| AudioBufferQueue.AudioBufferQueueHook.OnEnded | react-native-app/hooks/audio/useAudioBufferQueue.ts:48-54 | the fields change as `Ended` says |

## Left out

- WebSocket construction, URLs, subprotocols and the network: the socket is
  modelled only by its ready state, and sending records the frame.
- `JSON.parse` and `JSON.stringify`: inbound messages are already-parsed
  datatypes. A parse failure throws inside the listeners and is not modelled.
- The `await event.data.text()` of the Gemini listener and React's
  scheduling of state updates and effects: setters are immediate writes.
  The moment `onMessageReceived` runs relative to the state updates is not
  modelled; the effect list records only the order of the callbacks.
- CodecBridge.Combine: requires every chunk to be falsy or valid base64.
  `Buffer` also accepts malformed base64 leniently, and the model says
  nothing about that case.
- GeminiLive.OnMessage: requires every truthy `inlineData.data` to be valid
  base64, for the same reason.
- OpenAiRealtime.OnMessage: requires a truthy audio delta to be valid base64,
  for the same reason.
- Null or non-string entries in the chunk list: the list is `string[]`, and
  the model's falsy chunk is "".
- `setupComplete` is modelled as present or absent. Its object content is
  ignored, as it is by the source.
- The buffer-queue node and its `AudioContext` are hardware. The model keeps
  only what the hook does to the node: enqueued ids, `start()` calls, and
  the handler installation. It takes the id the node returns as an input.
  Decoding `AudioBuffer`s and the sample rate are not modelled.
- The error `Event` passed to `onSocketError` is kept only as its `type`
  string. Whether the optional callback was supplied is a parameter of the
  error handler.
- Console logging.
- express-project/app.js is not part of this model: it is an HTTP endpoint
  that calls an external SDK.
- react-native-app/hooks/audio/useAudioPlayer.ts,
  react-native-app/hooks/audio/useBase64PcmAudioPlayer.ts and
  react-native-app/hooks/audio/useAudioStreamer.ts are not part of this
  model. They are thin wrappers over the audio library, the recorder and a
  timer.
- The half-duplex gate on upload. Neither hook blocks upload while the AI
  speaks or while audio plays: `sendMessage` tests only the socket and the
  two flags. The calling screen, react-native-app/app/(tabs)/index.tsx, is
  not part of this model. It sends a microphone chunk only when connected,
  initialized, no response is in progress and no audio is playing.
- Dropping deltas outside a turn: neither hook does it, so the model does
  not either.
