# Realtime voice transport and relay server, in Dafny

This project models the two parts of the voice-bot prototype that hold state and logic.

- **The OpenAI WebSocket transport** (`Transport`, in `transport.dfy`). This is the client-side session object. It announces
  `initializing` → `initialized` → `connecting` → `connected` → `ready` (and `error`)
  through `onTransportStateChanged`. It seeds the conversation from the client's `initial_messages`.
  It turns the realtime provider's events into the client callbacks: user and bot started or stopped speaking, the final user transcript, and bot text.
  A boolean de-duplicates "bot started speaking". On barge-in it interrupts playback and cancels the response.
  Microphone frames are forwarded only while the transport is `ready`.
  The class `OpenAIWebSocketTransport` has the source's fields: `state`, `botIsSpeaking` and a
  reference to the client's options, whose message list `connect` shifts in place. A `trace` field records, in order, every callback fired and every effectful call made on the realtime client, the player and the recorder.
  The invariant `Valid()` says that the last state announced to the client is the current state.
  Each handler is specified by a pure function: `HandleRealtimeEvent`, `Seed` or `CaptureFrame`. Lemmas about runs of events and frames state the de-duplication, speaker-turn and input-gating properties.
- **The relay server's `/api/connect` handler** (`Relay`, in `relay.dfy`). The class `RelayServer` holds the
  module-level payload's `config` list. It persists across requests. `HandleConnect` finds the first `"llm"` entry. It then upserts each body entry into that entry's `options`: it replaces the value of the first option with that name, or appends a new option. It forwards the payload and relays the upstream answer.
  The merge is specified by `Merge`, a fold of `Upsert`. Lemmas show what it preserves, that it is idempotent and by how much it grows the list.

The outcomes of the opaque collaborators are parameters of the operation that asks for them:
- whether the socket opens;
- what the player's `interrupt()` returns;
- whether `appendInputAudio` throws;
- what the bot-start request returns.

Some behaviours of the code that a reader of such a transport might not expect, all modelled as written:
- There is no `disconnect` and no `disconnected` end state. `error` is not absorbing, because a later `sendReadyMessage` leaves it.
- User transcripts are delivered whatever the speaker turn is. The playback queue is not truncated by the transport itself: it calls `interrupt()` and passes on what it reports.
- An empty `initial_messages` list makes `connect` throw, because `messages[0].role` is read without a check. `connect` then stops in `connecting`. It does not move to `error`.
- The handler's two branches on the upstream status (`!== 200`, and otherwise) produce the same response: that status and the upstream data. `Respond` keeps both branches.

## Model

| member | source | states |
|---|---|---|
| Transport.HandleRealtimeEvent | src/openai-websocket-transport.ts:114-158 | the event switch: `speech_started` interrupts playback, then issues `cancelResponse(trackId, offset)` exactly when `interrupt()` reported a non-empty track id, then `onUserStartedSpeaking`; `speech_stopped`, `transcription.completed` (final, timestamped, user id "user") and `audio_transcript.delta` map to their single callbacks; an audio content part emits `onBotStartedSpeaking` iff the flag was false; `audio.done` emits exactly one `onBotStoppedSpeaking` and nothing else; the new flag is "not audio.done and (was speaking or audio part)"; unknown tags emit nothing and keep the flag; no event announces a state |
| Transport.BotStartedAtMostOnce | src/openai-websocket-transport.ts:140-149 | in any run of events without `response.audio.done`, `onBotStartedSpeaking` is emitted at most once, not at all if the bot was already speaking, and once emitted the flag stays set |
| Transport.BotSpeakingFollowsLatestSignal | src/openai-websocket-transport.ts:140-149 | after any run of events, the bot-speaking flag holds exactly when the latest audio content part has not been followed by `response.audio.done` (or, with no `audio.done` at all, when it held before) |
| Transport.Seed | src/openai-websocket-transport.ts:78-96 | seeding: fails on an empty list; a leading system message and only it is sent first, as instructions; the next message is removed and sent as user content iff it exists and its role is user, and no other content is sent as a user message; at most one user message is sent; no call other than the instruction update, the user message and the warning is made; the remaining list is the input minus those one or two leading entries; the warning is raised iff messages remain, and last |
| Transport.SeedSystemThenUser | src/openai-websocket-transport.ts:80-92 | a system message and a user message give exactly one instruction update, then one user message, and leave an empty list |
| Transport.SeedWarnsOnSurplus | src/openai-websocket-transport.ts:84-95 | with three or more messages, seeding warns and consumes at most two |
| Transport.CaptureFrame | src/openai-websocket-transport.ts:195-206 | one recorder frame: forwarded only in state ready; a failed forward moves to error with one notification; other states change nothing |
| Transport.CaptureOutsideReady | src/openai-websocket-transport.ts:195-196 | outside ready, any run of frames forwards nothing and changes nothing |
| Transport.CaptureFromReady | src/openai-websocket-transport.ts:195-206 | from ready, exactly the frames before the first failing forward are forwarded, in order; the state ends in error iff a forward failed, and error is announced at most once |
| Transport.OpenAIWebSocketTransport.constructor | src/openai-websocket-transport.ts:24-29 | a new transport is not speaking, has no options and has announced nothing |
| Transport.OpenAIWebSocketTransport.Announce | src/openai-websocket-transport.ts:39-40 | every assignment of `state` is followed by one `onTransportStateChanged` with the new state |
| Transport.OpenAIWebSocketTransport.Initialize | src/openai-websocket-transport.ts:31-52 | keeps the options; emits exactly "initializing" then "initialized"; ends in initialized |
| Transport.OpenAIWebSocketTransport.Connect | src/openai-websocket-transport.ts:60-103 | emits "connecting", opens the socket, sends server VAD (700 ms, whisper-1), seeds, starts the recorder, emits "connected" and only then `onConnected`; a socket failure or an empty message list stops in connecting |
| Transport.OpenAIWebSocketTransport.SeedInitialMessages | src/openai-websocket-transport.ts:78-96 | shifts the consumed messages off the client's own `initial_messages` list and makes exactly the calls of `Seed` |
| Transport.OpenAIWebSocketTransport.SendReadyMessage | src/openai-websocket-transport.ts:105-108 | announces ready |
| Transport.OpenAIWebSocketTransport.OnRealtimeEvent | src/openai-websocket-transport.ts:114-158 | the listener appends exactly `HandleRealtimeEvent`'s outputs, updates the flag as it says, and leaves the state alone |
| Transport.OpenAIWebSocketTransport.OnConversationUpdated | src/openai-websocket-transport.ts:181-187 | audio is queued on the player under the item id iff the delta carries audio |
| Transport.OpenAIWebSocketTransport.OnAudioFrame | src/openai-websocket-transport.ts:194-207 | the recorder callback does what `CaptureFrame` says, keeping the announced state current |
| Relay.FirstOptionIndex | server/server.ts:58-60 | `findIndex`: -1 iff no option has the name, otherwise the first index that has it |
| Relay.FindOptionIndex | server/server.ts:58-60 | the loop finds exactly that index |
| Relay.FindService | server/server.ts:53 | `find`: -1 iff no entry is "llm", otherwise the first "llm" entry |
| Relay.Upsert | server/server.ts:58-67 | an existing name: the first match gets the new value in place and the length is unchanged; a new name: `{name, value}` appended at the end; all other options unchanged; afterwards the first option of that name holds the value |
| Relay.UpsertKeepsOtherKey | server/server.ts:58-66 | upserting one key leaves the first-match position of every other name unchanged |
| Relay.MergePreserves | server/server.ts:57-68 | after merging a body, every earlier option keeps its position and name; one whose name is not a body key also keeps its value; added options come after the old ones and are named by body keys |
| Relay.MergeNames | server/server.ts:57-68 | after a merge a name is present iff it was present before or is a body key |
| Relay.MergeSetsValues | server/server.ts:57-68 | after merging a body with distinct keys, the first option named by each key holds that key's value |
| Relay.MergeAlreadyApplied | server/server.ts:57-68 | a body whose values are already in place changes nothing |
| Relay.MergeIdempotent | server/server.ts:57-68 | merging the same body twice gives the same options as merging it once |
| Relay.MergeGrowth | server/server.ts:58-66 | with distinct keys, the options grow by exactly the number of body keys not already present |
| Relay.Respond | server/server.ts:88-98 | an upstream reply is returned with its status and data; a thrown error becomes 500 "Internal server error" with its message, or "Unknown error" |
| Relay.RelayServer.constructor | server/server.ts:33-48 | the server starts with the "vad" and "llm" entries and their options |
| Relay.RelayServer.HandleConnect | server/server.ts:51-100 | no "llm" entry: 500 with "LLM service not found in payload", nothing changed and nothing sent; otherwise only the first "llm" entry's options change, to the merge of the body, and the new config is what is forwarded; the response is the upstream selection |

## Left out

- Device and library internals are not modelled: `initDevices` (recorder `begin`, player `connect`), and the construction of the recorder, player and realtime client (24000 Hz, API key). They are opaque library calls with no state of the transport.
- The `conversation.item.completed` and `error` listeners only log. The second `input_audio_buffer.speech_started` listener depends on how the library dispatches events, which is not visible here. So the model does not claim a second `onUserStartedSpeaking`.
- A rejected `appendInputAudio` forward and the `console.error` that follows it are not recorded in the trace; only the resulting `error` state notice is. A rejected socket `connect()` is recorded as the call it was.
- Listener registration (`client.on(...)` at five places in `initialize`) and the read-only `client.conversation.getItems()` in the `conversation.updated` listener are not recorded in the trace: they change nothing the client can observe.
- The debug code after the unconditional `return` in the event listener is dead and is not modelled.
- Asynchrony is not modelled: each handler is one atomic step, and `await`s do not interleave with other handlers.
- Callbacks are taken as registered. An absent optional callback (`?.`) is skipped by the source, while an absent required one throws. The trace records every notification as issued.
- The transport's state before `initialize` comes from a base class that is not part of this model. It is taken to be `Disconnected`.
- `initial_messages` is modelled as either absent or a list of `{role, content}`. Other JavaScript values are not modelled.
- Relay.RelayServer.HandleConnect: only the payload's `config` list is modelled. The other payload fields are never written by the handler, and the secrets come from the environment. The bot-start request is a parameter.
- Relay.RelayServer.HandleConnect: the body is taken as the entry list `Object.entries` yields, in that order. JSON numbers are reals.
- Transport.OpenAIWebSocketTransport.Connect: `authBundle` and `abortController` are not modelled, because the source ignores them.
