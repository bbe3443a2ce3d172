/**
 * The OpenAI WebSocket transport: a small state machine that walks a session
 * through initializing, initialized, connecting, connected and ready (or error),
 * seeds the conversation from the client's initial messages, and normalises the
 * provider's realtime events into the client's uniform callbacks.
 *
 * Every callback the transport fires and every call it makes on the realtime
 * client, the audio player and the recorder is recorded, in order, in the
 * transport's `trace`. What the opaque collaborators answer (does the socket
 * open, what `interrupt()` returns, does `appendInputAudio` throw) is a
 * parameter of the operation that asks.
 */
module Transport {
  import opened Common

  /** The states the transport announces through `onTransportStateChanged`. */
  datatype TransportState = Disconnected | Initializing | Initialized | Connecting | Connected | Ready | Error

  /** An entry of `initial_messages`. */
  datatype Message = Message(role: string, content: string)

  /** The argument of one `updateSession` call. */
  datatype SessionUpdate =
    | TurnDetection(detection: string, silenceDurationMs: int, transcriptionModel: string)
    | Instructions(text: string)

  /** The argument of `onUserTranscript`. */
  datatype Transcript = Transcript(text: string, isFinal: bool, timestamp: string, userId: string)

  /** What the player's `interrupt()` reports: the track that was playing and how far. */
  datatype TrackSampleOffset = TrackSampleOffset(trackId: string, offset: int)

  /** One observable effect: a client callback, or a call on a collaborator. */
  datatype Output =
    | OnTransportStateChanged(newState: TransportState)
    | OnConnected
    | OnUserStartedSpeaking
    | OnUserStoppedSpeaking
    | OnUserTranscript(transcript: Transcript)
    | OnBotStartedSpeaking
    | OnBotStoppedSpeaking
    | OnBotTtsText(text: string)
    | ClientConnect
    | ClientUpdateSession(update: SessionUpdate)
    | ClientSendUserMessage(content: string)
    | ClientCancelResponse(trackId: string, offset: int)
    | ClientAppendInputAudio(mono: seq<int>)
    | PlayerInterrupt
    | PlayerAdd16BitPcm(audio: seq<int>, itemId: string)
    | RecorderRecord
    | WarnContextDropped

  /** A `realtime.event` payload: its `type` tag and the fields the handler reads
      (`partType` is `event.part.type`, None when either is absent). */
  datatype RealtimeEvent = RealtimeEvent(kind: string, transcript: string, delta: string, partType: Option<string>)

  /** One `realtime.event` delivery, with what `interrupt()` would answer at that moment. */
  datatype Arrival = Arrival(time: string, event: RealtimeEvent, interruption: Option<TrackSampleOffset>)

  /** The effect of one event on the callbacks and on the bot-speaking flag. */
  datatype Reaction = Reaction(emitted: seq<Output>, botIsSpeaking: bool)

  /** One frame handed over by the recorder, and whether `appendInputAudio` accepts it. */
  datatype Frame = Frame(mono: seq<int>, appendSucceeds: bool)

  /** The effect of captured frames on the state and the trace. */
  datatype Capture = Capture(state: TransportState, emitted: seq<Output>)

  /** The result of `seeding`: the calls made and what is left of the message list. */
  datatype Seeding = Seeding(calls: seq<Output>, remaining: seq<Message>)

  /** How the `connect` promise settles. */
  datatype ConnectOutcome = Resolved | SocketFailed | SeedingThrew

  const SpeechStarted := "input_audio_buffer.speech_started"
  const SpeechStopped := "input_audio_buffer.speech_stopped"
  const TranscriptionCompleted := "conversation.item.input_audio_transcription.completed"
  const ContentPartAdded := "response.content_part.added"
  const AudioDone := "response.audio.done"
  const AudioTranscriptDelta := "response.audio_transcript.delta"

  const SystemRole := "system"
  const UserRole := "user"

  /** The session parameters `connect` sends before seeding: server-side voice activity
      detection with 700 ms of silence, transcription by whisper-1. */
  const ServerVad := TurnDetection("server_vad", 700, "whisper-1")

  predicate KnownKind(kind: string)
  {
    kind in {SpeechStarted, SpeechStopped, TranscriptionCompleted, ContentPartAdded, AudioDone, AudioTranscriptDelta}
  }

  /** A content part whose type is audio: the provider has started a spoken answer. */
  predicate IsAudioPart(ev: RealtimeEvent)
  {
    ev.kind == ContentPartAdded && ev.partType == Some("audio")
  }

  /** `interrupt()` stopped a track with a non-empty id, so there is a response to cancel. */
  predicate Cancels(interruption: Option<TrackSampleOffset>)
  {
    interruption.Some? && interruption.value.trackId != ""
  }

  /** No state notification among the outputs. */
  predicate Silent(outputs: seq<Output>)
  {
    forall i :: 0 <= i < |outputs| ==> !outputs[i].OnTransportStateChanged?
  }

  /** The state a client that follows `onTransportStateChanged` believes in after
      `outputs`, having believed `before`. */
  function ReportedState(outputs: seq<Output>, before: TransportState): TransportState
    decreases |outputs|
  {
    if outputs == [] then before
    else ReportedState(outputs[1..], if outputs[0].OnTransportStateChanged? then outputs[0].newState else before)
  }

  lemma {:induction false} ReportedStateAppend(a: seq<Output>, b: seq<Output>, before: TransportState)
    ensures ReportedState(a + b, before) == ReportedState(b, ReportedState(a, before))
    decreases |a|
  {
    if a == [] {
      assert a + b == b;
    } else {
      var next := if a[0].OnTransportStateChanged? then a[0].newState else before;
      assert (a + b)[0] == a[0] && (a + b)[1..] == a[1..] + b;
      assert ReportedState(a + b, before) == ReportedState(a[1..] + b, next);
      assert ReportedState(a, before) == ReportedState(a[1..], next);
      ReportedStateAppend(a[1..], b, next);
    }
  }

  lemma {:induction false} ReportedStateSilent(outputs: seq<Output>, before: TransportState)
    requires Silent(outputs)
    ensures ReportedState(outputs, before) == before
    decreases |outputs|
  {
    if outputs != [] {
      assert !outputs[0].OnTransportStateChanged?;
      ReportedStateSilent(outputs[1..], before);
    }
  }

  /** A state notification followed only by other outputs leaves the client believing
      the notified state. */
  lemma ReportedAfterNotice(s: TransportState, rest: seq<Output>, before: TransportState)
    requires Silent(rest)
    ensures ReportedState([OnTransportStateChanged(s)] + rest, before) == s
  {
    var notice := [OnTransportStateChanged(s)];
    ReportedStateAppend(notice, rest, before);
    assert ReportedState(notice, before) == s by {
      assert notice[1..] == [];
    }
    ReportedStateSilent(rest, s);
  }

  /** How many times `o` occurs in `outputs`. */
  function CountOf(o: Output, outputs: seq<Output>): nat
    decreases |outputs|
  {
    if outputs == [] then 0
    else CountOf(o, outputs[..|outputs| - 1]) + (if outputs[|outputs| - 1] == o then 1 else 0)
  }

  lemma {:induction false} CountOfAppend(o: Output, a: seq<Output>, b: seq<Output>)
    ensures CountOf(o, a + b) == CountOf(o, a) + CountOf(o, b)
    decreases |b|
  {
    if b == [] {
      assert a + b == a;
    } else {
      assert (a + b)[..|a + b| - 1] == a + b[..|b| - 1];
      assert (a + b)[|a + b| - 1] == b[|b| - 1];
      CountOfAppend(o, a, b[..|b| - 1]);
    }
  }

  lemma {:induction false} CountOfAbsent(o: Output, outputs: seq<Output>)
    requires o !in outputs
    ensures CountOf(o, outputs) == 0
    decreases |outputs|
  {
    if outputs != [] {
      CountOfAbsent(o, outputs[..|outputs| - 1]);
    }
  }

  /** The `realtime.event` switch: what one event emits and the new bot-speaking flag. */
  function HandleRealtimeEvent(botIsSpeaking: bool, time: string, ev: RealtimeEvent,
                               interruption: Option<TrackSampleOffset>): (r: Reaction)
    ensures Silent(r.emitted)
    ensures r.botIsSpeaking == (ev.kind != AudioDone && (botIsSpeaking || IsAudioPart(ev)))
    ensures (OnBotStartedSpeaking in r.emitted) == (IsAudioPart(ev) && !botIsSpeaking)
    ensures ev.kind == ContentPartAdded ==>
              r.emitted == (if IsAudioPart(ev) && !botIsSpeaking then [OnBotStartedSpeaking] else [])
    ensures (OnBotStoppedSpeaking in r.emitted) == (ev.kind == AudioDone)
    ensures ev.kind == AudioDone ==> r.emitted == [OnBotStoppedSpeaking]
    ensures ev.kind == SpeechStarted ==>
              |r.emitted| == (if Cancels(interruption) then 3 else 2) &&
              r.emitted[0] == PlayerInterrupt &&
              r.emitted[|r.emitted| - 1] == OnUserStartedSpeaking &&
              (Cancels(interruption) ==>
                 r.emitted[1] == ClientCancelResponse(interruption.value.trackId, interruption.value.offset))
    ensures ev.kind == SpeechStopped ==> r.emitted == [OnUserStoppedSpeaking]
    ensures ev.kind == TranscriptionCompleted ==>
              r.emitted == [OnUserTranscript(Transcript(ev.transcript, true, time, UserRole))]
    ensures ev.kind == AudioTranscriptDelta ==> r.emitted == [OnBotTtsText(ev.delta)]
    ensures !KnownKind(ev.kind) ==> r == Reaction([], botIsSpeaking)
  {
    if ev.kind == SpeechStarted then
      var cancel := if Cancels(interruption)
                    then [ClientCancelResponse(interruption.value.trackId, interruption.value.offset)]
                    else [];
      Reaction([PlayerInterrupt] + cancel + [OnUserStartedSpeaking], botIsSpeaking)
    else if ev.kind == SpeechStopped then
      Reaction([OnUserStoppedSpeaking], botIsSpeaking)
    else if ev.kind == TranscriptionCompleted then
      Reaction([OnUserTranscript(Transcript(ev.transcript, true, time, UserRole))], botIsSpeaking)
    else if ev.kind == ContentPartAdded then
      if ev.partType == Some("audio") && !botIsSpeaking
      then Reaction([OnBotStartedSpeaking], true)
      else Reaction([], botIsSpeaking)
    else if ev.kind == AudioDone then
      Reaction([OnBotStoppedSpeaking], false)
    else if ev.kind == AudioTranscriptDelta then
      Reaction([OnBotTtsText(ev.delta)], botIsSpeaking)
    else
      Reaction([], botIsSpeaking)
  }

  /** The handler applied to a run of events, in arrival order. */
  function HandleRun(botIsSpeaking: bool, arrivals: seq<Arrival>): Reaction
    decreases |arrivals|
  {
    if arrivals == [] then Reaction([], botIsSpeaking)
    else
      var before := HandleRun(botIsSpeaking, arrivals[..|arrivals| - 1]);
      var last := arrivals[|arrivals| - 1];
      var step := HandleRealtimeEvent(before.botIsSpeaking, last.time, last.event, last.interruption);
      Reaction(before.emitted + step.emitted, step.botIsSpeaking)
  }

  /** De-duplication: within a run that has no `response.audio.done`, the bot is announced
      as speaking at most once, and not at all if it already was. */
  lemma {:induction false} BotStartedAtMostOnce(botIsSpeaking: bool, arrivals: seq<Arrival>)
    requires forall i :: 0 <= i < |arrivals| ==> arrivals[i].event.kind != AudioDone
    ensures CountOf(OnBotStartedSpeaking, HandleRun(botIsSpeaking, arrivals).emitted) <= (if botIsSpeaking then 0 else 1)
    ensures botIsSpeaking ==> HandleRun(botIsSpeaking, arrivals).botIsSpeaking
    ensures CountOf(OnBotStartedSpeaking, HandleRun(botIsSpeaking, arrivals).emitted) == 1 ==>
              HandleRun(botIsSpeaking, arrivals).botIsSpeaking
    decreases |arrivals|
  {
    if arrivals != [] {
      var init := arrivals[..|arrivals| - 1];
      var last := arrivals[|arrivals| - 1];
      BotStartedAtMostOnce(botIsSpeaking, init);
      var before := HandleRun(botIsSpeaking, init);
      var step := HandleRealtimeEvent(before.botIsSpeaking, last.time, last.event, last.interruption);
      assert HandleRun(botIsSpeaking, arrivals) == Reaction(before.emitted + step.emitted, step.botIsSpeaking);
      CountOfAppend(OnBotStartedSpeaking, before.emitted, step.emitted);
      if OnBotStartedSpeaking in step.emitted {
        assert step.emitted == [OnBotStartedSpeaking];
        assert CountOf(OnBotStartedSpeaking, step.emitted) == 1 by {
          assert step.emitted[..0] == [];
        }
      } else {
        CountOfAbsent(OnBotStartedSpeaking, step.emitted);
      }
    }
  }

  /** No `response.audio.done` among the arrivals from index `from` on. */
  ghost predicate NoAudioDoneFrom(arrivals: seq<Arrival>, from: int)
  {
    forall j :: 0 <= j < |arrivals| && from <= j ==> arrivals[j].event.kind != AudioDone
  }

  /** The arrival at `i` is an audio content part with no `response.audio.done` after it. */
  ghost predicate SpeakingSince(arrivals: seq<Arrival>, i: int)
  {
    0 <= i < |arrivals| && IsAudioPart(arrivals[i].event) && NoAudioDoneFrom(arrivals, i + 1)
  }

  /** The bot's turn after a run: its latest audio content part has not been followed by
      `response.audio.done`, or, with no `response.audio.done` at all, it already held. */
  ghost predicate BotTurn(botIsSpeaking: bool, arrivals: seq<Arrival>)
  {
    (exists i :: SpeakingSince(arrivals, i)) || (botIsSpeaking && NoAudioDoneFrom(arrivals, 0))
  }

  /** The bot-speaking flag after a run is exactly the bot's turn. */
  lemma {:induction false} BotSpeakingFollowsLatestSignal(botIsSpeaking: bool, arrivals: seq<Arrival>)
    ensures HandleRun(botIsSpeaking, arrivals).botIsSpeaking == BotTurn(botIsSpeaking, arrivals)
    decreases |arrivals|
  {
    if arrivals != [] {
      var n := |arrivals| - 1;
      var init := arrivals[..n];
      BotSpeakingFollowsLatestSignal(botIsSpeaking, init);
      var last := arrivals[n];
      var before := HandleRun(botIsSpeaking, init);
      var step := HandleRealtimeEvent(before.botIsSpeaking, last.time, last.event, last.interruption);
      assert HandleRun(botIsSpeaking, arrivals).botIsSpeaking == step.botIsSpeaking;
      if last.event.kind == AudioDone {
        forall i ensures !SpeakingSince(arrivals, i) {
          if 0 <= i < n { assert arrivals[n].event.kind == AudioDone; }
        }
        assert !NoAudioDoneFrom(arrivals, 0);
      } else if IsAudioPart(last.event) {
        assert SpeakingSince(arrivals, n);
      } else {
        forall i ensures SpeakingSince(arrivals, i) == SpeakingSince(init, i) {
          if 0 <= i < n {
            assert arrivals[i] == init[i];
            assert NoAudioDoneFrom(arrivals, i + 1) == NoAudioDoneFrom(init, i + 1) by {
              assert forall j :: i + 1 <= j < n ==> arrivals[j] == init[j];
            }
          }
        }
        assert NoAudioDoneFrom(arrivals, 0) == NoAudioDoneFrom(init, 0) by {
          assert forall j :: 0 <= j < n ==> arrivals[j] == init[j];
        }
      }
    }
  }

  /** The `initial_messages` seeding: send a leading system message as instructions,
      remove the next message and send it if it is a user message, warn if anything is
      left. None when the list is empty, where reading `messages[0].role` throws. */
  function Seed(messages: seq<Message>): (r: Option<Seeding>)
    ensures r.None? <==> messages == []
    ensures r.Some? ==>
              var skip := if messages[0].role == SystemRole then 1 else 0;
              var calls := r.value.calls;
              && r.value.remaining == messages[(if skip + 1 <= |messages| then skip + 1 else |messages|)..]
              && ((messages[0].role == SystemRole) ==
                    (|calls| > 0 && calls[0] == ClientUpdateSession(Instructions(messages[0].content))))
              && (forall j :: 0 <= j < |calls| && calls[j].ClientUpdateSession? ==>
                    j == 0 && messages[0].role == SystemRole &&
                    calls[j] == ClientUpdateSession(Instructions(messages[0].content)))
              && (skip < |messages| ==>
                    ((messages[skip].role == UserRole) == (ClientSendUserMessage(messages[skip].content) in calls)))
              && (forall j :: 0 <= j < |calls| && calls[j].ClientSendUserMessage? ==>
                    skip < |messages| && messages[skip].role == UserRole &&
                    calls[j].content == messages[skip].content)
              && (forall j :: 0 <= j < |calls| ==>
                    calls[j].ClientUpdateSession? || calls[j].ClientSendUserMessage? || calls[j] == WarnContextDropped)
              && (forall j, k :: 0 <= j < k < |calls| ==>
                    !(calls[j].ClientSendUserMessage? && calls[k].ClientSendUserMessage?))
              && ((WarnContextDropped in calls) == (r.value.remaining != []))
              && (forall j :: 0 <= j < |calls| && calls[j] == WarnContextDropped ==> j == |calls| - 1)
              && Silent(calls)
  {
    if messages == [] then None
    else
      var instructions := if messages[0].role == SystemRole
                          then [ClientUpdateSession(Instructions(messages[0].content))] else [];
      var rest := if messages[0].role == SystemRole then messages[1..] else messages;
      var userMessage := if rest != [] && rest[0].role == UserRole then [ClientSendUserMessage(rest[0].content)] else [];
      var remaining := if rest == [] then [] else rest[1..];
      var warning := if remaining != [] then [WarnContextDropped] else [];
      Some(Seeding(instructions + userMessage + warning, remaining))
  }

  /** A system message and a user message are sent in that order, and nothing is left. */
  lemma SeedSystemThenUser(instructions: string, greeting: string)
    ensures Seed([Message(SystemRole, instructions), Message(UserRole, greeting)]) ==
              Some(Seeding([ClientUpdateSession(Instructions(instructions)), ClientSendUserMessage(greeting)], []))
  {
    var messages := [Message(SystemRole, instructions), Message(UserRole, greeting)];
    assert messages[0].role == SystemRole && SystemRole != UserRole;
    assert messages[1..] == [Message(UserRole, greeting)];
    assert messages[1..][1..] == [];
    assert Seed(messages).value.remaining == [];
    var calls := [ClientUpdateSession(Instructions(instructions)), ClientSendUserMessage(greeting)];
    assert [ClientUpdateSession(Instructions(instructions))] + [ClientSendUserMessage(greeting)] + [] == calls;
    assert Seed(messages).value.calls == calls;
  }

  /** With three or more messages at most one system and one user message are sent, and
      the warning is raised. */
  lemma SeedWarnsOnSurplus(messages: seq<Message>)
    requires |messages| >= 3
    ensures Seed(messages).Some? && WarnContextDropped in Seed(messages).value.calls
    ensures |Seed(messages).value.remaining| >= |messages| - 2
  {
  }

  /** The audio worker's callback for one captured frame. */
  function CaptureFrame(state: TransportState, frame: Frame): (r: Capture)
    ensures state != Ready ==> r == Capture(state, [])
    ensures state == Ready && frame.appendSucceeds ==> r == Capture(Ready, [ClientAppendInputAudio(frame.mono)])
    ensures state == Ready && !frame.appendSucceeds ==> r == Capture(Error, [OnTransportStateChanged(Error)])
  {
    if state == Ready then
      if frame.appendSucceeds then Capture(state, [ClientAppendInputAudio(frame.mono)])
      else Capture(Error, [OnTransportStateChanged(Error)])
    else Capture(state, [])
  }

  /** The worker's callback applied to captured frames in order. */
  function CaptureRun(state: TransportState, frames: seq<Frame>): Capture
    decreases |frames|
  {
    if frames == [] then Capture(state, [])
    else
      var first := CaptureFrame(state, frames[0]);
      var rest := CaptureRun(first.state, frames[1..]);
      Capture(rest.state, first.emitted + rest.emitted)
  }

  /** The audio payloads handed to `appendInputAudio` among `outputs`. */
  function Forwarded(outputs: seq<Output>): seq<seq<int>>
    decreases |outputs|
  {
    if outputs == [] then []
    else (if outputs[0].ClientAppendInputAudio? then [outputs[0].mono] else []) + Forwarded(outputs[1..])
  }

  /** The index of the first frame `appendInputAudio` rejects, or the number of frames. */
  function FirstFailure(frames: seq<Frame>): (n: nat)
    ensures n <= |frames|
    ensures forall j :: 0 <= j < n ==> frames[j].appendSucceeds
    ensures n < |frames| ==> !frames[n].appendSucceeds
    decreases |frames|
  {
    if frames == [] || !frames[0].appendSucceeds then 0 else 1 + FirstFailure(frames[1..])
  }

  function Payloads(frames: seq<Frame>): seq<seq<int>>
    decreases |frames|
  {
    if frames == [] then [] else [frames[0].mono] + Payloads(frames[1..])
  }

  /** Input gating: outside "ready" no frame is forwarded and nothing changes. */
  lemma {:induction false} CaptureOutsideReady(state: TransportState, frames: seq<Frame>)
    requires state != Ready
    ensures CaptureRun(state, frames) == Capture(state, [])
    decreases |frames|
  {
    if frames != [] {
      CaptureOutsideReady(state, frames[1..]);
      assert CaptureFrame(state, frames[0]) == Capture(state, []);
      assert CaptureRun(state, frames) == Capture(state, [] + []);
    }
  }

  /** From "ready" exactly the frames before the first rejected one are forwarded, in
      order; a rejection moves the state to "error" with a single notification, after
      which nothing more is forwarded. */
  lemma {:induction false} CaptureFromReady(frames: seq<Frame>)
    ensures Forwarded(CaptureRun(Ready, frames).emitted) == Payloads(frames[..FirstFailure(frames)])
    ensures CaptureRun(Ready, frames).state == (if FirstFailure(frames) < |frames| then Error else Ready)
    ensures CountOf(OnTransportStateChanged(Error), CaptureRun(Ready, frames).emitted) ==
              (if FirstFailure(frames) < |frames| then 1 else 0)
    decreases |frames|
  {
    var notice := OnTransportStateChanged(Error);
    if frames == [] {
      assert CaptureRun(Ready, frames) == Capture(Ready, []);
    } else if frames[0].appendSucceeds {
      var m0 := frames[0].mono;
      var rest := CaptureRun(Ready, frames[1..]);
      CaptureFromReady(frames[1..]);
      var emitted := [ClientAppendInputAudio(m0)] + rest.emitted;
      assert CaptureRun(Ready, frames) == Capture(rest.state, emitted);
      assert emitted[1..] == rest.emitted;
      assert Forwarded(emitted) == [m0] + Forwarded(rest.emitted);
      var k := FirstFailure(frames[1..]);
      assert FirstFailure(frames) == 1 + k;
      assert frames[..1 + k][1..] == frames[1..][..k];
      assert Payloads(frames[..1 + k]) == [m0] + Payloads(frames[1..][..k]);
      CountOfAppend(notice, [ClientAppendInputAudio(m0)], rest.emitted);
      CountOfAbsent(notice, [ClientAppendInputAudio(m0)]);
    } else {
      CaptureOutsideReady(Error, frames[1..]);
      assert CaptureRun(Ready, frames) == Capture(Error, [notice] + []);
      assert [notice] + [] == [notice];
      assert [notice][1..] == [];
      assert Forwarded([notice]) == [];
      assert [notice][..0] == [];
      assert CountOf(notice, [notice]) == 1;
      assert frames[..0] == [];
    }
  }

  /** The client's `options`, of which the transport reads and shifts
      `params.requestData.initial_messages` (None when that path is absent). */
  class ClientOptions {
    var initialMessages: Option<seq<Message>>

    constructor (initialMessages: Option<seq<Message>>)
      ensures this.initialMessages == initialMessages
    {
      this.initialMessages := initialMessages;
    }
  }

  class OpenAIWebSocketTransport {
    var state: TransportState
    var botIsSpeaking: bool
    var options: ClientOptions?
    /** Every callback fired and every collaborator call made, in order. */
    var trace: seq<Output>

    /** The last state announced to the client is the current state. */
    ghost predicate Valid()
      reads this
    {
      ReportedState(trace, Disconnected) == state
    }

    constructor ()
      ensures Valid()
      ensures state == Disconnected && !botIsSpeaking && options == null && trace == []
    {
      state := Disconnected;
      botIsSpeaking := false;
      options := null;
      trace := [];
    }

    /** `this.state = s` followed by `onTransportStateChanged(s)`. */
    method Announce(s: TransportState)
      modifies this`state, this`trace
      ensures Valid()
      ensures state == s && trace == old(trace) + [OnTransportStateChanged(s)]
    {
      ghost var t0 := trace;
      state := s;
      trace := trace + [OnTransportStateChanged(s)];
      ReportedStateAppend(t0, [OnTransportStateChanged(s)], Disconnected);
      assert [OnTransportStateChanged(s)] + [] == [OnTransportStateChanged(s)];
      ReportedAfterNotice(s, [], ReportedState(t0, Disconnected));
    }

    /** Records callbacks and calls that do not announce a state. */
    method Emit(outputs: seq<Output>)
      requires Silent(outputs)
      modifies this`trace
      ensures trace == old(trace) + outputs
      ensures ReportedState(trace, Disconnected) == ReportedState(old(trace), Disconnected)
    {
      ghost var t0 := trace;
      trace := trace + outputs;
      ReportedStateAppend(t0, outputs, Disconnected);
      ReportedStateSilent(outputs, ReportedState(t0, Disconnected));
    }

    /** Keeps `options` and announces "initializing" then "initialized". */
    method Initialize(opts: ClientOptions)
      modifies this
      ensures Valid()
      ensures state == Initialized && options == opts && botIsSpeaking == old(botIsSpeaking)
      ensures trace == old(trace) + [OnTransportStateChanged(Initializing), OnTransportStateChanged(Initialized)]
    {
      options := opts;
      Announce(Initializing);
      Announce(Initialized);
    }

    /** Announces "connecting", opens the socket, configures turn detection, seeds the
        conversation from `initial_messages`, starts the recorder, announces "connected"
        and calls `onConnected`. */
    method Connect(socketOpens: bool) returns (outcome: ConnectOutcome)
      requires options != null
      modifies this, options
      ensures Valid()
      ensures options == old(options) && botIsSpeaking == old(botIsSpeaking)
      ensures !socketOpens ==>
                outcome == SocketFailed && state == Connecting &&
                options.initialMessages == old(options.initialMessages) &&
                trace == old(trace) + [OnTransportStateChanged(Connecting), ClientConnect]
      ensures socketOpens && old(options.initialMessages) == Some([]) ==>
                outcome == SeedingThrew && state == Connecting &&
                options.initialMessages == old(options.initialMessages) &&
                trace == old(trace) + [OnTransportStateChanged(Connecting), ClientConnect, ClientUpdateSession(ServerVad)]
      ensures socketOpens && old(options.initialMessages).None? ==>
                outcome == Resolved && state == Connected && options.initialMessages.None? &&
                trace == old(trace) + [OnTransportStateChanged(Connecting), ClientConnect, ClientUpdateSession(ServerVad),
                                       RecorderRecord, OnTransportStateChanged(Connected), OnConnected]
      ensures socketOpens && old(options.initialMessages).Some? && old(options.initialMessages) != Some([]) ==>
                var seeding := Seed(old(options.initialMessages).value).value;
                outcome == Resolved && state == Connected &&
                options.initialMessages == Some(seeding.remaining) &&
                trace == old(trace) + [OnTransportStateChanged(Connecting), ClientConnect, ClientUpdateSession(ServerVad)]
                                    + seeding.calls
                                    + [RecorderRecord, OnTransportStateChanged(Connected), OnConnected]
    {
      Announce(Connecting);
      Emit([ClientConnect]);
      if !socketOpens {
        outcome := SocketFailed;
        return;
      }
      Emit([ClientUpdateSession(ServerVad)]);
      var seeded := SeedInitialMessages();
      if !seeded {
        outcome := SeedingThrew;
        return;
      }
      Emit([RecorderRecord]);
      Announce(Connected);
      Emit([OnConnected]);
      outcome := Resolved;
    }

    /** The seeding part of `connect`: shifts the consumed entries off the client's
        `initial_messages` and makes the calls `Seed` describes. `seeded` is false when
        the list is empty, where reading `messages[0].role` throws. */
    method SeedInitialMessages() returns (seeded: bool)
      requires options != null
      modifies this`trace, options
      ensures ReportedState(trace, Disconnected) == ReportedState(old(trace), Disconnected)
      ensures seeded == (old(options.initialMessages) != Some([]))
      ensures old(options.initialMessages).None? ==>
                trace == old(trace) && options.initialMessages.None?
      ensures old(options.initialMessages) == Some([]) ==>
                trace == old(trace) && options.initialMessages == Some([])
      ensures old(options.initialMessages).Some? && old(options.initialMessages) != Some([]) ==>
                var seeding := Seed(old(options.initialMessages).value).value;
                trace == old(trace) + seeding.calls && options.initialMessages == Some(seeding.remaining)
    {
      var messages := options.initialMessages;
      seeded := true;
      if messages.Some? {
        var msgs := messages.value;
        if msgs == [] {
          seeded := false;
          return;
        }
        ghost var t0 := trace;
        if msgs[0].role == SystemRole {
          var systemMessage := msgs[0];
          msgs := msgs[1..];
          options.initialMessages := Some(msgs);
          Emit([ClientUpdateSession(Instructions(systemMessage.content))]);
        }
        if msgs != [] {
          var userMessage := msgs[0];
          msgs := msgs[1..];
          options.initialMessages := Some(msgs);
          if userMessage.role == UserRole {
            Emit([ClientSendUserMessage(userMessage.content)]);
          }
        }
        if msgs != [] {
          Emit([WarnContextDropped]);
        }
        assert trace == t0 + Seed(messages.value).value.calls;
      }
    }

    /** Announces "ready", from which point captured audio is forwarded. */
    method SendReadyMessage()
      modifies this
      ensures Valid()
      ensures state == Ready && options == old(options) && botIsSpeaking == old(botIsSpeaking)
      ensures trace == old(trace) + [OnTransportStateChanged(Ready)]
    {
      Announce(Ready);
    }

    /** The `realtime.event` listener, as one atomic step. */
    method OnRealtimeEvent(time: string, ev: RealtimeEvent, interruption: Option<TrackSampleOffset>)
      requires Valid()
      modifies this
      ensures Valid()
      ensures state == old(state) && options == old(options)
      ensures trace == old(trace) + HandleRealtimeEvent(old(botIsSpeaking), time, ev, interruption).emitted
      ensures botIsSpeaking == HandleRealtimeEvent(old(botIsSpeaking), time, ev, interruption).botIsSpeaking
    {
      ghost var t0 := trace;
      if ev.kind == SpeechStarted {
        Emit([PlayerInterrupt]);
        if interruption.Some? && interruption.value.trackId != "" {
          Emit([ClientCancelResponse(interruption.value.trackId, interruption.value.offset)]);
        }
        Emit([OnUserStartedSpeaking]);
      } else if ev.kind == SpeechStopped {
        Emit([OnUserStoppedSpeaking]);
      } else if ev.kind == TranscriptionCompleted {
        Emit([OnUserTranscript(Transcript(ev.transcript, true, time, UserRole))]);
      } else if ev.kind == ContentPartAdded {
        if ev.partType == Some("audio") && !botIsSpeaking {
          botIsSpeaking := true;
          Emit([OnBotStartedSpeaking]);
        }
      } else if ev.kind == AudioDone {
        Emit([OnBotStoppedSpeaking]);
        botIsSpeaking := false;
      } else if ev.kind == AudioTranscriptDelta {
        Emit([OnBotTtsText(ev.delta)]);
      }
      assert trace == t0 + HandleRealtimeEvent(old(botIsSpeaking), time, ev, interruption).emitted;
    }

    /** The `conversation.updated` listener: queue the delta's audio under the item's id. */
    method OnConversationUpdated(itemId: string, audio: Option<seq<int>>)
      requires Valid()
      modifies this
      ensures Valid()
      ensures state == old(state) && options == old(options) && botIsSpeaking == old(botIsSpeaking)
      ensures trace == old(trace) + (if audio.Some? then [PlayerAdd16BitPcm(audio.value, itemId)] else [])
    {
      if audio.Some? {
        Emit([PlayerAdd16BitPcm(audio.value, itemId)]);
      }
    }

    /** The recorder callback for one frame. */
    method OnAudioFrame(frame: Frame)
      requires Valid()
      modifies this
      ensures Valid()
      ensures options == old(options) && botIsSpeaking == old(botIsSpeaking)
      ensures state == CaptureFrame(old(state), frame).state
      ensures trace == old(trace) + CaptureFrame(old(state), frame).emitted
    {
      if state == Ready {
        if frame.appendSucceeds {
          Emit([ClientAppendInputAudio(frame.mono)]);
        } else {
          Announce(Error);
        }
      }
    }
  }

  /** A session from construction to "connected", seeded with a system and a user message. */
  method ConnectSession()
  {
    var opts := new ClientOptions(Some([Message(SystemRole, "be terse"), Message(UserRole, "hi")]));
    var t := new OpenAIWebSocketTransport();
    t.Initialize(opts);
    SeedSystemThenUser("be terse", "hi");
    var outcome := t.Connect(true);
    assert outcome == Resolved && t.state == Connected;
    assert opts.initialMessages == Some([]);
    assert t.trace == [OnTransportStateChanged(Initializing), OnTransportStateChanged(Initialized)]
                    + [OnTransportStateChanged(Connecting), ClientConnect, ClientUpdateSession(ServerVad)]
                    + [ClientUpdateSession(Instructions("be terse")), ClientSendUserMessage("hi")]
                    + [RecorderRecord, OnTransportStateChanged(Connected), OnConnected];
  }

  /** A bot turn announced once despite a repeated audio part, then a barge-in. */
  method BargeIn(t: OpenAIWebSocketTransport)
    requires t.Valid() && !t.botIsSpeaking
    modifies t
  {
    var audioPart := RealtimeEvent(ContentPartAdded, "", "", Some("audio"));
    var t1 := t.trace;
    t.OnRealtimeEvent("t1", audioPart, None);
    t.OnRealtimeEvent("t2", audioPart, None);
    assert t.trace == t1 + [OnBotStartedSpeaking];
    t.OnRealtimeEvent("t3", RealtimeEvent(SpeechStarted, "", "", None), Some(TrackSampleOffset("item-1", 3)));
    assert t.trace == t1 + [OnBotStartedSpeaking] + [PlayerInterrupt, ClientCancelResponse("item-1", 3), OnUserStartedSpeaking];
    assert t.botIsSpeaking;
  }
}
