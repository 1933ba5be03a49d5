# Voice, search and history logic of a Gemini front-end, in Dafny

This project models the stateful logic of a browser client that talks to a
remote AI service in three modes — text chat, search-grounded chat and a live
voice session — and proves properties of that model.

- `voice.dfy` (module `Voice`) models the voice-session controller of
  `components/VoiceInterface.tsx`. The component's refs and state cells are the
  fields of the class `VoiceSession`: the connecting and active flags, the two
  transcripts, the error message, the playback cursor `nextStartTime`, the set
  of active buffer sources, the session handle and the microphone stream. The
  model also keeps a log of the `source.start(at)` calls, the set of sources
  that were stopped, and the encoded capture frames sent to the session. Each
  event handler is a method. Each method is specified by a pure transition
  function on `SessionView`, the value of all those fields at once. The lemmas
  about those functions state the gapless-playback rule, the barge-in flush,
  the fixed order in which a server message is handled, the transcript rules,
  the lifecycle transitions and the idempotence of cleanup. They also prove an
  invariant on the active source set that holds in every reachable state.
- `search.dfy` (module `Search`) models `handleSubmit` of
  `components/SearchInterface.tsx`. That covers the guard on a blank input or a
  pending request, JavaScript's `trim`, the `forEach`/`push` loop that turns
  grounding chunks into sources, the assistant message with its fallback text
  and optional `sources`, and the error reply. The request itself is an input
  outcome `Answered(text, chunks) | Failed`.
- `app.dfy` (module `App`) models `handleSendMessage` of `App.tsx`. It appends
  the user's message and the reply to the history of the given mode, and leaves
  the other history unchanged.
- `messages.dfy` holds the records of `types.ts`. `wrappers.dfy` holds `Option`.

The clock (`ctx.currentTime`) and the duration of each decoded buffer are
parameters of the message handler. The result of a start attempt is a
`StartOutcome` argument: the audio contexts are unavailable, the microphone is
refused, the connection is refused after the microphone was granted, or all
acquisitions succeed. The capture encoder `createAudioBlob` is a
function-valued constant given to the constructor. Times are `real`.

In these places the code does less than a full teardown or an exact error
report would, and the model keeps the code's behaviour:

- When a start attempt fails after the microphone was granted, the stream stays
  live. The catch block at `components/VoiceInterface.tsx:150-154` releases
  nothing.
- A refused connection during a start reports the microphone message, not the
  connection message.
- The playback cursor is reset to 0, not to the current clock, by the interrupt
  and by cleanup. The `max` with the clock then re-anchors the next buffer.
- The session handle is never reset after it is closed. The capture processor is
  never disconnected, so `capturing` stays set after cleanup.

## Model

| member | source | states |
|---|---|---|
| `Voice.AudioPayload` | components/VoiceInterface.tsx:85-86 | the audio is the inline data of the first part only, and only when it is a non-empty string |
| `Voice.StartAt` | components/VoiceInterface.tsx:89 | a buffer starts no earlier than the cursor and no earlier than the clock, at one of the two |
| `Voice.Cleaned` | components/VoiceInterface.tsx:20-37 | after cleanup no session is open, no microphone is live, every active source has been stopped and the set is empty, the cursor is 0, both flags and both transcripts are cleared, the error is kept |
| `Voice.StepKeepsInv` | components/VoiceInterface.tsx:83-134 | every handler keeps the invariant: active sources were scheduled and not stopped, stopped sources were scheduled |
| `Voice.ReachableInv` | components/VoiceInterface.tsx:96-112 | the invariant holds in every state reachable from mount, by any sequence of events |
| `Voice.ScheduleStartsAtCursorOrNow` | components/VoiceInterface.tsx:89-102 | a scheduled buffer is a fresh source that starts at max(cursor, clock); the cursor moves to its end; it is added to the active set; earlier starts are unchanged |
| `Voice.ScheduleAdvancesCursor` | components/VoiceInterface.tsx:89-101 | with a non-negative duration the cursor never moves backwards |
| `Voice.EndedRemovesOnlyThatSource` | components/VoiceInterface.tsx:96-102 | the `ended` event of a freshly scheduled source restores exactly the previous active set |
| `Voice.InterruptStopsAll` | components/VoiceInterface.tsx:106-112 | the interrupt stops every active source, empties the set, sets the cursor to 0 and leaves the transcripts and the start log alone |
| `Voice.InterruptOnEmptySet` | components/VoiceInterface.tsx:106-112 | on an empty set the interrupt changes nothing but the cursor |
| `Voice.InterruptReanchors` | components/VoiceInterface.tsx:89-112 | after an interrupt the next buffer starts at the current clock (any clock >= 0) |
| `Voice.RunShape` | components/VoiceInterface.tsx:100-101 | a run of chunks adds one start record per chunk in order, and leaves the cursor at the end of the last one |
| `Voice.RunNoOverlap` | components/VoiceInterface.tsx:89-101 | with no interrupt, each buffer starts at or after the previous buffer's end and at or after its own arrival clock |
| `Voice.RunGapless` | components/VoiceInterface.tsx:88-101 | when each chunk after the first arrives no later than the end of the chunks before it, chunk k starts exactly at the first start plus the durations before it, and the cursor ends at the first start plus the total duration |
| `Voice.ArrivalWhilePlaying` | components/VoiceInterface.tsx:88-101 | with the timeline at 1.0 and the clock at 0.0, a chunk arriving at 1.2, while the first is still playing, starts at 1.5 and the cursor ends at 2.0 |
| `Voice.ThreeHalfSecondChunks` | components/VoiceInterface.tsx:89-101 | three 0.5 s chunks, each arriving no later than the end of the ones before it, play back to back and span exactly 1.5 s |
| `Voice.AudioMessageSchedules` | components/VoiceInterface.tsx:85-103 | a message carrying only audio schedules one buffer and changes nothing else |
| `Voice.OnlyFirstPartIsAudio` | components/VoiceInterface.tsx:85 | parts after the first never affect the audio payload |
| `Voice.AudioThenInterrupt` | components/VoiceInterface.tsx:84-112 | a message with both audio and the interrupt flag ends with no active source and cursor 0; its buffer was started and then stopped |
| `Voice.TranscriptRules` | components/VoiceInterface.tsx:115-119 | an output delta is appended to `aiText` alone; an input delta is appended to `userText` only when there is no output delta; otherwise neither changes |
| `Voice.TurnCompleteIsInert` | components/VoiceInterface.tsx:121-125 | the `turnComplete` flag makes no difference to the new state |
| `Voice.DecodeFailureDropsRest` | components/VoiceInterface.tsx:86-119 | when decoding a message's audio throws, the cursor has moved to max(cursor, clock) and nothing else changes: no source is started, and the message's barge-in and transcript deltas are lost |
| `Voice.FeedAppends` | components/VoiceInterface.tsx:115-116 | a series of output deltas appends their concatenation, in order, to `aiText` and nothing else |
| `Voice.FiveDeltas` | components/VoiceInterface.tsx:116 | the deltas "П","р","и","в","е" make `aiText` "Приве" |
| `Voice.CleanupIdempotent` | components/VoiceInterface.tsx:20-37 | cleaning up twice gives the same state as cleaning up once |
| `Voice.StartSucceeds` | components/VoiceInterface.tsx:39-148 | a start that succeeds is connecting with no error, both transcripts empty, an open session and a live microphone, and does not change the active flag |
| `Voice.StartFails` | components/VoiceInterface.tsx:39-154 | a failed start records the microphone error, is no longer connecting, does not change the active flag or the session, and records the stream only when the microphone had been granted |
| `Voice.OpenActivates` | components/VoiceInterface.tsx:64-82 | `onopen` sets the active flag, clears the connecting flag and installs capture |
| `Voice.ErrorCleansUp` | components/VoiceInterface.tsx:127-131 | `onerror` records the connection error and leaves a cleaned-up state |
| `Voice.ToggleChooses` | components/VoiceInterface.tsx:157-163 | toggling an active session leaves it inactive and not connecting, with no active source, cursor 0, no open session, no live microphone and the error kept; toggling an inactive one clears both transcripts, never makes it active, and leaves it connecting and without error exactly when every acquisition succeeded |
| `Voice.FirstToggleMicDenied` | components/VoiceInterface.tsx:150-154 | a first toggle with the microphone refused ends neither connecting nor active, with exactly the microphone error and no session or microphone stream recorded |
| `Voice.FramesInOrder` | components/VoiceInterface.tsx:72-77 | captured frames are sent in capture order once capture is installed |
| `Voice.VoiceSession.constructor` | components/VoiceInterface.tsx:7-18 | the initial state: flags false, transcripts empty, no error, cursor 0, no sources, no session, no stream |
| `Voice.VoiceSession.Schedule` | components/VoiceInterface.tsx:89-102 | the new state is `Scheduled` of the old one; returns the fresh source and its start time max(cursor, clock) |
| `Voice.VoiceSession.Release` | components/VoiceInterface.tsx:21-26 | the new state is `Released` of the old one: a session that exists is closed, a stream that exists is stopped, nothing else changes |
| `Voice.VoiceSession.StopAllSources` | components/VoiceInterface.tsx:27-30 | the loop stops every active source, then the set is emptied |
| `Voice.VoiceSession.Interrupt` | components/VoiceInterface.tsx:106-112 | the new state is `Interrupted` of the old one |
| `Voice.VoiceSession.HandleMessage` | components/VoiceInterface.tsx:83-126 | the new state is `Dispatched` of the old one: audio, then interrupt, then transcripts; a decoding failure stops the handler after the cursor update |
| `Voice.VoiceSession.OnSourceEnded` | components/VoiceInterface.tsx:96-98 | removes that source from the active set and changes nothing else |
| `Voice.VoiceSession.Cleanup` | components/VoiceInterface.tsx:20-37 | the new state is `Cleaned` of the old one |
| `Voice.VoiceSession.OnOpen` | components/VoiceInterface.tsx:64-82 | the new state is `Opened` of the old one |
| `Voice.VoiceSession.OnError` | components/VoiceInterface.tsx:127-131 | the new state is `Errored` of the old one |
| `Voice.VoiceSession.OnClose` | components/VoiceInterface.tsx:132-134 | the new state is `Cleaned` of the old one |
| `Voice.VoiceSession.OnAudioProcess` | components/VoiceInterface.tsx:72-78 | once capture is installed, the frame's encoding is appended to the sent frames |
| `Voice.VoiceSession.Start` | components/VoiceInterface.tsx:39-155 | the new state is `Started` of the old one for the given outcome |
| `Voice.VoiceSession.Toggle` | components/VoiceInterface.tsx:157-163 | the new state is `Toggled` of the old one |
| `Search.TrimEmptyIffBlank` | components/SearchInterface.tsx:22 | the input trims to the empty string exactly when every character is white space or a line terminator |
| `Search.ToSource` | components/SearchInterface.tsx:45-48 | the uri is copied unchanged; the title is `web.title` when present and non-empty, otherwise 'Источник'; the title is never empty |
| `Search.SourcesOfAppend` | components/SearchInterface.tsx:42-51 | extraction distributes over concatenation, so sources keep the chunks' order |
| `Search.SourcesOfSingle` | components/SearchInterface.tsx:44-49 | a chunk yields one source when it has a `web` field and none otherwise |
| `Search.SourcesOfEmpty` | components/SearchInterface.tsx:42-51 | there are no sources exactly when no chunk has a `web` field |
| `Search.SourcesOfMembers` | components/SearchInterface.tsx:42-51 | every source comes from a chunk with a `web` field, and every such chunk contributes one |
| `Search.ExtractSources` | components/SearchInterface.tsx:39-51 | the loop returns the sources of the chunks, or none when the response has no grounding chunks |
| `Search.AssistantMessage` | components/SearchInterface.tsx:53-59 | an assistant message whose content is the response text, or the fallback when that is missing or empty; `sources` is absent exactly when there are none, otherwise it is the non-empty list |
| `Search.ErrorMessage` | components/SearchInterface.tsx:64-69 | the error reply is an assistant message with the fixed error text and no sources |
| `Search.Reply` | components/SearchInterface.tsx:39-70 | a failure gives the error reply; an answer gives its text or the fallback, with sources absent exactly when no chunk has a `web` field |
| `Search.SearchForm.constructor` | components/SearchInterface.tsx:12-13 | the input starts empty and nothing is loading |
| `Search.SearchForm.SetInput` | components/SearchInterface.tsx:148 | typing replaces the input |
| `Search.SearchForm.Submit` | components/SearchInterface.tsx:22-26 | a blank input or a submission while loading changes nothing; otherwise the input is taken, cleared, and loading begins |
| `Search.SearchForm.Complete` | components/SearchInterface.tsx:28-73 | `onNewMessage` is called once with the taken text and the reply for the outcome; loading ends |
| `App.UserMessage` | App.tsx:17 | the recorded user message has role user, exactly the submitted content and no sources |
| `App.SendMessage` | App.tsx:15-21 | the user message and the response are appended, in that order, to the history of the given mode; every other history is unchanged; in voice mode nothing changes |
| `App.ChangeMode` | App.tsx:26 | switching the mode changes neither history |
| `App.SendKeepsPrefix` | App.tsx:16-19 | the old history is a prefix of the new one, which is two longer; the user message comes first, then the response |
| `App.SendAllAppends` | App.tsx:15-21 | a series of exchanges in one mode appends their user messages and replies, interleaved and in order, and leaves the other history alone |
| `App.InitialFirstExchange` | App.tsx:11-17 | the initial mode is chat and both histories are empty, so the first chat exchange is the whole chat history |

## Left out

- The audio codec: `createAudioBlob`, `decode` and `decodeAudioData` live in `utils/audio`, which is not part of this model. The encoder is an uninterpreted function. Decoding shows up only as the buffer duration the caller supplies, or as its absence when decoding throws. No PCM or base64 property is claimed.
- Browser audio and media APIs (`AudioContext`, `resume`, `createScriptProcessor`, `createMediaStreamSource`, `createBufferSource`, `getUserMedia`): their effects are the session and stream handles, the start log, the stop set and the caller-supplied clock.
- The two audio contexts: the source never closes them, and they are not modelled.
- Asynchrony: the model handles one event at a time. It leaves out the `await decodeAudioData` between computing the cursor and starting the buffer, the `sessionPromise.then` sends, the order in which `onopen` and the connect promise settle, React's batching of state updates, and the render-time value of `isActive` that `handleToggle` reads.
- Each start installs a new capture processor and never removes the old one. The model keeps a single `capturing` flag and one sent-frames sequence.
- What the platform delivers to the capture processor after the microphone tracks stop (silence) is not modelled.
- The Start button is disabled while connecting (components/VoiceInterface.tsx:178). That is rendering, so `Toggle` itself does not check the connecting flag.
- The network clients (`live.connect`, `models.generateContent`, `chats`), their model names, system instructions and configuration literals.
- components/ChatInterface.tsx: its guard and fallback text repeat the search screen's.
- Rendering: JSX, the scroll effects and CSS, components/Sidebar.tsx and components/Header.tsx.
- Message ids and timestamps from `Date.now()`, `console.error` logging, and the API key from the environment.
- Floating-point rounding of clock times: times are exact reals.
- Search.ToSource: takes `web.uri` to be present. A grounding chunk whose web entry has no uri would yield a source whose uri is undefined; that case is not modelled, because the source record's `uri` is declared a string (types.ts:18).
