# Story-character voice chat: verified model of its core logic

The application is a children's voice-chat web app. A child picks a story character and then a
behavior lesson, and talks with the character over a live audio session with a hosted AI model.
This project models the parts of it that amount to logic rather than UI, and proves properties
of them:

- **Live-session bookkeeping** (`services/liveClient.ts`), in several layers:
  - the PCM helpers `createBlob`, `encode`, `decode` and `decodeAudioData`;
  - the base64 conversion they rely on, as a strict RFC 4648 section 4 codec together with the
    browser's `btoa`/`atob` over binary strings;
  - the `LiveSessionManager` state machine: its `active` flag, its set of playing source nodes,
    its `nextStartTime` playback cursor and its nullable handles, as changed by each event
    (`connect`, the microphone grant, `onmessage`, a source's `ended`, `onaudioprocess`, the
    volume loop and `disconnect`).
- **Screen navigation** (`App.tsx`): the three screens, the selected character and behavior,
  the four handlers and the rule that picks the rendered screen.
- **The chat screen** (`screens/ChatScreen.tsx`):
  - the ordered substring tests that turn a connection error into one of four messages and a
    "known error" flag;
  - the choice between the error, connecting and visualizer panels;
  - the state updates, with the `mounted` guard and the cleanup;
  - `toggleMic`.
- **The speech-recognition wrapper** (`services/speechRecognition.ts`): the `isListening` guard
  of `start`/`stop`, and the recogniser events forwarded to the owner.

Layout, one module per file:

| file | module | contents |
|---|---|---|
| `wrappers.dfy` | `Wrappers` | `Option`, `Result` |
| `base64.dfy` | `Base64` | RFC 4648 section 4 encoder and strict decoder, both round trips |
| `binary_string.dfy` | `BinaryString` | binary strings, `btoa`/`atob` and their DOMException errors |
| `audio_codec.dfy` | `AudioCodec` | Int16 wrap, little-endian byte layout, `encode`, `decode`, `createBlob`, `decodeAudioData` |
| `js_error.dfy` | `JsErrors` | thrown errors and `Error.prototype.toString` (section 20.5.3.4 of ECMA-262) |
| `live_session.dfy` | `LiveSession` | the manager's state as a value, one step function per event, their lemmas, the class |
| `types.dfy` | `Types` | `Screen`, `Character`, `Behavior` |
| `navigation.dfy` | `Navigation` | the App state machine, its reachable-state invariant and the class |
| `chat_screen.dfy` | `ChatScreen` | `includes`, error classification, the panel rule, the class |
| `speech_recognition.dfy` | `SpeechRecognition` | the recogniser and the service class |

The session manager and the App component are modelled in two layers:

- A pure step function per event on a datatype of the entity's fields. The lemmas speak about
  these functions.
- A class with the same fields. Each method's `ensures` ties its new state to the step function
  applied to the old state.

The chat screen and the speech-recognition service are modelled as classes whose methods state
their whole new state directly. The chat screen's decisions (classification, panel choice) are
pure functions that its methods call, and short scenario methods tie its events to what is shown.

Browser objects are modelled as opaque identities only: streams, audio contexts, gain nodes and
the AI session are `nat` ids. Source nodes are numbered from 0 in creation order. Times are
exact reals on the playback clock. Samples are 16-bit integers.

## Model

| member | source | states |
|---|---|---|
| Base64.CharOf | services/liveClient.ts:22 | each 6-bit value has an alphabet character, never the pad, and decoding that character gives the value back |
| Base64.Encode | services/liveClient.ts:22 | base64 of n bytes has 4 * ceil(n / 3) characters |
| Base64.Decode | services/liveClient.ts:26 | carries no ensures of its own; its behaviour is stated by Base64.DecodeEncode and Base64.EncodeDecode |
| Base64.DecodeEncode | services/liveClient.ts:22-26 | decoding the encoding of any byte sequence gives the sequence back |
| Base64.EncodeDecode | services/liveClient.ts:22-26 | every string the strict decoder accepts is the encoding of what it decodes to, so the accepted strings are exactly the canonical encodings |
| Base64.TripleRoundTrip | services/liveClient.ts:22-26 | a full 3-byte group encodes to four unpadded characters that decode back to the group |
| Base64.SingleRoundTrip | services/liveClient.ts:22-26 | a final single byte (two pads) decodes back to itself |
| Base64.PairRoundTrip | services/liveClient.ts:22-26 | a final byte pair (one pad) decodes back to itself |
| BinaryString.BytesOf | services/liveClient.ts:26-31 | reading char codes of a binary string gives one byte per character, equal to its code |
| BinaryString.CharsOf | services/liveClient.ts:17-21 | `String.fromCharCode` per byte gives a binary string of the same length whose i-th code is byte i |
| BinaryString.BytesOfCharsOf | services/liveClient.ts:16-33 | bytes to characters and back is the identity |
| BinaryString.CharsOfBytesOf | services/liveClient.ts:16-33 | characters of a binary string to bytes and back is the identity |
| BinaryString.Btoa | services/liveClient.ts:22 | `btoa` succeeds exactly on binary strings, with 4 * ceil(n / 3) characters |
| BinaryString.Atob | services/liveClient.ts:26 | `atob` succeeds exactly on strings the base64 decoder accepts, and yields a binary string |
| BinaryString.AtobBtoa | services/liveClient.ts:22-26 | `atob(btoa(s)) == s` for every binary string |
| BinaryString.BtoaAtob | services/liveClient.ts:22-26 | `btoa(atob(s)) == s` whenever `atob` accepts `s` |
| AudioCodec.ToInt16 | services/liveClient.ts:8 | storing into an `Int16Array` keeps the value modulo 2^16 and leaves in-range values unchanged |
| AudioCodec.ToInt16s | services/liveClient.ts:5-9 | the Int16Array holds one wrapped sample per input value, in order |
| AudioCodec.SampleOfBytes | services/liveClient.ts:11-41 | a sample's low and high byte reassemble to the sample |
| AudioCodec.LittleEndian | services/liveClient.ts:11 | the byte view of the Int16 buffer has two bytes per sample, low byte first, in sample order |
| AudioCodec.SamplesOf | services/liveClient.ts:41 | the Int16 view of an even-length byte buffer has one sample per byte pair, little-endian |
| AudioCodec.SamplesOfLittleEndian | services/liveClient.ts:11-41 | the Int16 view of the byte view of samples is those samples |
| AudioCodec.Encode | services/liveClient.ts:16-23 | the loop builds the binary string of the bytes, and the result is `btoa` of it, that is the base64 encoding of the bytes |
| AudioCodec.Decode | services/liveClient.ts:25-33 | throws (InvalidCharacterError) exactly when `atob` rejects; otherwise returns a fresh array holding the decoded bytes |
| AudioCodec.CreateBlob | services/liveClient.ts:4-14 | the blob is tagged `audio/pcm;rate=16000` and its data is the base64 of the little-endian bytes of the wrapped samples |
| AudioCodec.BlobRoundTrip | services/liveClient.ts:4-41 | the blob's data decodes to exactly 2 bytes per input sample, and those bytes read back as the wrapped samples |
| AudioCodec.InterleavedIndices | services/liveClient.ts:42-48 | every index `i * numChannels + channel` read by the copy loop lies inside the sample buffer |
| AudioCodec.Deinterleave | services/liveClient.ts:42-50 | there are `numChannels` channels of `samples / numChannels` frames each, and channel c, frame i is sample `i * numChannels + c` |
| AudioCodec.AudioBufferOf | services/liveClient.ts:35-52 | fails exactly on an odd byte count (RangeError) or on zero channels, zero rate or zero frames (NotSupportedError); otherwise the rate and frame count are as given and the channels are the de-interleaved 16-bit samples |
| AudioCodec.Duration | services/liveClient.ts:175 | a buffer's duration is never negative, and it is positive when the buffer has frames |
| AudioCodec.DecodeAudioData | services/liveClient.ts:35-52 | the nested copy loops produce exactly the buffer `AudioBufferOf` describes |
| AudioCodec.MonoChannelIsSamples | services/liveClient.ts:41-50 | with one channel, channel 0 is the sample sequence in order |
| AudioCodec.CaptureThenPlayback | services/liveClient.ts:4-52 | a captured blob's data, decoded and read as a mono buffer, is the wrapped samples |
| JsErrors.ToString | screens/ChatScreen.tsx:49 | `name: message` when both are non-empty, the name alone when the message is empty, the message alone when the name is empty, and empty exactly when both are |
| LiveSession.ConnectStep | services/liveClient.ts:73-79 | `connect` always sets `active`, and throws before any await exactly when `getUserMedia` is missing |
| LiveSession.EndedStep | services/liveClient.ts:170-172 | a source's `ended` event removes exactly that source from the set |
| LiveSession.MicStep | services/liveClient.ts:83-107 | carries no ensures of its own; its behaviour is stated by LiveSession.MicRejected, LiveSession.MicKeeps, LiveSession.GrantOpensAll and LiveSession.DisconnectWhileMicPending |
| LiveSession.AudioProcessStep | services/liveClient.ts:140-147 | a blob is sent exactly while active, tagged as 16 kHz PCM and holding the encoded frame |
| LiveSession.DecodeChunk | services/liveClient.ts:160-165 | carries no ensures of its own; its behaviour is stated by LiveSession.ChunkScheduled and LiveSession.DecodeFailureSkipsInterrupt |
| LiveSession.InterruptStep | services/liveClient.ts:179-187 | carries no ensures of its own; its behaviour is stated by LiveSession.InterruptFlushes and LiveSession.EmptyInterruptOnlyRewinds |
| LiveSession.PlayStep | services/liveClient.ts:157-177 | carries no ensures of its own; its behaviour is stated by LiveSession.PlayKeeps, LiveSession.ChunkScheduled, LiveSession.CursorMonotone and LiveSession.DecodeFailureSkipsInterrupt |
| LiveSession.MessageStep | services/liveClient.ts:152-188 | carries no ensures of its own; its behaviour is stated by LiveSession.MessageKeeps, LiveSession.MessageFrame, LiveSession.InactiveMessageIgnored, LiveSession.MessageNoOp, LiveSession.ChunkScheduled, LiveSession.InterruptFlushes, LiveSession.EmptyInterruptOnlyRewinds and LiveSession.DecodeFailureSkipsInterrupt |
| LiveSession.DisconnectStep | services/liveClient.ts:209-249 | carries no ensures of its own; its behaviour is stated by LiveSession.DisconnectKeeps, LiveSession.DisconnectClears and LiveSession.DisconnectIdempotent |
| LiveSession.InitialConsistent | services/liveClient.ts:57-66 | a new manager is inactive, holds nothing, plays nothing, with the cursor at 0, and satisfies the invariant |
| LiveSession.ConnectKeeps | services/liveClient.ts:73-79 | the start of `connect` keeps the invariant |
| LiveSession.MicKeeps | services/liveClient.ts:84-107 | the end of `connect` keeps the invariant: handles all together, only while active |
| LiveSession.PlayKeeps | services/liveClient.ts:157-177 | the audio branch, on a live manager whose output graph exists, keeps the invariant |
| LiveSession.MessageKeeps | services/liveClient.ts:152-188 | `onmessage` keeps the invariant, including that the cursor is never negative and every source is one the manager created |
| LiveSession.EndedKeeps | services/liveClient.ts:170-172 | a source's `ended` event keeps the invariant |
| LiveSession.DisconnectKeeps | services/liveClient.ts:209-249 | `disconnect` keeps the invariant |
| LiveSession.InactiveMessageIgnored | services/liveClient.ts:153 | while inactive, a message changes nothing, schedules nothing and stops nothing |
| LiveSession.MessageNoOp | services/liveClient.ts:152-188 | a live message with no playable audio (none, empty, or no output graph yet) and no interrupt changes nothing, schedules nothing and stops nothing |
| LiveSession.MessageFrame | services/liveClient.ts:152-188 | a message changes only the cursor, the playing set and the count of created sources; `active`, the stream, the contexts, the nodes and the session stay as they were |
| LiveSession.ChunkScheduled | services/liveClient.ts:157-176 | a decodable chunk starts at `max(cursor, currentTime)`, so never before now or the previous cursor; its source is new; without an interrupt the cursor ends at start + duration and the source joins the set |
| LiveSession.CursorMonotone | services/liveClient.ts:158-175 | without an interrupt the cursor never moves backward |
| LiveSession.DecodeFailureSkipsInterrupt | services/liveClient.ts:158-187 | an audio part that fails to decode leaves the cursor at `max(cursor, now)`, schedules nothing and skips the interrupt block |
| LiveSession.InterruptFlushes | services/liveClient.ts:157-187 | an interrupt stops exactly the sources playing plus the message's own chunk, which is scheduled first; afterwards nothing plays and the cursor is 0 |
| LiveSession.EmptyInterruptOnlyRewinds | services/liveClient.ts:179-187 | an interrupt with nothing playing and no audio changes only the cursor, to 0 |
| LiveSession.BackToBack | services/liveClient.ts:158-175 | a second chunk arriving before the first ends starts exactly when the first ends |
| LiveSession.Feed | services/liveClient.ts:152-188 | a run of messages yields one scheduling outcome per message |
| LiveSession.FeedSchedules | services/liveClient.ts:152-188 | fed plain audio messages, a connected manager schedules each one at `max(end of the previous chunk, now)`, never overlapping, and the cursor ends at the end of the last chunk |
| LiveSession.FeedGapless | services/liveClient.ts:158-175 | when each chunk arrives before the previous one ends, chunk k starts at the first start plus the durations of chunks 0..k-1: no gap and no overlap |
| LiveSession.DisconnectClears | services/liveClient.ts:209-249 | after `disconnect` the manager is inactive, holds no handle, plays nothing, has its cursor at 0, and released the stream and stopped the sources it had |
| LiveSession.DisconnectIdempotent | services/liveClient.ts:209-249 | a second `disconnect` changes nothing and releases or stops nothing |
| LiveSession.DisconnectBeforeConnect | services/liveClient.ts:209-249 | `disconnect` on a new manager, or on one whose `connect` stopped at its first step, leaves the initial state |
| LiveSession.DisconnectWhileMicPending | services/liveClient.ts:90-94 | a microphone grant that arrives after `disconnect` only stops the granted tracks; nothing is stored and the manager stays inactive |
| LiveSession.MicRejected | services/liveClient.ts:82-87 | a refused microphone rethrows the same error and leaves every field unchanged, `active` included |
| LiveSession.GrantOpensAll | services/liveClient.ts:96-107 | a grant on a live manager stores the stream and opens every handle, leaving playback untouched |
| LiveSession.DisconnectedIsSilent | services/liveClient.ts:117-153 | once disconnected, audio frames send nothing, the volume loop stops and messages are ignored |
| LiveSession.LiveSessionManager.constructor | services/liveClient.ts:57-71 | a new manager is in the initial state |
| LiveSession.LiveSessionManager.Connect | services/liveClient.ts:73-79 | the fields change as `ConnectStep` says, the invariant is kept, and the same error is thrown |
| LiveSession.LiveSessionManager.MicResolved | services/liveClient.ts:83-107 | the fields change as `MicStep` says and the outcome is the same; the invariant is kept |
| LiveSession.LiveSessionManager.UpdateVolume | services/liveClient.ts:117-126 | a level is reported (and the next frame requested) exactly while active |
| LiveSession.LiveSessionManager.OnAudioProcess | services/liveClient.ts:140-147 | the blob sent is the one `AudioProcessStep` gives |
| LiveSession.LiveSessionManager.PlayAudio | services/liveClient.ts:157-177 | on a live manager whose output graph exists, the audio branch changes the fields and yields the chunk or the error as `PlayStep` says, and keeps the invariant |
| LiveSession.LiveSessionManager.StopAllSources | services/liveClient.ts:182-185 | the loop stops exactly the sources in the set and leaves it empty, changing nothing else and keeping the invariant |
| LiveSession.LiveSessionManager.OnMessage | services/liveClient.ts:152-188 | the fields, the scheduled chunk, the stopped sources and the error are those of `MessageStep`; the invariant is kept |
| LiveSession.LiveSessionManager.OnSourceEnded | services/liveClient.ts:170-172 | the fields change as `EndedStep` says; the invariant is kept |
| LiveSession.LiveSessionManager.Disconnect | services/liveClient.ts:209-249 | the fields, the released stream and the stopped sources are those of `DisconnectStep`; the invariant is kept |
| Navigation.InitialState | App.tsx:9-11 | the app starts on HOME with the first catalog character and no behavior |
| Navigation.Apply | App.tsx:13-31 | character select stores the character and moves to SETUP, keeping the behavior; behavior select stores it and moves to CHAT, keeping the character; back maps CHAT to SETUP and SETUP to HOME, keeps HOME and never touches the selections; end session goes HOME, clears the behavior and keeps the character |
| Navigation.Rendered | App.tsx:46-64 | at most one screen component renders: none exactly on CHAT without a behavior; otherwise the one for the current screen, with the selected character and behavior |
| Navigation.ApplyKeeps | App.tsx:13-31 | every handler keeps "CHAT implies a behavior is selected" |
| Navigation.RunKeeps | App.tsx:13-31 | any sequence of handler calls keeps that invariant |
| Navigation.ReachableRendersOne | App.tsx:9-64 | in every state reachable from the initial one, CHAT has a behavior and exactly one screen component renders |
| Navigation.ChatLeadsHome | App.tsx:28-64 | through the handler the chat screen offers (end session), CHAT is left only for HOME, with the behavior cleared and the character kept |
| Navigation.FullRound | App.tsx:9-31 | picking a character, then a behavior, reaches CHAT with both; ending the session returns HOME with the character kept |
| Navigation.App.constructor | App.tsx:9-11 | the state variables start as `InitialState` and satisfy the invariant |
| Navigation.App.HandleCharacterSelect | App.tsx:13-16 | the state changes as `Apply` says; the invariant is kept |
| Navigation.App.HandleBehaviorSelect | App.tsx:18-21 | the state changes as `Apply` says; the invariant is kept |
| Navigation.App.HandleBack | App.tsx:23-26 | the state changes as `Apply` says; the invariant is kept |
| Navigation.App.HandleEndSession | App.tsx:28-31 | the state changes as `Apply` says; the invariant is kept |
| Navigation.App.Render | App.tsx:46-64 | in a valid state the one rendered component is the one `Rendered` lists |
| ChatScreen.Includes | screens/ChatScreen.tsx:54-60 | the index-by-index search answers true exactly when the pattern occurs at some index of the text |
| ChatScreen.MissingChar | screens/ChatScreen.tsx:54-60 | a pattern with a character the text lacks does not occur in it |
| ChatScreen.ErrorText | screens/ChatScreen.tsx:49 | `err.toString() \|\| err.message \|\| ""` is always `err.toString()` |
| ChatScreen.Classify | screens/ChatScreen.tsx:50-63 | device markers are checked first, then permission markers, then the API-key marker; the first that matches gives its message; the error is known exactly when one matched, and otherwise the generic message stands |
| ChatScreen.ApiKeyMissingClassified | screens/ChatScreen.tsx:26-63 | the error thrown for a missing API key gets the API-key message and counts as known |
| ChatScreen.PermissionRefusedClassified | screens/ChatScreen.tsx:49-59 | a NotAllowedError DOMException with message "Permission denied" gets the permission message |
| ChatScreen.DeviceMissingClassified | screens/ChatScreen.tsx:49-56 | a NotFoundError DOMException gets the device message whatever its message |
| ChatScreen.FirstMatchWins | screens/ChatScreen.tsx:54-63 | a text carrying both a device marker and the API-key marker is classified as a device error |
| ChatScreen.PanelFor | screens/ChatScreen.tsx:132-147 | the error panel exactly when an error is set, showing it; else "connecting" exactly when not connected; else the visualizer with the current volume |
| ChatScreen.ChatScreen.constructor | screens/ChatScreen.tsx:15-45 | on mount, with no API key the API-key message is set before any manager exists; with one a fresh manager in its initial state is stored |
| ChatScreen.ChatScreen.ConnectResolved | screens/ChatScreen.tsx:46 | `connect` resolving sets connected only while mounted, and changes nothing else |
| ChatScreen.ChatScreen.ConnectRejected | screens/ChatScreen.tsx:48-71 | the error is classified as `Classify` says; it is logged exactly when unknown; the message is set only while mounted |
| ChatScreen.ChatScreen.VolumeChanged | screens/ChatScreen.tsx:41-43 | the volume is updated only while mounted |
| ChatScreen.ChatScreen.Cleanup | screens/ChatScreen.tsx:76-81 | cleanup clears `mounted` and disconnects the manager exactly when one was created, its state changing as `DisconnectStep` says |
| ChatScreen.ChatScreen.ToggleMic | screens/ChatScreen.tsx:85-90 | `toggleMic` negates the mute flag and changes nothing else |
| ChatScreen.ConnectingThenLive | screens/ChatScreen.tsx:41-46 | a new screen with an API key shows "connecting" with the mic button disabled; once `connect` resolves and a volume is reported it shows the visualizer at that volume with the button enabled |
| ChatScreen.MissingKeyShown | screens/ChatScreen.tsx:26-70 | with no API key the error panel shows the API-key message at once and the mic button stays disabled |
| ChatScreen.RefusedShown | screens/ChatScreen.tsx:48-70 | a refused microphone shows the permission message, keeps the mic button disabled, and logs nothing |
| ChatScreen.RefusalChain | screens/ChatScreen.tsx:41-70 | `connect` started, the microphone refused with NotAllowedError, the manager's rethrow caught by the screen: the permission panel is shown, the mic button stays disabled and nothing is logged |
| ChatScreen.AfterCleanup | screens/ChatScreen.tsx:22-81 | after cleanup, a late `connect` result or volume report leaves the panel and the mute flag as they were |
| SpeechRecognition.Recognizer.constructor | services/speechRecognition.ts:24 | a new recogniser has not been started or stopped |
| SpeechRecognition.SpeechRecognitionService.constructor | services/speechRecognition.ts:8-43 | with a browser recogniser, one is created and configured as `ar-SA`, non-continuous and final-results-only; without one, the owner gets the unsupported-browser error and none is created; not listening either way |
| SpeechRecognition.SpeechRecognitionService.Start | services/speechRecognition.ts:45-53 | a no-op while listening; otherwise listening afterwards exactly when a recogniser exists and its `start` did not throw, in which case it was started once; a throw is logged and swallowed |
| SpeechRecognition.SpeechRecognitionService.Stop | services/speechRecognition.ts:55-59 | a no-op while not listening; otherwise the recogniser is stopped once; not listening afterwards |
| SpeechRecognition.SpeechRecognitionService.OnResult | services/speechRecognition.ts:29-32 | the first alternative of the first result is forwarded once, the flag unchanged; an event with none forwards nothing |
| SpeechRecognition.SpeechRecognitionService.OnEnd | services/speechRecognition.ts:34-37 | the flag is cleared before the owner's end callback runs, so the owner is told while not listening |
| SpeechRecognition.SpeechRecognitionService.OnError | services/speechRecognition.ts:39-42 | the flag is cleared before the owner's error callback runs, and the owner gets `event.error` while not listening |
| SpeechRecognition.StartStopIdempotent | services/speechRecognition.ts:45-59 | starting twice starts the recogniser once; stopping twice stops it once |
| SpeechRecognition.RestartFromOnEnd | services/speechRecognition.ts:34-49 | an owner that calls `start` from its end callback does restart recognition, because the flag is already clear |
| SpeechRecognition.UnsupportedNeverListens | services/speechRecognition.ts:19-53 | without a browser recogniser only the unsupported-browser error is reported, and a later `start` leaves the service not listening |

## Left out

- The hosted AI SDK (`ai.live.connect`, model, voice and system-instruction config, `sendRealtimeInput`, and the `onerror`/`onclose` logging) is not modelled: it is a third-party library and a network protocol. A live session is an opaque id, and `onaudioprocess` returns the blob it would send.
- The browser audio graph is modelled only as opaque handles that are held or not. This covers `AudioContext` creation, resume and close, gain and analyser nodes, routing, `createBufferSource().start` and `requestAnimationFrame` timing.
- The `onopen` wiring of the script processor is not modelled; `onaudioprocess` is modelled as a handler on the manager.
- Float sample scaling (`* 32768` on capture and `/ 32768.0` on playback) is left out because it is floating point. AudioCodec.CreateBlob takes the already scaled integer samples; it then models the Int16Array wrap-around exactly. Playback channels hold the 16-bit integers.
- AudioCodec.DecodeAudioData rounds the frame count down, as the source's buffer does: `createBuffer` takes an `unsigned long` length, so a fractional `frameCount` (the channel count not dividing the sample count) is truncated. The source's copy loop then runs one more frame, which reads past the samples and writes past the end of each channel; that write is dropped by the typed array and has no effect. The model does not run that extra iteration. The live client always calls it with one channel (services/liveClient.ts:164).
- AudioCodec.DecodeAudioData does not model the upper limits of `createBuffer`, such as at most 32 channels and the allowed sample-rate range. Only zero channels, a zero rate and zero frames are rejected.
- LiveSession.LiveSessionManager.UpdateVolume takes the level as a parameter: the analyser's byte data and the float average of it are left out.
- Time is exact real arithmetic: `currentTime` and `duration` rounding is not modelled, and a chunk's duration is frames / rate.
- BinaryString.Atob is the strict RFC 4648 section 4 decoder. It does not model the forgiving parts of the browser's `atob`: skipped whitespace, missing padding, and non-zero bits after the last character. Those inputs are rejected here rather than accepted.
- Characters are Dafny `char`, not UTF-16 code units; binary strings, whose codes are all below 256, behave the same either way.
- The byte layout assumes a little-endian platform, as every browser in use is; `Int16Array` over `Uint8Array.buffer` uses platform byte order.
- Interleavings inside awaits, other than the microphone race guard, are left out. Examples are a message arriving mid-`disconnect`, or the `decodeAudioData` await. Each event handler is one atomic step.
- LiveSession.MessageStep reads only the audio data of the first part of the model turn (`parts[0]?.inlineData?.data`) and the `interrupted` flag; a first part without inline data counts as no audio. It does not model the TypeError the source throws when a model turn has no `parts` array; that message would end the handler before the interrupt check. The rest of the server message is not read by the source either.
- ChatScreen.ChatScreen.constructor performs the mount, the API-key check and the creation of the manager as one step. The rest of the effect's part before its first await belongs to `connect`: its synchronous `active = true` and the `getUserMedia` call are driven separately through the manager's own methods (`LiveSession.LiveSessionManager.Connect`, then `MicResolved`), and the settling of `connect` through `ConnectResolved` and `ConnectRejected`. The system instruction text is not built, since it only feeds the AI SDK.
- ChatScreen.ChatScreen models one effect run per mount, so there is one `mounted` flag. The effect's dependencies, the character and the behavior, can only change by leaving the chat screen, which unmounts it. The development-mode double run under `React.StrictMode` (index.tsx:16) is not modelled. There, the effect runs, is cleaned up (disconnecting its manager), and runs again with a new `mounted` flag and a new manager. Each run behaves as modelled.
- ChatScreen.ChatScreen.ConnectRejected takes Error-shaped rejections only (a `name` and a `message`). A rejection that is not an Error (a string, an event object) has its own `toString` and may lack `.message`; the `|| err.message || ""` fallback exists for those, and ChatScreen.ErrorText shows it never applies to Error-shaped values.
- UI rendering is not modelled: markup, styling, animation, the visualizer's scaling, the home and setup screens' lists, and the index mount.
- `toggleMic` only flips a visual flag; actual microphone muting does not exist in the source.
- services/ttsService.ts is not part of this model: it is a thin wrapper over speech synthesis and audio playback.
- The character and behavior catalogs are not part of this model; the catalog is any non-empty sequence.
- SpeechRecognition.SpeechRecognitionService.OnResult, OnEnd and OnError require a recogniser, since only an existing recogniser can fire events. A throw inside `start` is a parameter (`startThrows`), and a missing recogniser throws as calling `start` on `undefined` does.
- Navigation.Apply maps CHAT to SETUP on `handleBack`, as the code does (App.tsx:24), although no screen shown on CHAT offers a back button. Navigation.ChatLeadsHome shows that through the handler the chat screen does offer, CHAT leads only to HOME.
