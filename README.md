# A verified model of the 2x2pac voice-therapy app's core

The app has three parts. A browser client streams microphone audio, and
optionally camera frames, over a WebSocket to a FastAPI backend. The backend
relays that traffic to a Gemini live session and forwards Gemini's spoken and
written replies back to the page, which plays the audio chunks one after another.
The second part is a recorder page that packs a recording into a WAV file and
uploads it for transcription and sentiment labelling. The third is a
guided-meditation player.

This Dafny project models the deterministic logic of those programs and proves
what it promises:

- `common.dfy`: `Byte`, `Option` and `Result`, plus the byte store of a character.
- `json.dfy` (module `JsonValue`): decoded JSON values and the operations the two
  programs apply to them. These are Python's subscript, `in` and truthiness, and
  JavaScript's property read.
- `pcm.dfy` (module `Pcm`): the sample codec of `client/src/lib/utils.ts`.
  - `float32ToPcm16` clamps, scales asymmetrically by 32768 and 32767, and
    truncates toward zero.
  - `base64ToFloat32Array` pairs bytes into little-endian int16 values and
    divides by 32768.
  - Both are methods over arrays, with loop invariants, proved against pure
    specification functions. The byte round trips and the decode/encode round
    trip are proved about those functions.
- `wav.dfy` (module `Wav`): `createWavFile` and `writeString` of
  `client/src/components/AudioRecorder.tsx`.
  - They write the canonical 44-byte RIFF/WAVE header and then the interleaved
    int16 samples into one byte array, field by field and sample by sample.
  - `CreateWavFile` is proved to produce exactly `WavFile(buf)`.
  - `HeaderLayout` and `SampleLayout` state where each header field and each
    sample sits, and what a reader decodes from it.
- `chat_session.dfy` (module `ChatSession`): the streaming session of
  `client/src/pages/ChatInterface.tsx` as a class.
  - Each event handler is one method: `onopen`, `onmessage`, `onerror`, `onclose`,
    the script processor's `audioprocess` and a buffer source's `ended`. So are
    `startStream`, `addMessage`, `playAudioData`, `playNextInQueue` and
    `stopStream`.
  - The socket, audio context, microphone nodes, camera stream and interval timer
    are abstract handles. What the session does to them is logged in `effects`.
  - The invariants kept by every method cover the playback FIFO (every chunk
    plays in enqueue order, at most one at a time), the flag, and the socket
    (the configuration is the first message on every socket).
- `player.dfy` (module `MeditationPlayer`):
  `client/src/pages/MeditationAudioPlayer.tsx`.
  - Cyclic track navigation with its inverse.
  - `formatTime` with a reader that parses the clock back.
  - The player as a class whose methods record the calls made on the `<audio>`
    element.
- `relay.dfy` (module `Relay`): `backend/main.py`.
  - The sentiment label thresholds and the upload checks of `/analyze_sentiment`.
  - The message builders of `GeminiConnection`.
  - Routing in `receive_from_client` and translation in `receive_from_gemini`.
  - Both relay loops as methods over the events of their sockets.
  - `websocket_endpoint`, with the module-level `connections` table as a class
    field, split into registration, the session and cleanup so that two calls
    under one client id can overlap.
- `protocol.dfy` (module `Protocol`): lemmas that connect the two ends of the
  wire. The page's configuration message passes the backend's check. A
  captured audio block reaches Gemini as one `audio/pcm` chunk and decodes back
  to the block's samples. Each reply the backend sends is read by the page as
  that reply's kind.

Behaviour modelled as the code has it:

- **Text replies arrive without their text.** The backend puts a text reply under
  `data` (`backend/main.py:235-238`). The page reads `text`
  (`client/src/pages/ChatInterface.tsx:157`). So every assistant entry the page
  appends holds `undefined`; `Protocol.TextReplyLosesText` states this.
- **`stopStream` keeps the playback queue.** It releases and clears the handles
  and both flags, but leaves the playback queue and its flag as they are.
- **An empty chunk stalls playback.** An audio reply that decodes to zero
  samples is still taken off the queue with the flag raised. `createBuffer` then
  throws before any source is started, so no `ended` event ever comes. The flag
  stays up and later chunks only queue. `ChatSession.FlagInvariant` records this
  state, and `PlayAudioData`'s contract shows that later chunks only queue.
  `ChatSession.TwoChunksPlayInOrder` shows the normal case: a chunk arriving
  while another plays waits in the queue and starts when the first one ends.
- **One queue per session.** `audioBuffer` and `isPlaying` are locals of the
  component body (`client/src/pages/ChatInterface.tsx:115-116`), so each React
  re-render creates fresh ones, while the handlers already installed keep the
  ones they captured. The model keeps one queue and one flag per session, the
  state those handlers see between two renders.
- **`formatTime` on real seconds.** It is modelled on `real` seconds with
  JavaScript's truncating `%`, not on whole seconds. For non-negative inputs the
  result is proved to depend only on the whole seconds (`FormatTimeLayout`).

## Model

| member | source | states |
|---|---|---|
| Common.Latin1 | client/src/lib/utils.ts:21-23 | a character below 256 is stored in the byte array as its own code |
| JsonValue.GetItem | backend/main.py:183-184 | Python's `value[key]` finds exactly the keys a dict holds, raises KeyError for a missing key of a dict and TypeError for anything that is not a dict |
| JsonValue.Contains | backend/main.py:227-233 | Python's `in` is key membership on a dict and element membership on a list, and raises exactly on values that are not containers |
| JsonValue.Member | client/src/pages/ChatInterface.tsx:152-157 | a property read yields a value exactly when the parsed value is an object holding that key |
| JsonValue.Tagged | backend/main.py:229-238 | a `{"type": kind, key: payload}` message reads back its type and its payload |
| Pcm.Clamp | client/src/lib/utils.ts:11 | the clamp lies in [-1, 1], is the identity inside it and saturates at either end |
| Pcm.Trunc | client/src/lib/utils.ts:12 | storing into an `Int16Array` rounds toward zero: the result lies within one of the input on the side of zero |
| Pcm.SampleToPcm16 | client/src/lib/utils.ts:11-12 | the result is an int16; inputs >= 1 give 32767 and <= -1 give -32768; the sign is kept; negative inputs are scaled by 32768 and the others by 32767, truncated toward zero |
| Pcm.Float32ToPcm16 | client/src/lib/utils.ts:8-15 | the output has the input's length, and element i is the converted input sample i, so every element is an int16 |
| Pcm.Int16FromBytes | client/src/lib/utils.ts:25 | a little-endian byte pair reads as an int16 that is negative exactly when the high byte has its top bit set |
| Pcm.Int16BytesRoundTrip | client/src/lib/utils.ts:25 | splitting an int16 into its low and high byte and reading the pair back gives the value |
| Pcm.BytesInt16RoundTrip | client/src/lib/utils.ts:25 | reading a byte pair and splitting the value again gives the same two bytes |
| Pcm.SplitSamples | client/src/pages/ChatInterface.tsx:190-192 | the byte view of an int16 block has two bytes per sample |
| Pcm.PairBytes | client/src/lib/utils.ts:25 | the int16 view of an even byte sequence has half as many elements, each an int16 |
| Pcm.PairSplit | client/src/pages/ChatInterface.tsx:190-192 | splitting samples into bytes before sending and pairing the bytes on receipt is the identity |
| Pcm.SplitPair | client/src/lib/utils.ts:19-25 | pairing an even byte sequence and splitting it again is the identity |
| Pcm.Latin1Bytes | client/src/lib/utils.ts:20-23 | the copy loop stores one byte per character of the binary string |
| Pcm.BinaryString | client/src/pages/ChatInterface.tsx:192 | the one-character-per-byte string handed to `btoa` reads back as the same bytes |
| Pcm.Int16ToFloat | client/src/lib/utils.ts:29 | a decoded int16 lies in [-1, 1) and times 32768 is the int16 again |
| Pcm.Base64ToFloat32Array | client/src/lib/utils.ts:18-32 | a base64 failure and an odd decoded byte count are errors; otherwise the output has half as many samples as bytes, and sample i is the little-endian pair (2i, 2i+1) divided by 32768 |
| Pcm.DecodeEncodeSample | client/src/lib/utils.ts:12-29 | a decoded sample v/32768 fed back through the encoder gives v when v <= 0 and v - 1 when v > 0 |
| Pcm.DecodeEncodeBlock | client/src/lib/utils.ts:8-31 | decoding a block and encoding it again keeps its length and moves no sample by more than one |
| Wav.U16RoundTrip | client/src/components/AudioRecorder.tsx:75-80 | `setUint16(.., true)` writes two bytes whose little-endian value is the argument modulo 2^16 |
| Wav.U32RoundTrip | client/src/components/AudioRecorder.tsx:69-84 | `setUint32(.., true)` writes four bytes whose little-endian value is the argument modulo 2^32 |
| Wav.RiffDescriptor | client/src/components/AudioRecorder.tsx:68-70 | the RIFF descriptor is 12 bytes |
| Wav.FmtChunk | client/src/components/AudioRecorder.tsx:73-80 | the `fmt ` sub-chunk is 24 bytes |
| Wav.DataChunkHeader | client/src/components/AudioRecorder.tsx:83-84 | the `data` sub-chunk header is 8 bytes |
| Wav.Header | client/src/components/AudioRecorder.tsx:66-84 | the header is 44 bytes |
| Wav.Frame | client/src/components/AudioRecorder.tsx:98-102 | a frame holds one converted sample per channel |
| Wav.InterleaveLength | client/src/components/AudioRecorder.tsx:97-104 | n frames interleave into n x channels samples |
| Wav.InterleaveAt | client/src/components/AudioRecorder.tsx:96-104 | frame i, channel c sits at index i x channels + c and is that channel's sample converted as `float32ToPcm16` converts |
| Wav.WavLength | client/src/components/AudioRecorder.tsx:59-63 | the file is 44 + frames x channels x 2 bytes long |
| Wav.HeaderLayout | client/src/components/AudioRecorder.tsx:66-84 | "RIFF", "WAVE", "fmt " and "data" sit at offsets 0, 8, 12 and 36; the fields decode to 36 + data length, 16, 1, channels, sample rate, byte rate, block align, 16 and data length (each modulo its field width) |
| Wav.SampleLayout | client/src/components/AudioRecorder.tsx:96-104 | the little-endian int16 at offset 44 + 2(i x channels + c) is frame i of channel c, converted |
| Wav.WriteString | client/src/components/AudioRecorder.tsx:110-114 | the string's character codes land at offset..offset+length and no other byte changes |
| Wav.SetUint16 | client/src/components/AudioRecorder.tsx:75-80 | the two little-endian bytes land at the offset and no other byte changes |
| Wav.SetUint32 | client/src/components/AudioRecorder.tsx:69-84 | the four little-endian bytes land at the offset and no other byte changes |
| Wav.SetInt16 | client/src/components/AudioRecorder.tsx:101 | the sample's two little-endian bytes land at the offset and no other byte changes |
| Wav.WriteRiffDescriptor | client/src/components/AudioRecorder.tsx:68-70 | bytes 0-11 become the RIFF descriptor, the rest unchanged |
| Wav.WriteFmtChunk | client/src/components/AudioRecorder.tsx:73-80 | bytes 12-35 become the `fmt ` sub-chunk, the rest unchanged |
| Wav.WriteDataChunkHeader | client/src/components/AudioRecorder.tsx:83-84 | bytes 36-43 become the `data` header, the rest unchanged |
| Wav.WriteHeader | client/src/components/AudioRecorder.tsx:66-84 | the first 44 bytes become the header and the sample area is untouched |
| Wav.InterleaveFits | client/src/components/AudioRecorder.tsx:96-104 | every prefix of the interleaving fits in the data chunk |
| Wav.InterleaveFills | client/src/components/AudioRecorder.tsx:59 | the whole interleaving fills the data chunk exactly |
| Wav.InterleaveStep | client/src/components/AudioRecorder.tsx:97-104 | one more frame appends its samples' bytes |
| Wav.WriteFrame | client/src/components/AudioRecorder.tsx:98-103 | the inner loop appends the frame's bytes after what is written and advances the offset by two per channel |
| Wav.WriteSamples | client/src/components/AudioRecorder.tsx:87-104 | the nested loop leaves the header as it was and fills the rest with the interleaved samples |
| Wav.AppendFrame | client/src/components/AudioRecorder.tsx:97-104 | the bytes written so far plus frame i are the bytes of the first i + 1 frames |
| Wav.CreateWavFile | client/src/components/AudioRecorder.tsx:57-107 | the array written is exactly the header followed by the interleaved samples |
| ChatSession.ConfigJson | client/src/pages/ChatInterface.tsx:34-39 | the configuration object has exactly its four keys and carries the voice and system prompt |
| ChatSession.ConfigMessage | client/src/pages/ChatInterface.tsx:133-138 | the first message has type "config" and carries the configuration |
| ChatSession.AudioMessage | client/src/pages/ChatInterface.tsx:194-199 | a captured block goes out with type "audio" and its base64 text under `data` |
| ChatSession.Wire | client/src/pages/ChatInterface.tsx:133-199 | each outbound message carries the type of its kind |
| ChatSession.Dispatch | client/src/pages/ChatInterface.tsx:151-158 | type "audio" with string data is played; type "text" is appended with whatever `text` holds; anything else, and text that is not JSON, is dropped |
| ChatSession.TeardownReleases | client/src/pages/ChatInterface.tsx:259-290 | teardown releases something exactly when some handle is present, closes the socket exactly when there is one and does so last, and closes the audio context when there is one |
| ChatSession.ReleaseHandles | client/src/pages/ChatInterface.tsx:260-286 | each present handle is released, in the handler's order |
| ChatSession.Session.constructor | client/src/pages/ChatInterface.tsx:93-116 | a new session has no socket, no devices, an empty log and queue, and both flags down |
| ChatSession.Session.AddMessage | client/src/pages/ChatInterface.tsx:118-126 | exactly one entry is appended at the end of the log and earlier entries are kept |
| ChatSession.Session.StartStream | client/src/pages/ChatInterface.tsx:128-138 | a new connecting socket that has sent nothing, whose handlers keep the mode and the configuration the page held when the stream was started |
| ChatSession.Session.StartAudioStream | client/src/pages/ChatInterface.tsx:172-214 | a 16 kHz context is created; the microphone nodes are kept on success, otherwise the error names the microphone |
| ChatSession.Session.StartVideo | client/src/pages/ChatInterface.tsx:216-237 | the camera stream and frame timer are kept only with a video element; a refusal sets the camera error |
| ChatSession.Session.StartCapture | client/src/pages/ChatInterface.tsx:140-145 | audio capture starts in audio and video mode, video capture only in video mode |
| ChatSession.Session.OnOpen | client/src/pages/ChatInterface.tsx:131-149 | the configuration is the only and first message on the opened socket, capture starts for the mode, and both flags go up |
| ChatSession.Session.OnAudioProcess | client/src/pages/ChatInterface.tsx:187-200 | a block is converted and appended to what the socket sent exactly when the socket is open; otherwise nothing changes |
| ChatSession.Session.PlayNextInQueue | client/src/pages/ChatInterface.tsx:299-324 | with no context or an empty queue the flag drops and nothing is taken; otherwise exactly the head chunk is taken and played as a 1-channel 24000 Hz buffer of its own length |
| ChatSession.Session.PlayAudioData | client/src/pages/ChatInterface.tsx:292-297 | the chunk joins the tail of the queue; with the flag up nothing else changes, and with the flag down and a context the head chunk is taken, the flag goes up and the head plays as a 1-channel 24 kHz buffer (none for an empty chunk) |
| ChatSession.Session.OnEnded | client/src/pages/ChatInterface.tsx:319-321 | the finished source is gone; with a context and a non-empty queue the head chunk is taken, the flag stays up and the head plays as a 1-channel 24 kHz buffer; otherwise the flag drops and nothing plays |
| ChatSession.TwoChunksPlayInOrder | client/src/pages/ChatInterface.tsx:292-322 | two chunks arriving at an idle session play in arrival order: the second waits in the queue while the first plays and starts when the first ends |
| ChatSession.Session.OnMessage | client/src/pages/ChatInterface.tsx:151-159 | text appends one assistant entry and leaves playback alone; audio that decodes goes through `playAudioData`, queued behind a playing chunk or started at once from idle with a context; audio that does not decode and anything else change nothing |
| ChatSession.Session.OnError | client/src/pages/ChatInterface.tsx:161-164 | the error is set and streaming stops |
| ChatSession.Session.OnClose | client/src/pages/ChatInterface.tsx:166-169 | the socket is closed and the session is neither streaming nor connected |
| ChatSession.Session.StopStream | client/src/pages/ChatInterface.tsx:259-290 | every present handle is released in order and cleared, and both flags end down |
| ChatSession.Session.ClearHandles | client/src/pages/ChatInterface.tsx:265-289 | every reference is dropped and both flags go down |
| ChatSession.StopStreamTwice | client/src/pages/ChatInterface.tsx:259-290 | two calls release only what the first one found; afterwards no handle is held, both flags are down, and the log, the error, the playback queue and its flag are as before |
| ChatSession.StopStreamWhenStopped | client/src/pages/ChatInterface.tsx:259-290 | on a stopped session (no handle, both flags down) `stopStream` releases nothing and changes nothing |
| MeditationPlayer.NextIndex | client/src/pages/MeditationAudioPlayer.tsx:102-104 | the next index stays on the list, steps forward, and wraps the last track to the first |
| MeditationPlayer.PrevIndex | client/src/pages/MeditationAudioPlayer.tsx:106-110 | the previous index stays on the list, steps back, and wraps the first track to the last |
| MeditationPlayer.PrevUndoesNext | client/src/pages/MeditationAudioPlayer.tsx:102-110 | going back undoes going forward for every listed index |
| MeditationPlayer.NextUndoesPrev | client/src/pages/MeditationAudioPlayer.tsx:102-110 | going forward undoes going back for every listed index |
| MeditationPlayer.AdvanceIsModular | client/src/pages/MeditationAudioPlayer.tsx:102-104 | k forward steps land k places further, modulo the list length |
| MeditationPlayer.FullCycle | client/src/pages/MeditationAudioPlayer.tsx:102-104 | one forward step per track comes back to the start |
| MeditationPlayer.Floor | client/src/pages/MeditationAudioPlayer.tsx:113 | `Math.floor` gives the greatest integer not above its argument |
| MeditationPlayer.DigitChar | client/src/pages/MeditationAudioPlayer.tsx:115 | a digit renders as the character of that digit |
| MeditationPlayer.NatToString | client/src/pages/MeditationAudioPlayer.tsx:115 | a rendered whole number is a nonempty run of digits with no leading zero, one digit exactly below ten |
| MeditationPlayer.IntToString | client/src/pages/MeditationAudioPlayer.tsx:115 | an integer renders as its magnitude, with a minus sign when negative |
| MeditationPlayer.DigitsValueOfNatToString | client/src/pages/MeditationAudioPlayer.tsx:115 | reading a rendered number back gives the number |
| MeditationPlayer.TwoDigits | client/src/pages/MeditationAudioPlayer.tsx:115 | the seconds field is two digits, the first at most 5, reading back as the seconds |
| MeditationPlayer.ClockParts | client/src/pages/MeditationAudioPlayer.tsx:113-114 | for s >= 0 the minutes are floor(s) / 60 and the seconds floor(s) mod 60 |
| MeditationPlayer.FormatTimeLayout | client/src/pages/MeditationAudioPlayer.tsx:112-116 | for s >= 0 the clock is the minutes, a colon and a two-digit seconds field, and depends only on floor(s) |
| MeditationPlayer.FormatTimeReadsBack | client/src/pages/MeditationAudioPlayer.tsx:112-116 | for s >= 0 the clock parses back to floor(s) |
| MeditationPlayer.TrackChangeCalls | client/src/pages/MeditationAudioPlayer.tsx:67-76 | a track change sets the element's source to the new track and reloads it, and plays exactly when the player is playing |
| MeditationPlayer.SliderMax | client/src/pages/MeditationAudioPlayer.tsx:143 | the slider ends at the duration, or at 100 while none is known |
| MeditationPlayer.Player.constructor | client/src/pages/MeditationAudioPlayer.tsx:8-11 | the first track, paused at zero with no duration, loaded once by the mount effect |
| MeditationPlayer.Player.CurrentMeditation | client/src/pages/MeditationAudioPlayer.tsx:118 | the track shown is one of the listed tracks |
| MeditationPlayer.Player.TogglePlayPause | client/src/pages/MeditationAudioPlayer.tsx:78-86 | `pause` is called when playing and `play` otherwise, then the flag flips |
| MeditationPlayer.Player.OnTimeUpdate | client/src/pages/MeditationAudioPlayer.tsx:88-90 | the shown time follows the element |
| MeditationPlayer.Player.OnLoadedMetadata | client/src/pages/MeditationAudioPlayer.tsx:92-94 | the duration becomes the element's |
| MeditationPlayer.Player.HandleSliderChange | client/src/pages/MeditationAudioPlayer.tsx:96-100 | the element seeks to value[0] and the shown time becomes value[0]; with no value nothing changes |
| MeditationPlayer.Player.SetTrack | client/src/pages/MeditationAudioPlayer.tsx:67-76 | the index is set, and the track-change effect runs exactly when it moved |
| MeditationPlayer.Player.NextTrack | client/src/pages/MeditationAudioPlayer.tsx:102-104 | the following track, wrapping, is loaded |
| MeditationPlayer.Player.PrevTrack | client/src/pages/MeditationAudioPlayer.tsx:106-110 | the preceding track, wrapping, is loaded |
| MeditationPlayer.Player.SelectTrack | client/src/pages/MeditationAudioPlayer.tsx:195 | the clicked track becomes current, and is loaded when it was not already |
| MeditationPlayer.Player.OnEnded | client/src/pages/MeditationAudioPlayer.tsx:131 | the end of a track advances to the next, which starts playing when the player was playing |
| MeditationPlayer.ToggleTwice | client/src/pages/MeditationAudioPlayer.tsx:78-86 | two toggles restore the flag with one pause and one play call, leaving the track, time and duration unchanged |
| MeditationPlayer.NextThenPrev | client/src/pages/MeditationAudioPlayer.tsx:102-110 | next then previous returns to the same track with both reloads, leaving the flag, time and duration unchanged |
| Relay.Label | backend/main.py:287-292 | "Positive" exactly above the double nearest 0.05, "Negative" exactly below its negation, "Neutral" exactly in between |
| Relay.AnalyzeTextSentiment | backend/main.py:280-297 | the label and polarity of the text, or "Error" with polarity 0.0 when TextBlob raises |
| Relay.LabelMonotone | backend/main.py:287-292 | a larger polarity never gets a lower label |
| Relay.AnalyzeSentiment | backend/main.py:349-387 | an empty upload, one under 100 bytes, a failed and an empty transcription each answer 400 with their own detail, in that order; otherwise the body holds the transcription and its sentiment |
| Relay.SmallUploadNotTranscribed | backend/main.py:358-369 | an upload under 100 bytes is refused whatever the transcriber would say |
| Relay.Path | backend/main.py:221 | an empty key path finds the value itself |
| Relay.AudioInputMessage | backend/main.py:86-98 | `send_audio` wraps the payload as the one media chunk, with mime type "audio/pcm" |
| Relay.ImageInputMessage | backend/main.py:109-121 | `send_image` wraps the payload as the one media chunk, with mime type "image/jpeg" |
| Relay.TextInputMessage | backend/main.py:123-136 | `send_text` sends one user turn holding the text, marked complete |
| Relay.Setup | backend/main.py:46-76 | the setup message is sent exactly when the configuration is truthy and has a voice and a system prompt, and carries both |
| Relay.SetupReadsBack | backend/main.py:54-75 | the setup message names the model and carries the voice where Gemini reads it |
| Relay.Route | backend/main.py:183-198 | a message is forwarded exactly when its type is "audio", "image" or "text" and it has `data`, with that kind and data |
| Relay.ClientStep | backend/main.py:183-198 | a turn forwards at most one request, and only a routed JSON message |
| Relay.ClientRelayStops | backend/main.py:167-207 | nothing after the first closing event, disconnect message or disconnect error is forwarded |
| Relay.ClientRelaySkips | backend/main.py:183-203 | a skipped message (bad JSON, no text, unknown type, missing key) leaves the rest of the relay unchanged |
| Relay.EncodeAll | backend/main.py:185-190 | each request becomes its own message, in order |
| Relay.EncodeAllAppend | backend/main.py:185-190 | encoding distributes over concatenation |
| Relay.AudioReply | backend/main.py:229-232 | an audio part goes out with type "audio" and its data |
| Relay.TextReply | backend/main.py:235-238 | a text part goes out with type "text" and its text under `data` |
| Relay.TurnCompleteReply | backend/main.py:245-248 | the turn-complete marker has type "turn_complete" and data true |
| Relay.ForwardPart | backend/main.py:227-238 | a dict part with `inlineData.data` goes out as audio with that data; one with no `inlineData` but `text` goes out as text; one with neither is skipped; an `inlineData` without `data` raises KeyError and one that is not a dict TypeError; a part that is not a dict is never forwarded |
| Relay.ForwardParts | backend/main.py:221-240 | never more messages than parts or passed per-part `client_state` checks, and none is a turn-complete marker; when a per-part check fails before the last part, the receiver ends or fewer messages went out |
| Relay.AudioPartsInOrder | backend/main.py:222-232 | a run of inline audio parts is forwarded whole and in order while the client stays open |
| Relay.MessagesAppend | backend/main.py:222-238 | the messages of consecutive runs of parts follow each other in order |
| Relay.ForwardPartsInOrder | backend/main.py:222-238 | parts that all pass, with the client open for each, send exactly their messages in order, one per part not skipped, and the receiver goes on |
| Relay.ForwardPartsRaises | backend/main.py:222-240 | at the first part that raises, the earlier parts' messages have gone out, the later parts are abandoned, and the receiver goes on after a KeyError and ends after a TypeError |
| Relay.ForwardPartsClientClosed | backend/main.py:224-226 | when the per-part `client_state` check fires, the earlier parts' messages have gone out and the receiver ends |
| Relay.ForwardIterable | backend/main.py:222 | iterating a list forwards its parts; every message forwarded is a reply and none a turn-complete marker |
| Relay.Translate | backend/main.py:219-250 | only replies go out; after the parts stage, a truthy `turnComplete` adds exactly one marker after the forwarded parts and a falsy one none; a missing `turnComplete` changes nothing and an unreadable one ends the receiver; a parts stage that ends the receiver skips the marker; a response without `parts` sends at most the marker |
| Relay.TranslateInOrder | backend/main.py:219-250 | a list of parts that all pass sends their messages in order, then one marker exactly when `turnComplete` is true |
| Relay.GeminiRelay | backend/main.py:209-252 | the receiver sends the client only reply messages |
| Relay.GeminiRelayContinues | backend/main.py:211-250 | the receiver goes on past a message exactly when handling it did not end it |
| Relay.GeminiConnection.constructor | backend/main.py:35-44 | a new connection has no configuration and no socket |
| Relay.GeminiConnection.SetConfig | backend/main.py:82-84 | the configuration is replaced |
| Relay.GeminiConnection.Connect | backend/main.py:46-80 | the socket opens first; the setup message is sent exactly when the configuration passes the check |
| Relay.GeminiConnection.SendAudio | backend/main.py:86-98 | one audio message is appended to what was sent |
| Relay.GeminiConnection.SendImage | backend/main.py:109-121 | one image message is appended to what was sent |
| Relay.GeminiConnection.SendText | backend/main.py:123-136 | one text message is appended to what was sent |
| Relay.GeminiConnection.Close | backend/main.py:104-107 | the socket is closed when there is one |
| Relay.ReceiveFromClient | backend/main.py:167-207 | the loop sends Gemini exactly the routed requests before the first stopping event, in order |
| Relay.HandleClientMessage | backend/main.py:183-198 | one turn sends Gemini the message its route gives, or nothing |
| Relay.ReceiveFromGemini | backend/main.py:209-252 | the loop sends the client exactly the translated replies until a message ends it |
| Relay.ConfigOf | backend/main.py:156-161 | the first message is accepted exactly when it is a dict of type "config"; its `config`, or an empty dict, becomes the configuration |
| Relay.SessionTrafficOrder | backend/main.py:146-257 | nothing is relayed either way unless the first message is a valid configuration; then the setup message precedes every forwarded client message and only replies reach the client |
| Relay.RunSession | backend/main.py:150-257 | the session sends exactly the setup and relayed traffic, and opens the Gemini socket exactly when the first message is a configuration |
| Relay.Server.constructor | backend/main.py:144 | the connection table starts empty |
| Relay.Server.Register | backend/main.py:150-153 | a fresh, unconfigured, unopened connection replaces whatever the table held under the client id |
| Relay.Server.Cleanup | backend/main.py:262-265 | the connection the table holds under the id now is closed if it was opened, and the id is dropped |
| Relay.Server.WebsocketEndpoint | backend/main.py:146-265 | for a call that overlaps no other call under its id: a fresh connection is registered, the session follows, and on exit the connection is closed if opened and the client id is gone from the table |
| Relay.Server.RestartWhileRunning | backend/main.py:150-265 | when both calls send a configuration that passes the setup check and the second call registers and opens its connection before the first call exits, the first call's cleanup closes the second call's connection and leaves its own open |
| Protocol.ConfigFrameAccepted | client/src/pages/ChatInterface.tsx:133-138 | the page's configuration message passes the backend's check, and the setup message carries its voice and system prompt |
| Protocol.AudioFrameForwarded | backend/main.py:185-186 | a captured block reaches Gemini as one `audio/pcm` chunk with the same base64 text |
| Protocol.AudioPayloadDecodes | client/src/pages/ChatInterface.tsx:190-192 | when `atob` inverts `btoa`, the payload decodes to an even byte count pairing to the block's int16 samples |
| Protocol.AudioReplyPlayed | client/src/pages/ChatInterface.tsx:153-155 | an audio reply with string data is queued for playback |
| Protocol.TextReplyLosesText | client/src/pages/ChatInterface.tsx:156-157 | a text reply is appended with no text, because the page reads `text` while the backend writes `data` |
| Protocol.TurnCompleteIgnored | client/src/pages/ChatInterface.tsx:152-158 | the turn-complete marker is dropped by the page |
| Protocol.RepliesDispatch | client/src/pages/ChatInterface.tsx:151-158 | every backend reply is read as its own kind: played only if audio, appended exactly if text, dropped if turn-complete |

## Left out

- `atob` and `btoa` (base64, section 4 of RFC 4648) are browser built-ins. They are parameters of the members that use them, and base64 itself is not part of this model.
- The sample codec works on reals. NaN, the infinities and float32 rounding of the stored samples are not modelled. Every int16/32768 is exact, so decoding loses nothing.
- Browser and device I/O is reduced to abstract handles and events. This covers the WebSocket, AudioContext and script processor, `getUserMedia`, `FileReader`/`decodeAudioData`, the recorder widget and the upload. `captureAndSendFrame`'s canvas capture, and the JPEG frames it sends, are not modelled.
- The `await`s inside `onopen` are taken as completing before the next event, so the model's `OnOpen` is atomic. The backend's two receivers run concurrently under a TaskGroup; each is modelled on its own socket's event stream, and their interleaving is not modelled.
- ChatSession.Session.OnAudioProcess: the block and `btoa` are parameters, and `send` on a socket is assumed to succeed.
- ChatSession.Session.OnMessage: a `text`/`data` value that is not a string is kept as JSON, and the JavaScript coercion of non-string base64 input is not modelled.
- Handlers of sockets that `startStream` replaced are not modelled: every event comes from the socket in `wsRef`.
- React's re-creation of `audioBuffer` and `isPlaying` on every render is not modelled (one queue per session).
- MeditationPlayer.Player.TogglePlayPause: a rejected `play()` promise is not modelled; the flag flips regardless, as in the code.
- Relay.AnalyzeSentiment: the 500 path (an exception outside the checks, such as a failing `file.read`) is not modelled. The transcriber's message wrapping is inside the `transcribe` parameter.
- The transcriber (Google/Sphinx) and TextBlob's polarity are foreign calls. They become parameters of `Relay.AnalyzeSentiment`.
- Relay.GeminiConnection.Connect: the Gemini socket's `connect` (`backend/main.py:48`), the `send` of the setup message and the `recv` of the setup response (`backend/main.py:76-79`) are assumed to succeed. When any of them raises, the source ends the session at once, which the model does not capture; the setup response's content is not read.
- Relay.HandleClientMessage: the `send` of `send_audio`, `send_image` and `send_text` (`backend/main.py:98`, `:121`, `:136`) is assumed to succeed. In the source a raising send is swallowed by `receive_from_client`'s generic handler (`backend/main.py:199-203`) and that message is lost, while the model records it as sent.
- `websocket.client_state.value == 3` is an event (`ClientStateClosed`, `GeminiClientClosed`) or the `live` count of per-part checks, not a socket state machine. Which states of the server-side socket carry the value 3 is not part of this model, and a failing `send_json` to the client is not modelled.
- Relay.ForwardIterable: iterating a dict yields its keys, and the outcome is stated independently of key order. Iterating a number, `None` or a boolean raises.
- FastAPI routing, CORS, the `/` route, module-level API-key configuration, logging and `print` are not part of this model.
- Relay.Server.WebsocketEndpoint: its contract holds for a call that overlaps no other call under the same client id. The page reuses its client id on every `startStream` (`client/src/pages/ChatInterface.tsx:108`, `:129`), and a stopped session may still be running on the backend; `Relay.Server.RestartWhileRunning` shows how overlapping calls then share the `connections` entry.
- The page's `config` state can change between sessions through its settings form. The model takes the configuration as an argument of `StartStream`; the form itself is not modelled.
- Ids and timestamps (`Date.now()`, `new Date()`, `crypto.randomUUID()`) are inputs of the methods that take them.
