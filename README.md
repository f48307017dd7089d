# Sangwari voice call: PCM codec and playback scheduler

This project models the core of the voice-call screen of Sangwari, a
conversational assistant (`components/AudioInterface.tsx`). The screen streams
microphone audio to a remote speech model and plays back the speech that model
sends. The model covers two parts of that component.

- **The PCM helpers.**
  - `createBlob` turns a microphone frame into 16-bit codes in an
    `Int16Array` and tags the chunk `audio/pcm;rate=16000`.
  - `decode` turns the received binary string into a `Uint8Array`.
  - `decodeAudioData` views those bytes as 16-bit codes and splits them by
    channel.

  These are modelled in `pcm.dfy` (module `Pcm`) as methods over arrays with
  loops. Each method is proved against pure functions on sequences. Lemmas
  relate those functions to each other: little-endian packing and unpacking,
  the binary string, the channel layout and the full frame round trip.
- **The live-session handlers.**
  - `onopen`, `onmessage` (scheduling, the `ended` listener, interruption),
    `onclose` and `onerror`.
  - The setup `catch`, the microphone processor's send guard, and the effect
    cleanup that clears the liveness flag.

  `call_model.dfy` (module `CallModel`) has one function per handler. It also
  has the scheduler invariant (`Valid`) and lemmas about single steps, runs of
  events and the two end-to-end scenarios. `audio_interface.dfy` (module
  `AudioInterface`) holds the class `CallSession`. Its fields are the ones the
  handlers update in place: `status`, `nextStart`, the `active` source set and
  the `mounted` flag. It has one method per handler, and each method is proved
  to produce exactly the state its `CallModel` function gives and to keep
  `Valid`.

Conventions of the model:

- Each handler runs to completion as one step.
- The output clock reading (`outputAudioContext.currentTime`) is the parameter
  `now`.
- The mute flag is the parameter `muted`.
- A playback source is a number: its index in `started`. `started` records
  every `source.start(when)` call, with the clock reading at scheduling time,
  the start time and the buffer's duration.
- Samples and times are exact reals.

Behaviour of the code that the model keeps as written:

- An interruption resets `nextStart` to 0, not to the current clock. Because
  the next chunk starts at `max(nextStart, now)`, the effect is the same:
  `CallModel.ChunkAfterInterruptStartsAtClock`.
- The error status is not absorbing. A later message with audio moves it to
  speaking, a close moves it to connecting, and an open moves it to listening.
- A chunk whose decode throws does not get dropped quietly. The rejected
  `await` ends the handler after the status was already set to speaking and
  `nextStart` was already caught up with the clock. Nothing is started, and
  an `interrupted` flag in the same message is not processed
  (`CallModel.DecodeFailureStopsHandler`). No `ended` event of this chunk
  will come, so with no source active the status stays speaking until a later
  open, interruption or source end changes it.
- The setup `catch` sets the error status without checking the liveness flag.
  The `ended` listener does not check it either.

## Model

| member | source | states |
|---|---|---|
| `Pcm.Truncate` | components/AudioInterface.tsx:38 | the integer an `Int16Array` store starts from is the sample truncated toward zero: within 1 of it, on the same side of 0 |
| `Pcm.Wrap16` | components/AudioInterface.tsx:38 | the stored code is congruent to its integer modulo 2^16, lies in the signed 16-bit range, and equals it when it already fits (no clamping) |
| `Pcm.Quantize` | components/AudioInterface.tsx:38 | the code stored for a sample in [-1, 1) decodes to within 1/32768 of that sample |
| `Pcm.Dequantize` | components/AudioInterface.tsx:69 | a 16-bit code divided by 32768 lies in [-1, 1) |
| `Pcm.FullScaleSampleWraps` | components/AudioInterface.tsx:38 | the full-scale sample 1.0 becomes 32768, is stored as -32768 and decodes as -1.0 |
| `Pcm.QuantizeClamped` | components/AudioInterface.tsx:38 | the saturating quantisation agrees with the stored code on [-1, 1) and keeps every sample of [-1, 1] within 1/32768 |
| `Pcm.LowByte` | components/AudioInterface.tsx:41 | the first byte of an `Int16Array` element is its low eight bits: congruent to the code modulo 256 |
| `Pcm.HighByte` | components/AudioInterface.tsx:41 | the second byte, with the first, spells the code's 16-bit two's-complement pattern |
| `Pcm.FromBytes` | components/AudioInterface.tsx:62 | two bytes read as an element give the code whose 16-bit pattern they spell, low byte first; it is negative exactly when the high byte's top bit is set |
| `Pcm.BytesOfCode` | components/AudioInterface.tsx:36-41 | the two bytes stored for any 16-bit code read back as that code |
| `Pcm.CodeOfBytes` | components/AudioInterface.tsx:62 | any two bytes read as a code are stored back as the same two bytes |
| `Pcm.EncodeLE` | components/AudioInterface.tsx:41 | the buffer of an `Int16Array` holds exactly two bytes per code |
| `Pcm.DecodeLE` | components/AudioInterface.tsx:62 | an `Int16Array` over an even number of bytes has half as many elements |
| `Pcm.DecodeEncodeLE` | components/AudioInterface.tsx:36-41 | viewing an `Int16Array`'s buffer as bytes and those bytes as 16-bit codes gives back every code |
| `Pcm.EncodeDecodeLE` | components/AudioInterface.tsx:62 | viewing an even number of bytes as codes and the codes' buffer as bytes gives back every byte |
| `Pcm.BinaryString` | components/AudioInterface.tsx:41 | `String.fromCharCode` over the bytes gives one character per byte |
| `Pcm.DecodeBinary` | components/AudioInterface.tsx:48-52 | `decode` yields one byte per character of the binary string |
| `Pcm.BinaryStringRoundTrip` | components/AudioInterface.tsx:41-52 | `decode` returns exactly the bytes that `createBlob` turned into characters |
| `Pcm.Deinterleave` | components/AudioInterface.tsx:63-71 | the split has one row per channel, each of code count / channel count frames |
| `Pcm.Channel` | components/AudioInterface.tsx:66-71 | one channel of the split holds code count / channel count samples, each in [-1, 1) |
| `Pcm.DecodeAudio` | components/AudioInterface.tsx:62-72 | decoding fails exactly when the byte count is odd (the `Int16Array` view) or when `createBuffer` refuses the buffer (no channel, no frame, rate out of range); otherwise it keeps the rate, has `frameCount = codes / numChannels` frames in each of `numChannels` channels |
| `Pcm.ChannelLayout` | components/AudioInterface.tsx:66-71 | frame `i` of channel `c` is the code made of bytes `2(i*numChannels+c)` and `2(i*numChannels+c)+1`, divided by 32768, and those bytes exist |
| `Pcm.MonoRoundTrip` | components/AudioInterface.tsx:36-41 | packing codes as `createBlob` does and decoding them as one channel gives one frame per code, equal to the code divided by 32768 |
| `Pcm.FrameRoundTrip` | components/AudioInterface.tsx:34-73 | a frame of samples in [-1, 1) encoded by `createBlob` and read back by `decode` and `decodeAudioData` has the same length and every sample within 1/32768 |
| `Pcm.ClampedFrameRoundTrip` | components/AudioInterface.tsx:34-73 | with saturating quantisation the same round trip holds for every sample of [-1, 1] |
| `Pcm.CreateBlob` | components/AudioInterface.tsx:34-44 | the chunk is always tagged `audio/pcm;rate=16000`, holds 2 bytes per sample, and its bytes read back as 16-bit codes are exactly the codes of the samples |
| `Pcm.Decode` | components/AudioInterface.tsx:46-54 | the byte array has the string's length and byte `i` is character code `i` (modulo 256) |
| `Pcm.DecodeAudioData` | components/AudioInterface.tsx:56-73 | throws exactly when `DecodeAudio` fails, with the same reason; otherwise the buffer has `numChannels` rows of `frameCount` frames holding `DecodeAudio`'s samples |
| `CallModel.Valid` | components/AudioInterface.tsx:149-174 | the scheduler invariant: active sources never overlap, whichever started first, and each starts by `nextStart` |
| `CallModel.OnOpen` | components/AudioInterface.tsx:110-142 | while mounted, open sets listening and installs the processor; scheduling state is untouched; unmounted, nothing changes; the invariant is kept |
| `CallModel.AfterAudio` | components/AudioInterface.tsx:146-175 | a message without audio changes nothing; one with audio sets speaking, never lowers `nextStart`, leaves it no earlier than the clock, appends a source (and makes it active) exactly when the chunk decodes, and keeps every earlier source |
| `CallModel.Flush` | components/AudioInterface.tsx:178-185 | the interruption empties the active set, resets `nextStart` to 0, sets listening, keeps the record of started sources and keeps the invariant |
| `CallModel.OnMessage` | components/AudioInterface.tsx:143-186 | unmounted, nothing changes; a chunk that fails to decode leaves the session speaking, caught up with the clock, with nothing started; an interruption that runs ends with no active source, `nextStart` 0 and listening; at most one source is appended and earlier ones are kept |
| `CallModel.Stopped` | components/AudioInterface.tsx:178-181 | sources are stopped only by an interruption that runs while mounted; then every source active before the message is stopped, and nothing beyond those and the one the message started |
| `CallModel.OnEnded` | components/AudioInterface.tsx:165-170 | `ended` removes its own source and nothing else; listening when none is left, status unchanged otherwise; the invariant is kept |
| `CallModel.OnClose` | components/AudioInterface.tsx:187-189 | while mounted, close sets connecting; only the status can change; unmounted, nothing changes; the invariant is kept |
| `CallModel.OnError` | components/AudioInterface.tsx:190-193 | while mounted, error sets the error status; only the status can change; unmounted, nothing changes; the invariant is kept |
| `CallModel.OnSetupFailure` | components/AudioInterface.tsx:206-209 | the setup `catch` sets the error status, mounted or not, and changes nothing else; the invariant is kept |
| `CallModel.Unmount` | components/AudioInterface.tsx:213-221 | cleanup clears the liveness flag and disconnects the processor and changes nothing else; the invariant is kept |
| `CallModel.SendsFrame` | components/AudioInterface.tsx:131-137 | a frame is sent only while mounted, not muted and with the processor installed |
| `CallModel.Max` | components/AudioInterface.tsx:149-152 | `Math.max` returns one of its arguments, no smaller than either |
| `CallModel.InitialIsValid` | components/AudioInterface.tsx:18-28 | a fresh call is connecting, has no active source and satisfies the scheduler invariant |
| `CallModel.ScheduleChunk` | components/AudioInterface.tsx:146-174 | a decodable chunk starts one new source at `max(nextStart, now)`, so never before the clock or the previous chunk's end, and exactly at `nextStart` while the clock is behind; it lasts (bytes / 2) / 24000 seconds, moves `nextStart` to its end, adds only that source and sets speaking |
| `CallModel.DecodeFailureStopsHandler` | components/AudioInterface.tsx:147-159 | a chunk whose decode throws leaves the session speaking with `nextStart` caught up to the clock, starts nothing and skips the interruption |
| `CallModel.InterruptFlushes` | components/AudioInterface.tsx:177-185 | an interruption calls `stop()` on every active source, including one the same message just started; the set ends empty, `nextStart` is 0 and the status is listening |
| `CallModel.ChunkAfterInterruptStartsAtClock` | components/AudioInterface.tsx:143-209 | the first chunk after an interruption starts at the clock reading taken when it arrives, also when open, close, error, setup-failure, `ended` or audio-less message events come in between |
| `CallModel.EndedRemovesOnlyThatSource` | components/AudioInterface.tsx:165-170 | `ended` removes only its source; the status becomes listening when the set is then empty and is unchanged otherwise; nothing else changes |
| `CallModel.StatusTransitions` | components/AudioInterface.tsx:110-209 | open leads to listening; audio leads to speaking from any status; an interruption leads to listening; close leads to connecting; error leads to error; a setup failure leads to error; a message with neither audio nor an interruption changes nothing |
| `CallModel.UnmountedIsInert` | components/AudioInterface.tsx:110-193 | once unmounted, the open, message, close and error handlers change nothing and no frame is sent |
| `CallModel.SendingNeedsOpenAndMounted` | components/AudioInterface.tsx:110-137 | frames are sent only after open ran while mounted, never while muted, never before open and never after cleanup |
| `CallModel.AfterAudioPreservesValid` | components/AudioInterface.tsx:146-175 | scheduling a chunk keeps active sources non-overlapping and ending by `nextStart` |
| `CallModel.StepPreservesValid` | components/AudioInterface.tsx:110-221 | every handler keeps the scheduler invariant |
| `CallModel.StepWithoutInterrupt` | components/AudioInterface.tsx:143-193 | a handler that is not an interruption never lowers `nextStart`; it starts at most one source, which begins at or after the old `nextStart` and ends by the new one |
| `CallModel.RunGapless` | components/AudioInterface.tsx:149-174 | over any run of events without an interruption, the sources started play back to back without overlap in scheduling order, none starts before its clock reading, and `nextStart` never decreases |
| `CallModel.StepBackToBack` | components/AudioInterface.tsx:143-193 | a handler that neither interrupts nor fails to decode either leaves `nextStart` and the started sources alone, or starts one source at `max(nextStart, its clock reading)` and moves `nextStart` to its end |
| `CallModel.RunBackToBack` | components/AudioInterface.tsx:143-193 | over any run with no interruption and no decode failure, the first new source starts at `max(nextStart, its clock reading)` and every later one at `max(previous source's end, its clock reading)`, so exactly where the previous one ends while the clock is behind; `nextStart` ends at the last new source's end, or stays put when none started |
| `CallModel.QuietKeepsReset` | components/AudioInterface.tsx:110-209 | open, close, error, setup failure, `ended` and audio-less messages never move `nextStart` off 0, start no source and keep the component mounted |
| `CallModel.UnmountedRunIsInert` | components/AudioInterface.tsx:110-193 | after cleanup, no sequence of open, message, close and error events changes the session |
| `CallModel.OneTurn` | components/AudioInterface.tsx:110-175 | after open and one chunk at clock `now` that then ends, the status runs connecting, listening, speaking, listening; frames are sent once open; the chunk starts exactly at `now` |
| `CallModel.BargeInStopsBoth` | components/AudioInterface.tsx:177-185 | an interruption while two sources play stops both, leaves none active and returns to listening |
| `AudioInterface.CallSession.constructor` | components/AudioInterface.tsx:18-28 | a new session is connecting, mounted, with `nextStart` 0 and no source |
| `AudioInterface.CallSession.OnOpen` | components/AudioInterface.tsx:110-142 | updates the fields exactly as `CallModel.OnOpen` and keeps the invariant |
| `AudioInterface.CallSession.OnAudioProcess` | components/AudioInterface.tsx:122-138 | a captured frame is handed on exactly when the processor is installed, the call is mounted and not muted; what is sent is exactly the frame's `createBlob` chunk (its codes packed low byte first, one character per byte), tagged `audio/pcm;rate=16000` |
| `AudioInterface.CallSession.OnMessage` | components/AudioInterface.tsx:143-186 | updates the fields exactly as `CallModel.OnMessage`, calls `stop()` on exactly `CallModel.Stopped`, and keeps the invariant |
| `AudioInterface.CallSession.OnEnded` | components/AudioInterface.tsx:165-170 | updates the fields exactly as `CallModel.OnEnded` and keeps the invariant |
| `AudioInterface.CallSession.OnClose` | components/AudioInterface.tsx:187-189 | updates the fields exactly as `CallModel.OnClose` and keeps the invariant |
| `AudioInterface.CallSession.OnError` | components/AudioInterface.tsx:190-193 | updates the fields exactly as `CallModel.OnError` and keeps the invariant |
| `AudioInterface.CallSession.OnSetupFailure` | components/AudioInterface.tsx:206-209 | sets the error status whether mounted or not and keeps the invariant |
| `AudioInterface.CallSession.Unmount` | components/AudioInterface.tsx:214-221 | clears the liveness flag and stops frame capture, changing nothing else |

## Left out

- Base64: `btoa` and `atob` (components/AudioInterface.tsx:41, 47) are browser library calls. `Blob.data` is the binary string handed to `btoa`, and a message's audio is the binary string `atob` returns. An `atob` failure on malformed base64 is not modelled.
- Floating point: samples, times and durations are exact reals. NaN and infinite samples, float32 storage and the rounding of `length / sampleRate` are not modelled.
- The loudness meter (`sqrt` of the mean square, components/AudioInterface.tsx:126-129) does not affect what is sent or played.
- Web Audio, media and network plumbing: audio contexts, the gain node, `getUserMedia`, processor wiring, and the `live.connect` configuration (model, voice, system instruction). Playback devices are reduced to recording `start(when)` calls and removing stopped or ended ids. Closing the contexts and stopping the tracks at cleanup are not modelled.
- `createBuffer`'s implementation-defined maximum channel count is not modelled; only zero channels is refused.
- Byte order: the typed-array views are taken to be little-endian, the byte order of the platforms browsers commonly run on.
- Stop failures: `stop()` never fails in the model, so the swallowed exception has nothing to swallow. The state after an interruption does not depend on it in the code either.
- Asynchronous interleaving. `nextStart` is caught up before the awaited decode and used after it, and the liveness flag is not checked again after the `await`. Both are modelled as one atomic step. The deferral of sends behind the connection promise and the timing of `ended` events are not modelled.
- The mute button: the processor reads the mute flag captured at mount, so the running handler never sees the toggle. Muting is a plain parameter here, and nothing is claimed about the button.
- Only the first part's inline audio of a message is looked at, as in the code. The rest of the server message's structure is not modelled.
- JSX rendering (components/AudioInterface.tsx:224-291) and the other files: navigation, the login form, the text chat, the text-completion wrapper and type declarations.

## Findings

| source | as written | input that shows it | evidently intended | confidence | as-written member | corrected member |
|---|---|---|---|---|---|---|
| components/AudioInterface.tsx:38 | `data[i] * 32768` is stored into an `Int16Array`, which wraps modulo 2^16 instead of saturating | the full-scale sample 1.0 becomes 32768, is stored as -32768 and decodes as -1.0, an error of 2.0 instead of at most 1/32768 | saturate at 32767, so every sample in [-1, 1] survives the round trip within 1/32768 | medium; not executed | `Pcm.FullScaleSampleWraps` | `Pcm.ClampedFrameRoundTrip` |

`Pcm.CreateBlob` and the session model keep the code as written (`Pcm.Quantize`).
`Pcm.FrameRoundTrip` proves that the wrap is harmless for every sample below 1.0.
