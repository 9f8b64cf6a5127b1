# Language coach live session, modelled in Dafny

This project models the core of the AI language coach web application:
- the live practice screen's conversation state machine and playback clock (`components/LiveSessionScreen.tsx`);
- the PCM audio codec (`services/audioUtils.ts`);
- the application shell's screen navigation (`App.tsx`).

It then proves what these parts promise.

The model is split into these modules:

- `Wrappers` (wrappers.dfy) holds `Option`, `Result` and the three DOM exceptions the codec can raise.
- `Types` (types.dfy) holds `Speaker`, `ChatMessage` and `UserSettings` from `types.ts`. An absent `isFeedback` is `false`.
- `Base64` (base64.dfy) covers the browser's `btoa` and `atob`, which the codec relies on:
  - the alphabet and padding of section 4 of RFC 4648;
  - the forgiving-base64 decode of the WHATWG Infra standard. It strips ASCII whitespace, strips one or two trailing `=` when the length is a multiple of 4, rejects a length of 1 mod 4 and non-alphabet characters, and discards the leftover bits.
- `AudioUtils` (audio_utils.dfy) covers `decode`, `encode`, `decodeAudioData` and `createBlob`:
  - Each is a method over arrays, with the source's loops, proved equal to a specification function on sequences.
  - Int16 values are laid out little-endian.
  - The float-to-Int16 store is ToInt16 of section 7.1.8 of ECMA-262: truncate, then wrap modulo 2^16, with no clamping.
  - Decoding divides by 32768 after de-interleaving by `i * numChannels + channel`.
- `Segments` (segments.dfy) holds the conversation state as values. It has:
  - segments of messages, the pending input transcript, the responses awaiting review and the turn counter;
  - one function per event;
  - the invariant `WellFormed`;
  - the rebuild of segments from a stored history (a loop method proved against `Rebuilt`);
  - the flatten back into a history.
- `Playback` (playback.dfy) models the next-start-time clock as the class `PlaybackClock`. It holds the set of playing sources and the buffer kept for replay. Pure `Starts`/`ClockAfter` functions describe a run of chunks.
- `LiveSessionScreen` (live_session_screen.dfy) has the class `Session`. Its fields are the screen's state and refs, and one method per handler. Each method's new `State()` is the matching `Segments` or `LiveSessionScreen` function of the old state (`Flushed` for `StopSession` and `EndSession`).
- `App` (app.dfy) has the class `Shell`, with one method per navigation handler, and the `ScreenView` selection that `renderScreen` makes.

The device clock (`ctx.currentTime`), the microphone grant, and the outcome and fresh `Date.now()` id of a feedback request are method parameters. Audio sources are opaque `SourceNode` objects. Stored settings and history are inputs to `Shell.Mount`, and the persisted history is the field `Shell.savedHistory`.

## Model

| member | source | states |
|---|---|---|
| Base64.SextetChar | services/audioUtils.ts:21 | every 6-bit value maps to a character of the base 64 alphabet |
| Base64.CharSextet | services/audioUtils.ts:5 | decoding an alphabet character gives back the value that encodes to it |
| Base64.SextetCharInverse | services/audioUtils.ts:5-21 | the character of every 6-bit value decodes back to that value |
| Base64.ToSextets | services/audioUtils.ts:21 | the sextet count of any byte sequence is never 1 mod 4, so atob accepts it |
| Base64.ToSextetsLength | services/audioUtils.ts:21 | n bytes split into 4 sextets per 3 bytes, plus 2 or 3 for a final group of 1 or 2 bytes |
| Base64.FromSextetsLength | services/audioUtils.ts:5 | a sextet count that is not 1 mod 4 yields 3 bytes per 4 sextets, plus 1 or 2 for a final group of 2 or 3 |
| Base64.FirstByteRoundTrip | services/audioUtils.ts:5-21 | a group's first byte is rebuilt from its top six bits and next two bits, whatever bits follow |
| Base64.SecondByteRoundTrip | services/audioUtils.ts:5-21 | a group's second byte is rebuilt from its two 4-bit halves, whatever bits surround them |
| Base64.ThirdByteRoundTrip | services/audioUtils.ts:5-21 | a group's third byte is rebuilt from its top two bits and bottom six bits |
| Base64.FromSextets | services/audioUtils.ts:5 | steps 5 to 8 of forgiving-base64 decode: 24 bits per 4 sextets give 3 bytes, and a final 12 or 18 bits give 1 or 2 bytes with the leftover bits discarded (counts in `FromSextetsLength`, inverse in `SextetsRoundTrip`) |
| Base64.SextetsRoundTrip | services/audioUtils.ts:4-22 | regrouping the sextets of any byte sequence gives the bytes back |
| Base64.EncodeBytes | services/audioUtils.ts:21 | btoa output is (n+2)/3*4 characters, a multiple of 4, each from the alphabet or '=' |
| Base64.BinaryString | services/audioUtils.ts:19 | String.fromCharCode of bytes gives a string whose every code is at most U+00FF |
| Base64.Btoa | services/audioUtils.ts:21 | btoa succeeds exactly when every character is at most U+00FF, with the output length above |
| Base64.RemoveAsciiWhitespace | services/audioUtils.ts:5 | the input atob decodes keeps no TAB, LF, FF, CR or SPACE |
| Base64.NoWhitespaceKept | services/audioUtils.ts:5 | removing whitespace from a string without whitespace leaves it as it is |
| Base64.AtobIgnoresWhitespace | services/audioUtils.ts:5 | atob gives the same result with or without the whitespace in its input |
| Base64.StripPadding | services/audioUtils.ts:5 | step 2 of forgiving-base64 decode: one or two trailing '=' are removed only when the length is a multiple of 4 (proved against btoa's padding in `StripEncodedPadding`) |
| Base64.Atob | services/audioUtils.ts:5 | atob yields a binary string, and its only failure is InvalidCharacterError |
| Base64.StripEncodedPadding | services/audioUtils.ts:5-21 | the '=' that btoa appends are exactly what atob removes |
| Base64.AtobBtoa | services/audioUtils.ts:5-21 | atob(btoa(s)) == s for every binary string s |
| AudioUtils.DecodeBytes | services/audioUtils.ts:4-12 | what decode returns as a value: atob's error, or the character codes of its binary string kept modulo 256 as a Uint8Array keeps them (`Decode` is proved equal to it; `DecodeEncode` inverts it) |
| AudioUtils.Decode | services/audioUtils.ts:4-12 | fails exactly when atob fails, with InvalidCharacterError; otherwise the array has the binary string's length and byte i is character code i |
| AudioUtils.CharCodeBytes | services/audioUtils.ts:6-11 | the loop stores character code i of a binary string as byte i, for every i |
| AudioUtils.ByteValuesOfBinaryString | services/audioUtils.ts:6-19 | the character codes of String.fromCharCode of bytes are those bytes |
| AudioUtils.AtobEncodeBytes | services/audioUtils.ts:5-21 | atob of the encoding of bytes is the binary string of those bytes |
| AudioUtils.Encode | services/audioUtils.ts:15-22 | the string built character by character and passed to btoa is the base 64 encoding of the bytes |
| AudioUtils.DecodeEncode | services/audioUtils.ts:4-22 | decode(encode(b)) == b for every byte sequence |
| AudioUtils.Truncate | services/audioUtils.ts:54 | truncation toward zero: the result lies within 1 of x on x's side of zero |
| AudioUtils.ToInt16 | services/audioUtils.ts:54 | the stored Int16 is congruent mod 2^16 to the truncated value |
| AudioUtils.ToInt16Exact | services/audioUtils.ts:54 | an integral value already in Int16 range is stored unchanged |
| AudioUtils.FullScaleWraps | services/audioUtils.ts:54 | the sample +1.0 is stored as -32768, with no clamping |
| AudioUtils.Int16Bytes | services/audioUtils.ts:57 | the byte view of n Int16 values has 2n bytes |
| AudioUtils.Int16View | services/audioUtils.ts:33 | the Int16 view of an even number of bytes has half as many elements |
| AudioUtils.Int16PairInverse | services/audioUtils.ts:33 | an Int16's little-endian byte pair reads back as the same Int16 |
| AudioUtils.Int16ViewOfBytes | services/audioUtils.ts:33 | viewing the byte layout of Int16 values as Int16 gives the values back |
| AudioUtils.FrameCount | services/audioUtils.ts:34-35 | the buffer length createBuffer gets: the Int16 count divided by the channel count, truncated (`FramesFit`) |
| AudioUtils.FrameIndexInRange | services/audioUtils.ts:41 | the index i * numChannels + channel lies inside the Int16 data for every frame and channel |
| AudioUtils.FramesFit | services/audioUtils.ts:34 | all frames times channels fit in the Int16 data |
| AudioUtils.ChannelSample | services/audioUtils.ts:41 | sample i of channel c: Int16 value i * numChannels + c divided by 32768 |
| AudioUtils.Channel | services/audioUtils.ts:37-43 | what getChannelData(c) holds after the fill loop: one ChannelSample per frame (`FillChannel`, `DeinterleavedLayout`) |
| AudioUtils.AudioBufferOf | services/audioUtils.ts:26-45 | an odd byte length fails with RangeError; zero channels or zero frames fail with NotSupportedError; otherwise the rate is kept, there are floor(n/2/channels) frames and one sample sequence per channel |
| AudioUtils.DeinterleavedLayout | services/audioUtils.ts:37-43 | channel c, frame i holds Int16 number i * numChannels + c divided by 32768 |
| AudioUtils.DecodeAudioData | services/audioUtils.ts:26-45 | the buffer filled channel by channel is the one AudioBufferOf describes |
| AudioUtils.FillChannel | services/audioUtils.ts:38-42 | the inner loop fills one channel with its de-interleaved, normalised samples |
| AudioUtils.DecodedSamplesInRange | services/audioUtils.ts:41 | every decoded sample lies in [-1, 1) |
| AudioUtils.Pcm16 | services/audioUtils.ts:51-55 | one Int16 value per input sample |
| AudioUtils.BlobOf | services/audioUtils.ts:49-59 | what createBlob returns as a value: the base 64 of the Int16 bytes of the samples, with MIME type audio/pcm;rate=16000 (`CreateBlob` is proved equal to it; `BlobPayload` decodes it) |
| AudioUtils.CreateBlob | services/audioUtils.ts:49-59 | the blob is the base 64 encoding of the Int16 bytes of the samples, with MIME type audio/pcm;rate=16000 |
| AudioUtils.BlobPayload | services/audioUtils.ts:49-59 | the blob data decodes to exactly the 2l bytes of the Int16 samples |
| AudioUtils.Int16BytesLayout | services/audioUtils.ts:57 | sample i occupies bytes 2i and 2i+1, low byte first |
| AudioUtils.MonoChannel | services/audioUtils.ts:37-43 | with one channel, channel 0 holds every Int16 value in order, divided by 32768 |
| AudioUtils.MonoDecode | services/audioUtils.ts:26-45 | decoding the bytes of n Int16 values as mono gives n frames of value / 32768 |
| AudioUtils.ExactSampleRoundTrip | services/audioUtils.ts:41-54 | a sample that is an exact multiple of 1/32768 in [-1, 1) is scaled to Int16 and divided back to itself |
| AudioUtils.RescaledPcm16 | services/audioUtils.ts:41-54 | a frame of such samples, scaled to Int16 and normalised back, is unchanged |
| AudioUtils.SampleQuantisation | services/audioUtils.ts:41-54 | a sample in [-1, 1), scaled to Int16 and divided by 32768, is within 1/32768 of itself |
| AudioUtils.RescaledPcm16WithinStep | services/audioUtils.ts:41-54 | a frame of samples in [-1, 1), scaled and normalised back, is within 1/32768 of the original, sample by sample |
| AudioUtils.SampleRoundTripWithinStep | services/audioUtils.ts:26-59 | every sample in [-1, 1) survives createBlob, decode and decodeAudioData at one channel to within 1/32768, with one frame per sample |
| AudioUtils.SampleRoundTrip | services/audioUtils.ts:26-59 | samples that are exact multiples of 1/32768 in [-1, 1) survive createBlob, decode and decodeAudioData at one channel |
| Segments.Trim | components/LiveSessionScreen.tsx:114 | String.prototype.trim: leading, then trailing JavaScript whitespace removed (`TrimStart`, `TrimEnd`, `TrimBlank`) |
| Segments.TrimStart | components/LiveSessionScreen.tsx:114 | removes exactly the leading JavaScript whitespace |
| Segments.TrimEnd | components/LiveSessionScreen.tsx:114 | removes exactly the trailing JavaScript whitespace |
| Segments.TrimBlank | components/LiveSessionScreen.tsx:114 | the trimmed text is empty exactly when every character is whitespace, and otherwise starts and ends with a non-whitespace character |
| Segments.OnOutputTranscript | components/LiveSessionScreen.tsx:92-106 | the state after an output transcription: the segments as `AppendCoachText` gives them, nothing else changed (kept well formed by `OutputTranscriptKeepsWellFormed`) |
| Segments.OnInputTranscript | components/LiveSessionScreen.tsx:108-111 | the state after an input transcription: the text appended to the pending transcript, nothing else changed |
| Segments.PushMessage | components/LiveSessionScreen.tsx:102-119 | the pushes of lines 102 and 119: the message is appended to the last segment's messages, every other segment kept |
| Segments.AppendCoachText | components/LiveSessionScreen.tsx:92-106 | output text extends the last message when it is a non-feedback coach message, and is pushed as a new coach message otherwise; no other segment changes |
| Segments.OutputTranscriptKeepsWellFormed | components/LiveSessionScreen.tsx:92-106 | output text keeps the invariant and leaves the responses and counter alone |
| Segments.CommitTurn | components/LiveSessionScreen.tsx:113-125 | the turn commit keeps the number of segments; it pushes a non-blank trimmed transcript as a User message and a response, clears the transcript and counts the turn (`TurnCommitsUserText`, `CommitTurnKeepsWellFormed`) |
| Segments.OnTurnComplete | components/LiveSessionScreen.tsx:113-128 | a turn completion keeps the number of segments; it is the commit, followed by a feedback request once the counter reaches 4 (`TurnCompletion`, `FourTurnsRequestFeedbackOnce`) |
| Segments.TurnCommitsUserText | components/LiveSessionScreen.tsx:113-125 | a non-blank trimmed transcript is pushed as a User message and a response; the transcript is cleared and the counter increments even when it was blank |
| Segments.CommitTurnKeepsWellFormed | components/LiveSessionScreen.tsx:113-125 | committing a turn keeps the invariant and the loading state |
| Segments.IsLoadingFeedback | components/LiveSessionScreen.tsx:79 | whether the last segment waits for feedback, false when there is no segment |
| Segments.FeedbackGuard | components/LiveSessionScreen.tsx:150 | a request goes ahead only with responses to review and no request loading |
| Segments.MarkLoading | components/LiveSessionScreen.tsx:155-157 | the segment with the captured id is marked loading, every other segment kept (`MarkLoadingLast`) |
| Segments.SealSegment | components/LiveSessionScreen.tsx:171-183 | the segment with the captured id gets the feedback text and stops loading, every other segment kept (`SealSegmentLast`) |
| Segments.FeedbackText | components/LiveSessionScreen.tsx:170-179 | the generated text, or the fixed message "Sorry, I couldn't generate feedback right now." when generation failed |
| Segments.FeedbackBegun | components/LiveSessionScreen.tsx:153-161 | the state once a request has begun: the last segment's id is captured and its segment marked loading, and the responses and the counter are cleared (`FeedbackBegins`) |
| Segments.RequestFeedback | components/LiveSessionScreen.tsx:150-161 | getFeedback up to the network call: no change when there are no responses or a request is loading, the begun state otherwise (`RequestFeedbackIdempotent`) |
| Segments.FeedbackSealed | components/LiveSessionScreen.tsx:170-185 | the state after the response or the error: the captured segment gets the text or the fixed error message and stops loading, and a fresh empty segment is appended (`FeedbackCompletes`) |
| Segments.MarkLoadingLast | components/LiveSessionScreen.tsx:155-157 | marking the last segment's id changes only the last segment |
| Segments.SealSegmentLast | components/LiveSessionScreen.tsx:171-176 | sealing the last segment's id changes only the last segment |
| Segments.FeedbackBegins | components/LiveSessionScreen.tsx:150-161 | beginning a request clears the responses, resets the counter, marks only the last segment loading and keeps the invariant |
| Segments.FeedbackCompletes | components/LiveSessionScreen.tsx:170-185 | completion seals only the requested segment with the text or the fixed error message, clears loading, and appends one fresh empty segment |
| Segments.RequestFeedbackIdempotent | components/LiveSessionScreen.tsx:150 | a second request right after a first is a no-op |
| Segments.TurnCompletion | components/LiveSessionScreen.tsx:113-128 | a turn either starts a request (counter 0, responses cleared, loading) or only counts, even when the guard refuses at the threshold |
| Segments.TurnWithInput | components/LiveSessionScreen.tsx:108-128 | a non-blank turn below the threshold counts and leaves a response; at the threshold it starts a request exactly when none is loading |
| Segments.FourTurnsRequestFeedbackOnce | components/LiveSessionScreen.tsx:126-128 | four non-blank turns from a cleared counter start exactly one request, on the fourth |
| Segments.Emitted | components/LiveSessionScreen.tsx:267-272 | the reduce: each segment's messages, then a System feedback entry when its feedback is a non-empty string (`EmittedAppend`, `EmittedRebuilt`) |
| Segments.NonEmptyTexts | components/LiveSessionScreen.tsx:273 | the filter: the messages whose text is non-empty, in order (`NonEmptyTextsNonEmpty`, `NonEmptyTextsKeepsAll`, `NonEmptyTextsAppend`) |
| Segments.NonEmptyTextsNonEmpty | components/LiveSessionScreen.tsx:273 | the filter keeps no message with an empty text |
| Segments.NonEmptyTextsKeepsAll | components/LiveSessionScreen.tsx:273 | the filter keeps every message when no text is empty |
| Segments.Flatten | components/LiveSessionScreen.tsx:267-273 | the final history holds no message with an empty text |
| Segments.EmittedAppend | components/LiveSessionScreen.tsx:267-272 | the reduce over concatenated segments is the concatenation of the reduces |
| Segments.NonEmptyTextsAppend | components/LiveSessionScreen.tsx:273 | the filter distributes over concatenation |
| Segments.FlattenSealed | components/LiveSessionScreen.tsx:267-273 | sealing the open segment with non-empty feedback appends exactly that System feedback entry to the flattened history |
| Segments.FlushAppendsFeedback | components/LiveSessionScreen.tsx:149-185 | a request begun and completed with a non-empty text adds exactly one feedback entry to the final history |
| Segments.RebuildPrefix | components/LiveSessionScreen.tsx:42-53 | the loop state after a prefix of the history: a feedback message sets the open segment's feedback, closes it and opens a segment with id index + 1; any other message joins the open segment (`RebuildPrefixShape`, `RebuildPrefixEmits`) |
| Segments.Rebuilt | components/LiveSessionScreen.tsx:37-61 | the initial segments: the closed segments, the open one only if it has messages, then one empty segment with the fresh id; an empty history gives that one segment alone (`RebuiltWellFormed`, `FlattenRebuilt`) |
| Segments.RebuildSegments | components/LiveSessionScreen.tsx:37-61 | the forEach loop over the history builds `Rebuilt` |
| Segments.RebuildPrefixShape | components/LiveSessionScreen.tsx:42-53 | ids given out by the loop increase and are within the history's indices, nothing is loading, the open segment has no feedback |
| Segments.RebuiltWellFormed | components/LiveSessionScreen.tsx:37-61 | segments always end in one empty segment; an empty history gives exactly one; with a fresh id the result satisfies the invariant |
| Segments.RebuildPrefixEmits | components/LiveSessionScreen.tsx:42-53 | the closed segments, flattened, followed by the open segment's messages are the history read so far |
| Segments.EmittedRebuilt | components/LiveSessionScreen.tsx:37-61 | the reduce over the rebuilt segments is the stored history |
| Segments.FlattenRebuilt | components/LiveSessionScreen.tsx:37-61 | flatten(rebuild(h)) == h for histories with non-empty texts and System-shaped feedback entries |
| Playback.Duration | components/LiveSessionScreen.tsx:143 | a buffer's duration is non-negative |
| Playback.ChunkBuffer | components/LiveSessionScreen.tsx:136 | a decoded chunk is mono at 24000 Hz with at least one frame; an invalid base 64 chunk fails with InvalidCharacterError |
| Playback.StartTime | components/LiveSessionScreen.tsx:134 | a chunk starts at max(clock, now) |
| Playback.Starts | components/LiveSessionScreen.tsx:134-143 | one start time per chunk |
| Playback.StartsAfterArrival | components/LiveSessionScreen.tsx:134 | with non-negative durations, no chunk starts before it arrives or before the initial clock |
| Playback.StartsBackToBack | components/LiveSessionScreen.tsx:134-143 | each chunk starts no earlier than the previous one ends, and exactly then when it arrived while that one played |
| Playback.StartsNoOverlap | components/LiveSessionScreen.tsx:131-146 | no chunk starts before it arrives or before the clock; each starts after the previous ends; one arriving while the previous plays starts back-to-back |
| Playback.ClockAfter | components/LiveSessionScreen.tsx:134-143 | the clock never decreases over a run of chunks |
| Playback.StartsExtend | components/LiveSessionScreen.tsx:134-143 | scheduling one more chunk extends the start times by max(clock so far, arrival) |
| Playback.ClockAfterExtend | components/LiveSessionScreen.tsx:134-143 | scheduling one more chunk moves the clock to its start plus its duration |
| Playback.SourceNode.constructor | components/LiveSessionScreen.tsx:138-142 | a source node holds its buffer and start time |
| Playback.PlaybackClock.constructor | components/LiveSessionScreen.tsx:66-69 | no context, clock at 0, no sources, no buffer kept |
| Playback.PlaybackClock.OpenContext | components/LiveSessionScreen.tsx:198 | opening a context keeps the clock, the sources and the kept buffer |
| Playback.PlaybackClock.HandleAudio | components/LiveSessionScreen.tsx:131-146 | an empty chunk or missing context does nothing; otherwise the clock is raised to max(clock, now); a failed decode schedules nothing and keeps the last buffer; a decoded chunk starts at the clock, is kept, joins the set and moves the clock by its duration, without overlapping any playing source |
| Playback.PlaybackClock.OnEnded | components/LiveSessionScreen.tsx:141 | an ended source leaves the set and nothing else changes |
| Playback.PlaybackClock.RepeatLastAudio | components/LiveSessionScreen.tsx:284-292 | replays the kept buffer at time 0 when there is one and a context; it leaves the clock and the set untouched |
| LiveSessionScreen.MessageStep | components/LiveSessionScreen.tsx:91-129 | handleMessage's effect on the conversation: the output text, then the input text, then the turn completion, each only when present (`MessageStepKeepsWellFormed`) |
| LiveSessionScreen.Flushed | components/LiveSessionScreen.tsx:253-256 | stopSession's flush: with final feedback asked for, responses to review and no request loading, one request begun and completed; otherwise no change (`EndSessionFlush`) |
| LiveSessionScreen.MessageStepKeepsWellFormed | components/LiveSessionScreen.tsx:91-129 | a message keeps the invariant; without a turn completion it changes neither counter, responses nor loading |
| LiveSessionScreen.EndSessionFlush | components/LiveSessionScreen.tsx:253-275 | ending with unreviewed responses and nothing loading yields the previous history plus one feedback entry |
| LiveSessionScreen.Session.constructor | components/LiveSessionScreen.tsx:37-81 | the screen starts from the rebuilt segments, nothing pending, idle, with a fresh playback clock |
| LiveSessionScreen.Session.OnOutputTranscript | components/LiveSessionScreen.tsx:92-106 | the in-place edit of the last segment follows `AppendCoachText` |
| LiveSessionScreen.Session.OnInputTranscript | components/LiveSessionScreen.tsx:108-111 | input text only grows the pending transcript |
| LiveSessionScreen.Session.BeginFeedback | components/LiveSessionScreen.tsx:149-161 | the guard refuses with no responses or a request loading, and then reviews nothing; otherwise it returns the copy of exactly the responses collected so far for review, and the request begins as `FeedbackBegins` states |
| LiveSessionScreen.Session.CompleteFeedback | components/LiveSessionScreen.tsx:170-185 | the requested segment is sealed, loading ends and a fresh segment opens |
| LiveSessionScreen.Session.CommitTurn | components/LiveSessionScreen.tsx:113-125 | the turn is committed as `TurnCommitsUserText` states |
| LiveSessionScreen.Session.HandleTurnComplete | components/LiveSessionScreen.tsx:113-129 | commit, then request feedback once the counter reaches 4 |
| LiveSessionScreen.Session.HandleEvents | components/LiveSessionScreen.tsx:91-129 | output, input and turn events of one message change the state as `MessageStep` does, keeping the invariant |
| LiveSessionScreen.Session.HandleMessage | components/LiveSessionScreen.tsx:91-147 | output, input and turn events in order, then the audio chunk. An empty chunk or a missing context plays nothing. Otherwise the clock is raised to max(clock, now), and a chunk that fails to decode plays nothing. A decoded chunk is started at that time, kept as the last spoken buffer, added to the playing set, and advances the clock by its duration. None of this depends on pause, so chunks still play while paused. The clock never decreases. |
| LiveSessionScreen.Session.CaptureFrame | components/LiveSessionScreen.tsx:207-214 | a frame is dropped exactly while paused or loading feedback, and is otherwise the PCM blob of the samples |
| LiveSessionScreen.Session.TogglePause | components/LiveSessionScreen.tsx:277-282 | a no-op while inactive, otherwise flips pause |
| LiveSessionScreen.Session.StartSession | components/LiveSessionScreen.tsx:191-199 | a no-op while active or without the microphone; otherwise the output context exists |
| LiveSessionScreen.Session.OnOpen | components/LiveSessionScreen.tsx:218 | the session becomes active |
| LiveSessionScreen.Session.OnConnected | components/LiveSessionScreen.tsx:245-246 | the session reference is set |
| LiveSessionScreen.Session.OnClose | components/LiveSessionScreen.tsx:227-235 | the session becomes inactive |
| LiveSessionScreen.Session.StopSession | components/LiveSessionScreen.tsx:253-263 | flushes final feedback when asked and responses remain; always leaves the screen inactive, unpaused and without a session reference |
| LiveSessionScreen.Session.OnTransportError | components/LiveSessionScreen.tsx:222-226 | stops without a final feedback request |
| LiveSessionScreen.Session.EndSession | components/LiveSessionScreen.tsx:265-275 | the history handed on is the flatten of the flushed segments |
| App.ScreenView | App.tsx:47-63 | the session screen renders only with settings, and 'session' without settings renders the welcome screen |
| App.Shell.constructor | App.tsx:11-13 | the first screen is welcome, with no settings and an empty history |
| App.Shell.Mount | App.tsx:15-22 | stored settings are adopted only when present; the stored history always replaces the in-memory one |
| App.Shell.StartSession | App.tsx:24-30 | start goes to session with settings and to settings without |
| App.Shell.ShowSettings | App.tsx:32-34 | always goes to settings |
| App.Shell.SettingsSaved | App.tsx:36-39 | stores the settings and returns to welcome |
| App.Shell.SessionEnd | App.tsx:41-45 | persists the final history, replaces the in-memory history with it and returns to welcome |
| App.Shell.RenderScreen | App.tsx:47-63 | the rendered view is `ScreenView` of the state |
| App.StartRendersSessionOrSettings | App.tsx:24-63 | after start, the session screen shows with settings, and the settings screen without |

## Left out

- UI rendering, status messages, subtitles and auto-scroll are not modelled. The source's `SettingsScreen` and `WelcomeScreen` are reduced to the `View` values that `renderScreen` chooses.
- Persistence (`localStorageService.ts`) is not part of this model. Stored settings and history are inputs, and the saved history is a field.
- The network is modelled by outcomes only:
  - `ai.live.connect` is the calls `OnOpen`, `OnConnected`, `OnClose` and `OnTransportError`;
  - `generateContent` is the `FeedbackResult` passed to `CompleteFeedback`;
  - `sendRealtimeInput` is the blob `CaptureFrame` returns.
- Web Audio and media devices are abstract:
  - the device clock is `currentTime`;
  - `getUserMedia` is the `microphoneGranted` flag;
  - closing the contexts, releasing the tracks and the script processor graph are not modelled.
- Async interleaving and React closures are not modelled. The model is one sequential state, so:
  - `isLoadingFeedbackRef` follows the last segment at once, not after the next render;
  - `getFeedback` and `handleEndSessionClick` read the current segments, not the ones their closures captured (lines 153 and 267). The model therefore does not capture what the source loses through those stale reads:
    - `onmessage` is bound once at connect (line 221), so from the second threshold request of a session on, `segmentIdToUpdate` is the id of the segment that was last when Start was clicked;
    - that request marks a segment that is no longer the last one, which neither the capture gate nor the guard sees, and its result overwrites the feedback that segment already holds;
    - `handleEndSessionClick` flattens the segments from before the stop (line 267), so the final flushed feedback is missing from the history handed on, whereas `EndSessionFlush` proves that the model's history includes it;
  - the in-place mutation of the previous state's last message (line 100) is modelled as a new value.
- LiveSessionScreen.Session.HandleMessage: the awaited feedback request of line 127 is split into `BeginFeedback` and a later `CompleteFeedback`. So the message's audio is scheduled right after the request begins, not after it completes.
- Starting twice while still connecting is not modelled. The source guards only on `isSessionActive`.
- Prompt and system-instruction texts (lines 163 and 241) are not modelled.
- `Date.now()` segment ids are parameters, required to differ from the ids in use (and, at construction, to exceed the history's indices, which the rebuild uses as ids).
- IEEE float32 rounding of samples and NaN are not modelled. Samples are reals and go through an explicit truncate-and-wrap `ToInt16`.
- Double-precision rounding of the playback clock is not modelled. `Duration`, `StartTime` and `HandleAudio` compute `nextStartTime + duration` (line 143) and the division behind `duration` exactly over the reals.
- AudioUtils.AudioBufferOf: createBuffer's limits on the sample rate and on the channel count (beyond zero) are not modelled. The screen always passes 24000 Hz and one channel.
- AudioUtils.AudioBufferOf: the source divides the Int16 count by the channel count without flooring. `createBuffer` truncates the length, and the loop's writes past it are dropped. The model uses the floored frame count, which gives the same buffer.
- Base64.Atob: non-zero leftover bits after the last full byte are discarded, as the Infra algorithm does. No separate error is modelled for them.
- The screen's transcript texts are modelled as present strings. An `undefined` text pasted into a message as "undefined" is not modelled.
- `nextStartTime` is not reset when a session is stopped, and playing sources are not stopped; the model keeps both, as the source does. Each start builds a new output context (line 198) whose `currentTime` starts near 0, while the clock keeps the previous session's value. So `StartTime` places the first chunks of a second session at the old clock, and they are delayed by whatever it held. `OpenContext` keeps the clock and `HandleAudio` starts at `max(clock, now)`, so the model has the same delay.
- The input context is not modelled. In the source, the script processor keeps delivering frames until `onclose` closes the input context (line 229), which includes the time between `stopSession` and `onclose`. `CaptureFrame` is not gated on the session, and the send to a closed session is not modelled.
