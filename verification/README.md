# Voice, chat and media panels: a Dafny model of the deterministic core

The application is a browser front end for a hosted generative-AI service. It has three panels: chat, a media studio for images and video, and a live voice agent. Almost all of it is UI and remote calls. This project models the deterministic logic underneath, as immutable datatypes and pure functions, and proves what that logic promises:

- **PCM / byte codec** (`Bytes`, `Base64`, `Pcm`). The wire audio is base64 text of little-endian int16 samples. Decoding reads those samples as exact rationals k/32768. Capture quantises with ECMAScript `ToInt16(x * 32768)`: truncate, then wrap modulo 2^16. `atob`/`btoa` are modelled as the base64 alphabet of section 4 of RFC 4648. Decoding follows the WHATWG "forgiving-base64 decode" algorithm: whitespace is dropped and padding is optional.
- **Playback scheduler** (`Playback`). A cursor on the 24 kHz output clock. Each received frame starts at max(cursor, now), and the cursor then advances by the frame's duration. The scheduler also keeps the set of still-playing sources.
- **Voice panel controller** (`VoiceAgent`). The connection flag and status text. Events for setup, live messages, source ends, remote close and error, unmount, and capture callbacks. One teardown (`stopSession`) serves every ending path.
- **Service request logic** (`GeminiService`). The model, tools, configuration and parts of each chat, image and video request. The value taken from each response: the image data, the video URL, and the live message's audio.
- **Chat panel** (`ChatInterface`) and **media panel** (`MediaGenerator`). The send and generate guards, the state transitions around one request, and the history and option forwarding. Also: grounding-link extraction, the search/maps toggle exclusivity, the tab, unlock and upload handlers.

Time is a `real` number of seconds. A frame of n samples lasts exactly n/24000.

Some behaviour of the code is easy to miss, and the model keeps it:

- `generateChatResponse` takes a `history` argument but never sends it. The request holds only the new message's parts (`ChatRequestIgnoresHistory`).
- `stopSession` never closes the live session, and the callbacks carry no session identity. An audio message that arrives after teardown is still decoded and scheduled (`StaleAudioAfterStop`).
- The live handler forwards the audio of the first part of a message only, not one call per part (`LaterPartsIgnored`).
- A payload that fails to decode makes the callback throw. Nothing is scheduled and the state is unchanged; the callback does not return an empty buffer. The same holds for a payload that decodes to no samples, because an empty audio buffer cannot be created.
- On setup failure, the status "Connection Failed" is immediately replaced by teardown's "Disconnected".
- Pressing Enter sends even while a chat reply is loading. Only the button is disabled.
- `handleGenerate` itself does not check the video unlock flag. Only the button is disabled.

## Model

| member | source | states |
|---|---|---|
| Bytes.FromCharCodes | services/geminiService.ts:257-262 | the binary string has one character per byte, whose code equals the byte |
| Bytes.CharCodes | services/geminiService.ts:244-247 | copying `charCodeAt` into a `Uint8Array` keeps each code modulo 256, so a binary string yields its codes exactly |
| Bytes.CharCodesOfFromCharCodes | services/geminiService.ts:243-262 | reading back the codes of a string built from bytes gives those bytes |
| Bytes.FromCharCodesOfCharCodes | services/geminiService.ts:244-262 | a binary string rebuilt from its codes is the same string |
| Base64.Letter | services/geminiService.ts:263 | the alphabet character of a digit value is never the padding character `=` |
| Base64.ValueOf | services/geminiService.ts:243 | a recognised character is the letter of the value it decodes to |
| Base64.ValueOfLetter | services/geminiService.ts:243 | reading the letter of any digit value gives back that value |
| Base64.ToSextets | services/geminiService.ts:263 | n bytes give ⌈4n/3⌉ digits before padding |
| Base64.PaddedLength | services/geminiService.ts:263 | digits plus `=` padding for n bytes make 4·⌈n/3⌉ characters |
| Base64.Encode | services/geminiService.ts:263 | the padded encoding of n bytes is 4·⌈n/3⌉ characters, a multiple of four |
| Base64.RemoveWhitespace | services/geminiService.ts:243 | the decoder's whitespace removal leaves no TAB, LF, FF, CR or space, keeps every other character, and leaves whitespace-free text unchanged |
| Base64.RemoveWhitespaceAppend | services/geminiService.ts:243 | whitespace removal commutes with concatenation, so the other characters keep their order |
| Base64.RemoveAllWhitespace | services/geminiService.ts:243 | text made only of whitespace disappears entirely |
| Base64.StripPadding | services/geminiService.ts:243 | padding removal drops at most two trailing characters, all of them `=`, only when the length is a multiple of four, and as many as allowed: if fewer than two go, what remains does not end in `=` |
| Base64.Values | services/geminiService.ts:243 | every alphabet character decodes to the value whose letter it is |
| Base64.FromSextetsLength | services/geminiService.ts:243 | a digit count that is not 1 modulo 4 decodes to ⌊3d/4⌋ bytes for d digits |
| Base64.AtobOfEncode | services/geminiService.ts:243-263 | `atob` of the encoding of any byte sequence is the binary string of those bytes |
| Base64.FromToSextets | services/geminiService.ts:243-263 | decoding the base64 digits of any byte sequence yields that byte sequence, by induction over three-byte groups |
| Base64.Btoa | services/geminiService.ts:263 | `btoa` throws exactly when a character is above U+00FF; otherwise its output is 4·⌈n/3⌉ characters long |
| Base64.Atob | services/geminiService.ts:243 | `atob` either throws or returns a binary string no longer than its input; `AtobRejects` gives two conditions under which it throws, and `AtobIgnoresWhitespace` and `AtobOfUnpadded` say what non-canonical text decodes to |
| Base64.AtobRejects | services/geminiService.ts:243 | `atob` throws when the text without whitespace has length 1 modulo 4, and when any character is neither whitespace, `=` nor an alphabet letter |
| Base64.AtobIgnoresWhitespace | services/geminiService.ts:243 | inserting ASCII whitespace anywhere does not change what `atob` returns or whether it throws |
| Base64.AtobOfUnpadded | services/geminiService.ts:243 | padding is optional: the bare digits of an encoding decode to the same bytes as the padded text |
| Base64.EncodeAlphabet | services/geminiService.ts:263 | an encoding consists of alphabet letters and `=` only, so it contains no comma |
| Base64.AtobOfBtoa | services/geminiService.ts:243-263 | `atob(btoa(s)) == s` for every binary string `s` |
| Pcm.ToLittleEndian | services/geminiService.ts:248 | the two bytes of an int16, low byte first, read back as that int16 |
| Pcm.FromLittleEndian | services/geminiService.ts:248 | a byte pair reads as the int16 congruent to lo + 256·hi modulo 2^16 |
| Pcm.ToFromLittleEndian | services/geminiService.ts:248 | every byte pair is the little-endian encoding of the int16 it reads as |
| Pcm.Int16View | services/geminiService.ts:248 | an `Int16Array` view throws exactly on an odd byte length; otherwise it has half as many elements as bytes |
| Pcm.Int16Buffer | services/geminiService.ts:248 | the buffer of an `Int16Array` holds each element little-endian in two bytes |
| Pcm.ViewOfBuffer | services/geminiService.ts:248 | viewing the buffer of an `Int16Array` gives back its elements |
| Pcm.ViewTail | services/geminiService.ts:248 | the view's first element reads the first two bytes, and the rest of the view is the view of the remaining bytes |
| Pcm.BufferOfView | services/geminiService.ts:248 | every even-length buffer is the buffer of its own int16 view |
| Pcm.Sample | services/geminiService.ts:251 | each decoded sample is k/32768, which lies in [-1, 1) |
| Pcm.Samples | services/geminiService.ts:249-252 | one float per int16, each equal to the int16 divided by 32768 and in [-1, 1) |
| Pcm.DecodePcm | services/geminiService.ts:242-254 | decoding fails exactly when `atob` throws or the byte count is odd; otherwise it yields (byte count)/2 samples, each in [-1, 1), and sample i is the little-endian int16 of decoded bytes 2i and 2i+1 divided by 32768 |
| Pcm.Base64ToFloat32 | services/geminiService.ts:242-254 | the two copying loops compute exactly the decoding above |
| Pcm.CopyCharCodes | services/geminiService.ts:244-247 | the first loop stores every character code of the binary string |
| Pcm.ScaleSamples | services/geminiService.ts:249-252 | the second loop stores every int16 divided by 32768 |
| Pcm.EncodeBytes | services/geminiService.ts:256-264 | the base64 text of a byte sequence decodes, through `atob`, back to the binary string of those bytes |
| Pcm.ArrayBufferToBase64 | services/geminiService.ts:256-264 | `btoa` applied to the string the `fromCharCode` loop builds is the encoding of the bytes, and `atob` decodes it back to the original bytes |
| Pcm.DecodeEncodedInt16 | services/geminiService.ts:242-264 | encoding an `Int16Array`'s buffer and decoding it with `base64ToFloat32` gives k/32768 for each element k |
| Pcm.Truncate | components/VoiceAgent.tsx:75 | the number is truncated toward zero |
| Pcm.Quantise | components/VoiceAgent.tsx:75 | storing `x * 32768` into an `Int16Array` keeps the truncated product modulo 2^16 |
| Pcm.ToInt16 | components/VoiceAgent.tsx:75 | `ToInt16` agrees with the truncated value modulo 2^16, and equals it when that value is already in int16 range |
| Pcm.QuantiseSample | components/VoiceAgent.tsx:75 | quantising k/32768 gives back k for every int16 k |
| Pcm.QuantiseInRange | components/VoiceAgent.tsx:73-76 | on [-1, 1) quantising never wraps, and the decoded value is within one step of the input, toward zero |
| Pcm.QuantiseOneWraps | components/VoiceAgent.tsx:75 | 1.0 is not clipped: it wraps to -32768 |
| Playback.Duration | components/VoiceAgent.tsx:42 | a frame of n samples plays for n/24000 seconds |
| Playback.Schedule | components/VoiceAgent.tsx:50-61 | a frame never starts before now or before the cursor. It starts at the cursor when the cursor is not behind, and at now after a stall. The cursor moves to the frame's end and never decreases. The new source is fresh and joins the active set |
| Playback.Ended | components/VoiceAgent.tsx:59-61 | an ended source leaves the active set and nothing else changes |
| Playback.Stop | components/VoiceAgent.tsx:104-106 | teardown stops exactly the active sources, empties the set and resets the cursor to 0 |
| Playback.StopIdempotent | components/VoiceAgent.tsx:104-106 | stopping twice leaves the same scheduler as stopping once, and the second stop stops nothing |
| Playback.ScheduleAll | components/VoiceAgent.tsx:50-56 | over a run of frames, each frame starts at max(previous end, its arrival) and never before its arrival, and the cursor ends at the last frame's end |
| Playback.NoOverlap | components/VoiceAgent.tsx:50-56 | scheduled frames never overlap, and a frame starts exactly at the previous frame's end precisely when it arrived before that end |
| Playback.StartsNonDecreasing | components/VoiceAgent.tsx:50-56 | start times never decrease along the run of frames |
| Playback.TwoFramesBackToBack | components/VoiceAgent.tsx:50-56 | two 100 ms frames arriving without a stall start exactly 100 ms apart |
| VoiceAgent.StopSession | components/VoiceAgent.tsx:98-107 | after stop: not connected, status "Disconnected", active set empty, cursor 0, and exactly the previously active sources are stopped |
| VoiceAgent.StopSessionIdempotent | components/VoiceAgent.tsx:98-107 | calling stop twice gives the same state as calling it once, and the second call stops nothing |
| VoiceAgent.StopForgetsStatus | components/VoiceAgent.tsx:91-95 | the state after stop does not depend on the earlier flag or status, so "Connection Failed" never survives teardown |
| VoiceAgent.OnAudio | components/VoiceAgent.tsx:40-62 | an undecodable or empty payload changes nothing. Otherwise one source is scheduled at max(cursor, now), lasting (sample count)/24000, and added to the active set |
| VoiceAgent.CaptureBlob | components/VoiceAgent.tsx:70-82 | a capture blob is tagged `audio/pcm;rate=16000`, and its data decodes to exactly the quantised input samples, one per input sample |
| VoiceAgent.Quantised | components/VoiceAgent.tsx:73-76 | the quantised buffer has one int16 per input sample, and element i is `ToInt16(input[i] * 32768)`, wrap-around included |
| VoiceAgent.ProcessCapture | components/VoiceAgent.tsx:70-82 | the quantising loop and the encoding produce exactly that blob |
| VoiceAgent.CaptureWithinOneStep | components/VoiceAgent.tsx:75 | captured audio in [-1, 1) comes back from the wire within one quantisation step |
| VoiceAgent.CaptureOfDecodedSamples | components/VoiceAgent.tsx:75 | sending back samples decoded from an int16 buffer reproduces that buffer's encoding |
| VoiceAgent.Step | components/VoiceAgent.tsx:19-107 | every event keeps each active source below the next identity to be issued, so a newly started source is never one already playing |
| VoiceAgent.TeardownPathsAgree | components/VoiceAgent.tsx:63-65 | remote close, remote error, unmount, setup failure and the stop click all produce the same state and stop the same sources |
| VoiceAgent.ActiveSetDiscipline | components/VoiceAgent.tsx:58-61 | only a played message adds a source (one fresh id), only its end removes it, only teardown clears the set; other events leave it alone |
| VoiceAgent.CaptureSendsOneBlob | components/VoiceAgent.tsx:70-82 | each capture callback while connected sends exactly one 16 kHz PCM blob with one sample per input sample |
| VoiceAgent.FullBufferCapture | components/VoiceAgent.tsx:36 | a full 4096-sample capture buffer is sent as one blob of 4096 samples |
| VoiceAgent.StaleAudioAfterStop | components/VoiceAgent.tsx:98-107 | because teardown neither closes the session nor checks its identity, audio arriving after stop is still scheduled: the set is non-empty and the cursor leaves 0 |
| GeminiService.ChatModel | services/geminiService.ts:22-27 | the model is `gemini-3-pro-preview` exactly when thinking, code or images are requested, and `gemini-2.5-flash` otherwise, the search/maps case included |
| GeminiService.ChatTools | services/geminiService.ts:29-35 | tools are undefined exactly when neither search nor maps is on. Otherwise each tool is present exactly when its switch is on, and search comes first |
| GeminiService.BuildChatConfig | services/geminiService.ts:33-50 | the position is sent exactly when maps is on and a position is known. The thinking budget of 32768 is set exactly when thinking is on |
| GeminiService.ChatParts | services/geminiService.ts:52-60 | the parts are the text first, then one `image/jpeg` part per image in order: 1 + (image count) parts |
| GeminiService.BuildChatRequest | services/geminiService.ts:8-66 | the chat request is assembled from the model, parts and configuration above |
| GeminiService.ChatRequestIgnoresHistory | services/geminiService.ts:62-66 | the request is the same whatever history is passed |
| GeminiService.BuildImageRequest | services/geminiService.ts:88-108 | the model is the 'pro' image model exactly for 'pro'. The aspect ratio is always set. The size is set only for 'pro' with a size. A non-empty reference image is the second part |
| GeminiService.FirstInlineIndex | services/geminiService.ts:117-123 | this is the first part that carries inline data; none is found exactly when no part has it |
| GeminiService.ImageResult | services/geminiService.ts:116-126 | the image is the data of the first inline-data part, or '' when there are no parts or none has inline data |
| GeminiService.BuildVideoRequest | services/geminiService.ts:145-172 | 'hq' maps to `veo-3.1-generate-preview` and anything else to the fast model. A start frame is attached exactly when non-empty, and then an empty prompt becomes "Animate this image". One 720p video at the chosen ratio |
| GeminiService.VideoResult | services/geminiService.ts:179-183 | the URL is present exactly when the URI is non-empty, and is the URI followed by `&key=` and the key |
| GeminiService.ErrorString | services/geminiService.ts:187 | `String(e)` of an `Error` is "Error" when the message is empty, and otherwise "Error: " followed by the message |
| GeminiService.NotFoundAfterPrefix | services/geminiService.ts:187 | an occurrence of the not-found text in "Error: " + message lies within the message |
| GeminiService.NotFoundKeptByPrefix | services/geminiService.ts:187 | an occurrence of the not-found text in the message is still found after the prefix |
| GeminiService.PrefixKeepsNotFound | services/geminiService.ts:187 | the `String(e)` prefix of an `Error` neither creates nor hides the not-found text, so the test is a test on the message |
| GeminiService.VideoFailure | services/geminiService.ts:185-191 | a not-found error becomes "choose a valid key" when a key selector exists; every other error propagates unchanged |
| GeminiService.FirstPartAudio | services/geminiService.ts:216-220 | audio is forwarded exactly when the first part has non-empty inline data, and it is that data |
| GeminiService.LaterPartsIgnored | services/geminiService.ts:217 | parts after the first never reach the audio callback |
| JsStrings.Trim | components/ChatInterface.tsx:28 | the trimmed text is empty exactly when every character is whitespace. Otherwise it is an infix that neither starts nor ends with whitespace, with only whitespace around it |
| JsStrings.SecondField | components/MediaGenerator.tsx:32 | the second comma-separated field is undefined exactly when there is no comma, and never contains a comma |
| JsStrings.SecondFieldOfJoin | components/MediaGenerator.tsx:32 | after a comma-free prefix and a comma, the following comma-free field is what is returned |
| ChatInterface.History | components/ChatInterface.tsx:41-44 | each earlier message, in order, becomes its role with one text part |
| ChatInterface.BeginSend | components/ChatInterface.tsx:27-46 | a send is ignored exactly when the input is blank. Otherwise the untrimmed input is appended as a user message, the input is cleared and loading starts. The call carries the history of the earlier messages and the current switches. Nothing else changes |
| ChatInterface.ReplyText | components/ChatInterface.tsx:53 | an empty reply text becomes "..."; any other text is kept |
| ChatInterface.GroundingUrlOf | components/ChatInterface.tsx:56-59 | a chunk yields its web source if present, else its maps source |
| ChatInterface.GroundingUrls | components/ChatInterface.tsx:55-60 | the link list is no longer than the chunk list and is empty exactly when no chunk has a source. Every link comes from a chunk |
| ChatInterface.GroundingUrlsAppend | components/ChatInterface.tsx:55-60 | extraction commutes with concatenation, so links keep their chunks' order |
| ChatInterface.GroundingUrlsOfSingle | components/ChatInterface.tsx:56-59 | a single chunk contributes its link if it has one, and nothing otherwise |
| ChatInterface.ReplyMessage | components/ChatInterface.tsx:53-67 | the model message carries the reply text (or "...") and the extracted links, with none for missing metadata |
| ChatInterface.FinishSend | components/ChatInterface.tsx:69-80 | exactly one model message is appended: the reply, or "Connection Error." on failure. Loading ends in both cases and nothing else changes |
| ChatInterface.SendAppendsTwoMessages | components/ChatInterface.tsx:30-80 | a completed send appends the user message and then one model message, and leaves the input cleared and loading off |
| ChatInterface.SendDisabledRule | components/ChatInterface.tsx:161 | the send button is enabled exactly when not loading and a send would be accepted |
| ChatInterface.PanelChatModel | components/ChatInterface.tsx:46-51 | the panel sends no images and no code flag, so it asks for the pro model exactly when thinking is on |
| ChatInterface.ToggleThinking | components/ChatInterface.tsx:92 | the thinking toggle flips thinking and changes nothing else |
| ChatInterface.ToggleSearch | components/ChatInterface.tsx:95 | the search toggle flips search, switches maps off and changes nothing else |
| ChatInterface.ToggleMaps | components/ChatInterface.tsx:98 | the maps toggle flips maps, switches search off and changes nothing else |
| ChatInterface.ChatStep | components/ChatInterface.tsx:27-98 | every panel event keeps search and maps from being on together |
| ChatInterface.ToolsNeverBothOn | components/ChatInterface.tsx:95-98 | from the mounted panel, no sequence of events turns search and maps on together |
| MediaGenerator.OrUndefined | components/MediaGenerator.tsx:65 | an empty or missing string is passed as undefined, and any other string as itself |
| MediaGenerator.ImageCallOptions | components/MediaGenerator.tsx:61-66 | the size is forwarded exactly for the 'pro' model, and the reference image exactly when one is loaded |
| MediaGenerator.BeginGenerate | components/MediaGenerator.tsx:51-57 | generate is ignored exactly on the image tab without a prompt, or on the video tab without a prompt and a start frame. Otherwise loading starts, error and result are cleared, and the current tab's call is made |
| MediaGenerator.ErrorText | components/MediaGenerator.tsx:78 | the shown error is the failure's message, or the default text when that is empty |
| MediaGenerator.FinishGenerate | components/MediaGenerator.tsx:68-80 | a non-empty image becomes `data:image/jpeg;base64,` + data and an empty one an error. A video URL (or null) is stored as the result, a failure sets the error, and loading always ends |
| MediaGenerator.EmptyImageIsFailure | components/MediaGenerator.tsx:68-72 | an empty image is handled exactly as a failure with the no-image message |
| MediaGenerator.GenerateCycle | components/MediaGenerator.tsx:55-80 | an accepted generate ends with loading off, never shows a result and an error together, and shows one of them unless the video call returned no URL |
| MediaGenerator.ImageRequestFromPanel | components/MediaGenerator.tsx:61-66 | the image request the panel causes has the 'pro' model and a size exactly for 'pro', the chosen ratio, and a reference part exactly when an image is loaded |
| MediaGenerator.VideoRequestFromPanel | components/MediaGenerator.tsx:74 | a video generate with a start frame and no prompt asks to animate the image |
| MediaGenerator.GenerateDisabled | components/MediaGenerator.tsx:238 | on the image tab the button is disabled exactly while loading; on the video tab, while loading or until unlocked |
| MediaGenerator.ButtonAndHandlerGuards | components/MediaGenerator.tsx:51-53 | the button ignores the prompt and start frame, and the handler ignores the unlock and loading flags; so an enabled button can meet an ignored generate, and a locked video tab with a prompt is stopped by the button alone |
| MediaGenerator.SelectTab | components/MediaGenerator.tsx:92 | switching tabs clears the result and changes nothing else |
| MediaGenerator.Unlock | components/MediaGenerator.tsx:40-49 | unlock sets the flag when there is no key selector and when it succeeds, and changes nothing when it throws |
| MediaGenerator.UnlockEnablesVideo | components/MediaGenerator.tsx:238 | once unlocked, the video tab's generate button is disabled exactly while loading |
| MediaGenerator.StoreUpload | components/MediaGenerator.tsx:26-35 | the stored image is the second comma-separated field of the data URL |
| MediaGenerator.UploadStoresPayload | components/MediaGenerator.tsx:32 | for a data URL `data:<mime>;base64,<payload>`, exactly the payload is stored |
| MediaGenerator.ResultUrlPayload | components/MediaGenerator.tsx:69 | a generated image's data URL splits back into its comma-free data |
| MediaGenerator.ResultUrlOfEncodedImage | components/MediaGenerator.tsx:69 | the data URL of any base64-encoded image splits back into that encoding |

## Left out

- Remote calls are not modelled: `generateContent`, `generateVideos`, `live.connect` and `sendRealtimeInput`. Their results arrive as parameters: response parts, outcomes and live messages. The 5-second polling loop of video generation is left out as well.
- The API key comes from the process environment. It is a parameter of `GeminiService.VideoResult`.
- The key-selector checks before image and video generation (`window.aistudio`) are browser I/O with no effect on the request. Only their outcome in `MediaGenerator.Unlock` and `GeminiService.VideoFailure` is modelled.
- The live session's fixed configuration (model name, voice, system instruction, response modality) is constant data with no logic.
- The audio graph is not modelled: audio contexts, script processor, microphone, analyser, closing the contexts, and releasing tracks. Their values arrive as event fields: the output clock time, the received message and the captured buffer.
- Capture callbacks are taken to reach the controller only while it is connected, because teardown disconnects the processor.
- The canvas visualizer is floating-point drawing driven by animation frames.
- `FileReader`, geolocation (its result arrives as a `PositionKnown` event), React rendering and scrolling, and `App.tsx` navigation are left out.
- Message ids (made from `Date.now()`) and the unused optional message fields are left out.
- `Pcm.FromLittleEndian`: the platform is taken to be little-endian; on a big-endian host, the `Int16Array` view would read each byte pair swapped.
- `GeminiService.ErrorString` covers `Error` objects whose name is "Error"; errors with another name, and thrown values that are not errors, are not modelled.
- `Base64.AtobRejects` gives sufficient conditions for `atob` to throw, not a complete list: a misplaced `=` (as in "AA=A") also throws, and no lemma states it.
- `Pcm.ToInt16` covers finite numbers only; NaN and infinities (which `ToInt16` maps to 0) cannot come from the capture buffer's finite float samples in this model.
- `Playback.Duration` is exact: a frame lasts n/24000 s, without float rounding of `AudioBuffer.duration` or of the clock.
- `charCodeAt` returns UTF-16 code units; the model uses Unicode scalar values. The two agree on the binary strings `atob` returns, the only strings the codec reads.
- A second click on "connect" while a first setup is still pending starts a second session in the source. The model treats setup outcomes as independent events and does not track how many sessions are pending.
