# Voice-interview assistant core, modelled in Dafny

This project models the data-handling core of a collection of voice-assistant
services built around Amazon Nova Sonic, and proves properties of that model.
The modules follow the program's own structure:

- `S2sEvents` holds the speech-to-speech wire events that the Python relay
  server builds (`S2sEvent`) and their default configurations.
- `NovaSession` is the `SimpleNovaSonic` session object of the WebRTC demo.
  It is a class whose event log stands for the Bedrock stream. `NovaResponses`
  is its response loop, written as a fold over the outputs the stream delivers.
- `DataChannel`, `Chunks`, `Bytes` and `Base64` cover the data-channel audio
  messages. This includes how they are framed, how chunks are reassembled by
  index with `None` padding, how a buffer is echoed back, how outbound audio
  is cut into 1024-octet chunks, and the conversions `bytes(list)` and
  base64.
- `EchoChannel` models the echoing data-channel handler shared by the
  signaling manager and the simple test server. `NovaAudio` models the demo's
  handler that hands audio to the session and streams the response back.
- `Signaling` is `WebRTCSignalingManager`: its handler map, its
  peer-connection registry and its data-channel dispatch. `AppSimple` is the
  simple test server's registry.
- `WebrtcModels` holds the pydantic message and offer records, with strict
  parsers from JSON.
- `WsRouter` is the websocket relay's per-message routing decision, together
  with its health-check answer.
- `Config` is the configuration loader and `Config.validate`.
- `Interview` covers `get_job_questions` (position matching and the global
  question cursor) in both variants: the Daily bot's and the integration
  server's. `JobSearch` is the filter and pagination of
  `fetch_data_science_jobs`. `Jobs` covers `Jobs.list_jobs` and
  `Jobs.get_interview_questions`.
- `Talking` is the talking-robot animation: how the sprite sequence is built,
  and the `TalkingAnimation` frame processor.
- `Json`, `Text` and `Wrappers` are shared helpers. They give parsed JSON
  values with Python's dict, truthiness and `in` rules, and the Python string
  operations the code uses.

Python's `json.loads`, `float()`, the `repr` of floats, lists and dicts, and
fresh `uuid4` strings appear as parameters. I/O, clocks and the network are
left out, and the `## Left out` section says which.

## Model

| member | source | states |
|---|---|---|
| Json.LookupSpec | simple-pipecat-webrtc/api/app.py:447-453 | a dict lookup finds a key exactly when the key is present, and always with a value bound to that key |
| Json.LookupDistinct | simple-pipecat-webrtc/api/app.py:447-453 | in a dict without repeated keys, every key finds its own value |
| Json.Get | nova-sonic/api/webrtc_signaling.py:128 | `obj.get(key, default)` is the bound value when the key is present, and the default otherwise |
| Json.PyIn | daily/server/function_schema.py:209 | `x in c` is a substring test on a string, a membership test on a list and a key test on a dict; on any other value it raises |
| Json.Dedup | server/integration/jobs.py:90-91 | a dict built by inserting keys holds each inserted key exactly once |
| Json.DedupDistinct | server/integration/jobs.py:90-91 | keys that are already distinct keep their order |
| Json.Iter | server/integration/jobs.py:90-91 | iterating a list yields its items; a dict yields exactly its keys, each once; values other than lists, dicts and strings raise |
| Json.IterDistinct | server/integration/jobs.py:90-91 | a dict without repeated keys yields its keys in document order |
| Json.PyStr | server/integration/jobs.py:92 | `str(v)` of a string is the string itself, and of an int its decimal text |
| Text.Lower | daily/server/function_schema.py:260 | lowering keeps the length and folds each character on its own |
| Text.LowerIdempotent | server/integration/interviewer_api.py:20-51 | lowering an already lowered query changes nothing |
| Text.Strip | daily/server/function_schema.py:260 | the stripped text is the slice of the input whose margins are all whitespace, and it neither starts nor ends with whitespace |
| Text.Split | daily/server/function_schema.py:306 | every word that `split()` yields is non-empty and free of whitespace |
| Text.SplitFromWeave | daily/server/function_schema.py:306 | the words found from position k, woven with whitespace gaps (non-empty between two words), give back the rest of the text from k |
| Text.SplitDecomposes | daily/server/function_schema.py:306 | the text is its words interleaved with whitespace gaps, at least one whitespace character between two words: the words are the maximal non-whitespace runs, in order |
| Text.SplitOfBlank | daily/server/function_schema.py:306 | a blank query has no words |
| Text.ContainsIff | daily/server/function_schema.py:299 | the substring scan holds exactly when the needle occurs at some position of the haystack |
| Text.EmptyInEverything | server/integration/interviewer_api.py:51-56 | the empty query is contained in every title |
| Text.IntToString | server/integration/jobs.py:92 | `str(n)` is never empty, and starts with a minus sign exactly when n is negative |
| Text.DigitsRoundTrip | server/integration/jobs.py:92 | reading back the decimal digits of a natural number gives that number |
| Text.IntStringRoundTrip | nova-sonic/python-server/config.py:14 | `int(str(n)) == n` for every integer, negative ones included |
| Bytes.ToJson | nova-sonic/api/webrtc_signaling.py:194 | `list(chunk)` gives one int item per octet, in order |
| Bytes.PyBytes | nova-sonic/api/webrtc_signaling.py:160 | `bytes(list)` succeeds exactly when every item is an int in 0..255, and the octets are then those ints |
| Bytes.BytesOfList | nova-sonic/api/webrtc_signaling.py:160-194 | `bytes(list(b)) == b` |
| Base64.Val | simple-pipecat-webrtc/api/app.py:358 | decoding one symbol inverts the alphabet |
| Base64.ValOfSym | simple-pipecat-webrtc/api/app.py:250 | every sextet's symbol is in the alphabet and decodes back to it |
| Base64.EncodeLength | simple-pipecat-webrtc/api/app.py:250 | the encoding is 4 characters for every started group of 3 octets |
| Base64.FullRoundTrip | simple-pipecat-webrtc/api/app.py:250-358 | a full 3-octet group decodes back to its octets |
| Base64.OneRoundTrip | simple-pipecat-webrtc/api/app.py:250-358 | a final single octet, padded with `==`, decodes back |
| Base64.TwoRoundTrip | simple-pipecat-webrtc/api/app.py:250-358 | two final octets, padded with `=`, decode back |
| Base64.GroupRoundTrip | simple-pipecat-webrtc/api/app.py:250-358 | if the rest decodes back, then so does the whole input once a full group is put in front |
| Base64.RoundTrip | simple-pipecat-webrtc/api/app.py:250-358 | `b64decode(b64encode(s)) == s` for every octet string |
| Chunks.Padded | simple-pipecat-webrtc/api/app.py:472-476 | padding keeps the buffer as a prefix and fills only new slots, each with `None` |
| Chunks.StoreAt | simple-pipecat-webrtc/api/app.py:472-480 | storing at index i pads through i, puts the octets at i and leaves every other slot as it was |
| Chunks.StoreOverwrite | nova-sonic/api/webrtc_signaling.py:153-165 | a later chunk with the same index replaces the earlier one |
| Chunks.StoreCommute | nova-sonic/api/webrtc_signaling.py:153-165 | chunks with different indices can arrive in either order and give the same buffer |
| Chunks.FileSizeIsPayloadLength | simple-pipecat-webrtc/api/app_simple.py:137-149 | the echoed `fileSize` equals the length of the payload the non-`None` slots carry |
| Chunks.PiecesSpec | simple-pipecat-webrtc/api/app_simple.py:152-176 | the echoed pieces are exactly the non-`None` slots, in increasing index order, each with its own index |
| Chunks.EchoCarriesPayload | simple-pipecat-webrtc/api/app_simple.py:152-176 | the echoed pieces, joined, are the reassembled payload |
| Chunks.ChunkCountIsCeiling | simple-pipecat-webrtc/api/app.py:565-566 | `total_chunks` is the ceiling of the length over 1024, and it is 0 only for empty audio |
| Chunks.ChunkAt | simple-pipecat-webrtc/api/app.py:581-585 | every outbound chunk holds between 1 and 1024 octets |
| Chunks.JoinedIsPrefix | simple-pipecat-webrtc/api/app.py:581-585 | the first n chunks, joined, are the first min(n*1024, len) octets |
| Chunks.SplitJoin | simple-pipecat-webrtc/api/app.py:561-611 | all chunks, joined, are the full audio |
| Chunks.Split | simple-pipecat-webrtc/api/app.py:581-585 | there are `total_chunks` chunks, chunk i taken from octet i*1024 |
| Chunks.StoreAllFilled | simple-pipecat-webrtc/api/app.py:472-480 | storing chunks 0..n-1 in order fills exactly n slots, none empty |
| Chunks.PayloadOfFilled | simple-pipecat-webrtc/api/app.py:472-480 | a buffer holding the first n chunks has the first n chunks joined as payload |
| Chunks.ReassembleSplit | simple-pipecat-webrtc/api/app.py:472-611 | a receiver that stores the outbound chunks by index reassembles exactly the sent audio |
| Chunks.EchoOfSplit | nova-sonic/api/webrtc_signaling.py:176-214 | echoing a buffer filled from a split audio sends every chunk back, under its own index, and the pieces join to the audio |
| DataChannel.EchoChunks | nova-sonic/api/webrtc_signaling.py:188-205 | one chunk message per piece, with the piece's index, the buffer length as `totalChunks`, and its octets |
| DataChannel.EchoBurstShape | nova-sonic/api/webrtc_signaling.py:176-214 | the echo is the start message, then the chunk messages in index order, then the end message |
| DataChannel.StoreChunkData | simple-pipecat-webrtc/api/app.py:471-481 | a well-formed chunk (a non-negative int index and octets that `bytes` accepts) is stored at that index after padding; the buffer never shrinks, a slot that changes then holds a chunk, and a `chunk` that `bytes` rejects leaves the buffer as it was |
| DataChannel.ApplyChunk | nova-sonic/api/webrtc_signaling.py:155-165 | the padding loop and the store compute exactly the buffer update of the chunk rules |
| Chunks.PadSlots | nova-sonic/api/webrtc_signaling.py:163-164 | appending empty slots one at a time pads the buffer to the wanted length |
| DataChannel.ReadChunkOfChunkMsg | simple-pipecat-webrtc/api/app.py:469-480 | a chunk message that was sent reads back as its index and its octets |
| EchoChannel.IgnoresNonObjects | nova-sonic/api/webrtc_signaling.py:125-224 | binary messages, non-JSON text, and JSON that is not an object change nothing |
| EchoChannel.HandlerShortCircuits | nova-sonic/api/webrtc_signaling.py:132-135 | a registered handler receives the parsed message and the built-in audio handling is skipped |
| EchoChannel.StartResets | nova-sonic/api/webrtc_signaling.py:138-151 | audio-start sets receiving, empties the buffer, keeps the metadata and echoes the metadata back unchanged |
| EchoChannel.ChunkStored | nova-sonic/api/webrtc_signaling.py:153-165 | while receiving, a chunk updates the buffer by the chunk rules, and a well-formed chunk is stored at its index after padding |
| EchoChannel.IdleIgnores | simple-pipecat-webrtc/api/app_simple.py:114-131 | chunk and end messages that arrive while not receiving change nothing and send nothing |
| EchoChannel.EndEchoes | nova-sonic/api/webrtc_signaling.py:173-219 | audio-end stops receiving, sends the echo burst of the buffer, then empties the buffer and the metadata |
| EchoChannel.NoHandlerNoCall | simple-pipecat-webrtc/api/app_simple.py:89-183 | with no handlers registered, no message is ever handed to a handler |
| EchoChannel.Channel.constructor | nova-sonic/api/webrtc_signaling.py:116-119 | a new channel is idle, with an empty buffer and empty metadata |
| EchoChannel.Channel.OnMessage | nova-sonic/api/webrtc_signaling.py:122-224 | one message moves the channel's state by exactly one step of the message rules |
| EchoChannel.Channel.EchoAll | nova-sonic/api/webrtc_signaling.py:176-219 | the echo burst is appended to what was sent, and buffer and metadata are reset |
| EchoChannel.EchoMessages | nova-sonic/api/webrtc_signaling.py:176-214 | the loop builds exactly the echo burst |
| WebrtcModels.ParseOffer | nova-sonic/api/models/webrtc_models.py:5-12 | an offer is accepted exactly when `sdp` and `type` are strings and `pc_id` and `restart_pc` are absent, null or of their types; the offer carries the values read, a missing `pc_id` reads as none and a missing `restart_pc` as false |
| WebrtcModels.OfferRoundTrip | nova-sonic/api/models/webrtc_models.py:5-12 | every offer, written as JSON, parses back to itself |
| WebrtcModels.ParseAnswer | nova-sonic/api/models/webrtc_models.py:15-21 | an answer is accepted exactly when `sdp`, `type` and `pc_id` are strings, and it carries the three values read |
| WebrtcModels.AnswerRoundTrip | nova-sonic/api/models/webrtc_models.py:15-21 | every answer parses back from its JSON |
| WebrtcModels.ParseAudioStart | nova-sonic/api/models/webrtc_models.py:24-31 | a start message is accepted exactly when `filename` and `mimeType` are strings and `fileSize` and `totalChunks` are ints, and it carries the four values read |
| WebrtcModels.AudioStartRoundTrip | nova-sonic/api/models/webrtc_models.py:24-31 | every start message parses back from its JSON |
| WebrtcModels.ParseAudioChunk | nova-sonic/api/models/webrtc_models.py:34-40 | a chunk message with int `chunkIndex` and `totalChunks` and a list of ints as `chunk` is accepted, every accepted one has them, and it carries the two ints and the list's values in order |
| WebrtcModels.AudioChunkRoundTrip | nova-sonic/api/models/webrtc_models.py:34-40 | every chunk message parses back from its JSON |
| WebrtcModels.ParseAudioEnd | nova-sonic/api/models/webrtc_models.py:43-47 | an end message is accepted exactly when it is an object with a string `filename`, and it carries that name |
| WebrtcModels.AudioEndRoundTrip | nova-sonic/api/models/webrtc_models.py:43-47 | every end message parses back from its JSON |
| WebrtcModels.ParseEnvelope | nova-sonic/api/models/webrtc_models.py:50-56 | an envelope with string `type` and `label` and an object or no `data` is accepted; it carries the `type`, the `label` and the `data` read, and a missing `data` is the empty map |
| WebrtcModels.EnvelopeRoundTrip | nova-sonic/api/models/webrtc_models.py:50-56 | every envelope parses back from its JSON |
| Signaling.Manager.constructor | nova-sonic/api/webrtc_signaling.py:21-25 | a new manager has no handlers and no connections |
| Signaling.Manager.RegisterHandler | nova-sonic/api/webrtc_signaling.py:27-31 | registering binds the type to the handler, replacing any earlier one, and changes nothing else |
| Signaling.Manager.ProcessOffer | nova-sonic/api/webrtc_signaling.py:42-66 | a known `pc_id` reuses its entry, or with `restart_pc` closes it and stores a fresh connection under the same id; otherwise a fresh connection is stored under the given id or the fresh one |
| Signaling.Manager.OnConnectionStateChange | nova-sonic/api/webrtc_signaling.py:105-110 | a failed or closed state removes the id from the registry, and any other state changes nothing |
| Signaling.Manager.OnConnectionStateChangeGuarded | nova-sonic/api/webrtc_signaling.py:105-110 | the corrected rule: an id is removed only while the registry still maps it to the connection that reported the state |
| Signaling.Manager.CloseAll | nova-sonic/api/webrtc_signaling.py:226-232 | every registered connection is closed, and the registry ends empty |
| Signaling.Manager.Deliver | nova-sonic/api/webrtc_signaling.py:122-224 | a data-channel message is one step of the echo rules, with the registered handler types |
| Signaling.RestartThenOldCloses | nova-sonic/api/webrtc_signaling.py:48-56 | as written, after a restart the replaced connection's `closed` event unregisters the new connection |
| Signaling.RestartThenOldClosesGuarded | nova-sonic/api/webrtc_signaling.py:48-56 | with the guarded rule, the restarted connection stays registered under its id |
| AppSimple.Registry.constructor | simple-pipecat-webrtc/api/app_simple.py:40 | the registry starts empty |
| AppSimple.Registry.Offer | simple-pipecat-webrtc/api/app_simple.py:64-69 | a fresh connection is stored under `pc_id`, or under the fresh id when `pc_id` is missing or empty |
| AppSimple.Registry.OnConnectionStateChange | simple-pipecat-webrtc/api/app_simple.py:73-77 | a connection entering failed or closed is removed |
| AppSimple.Registry.Shutdown | simple-pipecat-webrtc/api/app_simple.py:220-227 | every connection is closed and the registry is cleared |
| AppSimple.OnMessage | simple-pipecat-webrtc/api/app_simple.py:89-183 | the simple server's handler is the echo step with no registered handlers |
| S2sEvents.Wrap | nova-sonic/python-server/s2s_events.py:98-239 | every builder's record has the single top-level key `event`, holding exactly one variant |
| S2sEvents.SessionStart | nova-sonic/python-server/s2s_events.py:99-101 | `sessionStart` wraps the given inference config unchanged |
| S2sEvents.PromptStart | nova-sonic/python-server/s2s_events.py:103-120 | `promptStart` carries the prompt name, the text, audio and tool-use output configs, and the tool configuration |
| S2sEvents.ContentStartText | nova-sonic/python-server/s2s_events.py:123-137 | a text `contentStart` has type TEXT, the given role (SYSTEM by default), interactive true, and the given names |
| S2sEvents.TextInput | nova-sonic/python-server/s2s_events.py:140-149 | `textInput` carries the names and the prompt text |
| S2sEvents.ContentEnd | nova-sonic/python-server/s2s_events.py:152-160 | `contentEnd` has exactly the prompt and content names |
| S2sEvents.ContentStartAudio | nova-sonic/python-server/s2s_events.py:163-175 | an audio `contentStart` has type AUDIO, role USER, interactive true, and the audio input config |
| S2sEvents.AudioInput | nova-sonic/python-server/s2s_events.py:178-187 | `audioInput` carries the names and the content |
| S2sEvents.ContentStartTool | nova-sonic/python-server/s2s_events.py:190-208 | a tool `contentStart` has type TOOL, role TOOL, interactive false, and nests the `toolUseId` |
| S2sEvents.TextInputTool | nova-sonic/python-server/s2s_events.py:211-221 | the tool result is a `toolResult` variant, not a `textInput`, with the names and the content |
| S2sEvents.PromptEnd | nova-sonic/python-server/s2s_events.py:224-231 | `promptEnd` has exactly the prompt name |
| S2sEvents.SessionEnd | nova-sonic/python-server/s2s_events.py:234-239 | `sessionEnd` has an empty body |
| S2sEvents.DefaultInferValues | nova-sonic/python-server/s2s_events.py:5-9 | the default inference config is maxTokens 1024, topP 0.95, temperature 0.7 |
| S2sEvents.DefaultAudioInputValues | nova-sonic/python-server/s2s_events.py:41-47 | the default audio input is lpcm at 16000 Hz, 16 bits, 1 channel, base64 |
| S2sEvents.DefaultAudioOutputValues | nova-sonic/python-server/s2s_events.py:48-56 | the default audio output is 24000 Hz with voice tiffany |
| NovaSession.StartEventsShape | simple-pipecat-webrtc/api/app.py:119-208 | a session opens with sessionStart, promptStart, a SYSTEM text contentStart, textInput and contentEnd; all carry one prompt name, and the three text events share one content name |
| NovaSession.AudioTurnCarriesAudio | simple-pipecat-webrtc/api/app.py:214-276 | an audio turn's three events share the prompt and content names, and its `audioInput` text decodes back to the audio |
| NovaSession.AppendPreserves | simple-pipecat-webrtc/api/app.py:102-108 | appending an event with known names keeps the log's prompt and name invariants |
| NovaSession.AppendKeepsAudioNames | simple-pipecat-webrtc/api/app.py:102-108 | an event that is not an audio start keeps audio content names distinct, and keeps the last one |
| NovaSession.AppendAll | simple-pipecat-webrtc/api/app.py:102-108 | the same holds for appending a whole batch of events |
| NovaSession.FreshAudioStart | simple-pipecat-webrtc/api/app.py:214-241 | an audio start under a fresh name keeps every audio turn's content name distinct, and it becomes the current one |
| NovaSession.SimpleNovaSonic.constructor | simple-pipecat-webrtc/api/app.py:70-88 | a new session is inactive, with an empty log, and its prompt, content and audio names are distinct |
| NovaSession.SimpleNovaSonic.StartSession | simple-pipecat-webrtc/api/app.py:119-208 | starting sets `is_active` and appends the five opening events |
| NovaSession.SimpleNovaSonic.StartAudioInput | simple-pipecat-webrtc/api/app.py:217-241 | every audio input takes a name no earlier event used, then emits an AUDIO/USER contentStart under it |
| NovaSession.SimpleNovaSonic.SendAudioChunk | simple-pipecat-webrtc/api/app.py:246-262 | an inactive session emits nothing; an active one emits one audioInput under the current audio name, carrying the base64 of the bytes |
| NovaSession.SimpleNovaSonic.EndAudioInput | simple-pipecat-webrtc/api/app.py:266-276 | the audio contentEnd uses the name of the preceding audio start |
| NovaSession.SimpleNovaSonic.EndSession | simple-pipecat-webrtc/api/app.py:281-307 | an active session emits promptEnd then sessionEnd and becomes inactive; an inactive one emits nothing |
| NovaSession.SimpleNovaSonic.ProcessResponses | simple-pipecat-webrtc/api/app.py:315-374 | the response loop adds to the role, flag, queue and transcript exactly as the loop specification says, and sends no event |
| NovaSession.EndTwice | simple-pipecat-webrtc/api/app.py:281-307 | ending twice emits the closing events at most once |
| NovaResponses.InboundLookup | simple-pipecat-webrtc/api/app.py:327-332 | an inbound event is found under `event` and then under its variant |
| NovaResponses.ContentStartRule | simple-pipecat-webrtc/api/app.py:331-345 | contentStart sets the role; stage SPECULATIVE sets the display flag, any other stage clears it, and missing extra fields leave it alone |
| NovaResponses.TextOutputRule | simple-pipecat-webrtc/api/app.py:346-356 | text is always appended; it is shown as assistant text only for role ASSISTANT with the flag set, and as user text exactly for role USER |
| NovaResponses.AudioOutputRule | simple-pipecat-webrtc/api/app.py:356-362 | incoming audio is decoded and appended, in arrival order, to both the chunk list and the queue |
| NovaResponses.AudioTextRule | simple-pipecat-webrtc/api/app.py:356-362 | any base64 text that decodes is appended as its decoded octets |
| NovaResponses.CompletionEndRule | simple-pipecat-webrtc/api/app.py:363-365 | completionEnd changes no state |
| NovaResponses.FailureReturnsEmpty | simple-pipecat-webrtc/api/app.py:372-374 | a loop that ends in an exception returns `("", [])` |
| NovaResponses.RunOnlyAppends | simple-pipecat-webrtc/api/app.py:346-374 | the loop only ever appends to the text, the audio, the queue and the transcript |
| NovaResponses.HandleAppends | simple-pipecat-webrtc/api/app.py:331-366 | one event only ever appends to them |
| NovaResponses.RunLoop | simple-pipecat-webrtc/api/app.py:315-374 | the loop computes the fold of the event rules over the outputs |
| NovaAudio.StartResets | simple-pipecat-webrtc/api/app.py:452-467 | audio-start resets buffer and metadata, sets receiving, and acknowledges |
| NovaAudio.ChunkStored | simple-pipecat-webrtc/api/app.py:469-485 | while receiving, a chunk updates the buffer by the chunk rules; a well-formed chunk is stored at its index after padding, and a repeated index overwrites |
| NovaAudio.IdleIgnores | simple-pipecat-webrtc/api/app.py:469-486 | chunk and end messages are ignored while not receiving |
| NovaAudio.EndHandsOff | simple-pipecat-webrtc/api/app.py:486-496 | audio-end hands off the buffer and metadata, then resets all three variables |
| NovaAudio.ConcatAppend | simple-pipecat-webrtc/api/app.py:561-563 | joining the queued pieces distributes over concatenation |
| NovaAudio.ResponseChunks | simple-pipecat-webrtc/api/app.py:581-600 | chunk message i carries index i, the total, and octets i*1024 up to the end of that chunk |
| NovaAudio.ResponseBurstRoundTrip | simple-pipecat-webrtc/api/app.py:561-611 | start comes first and end last, chunk i reads back as (i, chunk i), and storing them by index reassembles the full audio |
| NovaAudio.AudioChannel.constructor | simple-pipecat-webrtc/api/app.py:431-434 | a new channel is idle and empty |
| NovaAudio.AudioChannel.OnMessage | simple-pipecat-webrtc/api/app.py:442-501 | one message moves the state by one step of the handler's rules |
| NovaAudio.AudioChannel.ProcessAudio | simple-pipecat-webrtc/api/app.py:503-611 | with no session nothing is sent; a failed conversion sends one error and leaves the session as it was; otherwise the session is started if needed, the audio is sent as one turn, and the queued response is streamed back in chunks |
| NovaAudio.AudioChannel.SendResponse | simple-pipecat-webrtc/api/app.py:561-611 | the response is sent as start, chunks, end |
| NovaAudio.SendTurn | simple-pipecat-webrtc/api/app.py:527-538 | the session is started if it was inactive, then one audio turn is appended under a fresh name |
| NovaAudio.SendAudioTurn | simple-pipecat-webrtc/api/app.py:531-538 | an active session gets one audio start, one audioInput and one audio end |
| WsRouter.RouteAllStep | websocket/python-server/server.py:87-188 | one turn of the loop: the actions so far plus the rest of the loop from the next message |
| WsRouter.WebsocketHandler | websocket/python-server/server.py:87-204 | the handler's actions are those of the routing loop, then the final close of a manager still open |
| WsRouter.BodyUnwrapped | websocket/python-server/server.py:97-99 | a message with a `body` string is routed as the JSON parsed from that body |
| WsRouter.NoEventIgnored | websocket/python-server/server.py:100-101 | a message without `event` is ignored |
| WsRouter.CreatedOnFirstEvent | websocket/python-server/server.py:100-127 | the first event creates the manager, with names from `event.init` defaulting to ""; once a manager exists no event creates another |
| WsRouter.DispatchRules | websocket/python-server/server.py:129-184 | audioInput is queued and not forwarded; init and ping are dropped; sessionEnd is forwarded, then the manager is closed and the loop stops; every other type is forwarded unchanged |
| WsRouter.FailureContinues | websocket/python-server/server.py:185-188 | a message that fails to parse is dropped and the loop goes on |
| WsRouter.SessionEndStops | websocket/python-server/server.py:147-165 | after `sessionEnd` no later message makes any difference |
| WsRouter.DispatchShaped | websocket/python-server/server.py:129-184 | a dispatch keeps the outcome's shape: a stop closes the manager, and a creation only comes first |
| WsRouter.RouteDataShaped | websocket/python-server/server.py:100-184 | so does the routing of one parsed message |
| WsRouter.RoutedMessage | websocket/python-server/server.py:94-99 | a raw message is routed exactly as the JSON it unwraps to |
| WsRouter.MessageShaped | websocket/python-server/server.py:94-188 | the routing of any raw message keeps the same shape |
| WsRouter.CountAppend | websocket/python-server/server.py:100-127 | creations add up over concatenation |
| WsRouter.CountNone | websocket/python-server/server.py:100-127 | a run without creations counts none |
| WsRouter.CountOne | websocket/python-server/server.py:100-127 | a run that can create only first counts at most one |
| WsRouter.AtMostOneManager | websocket/python-server/server.py:100-127 | a whole connection creates the session manager at most once, and never if one already exists |
| WsRouter.Health | websocket/python-server/server.py:29-42 | 200 with the body `{"status": "healthy"}` exactly for `/health` or `/`, and 404 without a body otherwise |
| Config.Load | nova-sonic/python-server/config.py:12-51 | loading succeeds exactly when all eight integer settings (WS_PORT and the sample sizes and channel counts included), HEALTH_PORT and the two floats convert; the token limit, the two sample rates, top-p and temperature are the environment's values converted, or their defaults 1024, 16000, 24000, 0.95 and 0.7 when unset; the credentials are the raw variables |
| Config.BadPortRaises | nova-sonic/python-server/config.py:13 | a non-integer `WS_PORT` makes loading fail although `validate` never looks at it |
| Config.Defaults | nova-sonic/python-server/config.py:20-49 | with no environment: no credentials, 1024 tokens, topP 0.95, temperature 0.7, 16000 and 24000 Hz, and no health port |
| Config.HealthPortRule | nova-sonic/python-server/config.py:14 | `HEALTH_PORT` is none unless its variable is set, and a decimal value reads as that port |
| Config.Validate | nova-sonic/python-server/config.py:87-111 | the validator returns the messages of the failed checks, in check order |
| Config.MessagesDistinct | nova-sonic/python-server/config.py:92-109 | the seven checks have seven different messages |
| Config.FailedIff | nova-sonic/python-server/config.py:87-111 | a check's message is in the list exactly when that check fails |
| Config.NotInFailed | nova-sonic/python-server/config.py:87-111 | a later check's message does not appear among the earlier checks' errors |
| Config.FailedEmpty | nova-sonic/python-server/config.py:87-111 | the list is empty exactly when every check passes |
| Config.ValidateSpec | nova-sonic/python-server/config.py:92-109 | missing keys, tokens ≤ 0, topP or temperature outside (0, 1], and non-positive rates each add their message, and only then; there are no errors exactly when all hold |
| Interview.FirstContaining | daily/server/function_schema.py:298-301 | the first position whose lowered title contains the query, or none when no title does |
| Interview.FirstWithWord | daily/server/function_schema.py:304-308 | the first position whose lowered title contains one of the query's words, or none |
| Interview.MatchOrder | daily/server/function_schema.py:295-313 | the match is by substring, else by word, else the first position; there is no match only when there are no positions |
| Interview.Start | daily/server/function_schema.py:338-339 | the cursor used is always in range |
| Interview.MatchInRange | server/integration/interviewer_api.py:53-68 | a matched index names a position |
| Interview.DailyEmptyQuery | daily/server/function_schema.py:260-268 | an empty query is the "Position parameter is required" error and leaves the cursor unchanged |
| Interview.ServerQuery | server/integration/interviewer_api.py:20-56 | the second lowering changes nothing, and an empty query matches the first position |
| Interview.AnswerRules | server/integration/interviewer_api.py:72-102 | no positions is the "No job positions found in the data" error; a match without questions is an error that keeps the cursor; otherwise the question under the reset cursor is returned, fields defaulting to "", and the cursor advances modulo the count |
| Interview.ScheduleRun | daily/server/function_schema.py:338-345 | from an in-range cursor, m calls hand out the next m questions in order |
| Interview.ScheduleSplit | daily/server/function_schema.py:338-345 | a+b calls are a calls followed by b calls from where they left the cursor |
| Interview.FullCycle | daily/server/function_schema.py:338-345 | one round of `len(questions)` calls asks every question once, in order from the reset cursor, and returns the cursor to where the round began |
| Interview.RoundFrom | server/integration/interviewer_api.py:84-91 | a round from cursor c runs to the end and on from the start up to c |
| Interview.ResetFirst | server/integration/interviewer_api.py:84-85 | the out-of-range reset happens before first use |
| Interview.AnswerFollowsSchedule | server/integration/interviewer_api.py:84-96 | a successful answer is the next entry of the question schedule |
| Interview.QuestionCursor.constructor | server/integration/interviewer_api.py:12 | the global cursor starts at 0 |
| Interview.QuestionCursor.Next | daily/server/function_schema.py:338-345 | the cursor is reset if out of range, the question under it is returned, and it advances modulo the count |
| Interview.FindPosition | daily/server/function_schema.py:295-313 | the two search loops with `break` and the fallback compute the match |
| Interview.Respond | daily/server/function_schema.py:315-356 | the reply and the new cursor are those of the answer rules |
| Interview.DailyGetJobQuestions | daily/server/function_schema.py:254-360 | the Daily bot's tool, empty-query refusal included |
| Interview.ServerGetJobQuestions | server/integration/interviewer_api.py:15-105 | the integration server's tool |
| JobSearch.Project | daily/server/function_schema.py:211-218 | a kept job is projected to six distinct fields, with `title` first and `remote` defaulting to false |
| JobSearch.FilterRaises | daily/server/function_schema.py:208-209 | filtering raises exactly when some job is not a dict, or its title supports no `in` test |
| JobSearch.FilterAppend | daily/server/function_schema.py:207-219 | filtering keeps the original order: the filter of a concatenation is the concatenation of the filters |
| JobSearch.FilterOne | daily/server/function_schema.py:209-219 | a job is kept, projected, exactly when "Data Science" is in its title |
| JobSearch.Clip | daily/server/function_schema.py:223 | a slice bound is clipped to the list length, and an in-range bound is kept |
| JobSearch.ClipWindow | daily/server/function_schema.py:223 | clipping never stretches a window of w beyond w |
| JobSearch.PageSpec | daily/server/function_schema.py:204-223 | a page holds at most 10 jobs, is `filtered[start:start+10]` when `start < total`, and is empty otherwise |
| JobSearch.FetchResult | daily/server/function_schema.py:222-233 | `count` is the page length, at most 10; `total_count` is the filtered total; search term and page are echoed, and the search term never affects the jobs; `from_cache` is true exactly when a cache file was read and did not hold null |
| JobSearch.FetchDataScienceJobs | daily/server/function_schema.py:197-233 | the filtering loop builds the specified result |
| JobSearch.FilterStops | daily/server/function_schema.py:208-209 | once a job raises, the whole filter raises |
| Jobs.ListJobs | server/integration/jobs.py:22-43 | a missing file gives none; otherwise one `{id, title}` per position, in file order; it raises exactly when the file is not a dict, its `positions` cannot be iterated, or some position is not a dict |
| Jobs.FindIndex | server/integration/jobs.py:90-95 | the found position is the first whose stringified id equals the argument; none means no position matches |
| Jobs.InterviewQuestions | server/integration/jobs.py:77-98 | the lookup loop returns the first match's questions (default []), none for no match or no file, and raises where Python would |
| Jobs.IntegerIds | server/integration/jobs.py:92 | an int id is found by its decimal text, and any string that finds it parses back to it |
| Talking.Reverse | server/bot_bedrock_nova.py:49 | the reverse has the same length, element i taken from the other end |
| Talking.MirrorIsPalindrome | server/bot_bedrock_nova.py:49-50 | a sequence followed by its reverse is a palindrome |
| Talking.BuildSprites | server/bot_bedrock_nova.py:40-54 | 50 sprites, frames 1..25 then the same reversed, a palindrome; the quiet frame is the first loaded frame |
| Talking.ReactionRules | daily/server/bot_bedrock_nova.py:73-85 | BotStarted pushes the talking animation only when not talking; BotStopped always pushes the quiet frame; the input frame is always forwarded last in its own direction; other frames change no state |
| Talking.AnimationOncePerTurn | server/bot_bedrock_nova.py:78-81 | without a BotStopped frame, the talking animation is pushed at most once, and never when already talking |
| Talking.TalkingAnimation.constructor | server/bot_bedrock_nova.py:64-66 | a new animation is not talking and has pushed nothing |
| Talking.TalkingAnimation.ProcessFrame | server/bot_bedrock_nova.py:75-87 | each frame pushes exactly the reaction frames and updates the talking flag by the rules |

## Left out

- Network, WebRTC and HTTP plumbing are left out: aiortc, SDP, FastAPI routes, CORS, uvicorn, websockets, the keepalive and forwarding tasks, and sleeps. Connections appear as serial numbers, and messages as sequences of inputs.
- The Bedrock stream is left out. Sent events are appended to an event log, and received outputs are an input sequence. The f-string JSON templates are modelled as typed event records, so their lack of escaping (a quote inside the system prompt) is not modelled.
- Timing is left out. The 0.5 s heuristic that decides when the response audio is complete is a parameter `taken`: the number of queued pieces consumed. While handling one message, `is_active` cannot change from another task.
- Concurrency between the receive loop and the senders is left out. Every operation runs to completion without interleaving.
- WAV encoding, decoding and resampling (audio_utils.py) are left out. Their result is a parameter: converted octets or an error reason.
- The outer "Error processing audio" catch and pydantic's lax coercion are left out. The record parsers are strict: a `"5"` where an int is required is refused rather than coerced.
- A float `chunkIndex` is taken as a real number; a NaN or infinite one, which Python's JSON reader accepts and which makes the padding loop fail or run forever, is not modelled.
- NovaSession.SimpleNovaSonic.StartAudioInput and EndAudioInput require an active session. Before `start_session` there is no stream, and after `end_session` the input stream is closed, so the source's `send_event` raises there; that raising path is not modelled.
- Base64.Decode is strict. Python's `b64decode` also discards non-alphabet characters and accepts non-zero leftover bits in a padded final group (`"QR=="` decodes to `"A"`); the model refuses both.
- Json and Text have no floating-point text and no Unicode case folding. `float()` is a parameter, the `repr` of floats, lists and dicts is a parameter to `str()`, and `lower` folds ASCII letters only.
- `uuid4` is modelled as a counter in the session object, so freshness is structural there. The registries take a caller-supplied string and rely on nothing about it.
- Handler callbacks registered with the signaling manager are not run. Their call is recorded with the message it received.
- For the job tools, file and cache I/O is left out. The question file and the cached and fetched data are inputs. The API request error paths and their messages are not modelled, and nor are the `str(e)` texts of unexpected errors, which become one `Unexpected` reply.
- Text.ParseInt: does not accept the `_` digit separators ("8_081") and the non-ASCII decimal digits that Python's `int()` accepts; such a `HEALTH_PORT` or other integer setting reads as invalid here.
- JobSearch.Fetch takes `page` as an int. A page of another JSON type, which Python would multiply or reject, is not modelled.
- Interview.Answer works on typed positions (title, questions with question and expectation). A position that is an empty dict, which Python treats as "no match" because it is falsy, is not modelled. Nor are an ill-typed question file, a non-string `position` argument, or the missing-file and invalid-JSON errors.
- Talking models frames as values. Images are named by their file paths, and PIL loading and pipecat's frame pushing are not modelled. The TalkingAnimation class is the same in both bot files, so one model stands for both.
- Jobs has no mutable state, so it is modelled as functions and methods at module level.

## Findings

| source | as written | input that shows it | evidently intended | confidence | as-written member | corrected member |
|---|---|---|---|---|---|---|
| nova-sonic/api/webrtc_signaling.py:48-56 | A restart closes the old connection and stores a new one under the same id. But the old connection's state handler still removes that id from the registry, whoever it now maps to. | An offer with `pc_id` "a", then an offer with `pc_id` "a" and `restart_pc` true, then the replaced connection reports "closed". "a" is no longer registered. | Remove the id only while it still maps to the connection that reported the state. With that rule the restarted connection stays registered (see Signaling.RestartThenOldClosesGuarded). | not executed; high that the entry is lost, medium that it was not intended | Signaling.RestartThenOldCloses | Signaling.Manager.OnConnectionStateChangeGuarded |
