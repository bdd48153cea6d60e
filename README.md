# AudioCodes Bot API ↔ OpenAI Realtime bridge, modelled in Dafny

This project models the core of `real_time_voice_agent`, a Python server that
speaks the AudioCodes VoiceAI Connect Bot API to a telephony gateway over a
WebSocket and bridges the audio to the OpenAI Realtime API. The model covers:

- the message schemas and their field validators (`message_schemas.dfy`),
  with Python's lenient `base64.b64decode` (`base64.dfy`);
- the conversation registry (`conversation.dfy`);
- the session, user-stream, play-stream and activity handlers
  (`session_handlers.dfy`, `stream_handlers.dfy`, `activity_handlers.dfy`);
- the dispatcher loop of the server (`websocket_manager.dfy`);
- the bridge's three maps and its response pump (`bridge.dfy`);
- the connection bookkeeping of the upstream Realtime client (`realtime_api.dfy`);
- the client-side AudioCodes session guards and listener (`websocket_client.dfy`).

`wrappers.dfy`, `json.dfy` and `transport.dfy` hold what these share: `Option`
and `Result`, raw JSON values with Python's `dict.get`, truthiness and
hashing, and the socket.

**How the world is represented.** A socket (`Transport.Socket`) is a scripted
inbox of frames, a log of what was written, and a set `failing` naming the
write attempts that raise; writes are numbered from 0. Time is an integer
`now` passed in. Connection attempts and upstream send errors of the Realtime
client are scripted the same way (`connectFails`, `sendErrors`). Each
state-changing operation is a method on a class (`ConversationManager`,
`Socket`, `Manager`, `AudiocodesRealtimeBridge`, `RealtimeAudioClient`,
`AudioCodesClient`) whose `ensures` ties its new state to a specification
function of the old state (`InitiateSpec`, `PlayStreamSpec`, `ActivitiesSpec`,
`StepSpec`/`Serve`/`ConnectionSpec`, `PumpSpec`, `ConnectSpec`, `RecvSpec`,
`ListenSpec`, …). The properties the code promises are proved about those
functions as `ensures` clauses and lemmas. Handlers that raise are modelled
with an `Outcome` of `Returned(reply)` or `Raised(error)`.

Where the code and its tests or documentation disagree, the model follows the
code: `session.accepted` carries no `conversationId` and there is no
"Invalid message format" path in `handle_session_initiate`
(app/handlers/session_handlers.py:56, 72-75). The dispatcher passes a
handler's Pydantic reply to `json.dumps`, which raises (see Findings): the
functions `StepSpec`, `Serve` and `ConnectionSpec` take a flag `asWritten`,
and with it set they follow the code as written. The `Manager` class runs them
with the corrected reply write (`asWritten = false`), so it answers
`userStream.start` and `userStream.stop` and goes on.

## Model

| member | source | states |
|---|---|---|
| Base64.ValueOfCharOf | app/handlers/stream_handlers.py:221 | decoding an alphabet character that the encoder emits gives back its 6-bit value |
| Base64.Encode | app/handlers/stream_handlers.py:221 | `b64encode` emits four characters per started group of three bytes |
| Base64.EncodeIsAscii | app/handlers/stream_handlers.py:221 | every character the encoder emits is ASCII, so the decoder's ASCII step accepts it |
| Base64.DecodeQuantum | app/models/message_schemas.py:142 | four encoded characters of a full group decode to its three bytes |
| Base64.DecodeOneByteTail | app/models/message_schemas.py:142 | the padded encoding of a final single byte decodes to that byte |
| Base64.DecodeTwoBytesTail | app/models/message_schemas.py:142 | the padded encoding of two final bytes decodes to those bytes |
| Base64.FirstByte | app/models/message_schemas.py:142 | the bit arithmetic of the first byte of a group is undone by decoding |
| Base64.SecondByte | app/models/message_schemas.py:142 | the bit arithmetic of the second byte of a group is undone by decoding |
| Base64.ThirdByte | app/models/message_schemas.py:142 | the bit arithmetic of the third byte of a group is undone by decoding |
| Base64.DecodeEncodeFrom | app/models/message_schemas.py:142 | decoding an encoding appends exactly the encoded bytes to what was decoded so far |
| Base64.RoundTrip | app/bot/audiocodes_realtime_bridge.py:84 | `b64decode(b64encode(d)) == d` for every byte string |
| Base64.Clean | app/models/message_schemas.py:142 | keeps only alphabet characters and `=` |
| Base64.SkipsForeignChars | app/models/message_schemas.py:142 | with validate=False, characters outside the alphabet other than `=` never change the decoding outcome |
| Base64.UnpaddedOutcome | app/models/message_schemas.py:142 | input without `=` decodes iff its alphabet characters end on a group boundary, and one character left over is an error |
| Base64.NotBase64Rejected | app/models/message_schemas.py:136-147 | `not base64!` keeps nine alphabet characters and fails to decode |
| MessageSchemas.StripEmptyIffAllSpace | app/models/message_schemas.py:61 | `v.strip()` is empty iff every character of `v` is whitespace |
| MessageSchemas.TrimStartEmpty | app/models/message_schemas.py:61 | stripping leading whitespace leaves nothing iff the string is all whitespace, and otherwise leaves a non-space first character |
| MessageSchemas.TrimEndKeepsHead | app/models/message_schemas.py:61 | stripping trailing whitespace keeps a non-space first character |
| MessageSchemas.RemoveChars | app/models/message_schemas.py:68 | the chained `replace` calls leave none of `+`, `-` and space |
| MessageSchemas.ContainsIsSubstring | app/models/message_schemas.py:255 | Python's `in` on two strings holds iff the first occurs as a contiguous block of the second |
| MessageSchemas.ValidateConversationId | app/models/message_schemas.py:31-43 | never rejects and returns the value unchanged; it warns iff a value is given that does not match the UUID pattern |
| MessageSchemas.ValidateBotName | app/models/message_schemas.py:58-63 | rejects iff the name is empty or whitespace only; otherwise returns it unchanged |
| MessageSchemas.ValidateCaller | app/models/message_schemas.py:65-76 | never rejects and returns the value unchanged; it warns iff the value is digits once `+`, `-` and space are removed but does not match the phone pattern |
| MessageSchemas.AnySupportedIff | app/models/message_schemas.py:81 | the `any(...)` scan holds iff some offered format is in the supported list |
| MessageSchemas.ValidateMediaFormats | app/models/message_schemas.py:78-85 | rejects iff the list is empty or offers no format from `raw/lpcm16`, `audio/wav`, `audio/mp3`, `audio/alaw` |
| MessageSchemas.ValidateMediaFormat | app/models/message_schemas.py:108-113 | accepts iff the format is in the supported list |
| MessageSchemas.ValidateAudioChunk | app/models/message_schemas.py:136-147 | accepts iff the chunk is non-empty and lenient base64 decoding succeeds; every rejection carries "Invalid base64 encoded audio data" |
| MessageSchemas.ValidateAlternatives | app/models/message_schemas.py:176-184 | rejects iff the list is empty or some alternative lacks a `text` key |
| MessageSchemas.ValidateEventName | app/models/message_schemas.py:239-249 | never rejects; it warns iff the name is not `start`, `dtmf` or `hangup` |
| MessageSchemas.ValidateEventValue | app/models/message_schemas.py:251-257 | rejects iff the event is `dtmf`, a value is given, and it is not a contiguous substring of `0123456789*#ABCD` |
| MessageSchemas.ValidateActivities | app/models/message_schemas.py:266-271 | rejects iff the activity list is empty |
| MessageSchemas.DtmfCheck | app/models/message_schemas.py:251-257 | accepts, without warning, iff every `dtmf` event that carries a value carries a substring of `0123456789*#ABCD`; otherwise rejects with "Invalid DTMF value" |
| MessageSchemas.FirstReject | app/models/message_schemas.py:31-271 | no rejection is reported iff every field check of the model accepts |
| MessageSchemas.FirstRejectPair | app/models/message_schemas.py:266-271 | two checks pass together iff each passes |
| MessageSchemas.Build | app/models/message_schemas.py:23-285 | constructing a model that succeeds returns the message unchanged |
| MessageSchemas.BuildPlayStreamStart | app/models/message_schemas.py:188-200 | a `playStream.start` model builds iff its format is supported |
| MessageSchemas.BuildEncodedChunk | app/models/message_schemas.py:203-221 | a `playStream.chunk` model whose chunk is the base64 encoding of non-empty audio always builds |
| MessageSchemas.BuildActivities | app/models/message_schemas.py:232-271 | an `activities` model builds iff the list is non-empty and every DTMF value is valid |
| MessageSchemas.ActivitiesChecks | app/models/message_schemas.py:260-271 | an `activities` model builds iff both its list check and its DTMF check pass |
| MessageSchemas.ParseActivityEvent | app/models/message_schemas.py:232-257 | an event parses exactly from a dict of type `event` with a string name, a string or null value, and a value the DTMF rule accepts; the event keeps that name and that value |
| MessageSchemas.ParseActivityEvents | app/models/message_schemas.py:264 | the list parses iff every item parses, item by item in order |
| MessageSchemas.ParseActivities | app/models/message_schemas.py:260-271 | an `activities` message parses exactly when it has type `activities`, a string or null id, and a list whose items all parse and which is not empty; the parsed message keeps the id and the events in order |
| MessageSchemas.ParseIdOnly | app/models/message_schemas.py:23-29 | a message whose only field is its id parses iff its type is the literal and the id is a string or absent |
| MessageSchemas.ParseUserStreamChunk | app/models/message_schemas.py:130-147 | a `userStream.chunk` parses iff its type, id and audio chunk are valid, and then carries exactly those |
| MessageSchemas.MediaFormatExamples | app/models/message_schemas.py:78-113 | `["raw/lpcm16","audio/wav"]` is accepted, `[]` and `["invalid/format"]` are rejected, and every supported format passes the single-format check |
| MessageSchemas.DtmfExamples | app/models/message_schemas.py:251-257 | `5`, `123`, `*#` and the empty string pass as DTMF values, `Z` and `15` fail, a missing value passes, and a `hangup` value is never checked |
| MessageSchemas.NotSubstring | app/models/message_schemas.py:255 | `Z` and `15` are not substrings of `0123456789*#ABCD` |
| MessageSchemas.EncodedChunkAccepted | app/models/message_schemas.py:136-147 | the base64 encoding of non-empty audio passes the chunk validator without warning |
| MessageSchemas.AudioChunkExamples | app/models/message_schemas.py:136-147 | the empty chunk and `not base64!` are rejected, and any encoded non-empty audio is accepted |
| MessageSchemas.BotNameExamples | app/models/message_schemas.py:58-63 | the empty and the whitespace-only name are rejected, `TestBot` is accepted unchanged |
| Conversation.Apply | app/models/conversation.py:40-66 | adding puts exactly `{websocket, media_format}` under the id and adds the id to the keys, overwriting any earlier entry; removing drops the id and is a no-op when it is absent; every other entry is unchanged |
| Conversation.ReplayHoldsLiveIds | app/models/conversation.py:40-75 | after any sequence of adds and removes, an id is registered iff some add of it is followed by no later operation on it, and its entry is the one that last add stored |
| Conversation.Lookup | app/models/conversation.py:56 | `dict.get`: an unhashable id raises; otherwise the entry is present iff the id is registered, and it is the registered entry |
| Conversation.ConversationManager.constructor | app/models/conversation.py:25-27 | the registry starts empty |
| Conversation.ConversationManager.Add | app/models/conversation.py:29-43 | the registry becomes the add applied to the old one; an unhashable id raises and changes nothing |
| Conversation.ConversationManager.Get | app/models/conversation.py:45-56 | None for an absent id, the stored entry for a present one, TypeError for an unhashable one |
| Conversation.ConversationManager.Remove | app/models/conversation.py:58-66 | the registry becomes the remove applied to the old one: the id is absent afterwards, the rest is kept, and an absent id leaves it as it was |
| Conversation.ConversationManager.GetAll | app/models/conversation.py:68-75 | returns exactly the registered ids with their entries |
| SessionHandlers.PyIn | app/handlers/session_handlers.py:54 | Python's `in` on the format value: list membership, substring for a string, key membership for a dict, TypeError for null, booleans and numbers |
| SessionHandlers.InitiateSpec | app/handlers/session_handlers.py:49-78 | accepted iff `raw/lpcm16` is offered (a missing list counts as empty) and the write succeeds; on acceptance exactly one `session.accepted` with `raw/lpcm16` is written and returned, and a truthy id is registered with that format; the registry changes only after that reply has been written, and only for a truthy id; on rejection exactly one `session.error` with the reason "Required media format not supported" is written and the registry is unchanged; at most one message is written in every case |
| SessionHandlers.HandleSessionInitiate | app/handlers/session_handlers.py:21-78 | the registry and the socket end as `InitiateSpec` says, and the outcome is the one it gives |
| SessionHandlers.HandleSessionResume | app/handlers/session_handlers.py:81-108 | always returns `session.accepted` with `raw/lpcm16` and no id; it writes nothing and does not touch the registry |
| SessionHandlers.EndSpec | app/handlers/session_handlers.py:130-143 | writes nothing and returns None; a truthy id is removed (TypeError when it is unhashable), a falsy one leaves the registry unchanged, and no entry is added or altered |
| SessionHandlers.HandleSessionEnd | app/handlers/session_handlers.py:111-143 | the registry ends as `EndSpec` says, and the outcome is the one it gives |
| SessionHandlers.HandleConnectionValidate | app/handlers/session_handlers.py:146-166 | returns `connection.validated` with `success` true for any input |
| StreamHandlers.HandleUserStreamStart | app/handlers/stream_handlers.py:59-75 | returns a `userStream.started` model that carries the input's id exactly when the type is `userStream.start` and the id is a string; a wrong type, or an id that is neither a string nor null, gives a reply without id |
| StreamHandlers.HandleUserStreamChunk | app/handlers/stream_handlers.py:97-122 | returns None for valid and invalid input alike |
| StreamHandlers.HandleUserStreamStop | app/handlers/stream_handlers.py:144-160 | returns a `userStream.stopped` model that carries the input's id exactly when the type is `userStream.stop` and the id is a string; a wrong type, or an id that is neither a string nor null, gives a reply without id |
| StreamHandlers.ChunksConcatenate | app/handlers/stream_handlers.py:163-169 | for a positive size, the chunks concatenate back to the audio |
| StreamHandlers.ChunkCount | app/handlers/stream_handlers.py:165-167 | the chunk count is the ceiling of length over size, and empty audio gives no chunks |
| StreamHandlers.ChunkLengths | app/handlers/stream_handlers.py:165-167 | every chunk but the last has exactly the chunk size, and the last has between 1 and that size |
| StreamHandlers.ChunksNonEmpty | app/handlers/stream_handlers.py:166-167 | no chunk is empty |
| StreamHandlers.ChunksStep | app/handlers/stream_handlers.py:166-167 | the chunks from offset `i` are the slice `[i, i+size)`, cut at the end, followed by the chunks after it |
| StreamHandlers.ChunkAudioData | app/handlers/stream_handlers.py:163-169 | a zero size raises ValueError as `range` does, a negative size gives no chunks, and a positive size gives exactly the chunks of the audio |
| StreamHandlers.SliceAudio | app/handlers/stream_handlers.py:165-167 | the slicing loop builds exactly the chunks of the audio |
| StreamHandlers.ConversationIdArg | app/handlers/stream_handlers.py:177 | the optional id field accepts a string or None and rejects every other value |
| StreamHandlers.StartMessage | app/handlers/stream_handlers.py:202-207 | the start message is built iff the id is a string or None and the format is supported, and it then carries the stream id, format and id given |
| StreamHandlers.ChunkMessages | app/handlers/stream_handlers.py:217-229 | one chunk message per chunk |
| StreamHandlers.ChunkMessagesAt | app/handlers/stream_handlers.py:218-223 | the i-th chunk message carries the i-th chunk base64-encoded, with the call's stream id and conversation id |
| StreamHandlers.Delivered | app/handlers/stream_handlers.py:217-229 | the number of chunk writes that succeed before the first failure never exceeds the number of chunks |
| StreamHandlers.SendChunksLog | app/handlers/stream_handlers.py:217-242 | the chunk loop writes, in order, the messages of the chunks before the first failing write, and the first failure stops the loop after one more attempt |
| StreamHandlers.SendChunksDone | app/handlers/stream_handlers.py:217-242 | with no chunks left, or a failing first write, the loop writes nothing more |
| StreamHandlers.SendChunksStep | app/handlers/stream_handlers.py:217-229 | a successful write of the first chunk leaves the loop to go on with the rest |
| StreamHandlers.SendChunksGrows | app/handlers/stream_handlers.py:217-242 | the chunk loop only appends to what was written |
| StreamHandlers.AllChunksDelivered | app/handlers/stream_handlers.py:217-229 | with no failing write, every chunk message is written in order |
| StreamHandlers.NoFailureDeliversAll | app/handlers/stream_handlers.py:217-229 | with no failing write, every chunk is delivered |
| StreamHandlers.AfterStart | app/handlers/stream_handlers.py:211-249 | the `try`/`finally` part attempts at least the stop write and only appends |
| StreamHandlers.AfterStartStopsLast | app/handlers/stream_handlers.py:241-249 | a failing chunk is swallowed by `except`, the stop is always attempted, the call returns iff that last write succeeds, and the stop is then the last message written |
| StreamHandlers.AfterStartUndisturbed | app/handlers/stream_handlers.py:211-249 | with no failing write, the chunk messages and then the stop are written |
| StreamHandlers.PlayStreamSpec | app/handlers/stream_handlers.py:202-209 | an unsupported format or a bad id raises while the start is built, before anything is written; a failing start write raises and nothing else is attempted |
| StreamHandlers.PlayStreamStartsAndStops | app/handlers/stream_handlers.py:202-249 | once the start is written it is the first new message, the stop is always attempted, the call returns None iff that last write succeeds, and the stop is then the last message; earlier output is kept |
| StreamHandlers.PlayStreamStarted | app/handlers/stream_handlers.py:202-211 | after a successful start write the call goes on with the `try`/`finally` part |
| StreamHandlers.PlayStreamUndisturbed | app/handlers/stream_handlers.py:202-249 | with no failing write, exactly `start`, one chunk per chunk in order, and `stop` are written |
| StreamHandlers.StartedUndisturbed | app/handlers/stream_handlers.py:211-249 | after the start, with no failing write, the written messages are exactly the play-stream sequence |
| StreamHandlers.PlayStreamMessagesCarryAudio | app/handlers/stream_handlers.py:217-229 | decoding the chunk messages of the sequence and concatenating them gives back the audio |
| StreamHandlers.PlayStreamMessagesOneStream | app/handlers/stream_handlers.py:202-247 | every message of the sequence is a play-stream message with the call's stream id and conversation id |
| StreamHandlers.ChunkMessagesCarry | app/handlers/stream_handlers.py:221 | the chunk messages decode and concatenate back to the chunks' concatenation |
| StreamHandlers.CarriedAudioAppend | app/handlers/stream_handlers.py:221 | the audio carried by two message runs is the concatenation of what each carries |
| StreamHandlers.SameStreamCons | app/handlers/stream_handlers.py:202-247 | one message of the stream followed by messages of the stream is still one stream |
| StreamHandlers.AfterStartOneStream | app/handlers/stream_handlers.py:211-249 | whatever writes fail, the `try`/`finally` part writes only chunks and the stop of that one stream |
| StreamHandlers.PlayStreamOneStream | app/handlers/stream_handlers.py:202-249 | whatever writes fail, everything the call writes belongs to its one stream, and nothing is written when the id is invalid |
| StreamHandlers.SendPlayStream | app/handlers/stream_handlers.py:172-249 | the socket and the outcome end as `PlayStreamSpec` says |
| ActivityHandlers.SampleFormat | app/handlers/activity_handlers.py:138-145 | `raw/lpcm16` unless the app's registry holds the conversation, whose stored format is then used; an unhashable id raises only when a registry is looked up |
| ActivityHandlers.PlaySampleSpec | app/handlers/activity_handlers.py:123-168 | nothing is written when the sample file is missing or its audio is empty; otherwise only one play stream, for this conversation and the generated stream id, is written after the earlier output; a non-string id writes nothing |
| ActivityHandlers.PlaySampleAudio | app/handlers/activity_handlers.py:123-168 | the socket ends as `PlaySampleSpec` says; every exception is caught |
| ActivityHandlers.IdValue | app/handlers/activity_handlers.py:68 | the validated id, passed back as a JSON value, is the same optional string |
| ActivityHandlers.PlayStarts | app/handlers/activity_handlers.py:70-100 | the validated loop only appends play streams for the message's conversation |
| ActivityHandlers.PlayStartsStep | app/handlers/activity_handlers.py:70-81 | an event named `start` plays the sample, any other event writes nothing, and the loop goes on with the next activity |
| ActivityHandlers.NoStartNoWrite | app/handlers/activity_handlers.py:83-100 | a validated message without `start` events (only `dtmf`, `hangup` or unknown names) writes nothing |
| ActivityHandlers.PlayStartsUndisturbed | app/handlers/activity_handlers.py:70-100 | with no failing write, the loop writes exactly one whole play stream per `start` event, in activity order |
| ActivityHandlers.PlaySampleUndisturbed | app/handlers/activity_handlers.py:123-164 | with the file present, audio non-empty and no failing write, exactly one play stream of the sample is written |
| ActivityHandlers.ExpectedHere | app/handlers/activity_handlers.py:76-81 | a `start` event accounts for a play stream's length, any other event for nothing |
| ActivityHandlers.ExpectedPlaysStep | app/handlers/activity_handlers.py:70-100 | the expected output is that of the first activity followed by that of the rest |
| ActivityHandlers.ExpectedPlaysCarry | app/handlers/activity_handlers.py:70-100 | the audio carried by the expected output is the sample repeated once per `start` event |
| ActivityHandlers.ExpectedPlaysCarryStep | app/handlers/activity_handlers.py:76-81 | a `start` event contributes the whole sample in front of what the rest carries, any other event nothing |
| ActivityHandlers.RepeatStep | app/handlers/activity_handlers.py:76-81 | the repetition count grows by one exactly for a `start` event |
| ActivityHandlers.FallbackItems | app/handlers/activity_handlers.py:105 | a list is iterated as is, and null, a number or a boolean makes the loop raise |
| ActivityHandlers.FallbackPlays | app/handlers/activity_handlers.py:108-117 | the unvalidated loop keeps earlier output, returns None when it ends normally, only appends play streams for the message's id, and writes nothing for a non-string id; when it plays is stated by `FallbackSilent` and `FallbackAsValidated` |
| ActivityHandlers.FallbackRaisesOnNonDict | app/handlers/activity_handlers.py:108-109 | the unvalidated loop ends normally iff every activity is a dict; the first non-dict raises AttributeError |
| ActivityHandlers.FallbackUnfold | app/handlers/activity_handlers.py:108-117 | a dict activity plays the sample iff it has type `event`, name `start` and the id is truthy, and the loop goes on with the rest |
| ActivityHandlers.FallbackSilent | app/handlers/activity_handlers.py:108-117 | without a truthy id, or without a dict of type `event` and name `start` among the activities, the unvalidated loop writes nothing and attempts no write |
| ActivityHandlers.FallbackAsValidated | app/handlers/activity_handlers.py:108-117 | for a non-empty string id and any failing writes, the unvalidated loop writes exactly what the validated loop writes for the `start` events met before the first activity that is not a dict |
| ActivityHandlers.FallbackEventsStep | app/handlers/activity_handlers.py:108-117 | one dict activity of the unvalidated loop matches one step of the validated loop over its `start` events |
| ActivityHandlers.FallbackUndisturbed | app/handlers/activity_handlers.py:108-117 | with the sample present and no failing write, the unvalidated loop plays the whole sample once per `start` event, in order, and nothing else |
| ActivityHandlers.AllObjectsCons | app/handlers/activity_handlers.py:108-109 | every activity is a dict iff the first is and every later one is |
| ActivityHandlers.FallbackStep | app/handlers/activity_handlers.py:108-117 | one dict activity followed by the rest of the loop keeps the earlier output and writes only play streams for the id |
| ActivityHandlers.PlaysForAppend | app/handlers/activity_handlers.py:108-117 | play streams for one conversation, written one after another, are still play streams for that conversation |
| ActivityHandlers.PlayFallback | app/handlers/activity_handlers.py:108-117 | the socket and the outcome end as `FallbackPlays` says |
| ActivityHandlers.FallbackNext | app/handlers/activity_handlers.py:108-117 | one pass of the unvalidated loop raises iff the activity is not a dict, and otherwise leaves the rest of the loop to produce what the whole loop would |
| ActivityHandlers.PlayValidated | app/handlers/activity_handlers.py:70-100 | the socket ends as `PlayStarts` says |
| ActivityHandlers.ActivitiesSpec | app/handlers/activity_handlers.py:45-120 | the handler returns None, never raises on a message that validates, only appends play streams for the message's own conversation, writes nothing for a non-string id, and, on a message that does not validate, writes nothing at all without a truthy id |
| ActivityHandlers.HandleActivities | app/handlers/activity_handlers.py:45-120 | the socket and the outcome end as `ActivitiesSpec` says |
| ActivityHandlers.ActivitiesFallback | app/handlers/activity_handlers.py:102-117 | a message that does not validate, with a list of activities and a non-empty string id, writes what the validated loop writes for its `start` events, and returns iff every activity is a dict |
| ActivityHandlers.SendActivitiesSpec | app/handlers/activity_handlers.py:171-191 | an empty list or an invalid DTMF value raises before anything is written; otherwise exactly one `activities` message with the given list and id is attempted, and the call returns iff that write succeeds |
| ActivityHandlers.SendActivities | app/handlers/activity_handlers.py:171-191 | the socket and the outcome end as `SendActivitiesSpec` says |
| ActivityHandlers.HangupWritesOne | app/handlers/activity_handlers.py:194-210 | hanging up attempts exactly one write, an `activities` message holding the single `hangup` event |
| ActivityHandlers.HangupCall | app/handlers/activity_handlers.py:194-210 | the socket and the outcome end as sending the one `hangup` event says |
| WebSocketManager.RoutesIncoming | app/websocket_manager.py:61-70 | exactly the eight incoming message types have a handler: session.initiate, session.resume, session.end, userStream.start, userStream.chunk, userStream.stop, activities, connection.validate |
| WebSocketManager.Dispatch | app/websocket_manager.py:112-116 | only the initiate and end handlers change the registry, only the initiate and activities handlers write, and earlier output is kept |
| WebSocketManager.ReplyWriteAsWritten | app/websocket_manager.py:122-127 | as written, a dict reply is written once, no reply writes nothing, and a model reply makes `json.dumps` raise so the loop ends |
| WebSocketManager.ReplyWrite | app/websocket_manager.py:122-127 | as intended, a response is written iff the handler returned one: exactly that message, in one attempt, and the loop goes on iff the write succeeds |
| WebSocketManager.StepSpec | app/websocket_manager.py:93-129 | a frame that is not a JSON dict ends the loop with nothing changed; the id variable follows every dict received; an unhashable type raises and ends the loop; every other type the table does not route (missing, null, a number, an unknown string) is ignored and the loop goes on; a routed handler that raises ends the loop; otherwise the reply is written exactly when it is truthy and the type is not `session.initiate` (whose handler writes its own reply), and the loop goes on iff that write succeeds; `session.end` ends the loop without a response; only `session.initiate` and `session.end` change the registry; earlier output is kept |
| WebSocketManager.Serve | app/websocket_manager.py:93-129 | the loop consumes at most the frames received and only appends to the output |
| WebSocketManager.ServeUnfold | app/websocket_manager.py:93-129 | frames are handled in arrival order, one pass each, until a pass ends the loop |
| WebSocketManager.ServeStep | app/websocket_manager.py:93-129 | the loop from frame `i` is that frame's pass followed, when the loop goes on, by the loop from frame `i+1` |
| WebSocketManager.CleanupSpec | app/websocket_manager.py:133-139 | the `finally` block removes the last received truthy id and leaves the rest of the registry; an unhashable id raises before the close; otherwise the socket is closed once |
| WebSocketManager.ConnectionSpec | app/websocket_manager.py:88-139 | the socket is closed exactly when the cleanup does not raise, and then the last message's truthy id is no longer registered; earlier output is kept |
| WebSocketManager.UserStreamStartEndsConnectionAsWritten | app/websocket_manager.py:122-127 | as written, a `userStream.start` ends the loop with nothing written |
| WebSocketManager.UserStreamStartAnswered | app/websocket_manager.py:122-127 | with the reply serialized, a `userStream.start` is answered with `userStream.started` for its id and the loop goes on |
| WebSocketManager.CallCutShortAsWritten | app/websocket_manager.py:93-139 | as written, a call that sends `session.initiate` then `userStream.start` is cut off after those two frames, whatever follows |
| WebSocketManager.InitiateAccepted | app/websocket_manager.py:112-125 | a `session.initiate` offering `raw/lpcm16` with a string id is accepted, registered, not answered a second time, and the loop goes on |
| WebSocketManager.InitiateDispatched | app/handlers/session_handlers.py:49-69 | that message makes the initiate handler write `session.accepted` once and register the id with `raw/lpcm16` |
| WebSocketManager.InitiateThenEnd | app/websocket_manager.py:88-139 | a call of `session.initiate` then `session.end` writes only the acceptance, leaves the registry empty, and closes the socket once |
| WebSocketManager.Manager.constructor | app/websocket_manager.py:57-70 | the manager starts with an empty registry |
| WebSocketManager.Manager.HandleFrame | app/websocket_manager.py:95-129 | one pass changes the registry and the socket as `StepSpec` says, with the corrected reply write (`asWritten = false`) of the Findings row |
| WebSocketManager.Manager.ServeNext | app/websocket_manager.py:93-129 | receiving and handling one frame advances the loop by exactly the step `Serve` takes, with the corrected reply write (`asWritten = false`) of the Findings row |
| WebSocketManager.Manager.ServeFrames | app/websocket_manager.py:92-129 | the receive loop leaves the registry, the output, the id variable and the frames consumed as `Serve` says, with the corrected reply write (`asWritten = false`) of the Findings row |
| WebSocketManager.Manager.HandleWebsocket | app/websocket_manager.py:72-139 | the whole connection, loop and cleanup, ends as `ConnectionSpec` says, with the corrected reply write (`asWritten = false`) of the Findings row, and the socket is closed once unless the cleanup raises |
| Bridge.Decimal | app/bot/audiocodes_realtime_bridge.py:109 | `str` of an int: a minus sign exactly for a negative number, and for a non-negative one only digits, which denote that number |
| Bridge.ChunksOf | app/bot/audiocodes_realtime_bridge.py:119-124 | one chunk message per received audio |
| Bridge.ChunksAt | app/bot/audiocodes_realtime_bridge.py:119-124 | the i-th chunk message carries the i-th received audio, base64-encoded, with the stream id |
| Bridge.ChunksInStream | app/bot/audiocodes_realtime_bridge.py:119-124 | every chunk message belongs to the stream, without a conversationId |
| Bridge.PumpChunks | app/bot/audiocodes_realtime_bridge.py:115-124 | each taken audio costs one write attempt, what is left of the queue is no longer than it was, and output is only appended |
| Bridge.PumpChunksStep | app/bot/audiocodes_realtime_bridge.py:115-124 | the loop takes the first audio, writes its chunk, and goes on only if that write succeeds |
| Bridge.PumpChunksWrites | app/bot/audiocodes_realtime_bridge.py:115-130 | the loop writes the chunks of the taken audio in receive order, all of them or all but the one whose write failed |
| Bridge.PumpChunksSuffix | app/bot/audiocodes_realtime_bridge.py:115-116 | the audio left in the queue is exactly what the loop did not take, in order |
| Bridge.PumpChunksUndisturbed | app/bot/audiocodes_realtime_bridge.py:115-124 | with no failing write, every queued audio is taken and written as a chunk in order |
| Bridge.PumpBody | app/bot/audiocodes_realtime_bridge.py:104-130 | the `try` part attempts the start and one write per taken audio, and only appends |
| Bridge.PumpBodyOneStream | app/bot/audiocodes_realtime_bridge.py:104-130 | the `try` part writes only messages of the stream, beginning with the start when that write succeeds |
| Bridge.PumpBodyUndisturbed | app/bot/audiocodes_realtime_bridge.py:104-124 | with no failing write, the start and then one chunk per queued audio are written |
| Bridge.PumpSpec | app/bot/audiocodes_realtime_bridge.py:104-140 | the start and the stop are always attempted, no audio is taken when the start write fails, and output is only appended |
| Bridge.PumpSpecSuffix | app/bot/audiocodes_realtime_bridge.py:104-140 | the audio left in the queue is exactly what the pump did not take |
| Bridge.PumpOneStream | app/bot/audiocodes_realtime_bridge.py:104-140 | everything the pump writes belongs to its stream, the start first when it is written and the stop last when it is written |
| Bridge.PumpUndisturbed | app/bot/audiocodes_realtime_bridge.py:104-140 | with no failing write, exactly the start (`raw/lpcm16`), one chunk per audio in receive order, and one stop are written, and the queue is emptied |
| Bridge.PumpFinally | app/bot/audiocodes_realtime_bridge.py:131-140 | the `finally` block writes one stop after whatever the `try` part wrote |
| Bridge.OfStreamAppend | app/bot/audiocodes_realtime_bridge.py:104-140 | two runs of messages of one stream form a run of that stream |
| Bridge.EmitOk | app/bot/audiocodes_realtime_bridge.py:112 | a write that succeeds appends its message |
| Bridge.ChunkCarriesAudio | app/bot/audiocodes_realtime_bridge.py:122 | the chunk message decodes back to exactly the audio it carries |
| Bridge.CallerAudioForwarded | app/bot/audiocodes_realtime_bridge.py:78-87 | the caller's base64 audio, once decoded, is forwarded unchanged and once when the upstream send succeeds, and not at all otherwise |
| Bridge.NewClient | app/bot/audiocodes_realtime_bridge.py:57-58 | a fresh client whose state is the one `connect` leaves |
| Bridge.Pump | app/bot/audiocodes_realtime_bridge.py:104-140 | the socket and the audio queue end as `PumpSpec` says |
| Bridge.PumpLoop | app/bot/audiocodes_realtime_bridge.py:115-130 | the socket and the audio queue end as `PumpChunks` says |
| Bridge.AudiocodesRealtimeBridge.constructor | app/bot/audiocodes_realtime_bridge.py:37-40 | the three maps start empty |
| Bridge.AudiocodesRealtimeBridge.CreateClient | app/bot/audiocodes_realtime_bridge.py:42-68 | without an API key it raises ValueError and changes no map; otherwise the id is in all three maps, with the websocket, stream id 1 and a fresh client in the state `connect` leaves, even when that connect failed; other entries are kept and the maps keep the same keys |
| Bridge.AudiocodesRealtimeBridge.Register | app/bot/audiocodes_realtime_bridge.py:61-63 | the id gets the client, the websocket and stream id 1, and the maps keep the same keys |
| Bridge.AudiocodesRealtimeBridge.SendAudioChunk | app/bot/audiocodes_realtime_bridge.py:70-88 | an unknown id is a no-op; otherwise the call raises iff the chunk does not decode, and a decoded chunk is sent upstream exactly once |
| Bridge.AudiocodesRealtimeBridge.HandleOpenaiResponses | app/bot/audiocodes_realtime_bridge.py:90-140 | without the client or the websocket nothing is written and no audio is taken; otherwise the socket and the queue end as `PumpSpec` says for the stream id's decimal string |
| Bridge.AudiocodesRealtimeBridge.StopStream | app/bot/audiocodes_realtime_bridge.py:142-158 | exactly one stop is attempted iff the websocket and a truthy stream id are present, otherwise nothing is written |
| Bridge.AudiocodesRealtimeBridge.CloseClient | app/bot/audiocodes_realtime_bridge.py:160-173 | the id leaves all three maps and the client it held is closed once; an unknown id, or a second close, changes no client |
| Bridge.AudiocodesRealtimeBridge.Forget | app/bot/audiocodes_realtime_bridge.py:167-169 | the id is removed from the three maps and the maps keep the same keys |
| RealtimeApi.Initial | app/bot/realtime_api.py:25-39 | a new client is inactive, not closing, without a socket, with an empty audio queue and no reconnect attempts |
| RealtimeApi.ConnectSpec | app/bot/realtime_api.py:41-88 | a closing client returns False and changes nothing; otherwise it returns True iff the connection attempt succeeds, which makes it active with attempts reset to 0, last activity `now` and a new receive loop; a failed attempt only marks it inactive; the restored handler is never invoked, because attempts is reset before it is compared with 0; attempts never exceed 5 |
| RealtimeApi.ReconnectSpec | app/bot/realtime_api.py:90-111 | returns False with no change when closing or when 5 attempts were made; otherwise it counts one more attempt, waits 2 × attempts seconds and connects, which on success resets attempts to 0; attempts never exceed 5 |
| RealtimeApi.Repeated | app/bot/realtime_api.py:90-111 | any number of reconnections keeps attempts at most 5 |
| RealtimeApi.FailingReconnects | app/bot/realtime_api.py:97-111 | n failing reconnections wait 2, 4, 6, … seconds in turn and leave attempts at the lesser of its old value plus n and 5 |
| RealtimeApi.RepeatedRefused | app/bot/realtime_api.py:101-103 | once 5 attempts were made, every further reconnection changes nothing |
| RealtimeApi.BackoffSchedule | app/bot/realtime_api.py:16-17 | seven failing reconnections from zero wait 2, 4, 6, 8 and 10 seconds and then stop |
| RealtimeApi.WriteSpec | app/bot/realtime_api.py:133-136 | a write that succeeds delivers the chunk and refreshes last activity; a failing one delivers nothing, and a ConnectionClosedError leaves the socket closed |
| RealtimeApi.SendSpec | app/bot/realtime_api.py:113-150 | an inactive connection returns False and sends nothing; the chunk is delivered exactly once when the call returns True and not at all otherwise; attempts never exceed 5 |
| RealtimeApi.SendUndisturbed | app/bot/realtime_api.py:133-136 | on an open active connection a successful write returns True, delivers the chunk and refreshes last activity |
| RealtimeApi.SendReconnects | app/bot/realtime_api.py:137-143 | a ConnectionClosedError followed by a successful reconnection resends the chunk once and returns True |
| RealtimeApi.Classify | app/bot/realtime_api.py:162-179 | a binary frame is queued unchanged and text that is not JSON is skipped; JSON that is not a dict breaks the loop; a dict of type `error`, of any other type, or a `playStream.chunk` with a falsy `audioChunk` queues nothing; a truthy `audioChunk` that is not a string breaks the loop; a string one queues what it base64-decodes to, and breaks the loop when it does not decode |
| RealtimeApi.RecvSpec | app/bot/realtime_api.py:152-198 | audio is queued in arrival order behind what was queued already; a frame that breaks the loop, or a stream closed with an error, leaves the connection inactive; an error close calls the lost handler and schedules a reconnection unless closing; once the stream has ended the socket is closed, while a frame that breaks the loop leaves it as it was; every frame refreshes last activity |
| RealtimeApi.SendAfterStreamEnd | app/bot/realtime_api.py:127-135 | after OpenAI closes the stream normally, the next send finds the socket closed, waits once, reconnects and then delivers the chunk |
| RealtimeApi.RecvUnfold | app/bot/realtime_api.py:159-179 | the loop handles the first frame, queuing what it classifies as audio, then goes on with the rest, or stops inactive when the frame breaks it |
| RealtimeApi.BinaryAudioQueued | app/bot/realtime_api.py:162-164 | binary frames are queued unchanged, one entry each, in order |
| RealtimeApi.EncodedChunkQueued | app/bot/realtime_api.py:175-177 | a JSON `playStream.chunk` whose `audioChunk` is the encoding of non-empty audio queues exactly that audio |
| RealtimeApi.HeartbeatSpec | app/bot/realtime_api.py:217-244 | nothing happens unless more than 60 seconds passed since the last activity; then a ping that is answered refreshes the activity, and otherwise the connection is marked inactive and a reconnection is scheduled unless closing |
| RealtimeApi.HeartbeatLoop | app/bot/realtime_api.py:217-244 | the heartbeat loop never touches the audio, schedules at most one reconnection and never reactivates the connection |
| RealtimeApi.CloseSpec | app/bot/realtime_api.py:259-275 | closing sets closing and inactive, stops the receive loop and closes the socket, keeping the queue and the sent audio |
| RealtimeApi.ClosedStaysClosed | app/bot/realtime_api.py:48-50 | after close, connect, reconnect and send do nothing and return False, and neither a lost stream nor the heartbeat schedules a reconnection |
| RealtimeApi.RealtimeAudioClient.constructor | app/bot/realtime_api.py:25-39 | the client starts in the initial state |
| RealtimeApi.RealtimeAudioClient.Connect | app/bot/realtime_api.py:41-88 | the fields and the result change as `ConnectSpec` says |
| RealtimeApi.RealtimeAudioClient.Reconnect | app/bot/realtime_api.py:90-111 | the fields and the result change as `ReconnectSpec` says |
| RealtimeApi.RealtimeAudioClient.Write | app/bot/realtime_api.py:133-136 | one write changes the fields as `WriteSpec` says |
| RealtimeApi.RealtimeAudioClient.SendAudioChunk | app/bot/realtime_api.py:113-150 | the fields and the result change as `SendSpec` says |
| RealtimeApi.RealtimeAudioClient.RecvLoop | app/bot/realtime_api.py:152-198 | the fields and the audio queue change as `RecvSpec` says |
| RealtimeApi.RealtimeAudioClient.StreamEnded | app/bot/realtime_api.py:181-194 | the end of the stream closes the socket, and an error close also marks the connection inactive, calls the lost handler and schedules a reconnection unless closing |
| RealtimeApi.RealtimeAudioClient.Take | app/bot/realtime_api.py:159-179 | one received frame refreshes the activity and is queued when it is audio, or breaks the loop and marks the connection inactive |
| RealtimeApi.RealtimeAudioClient.ReceiveAudioChunk | app/bot/realtime_api.py:200-211 | the queue is first-in first-out: the oldest audio is returned and removed |
| RealtimeApi.RealtimeAudioClient.Heartbeat | app/bot/realtime_api.py:213-244 | the fields change as `HeartbeatLoop` says |
| RealtimeApi.RealtimeAudioClient.SetConnectionHandlers | app/bot/realtime_api.py:246-257 | both handlers are replaced by the ones given |
| RealtimeApi.RealtimeAudioClient.Close | app/bot/realtime_api.py:259-275 | the fields change as `CloseSpec` says |
| WebSocketClient.ReplyType | app/services/websocket_client.py:99-102 | the reply's `type` is read from a text or binary frame holding a JSON dict; a closed connection, a frame that is not JSON or JSON that is not a dict raises |
| WebSocketClient.RequestSpec | app/services/websocket_client.py:94-108 | exactly one write of the message is attempted; a reply is read only after it succeeds; the result is True iff that reply is a dict of the expected type, False iff it is a dict of another type, and an error otherwise |
| WebSocketClient.Request | app/services/websocket_client.py:94-108 | the socket and the result end as `RequestSpec` says |
| WebSocketClient.InitiateMessageBuilds | app/services/websocket_client.py:85-92 | the `session.initiate` model the client builds is valid iff the bot name is not blank |
| WebSocketClient.HangupMessageBuilds | app/services/websocket_client.py:208-213 | the hangup `activities` model always builds |
| WebSocketClient.ListenSpec | app/services/websocket_client.py:240-260 | the listener handles at most one message per frame received, text and binary frames alike |
| WebSocketClient.ListenInOrder | app/services/websocket_client.py:241-246 | the handler is called once per message, in arrival order, with the JSON each frame holds |
| WebSocketClient.ListenConsumesAll | app/services/websocket_client.py:240-257 | the server closing the socket ends the loop iff every frame was a dict handled without meeting `session.end` |
| WebSocketClient.ListenEndsAtFirstEnd | app/services/websocket_client.py:246-252 | when the session ends, the last handled message is the first `session.end`, which is handled too, and nothing after it is read |
| WebSocketClient.ListenStopsAtEnd | app/services/websocket_client.py:241-252 | with dicts and then a `session.end`, exactly those messages are handled and the loop stops there |
| WebSocketClient.EndStops | app/services/websocket_client.py:249-252 | a `session.end` is handled and stops the loop |
| WebSocketClient.TextsCons | app/services/websocket_client.py:241-243 | the frames of a message list are the first message's frame followed by the rest |
| WebSocketClient.NoEndTail | app/services/websocket_client.py:249 | a list without `session.end` starts with a dict other than it and goes on without it |
| WebSocketClient.ListenClosed | app/services/websocket_client.py:254-257 | with nothing more to read, the server close ends the loop without a handler call |
| WebSocketClient.ListenUnreadable | app/services/websocket_client.py:242-243 | a frame, text or binary, that does not hold JSON ends the loop before the handler is called |
| WebSocketClient.ListenLast | app/services/websocket_client.py:246-260 | a frame holding `session.end` or a JSON value that is not a dict is handled and then ends the loop |
| WebSocketClient.ListenPassesOn | app/services/websocket_client.py:241-249 | a frame holding a dict other than `session.end` is handled and the loop goes on with the next frame |
| WebSocketClient.ListenBinaryAsText | app/services/websocket_client.py:242-243 | a binary frame holding a message is handled exactly as a text frame holding the same message |
| WebSocketClient.PrependTwice | app/services/websocket_client.py:241-252 | handling two runs of messages one after the other is handling their concatenation |
| WebSocketClient.AudioCodesClient.constructor | app/services/websocket_client.py:36-47 | no websocket, no conversation id, nothing handled |
| WebSocketClient.AudioCodesClient.Connect | app/services/websocket_client.py:49-62 | returns True iff the connection opens, and then holds it |
| WebSocketClient.AudioCodesClient.InitiateSession | app/services/websocket_client.py:64-108 | without a websocket it returns None and writes nothing; otherwise it sets a fresh id, sends `session.initiate` with `raw/lpcm16`, and returns that id iff the reply type is `session.accepted`, clearing the id on any other reply |
| WebSocketClient.AudioCodesClient.StartUserStream | app/services/websocket_client.py:110-139 | without a websocket and an id it returns False and writes nothing; otherwise it sends `userStream.start` and returns True iff the reply type is `userStream.started` |
| WebSocketClient.AudioCodesClient.StopUserStream | app/services/websocket_client.py:168-197 | without a websocket and an id it returns False and writes nothing; otherwise it sends `userStream.stop` and returns True iff the reply type is `userStream.stopped` |
| WebSocketClient.AudioCodesClient.SendAudioChunk | app/services/websocket_client.py:141-165 | a no-op without a session; otherwise exactly one `userStream.chunk` carrying the base64 of the data is attempted |
| WebSocketClient.AudioCodesClient.SendHangup | app/services/websocket_client.py:199-217 | a no-op without a session; otherwise exactly one `activities` message with the single `hangup` event is attempted |
| WebSocketClient.AudioCodesClient.Close | app/services/websocket_client.py:219-227 | with a websocket it closes it once and clears the websocket and the id, writing and reading nothing; without one it changes nothing |
| WebSocketClient.AudioCodesClient.Listen | app/services/websocket_client.py:229-260 | without a connection no handler is called; otherwise the messages are handled as `ListenSpec` says, the client forgets the connection and the id, and it closes the socket once unless the server closed it |
| WebSocketClient.AudioCodesClient.ListenLoop | app/services/websocket_client.py:240-260 | the receive loop handles messages and consumes frames as `ListenSpec` says |
| WebSocketClient.AudioCodesClient.ListenNext | app/services/websocket_client.py:241-252 | one pass of the loop reads one frame and leaves the rest of the loop to do what the whole loop would |

## Left out

- Socket I/O, `asyncio` tasks, `sleep`, `wait_for` timeouts and cancellation: sockets are scripted inboxes and write logs, sleeps are recorded as their delays (`delays`), and a spawned `reconnect()` task is counted (`reconnectTasks`), not run. The handshake `await websocket.accept()` (app/websocket_manager.py:87) is not modelled either: a connection's scripted socket is already accepted.
- WebSocketManager.Manager.HandleFrame, WebSocketManager.Manager.ServeNext, WebSocketManager.Manager.ServeFrames, WebSocketManager.Manager.HandleWebsocket: they run the corrected reply write (`asWritten = false`), so they answer `userStream.start` and `userStream.stop` and go on; the code as written raises a TypeError at app/websocket_manager.py:126 and ends the connection, which only the functions with `asWritten = true` capture.
- Wall-clock time is an integer `now`; the float arithmetic of the timing log lines in `send_play_stream` is logging only.
- The exact JSON text of `.json()` and `json.dumps` (key order, null fields): messages are the `Message` datatype, and a write logs the message.
- `read_wav_file` and the existence check of the sample file: the audio bytes and the file's presence are inputs (`SampleEnv`), and `uuid.uuid4()` ids are inputs too (`SampleEnv.streamId`, `freshId`).
- `websocket.app.conversation_manager` in `play_sample_audio` is an input registry (`SampleEnv.appRegistry`), since the FastAPI application object is not part of this model.
- Logging, and the warnings of the never-rejecting validators, are kept only as the `warned` flag of a check.
- The WebRTC servers, the demo and CLI clients, `debug_utils.py`, `ws_capture.py`, `app/main.py`, `run.py` and `app/models/openai_schemas.py` are not part of this model.
- Bridge.AudiocodesRealtimeBridge.CreateClient: does not start the `_handle_openai_responses` task; the pump is the separate `HandleOpenaiResponses`, run on whatever audio the client has queued.
- Bridge.Pump: the `while True` loop waits forever on an empty `asyncio.Queue`; the model ends the loop when the queue is empty, which is where the task would block until cancelled.
- RealtimeApi.RecvSpec: a frame received is one of binary or text; the `ConnectionClosedOK` and `ConnectionClosedError` ends of `async for` are an input `StreamEnd`, and the lost handler is counted, not run.
- RealtimeApi.RealtimeAudioClient.Connect: the restored handler is counted, not run; it is never invoked, as the code resets the attempt counter before comparing it with 0.
- WebSocketClient.AudioCodesClient.Listen: the handler is a log of the messages handed to it (`handled`); a handler that raises is not modelled.
- WebSocketClient.AudioCodesClient.Connect: the URL and `websockets.connect` are replaced by the connection it gives, or None when it raises.
- Json: numbers are integers only; floats in JSON messages are not modelled.
- MessageSchemas.ValidateCaller: `str.isdigit` is modelled for the ASCII digits only; a caller made of other Unicode digits (such as Arabic-Indic ones) does not warn in the model, because the Unicode digit table is not part of this model.
- Conversation.ConversationManager.GetAll: returns the registry as a value; the source hands out the live dictionary, so a caller's later changes to it would change the registry, which the model does not capture.

## Findings

| source | as written | input that shows it | evidently intended | confidence | as-written member | corrected member |
|---|---|---|---|---|---|---|
| app/websocket_manager.py:122-127 | the reply of a handler is written with `json.dumps(response)`, but `handle_user_stream_start` and `handle_user_stream_stop` return Pydantic models, which `json.dumps` cannot serialize; the TypeError ends the loop and the connection | `session.initiate` offering `raw/lpcm16`, then `userStream.start` with the same id: the `userStream.started` reply is never written and the connection is closed after the second frame | the reply is written as its JSON (`response.json()` for a model) and the loop goes on | not executed | WebSocketManager.UserStreamStartEndsConnectionAsWritten | WebSocketManager.UserStreamStartAnswered |
