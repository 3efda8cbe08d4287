# Speech-to-text relay: a Dafny model of its core

The relay accepts a client WebSocket carrying raw PCM16 audio. It opens one
session per client to a real-time transcription service and forwards the
audio upstream as base64 `input_audio_buffer.append` messages. Every chunk
is stamped with an approximate audio clock. The service's events are
classified into a stable `{type: partial|final, text, ts, event}` vocabulary
and sent back to the client. Four bounded ring logs record recent traffic
for the debug endpoints.

This project models that core and proves properties about it:

- `Buffers` (app/buffers.py): `RingLog` is a class over a circular array. It
  keeps a ghost record of the current contents and of every item ever
  added. A deque with `maxlen` behaves as the last `capacity` items of that
  history.
- `Realtime` (app/realtime.py):
  - `safe_get` is a loop method, proved against the path-following
    function `Follow`.
  - `Session` is a class with the audio clock `audioTimeS`, the connection
    flag `connected` (for `_ws is not None`) and a ghost `outbox` of the
    JSON messages sent.
  - The classification done inside `events()` (`extract_text`, the
    partial/final flags, the timestamps) is a pure function, `Classify`,
    over a decoded JSON value. `Events` is the record stream over a
    sequence of frames.
- `Relay` (app/main.py):
  - The two pumps of `ws_endpoint` are loops over input sequences. Each is
    proved against a specification function (`ClientRun`, `UpstreamRun`).
    Lemmas then relate those functions to the audio, the events and the
    logs.
  - `NewLogPair` creates the four module-level ring logs, two at a time.
- `Config` (app/config.py): `Settings.parsed_origins`.
- Support modules:
  - `Strings`: Python's `str.split`, `str.strip` with `str.isspace`, and
    substring `in`.
  - `Json`: the decoded JSON value of RFC 8259, with Python truthiness,
    `or` and the `in` operator. `Json.Get` is `dict.get(k, default)`; what
    each of its uses reads is stated by the lemmas about those uses.
  - `Base64`: the encoding of section 4 of RFC 4648, with a decoder and a
    proved round trip.
  - `Wrappers`: `Option` and `Result`.

Python semantics that the model keeps:

- An exception becomes a `Failure` value. Classifying a message raises when:
  - the message is not an object (`data.get` fails);
  - its `type` tag does not support `in` (a number, boolean or `null` tag);
  - no primary text field matched and a truthy `audio` member is not an
    object.

  The exception ends the `events()` generator, and with it
  `pump_openai_to_client`. `PumpUpstreamToClient` returns that failure.
- `x in tag` follows Python:
  - substring for a string;
  - element equality for a list;
  - key membership for an object;
  - a `TypeError` otherwise.
- JSON `null` and Python `None` are the same value, `JNull`.
- `deque(maxlen=0)` keeps nothing, so a capacity-0 log stays empty.
- Wall-clock readings (`now_s()`) are carried in the input frames. A client
  binary frame carries the reading taken for it. An upstream frame carries
  the two readings taken before and after the send.

Code and comments disagree in one place, and the model follows the code.
The comment at app/realtime.py:155 suggests that events without timestamp
metadata fall back to the approximate clock. The code instead yields `None`
for them (lines 156-157). `Realtime.ClassifyTimestamps` states the code's
behaviour.

## Model

| member | source | states |
|---|---|---|
| Strings.Split | app/realtime.py:18 | `str.split(sep)` always yields at least one piece |
| Strings.SplitNoSep | app/realtime.py:18 | a string without the separator splits into itself alone |
| Strings.SplitAtFirst | app/realtime.py:18 | splitting `a + sep + b`, with no separator in `a`, gives `a` followed by the pieces of `b` |
| Strings.JoinSplit | app/realtime.py:18 | joining the pieces with the separator gives back the original string |
| Strings.SplitJoin | app/realtime.py:18 | splitting a join of separator-free pieces gives back those pieces |
| Strings.SplitCount | app/config.py:27 | the number of pieces is the number of separators plus one |
| Strings.SplitPiecesFree | app/config.py:27 | no piece contains the separator |
| Strings.LStripSpec | app/config.py:27 | left strip removes exactly the leading whitespace: the result is a suffix, what was removed is whitespace, and the result does not start with whitespace |
| Strings.RStripSpec | app/config.py:27 | right strip removes exactly the trailing whitespace, symmetrically |
| Strings.StripSpec | app/config.py:27 | `strip()` gives a contiguous slice of the input with no whitespace at either end |
| Strings.StripTail | app/config.py:27 | right-stripping a suffix of the input leaves a slice whose removed tail is whitespace |
| Strings.StripEmptyIff | app/config.py:27 | `strip()` is empty exactly when every character is whitespace |
| Strings.IsSubstringIff | app/realtime.py:150-151 | the substring test holds exactly when the pattern occurs at some index |
| Json.Or | app/realtime.py:143-145 | `a or b` is truthy exactly when either is truthy, and it is `a` when `a` is truthy |
| Json.Contains | app/realtime.py:150-151 | Python `in`: it succeeds exactly on strings, lists and objects; substring occurrence, element equality or key membership respectively |
| Json.ContainsAny | app/realtime.py:150-151 | `any(m in tag for m in markers)` raises exactly when the tag is not a container, and is true exactly when some marker is contained |
| Base64.SextetValue | app/realtime.py:12-13 | a decoded alphabet character maps back to itself |
| Base64.SextetRoundTrip | app/realtime.py:12-13 | every 6-bit value survives encoding then decoding |
| Base64.Encode | app/realtime.py:12-13 | the encoding has 4 characters per started group of 3 bytes |
| Base64.GroupRoundTrip | app/realtime.py:12-13 | a full 3-byte group decodes back to its bytes |
| Base64.DecodeEncodeOne | app/realtime.py:12-13 | a 1-byte tail with `==` padding round-trips |
| Base64.DecodeEncodeTwo | app/realtime.py:12-13 | a 2-byte tail with `=` padding round-trips |
| Base64.DecodeGroupThen | app/realtime.py:12-13 | a group followed by a decodable rest decodes to the group's bytes then the rest |
| Base64.DecodeEncodeStep | app/realtime.py:12-13 | the round trip extends from `raw[3..]` to `raw` |
| Base64.DecodeEncode | app/realtime.py:12-13 | decoding the encoding of any byte string gives it back |
| Base64.EncodeInjective | app/realtime.py:12-13 | different chunks never share an encoding |
| Buffers.Window | app/buffers.py:18 | `xs[-n:]`: the last `min(n, len)` items, as a suffix |
| Buffers.WindowAppend | app/buffers.py:10-13 | appending to a bounded window and trimming equals trimming the appended history, so the deque always holds the last `capacity` items added |
| Buffers.WindowOfWindow | app/buffers.py:18 | the last `m` of the last `n` items, for `m <= n`, are the last `m` items |
| Buffers.WindowStep | app/buffers.py:10-13 | adding an item to a bounded window appends it while there is room, and otherwise drops the oldest entry and appends it |
| Buffers.Slot | app/buffers.py:10 | a ring position stays inside the array |
| Buffers.StoredAppend | app/buffers.py:12-13 | writing the next free ring slot stores the window with the item appended |
| Buffers.StoredRotate | app/buffers.py:12-13 | on a full ring, overwriting the oldest slot and advancing the start stores the window without its oldest entry, with the item appended |
| Buffers.RingLog.constructor | app/buffers.py:8-10 | a new log has the given capacity and no entries, so its length is 0 |
| Buffers.RingLog.Add | app/buffers.py:12-13 | the item is added to the history; with room it is appended; when full the oldest entry is dropped and the rest keep their order; capacity 0 keeps nothing; the contents stay the last `capacity` items added |
| Buffers.RingLog.Latest | app/buffers.py:15-18 | `limit <= 0` gives `[]`; otherwise the last `min(limit, len)` entries, oldest first; the log is not changed |
| Buffers.RingLog.Length | app/buffers.py:20-21 | the number of entries, never above `capacity`, equal to `min(items added, capacity)`; the log is not changed |
| Realtime.FollowConcat | app/realtime.py:18-21 | following `a + b` is following `a`, then `b` from there |
| Realtime.SafeGet | app/realtime.py:16-22 | the loop returns the value reached by following every dot-separated key, or `default` as soon as a step meets a non-object or a missing key |
| Realtime.TwoKeyPath | app/realtime.py:18 | a two-key dotted path splits into its two keys |
| Realtime.LookupTwoKeys | app/realtime.py:16-22 | on a two-key path, `safe_get` is member `b` of object member `a`, else the default |
| Realtime.FollowTwoKeys | app/realtime.py:17-22 | following two keys reaches member `b` of object member `a`, and fails when either is not an object member |
| Realtime.StartTimePathKeys | app/realtime.py:156 | the path `audio.start_time_s` splits into the keys `audio` and `start_time_s` |
| Realtime.EndTimePathKeys | app/realtime.py:157 | the path `audio.end_time_s` splits into the keys `audio` and `end_time_s` |
| Realtime.OutputTextPathKeys | app/realtime.py:145 | the path `response.output_text` splits into the keys `response` and `output_text` |
| Realtime.HandshakeMessage | app/realtime.py:64-73 | the handshake is a `session.update` object |
| Realtime.AppendMessage | app/realtime.py:100 | the append message has exactly the keys `type` and `audio`; its `audio` decodes to exactly the chunk's bytes |
| Realtime.AppendMessageInjective | app/realtime.py:100 | two chunks give the same append message only when they are equal |
| Realtime.Duration | app/realtime.py:94-95 | `(len/2)/rate` seconds: duration × rate × 2 = bytes; non-negative at a positive rate; 0 for an empty chunk |
| Realtime.Session.constructor | app/realtime.py:31-46 | a new session keeps its settings, is not connected, has clock 0 and has sent nothing |
| Realtime.Session.Connect | app/realtime.py:55-74 | when the socket opens, the session is connected and the handshake is the one message sent; otherwise nothing changes; the clock is untouched |
| Realtime.Session.Close | app/realtime.py:76-82 | afterwards the session is not connected; an open connection is closed once, and a closed session is left as it is; the clock and the outbox are untouched |
| Realtime.Session.SendAudioChunk | app/realtime.py:89-102 | requires an open connection; returns the old clock and the old clock plus the chunk's duration; the clock becomes the end; exactly one append message for exactly these bytes is sent |
| Realtime.Session.Commit | app/realtime.py:104-106 | exactly one commit message; the clock is unchanged |
| Realtime.Session.Clear | app/realtime.py:108-110 | the clock returns to 0 and exactly one clear message is sent |
| Realtime.FirstText | app/realtime.py:138-141 | the text found is a non-empty string member whose key comes first in `TextKeys` among those holding one; none found means no key holds a non-empty string |
| Realtime.Parsed | app/realtime.py:124-128 | the frames that parsed as JSON, no more of them than frames |
| Realtime.ClassifyFlags | app/realtime.py:150-162 | `final` holds exactly when the tag contains a final marker, `partial` exactly when it contains a partial marker and `final` does not; never both |
| Realtime.ClassifyStringTag | app/realtime.py:150-151 | for a string tag the flags are plain substring occurrences of the markers |
| Realtime.FinalWinsTie | app/realtime.py:150-162 | a tag containing both `.delta` and `.done` is final and not partial |
| Realtime.ClassifyFailsIff | app/realtime.py:130-153 | classification raises exactly for a non-object message, a tag that does not support `in`, or a truthy non-object `audio` reached by the fallback |
| Realtime.ClassifyRecord | app/realtime.py:156-167 | the record's timestamps are `safe_get` of `audio.start_time_s` and `audio.end_time_s`, its event type is the tag and its raw field the message |
| Realtime.ClassifyTimestamps | app/realtime.py:156-157 | `start_s`/`end_s` are the members of the `audio` object or `None`; the audio clock plays no part |
| Realtime.AudioPathLookup | app/realtime.py:156-157 | `safe_get` of the two timestamp paths reads the `audio` object's members |
| Realtime.TextFromFirstField | app/realtime.py:137-141 | when the first non-empty string among the primary keys is at key `j`, that is the text |
| Realtime.TextOnlyTranscriptDelta | app/realtime.py:137-141 | `{"transcript_delta": "he"}` yields "he" |
| Realtime.TextSkipsEmptyField | app/realtime.py:138-141 | an empty `text` is passed over: `{"text": "", "transcript": "hej"}` yields "hej" |
| Realtime.OrChainText | app/realtime.py:143-147 | `c0 or c1 or c2` is a non-empty string exactly when the first truthy candidate is that string |
| Realtime.TextFromFallback | app/realtime.py:142-148 | with no primary text: a truthy non-object `audio` raises; otherwise the text is the first truthy of `audio.transcript`, `transcription`, `response.output_text`, only if it is a non-empty string, and there is none otherwise |
| Realtime.EventsMatchParsed | app/realtime.py:118-167 | one record per frame that parsed, in arrival order, each the classification of its message, up to the first message whose classification raises, with that error |
| Config.StrippedPieces | app/config.py:27 | the comprehension keeps at most one origin per piece |
| Config.StrippedPiecesTrimmed | app/config.py:27 | every kept origin is non-empty with no whitespace at either end |
| Config.ParsedOrigins | app/config.py:18-27 | an empty setting gives exactly the five defaults; otherwise at most one origin more than there are commas, each non-empty and trimmed |
| Config.StrippedPiecesConcat | app/config.py:27 | pieces are handled one by one in order: the origins of `a + b` are those of `a` then those of `b` |
| Config.StrippedPieceSingle | app/config.py:27 | a single piece gives its stripped form when non-blank, nothing when blank |
| Config.AllBlankPieces | app/config.py:27 | blank pieces give no origins |
| Config.SplitPieceChars | app/config.py:27 | every character of a piece comes from the split string |
| Config.OnlyCommasAndSpaces | app/config.py:19-27 | a non-empty setting of only commas and whitespace gives an empty list, not the defaults |
| Config.NoBlankPieces | app/config.py:27 | with no blank piece, every piece is kept, stripped, in its original order |
| Relay.NewLogPair | app/main.py:29-33 | two fresh, empty, well-formed logs sharing no storage, each with capacity `RING_SIZE` (the two chunk logs are one such pair, the two text logs the other) |
| Relay.ClientSocket.SendText | app/main.py:119 | the payload is appended to what the client has received |
| Relay.ControlOf | app/main.py:91-104 | a text frame asks for a reset exactly when it is a JSON object whose `type` is "reset", and for a flush exactly when it is "flush"; anything else is ignored |
| Relay.HandleAudio | app/main.py:85-90 | a binary frame sends one chunk upstream and adds the same entry (reading, byte count, returned interval) to both chunk logs |
| Relay.HandleControl | app/main.py:91-104 | a reset clears the session (clock to 0, one clear message); anything else changes nothing |
| Relay.HandleFrame | app/main.py:83-104 | one client frame moves the session and both chunk logs as `ClientStep` says: audio is sent and logged, a reset clears, anything else changes nothing |
| Relay.AudioStep | app/main.py:85-90 | a binary frame advances the clock by the chunk's duration, sends one append message and logs one entry spanning the old and new clock |
| Relay.ControlStep | app/main.py:91-104 | a reset text frame sends one clear message and sets the clock to 0 without touching the chunk logs; any other text frame changes nothing |
| Relay.PumpClientToUpstream | app/main.py:81-104 | after the frames, the clock, the upstream messages and both chunk logs are those of `ClientRun` on the frames |
| Relay.ChunksFollowAudio | app/main.py:85-90 | one chunk entry per binary frame, in order, with its reading and byte count and spanning its duration; one upstream message per binary frame and per reset |
| Relay.TiledExtend | app/realtime.py:96-98 | a chunk starting at the clock extends the tiled timeline to its end |
| Relay.ChunksTile | app/realtime.py:96-98 | without a reset, the first chunk starts at the initial clock, each chunk starts where the previous one ends, and the clock ends at the last end |
| Relay.TiledElapsed | app/realtime.py:94-98 | on a tiled timeline, each chunk starts after exactly the duration of the chunks before it |
| Relay.StartsAfterPriorAudio | app/realtime.py:94-98 | without a reset, chunk `k` starts at the initial clock plus the duration of all earlier chunks |
| Relay.ClockMonotone | app/realtime.py:94-98 | at a positive rate and without a reset, the clock never decreases and every interval lies between the initial and the final clock |
| Relay.QuietStep | app/main.py:91-104 | after a reset, a frame without audio keeps the clock at 0, logs no chunk and sends at most one clear message; only a further reset changes anything |
| Relay.QuietAfterReset | app/main.py:81-104 | after a reset and any frames without audio (flushes, ignored text, empty frames, further resets), the clock is 0, no chunk was logged, and one clear message was sent followed only by clear messages; exactly one when no further reset came |
| Relay.ResetRestartsClock | app/main.py:81-104 | after a reset, the next chunk spans `[0, d)` for its duration `d` whatever frames without audio come between; it is the one chunk logged since; the messages since are one clear message, then only clear messages (none without a further reset), then its append message |
| Relay.ThreeChunkTimeline | app/realtime.py:94-98 | 3200, 1600 and 3200 bytes at 16 kHz span (0, 0.1), (0.1, 0.15) and (0.15, 0.25) |
| Relay.PayloadOf | app/main.py:108-116 | an event with empty text gives no payload; otherwise the kind is "final" exactly for final events, else "partial", and text, timestamps and event type are copied unchanged |
| Relay.Deliver | app/main.py:118-120 | one `openai_text` entry before the send, the send, and one `front_text` entry after it, all with the same payload |
| Relay.AddBeside | app/main.py:89-90 | adding to one log appends the entry to its history and leaves the other log, which shares no storage with it, well formed |
| Relay.HandleUpstream | app/main.py:107-120 | one classified frame moves the logs and the client as `UpstreamStep` says, and returns its failure |
| Relay.UpstreamStopsAtFailure | app/main.py:107 | once classification has raised, later frames change nothing, whatever the pump would do with them |
| Relay.StepAfterFailure | app/main.py:107 | after the exception no frame changes the trace, whatever the pump would do with it |
| Relay.PumpUpstreamToClient | app/main.py:106-120 | after the frames, the client and both text logs are those of `UpstreamRun`, and the returned failure is its failure |
| Relay.UpstreamMatchesEvents | app/main.py:106-120 | the client receives exactly the payloads of the records with text, in arrival order, and the pump fails exactly when the record stream ends in a failure, with the same error |
| Relay.StepMatchesEvents | app/main.py:107-116 | one more frame keeps the payloads sent equal to those of the records and the failure equal to the stream's |
| Relay.OutcomeMatchesEvents | app/main.py:107-116 | the same for a parsed frame with any classification: a record with text adds its payload, one without adds nothing, an exception ends both |
| Relay.TextLogsFollowDelivery | app/main.py:118-120 | `openai_text` and `front_text` hold one entry per delivered payload, in delivery order, each with that payload |
| Relay.ForwardedNonEmpty | app/main.py:108-109 | no more payloads than records, and every payload sent has non-empty text |
| Relay.ForwardedEvery | app/main.py:108-116 | when every record has text, each record gives the payload at its own position |
| Relay.PayloadKind | app/main.py:112 | for a string tag the payload kind is "final" exactly when the tag contains `.done`, `.completed` or `.final`, and "partial" otherwise |

## Left out

- Network I/O is not modelled: `websockets.connect`, the URL and the auth
  headers, the 16 MB `max_size`, and `recv`/`send`.
  - Sends are appends to a ghost outbox (`Session.outbox`,
    `ClientSocket.sent`).
  - Receives are the input sequences of the pumps.
  - `Session.Connect` takes whether the socket opened as a parameter.
- Concurrency is left out: the two pumps joined by `asyncio.gather`, and
  their cancellation. Each pump is an independent sequential loop over a
  finite input; the end of the input stands for a closed connection.
- `__aenter__`/`__aexit__` are not separate members. They only call
  `connect` and `close`, which are modelled.
- The error teardown of `ws_endpoint` is left out: the error frame, the
  `finally` close, and the swallowed exceptions. It is I/O plumbing.
  Exceptions raised by a send or by `session.clear()` inside the control
  `try` are not modelled either.
- Starlette's handling of a disconnect message from `ws.receive()` is left
  out; a frame with neither bytes nor text is skipped.
- FastAPI routing, CORS middleware, the health, config and debug endpoints,
  and the `Query(ge=1, le=1000)` bounds are framework glue.
- pydantic settings loading and the `settings` singleton are left out.
  `ParsedOrigins` takes `ALLOWED_ORIGINS` as a parameter.
- `now_s()` is a wall-clock reading. Its values are fields of the input
  frames.
- Floating point is not modelled. The clock uses exact `real` arithmetic,
  so no IEEE-754 rounding is claimed.
- `json.loads`/`json.dumps` are not modelled: frames arrive already decoded
  (`None` for text that is not JSON). JSON numbers are reals, and NaN and
  Infinity are not represented.
- Logging calls are left out.
- Realtime.Session.SendAudioChunk: requires an open connection. On a closed
  session the source's `assert self._ws is not None` (app/realtime.py:93)
  fails, and that failing path is not modelled.
- Realtime.Session.Commit: requires an open connection. The assertion in
  `_send_json` (app/realtime.py:85) that fails on a closed session is not
  modelled.
- Realtime.Session.Clear: requires an open connection. On a closed session
  the source sets the clock to 0 before the assertion in `_send_json`
  (app/realtime.py:85, 109-110) fails; that path is not modelled.
- Relay.HandleAudio: requires a non-zero sample rate. A zero `SAMPLE_RATE`
  is not rejected by the settings; the source then raises
  `ZeroDivisionError` in `send_audio_chunk` (app/realtime.py:95) at the
  first audio frame. That failing path is not modelled.
- Relay.HandleFrame: requires a non-zero sample rate, so the zero-rate
  case is excluded for every frame. In the source, text and empty frames
  are still handled at rate 0, including a reset; only an audio frame
  raises.
- Relay.PumpClientToUpstream: requires a non-zero sample rate, and so does
  its specification `ClientRun`. At rate 0 the source forwards control
  commands until the first audio frame raises and ends the pump; the model
  does not state that run.
- Realtime.Session.SendAudioChunk: a zero sample rate, where the source raises
  `ZeroDivisionError`, is excluded by its precondition rather than modelled
  as an error.
- Relay.NewLogPair: a negative `RING_SIZE`, for which `deque` raises,
  is excluded by the `nat` capacity. The chunk pair and the text pair are
  created separately; no pump writes a log of each pair, so storage shared
  across the pairs is not stated.
- The two pump loops never call `Session.Commit`, because the flush branch
  only has the call commented out.
