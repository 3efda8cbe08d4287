/** The upstream side of the relay: `safe_get`, the session with the
    transcription service (audio clock, connection handle, control messages)
    and the classification of each message the service sends. */
module Realtime {
  import opened Wrappers
  import opened Strings
  import opened Json
  import Base64

  // ---------------------------------------------------------------------
  // safe_get

  /** The value reached from `cur` by following `keys` one object member at a
      time; `None` as soon as a value on the way is not an object or lacks the
      next key. */
  function Follow(cur: Json, keys: seq<string>): Option<Json>
    decreases |keys|
  {
    if keys == [] then Some(cur)
    else if cur.JObject? && keys[0] in cur.fields then Follow(cur.fields[keys[0]], keys[1..])
    else None
  }

  /** Following `a + b` is following `a`, then `b` from where `a` ended. */
  lemma {:induction false} FollowConcat(cur: Json, a: seq<string>, b: seq<string>)
    ensures Follow(cur, a + b) == match Follow(cur, a)
                                  case None => None
                                  case Some(v) => Follow(v, b)
    decreases |a|
  {
    if a == [] {
      assert a + b == b;
    } else {
      assert (a + b)[0] == a[0] && (a + b)[1..] == a[1..] + b;
      if cur.JObject? && a[0] in cur.fields {
        FollowConcat(cur.fields[a[0]], a[1..], b);
      }
    }
  }

  /** `safe_get(d, path, default)` as a value: the dotted path's target, or
      `default`. */
  function Lookup(d: Json, path: string, default: Json): Json
  {
    Follow(d, Split(path, '.')).GetOr(default)
  }

  /** `safe_get`: walks the dot-separated keys of `path`, returning `default`
      as soon as the current value is not an object or lacks the key. */
  method SafeGet(d: Json, path: string, default: Json) returns (r: Json)
    ensures r == Lookup(d, path, default)
  {
    var keys := Split(path, '.');
    var cur := d;
    var i := 0;
    while i < |keys|
      invariant 0 <= i <= |keys|
      invariant Follow(d, keys[..i]) == Some(cur)
    {
      var k := keys[i];
      FollowConcat(d, keys[..i], [k]);
      assert keys[..i + 1] == keys[..i] + [k];
      if !cur.JObject? || k !in cur.fields {
        FollowConcat(d, keys[..i + 1], keys[i + 1..]);
        assert keys[..i + 1] + keys[i + 1..] == keys;
        return default;
      }
      cur := cur.fields[k];
      i := i + 1;
    }
    assert keys[..i] == keys;
    r := cur;
  }

  /** The two-key paths the classifier reads split into their two keys. */
  lemma {:induction false} TwoKeyPath(a: string, b: string)
    requires '.' !in a && '.' !in b
    ensures Split(a + "." + b, '.') == [a, b]
  {
    assert a + "." + b == a + ['.'] + b;
    SplitAtFirst(a, '.', b);
    SplitNoSep(b, '.');
  }

  /** On a two-key path, `safe_get` is the member `b` of the object member `a`,
      or `default`. */
  lemma {:induction false} LookupTwoKeys(d: Json, a: string, b: string, default: Json)
    requires '.' !in a && '.' !in b
    ensures Lookup(d, a + "." + b, default)
            == if d.JObject? && a in d.fields && d.fields[a].JObject? && b in d.fields[a].fields
               then d.fields[a].fields[b] else default
  {
    TwoKeyPath(a, b);
    FollowTwoKeys(d, a, b);
  }

  lemma FollowTwoKeys(d: Json, a: string, b: string)
    ensures Follow(d, [a, b])
            == if d.JObject? && a in d.fields && d.fields[a].JObject? && b in d.fields[a].fields
               then Some(d.fields[a].fields[b]) else None
  {
    assert [a, b][0] == a && [a, b][1..] == [b];
    assert [b][0] == b && [b][1..] == [];
    if d.JObject? && a in d.fields {
      var v := d.fields[a];
      assert Follow(d, [a, b]) == Follow(v, [b]);
      if v.JObject? && b in v.fields {
        assert Follow(v, [b]) == Follow(v.fields[b], []);
      }
    }
  }

  // ---------------------------------------------------------------------
  // Messages sent upstream

  /** The `session.update` handshake sent right after connecting: PCM16 input
      at the session's sample rate, the transcription model and language,
      server-side voice activity detection with the configured silence, and
      text-only output. */
  function HandshakeMessage(model: string, language: string, sampleRate: int, silenceMs: int): (m: Json)
    ensures m.JObject? && "type" in m.fields && m.fields["type"] == JString("session.update")
  {
    JObject(map[
      "type" := JString("session.update"),
      "session" := JObject(map[
        "input_audio_format" := JObject(map["format" := JString("pcm16"),
                                        "sample_rate_hz" := JNumber(sampleRate as real)]),
        "input_audio_transcription" := JObject(map["model" := JString(model),
                                               "language" := JString(language)]),
        "turn_detection" := JObject(map["type" := JString("server_vad"),
                                    "silence_duration_ms" := JNumber(silenceMs as real)]),
        "modalities" := JArray([JString("text")])])])
  }

  /** `input_audio_buffer.append` carrying the base64 text of the chunk; the
      text decodes to exactly the chunk's bytes. */
  function AppendMessage(raw: seq<Base64.byte>): (m: Json)
    ensures m.JObject? && m.fields.Keys == {"type", "audio"}
    ensures m.fields["type"] == JString("input_audio_buffer.append")
    ensures m.fields["audio"].JString? && Base64.Decode(m.fields["audio"].s) == Some(raw)
  {
    Base64.DecodeEncode(raw);
    JObject(map["type" := JString("input_audio_buffer.append"), "audio" := JString(Base64.Encode(raw))])
  }

  function CommitMessage(): Json
  {
    JObject(map["type" := JString("input_audio_buffer.commit")])
  }

  function ClearMessage(): Json
  {
    JObject(map["type" := JString("input_audio_buffer.clear")])
  }

  /** Two chunks produce the same append message only when they are the same
      chunk. */
  lemma AppendMessageInjective(a: seq<Base64.byte>, b: seq<Base64.byte>)
    requires AppendMessage(a) == AppendMessage(b)
    ensures a == b
  {
    assert AppendMessage(a).fields["audio"] == AppendMessage(b).fields["audio"];
    Base64.EncodeInjective(a, b);
  }

  // ---------------------------------------------------------------------
  // The audio clock

  /** Seconds of 16-bit mono audio in `byteLength` bytes at `sampleRate`:
      `(len / 2.0) / float(sample_rate)`, in exact arithmetic. */
  function Duration(byteLength: nat, sampleRate: int): (d: real)
    requires sampleRate != 0
    ensures d * (sampleRate as real) * 2.0 == byteLength as real
    ensures sampleRate > 0 ==> d >= 0.0
    ensures byteLength == 0 ==> d == 0.0
  {
    (byteLength as real / 2.0) / (sampleRate as real)
  }

  /** `OpenAIRealtimeSession`: one connection to the transcription service.
      `connected` stands for `self._ws is not None`; the messages written to
      the socket are collected in `outbox`. */
  class Session {
    const apiKey: string
    const model: string
    const language: string
    const sampleRate: int
    const serverVadSilenceMs: int

    var connected: bool
    /** `_audio_time_s`: seconds of audio sent since the start or the last clear. */
    var audioTimeS: real
    /** Every JSON message sent on the connection, in order. */
    ghost var outbox: seq<Json>
    /** How many times an open connection was actually closed. */
    ghost var transportCloses: nat

    constructor (apiKey: string, model: string, language: string, sampleRate: int, serverVadSilenceMs: int)
      ensures this.apiKey == apiKey && this.model == model && this.language == language
      ensures this.sampleRate == sampleRate && this.serverVadSilenceMs == serverVadSilenceMs
      ensures !connected && audioTimeS == 0.0 && outbox == [] && transportCloses == 0
    {
      this.apiKey, this.model, this.language := apiKey, model, language;
      this.sampleRate, this.serverVadSilenceMs := sampleRate, serverVadSilenceMs;
      connected := false;
      audioTimeS := 0.0;
      outbox := [];
      transportCloses := 0;
    }

    /** `connect()`: `transportUp` is whether the socket could be opened. When
        it could not, the error propagates and nothing changes; otherwise the
        handshake is the next message sent. */
    method Connect(transportUp: bool) returns (ok: bool)
      modifies this
      ensures ok == transportUp
      ensures ok ==> connected && outbox == old(outbox) + [HandshakeMessage(model, language, sampleRate, serverVadSilenceMs)]
      ensures !ok ==> connected == old(connected) && outbox == old(outbox)
      ensures audioTimeS == old(audioTimeS) && transportCloses == old(transportCloses)
    {
      if !transportUp {
        return false;
      }
      connected := true;
      outbox := outbox + [HandshakeMessage(model, language, sampleRate, serverVadSilenceMs)];
      return true;
    }

    /** `close()`: closes an open connection (errors while closing are
        swallowed) and drops the handle; on a closed session it does nothing. */
    method Close()
      modifies this
      ensures !connected
      ensures transportCloses == old(transportCloses) + (if old(connected) then 1 else 0)
      ensures outbox == old(outbox) && audioTimeS == old(audioTimeS)
    {
      if connected {
        transportCloses := transportCloses + 1;
        connected := false;
      }
    }

    /** `send_audio_chunk(raw)`: returns `(start, end)` with `start` the clock
        before the call and `end` the clock after it, advanced by the chunk's
        duration, and sends one append message with exactly these bytes. The
        source asserts an open connection; a zero sample rate would raise
        ZeroDivisionError. */
    method SendAudioChunk(raw: seq<Base64.byte>) returns (startS: real, endS: real)
      requires connected && sampleRate != 0
      modifies this
      ensures startS == old(audioTimeS) && endS == startS + Duration(|raw|, sampleRate)
      ensures audioTimeS == endS
      ensures outbox == old(outbox) + [AppendMessage(raw)]
      ensures connected && transportCloses == old(transportCloses)
    {
      // n_samples / float(sample_rate)
      var durS := Duration(|raw|, sampleRate);
      startS := audioTimeS;
      endS := startS + durS;
      audioTimeS := endS;
      outbox := outbox + [AppendMessage(raw)];
    }

    /** `commit()`: one commit message; the clock is untouched. */
    method Commit()
      requires connected
      modifies this
      ensures outbox == old(outbox) + [CommitMessage()]
      ensures audioTimeS == old(audioTimeS) && connected && transportCloses == old(transportCloses)
    {
      outbox := outbox + [CommitMessage()];
    }

    /** `clear()`: the clock goes back to 0 and one clear message is sent. */
    method Clear()
      requires connected
      modifies this
      ensures audioTimeS == 0.0
      ensures outbox == old(outbox) + [ClearMessage()]
      ensures connected && transportCloses == old(transportCloses)
    {
      audioTimeS := 0.0;
      outbox := outbox + [ClearMessage()];
    }
  }

  // ---------------------------------------------------------------------
  // Classification of upstream messages

  const PartialMarkers: seq<string> := [".delta", ".partial"]
  const FinalMarkers: seq<string> := [".done", ".completed", ".final"]
  const TextKeys: seq<string> := ["text", "text_delta", "transcript", "transcript_delta"]
  const StartTimePath: string := "audio.start_time_s"
  const EndTimePath: string := "audio.end_time_s"
  const OutputTextPath: string := "response.output_text"

  /** The same three paths, split at their dots (the `*PathKeys` lemmas below
      show that `safe_get` splits them into exactly these keys). */
  const StartTimeKeys: seq<string> := ["audio", "start_time_s"]
  const EndTimeKeys: seq<string> := ["audio", "end_time_s"]
  const OutputTextKeys: seq<string> := ["response", "output_text"]

  lemma StartTimePathKeys()
    ensures Split(StartTimePath, '.') == StartTimeKeys
  {
    assert StartTimePath == "audio" + "." + "start_time_s";
    TwoKeyPath("audio", "start_time_s");
  }

  lemma EndTimePathKeys()
    ensures Split(EndTimePath, '.') == EndTimeKeys
  {
    assert EndTimePath == "audio" + "." + "end_time_s";
    TwoKeyPath("audio", "end_time_s");
  }

  lemma OutputTextPathKeys()
    ensures Split(OutputTextPath, '.') == OutputTextKeys
  {
    assert OutputTextPath == "response" + "." + "output_text";
    TwoKeyPath("response", "output_text");
  }

  /** Why classifying a decoded message raises in the source: the message is
      not a dict (`data.get` fails), its type tag does not support `in`, or its
      truthy `audio` member is not a dict (`.get` on it fails). */
  datatype ClassifyError = NotAnObject | TagNotSearchable | AudioNotAnObject

  /** The record yielded by `events()` for one message. */
  datatype TranscriptEvent = TranscriptEvent(
    eventType: Json, partial: bool, final: bool, text: string,
    startS: Json, endS: Json, raw: Json)

  /** The first of `keys` whose member is a non-empty string, as the loop at
      the head of `extract_text` finds it. */
  function FirstText(d: map<string, Json>, keys: seq<string>): (r: Option<string>)
    ensures r.Some? ==> exists j :: 0 <= j < |keys| && keys[j] in d && d[keys[j]] == JString(r.value)
                                    && r.value != ""
                                    && forall j' :: 0 <= j' < j ==> !IsNonEmptyString(Get(d, keys[j'], JNull))
    ensures r.None? ==> forall j :: 0 <= j < |keys| ==> !IsNonEmptyString(Get(d, keys[j], JNull))
    decreases |keys|
  {
    if keys == [] then None
    else
      var v := Get(d, keys[0], JNull);
      if IsNonEmptyString(v) then Some(v.s)
      else
        var rest := FirstText(d, keys[1..]);
        assert forall j :: 1 <= j < |keys| ==> keys[j] == keys[1..][j - 1];
        rest
  }

  /** The nested fallback of `extract_text`:
      `(d.get("audio") or {}).get("transcript") or d.get("transcription")
       or safe_get(d, "response.output_text")`. */
  function FallbackValue(d: map<string, Json>): Result<Json, ClassifyError>
  {
    var holder := Or(Get(d, "audio", JNull), JObject(map[]));
    if !holder.JObject? then Failure(AudioNotAnObject)
    else Success(Or(Or(Get(holder.fields, "transcript", JNull), Get(d, "transcription", JNull)),
                    Follow(JObject(d), OutputTextKeys).GetOr(JNull)))
  }

  /** `extract_text(d)`: `None` stands for Python's `None`. */
  function ExtractText(d: map<string, Json>): Result<Option<string>, ClassifyError>
  {
    match FirstText(d, TextKeys)
    case Some(t) => Success(Some(t))
    case None =>
      match FallbackValue(d)
      case Failure(e) => Failure(e)
      case Success(v) => if IsNonEmptyString(v) then Success(Some(v.s)) else Success(None)
  }

  /** The record for one decoded message, or the exception that classifying
      it raises. */
  function Classify(data: Json): Result<TranscriptEvent, ClassifyError>
  {
    if !data.JObject? then Failure(NotAnObject)
    else
      var tag := Tag(data.fields);
      match (ContainsAny(tag, PartialMarkers), ContainsAny(tag, FinalMarkers))
      case (Success(isPartial), Success(isFinal)) =>
        (match ExtractText(data.fields)
         case Failure(e) => Failure(e)
         case Success(t) =>
           Success(TranscriptEvent(
             tag, isPartial && !isFinal, isFinal, t.GetOr(""),
             Follow(data, StartTimeKeys).GetOr(JNull),
             Follow(data, EndTimeKeys).GetOr(JNull),
             data)))
      case _ => Failure(TagNotSearchable)
  }

  /** The event sequence: one record per message that parsed as JSON (`None`
      marks a frame that did not), in arrival order, ending at the first
      message whose classification raises. */
  datatype EventStream = EventStream(events: seq<TranscriptEvent>, failure: Option<ClassifyError>)

  function Events(frames: seq<Option<Json>>): EventStream
    decreases |frames|
  {
    if frames == [] then EventStream([], None)
    else EventsStep(Events(frames[..|frames| - 1]), frames[|frames| - 1])
  }

  /** The stream after one more frame. */
  function EventsStep(prev: EventStream, last: Option<Json>): EventStream
  {
    if prev.failure.Some? || last.None? then prev
    else Recorded(prev, Classify(last.value))
  }

  /** The stream after a parsed frame classified as `c`: one more record, or
      the exception that ends the stream. */
  function Recorded(prev: EventStream, c: Result<TranscriptEvent, ClassifyError>): EventStream
  {
    match c
    case Success(e) => EventStream(prev.events + [e], None)
    case Failure(err) => EventStream(prev.events, Some(err))
  }

  /** The frames that parsed as JSON, in order. */
  function Parsed(frames: seq<Option<Json>>): (r: seq<Json>)
    ensures |r| <= |frames|
    decreases |frames|
  {
    if frames == [] then []
    else
      var prev := Parsed(frames[..|frames| - 1]);
      var last := frames[|frames| - 1];
      if last.Some? then prev + [last.value] else prev
  }

  /** The type tag a message is classified by: `data.get("type", "")`. */
  function Tag(d: map<string, Json>): Json
  {
    Get(d, "type", JString(""))
  }

  /** `final` holds exactly when the tag contains one of the final markers,
      `partial` exactly when it contains a partial marker and `final` does not
      hold; so the two never hold together and finality wins. */
  lemma ClassifyFlags(data: Json)
    requires Classify(data).Success?
    ensures data.JObject?
    ensures var e := Classify(data).value;
            && (e.final <==> exists j :: 0 <= j < |FinalMarkers| && Contains(Tag(data.fields), FinalMarkers[j]) == Success(true))
            && (e.partial <==> !e.final && exists j :: 0 <= j < |PartialMarkers| && Contains(Tag(data.fields), PartialMarkers[j]) == Success(true))
            && !(e.partial && e.final)
  {
  }

  /** For a string tag the flags are plain substring tests. */
  lemma ClassifyStringTag(data: Json, tag: string)
    requires data.JObject? && Tag(data.fields) == JString(tag)
    requires Classify(data).Success?
    ensures Classify(data).value.final <==>
            exists j, i :: 0 <= j < |FinalMarkers| && OccursAt(FinalMarkers[j], tag, i)
    ensures Classify(data).value.partial <==>
            !Classify(data).value.final && exists j, i :: 0 <= j < |PartialMarkers| && OccursAt(PartialMarkers[j], tag, i)
  {
    ClassifyFlags(data);
    var e := Classify(data).value;
    if e.final {
      var j :| 0 <= j < |FinalMarkers| && Contains(Tag(data.fields), FinalMarkers[j]) == Success(true);
      var i :| OccursAt(FinalMarkers[j], tag, i);
    }
    if exists j, i :: 0 <= j < |FinalMarkers| && OccursAt(FinalMarkers[j], tag, i) {
      var j, i :| 0 <= j < |FinalMarkers| && OccursAt(FinalMarkers[j], tag, i);
      assert Contains(Tag(data.fields), FinalMarkers[j]) == Success(true);
    }
    if e.partial {
      var j :| 0 <= j < |PartialMarkers| && Contains(Tag(data.fields), PartialMarkers[j]) == Success(true);
      var i :| OccursAt(PartialMarkers[j], tag, i);
    }
    if !e.final && exists j, i :: 0 <= j < |PartialMarkers| && OccursAt(PartialMarkers[j], tag, i) {
      var j, i :| 0 <= j < |PartialMarkers| && OccursAt(PartialMarkers[j], tag, i);
      assert Contains(Tag(data.fields), PartialMarkers[j]) == Success(true);
    }
  }

  /** A tag carrying both a partial and a final marker is final only. */
  lemma FinalWinsTie(data: Json, tag: string)
    requires data.JObject? && Tag(data.fields) == JString(tag)
    requires Classify(data).Success?
    requires exists i :: OccursAt(".delta", tag, i)
    requires exists i :: OccursAt(".done", tag, i)
    ensures Classify(data).value.final && !Classify(data).value.partial
  {
    ClassifyStringTag(data, tag);
    var i :| OccursAt(".done", tag, i);
    assert OccursAt(FinalMarkers[0], tag, i);
  }

  /** Classification fails exactly when the message is not an object, its tag
      does not support `in`, or no primary text field matched and a truthy
      `audio` member is not an object. */
  lemma {:induction false} ClassifyFailsIff(data: Json)
    ensures Classify(data).Failure? <==>
            || !data.JObject?
            || !(Tag(data.fields).JString? || Tag(data.fields).JArray? || Tag(data.fields).JObject?)
            || (FirstText(data.fields, TextKeys).None?
                && Truthy(Get(data.fields, "audio", JNull)) && !Get(data.fields, "audio", JNull).JObject?)
  {
    if data.JObject? {
      var tag := Tag(data.fields);
      assert |PartialMarkers| > 0 && |FinalMarkers| > 0;
      if FirstText(data.fields, TextKeys).None? {
        var audio := Get(data.fields, "audio", JNull);
        assert FallbackValue(data.fields).Failure? <==> Truthy(audio) && !audio.JObject?;
      }
    }
  }

  /** The fields of a record, read back from the message. */
  lemma ClassifyRecord(data: Json)
    requires Classify(data).Success?
    ensures data.JObject?
    ensures var e := Classify(data).value;
            && e.startS == Lookup(data, StartTimePath, JNull)
            && e.endS == Lookup(data, EndTimePath, JNull)
            && e.raw == data && e.eventType == Tag(data.fields)
  {
    StartTimePathKeys();
    EndTimePathKeys();
  }

  /** The `audio` member of a message, `None` when absent. */
  function AudioMember(data: Json): Json
  {
    if data.JObject? && "audio" in data.fields then data.fields["audio"] else JNull
  }

  /** `start_s` and `end_s` are the message's own `audio.start_time_s` and
      `audio.end_time_s`, or `None`; the audio clock plays no part. */
  lemma ClassifyTimestamps(data: Json)
    requires Classify(data).Success?
    ensures var e := Classify(data).value;
            var audio := AudioMember(data);
            && e.startS == (if audio.JObject? && "start_time_s" in audio.fields then audio.fields["start_time_s"] else JNull)
            && e.endS == (if audio.JObject? && "end_time_s" in audio.fields then audio.fields["end_time_s"] else JNull)
  {
    ClassifyRecord(data);
    AudioPathLookup(data);
  }

  lemma AudioPathLookup(data: Json)
    ensures var audio := AudioMember(data);
            && Lookup(data, StartTimePath, JNull)
               == (if audio.JObject? && "start_time_s" in audio.fields then audio.fields["start_time_s"] else JNull)
            && Lookup(data, EndTimePath, JNull)
               == (if audio.JObject? && "end_time_s" in audio.fields then audio.fields["end_time_s"] else JNull)
  {
    StartTimePathKeys();
    FollowTwoKeys(data, "audio", "start_time_s");
    EndTimePathKeys();
    FollowTwoKeys(data, "audio", "end_time_s");
  }

  /** The first of `text`, `text_delta`, `transcript`, `transcript_delta` that
      holds a non-empty string is the text. */
  lemma {:induction false} TextFromFirstField(d: map<string, Json>, j: nat, t: string)
    requires j < |TextKeys| && TextKeys[j] in d && d[TextKeys[j]] == JString(t) && t != ""
    requires forall j' :: 0 <= j' < j ==> !IsNonEmptyString(Get(d, TextKeys[j'], JNull))
    ensures ExtractText(d) == Success(Some(t))
  {
    var r := FirstText(d, TextKeys);
    if r.Some? {
      var k :| 0 <= k < |TextKeys| && TextKeys[k] in d && d[TextKeys[k]] == JString(r.value)
               && r.value != ""
               && forall j' :: 0 <= j' < k ==> !IsNonEmptyString(Get(d, TextKeys[j'], JNull));
      assert IsNonEmptyString(Get(d, TextKeys[k], JNull));
      assert IsNonEmptyString(Get(d, TextKeys[j], JNull));
    }
  }

  /** `{"transcript_delta": "he"}` yields "he". */
  lemma TextOnlyTranscriptDelta()
    ensures ExtractText(map["transcript_delta" := JString("he")]) == Success(Some("he"))
  {
    var d := map["transcript_delta" := JString("he")];
    assert forall j' :: 0 <= j' < 3 ==> TextKeys[j'] !in d;
    TextFromFirstField(d, 3, "he");
  }

  /** `{"text": "", "transcript": "hej"}`: the empty higher-priority field is
      passed over and "hej" is the text. */
  lemma TextSkipsEmptyField()
    ensures ExtractText(map["text" := JString(""), "transcript" := JString("hej")]) == Success(Some("hej"))
  {
    var d := map["text" := JString(""), "transcript" := JString("hej")];
    assert TextKeys[1] !in d;
    TextFromFirstField(d, 2, "hej");
  }

  /** The fallback candidates, in the order `or` tries them. */
  function FallbackCandidates(d: map<string, Json>, holder: map<string, Json>): seq<Json>
  {
    [Get(holder, "transcript", JNull), Get(d, "transcription", JNull),
     Follow(JObject(d), OutputTextKeys).GetOr(JNull)]
  }

  /** `c0 or c1 or c2` is a non-empty string `t` exactly when the first truthy
      candidate is that string. */
  lemma OrChainText(c: seq<Json>, t: string)
    requires |c| == 3
    ensures Or(Or(c[0], c[1]), c[2]) == JString(t) && t != "" <==>
            exists j :: 0 <= j < 3 && c[j] == JString(t) && t != "" && forall j' :: 0 <= j' < j ==> !Truthy(c[j'])
  {
    if exists j :: 0 <= j < 3 && c[j] == JString(t) && t != "" && forall j' :: 0 <= j' < j ==> !Truthy(c[j']) {
      var j :| 0 <= j < 3 && c[j] == JString(t) && t != "" && forall j' :: 0 <= j' < j ==> !Truthy(c[j']);
      assert Truthy(c[j]);
    }
    if Or(Or(c[0], c[1]), c[2]) == JString(t) && t != "" {
      var j := if Truthy(c[0]) then 0 else if Truthy(c[1]) then 1 else 2;
      assert forall j' :: 0 <= j' < j ==> !Truthy(c[j']);
    }
  }

  /** When no primary field holds a non-empty string, the first truthy value
      among `audio.transcript`, `transcription` and `response.output_text` is
      used, and only when it is a non-empty string; otherwise there is no
      text. A truthy `audio` that is not an object raises. */
  lemma {:induction false} TextFromFallback(d: map<string, Json>, t: string)
    requires forall j :: 0 <= j < |TextKeys| ==> !IsNonEmptyString(Get(d, TextKeys[j], JNull))
    ensures var holder := Or(Get(d, "audio", JNull), JObject(map[]));
            && (ExtractText(d).Failure? <==> !holder.JObject?)
            && (holder.JObject? ==>
                  var c := FallbackCandidates(d, holder.fields);
                  (ExtractText(d) == Success(Some(t)) <==>
                     exists j :: 0 <= j < 3 && c[j] == JString(t) && t != "" && forall j' :: 0 <= j' < j ==> !Truthy(c[j'])))
  {
    assert FirstText(d, TextKeys).None?;
    var holder := Or(Get(d, "audio", JNull), JObject(map[]));
    if holder.JObject? {
      var c := FallbackCandidates(d, holder.fields);
      assert FallbackValue(d) == Success(Or(Or(c[0], c[1]), c[2]));
      OrChainText(c, t);
    }
  }

  /** The record sequence has one record per message that parsed as JSON, in
      arrival order, up to the first message whose classification raises;
      frames that are not JSON are skipped. */
  lemma {:induction false} EventsMatchParsed(frames: seq<Option<Json>>)
    ensures var s := Events(frames);
            var p := Parsed(frames);
            && |s.events| <= |p|
            && (forall i :: 0 <= i < |s.events| ==> Classify(p[i]) == Success(s.events[i]))
            && (s.failure.None? ==> |s.events| == |p|)
            && (s.failure.Some? ==> |s.events| < |p| && Classify(p[|s.events|]) == Failure(s.failure.value))
    decreases |frames|
  {
    if frames != [] {
      var init := frames[..|frames| - 1];
      EventsMatchParsed(init);
      var p0 := Parsed(init);
      var last := frames[|frames| - 1];
      if last.Some? {
        var p := Parsed(frames);
        assert p == p0 + [last.value];
        assert forall i :: 0 <= i < |p0| ==> p[i] == p0[i];
      }
    }
  }
}
