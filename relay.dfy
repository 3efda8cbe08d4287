/** The per-connection relay of `ws_endpoint`: the client-to-upstream pump
    (audio chunks and control commands) and the upstream-to-client pump
    (transcript payloads), with the four process-wide observability logs. */
module Relay {
  import opened Wrappers
  import opened Strings
  import opened Json
  import opened Realtime
  import opened Buffers
  import Base64

  // ---------------------------------------------------------------------
  // Inputs and log entries

  /** A frame read from the client socket: audio bytes (with the wall-clock
      reading `now_s()` taken for it), a text frame (its JSON value, `None`
      when `json.loads` raises), or a message carrying neither. */
  datatype ClientFrame =
    | Binary(bytes: seq<Base64.byte>, receivedAt: real)
    | Text(command: Option<Json>)
    | Neither

  /** A `front_chunks` / `openai_chunks` entry. */
  datatype ChunkEntry = ChunkEntry(t: real, bytes: nat, startS: real, endS: real)

  /** The message sent to the client for a transcript event. */
  datatype Payload = Payload(kind: string, text: string, startS: Json, endS: Json, event: Json)

  /** An `openai_text` / `front_text` entry: `{"t": now_s(), **payload}`. */
  datatype TextEntry = TextEntry(t: real, payload: Payload)

  /** A frame from the upstream socket (`None` when it is not JSON), with the
      two wall-clock readings the pump takes if it forwards a payload: before
      the send and after it. */
  datatype UpstreamFrame = UpstreamFrame(message: Option<Json>, loggedAt: real, sentAt: real)

  // ---------------------------------------------------------------------
  // The process-wide logs and the client socket

  /** Two of the four process-wide logs, each a `RingLog(RING_SIZE)`: empty,
      of the same capacity, sharing no storage. `front_chunks` and
      `openai_chunks` are one such pair, `openai_text` and `front_text` the
      other. */
  method NewLogPair<T(0)>(ringSize: nat) returns (a: RingLog<T>, b: RingLog<T>)
    ensures a.Valid() && b.Valid() && a.Repr !! b.Repr
    ensures fresh(a.Repr) && fresh(b.Repr)
    ensures a.capacity == ringSize && b.capacity == ringSize
    ensures a.History == [] && b.History == []
  {
    a := new RingLog(ringSize);
    b := new RingLog(ringSize);
  }

  /** What a pump needs of the two logs it writes: both well formed, sharing
      no storage. */
  ghost predicate ChunkLogs(front: RingLog<ChunkEntry>, openai: RingLog<ChunkEntry>)
    reads front, front.Repr, openai, openai.Repr
  {
    front.Valid() && openai.Valid() && front.Repr !! openai.Repr
  }

  ghost predicate TextLogs(openai: RingLog<TextEntry>, front: RingLog<TextEntry>)
    reads openai, openai.Repr, front, front.Repr
  {
    openai.Valid() && front.Valid() && openai.Repr !! front.Repr
  }

  /** The client socket; `sent` collects the payloads written to it. */
  class ClientSocket {
    ghost var sent: seq<Payload>

    constructor ()
      ensures sent == []
    {
      sent := [];
    }

    /** `ws.send_text(json.dumps(payload))`. */
    method SendText(p: Payload)
      modifies this
      ensures sent == old(sent) + [p]
    {
      sent := sent + [p];
    }
  }

  // ---------------------------------------------------------------------
  // Client to upstream

  datatype Control = Reset | Flush | Ignored

  /** What a text frame asks for: `data.get("type")` compared with "flush"
      and "reset". Unparseable text and JSON that is not an object (for which
      `.get` raises and the exception is swallowed) are ignored. */
  function ControlOf(command: Option<Json>): (c: Control)
    ensures c == Reset <==> command.Some? && command.value.JObject? && "type" in command.value.fields
                            && command.value.fields["type"] == JString("reset")
    ensures c == Flush <==> command.Some? && command.value.JObject? && "type" in command.value.fields
                            && command.value.fields["type"] == JString("flush")
  {
    if command.None? || !command.value.JObject? then Ignored
    else
      var cmd := Get(command.value.fields, "type", JNull);
      if cmd == JString("flush") then Flush
      else if cmd == JString("reset") then Reset
      else Ignored
  }

  /** What the client pump has done so far: the audio clock, the messages
      sent upstream and the chunk entries logged (the same in both chunk
      logs). */
  datatype ClientTrace = ClientTrace(clock: real, sent: seq<Json>, chunks: seq<ChunkEntry>)

  /** One frame of `pump_client_to_openai`. */
  function ClientStep(rate: int, tr: ClientTrace, f: ClientFrame): ClientTrace
    requires rate != 0
  {
    match f
    case Binary(raw, at) =>
      var endS := tr.clock + Duration(|raw|, rate);
      ClientTrace(endS, tr.sent + [AppendMessage(raw)], tr.chunks + [ChunkEntry(at, |raw|, tr.clock, endS)])
    case Text(command) =>
      if ControlOf(command) == Reset then ClientTrace(0.0, tr.sent + [ClearMessage()], tr.chunks) else tr
    case Neither => tr
  }

  /** The client pump over `frames`, starting from the audio clock `clock`. */
  function ClientRun(rate: int, clock: real, frames: seq<ClientFrame>): ClientTrace
    requires rate != 0
    decreases |frames|
  {
    if frames == [] then ClientTrace(clock, [], [])
    else ClientStep(rate, ClientRun(rate, clock, frames[..|frames| - 1]), frames[|frames| - 1])
  }

  /** The state the client pump has reached: the session's clock and outbox,
      and the two chunk logs, are `tr` on top of their initial contents. */
  ghost predicate ClientState(session: Session, front: RingLog<ChunkEntry>, openai: RingLog<ChunkEntry>,
                              tr: ClientTrace, outbox0: seq<Json>, front0: seq<ChunkEntry>, openai0: seq<ChunkEntry>)
    reads session, front, openai
  {
    && session.audioTimeS == tr.clock && session.outbox == outbox0 + tr.sent
    && front.History == front0 + tr.chunks
    && openai.History == openai0 + tr.chunks
  }

  /** A binary frame: send the chunk upstream, then log it, with the same
      timestamps, in `front_chunks` and `openai_chunks`. */
  method HandleAudio(session: Session, front: RingLog<ChunkEntry>, openai: RingLog<ChunkEntry>,
                     raw: seq<Base64.byte>, t0: real, ghost tr: ClientTrace, ghost outbox0: seq<Json>,
                     ghost front0: seq<ChunkEntry>, ghost openai0: seq<ChunkEntry>)
    requires session.connected && session.sampleRate != 0
    requires ChunkLogs(front, openai)
    requires ClientState(session, front, openai, tr, outbox0, front0, openai0)
    modifies session, front.Repr, openai.Repr
    ensures ChunkLogs(front, openai)
    ensures front.Repr == old(front.Repr) && openai.Repr == old(openai.Repr)
    ensures session.connected && session.transportCloses == old(session.transportCloses)
    ensures ClientState(session, front, openai, ClientStep(session.sampleRate, tr, Binary(raw, t0)), outbox0, front0, openai0)
  {
    assert session !in front.Repr && session !in openai.Repr;
    var startS, endS := session.SendAudioChunk(raw);
    var e := ChunkEntry(t0, |raw|, startS, endS);
    AddBeside(front, openai, e);
    AddBeside(openai, front, e);
    AudioStep(session.sampleRate, tr, raw, t0, startS, endS);
    assert outbox0 + (tr.sent + [AppendMessage(raw)]) == (outbox0 + tr.sent) + [AppendMessage(raw)];
    assert front0 + (tr.chunks + [e]) == (front0 + tr.chunks) + [e];
    assert openai0 + (tr.chunks + [e]) == (openai0 + tr.chunks) + [e];
  }

  /** The trace after a binary frame, given the clock readings around it. */
  lemma AudioStep(rate: int, tr: ClientTrace, raw: seq<Base64.byte>, t0: real, startS: real, endS: real)
    requires rate != 0 && startS == tr.clock && endS == startS + Duration(|raw|, rate)
    ensures ClientStep(rate, tr, Binary(raw, t0))
            == ClientTrace(endS, tr.sent + [AppendMessage(raw)], tr.chunks + [ChunkEntry(t0, |raw|, startS, endS)])
  {
  }

  /** The trace after a text frame. */
  lemma ControlStep(rate: int, tr: ClientTrace, command: Option<Json>)
    requires rate != 0
    ensures ControlOf(command) == Reset ==>
              ClientStep(rate, tr, Text(command)) == ClientTrace(0.0, tr.sent + [ClearMessage()], tr.chunks)
    ensures ControlOf(command) != Reset ==> ClientStep(rate, tr, Text(command)) == tr
  {
  }

  /** A text frame: "reset" clears the upstream buffer and restarts the audio
      clock; "flush" and anything else leave the session as it is. */
  method HandleControl(session: Session, command: Option<Json>)
    requires session.connected
    modifies session
    ensures session.connected && session.transportCloses == old(session.transportCloses)
    ensures ControlOf(command) == Reset ==> session.audioTimeS == 0.0 && session.outbox == old(session.outbox) + [ClearMessage()]
    ensures ControlOf(command) != Reset ==> session.audioTimeS == old(session.audioTimeS) && session.outbox == old(session.outbox)
  {
    var cmd := ControlOf(command);
    if cmd == Flush {
      // only relevant when server-side VAD is off
    } else if cmd == Reset {
      session.Clear();
    }
  }

  /** `pump_client_to_openai`: every binary frame is sent upstream and logged
      in both chunk logs with its timestamps; a "reset" command clears the
      session; everything else is skipped. */
  method PumpClientToUpstream(session: Session, front: RingLog<ChunkEntry>, openai: RingLog<ChunkEntry>,
                              frames: seq<ClientFrame>)
    requires session.connected && session.sampleRate != 0
    requires ChunkLogs(front, openai)
    modifies session, front.Repr, openai.Repr
    ensures ChunkLogs(front, openai)
    ensures ClientState(session, front, openai, ClientRun(session.sampleRate, old(session.audioTimeS), frames),
                        old(session.outbox), old(front.History), old(openai.History))
    ensures session.connected && session.transportCloses == old(session.transportCloses)
  {
    ghost var outbox0, front0, openai0 := session.outbox, front.History, openai.History;
    var i := 0;
    while i < |frames|
      invariant 0 <= i <= |frames|
      invariant ChunkLogs(front, openai)
      invariant front.Repr == old(front.Repr) && openai.Repr == old(openai.Repr)
      invariant session.connected && session.transportCloses == old(session.transportCloses)
      invariant ClientState(session, front, openai, ClientRun(session.sampleRate, old(session.audioTimeS), frames[..i]),
                            outbox0, front0, openai0)
    {
      ghost var tr := ClientRun(session.sampleRate, old(session.audioTimeS), frames[..i]);
      assert frames[..i + 1][..i] == frames[..i];
      HandleFrame(session, front, openai, frames[i], tr, outbox0, front0, openai0);
      i := i + 1;
    }
    assert frames[..|frames|] == frames;
  }

  /** One frame of the client pump: audio, a command, or neither. */
  method HandleFrame(session: Session, front: RingLog<ChunkEntry>, openai: RingLog<ChunkEntry>,
                     f: ClientFrame, ghost tr: ClientTrace, ghost outbox0: seq<Json>,
                     ghost front0: seq<ChunkEntry>, ghost openai0: seq<ChunkEntry>)
    requires session.connected && session.sampleRate != 0
    requires ChunkLogs(front, openai)
    requires ClientState(session, front, openai, tr, outbox0, front0, openai0)
    modifies session, front.Repr, openai.Repr
    ensures ChunkLogs(front, openai)
    ensures front.Repr == old(front.Repr) && openai.Repr == old(openai.Repr)
    ensures session.connected && session.transportCloses == old(session.transportCloses)
    ensures ClientState(session, front, openai, ClientStep(session.sampleRate, tr, f), outbox0, front0, openai0)
  {
    match f {
      case Binary(raw, t0) =>
        HandleAudio(session, front, openai, raw, t0, tr, outbox0, front0, openai0);
      case Text(command) =>
        assert session !in front.Repr && session !in openai.Repr;
        HandleControl(session, command);
        ControlStep(session.sampleRate, tr, command);
        if ControlOf(command) == Reset {
          assert outbox0 + (tr.sent + [ClearMessage()]) == (outbox0 + tr.sent) + [ClearMessage()];
        }
      case Neither =>
    }
  }

  // ---------------------------------------------------------------------
  // What the client pump promises

  /** The binary frames among `frames`, in order. */
  function AudioFrames(frames: seq<ClientFrame>): (r: seq<ClientFrame>)
    ensures |r| <= |frames|
    ensures forall k :: 0 <= k < |r| ==> r[k].Binary?
    decreases |frames|
  {
    if frames == [] then []
    else
      var prev := AudioFrames(frames[..|frames| - 1]);
      if frames[|frames| - 1].Binary? then prev + [frames[|frames| - 1]] else prev
  }

  /** The number of text frames that ask for a reset. */
  function ResetCount(frames: seq<ClientFrame>): nat
    decreases |frames|
  {
    if frames == [] then 0
    else
      var f := frames[|frames| - 1];
      ResetCount(frames[..|frames| - 1]) + (if f.Text? && ControlOf(f.command) == Reset then 1 else 0)
  }

  /** One chunk entry per binary frame, in order: it records the frame's
      wall-clock reading and byte count, and spans exactly the duration of
      that audio. One upstream message per binary frame and per reset. */
  lemma {:induction false} ChunksFollowAudio(rate: int, clock: real, frames: seq<ClientFrame>)
    requires rate != 0
    ensures var tr := ClientRun(rate, clock, frames);
            var audio := AudioFrames(frames);
            && |tr.chunks| == |audio|
            && |tr.sent| == |audio| + ResetCount(frames)
            && forall k :: 0 <= k < |audio| ==>
                 && tr.chunks[k].t == audio[k].receivedAt
                 && tr.chunks[k].bytes == |audio[k].bytes|
                 && tr.chunks[k].endS == tr.chunks[k].startS + Duration(|audio[k].bytes|, rate)
    decreases |frames|
  {
    if frames != [] {
      ChunksFollowAudio(rate, clock, frames[..|frames| - 1]);
    }
  }

  /** No text frame among `frames` asks for a reset. */
  predicate NoReset(frames: seq<ClientFrame>)
  {
    forall i :: 0 <= i < |frames| ==> !(frames[i].Text? && ControlOf(frames[i].command) == Reset)
  }

  /** The chunk intervals tile the timeline from `clock0` to `clock`: the
      first starts at `clock0`, each starts where the previous one ends, and
      the clock stands where the last one ends. */
  ghost predicate Tiled(clock0: real, chunks: seq<ChunkEntry>, clock: real)
  {
    && (chunks != [] ==> chunks[0].startS == clock0)
    && (forall k :: 0 < k < |chunks| ==> chunks[k].startS == chunks[k - 1].endS)
    && clock == (if chunks == [] then clock0 else chunks[|chunks| - 1].endS)
  }

  /** Appending a chunk that starts where the clock stands keeps the
      timeline tiled, with the clock moved to its end. */
  lemma TiledExtend(clock0: real, chunks: seq<ChunkEntry>, clock: real, e: ChunkEntry)
    requires Tiled(clock0, chunks, clock) && e.startS == clock
    ensures Tiled(clock0, chunks + [e], e.endS)
  {
    var c := chunks + [e];
    forall k | 0 < k < |c|
      ensures c[k].startS == c[k - 1].endS
    {
      assert c[k - 1] == chunks[k - 1];
      if k < |chunks| {
        assert c[k] == chunks[k];
      }
    }
  }

  /** Without a reset the audio clock only moves forward by the chunks sent,
      so consecutive chunks abut. */
  lemma {:induction false} ChunksTile(rate: int, clock0: real, frames: seq<ClientFrame>)
    requires rate != 0
    requires NoReset(frames)
    ensures var tr := ClientRun(rate, clock0, frames);
            Tiled(clock0, tr.chunks, tr.clock)
    decreases |frames|
  {
    if frames != [] {
      var init := frames[..|frames| - 1];
      assert NoReset(init) by {
        forall i | 0 <= i < |init| ensures !(init[i].Text? && ControlOf(init[i].command) == Reset) {
          assert init[i] == frames[i];
        }
      }
      ChunksTile(rate, clock0, init);
      var prev := ClientRun(rate, clock0, init);
      var f := frames[|frames| - 1];
      assert ClientRun(rate, clock0, frames) == ClientStep(rate, prev, f);
      match f
      case Binary(raw, at) =>
        var endS := prev.clock + Duration(|raw|, rate);
        AudioStep(rate, prev, raw, at, prev.clock, endS);
        TiledExtend(clock0, prev.chunks, prev.clock, ChunkEntry(at, |raw|, prev.clock, endS));
      case Text(command) =>
        assert ControlOf(command) != Reset;
        ControlStep(rate, prev, command);
      case Neither =>
    }
  }

  /** The seconds of audio in a sequence of chunks. */
  function Elapsed(rate: int, chunks: seq<ChunkEntry>): real
    requires rate != 0
    decreases |chunks|
  {
    if chunks == [] then 0.0
    else Elapsed(rate, chunks[..|chunks| - 1]) + Duration(chunks[|chunks| - 1].bytes, rate)
  }

  /** On a tiled timeline whose chunks each span their own duration, every
      chunk starts after exactly the audio of the chunks before it. */
  lemma {:induction false} TiledElapsed(rate: int, clock0: real, chunks: seq<ChunkEntry>, clock: real)
    requires rate != 0
    requires Tiled(clock0, chunks, clock)
    requires forall k :: 0 <= k < |chunks| ==> chunks[k].endS == chunks[k].startS + Duration(chunks[k].bytes, rate)
    ensures forall k :: 0 <= k < |chunks| ==> chunks[k].startS == clock0 + Elapsed(rate, chunks[..k])
    ensures clock == clock0 + Elapsed(rate, chunks)
    decreases |chunks|
  {
    if chunks != [] {
      var n := |chunks| - 1;
      var init := chunks[..n];
      var mid := if n == 0 then clock0 else init[n - 1].endS;
      assert Tiled(clock0, init, mid);
      TiledElapsed(rate, clock0, init, mid);
      forall k | 0 <= k < |chunks|
        ensures chunks[k].startS == clock0 + Elapsed(rate, chunks[..k])
      {
        if k < n {
          assert chunks[..k] == init[..k];
        } else {
          assert chunks[..k] == init;
        }
      }
      assert chunks[..n] == init;
    }
  }

  /** Without a reset, chunk `k` starts at the clock's initial value plus the
      duration of all earlier chunks, and the clock ends at the initial
      value plus the duration of all chunks. */
  lemma StartsAfterPriorAudio(rate: int, clock0: real, frames: seq<ClientFrame>)
    requires rate != 0
    requires NoReset(frames)
    ensures var tr := ClientRun(rate, clock0, frames);
            && (forall k :: 0 <= k < |tr.chunks| ==> tr.chunks[k].startS == clock0 + Elapsed(rate, tr.chunks[..k]))
            && tr.clock == clock0 + Elapsed(rate, tr.chunks)
  {
    var tr := ClientRun(rate, clock0, frames);
    ChunksTile(rate, clock0, frames);
    ChunksFollowAudio(rate, clock0, frames);
    TiledElapsed(rate, clock0, tr.chunks, tr.clock);
  }

  /** At a positive sample rate the clock never runs backwards between
      resets, and every chunk has a non-negative length. */
  lemma {:induction false} ClockMonotone(rate: int, clock0: real, frames: seq<ClientFrame>)
    requires rate > 0
    requires NoReset(frames)
    ensures var tr := ClientRun(rate, clock0, frames);
            && clock0 <= tr.clock
            && forall k :: 0 <= k < |tr.chunks| ==> clock0 <= tr.chunks[k].startS <= tr.chunks[k].endS <= tr.clock
    decreases |frames|
  {
    if frames != [] {
      var init := frames[..|frames| - 1];
      assert NoReset(init) by {
        forall i | 0 <= i < |init| ensures !(init[i].Text? && ControlOf(init[i].command) == Reset) {
          assert init[i] == frames[i];
        }
      }
      ClockMonotone(rate, clock0, init);
    }
  }

  /** No frame of `frames` carries audio. */
  predicate NoAudio(frames: seq<ClientFrame>)
  {
    forall i :: 0 <= i < |frames| ==> !frames[i].Binary?
  }

  /** `tr` is where the client pump stands after a reset taken at `tr0`
      followed by frames without audio: clock 0, no chunk logged since, and
      one clear message sent, then only clear messages. */
  ghost predicate QuietSince(tr0: ClientTrace, tr: ClientTrace)
  {
    && tr.clock == 0.0
    && tr.chunks == tr0.chunks
    && |tr.sent| > |tr0.sent|
    && tr.sent[..|tr0.sent| + 1] == tr0.sent + [ClearMessage()]
    && (forall i :: |tr0.sent| <= i < |tr.sent| ==> tr.sent[i] == ClearMessage())
  }

  /** A frame without audio keeps the pump quiet since the reset, and
      changes nothing unless it is a further reset. */
  lemma QuietStep(rate: int, tr0: ClientTrace, prev: ClientTrace, f: ClientFrame)
    requires rate != 0
    requires QuietSince(tr0, prev) && !f.Binary?
    ensures QuietSince(tr0, ClientStep(rate, prev, f))
    ensures !(f.Text? && ControlOf(f.command) == Reset) ==> ClientStep(rate, prev, f) == prev
  {
    if f.Text? && ControlOf(f.command) == Reset {
      var tr := ClientStep(rate, prev, f);
      assert tr.sent == prev.sent + [ClearMessage()];
      assert tr.sent[..|tr0.sent| + 1] == prev.sent[..|tr0.sent| + 1];
    }
  }

  /** After a reset and any run of frames without audio (flushes, ignored
      text, further resets, empty frames), the pump is quiet since the
      reset; with no further reset, exactly one message was sent since. */
  lemma {:induction false} QuietAfterReset(rate: int, clock0: real, frames: seq<ClientFrame>,
                                           command: Option<Json>, mid: seq<ClientFrame>)
    requires rate != 0
    requires ControlOf(command) == Reset
    requires NoAudio(mid)
    ensures var tr0 := ClientRun(rate, clock0, frames);
            var tr := ClientRun(rate, clock0, frames + [Text(command)] + mid);
            && QuietSince(tr0, tr)
            && (NoReset(mid) ==> |tr.sent| == |tr0.sent| + 1)
    decreases |mid|
  {
    var pre := frames + [Text(command)];
    var tr0 := ClientRun(rate, clock0, frames);
    if mid == [] {
      assert pre + mid == pre;
      assert pre[..|pre| - 1] == frames;
      ControlStep(rate, tr0, command);
    } else {
      var init := mid[..|mid| - 1];
      var f := mid[|mid| - 1];
      assert NoAudio(init) by {
        forall i | 0 <= i < |init| ensures !init[i].Binary? {
          assert init[i] == mid[i];
        }
      }
      assert NoReset(mid) ==> NoReset(init) && !(f.Text? && ControlOf(f.command) == Reset) by {
        if NoReset(mid) {
          forall i | 0 <= i < |init| ensures !(init[i].Text? && ControlOf(init[i].command) == Reset) {
            assert init[i] == mid[i];
          }
        }
      }
      QuietAfterReset(rate, clock0, frames, command, init);
      var prev := ClientRun(rate, clock0, pre + init);
      assert (pre + mid)[..|pre + mid| - 1] == pre + init;
      assert ClientRun(rate, clock0, pre + mid) == ClientStep(rate, prev, f);
      QuietStep(rate, tr0, prev, f);
    }
  }

  /** A reset restarts the audio clock: the next chunk, whatever frames
      without audio come between, spans `[0, d)` for its duration `d`. It is
      the one chunk logged since the reset; the messages sent since are a
      clear message, then only clear messages (none when no further reset
      came between), then the chunk's append message. */
  lemma ResetRestartsClock(rate: int, clock0: real, frames: seq<ClientFrame>, command: Option<Json>,
                           mid: seq<ClientFrame>, raw: seq<Base64.byte>, at: real)
    requires rate != 0
    requires ControlOf(command) == Reset
    requires NoAudio(mid)
    ensures var tr0 := ClientRun(rate, clock0, frames);
            var tr := ClientRun(rate, clock0, frames + [Text(command)] + mid + [Binary(raw, at)]);
            && tr.chunks == tr0.chunks + [ChunkEntry(at, |raw|, 0.0, Duration(|raw|, rate))]
            && tr.clock == Duration(|raw|, rate)
            && |tr.sent| >= |tr0.sent| + 2
            && tr.sent[..|tr0.sent| + 1] == tr0.sent + [ClearMessage()]
            && (forall i :: |tr0.sent| <= i < |tr.sent| - 1 ==> tr.sent[i] == ClearMessage())
            && tr.sent[|tr.sent| - 1] == AppendMessage(raw)
            && (NoReset(mid) ==> |tr.sent| == |tr0.sent| + 2)
  {
    var tr0 := ClientRun(rate, clock0, frames);
    var quiet := frames + [Text(command)] + mid;
    QuietAfterReset(rate, clock0, frames, command, mid);
    var prev := ClientRun(rate, clock0, quiet);
    var fs := quiet + [Binary(raw, at)];
    assert fs[..|fs| - 1] == quiet;
    var tr := ClientStep(rate, prev, Binary(raw, at));
    assert ClientRun(rate, clock0, fs) == tr;
    assert tr.sent == prev.sent + [AppendMessage(raw)];
    assert tr.sent[..|tr0.sent| + 1] == prev.sent[..|tr0.sent| + 1];
  }

  /** Three chunks of 3200, 1600 and 3200 bytes at 16 kHz, from a fresh
      session: 0.1 s, 0.05 s and 0.1 s of audio, laid end to end. */
  lemma ThreeChunkTimeline(a: seq<Base64.byte>, b: seq<Base64.byte>, c: seq<Base64.byte>, ta: real, tb: real, tc: real)
    requires |a| == 3200 && |b| == 1600 && |c| == 3200
    ensures var tr := ClientRun(16000, 0.0, [Binary(a, ta), Binary(b, tb), Binary(c, tc)]);
            && tr.chunks == [ChunkEntry(ta, 3200, 0.0, 0.1), ChunkEntry(tb, 1600, 0.1, 0.15), ChunkEntry(tc, 3200, 0.15, 0.25)]
            && tr.clock == 0.25
  {
    var fs := [Binary(a, ta), Binary(b, tb), Binary(c, tc)];
    assert Duration(3200, 16000) == 0.1 && Duration(1600, 16000) == 0.05;
    var e1, e2, e3 := ChunkEntry(ta, 3200, 0.0, 0.1), ChunkEntry(tb, 1600, 0.1, 0.15), ChunkEntry(tc, 3200, 0.15, 0.25);
    var tr0 := ClientTrace(0.0, [], []);
    AudioStep(16000, tr0, a, ta, 0.0, 0.1);
    var tr1 := ClientTrace(0.1, [AppendMessage(a)], [e1]);
    assert fs[..1][..0] == [];
    assert ClientRun(16000, 0.0, fs[..1]) == tr1;
    AudioStep(16000, tr1, b, tb, 0.1, 0.15);
    var tr2 := ClientTrace(0.15, tr1.sent + [AppendMessage(b)], [e1, e2]);
    assert fs[..2][..1] == fs[..1];
    assert ClientRun(16000, 0.0, fs[..2]) == tr2;
    AudioStep(16000, tr2, c, tc, 0.15, 0.25);
    assert ClientRun(16000, 0.0, fs) == ClientTrace(0.25, tr2.sent + [AppendMessage(c)], [e1, e2, e3]);
  }

  // ---------------------------------------------------------------------
  // Upstream to client

  /** The payload for an event, or `None` when its text is empty and the
      pump skips it. The kind is written as the nested conditional of the
      source; it comes to "final" exactly for final events. */
  function PayloadOf(e: TranscriptEvent): (p: Option<Payload>)
    ensures p.None? <==> e.text == ""
    ensures p.Some? ==> && p.value.kind == (if e.final then "final" else "partial")
                        && p.value.text == e.text && p.value.startS == e.startS
                        && p.value.endS == e.endS && p.value.event == e.eventType
  {
    if e.text == "" then None
    else
      var kind := if e.partial && !e.final then "partial" else if e.final then "final" else "partial";
      Some(Payload(kind, e.text, e.startS, e.endS, e.eventType))
  }

  /** The payloads for a sequence of events, in order. */
  function Forwarded(events: seq<TranscriptEvent>): seq<Payload>
    decreases |events|
  {
    if events == [] then []
    else
      var prev := Forwarded(events[..|events| - 1]);
      match PayloadOf(events[|events| - 1])
      case Some(p) => prev + [p]
      case None => prev
  }

  /** What the upstream pump has done: the payloads sent to the client, the
      entries of `openai_text` and `front_text`, and the exception that ended
      it, if any. */
  datatype UpstreamTrace = UpstreamTrace(delivered: seq<Payload>, openaiLog: seq<TextEntry>,
                                         frontLog: seq<TextEntry>, failure: Option<ClassifyError>)

  /** What the pump does with one upstream frame: nothing (not JSON, or no
      text), stop with the exception classification raises, or forward a
      payload. */
  datatype Reaction = Skip | Stop(err: ClassifyError) | Forward(payload: Payload)

  function ReactionTo(message: Option<Json>): Reaction
  {
    if message.None? then Skip else ReactionOf(Classify(message.value))
  }

  /** What the pump does with a parsed frame classified as `c`. */
  function ReactionOf(c: Result<TranscriptEvent, ClassifyError>): Reaction
  {
    match c
    case Failure(err) => Stop(err)
    case Success(e) =>
      match PayloadOf(e)
      case None => Skip
      case Some(p) => Forward(p)
  }

  /** One upstream frame of `pump_openai_to_client`, given what the pump does
      with it. */
  function UpstreamStep(tr: UpstreamTrace, r: Reaction, f: UpstreamFrame): UpstreamTrace
  {
    if tr.failure.Some? then tr
    else
      match r
      case Skip => tr
      case Stop(err) => tr.(failure := Some(err))
      case Forward(p) =>
        UpstreamTrace(tr.delivered + [p], tr.openaiLog + [TextEntry(f.loggedAt, p)],
                      tr.frontLog + [TextEntry(f.sentAt, p)], None)
  }

  /** What the pump does with each frame. */
  function Reactions(frames: seq<UpstreamFrame>): (rs: seq<Reaction>)
    ensures |rs| == |frames|
  {
    seq(|frames|, k requires 0 <= k < |frames| => ReactionTo(frames[k].message))
  }

  /** The pump over `frames`, given what it does with each of them. */
  function RunReactions(rs: seq<Reaction>, frames: seq<UpstreamFrame>): UpstreamTrace
    requires |rs| == |frames|
    decreases |frames|
  {
    if frames == [] then UpstreamTrace([], [], [], None)
    else
      var n := |frames| - 1;
      UpstreamStep(RunReactions(rs[..n], frames[..n]), rs[n], frames[n])
  }

  /** `pump_openai_to_client` over `frames`. */
  function UpstreamRun(frames: seq<UpstreamFrame>): UpstreamTrace
  {
    RunReactions(Reactions(frames), frames)
  }

  /** The decoded messages of the upstream frames. */
  function Messages(frames: seq<UpstreamFrame>): seq<Option<Json>>
  {
    seq(|frames|, i requires 0 <= i < |frames| => frames[i].message)
  }

  ghost predicate UpstreamState(openai: RingLog<TextEntry>, front: RingLog<TextEntry>, client: ClientSocket,
                                tr: UpstreamTrace, sent0: seq<Payload>, openai0: seq<TextEntry>, front0: seq<TextEntry>)
    reads openai, front, client
  {
    && client.sent == sent0 + tr.delivered
    && openai.History == openai0 + tr.openaiLog
    && front.History == front0 + tr.frontLog
  }

  /** One event of `pump_openai_to_client`: log the payload in
      `openai_text`, send it, then log it in `front_text`. */
  method Deliver(openai: RingLog<TextEntry>, front: RingLog<TextEntry>, client: ClientSocket,
                 p: Payload, loggedAt: real, sentAt: real)
    requires TextLogs(openai, front)
    modifies openai.Repr, front.Repr, client
    ensures TextLogs(openai, front)
    ensures openai.Repr == old(openai.Repr) && front.Repr == old(front.Repr)
    ensures client.sent == old(client.sent) + [p]
    ensures openai.History == old(openai.History) + [TextEntry(loggedAt, p)]
    ensures front.History == old(front.History) + [TextEntry(sentAt, p)]
  {
    assert client !in openai.Repr && client !in front.Repr;
    AddBeside(openai, front, TextEntry(loggedAt, p));
    client.SendText(p);
    AddBeside(front, openai, TextEntry(sentAt, p));
  }

  /** `log.add(e)` next to a second log that shares no storage with it. */
  method AddBeside<T(0)>(log: RingLog<T>, other: RingLog<T>, e: T)
    requires log.Valid() && other.Valid() && log.Repr !! other.Repr
    modifies log.Repr
    ensures log.Valid() && other.Valid() && log.Repr !! other.Repr
    ensures log.Repr == old(log.Repr) && log.History == old(log.History) + [e]
  {
    log.Add(e);
  }

  /** One upstream frame, once classified: forward the payload if there is
      one; a classification failure is returned. */
  method HandleUpstream(openai: RingLog<TextEntry>, front: RingLog<TextEntry>, client: ClientSocket,
                        r: Reaction, f: UpstreamFrame, ghost tr: UpstreamTrace, ghost sent0: seq<Payload>,
                        ghost openai0: seq<TextEntry>, ghost front0: seq<TextEntry>)
    returns (failure: Option<ClassifyError>)
    requires tr.failure.None?
    requires TextLogs(openai, front)
    requires UpstreamState(openai, front, client, tr, sent0, openai0, front0)
    modifies openai.Repr, front.Repr, client
    ensures TextLogs(openai, front)
    ensures openai.Repr == old(openai.Repr) && front.Repr == old(front.Repr)
    ensures UpstreamState(openai, front, client, UpstreamStep(tr, r, f), sent0, openai0, front0)
    ensures failure == UpstreamStep(tr, r, f).failure
  {
    failure := None;
    match r {
      case Skip =>
      case Stop(err) =>
        failure := Some(err);
      case Forward(p) =>
        Deliver(openai, front, client, p, f.loggedAt, f.sentAt);
        assert sent0 + (tr.delivered + [p]) == (sent0 + tr.delivered) + [p];
        assert openai0 + (tr.openaiLog + [TextEntry(f.loggedAt, p)]) == (openai0 + tr.openaiLog) + [TextEntry(f.loggedAt, p)];
        assert front0 + (tr.frontLog + [TextEntry(f.sentAt, p)]) == (front0 + tr.frontLog) + [TextEntry(f.sentAt, p)];
    }
  }

  lemma StepAfterFailure(tr: UpstreamTrace, r: Reaction, f: UpstreamFrame)
    requires tr.failure.Some?
    ensures UpstreamStep(tr, r, f) == tr
  {
  }

  /** Once the pump has failed, later frames change nothing. */
  lemma {:induction false} UpstreamStopsAtFailure(rs: seq<Reaction>, frames: seq<UpstreamFrame>, i: nat)
    requires |rs| == |frames| && i <= |frames|
    requires RunReactions(rs[..i], frames[..i]).failure.Some?
    ensures RunReactions(rs, frames) == RunReactions(rs[..i], frames[..i])
    decreases |frames| - i
  {
    if i < |frames| {
      var j := |frames| - 1;
      assert frames[..j][..i] == frames[..i] && rs[..j][..i] == rs[..i];
      if i < j {
        UpstreamStopsAtFailure(rs[..j], frames[..j], i);
      } else {
        assert frames[..j] == frames[..i] && rs[..j] == rs[..i];
      }
      StepAfterFailure(RunReactions(rs[..j], frames[..j]), rs[j], frames[j]);
    } else {
      assert frames[..i] == frames && rs[..i] == rs;
    }
  }

  /** `pump_openai_to_client`: every transcript event with text is logged in
      `openai_text`, sent to the client and logged in `front_text`, in
      arrival order; the pump stops at the first message whose
      classification raises, and returns that failure. */
  method PumpUpstreamToClient(openai: RingLog<TextEntry>, front: RingLog<TextEntry>, client: ClientSocket,
                              frames: seq<UpstreamFrame>)
    returns (failure: Option<ClassifyError>)
    requires TextLogs(openai, front)
    modifies openai.Repr, front.Repr, client
    ensures TextLogs(openai, front)
    ensures UpstreamState(openai, front, client, UpstreamRun(frames), old(client.sent), old(openai.History), old(front.History))
    ensures failure == UpstreamRun(frames).failure
  {
    ghost var sent0, openai0, front0 := client.sent, openai.History, front.History;
    ghost var rs := Reactions(frames);
    failure := None;
    var i := 0;
    while i < |frames| && failure.None?
      invariant 0 <= i <= |frames|
      invariant TextLogs(openai, front)
      invariant openai.Repr == old(openai.Repr) && front.Repr == old(front.Repr)
      invariant UpstreamState(openai, front, client, RunReactions(rs[..i], frames[..i]), sent0, openai0, front0)
      invariant failure == RunReactions(rs[..i], frames[..i]).failure
    {
      ghost var tr := RunReactions(rs[..i], frames[..i]);
      assert frames[..i + 1][..i] == frames[..i] && rs[..i + 1][..i] == rs[..i];
      var r := ReactionTo(frames[i].message);
      assert r == rs[i];
      failure := HandleUpstream(openai, front, client, r, frames[i], tr, sent0, openai0, front0);
      i := i + 1;
    }
    if i < |frames| {
      UpstreamStopsAtFailure(rs, frames, i);
    } else {
      assert frames[..i] == frames && rs[..i] == rs;
    }
  }

  // ---------------------------------------------------------------------
  // What the upstream pump promises

  /** The client receives exactly the payloads of the classified events that
      carry text, in order, and the pump fails exactly when the event
      sequence ends in a classification failure, with the same error. */
  lemma {:induction false} UpstreamMatchesEvents(frames: seq<UpstreamFrame>)
    ensures var tr := UpstreamRun(frames);
            var es := Events(Messages(frames));
            tr.delivered == Forwarded(es.events) && tr.failure == es.failure
    decreases |frames|
  {
    if frames != [] {
      var n := |frames| - 1;
      var init := frames[..n];
      UpstreamMatchesEvents(init);
      assert Messages(frames)[..n] == Messages(init);
      assert Reactions(frames)[..n] == Reactions(init);
      StepMatchesEvents(UpstreamRun(init), Events(Messages(init)), frames[n]);
    }
  }

  /** One frame keeps the pump and the record stream in step. */
  lemma StepMatchesEvents(tr: UpstreamTrace, es: EventStream, f: UpstreamFrame)
    requires tr.delivered == Forwarded(es.events) && tr.failure == es.failure
    ensures var tr' := UpstreamStep(tr, ReactionTo(f.message), f);
            var es' := EventsStep(es, f.message);
            tr'.delivered == Forwarded(es'.events) && tr'.failure == es'.failure
  {
    if es.failure.None? && f.message.Some? {
      OutcomeMatchesEvents(tr, es, Classify(f.message.value), f);
    }
  }

  /** The same for a parsed frame, whatever its classification. */
  lemma OutcomeMatchesEvents(tr: UpstreamTrace, es: EventStream, c: Result<TranscriptEvent, ClassifyError>,
                             f: UpstreamFrame)
    requires tr.delivered == Forwarded(es.events) && tr.failure == es.failure && es.failure.None?
    ensures var tr' := UpstreamStep(tr, ReactionOf(c), f);
            var es' := Recorded(es, c);
            tr'.delivered == Forwarded(es'.events) && tr'.failure == es'.failure
  {
    if c.Success? {
      ForwardedSnoc(es.events, c.value);
    }
  }

  lemma ForwardedSnoc(events: seq<TranscriptEvent>, e: TranscriptEvent)
    ensures Forwarded(events + [e]) == Forwarded(events) + (if PayloadOf(e).Some? then [PayloadOf(e).value] else [])
  {
    assert (events + [e])[..|events|] == events;
  }

  /** `openai_text` and `front_text` receive one entry per delivered payload,
      in delivery order: the payload stamped before the send and after it. */
  lemma {:induction false} TextLogsFollowDelivery(rs: seq<Reaction>, frames: seq<UpstreamFrame>)
    requires |rs| == |frames|
    ensures var tr := RunReactions(rs, frames);
            && |tr.openaiLog| == |tr.delivered| && |tr.frontLog| == |tr.delivered|
            && forall k :: 0 <= k < |tr.delivered| ==>
                 tr.openaiLog[k].payload == tr.delivered[k] && tr.frontLog[k].payload == tr.delivered[k]
    decreases |frames|
  {
    if frames != [] {
      TextLogsFollowDelivery(rs[..|frames| - 1], frames[..|frames| - 1]);
    }
  }

  /** Every forwarded payload has non-empty text, and there are no more
      payloads than events. */
  lemma {:induction false} ForwardedNonEmpty(events: seq<TranscriptEvent>)
    ensures |Forwarded(events)| <= |events|
    ensures forall k :: 0 <= k < |Forwarded(events)| ==> Forwarded(events)[k].text != ""
    decreases |events|
  {
    if events != [] {
      var init := events[..|events| - 1];
      ForwardedNonEmpty(init);
    }
  }

  /** When every event has text, each event is forwarded, in order. */
  lemma {:induction false} ForwardedEvery(events: seq<TranscriptEvent>)
    requires forall j :: 0 <= j < |events| ==> events[j].text != ""
    ensures |Forwarded(events)| == |events|
    ensures forall k :: 0 <= k < |events| ==> PayloadOf(events[k]) == Some(Forwarded(events)[k])
    decreases |events|
  {
    if events != [] {
      var n := |events| - 1;
      var init := events[..n];
      ForwardedEvery(init);
      assert events == init + [events[n]];
      ForwardedSnoc(init, events[n]);
      var fwd, p := Forwarded(init), PayloadOf(events[n]).value;
      assert Forwarded(events) == fwd + [p];
      forall k | 0 <= k < |events|
        ensures PayloadOf(events[k]) == Some(Forwarded(events)[k])
      {
        if k < n {
          assert init[k] == events[k] && (fwd + [p])[k] == fwd[k];
        } else {
          assert (fwd + [p])[k] == p;
        }
      }
    }
  }

  /** For a message with a string type tag, the payload kind is "final"
      exactly when the tag contains ".done", ".completed" or ".final", and
      "partial" otherwise. */
  lemma PayloadKind(data: Json, tag: string)
    requires data.JObject? && Tag(data.fields) == JString(tag)
    requires Classify(data).Success? && PayloadOf(Classify(data).value).Some?
    ensures var p := PayloadOf(Classify(data).value).value;
            && (p.kind == "final" <==> exists j, i :: 0 <= j < |FinalMarkers| && OccursAt(FinalMarkers[j], tag, i))
            && (p.kind == "partial" <==> !exists j, i :: 0 <= j < |FinalMarkers| && OccursAt(FinalMarkers[j], tag, i))
  {
    ClassifyStringTag(data, tag);
  }
}
