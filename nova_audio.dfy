/**
 * The data channel of the speech app: the `on_message` closure that
 * reassembles an uploaded recording and hands it off when `audio-end`
 * arrives, and `process_audio_with_nova_sonic`, which sends the recording to
 * the session as one audio turn and streams the queued response audio back
 * in 1024-octet chunks.
 */
module NovaAudio {
  import opened Wrappers
  import opened Json
  import opened Bytes
  import Base64
  import opened Chunks
  import opened DataChannel
  import opened NovaSession

  /** A buffer and its metadata passed to `process_audio_with_nova_sonic` on `audio-end`. */
  datatype Handoff = Handoff(chunks: seq<Slot>, metadata: Json)

  /** The closure's variables, the messages sent, and the hand-offs made. */
  datatype State = State(receiving: bool, chunks: seq<Slot>, metadata: Json, sent: seq<Json>, handoffs: seq<Handoff>)

  const Initial: State := State(false, [], Empty, [], [])

  /** The reply to `audio-start`. */
  const Ack: Json := Msg("audio-start-ack", "nova-sonic", JObj([StrField("status", "receiving")]))

  /**
   * One incoming frame. A reply to `audio-start` is sent only when the
   * metadata is an object: logging its fields raises first otherwise.
   */
  function Step(st: State, m: Received, parse: string -> Option<Json>): State {
    match m
    case Binary(_) => st
    case Text(t) =>
      match parse(t)
      case None => st
      case Some(j) =>
        if !j.JObj? then st
        else
          var ty := MsgType(j);
          if ty == JStr("audio-start") then
            var meta := MsgData(j);
            var st1 := st.(receiving := true, chunks := [], metadata := meta);
            if meta.JObj? then st1.(sent := st.sent + [Ack]) else st1
          else if ty == JStr("audio-chunk") && st.receiving then
            st.(chunks := StoreChunkData(st.chunks, MsgData(j)))
          else if ty == JStr("audio-end") && st.receiving then
            st.(receiving := false, handoffs := st.handoffs + [Handoff(st.chunks, st.metadata)],
                chunks := [], metadata := Empty)
          else st
  }

  /** `audio-start` sets `receiving` and resets the buffer and the metadata to the message's `data`. */
  lemma StartResets(st: State, m: Received, parse: string -> Option<Json>)
    requires IsTyped(m, parse, "audio-start")
    ensures var st2 := Step(st, m, parse); var meta := MsgData(parse(m.text).value);
      && st2.receiving && st2.chunks == [] && st2.metadata == meta && st2.handoffs == st.handoffs
      && st2.sent == st.sent + (if meta.JObj? then [Ack] else [])
  {
  }

  /**
   * While receiving, a chunk updates the buffer by Python's index rules: a
   * well-formed one is stored at its index after padding, where a later chunk
   * with the same index overwrites it.
   */
  lemma ChunkStored(st: State, m: Received, parse: string -> Option<Json>)
    requires st.receiving && IsTyped(m, parse, "audio-chunk")
    ensures var c := ReadChunk(MsgData(parse(m.text).value));
      && Step(st, m, parse) == st.(chunks := StoreChunkData(st.chunks, MsgData(parse(m.text).value)))
      && (c.Some? ==> Step(st, m, parse).chunks == StoreAt(st.chunks, c.value.0, c.value.1))
      && (c.Some? ==> Step(st, m, parse).chunks[c.value.0] == Some(c.value.1))
  {
  }

  /** Chunks and ends that arrive while not receiving change nothing. */
  lemma IdleIgnores(st: State, m: Received, parse: string -> Option<Json>)
    requires !st.receiving && (IsTyped(m, parse, "audio-chunk") || IsTyped(m, parse, "audio-end"))
    ensures Step(st, m, parse) == st
  {
  }

  /** `audio-end` while receiving hands off the buffer and metadata and resets all three variables. */
  lemma EndHandsOff(st: State, m: Received, parse: string -> Option<Json>)
    requires st.receiving && IsTyped(m, parse, "audio-end")
    ensures Step(st, m, parse) == st.(receiving := false, handoffs := st.handoffs + [Handoff(st.chunks, st.metadata)],
                                      chunks := [], metadata := Empty)
  {
  }

  /** The result of `convert_audio_for_nova_sonic`: the PCM octets, or the exception text. */
  datatype Conversion = Converted(pcm: seq<Byte>) | ConversionError(reason: string)

  /** The error sent when conversion fails. */
  function ErrorMsg(reason: string): Json {
    Msg("error", "nova-sonic", JObj([StrField("message", "Error converting audio: " + reason)]))
  }

  /** `b''.join(pieces)`. */
  function Concat(pieces: seq<seq<Byte>>): seq<Byte> {
    if pieces == [] then [] else Concat(pieces[..|pieces| - 1]) + pieces[|pieces| - 1]
  }

  /** Joining is compatible with splitting the list of pieces anywhere. */
  lemma {:induction false} ConcatAppend(a: seq<seq<Byte>>, b: seq<seq<Byte>>)
    ensures Concat(a + b) == Concat(a) + Concat(b)
    decreases |b|
  {
    if b == [] {
      assert a + b == a;
    } else {
      var front := b[..|b| - 1];
      assert (a + b)[..|a + b| - 1] == a + front;
      ConcatAppend(a, front);
    }
  }

  const ResponseFile: string := "nova-sonic-response.wav"

  /** The `audio-start` that opens the response: the text field is always empty. */
  function ResponseStart(total: nat): Json {
    Msg("audio-start", "nova-sonic", JObj([
      StrField("filename", ResponseFile),
      StrField("mimeType", "audio/wav"),
      ("totalChunks", JInt(total)),
      StrField("text", "")
    ]))
  }

  /** The first `n` chunk messages of `full`. */
  function ResponseChunks(full: seq<Byte>, n: nat): (ms: seq<Json>)
    requires n <= ChunkCount(|full|)
    ensures |ms| == n
    ensures forall i :: 0 <= i < n ==> ms[i] == ChunkMsg("nova-sonic", i, ChunkCount(|full|), ChunkAt(full, i))
  {
    if n == 0 then [] else ResponseChunks(full, n - 1) + [ChunkMsg("nova-sonic", n - 1, ChunkCount(|full|), ChunkAt(full, n - 1))]
  }

  /** Everything the response sends: start, every chunk, end. */
  function ResponseBurst(full: seq<Byte>): seq<Json> {
    [ResponseStart(ChunkCount(|full|))] + ResponseChunks(full, ChunkCount(|full|))
      + [EndMsg("nova-sonic", JStr(ResponseFile))]
  }

  /**
   * The response opens with the start message announcing
   * `ceil(len/1024)` chunks and closes with the end message; chunk message
   * `i` carries index `i` and octets `[i*1024, min((i+1)*1024, len))`; a
   * receiver that reads the chunk messages back and stores them by index
   * holds exactly `full`.
   */
  lemma ResponseBurstRoundTrip(full: seq<Byte>)
    ensures var ms := ResponseBurst(full); var total := ChunkCount(|full|);
      && |ms| == total + 2
      && ms[0] == ResponseStart(total) && ms[|ms| - 1] == EndMsg("nova-sonic", JStr(ResponseFile))
      && (forall i :: 0 <= i < total ==>
            ReadChunk(MsgData(ms[i + 1])) == Some((i, Split(full)[i])) && MsgType(ms[i + 1]) == JStr("audio-chunk"))
      && total * ChunkSize >= |full| && (total == 0 || (total - 1) * ChunkSize < |full|)
      && Payload(StoreAll(Split(full), total)) == full
  {
    var ms := ResponseBurst(full);
    var total := ChunkCount(|full|);
    forall i | 0 <= i < total
      ensures ReadChunk(MsgData(ms[i + 1])) == Some((i, Split(full)[i])) && MsgType(ms[i + 1]) == JStr("audio-chunk")
    {
      assert ms[i + 1] == ChunkMsg("nova-sonic", i, total, ChunkAt(full, i));
      ReadChunkOfChunkMsg("nova-sonic", i, total, ChunkAt(full, i));
    }
    ChunkCountIsCeiling(|full|);
    ReassembleSplit(full);
  }

  class AudioChannel {
    var receiving: bool
    var chunks: seq<Slot>
    var metadata: Json
    var sent: seq<Json>
    var handoffs: seq<Handoff>

    function Current(): State
      reads this
    {
      State(receiving, chunks, metadata, sent, handoffs)
    }

    constructor()
      ensures Current() == Initial
    {
      receiving := false;
      chunks := [];
      metadata := Empty;
      sent := [];
      handoffs := [];
    }

    /** `on_message(message)`. */
    method OnMessage(m: Received, parse: string -> Option<Json>)
      modifies this
      ensures Current() == Step(old(Current()), m, parse)
    {
      if m.Binary? {
        return;
      }
      var parsed := parse(m.text);
      if parsed.None? || !parsed.value.JObj? {
        return;
      }
      var j := parsed.value;
      var ty := MsgType(j);
      if ty == JStr("audio-start") {
        receiving := true;
        chunks := [];
        metadata := MsgData(j);
        if metadata.JObj? {
          sent := sent + [Ack];
        }
      } else if ty == JStr("audio-chunk") && receiving {
        chunks := ApplyChunk(chunks, MsgData(j));
      } else if ty == JStr("audio-end") && receiving {
        receiving := false;
        handoffs := handoffs + [Handoff(chunks, metadata)];
        chunks := [];
        metadata := Empty;
      }
    }

    /**
     * `process_audio_with_nova_sonic`: with no session, nothing; when
     * conversion fails, the error message; otherwise the session is started
     * if it is inactive, the converted audio is sent as one audio turn, the
     * first `taken` queued response pieces are removed from the queue, and
     * their concatenation is streamed back.
     */
    method ProcessAudio(session: SimpleNovaSonic?, conv: Conversion, taken: nat)
      requires session != null ==> session.Valid() && taken <= |session.audioQueue|
      modifies this, session
      ensures session == null ==> sent == old(sent)
      ensures session != null && conv.ConversionError? ==>
        && sent == old(sent) + [ErrorMsg(conv.reason)]
        && unchanged(session) && session.Valid()
      ensures session != null && conv.Converted? ==>
        && session.Valid() && session.isActive
        && session.events == old(session.events)
             + (if old(session.isActive) then [] else StartEvents(session.promptName, session.contentName, session.voiceId))
             + AudioTurn(session.promptName, session.audioContentName, conv.pcm)
        && session.audioQueue == old(session.audioQueue)[taken..]
        && sent == old(sent) + ResponseBurst(Concat(old(session.audioQueue)[..taken]))
      ensures receiving == old(receiving) && chunks == old(chunks) && metadata == old(metadata)
      ensures handoffs == old(handoffs)
    {
      if session == null {
        return;
      }
      if conv.ConversionError? {
        sent := sent + [ErrorMsg(conv.reason)];
        return;
      }
      SendTurn(session, conv.pcm);
      var pieces := session.audioQueue[..taken];
      session.audioQueue := session.audioQueue[taken..];
      var full := Concat(pieces);
      SendResponse(full);
    }

    /** Stream `full` back: the start message, one message per 1024-octet chunk, the end message. */
    method SendResponse(full: seq<Byte>)
      modifies this
      ensures sent == old(sent) + ResponseBurst(full)
      ensures receiving == old(receiving) && chunks == old(chunks) && metadata == old(metadata)
      ensures handoffs == old(handoffs)
    {
      var total := ChunkCount(|full|);
      var out := [ResponseStart(total)];
      ChunkCountIsCeiling(|full|);
      for i := 0 to total
        invariant out == [ResponseStart(total)] + ResponseChunks(full, i)
      {
        var start := i * ChunkSize;
        var stop := Min(start + ChunkSize, |full|);
        var chunk := full[start..stop];
        assert chunk == ChunkAt(full, i);
        out := out + [ChunkMsg("nova-sonic", i, total, chunk)];
      }
      out := out + [EndMsg("nova-sonic", JStr(ResponseFile))];
      sent := sent + out;
    }
  }

  /**
   * The session half of `process_audio_with_nova_sonic`: start the session
   * if it is inactive, then send the audio as one turn under a fresh name.
   */
  method SendTurn(session: SimpleNovaSonic, pcm: seq<Byte>)
    requires session.Valid()
    modifies session
    ensures session.Valid() && session.isActive
    ensures session.events == old(session.events)
      + (if old(session.isActive) then [] else StartEvents(session.promptName, session.contentName, session.voiceId))
      + AudioTurn(session.promptName, session.audioContentName, pcm)
    ensures session.audioQueue == old(session.audioQueue)
  {
    if !session.isActive {
      session.StartSession();
    }
    SendAudioTurn(session, pcm);
  }

  /** One audio turn on an active session: open a fresh audio content, send the audio, close it. */
  method SendAudioTurn(session: SimpleNovaSonic, pcm: seq<Byte>)
    requires session.Valid() && session.isActive
    modifies session
    ensures session.Valid() && session.isActive
    ensures session.events == old(session.events) + AudioTurn(session.promptName, session.audioContentName, pcm)
    ensures session.audioQueue == old(session.audioQueue)
  {
    session.StartAudioInput();
    session.SendAudioChunk(pcm);
    session.EndAudioInput();
  }
}
