/**
 * The per-channel `on_message` closure of the echo servers
 * (`WebRTCSignalingManager` and the simple app): three captured variables
 * (`receiving_audio`, `audio_chunks`, `audio_metadata`) updated message by
 * message, and the messages sent back on the channel. The signaling manager
 * first offers each message to a registered handler; the simple app has no
 * handlers, which is the same closure with an empty handler set.
 */
module EchoChannel {
  import opened Wrappers
  import opened Json
  import opened Bytes
  import opened Chunks
  import opened DataChannel

  /**
   * The closure's variables, the messages sent on the channel, and the
   * (type, message) pairs handed to registered handlers.
   */
  datatype State = State(
    receiving: bool,
    chunks: seq<Slot>,
    metadata: Json,
    sent: seq<Json>,
    handled: seq<(string, Json)>)

  /** A new data channel: not receiving, no chunks, `{}` metadata, nothing sent. */
  const Initial: State := State(false, [], Empty, [], [])

  /** What one incoming frame does to the channel state. */
  function Step(st: State, m: Received, parse: string -> Option<Json>, handlers: set<string>): State {
    match m
    case Binary(_) => st
    case Text(t) =>
      match parse(t)
      case None => st
      case Some(j) =>
        if !j.JObj? then st
        else
          var ty := MsgType(j);
          if ty.JStr? && ty.s in handlers then st.(handled := st.handled + [(ty.s, j)])
          else if ty == JStr("audio-start") then
            var meta := MsgData(j);
            var st1 := st.(receiving := true, chunks := [], metadata := meta);
            if meta.JObj? then st1.(sent := st.sent + [EchoStart(meta)]) else st1
          else if ty == JStr("audio-chunk") && st.receiving then
            st.(chunks := StoreChunkData(st.chunks, MsgData(j)))
          else if ty == JStr("audio-end") && st.receiving then
            if !st.metadata.JObj? then st.(receiving := false)
            else st.(receiving := false, sent := st.sent + EchoBurst(st.metadata, st.chunks),
                     chunks := [], metadata := Empty)
          else st
  }

  /** The parsed object of a typed text frame. */
  function Parsed(m: Received, parse: string -> Option<Json>): Json
    requires m.Text? && parse(m.text).Some?
  {
    parse(m.text).value
  }

  /** Binary frames, text that is not JSON, and JSON that is not an object change nothing. */
  lemma IgnoresNonObjects(st: State, m: Received, parse: string -> Option<Json>, handlers: set<string>)
    requires m.Binary? || parse(m.text).None? || !parse(m.text).value.JObj?
    ensures Step(st, m, parse, handlers) == st
  {
  }

  /** A type with a registered handler goes to the handler and nothing else happens. */
  lemma HandlerShortCircuits(st: State, m: Received, parse: string -> Option<Json>, handlers: set<string>, ty: string)
    requires IsTyped(m, parse, ty) && ty in handlers
    ensures Step(st, m, parse, handlers) == st.(handled := st.handled + [(ty, Parsed(m, parse))])
  {
  }

  /**
   * `audio-start` sets `receiving`, empties the buffer, keeps the message's
   * `data` (default `{}`) as metadata, and echoes that metadata back unchanged.
   */
  lemma StartResets(st: State, m: Received, parse: string -> Option<Json>, handlers: set<string>)
    requires IsTyped(m, parse, "audio-start") && "audio-start" !in handlers
    ensures var st2 := Step(st, m, parse, handlers); var meta := MsgData(Parsed(m, parse));
      && st2.receiving && st2.chunks == [] && st2.metadata == meta && st2.handled == st.handled
      && st2.sent == st.sent + (if meta.JObj? then [EchoStart(meta)] else [])
      && (meta.JObj? ==> Lookup(EchoStart(meta).fields, "data") == Some(meta))
  {
    var meta := MsgData(Parsed(m, parse));
    LookupLast(EchoStart(meta).fields, 2);
  }

  /**
   * While receiving, a chunk updates the buffer by Python's index rules; a
   * well-formed one is stored at its index after padding.
   */
  lemma ChunkStored(st: State, m: Received, parse: string -> Option<Json>, handlers: set<string>)
    requires st.receiving && IsTyped(m, parse, "audio-chunk") && "audio-chunk" !in handlers
    ensures var c := ReadChunk(MsgData(Parsed(m, parse)));
      && Step(st, m, parse, handlers) == st.(chunks := StoreChunkData(st.chunks, MsgData(Parsed(m, parse))))
      && (c.Some? ==> Step(st, m, parse, handlers).chunks == StoreAt(st.chunks, c.value.0, c.value.1))
  {
  }

  /** Chunk and end messages that arrive while not receiving change nothing and send nothing. */
  lemma IdleIgnores(st: State, m: Received, parse: string -> Option<Json>, handlers: set<string>)
    requires !st.receiving
    requires (IsTyped(m, parse, "audio-chunk") && "audio-chunk" !in handlers)
          || (IsTyped(m, parse, "audio-end") && "audio-end" !in handlers)
    ensures Step(st, m, parse, handlers) == st
  {
  }

  /**
   * `audio-end` while receiving clears `receiving`, sends the echo burst of
   * the buffer, and resets buffer and metadata; with metadata that is not an
   * object the echo raises before anything is sent.
   */
  lemma EndEchoes(st: State, m: Received, parse: string -> Option<Json>, handlers: set<string>)
    requires st.receiving && IsTyped(m, parse, "audio-end") && "audio-end" !in handlers
    ensures var st2 := Step(st, m, parse, handlers);
      && !st2.receiving && st2.handled == st.handled
      && (st.metadata.JObj? ==>
            st2.sent == st.sent + EchoBurst(st.metadata, st.chunks) && st2.chunks == [] && st2.metadata == Empty)
      && (!st.metadata.JObj? ==> st2 == st.(receiving := false))
  {
  }

  /** With no handlers registered, nothing is ever handed to a handler. */
  lemma NoHandlerNoCall(st: State, m: Received, parse: string -> Option<Json>)
    ensures Step(st, m, parse, {}).handled == st.handled
  {
  }

  class Channel {
    var receiving: bool
    var chunks: seq<Slot>
    var metadata: Json
    var sent: seq<Json>
    var handled: seq<(string, Json)>

    function Current(): State
      reads this
    {
      State(receiving, chunks, metadata, sent, handled)
    }

    constructor()
      ensures Current() == Initial
    {
      receiving := false;
      chunks := [];
      metadata := Empty;
      sent := [];
      handled := [];
    }

    /** `on_message(message)`. */
    method OnMessage(m: Received, parse: string -> Option<Json>, handlers: set<string>)
      modifies this
      ensures Current() == Step(old(Current()), m, parse, handlers)
    {
      if m.Binary? {
        return;
      }
      var parsed := parse(m.text);
      if parsed.None? || !parsed.value.JObj? {
        return;
      }
      var j := parsed.value;
      var ty := MsgType(j);
      if ty.JStr? && ty.s in handlers {
        handled := handled + [(ty.s, j)];
        return;
      }
      if ty == JStr("audio-start") {
        receiving := true;
        chunks := [];
        metadata := MsgData(j);
        if metadata.JObj? {
          sent := sent + [EchoStart(metadata)];
        }
      } else if ty == JStr("audio-chunk") && receiving {
        chunks := ApplyChunk(chunks, MsgData(j));
      } else if ty == JStr("audio-end") && receiving {
        receiving := false;
        if metadata.JObj? {
          EchoAll();
        }
      }
    }

    /** Send the echo of the buffer (start, filled chunks, end), then clear buffer and metadata. */
    method EchoAll()
      requires metadata.JObj?
      modifies this
      ensures sent == old(sent) + EchoBurst(old(metadata), old(chunks))
      ensures chunks == [] && metadata == Empty
      ensures receiving == old(receiving) && handled == old(handled)
    {
      var out := EchoMessages(metadata, chunks);
      sent := sent + out;
      chunks := [];
      metadata := Empty;
    }
  }

  /** The messages of one echo, built as the loop over the buffer builds them. */
  method EchoMessages(metadata: Json, buf: seq<Slot>) returns (out: seq<Json>)
    requires metadata.JObj?
    ensures out == EchoBurst(metadata, buf)
  {
    var total := |buf|;
    out := [EchoSummary(metadata, buf)];
    for k := 0 to |buf|
      invariant out == [EchoSummary(metadata, buf)] + EchoChunks(Pieces(buf, k), total)
    {
      if buf[k].Some? {
        ghost var p := Pieces(buf, k);
        assert (p + [(k, buf[k].value)])[..|p|] == p;
        out := out + [ChunkMsg("server-echo", k, total, buf[k].value)];
      }
    }
    out := out + [EndMsg("server-echo", EchoFilename(metadata))];
  }
}
