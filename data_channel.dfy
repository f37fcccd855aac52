/**
 * The messages exchanged on the WebRTC data channel: what arrives (text or
 * binary frames; text holds a JSON object with `type`, `label` and `data`),
 * how a chunk message's fields are read, and the messages the server sends
 * back, as the JSON objects handed to `json.dumps`.
 */
module DataChannel {
  import opened Wrappers
  import opened Json
  import opened Bytes
  import opened Chunks

  /** A data-channel frame: a text message or a binary one. */
  datatype Received = Text(text: string) | Binary(size: nat)

  /** `data.get('type', 'unknown')`. */
  function MsgType(j: Json): Json
    requires j.JObj?
  {
    Get(j, "type", JStr("unknown"))
  }

  /** `data.get('data', {})`. */
  function MsgData(j: Json): Json
    requires j.JObj?
  {
    Get(j, "data", Empty)
  }

  /** The parsed message when `m` is a text frame holding a JSON object whose type is `ty`. */
  predicate IsTyped(m: Received, parse: string -> Option<Json>, ty: string) {
    && m.Text? && parse(m.text).Some? && parse(m.text).value.JObj?
    && MsgType(parse(m.text).value) == JStr(ty)
  }

  /**
   * What an `audio-chunk` does to the buffer: `chunk_data.get(...)`,
   * `bytes(chunk_array)`, the padding loop and the store, under Python's
   * index rules. A non-negative int pads and stores; a bool is the int 0 or
   * 1; a negative int counts from the end and raises past the start; a float
   * pads and then raises, since list indices must be integers; any other
   * index (the comparison raises), `data` that is not an object, or a
   * `chunk` that `bytes` rejects leaves the buffer as it was.
   */
  function StoreChunkData(buf: seq<Slot>, chunkData: Json): (r: seq<Slot>)
    ensures ReadChunk(chunkData).Some? ==> r == StoreAt(buf, ReadChunk(chunkData).value.0, ReadChunk(chunkData).value.1)
    ensures |buf| <= |r|
    ensures forall k :: 0 <= k < |buf| ==> r[k] == buf[k] || r[k].Some?
    ensures chunkData.JObj? && PyBytes(Get(chunkData, "chunk", JArr([]))).None? ==> r == buf
  {
    if !chunkData.JObj? then buf
    else match PyBytes(Get(chunkData, "chunk", JArr([])))
      case None => buf
      case Some(b) =>
        match Get(chunkData, "chunkIndex", JInt(-1))
        case JInt(i) =>
          if i >= 0 then StoreAt(buf, i, b)
          else if -|buf| <= i then buf[|buf| + i := Some(b)]
          else buf
        case JBool(t) => StoreAt(buf, if t then 1 else 0, b)
        case JReal(x) => Padded(buf, if x < 0.0 then 0 else x.Floor + 1)
        case _ => buf
  }

  /** `StoreChunkData`, computed as the handler does: pad one slot at a time, then store. */
  method ApplyChunk(buf: seq<Slot>, chunkData: Json) returns (r: seq<Slot>)
    ensures r == StoreChunkData(buf, chunkData)
  {
    r := buf;
    if !chunkData.JObj? {
      return;
    }
    var bytes := PyBytes(Get(chunkData, "chunk", JArr([])));
    if bytes.None? {
      return;
    }
    var b := bytes.value;
    match Get(chunkData, "chunkIndex", JInt(-1))
    case JInt(i) =>
      if i >= 0 {
        r := PadSlots(buf, i + 1);
        r := r[i := Some(b)];
      } else if -|buf| <= i {
        r := buf[|buf| + i := Some(b)];
      }
    case JBool(t) =>
      var i := if t then 1 else 0;
      r := PadSlots(buf, i + 1);
      r := r[i := Some(b)];
    case JReal(x) =>
      r := PadSlots(buf, if x < 0.0 then 0 else x.Floor + 1);
    case _ =>
  }

  /** The well-formed reading of an `audio-chunk`'s `data`: a non-negative int index and the octets, else None. */
  function ReadChunk(chunkData: Json): Option<(nat, seq<Byte>)> {
    if !chunkData.JObj? then None
    else
      var idx := Get(chunkData, "chunkIndex", JInt(-1));
      if !idx.JInt? || idx.i < 0 then None
      else match PyBytes(Get(chunkData, "chunk", JArr([])))
        case None => None
        case Some(b) => Some((idx.i, b))
  }

  /** `{'type': ty, 'label': sender, 'data': data}`. */
  function Msg(ty: string, sender: string, data: Json): Json {
    JObj([StrField("type", ty), StrField("label", sender), ("data", data)])
  }

  /** `{'chunkIndex': i, 'totalChunks': total, 'chunk': list(b)}` under `sender`. */
  function ChunkMsg(sender: string, i: nat, total: nat, b: seq<Byte>): Json {
    Msg("audio-chunk", sender, JObj([("chunkIndex", JInt(i)), ("totalChunks", JInt(total)), ("chunk", ToJson(b))]))
  }

  /** `{'filename': filename}` as an `audio-end` under `sender`. */
  function EndMsg(sender: string, filename: Json): Json {
    Msg("audio-end", sender, JObj([("filename", filename)]))
  }

  /** The echo of `audio-start`: the received metadata, unchanged. */
  function EchoStart(metadata: Json): Json {
    Msg("audio-start", "server-echo", metadata)
  }

  /** The echoed file name, `metadata.get('filename', 'echo.wav')`. */
  function EchoFilename(metadata: Json): Json
    requires metadata.JObj?
  {
    Get(metadata, "filename", JStr("echo.wav"))
  }

  /** The `audio-start` that opens the echo of a buffer. */
  function EchoSummary(metadata: Json, buf: seq<Slot>): Json
    requires metadata.JObj?
  {
    Msg("audio-start", "server-echo", JObj([
      ("filename", EchoFilename(metadata)),
      ("fileSize", JInt(FileSize(buf))),
      ("mimeType", Get(metadata, "mimeType", JStr("audio/wav"))),
      ("totalChunks", JInt(|buf|))
    ]))
  }

  /** One echoed `audio-chunk` per piece, under the piece's own index. */
  function EchoChunks(p: seq<(nat, seq<Byte>)>, total: nat): (ms: seq<Json>)
    ensures |ms| == |p|
    ensures forall k :: 0 <= k < |p| ==> ms[k] == ChunkMsg("server-echo", p[k].0, total, p[k].1)
  {
    if p == [] then [] else EchoChunks(p[..|p| - 1], total) + [ChunkMsg("server-echo", p[|p| - 1].0, total, p[|p| - 1].1)]
  }

  /** Everything the echo of `buf` sends: the summary, the filled chunks, the end. */
  function EchoBurst(metadata: Json, buf: seq<Slot>): seq<Json>
    requires metadata.JObj?
  {
    [EchoSummary(metadata, buf)] + EchoChunks(Pieces(buf, |buf|), |buf|) + [EndMsg("server-echo", EchoFilename(metadata))]
  }

  /**
   * The echo burst opens with a start (the buffer length as `totalChunks`,
   * the held octets as `fileSize`), sends each filled slot as a chunk under
   * its index, and closes with the end message.
   */
  lemma EchoBurstShape(metadata: Json, buf: seq<Slot>)
    requires metadata.JObj?
    ensures var ms := EchoBurst(metadata, buf); var p := Pieces(buf, |buf|);
      && |ms| == |p| + 2
      && ms[0] == EchoSummary(metadata, buf)
      && ms[|ms| - 1] == EndMsg("server-echo", EchoFilename(metadata))
      && forall k :: 0 <= k < |p| ==> ms[k + 1] == ChunkMsg("server-echo", p[k].0, |buf|, p[k].1)
  {
    var p := Pieces(buf, |buf|);
    var c := EchoChunks(p, |buf|);
    var ms := EchoBurst(metadata, buf);
    assert ms == [EchoSummary(metadata, buf)] + c + [EndMsg("server-echo", EchoFilename(metadata))];
    forall k | 0 <= k < |p| ensures ms[k + 1] == c[k] {
    }
  }

  /**
   * Reading back an echoed chunk gives its index and octets unchanged, so a
   * client that stores the echoed chunks rebuilds the same buffer.
   */
  lemma ReadChunkOfChunkMsg(sender: string, i: nat, total: nat, b: seq<Byte>)
    ensures var m := ChunkMsg(sender, i, total, b);
      MsgType(m) == JStr("audio-chunk") && ReadChunk(MsgData(m)) == Some((i, b))
  {
    var m := ChunkMsg(sender, i, total, b);
    var d := MsgData(m);
    LookupLast(m.fields, 0);
    LookupLast(m.fields, 2);
    LookupLast(d.fields, 0);
    LookupLast(d.fields, 2);
    BytesOfList(b);
  }
}
