/**
 * The request and message records of the WebRTC API (`WebRTCOffer`,
 * `WebRTCAnswer`, the three audio message bodies and the data-channel
 * envelope), with their required fields and defaults, each with the
 * validation that builds it from parsed JSON and the serialisation back.
 * Validation is strict: a field must already have the declared JSON type.
 */
module WebrtcModels {
  import opened Wrappers
  import opened Json

  datatype Offer = Offer(sdp: string, sdpType: string, pcId: Option<string>, restartPc: Option<bool>)

  datatype Answer = Answer(sdp: string, sdpType: string, pcId: string)

  datatype AudioStart = AudioStart(filename: string, fileSize: int, mimeType: string, totalChunks: int)

  datatype AudioChunk = AudioChunk(chunkIndex: int, totalChunks: int, chunk: seq<int>)

  datatype AudioEnd = AudioEnd(filename: string)

  datatype Envelope = Envelope(msgType: string, sender: string, data: seq<(string, Json)>)

  /** A required string field. */
  function ReqStr(fields: seq<(string, Json)>, key: string): Option<string> {
    match Lookup(fields, key)
    case Some(JStr(s)) => Some(s)
    case _ => None
  }

  /** A required integer field. */
  function ReqInt(fields: seq<(string, Json)>, key: string): Option<int> {
    match Lookup(fields, key)
    case Some(JInt(i)) => Some(i)
    case _ => None
  }

  /** An optional field: absent or null gives the default; another type fails (None). */
  function OptStr(fields: seq<(string, Json)>, key: string): Option<Option<string>> {
    match Lookup(fields, key)
    case None => Some(None)
    case Some(JNull) => Some(None)
    case Some(JStr(s)) => Some(Some(s))
    case _ => None
  }

  function OptBool(fields: seq<(string, Json)>, key: string, default: Option<bool>): Option<Option<bool>> {
    match Lookup(fields, key)
    case None => Some(default)
    case Some(JNull) => Some(None)
    case Some(JBool(b)) => Some(Some(b))
    case _ => None
  }

  function AllInts(items: seq<Json>): bool {
    forall i :: 0 <= i < |items| ==> items[i].JInt?
  }

  /** `WebRTCOffer(**body)`: `sdp` and `type` required, `pc_id` defaults to None, `restart_pc` to False. */
  function ParseOffer(j: Json): (r: Option<Offer>)
    ensures r.Some? <==> (j.JObj? && ReqStr(j.fields, "sdp").Some? && ReqStr(j.fields, "type").Some?
      && OptStr(j.fields, "pc_id").Some? && OptBool(j.fields, "restart_pc", Some(false)).Some?)
    ensures r.Some? ==> (ReqStr(j.fields, "sdp") == Some(r.value.sdp) && ReqStr(j.fields, "type") == Some(r.value.sdpType)
      && OptStr(j.fields, "pc_id") == Some(r.value.pcId)
      && OptBool(j.fields, "restart_pc", Some(false)) == Some(r.value.restartPc))
    ensures r.Some? && "pc_id" !in Keys(j.fields) ==> r.value.pcId == None
    ensures r.Some? && "restart_pc" !in Keys(j.fields) ==> r.value.restartPc == Some(false)
  {
    if !j.JObj? then None
    else
      LookupSpec(j.fields, "pc_id");
      LookupSpec(j.fields, "restart_pc");
      match (ReqStr(j.fields, "sdp"), ReqStr(j.fields, "type"), OptStr(j.fields, "pc_id"),
             OptBool(j.fields, "restart_pc", Some(false)))
      case (Some(sdp), Some(t), Some(id), Some(restart)) => Some(Offer(sdp, t, id, restart))
      case _ => None
  }

  function OptStrJson(o: Option<string>): Json {
    if o.Some? then JStr(o.value) else JNull
  }

  function OptBoolJson(o: Option<bool>): Json {
    if o.Some? then JBool(o.value) else JNull
  }

  /** `model_dump()` of an offer. */
  function OfferJson(o: Offer): Json {
    JObj([("sdp", JStr(o.sdp)), ("type", JStr(o.sdpType)), ("pc_id", OptStrJson(o.pcId)),
          ("restart_pc", OptBoolJson(o.restartPc))])
  }

  lemma OfferRoundTrip(o: Offer)
    ensures ParseOffer(OfferJson(o)) == Some(o)
  {
    var f := OfferJson(o).fields;
    LookupLast(f, 0); LookupLast(f, 1); LookupLast(f, 2); LookupLast(f, 3);
  }

  /** `WebRTCAnswer(...)`: all three fields required. */
  function ParseAnswer(j: Json): (r: Option<Answer>)
    ensures r.Some? <==> (j.JObj? && ReqStr(j.fields, "sdp").Some? && ReqStr(j.fields, "type").Some?
      && ReqStr(j.fields, "pc_id").Some?)
    ensures r.Some? ==> (ReqStr(j.fields, "sdp") == Some(r.value.sdp) && ReqStr(j.fields, "type") == Some(r.value.sdpType)
      && ReqStr(j.fields, "pc_id") == Some(r.value.pcId))
  {
    if !j.JObj? then None
    else match (ReqStr(j.fields, "sdp"), ReqStr(j.fields, "type"), ReqStr(j.fields, "pc_id"))
      case (Some(sdp), Some(t), Some(id)) => Some(Answer(sdp, t, id))
      case _ => None
  }

  function AnswerJson(a: Answer): Json {
    JObj([("sdp", JStr(a.sdp)), ("type", JStr(a.sdpType)), ("pc_id", JStr(a.pcId))])
  }

  lemma AnswerRoundTrip(a: Answer)
    ensures ParseAnswer(AnswerJson(a)) == Some(a)
  {
    var f := AnswerJson(a).fields;
    LookupLast(f, 0); LookupLast(f, 1); LookupLast(f, 2);
  }

  /** `AudioStartMessage`: filename, fileSize, mimeType and totalChunks, all required. */
  function ParseAudioStart(j: Json): (r: Option<AudioStart>)
    ensures r.Some? ==> j.JObj? && forall k :: k in ["filename", "fileSize", "mimeType", "totalChunks"] ==> k in Keys(j.fields)
    ensures r.Some? <==> (j.JObj? && ReqStr(j.fields, "filename").Some? && ReqInt(j.fields, "fileSize").Some?
      && ReqStr(j.fields, "mimeType").Some? && ReqInt(j.fields, "totalChunks").Some?)
    ensures r.Some? ==>
      && ReqStr(j.fields, "filename") == Some(r.value.filename) && ReqInt(j.fields, "fileSize") == Some(r.value.fileSize)
      && ReqStr(j.fields, "mimeType") == Some(r.value.mimeType)
      && ReqInt(j.fields, "totalChunks") == Some(r.value.totalChunks)
  {
    if !j.JObj? then None
    else
      LookupSpec(j.fields, "filename"); LookupSpec(j.fields, "fileSize");
      LookupSpec(j.fields, "mimeType"); LookupSpec(j.fields, "totalChunks");
      match (ReqStr(j.fields, "filename"), ReqInt(j.fields, "fileSize"), ReqStr(j.fields, "mimeType"),
             ReqInt(j.fields, "totalChunks"))
      case (Some(f), Some(n), Some(mt), Some(t)) => Some(AudioStart(f, n, mt, t))
      case _ => None
  }

  function AudioStartJson(m: AudioStart): Json {
    JObj([("filename", JStr(m.filename)), ("fileSize", JInt(m.fileSize)), ("mimeType", JStr(m.mimeType)),
          ("totalChunks", JInt(m.totalChunks))])
  }

  lemma AudioStartRoundTrip(m: AudioStart)
    ensures ParseAudioStart(AudioStartJson(m)) == Some(m)
  {
    var f := AudioStartJson(m).fields;
    LookupLast(f, 0); LookupLast(f, 1); LookupLast(f, 2); LookupLast(f, 3);
  }

  /** `AudioChunkMessage`: chunkIndex, totalChunks and chunk (a list of ints), all required. */
  function ParseAudioChunk(j: Json): (r: Option<AudioChunk>)
    ensures r.Some? ==> j.JObj? && forall k :: k in ["chunkIndex", "totalChunks", "chunk"] ==> k in Keys(j.fields)
    ensures r.Some? ==>
      Lookup(j.fields, "chunk").Some? && Lookup(j.fields, "chunk").value.JArr? &&
      |r.value.chunk| == |Lookup(j.fields, "chunk").value.items| &&
      forall k :: 0 <= k < |r.value.chunk| ==>
        (Lookup(j.fields, "chunk").value.items[k].JInt? && r.value.chunk[k] == Lookup(j.fields, "chunk").value.items[k].i)
    ensures r.Some? ==>
      ReqInt(j.fields, "chunkIndex") == Some(r.value.chunkIndex) && ReqInt(j.fields, "totalChunks") == Some(r.value.totalChunks)
    ensures j.JObj? && ReqInt(j.fields, "chunkIndex").Some? && ReqInt(j.fields, "totalChunks").Some?
      && Lookup(j.fields, "chunk").Some? && Lookup(j.fields, "chunk").value.JArr? && AllInts(Lookup(j.fields, "chunk").value.items)
      ==> r.Some?
  {
    if !j.JObj? then None
    else
      LookupSpec(j.fields, "chunkIndex"); LookupSpec(j.fields, "totalChunks"); LookupSpec(j.fields, "chunk");
      match (ReqInt(j.fields, "chunkIndex"), ReqInt(j.fields, "totalChunks"), Lookup(j.fields, "chunk"))
      case (Some(i), Some(t), Some(JArr(items))) =>
        if AllInts(items) then Some(AudioChunk(i, t, seq(|items|, k requires 0 <= k < |items| => items[k].i)))
        else None
      case _ => None
  }

  function IntsJson(xs: seq<int>): Json {
    JArr(seq(|xs|, k requires 0 <= k < |xs| => JInt(xs[k])))
  }

  function AudioChunkJson(m: AudioChunk): Json {
    JObj([("chunkIndex", JInt(m.chunkIndex)), ("totalChunks", JInt(m.totalChunks)), ("chunk", IntsJson(m.chunk))])
  }

  lemma AudioChunkRoundTrip(m: AudioChunk)
    ensures ParseAudioChunk(AudioChunkJson(m)) == Some(m)
  {
    var f := AudioChunkJson(m).fields;
    LookupLast(f, 0); LookupLast(f, 1); LookupLast(f, 2);
    var items := IntsJson(m.chunk).items;
    assert AllInts(items);
    assert seq(|items|, k requires 0 <= k < |items| => items[k].i) == m.chunk;
  }

  /** `AudioEndMessage`: only `filename`. */
  function ParseAudioEnd(j: Json): (r: Option<AudioEnd>)
    ensures r.Some? <==> j.JObj? && ReqStr(j.fields, "filename").Some?
    ensures r.Some? ==> ReqStr(j.fields, "filename") == Some(r.value.filename)
  {
    if !j.JObj? then None
    else match ReqStr(j.fields, "filename")
      case Some(f) => Some(AudioEnd(f))
      case None => None
  }

  function AudioEndJson(m: AudioEnd): Json {
    JObj([("filename", JStr(m.filename))])
  }

  lemma AudioEndRoundTrip(m: AudioEnd)
    ensures ParseAudioEnd(AudioEndJson(m)) == Some(m)
  {
    LookupLast(AudioEndJson(m).fields, 0);
  }

  /** `DataChannelMessage`: `type` and `label` required, `data` an object defaulting to `{}`. */
  function ParseEnvelope(j: Json): (r: Option<Envelope>)
    ensures r.Some? ==> (j.JObj? && ReqStr(j.fields, "type") == Some(r.value.msgType)
      && ReqStr(j.fields, "label") == Some(r.value.sender))
    ensures r.Some? && "data" in Keys(j.fields) ==> Lookup(j.fields, "data") == Some(JObj(r.value.data))
    ensures (j.JObj? && ReqStr(j.fields, "type").Some? && ReqStr(j.fields, "label").Some?
      && (Lookup(j.fields, "data").None? || Lookup(j.fields, "data").value.JObj?)) ==> r.Some?
    ensures r.Some? && "data" !in Keys(j.fields) ==> r.value.data == []
  {
    if !j.JObj? then None
    else
      LookupSpec(j.fields, "data");
      match (ReqStr(j.fields, "type"), ReqStr(j.fields, "label"), Lookup(j.fields, "data"))
      case (Some(t), Some(l), None) => Some(Envelope(t, l, []))
      case (Some(t), Some(l), Some(JObj(d))) => Some(Envelope(t, l, d))
      case _ => None
  }

  function EnvelopeJson(m: Envelope): Json {
    JObj([("type", JStr(m.msgType)), ("label", JStr(m.sender)), ("data", JObj(m.data))])
  }

  lemma EnvelopeRoundTrip(m: Envelope)
    ensures ParseEnvelope(EnvelopeJson(m)) == Some(m)
  {
    var f := EnvelopeJson(m).fields;
    LookupLast(f, 0); LookupLast(f, 1); LookupLast(f, 2);
  }
}
