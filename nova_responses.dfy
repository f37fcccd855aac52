/**
 * How `SimpleNovaSonic._process_responses` folds the model's output events
 * into state: the current `role`, the `display_assistant_text` flag, the text
 * and audio accumulated, the audio queue, and the transcript lines it logs.
 * Every Python operation that can raise (`in` on a non-container, indexing,
 * `json.loads`, `+=` on a non-string, `b64decode`) is followed, and an
 * exception ends the whole loop.
 */
module NovaResponses {
  import opened Wrappers
  import opened Json
  import opened Bytes
  import Base64

  /** A transcript line the loop logs. */
  datatype Line = AssistantLine(text: string) | UserLine(text: string)

  /** One result of awaiting the output stream. */
  datatype Output =
    | Payload(text: string)   // the decoded bytes of one chunk; "" means no bytes
    | Raise                   // awaiting or decoding raised an exception
    | Cancel                  // the response loop was cancelled

  /**
   * The loop's state: `role` and `display` (fields of the session), the
   * accumulated `text` and `chunks` (locals), the `queue` and the logged lines.
   */
  datatype RState = RState(
    role: Json,
    display: bool,
    text: string,
    chunks: seq<seq<Byte>>,
    queue: seq<seq<Byte>>,
    shown: seq<Line>)

  /** Handling one event either continues, or raises after the changes made so far. */
  datatype StepResult = Continue(st: RState) | Abort(st: RState)

  /** How the response task ends. */
  datatype Outcome =
    | Returned(text: string, chunks: seq<seq<Byte>>)   // the loop returned this pair
    | Cancelled                                        // `CancelledError` re-raised
    | Waiting(text: string, chunks: seq<seq<Byte>>)    // still awaiting the next output

  /** The `contentStart` branch: set `role`, then read the generation stage if there is one. */
  function OnContentStart(st: RState, ev: Json, parse: string -> Option<Json>): StepResult {
    match Subscript(ev, "contentStart")
    case None => Abort(st)
    case Some(cs) =>
      if !cs.JObj? then Abort(st)
      else
        var st1 := st.(role := Get(cs, "role", JNull));
        match Lookup(cs.fields, "additionalModelFields")
        case None => Continue(st1)
        case Some(extra) =>
          if !extra.JStr? then Abort(st1)
          else match parse(extra.s)
            case None => Abort(st1)
            case Some(fields) =>
              if !fields.JObj? then Abort(st1)
              else Continue(st1.(display := Get(fields, "generationStage", JNull) == JStr("SPECULATIVE")))
  }

  /** The line logged for a piece of text, if any: assistant text only while displayed, user text always. */
  function Surfaced(role: Json, display: bool, text: string): seq<Line> {
    if role == JStr("ASSISTANT") && display then [AssistantLine(text)]
    else if role == JStr("USER") then [UserLine(text)]
    else []
  }

  /** The `textOutput` branch. */
  function OnTextOutput(st: RState, ev: Json): StepResult {
    match Subscript(ev, "textOutput")
    case None => Abort(st)
    case Some(t) =>
      match Subscript(t, "content")
      case None => Abort(st)
      case Some(c) =>
        if !c.JStr? then Abort(st)
        else Continue(st.(text := st.text + c.s, shown := st.shown + Surfaced(st.role, st.display, c.s)))
  }

  /** The `audioOutput` branch. */
  function OnAudioOutput(st: RState, ev: Json): StepResult {
    match Subscript(ev, "audioOutput")
    case None => Abort(st)
    case Some(a) =>
      match Subscript(a, "content")
      case None => Abort(st)
      case Some(c) =>
        if !c.JStr? then Abort(st)
        else match Base64.Decode(c.s)
          case None => Abort(st)
          case Some(b) => Continue(st.(chunks := st.chunks + [b], queue := st.queue + [b]))
  }

  /** One parsed output event, dispatched on the first of its variant keys that is present. */
  function HandleEvent(st: RState, j: Json, parse: string -> Option<Json>): StepResult {
    match PyIn("event", j)
    case None => Abort(st)
    case Some(false) => Continue(st)
    case Some(true) =>
      match Subscript(j, "event")
      case None => Abort(st)
      case Some(ev) =>
        match PyIn("contentStart", ev)
        case None => Abort(st)
        case Some(true) => OnContentStart(st, ev, parse)
        case Some(false) =>
          if PyIn("textOutput", ev) == Some(true) then OnTextOutput(st, ev)
          else if PyIn("audioOutput", ev) == Some(true) then OnAudioOutput(st, ev)
          else Continue(st)
  }

  /** The loop over the outputs, from state `st`, while the session stays active. */
  function Run(st: RState, outs: seq<Output>, parse: string -> Option<Json>): (RState, Outcome)
    decreases |outs|
  {
    if outs == [] then (st, Waiting(st.text, st.chunks))
    else match outs[0]
      case Raise => (st, Returned("", []))
      case Cancel => (st, Cancelled)
      case Payload(t) =>
        if t == "" then Run(st, outs[1..], parse)
        else match parse(t)
          case None => (st, Returned("", []))
          case Some(j) =>
            match HandleEvent(st, j, parse)
            case Continue(st2) => Run(st2, outs[1..], parse)
            case Abort(st2) => (st2, Returned("", []))
  }

  /** `{"event": {variant: body}}` as the model sends it. */
  function Inbound(variant: string, body: seq<(string, Json)>): Json {
    JObj([("event", JObj([(variant, JObj(body))]))])
  }

  /** A `contentStart` with a role and, optionally, `additionalModelFields` text. */
  function InContentStart(role: string, extra: Option<string>): Json {
    Inbound("contentStart", [StrField("role", role)] + if extra.Some? then [StrField("additionalModelFields", extra.value)] else [])
  }

  lemma InboundLookup(variant: string, body: seq<(string, Json)>)
    ensures Subscript(Inbound(variant, body), "event") == Some(JObj([(variant, JObj(body))]))
    ensures Subscript(JObj([(variant, JObj(body))]), variant) == Some(JObj(body))
    ensures PyIn("event", Inbound(variant, body)) == Some(true)
  {
    LookupLast(Inbound(variant, body).fields, 0);
    LookupLast([(variant, JObj(body))], 0);
  }

  /**
   * A `contentStart` sets `role`; a generation stage of `SPECULATIVE` turns
   * the display flag on, any other stage turns it off, and a missing
   * `additionalModelFields` leaves it as it was.
   */
  lemma ContentStartRule(st: RState, role: string, extra: Option<string>, parse: string -> Option<Json>)
    requires extra.Some? ==> parse(extra.value).Some? && parse(extra.value).value.JObj?
    ensures var r := HandleEvent(st, InContentStart(role, extra), parse);
      && r.Continue? && r.st.role == JStr(role)
      && r.st.text == st.text && r.st.chunks == st.chunks && r.st.queue == st.queue && r.st.shown == st.shown
      && (extra.None? ==> r.st.display == st.display)
      && (extra.Some? ==>
            r.st.display == (Get(parse(extra.value).value, "generationStage", JNull) == JStr("SPECULATIVE")))
  {
    var body := [StrField("role", role)] + if extra.Some? then [StrField("additionalModelFields", extra.value)] else [];
    InboundLookup("contentStart", body);
    assert Keys([("contentStart", JObj(body))])[0] == "contentStart";
    LookupLast(body, 0);
    if extra.Some? {
      LookupLast(body, 1);
    } else {
      LookupSpec(body, "additionalModelFields");
    }
  }

  /** A `textOutput` whose content is a string. */
  function InTextOutput(content: string): Json {
    Inbound("textOutput", [StrField("content", content)])
  }

  /**
   * Text is appended whatever the role; it is logged as assistant text only
   * when the role is ASSISTANT and the display flag is set, and as user text
   * whenever the role is USER.
   */
  lemma TextOutputRule(st: RState, content: string, parse: string -> Option<Json>)
    ensures HandleEvent(st, InTextOutput(content), parse)
      == Continue(st.(text := st.text + content, shown := st.shown + Surfaced(st.role, st.display, content)))
    ensures Surfaced(st.role, st.display, content) == [AssistantLine(content)]
      <==> st.role == JStr("ASSISTANT") && st.display
    ensures Surfaced(st.role, st.display, content) == [UserLine(content)] <==> st.role == JStr("USER")
  {
    var body := [StrField("content", content)];
    InboundLookup("textOutput", body);
    LookupLast(body, 0);
    var ev := JObj([("textOutput", JObj(body))]);
    assert Keys(ev.fields)[0] == "textOutput";
  }

  /** An `audioOutput` whose content is the base64 text of `audio`. */
  function InAudioOutput(audio: seq<Byte>): Json {
    Inbound("audioOutput", [StrField("content", Base64.Encode(audio))])
  }

  /** Incoming audio is decoded and appended, in arrival order, to both the chunk list and the queue. */
  lemma AudioOutputRule(st: RState, audio: seq<Byte>, parse: string -> Option<Json>)
    ensures HandleEvent(st, InAudioOutput(audio), parse)
      == Continue(st.(chunks := st.chunks + [audio], queue := st.queue + [audio]))
  {
    Base64.RoundTrip(audio);
    AudioTextRule(st, Base64.Encode(audio), audio, parse);
  }

  lemma AudioTextRule(st: RState, text: string, audio: seq<Byte>, parse: string -> Option<Json>)
    requires Base64.Decode(text) == Some(audio)
    ensures HandleEvent(st, Inbound("audioOutput", [StrField("content", text)]), parse)
      == Continue(st.(chunks := st.chunks + [audio], queue := st.queue + [audio]))
  {
    var body := [StrField("content", text)];
    InboundLookup("audioOutput", body);
    LookupLast(body, 0);
    var ev := JObj([("audioOutput", JObj(body))]);
    assert Keys(ev.fields)[0] == "audioOutput";
  }

  /** `completionEnd` changes no state. */
  lemma CompletionEndRule(st: RState, body: seq<(string, Json)>, parse: string -> Option<Json>)
    ensures HandleEvent(st, Inbound("completionEnd", body), parse) == Continue(st)
  {
    InboundLookup("completionEnd", body);
    var ev := JObj([("completionEnd", JObj(body))]);
    assert "contentStart" !in Keys(ev.fields) && "textOutput" !in Keys(ev.fields) && "audioOutput" !in Keys(ev.fields);
  }

  /**
   * Any exception ends the loop with `("", [])`: a failed await, text that
   * is not JSON, or an event whose handling raises.
   */
  lemma {:induction false} FailureReturnsEmpty(st: RState, outs: seq<Output>, parse: string -> Option<Json>)
    ensures var o := Run(st, outs, parse).1; o.Returned? ==> o.text == "" && o.chunks == []
    decreases |outs|
  {
    if outs != [] && outs[0].Payload? && outs[0].text != "" && parse(outs[0].text).Some? {
      var j := parse(outs[0].text).value;
      if HandleEvent(st, j, parse).Continue? {
        FailureReturnsEmpty(HandleEvent(st, j, parse).st, outs[1..], parse);
      }
    } else if outs != [] && outs[0].Payload? && outs[0].text == "" {
      FailureReturnsEmpty(st, outs[1..], parse);
    }
  }

  /** The loop only ever appends to the text, the audio, the queue and the log. */
  lemma {:induction false} RunOnlyAppends(st: RState, outs: seq<Output>, parse: string -> Option<Json>)
    ensures var st2 := Run(st, outs, parse).0;
      && st.text <= st2.text && st.chunks <= st2.chunks && st.queue <= st2.queue && st.shown <= st2.shown
    decreases |outs|
  {
    if outs != [] && outs[0].Payload? && outs[0].text != "" && parse(outs[0].text).Some? {
      var j := parse(outs[0].text).value;
      HandleAppends(st, j, parse);
      if HandleEvent(st, j, parse).Continue? {
        RunOnlyAppends(HandleEvent(st, j, parse).st, outs[1..], parse);
      }
    } else if outs != [] && outs[0].Payload? && outs[0].text == "" {
      RunOnlyAppends(st, outs[1..], parse);
    }
  }

  lemma HandleAppends(st: RState, j: Json, parse: string -> Option<Json>)
    ensures var st2 := HandleEvent(st, j, parse).st;
      && st.text <= st2.text && st.chunks <= st2.chunks && st.queue <= st2.queue && st.shown <= st2.shown
  {
    if PyIn("event", j) == Some(true) && Subscript(j, "event").Some? {
      var ev := Subscript(j, "event").value;
      if PyIn("contentStart", ev) == Some(true) {
        var r := OnContentStart(st, ev, parse);
        assert r.st.text == st.text && r.st.chunks == st.chunks && r.st.queue == st.queue && r.st.shown == st.shown;
      } else if PyIn("textOutput", ev) == Some(true) {
        var r := OnTextOutput(st, ev);
        assert r.st.chunks == st.chunks && r.st.queue == st.queue;
      } else if PyIn("audioOutput", ev) == Some(true) {
        var r := OnAudioOutput(st, ev);
        assert r.st.text == st.text && r.st.shown == st.shown;
      }
    }
  }

  /** The response loop itself: await each output, stop on an exception or cancellation. */
  method RunLoop(st0: RState, outs: seq<Output>, parse: string -> Option<Json>) returns (st: RState, o: Outcome)
    ensures (st, o) == Run(st0, outs, parse)
  {
    st := st0;
    var i := 0;
    while i < |outs|
      invariant 0 <= i <= |outs|
      invariant Run(st, outs[i..], parse) == Run(st0, outs, parse)
      decreases |outs| - i
    {
      assert outs[i..][1..] == outs[i + 1..];
      match outs[i]
      case Raise => return st, Returned("", []);
      case Cancel => return st, Cancelled;
      case Payload(t) =>
        if t != "" {
          var parsed := parse(t);
          if parsed.None? {
            return st, Returned("", []);
          }
          var r := HandleEvent(st, parsed.value, parse);
          if r.Abort? {
            return r.st, Returned("", []);
          }
          st := r.st;
        }
      i := i + 1;
    }
    o := Waiting(st.text, st.chunks);
  }
}
