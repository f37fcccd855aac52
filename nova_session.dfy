/**
 * `SimpleNovaSonic`: one bidirectional conversation with the speech model.
 * The session keeps an `is_active` flag, one prompt name, one system content
 * name and an audio content name that is minted again for every audio turn;
 * every event it sends is appended to `events`. Ids from `uuid.uuid4()` are
 * modelled as serial numbers from a per-session counter, so a freshly minted
 * id differs from every id minted before it.
 */
module NovaSession {
  import opened Wrappers
  import opened Json
  import opened Bytes
  import Base64
  import opened NovaResponses

  /** A `uuid.uuid4()` string, identified by when it was minted. */
  datatype Uuid = Uuid(serial: nat)

  /** The events the session sends, with the values its templates fill in. */
  datatype Event =
    | SessionStartEv(maxTokens: int, topP: real, temperature: real)
    | PromptStartEv(promptName: Uuid, outputSampleRate: int, voiceId: string)
    | TextContentStartEv(promptName: Uuid, contentName: Uuid, role: string)   // type TEXT, interactive
    | TextInputEv(promptName: Uuid, contentName: Uuid, content: string)
    | ContentEndEv(promptName: Uuid, contentName: Uuid)
    | AudioContentStartEv(promptName: Uuid, contentName: Uuid, inputSampleRate: int)   // type AUDIO, role USER
    | AudioInputEv(promptName: Uuid, contentName: Uuid, content: string)
    | PromptEndEv(promptName: Uuid)
    | SessionEndEv

  const MaxTokens: int := 1024
  const Temperature: real := 0.7
  const TopP: real := 0.9
  const InputSampleRate: int := 16000
  const OutputSampleRate: int := 24000
  const DefaultVoice: string := "Lisa"

  /** The system prompt, as the three string pieces join. */
  const SystemPrompt: string :=
    "You are a friendly assistant. The user and you will engage in a spoken dialog "
    + "exchanging the transcripts of a natural real-time conversation. Keep your responses short, "
    + "generally two or three sentences for chatty scenarios."

  /** The prompt name an event carries, if its kind carries one. */
  function PromptOf(e: Event): Option<Uuid> {
    if e.SessionStartEv? || e.SessionEndEv? then None else Some(e.promptName)
  }

  /** The serials of the ids an event carries. */
  function NamesOf(e: Event): set<nat> {
    match e
    case SessionStartEv(_, _, _) => {}
    case PromptStartEv(p, _, _) => {p.serial}
    case TextContentStartEv(p, c, _) => {p.serial, c.serial}
    case TextInputEv(p, c, _) => {p.serial, c.serial}
    case ContentEndEv(p, c) => {p.serial, c.serial}
    case AudioContentStartEv(p, c, _) => {p.serial, c.serial}
    case AudioInputEv(p, c, _) => {p.serial, c.serial}
    case PromptEndEv(p) => {p.serial}
    case SessionEndEv => {}
  }

  /** Every id in `evs` was minted before serial `n`. */
  predicate NamesBelow(evs: seq<Event>, n: nat) {
    forall k :: 0 <= k < |evs| ==> forall s :: s in NamesOf(evs[k]) ==> s < n
  }

  /** Every event that carries a prompt name carries `p`. */
  predicate PromptsAre(evs: seq<Event>, p: Uuid) {
    forall k :: 0 <= k < |evs| ==> PromptOf(evs[k]) == None || PromptOf(evs[k]) == Some(p)
  }

  /** No two audio turns in `evs` open with the same content name. */
  predicate AudioNamesDistinct(evs: seq<Event>) {
    forall i, j :: 0 <= i < j < |evs| && evs[i].AudioContentStartEv? && evs[j].AudioContentStartEv? ==>
      evs[i].contentName != evs[j].contentName
  }

  /** The content name of the last audio `contentStart` in `evs`. */
  function LastAudioStart(evs: seq<Event>): Option<Uuid> {
    if evs == [] then None
    else if evs[|evs| - 1].AudioContentStartEv? then Some(evs[|evs| - 1].contentName)
    else LastAudioStart(evs[..|evs| - 1])
  }

  /** What `start_session` sends: session, prompt, then the system prompt as one text content. */
  function StartEvents(p: Uuid, c: Uuid, voice: string): seq<Event> {
    [ SessionStartEv(MaxTokens, TopP, Temperature),
      PromptStartEv(p, OutputSampleRate, voice),
      TextContentStartEv(p, c, "SYSTEM"),
      TextInputEv(p, c, SystemPrompt),
      ContentEndEv(p, c) ]
  }

  /**
   * `start_session` sends sessionStart, promptStart, then contentStart
   * (TEXT, SYSTEM), textInput and contentEnd; every event after the first
   * carries the prompt name, and the three text events share one content name.
   */
  lemma StartEventsShape(p: Uuid, c: Uuid, voice: string)
    ensures var s := StartEvents(p, c, voice);
      && |s| == 5
      && s[0] == SessionStartEv(1024, 0.9, 0.7)
      && s[1].PromptStartEv? && s[1].voiceId == voice && s[1].outputSampleRate == 24000
      && s[2].TextContentStartEv? && s[2].role == "SYSTEM"
      && s[3].TextInputEv? && s[3].content == SystemPrompt
      && s[4].ContentEndEv?
      && (forall k :: 1 <= k < 5 ==> PromptOf(s[k]) == Some(p))
      && (forall k :: 2 <= k < 5 ==> s[k].contentName == c)
      && PromptsAre(s, p) && LastAudioStart(s) == None
  {
    var s := StartEvents(p, c, voice);
    assert LastAudioStart(s) == LastAudioStart(s[..4]);
    assert LastAudioStart(s[..4]) == LastAudioStart(s[..3]) by { assert s[..4][..3] == s[..3]; }
    assert LastAudioStart(s[..3]) == LastAudioStart(s[..2]) by { assert s[..3][..2] == s[..2]; }
    assert LastAudioStart(s[..2]) == LastAudioStart(s[..1]) by { assert s[..2][..1] == s[..1]; }
    assert LastAudioStart(s[..1]) == LastAudioStart([]) by { assert s[..1][..0] == []; }
  }

  /** The three events of one audio turn as `process_audio_with_nova_sonic` sends them on an active session. */
  function AudioTurn(p: Uuid, n: Uuid, pcm: seq<Byte>): seq<Event> {
    [AudioContentStartEv(p, n, InputSampleRate), AudioInputEv(p, n, Base64.Encode(pcm)), ContentEndEv(p, n)]
  }

  /** The `audioInput` of a turn carries text that decodes back to the turn's audio. */
  lemma AudioTurnCarriesAudio(p: Uuid, n: Uuid, pcm: seq<Byte>)
    ensures var t := AudioTurn(p, n, pcm);
      && (forall k :: 0 <= k < 3 ==> PromptOf(t[k]) == Some(p) && t[k].contentName == n)
      && Base64.Decode(t[1].content) == Some(pcm)
  {
    var t := AudioTurn(p, n, pcm);
    assert t[1].content == Base64.Encode(pcm);
    Base64.RoundTrip(pcm);
  }

  lemma AppendPreserves(evs: seq<Event>, e: Event, n: nat, p: Uuid)
    requires NamesBelow(evs, n) && PromptsAre(evs, p)
    requires forall s :: s in NamesOf(e) ==> s < n
    requires PromptOf(e) == None || PromptOf(e) == Some(p)
    ensures NamesBelow(evs + [e], n) && PromptsAre(evs + [e], p)
  {
  }

  lemma AppendKeepsAudioNames(evs: seq<Event>, e: Event)
    requires AudioNamesDistinct(evs) && !e.AudioContentStartEv?
    ensures AudioNamesDistinct(evs + [e])
    ensures LastAudioStart(evs + [e]) == LastAudioStart(evs)
  {
    assert (evs + [e])[..|evs|] == evs;
  }

  /** Appending events that open no audio turn keeps the log's invariants and its last audio turn. */
  lemma {:induction false} AppendAll(evs: seq<Event>, t: seq<Event>, n: nat, p: Uuid)
    requires NamesBelow(evs, n) && PromptsAre(evs, p) && AudioNamesDistinct(evs)
    requires NamesBelow(t, n) && PromptsAre(t, p)
    requires forall k :: 0 <= k < |t| ==> !t[k].AudioContentStartEv?
    ensures NamesBelow(evs + t, n) && PromptsAre(evs + t, p) && AudioNamesDistinct(evs + t)
    ensures LastAudioStart(evs + t) == LastAudioStart(evs)
    decreases |t|
  {
    if t != [] {
      var last := t[|t| - 1];
      var front := t[..|t| - 1];
      assert t == front + [last];
      AppendAll(evs, front, n, p);
      assert evs + t == (evs + front) + [last];
      assert last == t[|t| - 1];
      AppendPreserves(evs + front, last, n, p);
      AppendKeepsAudioNames(evs + front, last);
    } else {
      assert evs + t == evs;
    }
  }

  /** A turn opened with a name minted after every name already in the log is a new turn. */
  lemma FreshAudioStart(evs: seq<Event>, p: Uuid, n: nat)
    requires AudioNamesDistinct(evs) && NamesBelow(evs, n)
    ensures AudioNamesDistinct(evs + [AudioContentStartEv(p, Uuid(n), InputSampleRate)])
    ensures LastAudioStart(evs + [AudioContentStartEv(p, Uuid(n), InputSampleRate)]) == Some(Uuid(n))
  {
    var e := AudioContentStartEv(p, Uuid(n), InputSampleRate);
    var s := evs + [e];
    forall i, j | 0 <= i < j < |s| && s[i].AudioContentStartEv? && s[j].AudioContentStartEv?
      ensures s[i].contentName != s[j].contentName
    {
      if j == |evs| {
        assert s[i] == evs[i];
        assert s[i].contentName.serial in NamesOf(evs[i]);
      }
    }
  }

  class SimpleNovaSonic {
    const voiceId: string
    const promptName: Uuid
    const contentName: Uuid
    var audioContentName: Uuid
    var isActive: bool
    var role: Json                 // JNull for `None`
    var displayAssistantText: bool
    var audioQueue: seq<seq<Byte>>
    var shown: seq<Line>
    var events: seq<Event>
    var nextId: nat                // the next serial `uuid4` mints

    /** The session invariant: ids are counter-fresh, one prompt name, distinct audio turns. */
    predicate Valid()
      reads this
    {
      && promptName.serial < nextId && contentName.serial < nextId && audioContentName.serial < nextId
      && NamesBelow(events, nextId)
      && PromptsAre(events, promptName)
      && AudioNamesDistinct(events)
      && (LastAudioStart(events).Some? ==> LastAudioStart(events).value == audioContentName)
    }

    /** `SimpleNovaSonic(voice_id=voice)`: three fresh ids, inactive, nothing sent. */
    constructor(voice: string)
      ensures Valid()
      ensures voiceId == voice && !isActive && role == JNull && !displayAssistantText
      ensures events == [] && audioQueue == [] && shown == []
      ensures promptName != contentName && contentName != audioContentName && promptName != audioContentName
    {
      voiceId := voice;
      promptName := Uuid(0);
      contentName := Uuid(1);
      audioContentName := Uuid(2);
      nextId := 3;
      isActive := false;
      role := JNull;
      displayAssistantText := false;
      audioQueue := [];
      shown := [];
      events := [];
    }

    /** `start_session`: mark the session active and send the opening events. */
    method StartSession()
      requires Valid()
      modifies this
      ensures Valid() && isActive
      ensures events == old(events) + StartEvents(promptName, contentName, voiceId)
      ensures audioContentName == old(audioContentName) && nextId == old(nextId)
      ensures role == old(role) && displayAssistantText == old(displayAssistantText)
      ensures audioQueue == old(audioQueue) && shown == old(shown)
    {
      isActive := true;
      var s := StartEvents(promptName, contentName, voiceId);
      StartEventsShape(promptName, contentName, voiceId);
      forall k | 0 <= k < |s| ensures forall n :: n in NamesOf(s[k]) ==> n < nextId {
        assert NamesOf(s[k]) <= {promptName.serial, contentName.serial};
      }
      AppendAll(events, s, nextId, promptName);
      events := events + s;
    }

    /**
     * `start_audio_input`: mint a new audio content name, then open an audio
     * turn under it. Sending needs the stream that `start_session` opens.
     */
    method StartAudioInput()
      requires Valid() && isActive
      modifies this
      ensures Valid()
      ensures audioContentName == Uuid(old(nextId)) && nextId == old(nextId) + 1
      ensures forall k :: 0 <= k < |old(events)| ==> audioContentName.serial !in NamesOf(old(events)[k])
      ensures events == old(events) + [AudioContentStartEv(promptName, audioContentName, InputSampleRate)]
      ensures isActive == old(isActive) && role == old(role) && displayAssistantText == old(displayAssistantText)
      ensures audioQueue == old(audioQueue) && shown == old(shown)
    {
      audioContentName := Uuid(nextId);
      FreshAudioStart(events, promptName, nextId);
      events := events + [AudioContentStartEv(promptName, audioContentName, InputSampleRate)];
      nextId := nextId + 1;
    }

    /** `send_audio_chunk(bytes)`: nothing when inactive, else one audioInput with the base64 of the bytes. */
    method SendAudioChunk(audio: seq<Byte>)
      requires Valid()
      modifies this
      ensures Valid()
      ensures !old(isActive) ==> events == old(events)
      ensures old(isActive) ==>
        events == old(events) + [AudioInputEv(promptName, audioContentName, Base64.Encode(audio))]
      ensures isActive == old(isActive) && audioContentName == old(audioContentName) && nextId == old(nextId)
      ensures role == old(role) && displayAssistantText == old(displayAssistantText)
      ensures audioQueue == old(audioQueue) && shown == old(shown)
    {
      if !isActive {
        return;
      }
      var e := AudioInputEv(promptName, audioContentName, Base64.Encode(audio));
      AppendPreserves(events, e, nextId, promptName);
      AppendKeepsAudioNames(events, e);
      events := events + [e];
    }

    /** `end_audio_input`: close the current audio turn, under the name its start used, on the open stream. */
    method EndAudioInput()
      requires Valid() && isActive
      modifies this
      ensures Valid()
      ensures events == old(events) + [ContentEndEv(promptName, audioContentName)]
      ensures LastAudioStart(old(events)).Some? ==> LastAudioStart(old(events)).value == audioContentName
      ensures isActive == old(isActive) && audioContentName == old(audioContentName) && nextId == old(nextId)
      ensures role == old(role) && displayAssistantText == old(displayAssistantText)
      ensures audioQueue == old(audioQueue) && shown == old(shown)
    {
      var e := ContentEndEv(promptName, audioContentName);
      AppendPreserves(events, e, nextId, promptName);
      AppendKeepsAudioNames(events, e);
      events := events + [e];
    }

    /** `end_session`: nothing when inactive, else promptEnd and sessionEnd, and the session is inactive. */
    method EndSession()
      requires Valid()
      modifies this
      ensures Valid() && !isActive
      ensures !old(isActive) ==> events == old(events)
      ensures old(isActive) ==> events == old(events) + [PromptEndEv(promptName), SessionEndEv]
      ensures audioContentName == old(audioContentName) && nextId == old(nextId)
      ensures role == old(role) && displayAssistantText == old(displayAssistantText)
      ensures audioQueue == old(audioQueue) && shown == old(shown)
    {
      if !isActive {
        return;
      }
      AppendPreserves(events, PromptEndEv(promptName), nextId, promptName);
      AppendKeepsAudioNames(events, PromptEndEv(promptName));
      events := events + [PromptEndEv(promptName)];
      AppendPreserves(events, SessionEndEv, nextId, promptName);
      AppendKeepsAudioNames(events, SessionEndEv);
      events := events + [SessionEndEv];
      isActive := false;
    }

    /**
     * `_process_responses` over the outputs the stream yields: on an
     * inactive session it returns `("", [])` at once; otherwise the session's
     * `role`, display flag, queue and log end as `Run` says.
     */
    method ProcessResponses(outs: seq<Output>, parse: string -> Option<Json>) returns (o: Outcome)
      requires Valid()
      modifies this
      ensures Valid()
      ensures !old(isActive) ==>
        (o == Returned("", []) && role == old(role)
         && displayAssistantText == old(displayAssistantText) && audioQueue == old(audioQueue) && shown == old(shown))
      ensures old(isActive) ==>
        var r := Run(RState(old(role), old(displayAssistantText), "", [], old(audioQueue), old(shown)), outs, parse);
        && o == r.1 && role == r.0.role && displayAssistantText == r.0.display
        && audioQueue == r.0.queue && shown == r.0.shown
      ensures isActive == old(isActive) && events == old(events)
      ensures audioContentName == old(audioContentName) && nextId == old(nextId)
    {
      if !isActive {
        return Returned("", []);
      }
      var st := RState(role, displayAssistantText, "", [], audioQueue, shown);
      st, o := RunLoop(st, outs, parse);
      role := st.role;
      displayAssistantText := st.display;
      audioQueue := st.queue;
      shown := st.shown;
    }
  }

  /** The `session_end` path: a second `end_session` sends nothing more. */
  method EndTwice(s: SimpleNovaSonic)
    requires s.Valid()
    modifies s
    ensures s.Valid() && !s.isActive
    ensures s.events == old(s.events) + (if old(s.isActive) then [PromptEndEv(s.promptName), SessionEndEv] else [])
  {
    s.EndSession();
    s.EndSession();
  }
}
