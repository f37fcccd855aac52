/**
 * The static builders of `S2sEvent`: each returns the JSON record of one
 * outbound wire event, a single `event` key whose value holds exactly one
 * variant key, with the documented default configurations.
 */
module S2sEvents {
  import opened Wrappers
  import opened Json

  /** `DEFAULT_INFER_CONFIG`. */
  const DefaultInferConfig: Json :=
    JObj([
      ("maxTokens", JInt(1024)),
      ("topP", JReal(0.95)),
      ("temperature", JReal(0.7))
    ])

  /** `DEFAULT_AUDIO_INPUT_CONFIG`. */
  const DefaultAudioInputConfig: Json :=
    JObj([
      ("mediaType", JStr("audio/lpcm")),
      ("sampleRateHertz", JInt(16000)),
      ("sampleSizeBits", JInt(16)),
      ("channelCount", JInt(1)),
      ("audioType", JStr("SPEECH")),
      ("encoding", JStr("base64"))
    ])

  /** `DEFAULT_AUDIO_OUTPUT_CONFIG`. */
  const DefaultAudioOutputConfig: Json :=
    JObj([
      ("mediaType", JStr("audio/lpcm")),
      ("sampleRateHertz", JInt(24000)),
      ("sampleSizeBits", JInt(16)),
      ("channelCount", JInt(1)),
      ("voiceId", JStr("tiffany")),
      ("encoding", JStr("base64")),
      ("audioType", JStr("SPEECH"))
    ])

  /** `DEFAULT_TOOL_CONFIG`: the two tool specifications, their input schemas as JSON text. */
  const DefaultToolConfig: Json :=
    JObj([
      ("tools", JArr([
        JObj([
          ("toolSpec", JObj([
            ("name", JStr("getDateTool")),
            ("description", JStr("get information about the current day")),
            ("inputSchema", JObj([
              ("json", JStr(
                "{\n" +
                "                            \"$schema\": \"http://json-schema.org/draft-07/schema#\",\n" +
                "                            \"type\": \"object\",\n" +
                "                            \"properties\": {},\n" +
                "                            \"required\": []\n" +
                "                        }"))
            ]))
          ]))
        ]),
        JObj([
          ("toolSpec", JObj([
            ("name", JStr("getInterviewQuestion")),
            ("description", JStr("Get a specific interview question for a job position. Each call returns the next question in sequence.")),
            ("inputSchema", JObj([
              ("json", JStr("{\"type\": \"object\", \"properties\": {\"job_title\": {\"type\": \"string\", \"description\": \"The job position title to get interview questions for. Supported job titles are Data Science, Java developer, and AI Consultant\", \"default\": \"Data Science\"}}, \"required\": [\"job_title\"]}"))
            ]))
          ]))
        ])
      ]))
    ])

  /** `DEFAULT_SYSTEM_PROMPT`, the interviewer instructions sent as the system text. */
  const DefaultSystemPrompt: string :=
      "You are a professional AI Interviewer specializing in technical job interviews. Your role is to assess candidate qualifications through thoughtful, relevant questions.\n" +
      "            You are capable of understanding and responding to candidates in a natural and engaging manner while maintaining a professional tone.\n" +
      "            You and the candidate will engage in a spoken dialog exchanging the transcripts of a natural real-time conversation.\n" +
      "            \n" +
      "            Your primary responsibilities:\n" +
      "            1. Ask the candidate which position they are applying for\n" +
      "            2. Use the get_job_questions function with the position parameter to retrieve relevant interview questions\n" +
      "            3. Ask the questions provided by the function to assess the candidate's qualifications\n" +
      "            4. Maintain a professional interviewing tone throughout the conversation\n" +
      "            5. Adapt to the specific technical domain of the position the candidate is applying for\n" +
      "            \n" +
      "            Start the conversation by introducing yourself as an AI Interviewer, then ask for the candidate's name.\n" +
      "            After greeting them by name, ask which position they are applying for today.\n" +
      "            \n" +
      "            Once you know the position, use the get_job_questions function with the position parameter to get relevant questions.\n" +
      "            If the position doesn't match any in our database, use your judgment to ask appropriate technical questions for similar roles.\n" +
      "            \n" +
      "            IMPORTANT: Each question includes an \"expectation\" field that describes what a good answer should include.\n" +
      "            Use these expectations to evaluate the candidate's responses and guide your follow-up questions.\n" +
      "            For example, if a question about microservices has an expectation that mentions \"service communication approaches\",\n" +
      "            and the candidate doesn't address this in their answer, you can ask a follow-up specifically about that topic.\n" +
      "            DO NOT disclose the expectations to the candidate; they are for your internal use only.\n" +
      "            \n" +
      "            The interview concludes when you've asked all the questions from get_job_questions and received responses, or when the candidate explicitly states they want to end the conversation.\n" +
      "            If the candidate answers irrelevant questions or provides answers that are not related to the position, gently redirect them back to the topic. End the interview if the candidate consistently does so after 5 attempts.\n" +
      "            At the end, thank the candidate for their time and provide a brief summary of their strengths based on their responses.\n" +
      "        "

  /** The variant keys an outbound wire event may carry. */
  const OutboundVariants: seq<string> := [
    "sessionStart", "promptStart", "contentStart", "textInput", "audioInput",
    "toolResult", "contentEnd", "promptEnd", "sessionEnd"
  ]

  /** `{"event": {<variant>: {...}}}` with exactly one key at each of the two levels. */
  predicate IsWireEvent(j: Json) {
    && j.JObj? && |j.fields| == 1 && j.fields[0].0 == "event"
    && j.fields[0].1.JObj? && |j.fields[0].1.fields| == 1
    && j.fields[0].1.fields[0].0 in OutboundVariants
    && j.fields[0].1.fields[0].1.JObj?
  }

  /** The one variant key of a wire event. */
  function Variant(j: Json): string
    requires IsWireEvent(j)
  {
    j.fields[0].1.fields[0].0
  }

  /** The fields of the variant's body. */
  function Body(j: Json): seq<(string, Json)>
    requires IsWireEvent(j)
  {
    j.fields[0].1.fields[0].1.fields
  }

  /** The value of one body field. */
  function Field(j: Json, key: string): Option<Json>
    requires IsWireEvent(j)
  {
    Lookup(Body(j), key)
  }

  function Wrap(variant: string, body: seq<(string, Json)>): (r: Json)
    requires variant in OutboundVariants
    ensures IsWireEvent(r) && Variant(r) == variant && Body(r) == body
  {
    JObj([("event", JObj([(variant, JObj(body))]))])
  }

  /** `session_start`: the inference configuration, wrapped unchanged. */
  function SessionStart(inferenceConfig: Json := DefaultInferConfig): (r: Json)
    ensures IsWireEvent(r) && Variant(r) == "sessionStart"
    ensures |Body(r)| == 1
    ensures Field(r, "inferenceConfiguration") == Some(inferenceConfig)
  {
    var body := [("inferenceConfiguration", inferenceConfig)];
    LookupLast(body, 0);
    Wrap("sessionStart", body)
  }

  /** `prompt_start`: prompt name, the output configurations and the tool configuration. */
  function PromptStart(promptName: string, audioOutputConfig: Json := DefaultAudioOutputConfig,
                       toolConfig: Json := DefaultToolConfig): (r: Json)
    ensures IsWireEvent(r) && Variant(r) == "promptStart"
    ensures |Body(r)| == 5
    ensures Field(r, "promptName") == Some(JStr(promptName))
    ensures Field(r, "textOutputConfiguration") == Some(JObj([StrField("mediaType", "text/plain")]))
    ensures Field(r, "audioOutputConfiguration") == Some(audioOutputConfig)
    ensures Field(r, "toolUseOutputConfiguration") == Some(JObj([StrField("mediaType", "application/json")]))
    ensures Field(r, "toolConfiguration") == Some(toolConfig)
  {
    var body := [
      ("promptName", JStr(promptName)),
      ("textOutputConfiguration", JObj([StrField("mediaType", "text/plain")])),
      ("audioOutputConfiguration", audioOutputConfig),
      ("toolUseOutputConfiguration", JObj([StrField("mediaType", "application/json")])),
      ("toolConfiguration", toolConfig)
    ];
    LookupLast(body, 0); LookupLast(body, 1); LookupLast(body, 2); LookupLast(body, 3); LookupLast(body, 4);
    Wrap("promptStart", body)
  }

  /** `content_start_text`: an interactive TEXT content, role SYSTEM unless given. */
  function ContentStartText(promptName: string, contentName: string, role: string := "SYSTEM"): (r: Json)
    ensures IsWireEvent(r) && Variant(r) == "contentStart"
    ensures |Body(r)| == 6
    ensures Field(r, "promptName") == Some(JStr(promptName))
    ensures Field(r, "contentName") == Some(JStr(contentName))
    ensures Field(r, "type") == Some(JStr("TEXT"))
    ensures Field(r, "interactive") == Some(JBool(true))
    ensures Field(r, "role") == Some(JStr(role))
    ensures Field(r, "textInputConfiguration") == Some(JObj([StrField("mediaType", "text/plain")]))
  {
    var body := [
      ("promptName", JStr(promptName)),
      ("contentName", JStr(contentName)),
      StrField("type", "TEXT"),
      ("interactive", JBool(true)),
      ("role", JStr(role)),
      ("textInputConfiguration", JObj([StrField("mediaType", "text/plain")]))
    ];
    LookupLast(body, 0); LookupLast(body, 1); LookupLast(body, 2); LookupLast(body, 3); LookupLast(body, 4); LookupLast(body, 5);
    Wrap("contentStart", body)
  }

  /** `text_input`: the text (by default the system prompt) for one content. */
  function TextInput(promptName: string, contentName: string, systemPrompt: string := DefaultSystemPrompt): (r: Json)
    ensures IsWireEvent(r) && Variant(r) == "textInput"
    ensures |Body(r)| == 3
    ensures Field(r, "promptName") == Some(JStr(promptName))
    ensures Field(r, "contentName") == Some(JStr(contentName))
    ensures Field(r, "content") == Some(JStr(systemPrompt))
  {
    var body := [
      ("promptName", JStr(promptName)),
      ("contentName", JStr(contentName)),
      ("content", JStr(systemPrompt))
    ];
    LookupLast(body, 0); LookupLast(body, 1); LookupLast(body, 2);
    Wrap("textInput", body)
  }

  /** `content_end`: only the prompt and content names. */
  function ContentEnd(promptName: string, contentName: string): (r: Json)
    ensures IsWireEvent(r) && Variant(r) == "contentEnd"
    ensures |Body(r)| == 2
    ensures Field(r, "promptName") == Some(JStr(promptName))
    ensures Field(r, "contentName") == Some(JStr(contentName))
  {
    var body := [("promptName", JStr(promptName)), ("contentName", JStr(contentName))];
    LookupLast(body, 0); LookupLast(body, 1);
    Wrap("contentEnd", body)
  }

  /** `content_start_audio`: always AUDIO, role USER, interactive. */
  function ContentStartAudio(promptName: string, contentName: string,
                             audioInputConfig: Json := DefaultAudioInputConfig): (r: Json)
    ensures IsWireEvent(r) && Variant(r) == "contentStart"
    ensures |Body(r)| == 6
    ensures Field(r, "promptName") == Some(JStr(promptName))
    ensures Field(r, "contentName") == Some(JStr(contentName))
    ensures Field(r, "type") == Some(JStr("AUDIO"))
    ensures Field(r, "interactive") == Some(JBool(true))
    ensures Field(r, "role") == Some(JStr("USER"))
    ensures Field(r, "audioInputConfiguration") == Some(audioInputConfig)
  {
    var body := [
      ("promptName", JStr(promptName)),
      ("contentName", JStr(contentName)),
      StrField("type", "AUDIO"),
      ("interactive", JBool(true)),
      StrField("role", "USER"),
      ("audioInputConfiguration", audioInputConfig)
    ];
    LookupLast(body, 0); LookupLast(body, 1); LookupLast(body, 2); LookupLast(body, 3); LookupLast(body, 4); LookupLast(body, 5);
    Wrap("contentStart", body)
  }

  /** `audio_input`: one piece of base64 audio for a content. */
  function AudioInput(promptName: string, contentName: string, content: string): (r: Json)
    ensures IsWireEvent(r) && Variant(r) == "audioInput"
    ensures |Body(r)| == 3
    ensures Field(r, "promptName") == Some(JStr(promptName))
    ensures Field(r, "contentName") == Some(JStr(contentName))
    ensures Field(r, "content") == Some(JStr(content))
  {
    var body := [
      ("promptName", JStr(promptName)),
      ("contentName", JStr(contentName)),
      ("content", JStr(content))
    ];
    LookupLast(body, 0); LookupLast(body, 1); LookupLast(body, 2);
    Wrap("audioInput", body)
  }

  /** The `toolResultInputConfiguration` of a tool content. */
  function ToolResultInputConfig(toolUseId: string): Json {
    JObj([
      ("toolUseId", JStr(toolUseId)),
      StrField("type", "TEXT"),
      ("textInputConfiguration", JObj([StrField("mediaType", "text/plain")]))
    ])
  }

  /** `content_start_tool`: a non-interactive TOOL content answering `toolUseId`. */
  function ContentStartTool(promptName: string, contentName: string, toolUseId: string): (r: Json)
    ensures IsWireEvent(r) && Variant(r) == "contentStart"
    ensures |Body(r)| == 6
    ensures Field(r, "promptName") == Some(JStr(promptName))
    ensures Field(r, "contentName") == Some(JStr(contentName))
    ensures Field(r, "interactive") == Some(JBool(false))
    ensures Field(r, "type") == Some(JStr("TOOL"))
    ensures Field(r, "role") == Some(JStr("TOOL"))
    ensures Field(r, "toolResultInputConfiguration") == Some(ToolResultInputConfig(toolUseId))
    ensures Lookup(ToolResultInputConfig(toolUseId).fields, "toolUseId") == Some(JStr(toolUseId))
  {
    LookupLast(ToolResultInputConfig(toolUseId).fields, 0);
    var body := [
      ("promptName", JStr(promptName)),
      ("contentName", JStr(contentName)),
      ("interactive", JBool(false)),
      StrField("type", "TOOL"),
      StrField("role", "TOOL"),
      ("toolResultInputConfiguration", ToolResultInputConfig(toolUseId))
    ];
    LookupLast(body, 0); LookupLast(body, 1); LookupLast(body, 2); LookupLast(body, 3); LookupLast(body, 4); LookupLast(body, 5);
    Wrap("contentStart", body)
  }

  /** `text_input_tool`: despite its name, a `toolResult` event. */
  function TextInputTool(promptName: string, contentName: string, content: string): (r: Json)
    ensures IsWireEvent(r) && Variant(r) == "toolResult"
    ensures |Body(r)| == 3
    ensures Field(r, "promptName") == Some(JStr(promptName))
    ensures Field(r, "contentName") == Some(JStr(contentName))
    ensures Field(r, "content") == Some(JStr(content))
  {
    var body := [
      ("promptName", JStr(promptName)),
      ("contentName", JStr(contentName)),
      ("content", JStr(content))
    ];
    LookupLast(body, 0); LookupLast(body, 1); LookupLast(body, 2);
    Wrap("toolResult", body)
  }

  /** `prompt_end`: only the prompt name. */
  function PromptEnd(promptName: string): (r: Json)
    ensures IsWireEvent(r) && Variant(r) == "promptEnd"
    ensures |Body(r)| == 1
    ensures Field(r, "promptName") == Some(JStr(promptName))
  {
    var body := [("promptName", JStr(promptName))];
    LookupLast(body, 0);
    Wrap("promptEnd", body)
  }

  /** `session_end`: an empty body. */
  function SessionEnd(): (r: Json)
    ensures IsWireEvent(r) && Variant(r) == "sessionEnd"
    ensures Body(r) == []
  {
    Wrap("sessionEnd", [])
  }

  /** The default inference configuration: 1024 tokens, top-p 0.95, temperature 0.7. */
  lemma DefaultInferValues()
    ensures Lookup(DefaultInferConfig.fields, "maxTokens") == Some(JInt(1024))
    ensures Lookup(DefaultInferConfig.fields, "topP") == Some(JReal(0.95))
    ensures Lookup(DefaultInferConfig.fields, "temperature") == Some(JReal(0.7))
  {
    var f := DefaultInferConfig.fields;
    LookupLast(f, 0); LookupLast(f, 1); LookupLast(f, 2);
  }

  /** The default audio input: 16 kHz, 16-bit, mono LPCM, base64 encoded. */
  lemma DefaultAudioInputValues()
    ensures Lookup(DefaultAudioInputConfig.fields, "mediaType") == Some(JStr("audio/lpcm"))
    ensures Lookup(DefaultAudioInputConfig.fields, "sampleRateHertz") == Some(JInt(16000))
    ensures Lookup(DefaultAudioInputConfig.fields, "sampleSizeBits") == Some(JInt(16))
    ensures Lookup(DefaultAudioInputConfig.fields, "channelCount") == Some(JInt(1))
    ensures Lookup(DefaultAudioInputConfig.fields, "encoding") == Some(JStr("base64"))
  {
    var f := DefaultAudioInputConfig.fields;
    LookupLast(f, 0); LookupLast(f, 1); LookupLast(f, 2); LookupLast(f, 3); LookupLast(f, 5);
  }

  /** The default audio output: 24 kHz with the `tiffany` voice. */
  lemma DefaultAudioOutputValues()
    ensures Lookup(DefaultAudioOutputConfig.fields, "sampleRateHertz") == Some(JInt(24000))
    ensures Lookup(DefaultAudioOutputConfig.fields, "voiceId") == Some(JStr("tiffany"))
  {
    var f := DefaultAudioOutputConfig.fields;
    LookupLast(f, 1); LookupLast(f, 4);
  }
}
