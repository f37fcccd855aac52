/**
 * The speech server's configuration: the settings `validate` checks, read
 * from the environment with their defaults when the class is defined, and
 * the ordered list of problems `validate` reports.
 */
module Config {
  import opened Wrappers
  import Text

  /** The environment, `os.environ`. */
  type Env = map<string, string>

  datatype Settings = Settings(
    accessKeyId: Option<string>,
    secretAccessKey: Option<string>,
    maxTokens: int,
    topP: real,
    temperature: real,
    inputSampleRate: int,
    outputSampleRate: int,
    healthPort: Option<int>)

  /** `os.getenv(key)`. */
  function GetEnv(env: Env, key: string): Option<string> {
    if key in env then Some(env[key]) else None
  }

  /** `int(os.getenv(key, default))`, None when the text is not an integer. */
  function IntSetting(env: Env, key: string, default: int): Option<int> {
    if key in env then Text.ParseInt(env[key]) else Some(default)
  }

  /** `float(os.getenv(key, default))`, with the text conversion given as `parseFloat`. */
  function RealSetting(env: Env, key: string, default: real, parseFloat: string -> Option<real>): Option<real> {
    if key in env then parseFloat(env[key]) else Some(default)
  }

  /** `HEALTH_PORT`: an integer only when the variable is set to a non-empty text. */
  function HealthPort(env: Env): Option<Option<int>> {
    if HealthPortSet(env) then
      match Text.ParseInt(env["HEALTH_PORT"])
      case None => None
      case Some(p) => Some(Some(p))
    else Some(None)
  }

  predicate HealthPortSet(env: Env) {
    "HEALTH_PORT" in env && env["HEALTH_PORT"] != ""
  }

  /**
   * The integer settings the class body converts with `int(...)`, in the
   * order it converts them, each with its default.
   */
  const IntDefaults: seq<(string, int)> := [
    ("WS_PORT", 8000),
    ("INFERENCE_MAX_TOKENS", 1024),
    ("AUDIO_INPUT_SAMPLE_RATE", 16000),
    ("AUDIO_INPUT_SAMPLE_SIZE", 16),
    ("AUDIO_INPUT_CHANNEL_COUNT", 1),
    ("AUDIO_OUTPUT_SAMPLE_RATE", 24000),
    ("AUDIO_OUTPUT_SAMPLE_SIZE", 16),
    ("AUDIO_OUTPUT_CHANNEL_COUNT", 1)]

  /** Every `int(os.getenv(key, default))` of the class body succeeds. */
  predicate IntsConvert(env: Env) {
    forall k :: 0 <= k < |IntDefaults| ==> IntSetting(env, IntDefaults[k].0, IntDefaults[k].1).Some?
  }

  /**
   * The class attributes `validate` reads; None when one of the conversions
   * in the class body raises, which aborts loading the module.
   */
  function Load(env: Env, parseFloat: string -> Option<real>): (r: Option<Settings>)
    ensures r.Some? <==> (IntsConvert(env) && HealthPort(env).Some?
                          && RealSetting(env, "INFERENCE_TOP_P", 0.95, parseFloat).Some?
                          && RealSetting(env, "INFERENCE_TEMPERATURE", 0.7, parseFloat).Some?)
    ensures forall k :: (0 <= k < |IntDefaults| && IntDefaults[k].0 in env && Text.ParseInt(env[IntDefaults[k].0]).None?
                         ==> r.None?)
    ensures r.Some? ==> (r.value.accessKeyId == GetEnv(env, "AWS_ACCESS_KEY_ID")
                         && r.value.secretAccessKey == GetEnv(env, "AWS_SECRET_ACCESS_KEY"))
    ensures r.Some? ==> Some(r.value.healthPort) == HealthPort(env)
    ensures r.Some? ==> (Some(r.value.maxTokens) == IntSetting(env, "INFERENCE_MAX_TOKENS", 1024)
                         && Some(r.value.inputSampleRate) == IntSetting(env, "AUDIO_INPUT_SAMPLE_RATE", 16000)
                         && Some(r.value.outputSampleRate) == IntSetting(env, "AUDIO_OUTPUT_SAMPLE_RATE", 24000))
    ensures r.Some? ==> (Some(r.value.topP) == RealSetting(env, "INFERENCE_TOP_P", 0.95, parseFloat)
                         && Some(r.value.temperature) == RealSetting(env, "INFERENCE_TEMPERATURE", 0.7, parseFloat))
    ensures r.Some? && "INFERENCE_MAX_TOKENS" in env ==> Text.ParseInt(env["INFERENCE_MAX_TOKENS"]) == Some(r.value.maxTokens)
    ensures r.Some? && "AUDIO_INPUT_SAMPLE_RATE" in env ==> Text.ParseInt(env["AUDIO_INPUT_SAMPLE_RATE"]) == Some(r.value.inputSampleRate)
    ensures r.Some? && "AUDIO_OUTPUT_SAMPLE_RATE" in env ==> Text.ParseInt(env["AUDIO_OUTPUT_SAMPLE_RATE"]) == Some(r.value.outputSampleRate)
  {
    var maxTokens := IntSetting(env, "INFERENCE_MAX_TOKENS", 1024);
    var topP := RealSetting(env, "INFERENCE_TOP_P", 0.95, parseFloat);
    var temperature := RealSetting(env, "INFERENCE_TEMPERATURE", 0.7, parseFloat);
    var inRate := IntSetting(env, "AUDIO_INPUT_SAMPLE_RATE", 16000);
    var outRate := IntSetting(env, "AUDIO_OUTPUT_SAMPLE_RATE", 24000);
    var health := HealthPort(env);
    if !IntsConvert(env) || topP.None? || temperature.None? || health.None? then None
    else
      assert maxTokens == IntSetting(env, IntDefaults[1].0, IntDefaults[1].1);
      assert inRate == IntSetting(env, IntDefaults[2].0, IntDefaults[2].1);
      assert outRate == IntSetting(env, IntDefaults[5].0, IntDefaults[5].1);
      Some(Settings(GetEnv(env, "AWS_ACCESS_KEY_ID"), GetEnv(env, "AWS_SECRET_ACCESS_KEY"),
                    maxTokens.value, topP.value, temperature.value, inRate.value, outRate.value, health.value))
  }

  /** A `WS_PORT` that is not an integer makes loading fail, though `validate` never reads it. */
  lemma BadPortRaises(parseFloat: string -> Option<real>)
    ensures Load(map["WS_PORT" := "x"], parseFloat).None?
  {
    assert Text.ParseInt("x").None?;
    assert IntDefaults[0].0 == "WS_PORT";
  }

  /** With nothing set, the defaults: 1024 tokens, top-p 0.95, temperature 0.7, 16 kHz in, 24 kHz out, no health port. */
  lemma Defaults(parseFloat: string -> Option<real>)
    ensures Load(map[], parseFloat) == Some(Settings(None, None, 1024, 0.95, 0.7, 16000, 24000, None))
  {
  }

  /** `HEALTH_PORT` is none unless its variable is set (to non-empty text); set to an integer, it is that integer. */
  lemma HealthPortRule(env: Env, n: int)
    ensures !HealthPortSet(env) ==> HealthPort(env) == Some(None)
    ensures "HEALTH_PORT" in env && env["HEALTH_PORT"] == Text.IntToString(n) ==> HealthPort(env) == Some(Some(n))
  {
    Text.IntStringRoundTrip(n);
  }

  /** A credential counts as missing when it is unset or empty (`not value`). */
  predicate Missing(v: Option<string>) {
    v.None? || v.value == ""
  }

  predicate InUnit(x: real) {
    0.0 < x <= 1.0
  }

  /** The messages, one per check. */
  const AccessKeyMsg: string := "AWS_ACCESS_KEY_ID is not set"
  const SecretKeyMsg: string := "AWS_SECRET_ACCESS_KEY is not set"
  const MaxTokensMsg: string := "INFERENCE_MAX_TOKENS must be greater than 0"
  const TopPMsg: string := "INFERENCE_TOP_P must be between 0 and 1"
  const TemperatureMsg: string := "INFERENCE_TEMPERATURE must be between 0 and 1"
  const InputRateMsg: string := "AUDIO_INPUT_SAMPLE_RATE must be greater than 0"
  const OutputRateMsg: string := "AUDIO_OUTPUT_SAMPLE_RATE must be greater than 0"

  /** Check `k` in the order `validate` runs them: whether it passes, and its message. */
  function Check(c: Settings, k: nat): (bool, string)
    requires k < 7
  {
    if k == 0 then (!Missing(c.accessKeyId), AccessKeyMsg)
    else if k == 1 then (!Missing(c.secretAccessKey), SecretKeyMsg)
    else if k == 2 then (c.maxTokens > 0, MaxTokensMsg)
    else if k == 3 then (InUnit(c.topP), TopPMsg)
    else if k == 4 then (InUnit(c.temperature), TemperatureMsg)
    else if k == 5 then (c.inputSampleRate > 0, InputRateMsg)
    else (c.outputSampleRate > 0, OutputRateMsg)
  }

  /** The messages of the failed checks among the first `n`, in check order. */
  function Failed(c: Settings, n: nat): seq<string>
    requires n <= 7
  {
    if n == 0 then [] else Failed(c, n - 1) + if Check(c, n - 1).0 then [] else [Check(c, n - 1).1]
  }

  /** `Config.validate()`. */
  method Validate(c: Settings) returns (errors: seq<string>)
    ensures errors == Failed(c, 7)
  {
    errors := [];
    if Missing(c.accessKeyId) {
      errors := errors + [AccessKeyMsg];
    }
    assert errors == Failed(c, 1);
    if Missing(c.secretAccessKey) {
      errors := errors + [SecretKeyMsg];
    }
    assert errors == Failed(c, 2);
    if c.maxTokens <= 0 {
      errors := errors + [MaxTokensMsg];
    }
    assert errors == Failed(c, 3);
    if !InUnit(c.topP) {
      errors := errors + [TopPMsg];
    }
    assert errors == Failed(c, 4);
    if !InUnit(c.temperature) {
      errors := errors + [TemperatureMsg];
    }
    assert errors == Failed(c, 5);
    if c.inputSampleRate <= 0 {
      errors := errors + [InputRateMsg];
    }
    assert errors == Failed(c, 6);
    if c.outputSampleRate <= 0 {
      errors := errors + [OutputRateMsg];
    }
  }

  lemma MessagesDistinct(c: Settings, i: nat, j: nat)
    requires i < j < 7
    ensures Check(c, i).1 != Check(c, j).1
  {
    assert |AccessKeyMsg| == 28 && |SecretKeyMsg| == 32 && |MaxTokensMsg| == 43 && |TopPMsg| == 39;
    assert |TemperatureMsg| == 45 && |InputRateMsg| == 46 && |OutputRateMsg| == 47;
  }

  /** Among the first `n` checks, check `k`'s message is reported exactly when that check fails. */
  lemma {:induction false} FailedIff(c: Settings, n: nat, k: nat)
    requires k < n <= 7
    ensures Check(c, k).1 in Failed(c, n) <==> !Check(c, k).0
    decreases n
  {
    if k == n - 1 {
      NotInFailed(c, n - 1, k);
    } else {
      FailedIff(c, n - 1, k);
      MessagesDistinct(c, k, n - 1);
    }
  }

  lemma {:induction false} NotInFailed(c: Settings, n: nat, k: nat)
    requires n <= k < 7
    ensures Check(c, k).1 !in Failed(c, n)
    decreases n
  {
    if n > 0 {
      NotInFailed(c, n - 1, k);
      MessagesDistinct(c, n - 1, k);
    }
  }

  lemma {:induction false} FailedEmpty(c: Settings, n: nat)
    requires n <= 7
    ensures Failed(c, n) == [] <==> forall k :: 0 <= k < n ==> Check(c, k).0
    decreases n
  {
    if n > 0 {
      FailedEmpty(c, n - 1);
    }
  }

  /**
   * The list is empty exactly when every check passes, and each message is
   * present exactly when its check fails: a missing key, a non-positive
   * token limit or sample rate, top-p or temperature outside (0, 1].
   */
  lemma ValidateSpec(c: Settings)
    ensures Failed(c, 7) == [] <==>
      !Missing(c.accessKeyId) && !Missing(c.secretAccessKey) && c.maxTokens > 0
      && InUnit(c.topP) && InUnit(c.temperature) && c.inputSampleRate > 0 && c.outputSampleRate > 0
    ensures AccessKeyMsg in Failed(c, 7) <==> Missing(c.accessKeyId)
    ensures SecretKeyMsg in Failed(c, 7) <==> Missing(c.secretAccessKey)
    ensures MaxTokensMsg in Failed(c, 7) <==> c.maxTokens <= 0
    ensures TopPMsg in Failed(c, 7) <==> !InUnit(c.topP)
    ensures TemperatureMsg in Failed(c, 7) <==> !InUnit(c.temperature)
    ensures InputRateMsg in Failed(c, 7) <==> c.inputSampleRate <= 0
    ensures OutputRateMsg in Failed(c, 7) <==> c.outputSampleRate <= 0
  {
    FailedEmpty(c, 7);
    if Check(c, 0).0 && Check(c, 1).0 && Check(c, 2).0 && Check(c, 3).0 && Check(c, 4).0 && Check(c, 5).0 && Check(c, 6).0 {
      assert forall k :: 0 <= k < 7 ==> Check(c, k).0;
    }
    FailedIff(c, 7, 0);
    FailedIff(c, 7, 1);
    FailedIff(c, 7, 2);
    FailedIff(c, 7, 3);
    FailedIff(c, 7, 4);
    FailedIff(c, 7, 5);
    FailedIff(c, 7, 6);
  }
}
