/**
 * Provider configuration read from the process environment (src/cognitionflow/config.py).
 * The environment is a map from variable name to value; a Groq key wins over an OpenAI key.
 */
module Config {
  import opened Wrappers
  import Text

  type Env = map<string, string>

  const GROQ_API_KEY := "GROQ_API_KEY"
  const OPENAI_API_KEY := "OPENAI_API_KEY"
  const GROQ_MODEL := "GROQ_MODEL"
  const GROQ_TEMPERATURE := "GROQ_TEMPERATURE"
  const GROQ_TIMEOUT := "GROQ_TIMEOUT"
  const OPENAI_MODEL := "OPENAI_MODEL"
  const OPENAI_BASE_URL := "OPENAI_BASE_URL"
  const OPENAI_TEMPERATURE := "OPENAI_TEMPERATURE"
  const OPENAI_TIMEOUT := "OPENAI_TIMEOUT"
  const COGNITIONFLOW_WORKSPACE := "COGNITIONFLOW_WORKSPACE"

  const GROQ_BASE_URL := "https://api.groq.com/openai/v1"
  const DEFAULT_GROQ_MODEL := "llama-3.1-8b-instant"
  const DEFAULT_OPENAI_MODEL := "gpt-4o"
  const DEFAULT_TEMPERATURE := "0.1"
  const DEFAULT_TIMEOUT := "600"
  const DEFAULT_WORKSPACE := "project_workspace"

  /** The ValueError raised when no provider key is set. */
  const MISSING_KEY_MESSAGE := "Set " + GROQ_API_KEY + " or " + OPENAI_API_KEY + " in environment or .env"

  /** One entry of `config_list`; `base_url` is an optional key of the entry. */
  datatype ConfigEntry = ConfigEntry(model: string, apiKey: string, baseUrl: Option<string>)

  /**
   * The `temperature` field: either the environment text that `float()` parses,
   * or a value a caller put there as an override.
   */
  datatype Temperature = FromEnv(text: string) | Override(value: real)

  /** The LLM configuration dict; `timeout` is the environment text that `int()` parses. */
  datatype LlmConfig = LlmConfig(configList: seq<ConfigEntry>, temperature: Temperature, timeout: string)

  /** `os.environ.get(key)`. */
  function Get(env: Env, key: string): Option<string> {
    if key in env then Some(env[key]) else None
  }

  /** `os.environ.get(key, default)`: the default applies only when the variable is absent. */
  function GetOr(env: Env, key: string, default: string): (r: string)
    ensures key in env ==> r == env[key]
    ensures key !in env ==> r == default
  {
    if key in env then env[key] else default
  }

  /** `get_config()`: build the configuration, or fail when neither key is set non-empty. */
  function GetConfig(env: Env): (r: Result<LlmConfig, string>)
    ensures r.Failure? <==> !Truthy(Get(env, GROQ_API_KEY)) && !Truthy(Get(env, OPENAI_API_KEY))
    ensures r.Failure? ==> r.error == MISSING_KEY_MESSAGE
    ensures r.Success? ==> |r.value.configList| == 1
    // a non-empty Groq key wins
    ensures Truthy(Get(env, GROQ_API_KEY)) ==>
      && r.Success?
      && r.value.configList[0].apiKey == env[GROQ_API_KEY]
      && r.value.configList[0].baseUrl == Some(GROQ_BASE_URL)
      && (GROQ_MODEL in env ==> r.value.configList[0].model == env[GROQ_MODEL])
      && (GROQ_MODEL !in env ==> r.value.configList[0].model == DEFAULT_GROQ_MODEL)
      && (GROQ_TEMPERATURE in env ==> r.value.temperature == FromEnv(env[GROQ_TEMPERATURE]))
      && (GROQ_TEMPERATURE !in env ==> r.value.temperature == FromEnv(DEFAULT_TEMPERATURE))
      && (GROQ_TIMEOUT in env ==> r.value.timeout == env[GROQ_TIMEOUT])
      && (GROQ_TIMEOUT !in env ==> r.value.timeout == DEFAULT_TIMEOUT)
    // otherwise the OpenAI key is used
    ensures !Truthy(Get(env, GROQ_API_KEY)) && Truthy(Get(env, OPENAI_API_KEY)) ==>
      && r.Success?
      && r.value.configList[0].apiKey == env[OPENAI_API_KEY]
      && (r.value.configList[0].baseUrl.Some? <==> Truthy(Get(env, OPENAI_BASE_URL)))
      && (r.value.configList[0].baseUrl.Some? ==> r.value.configList[0].baseUrl.value == env[OPENAI_BASE_URL])
      && (OPENAI_MODEL in env ==> r.value.configList[0].model == env[OPENAI_MODEL])
      && (OPENAI_MODEL !in env ==> r.value.configList[0].model == DEFAULT_OPENAI_MODEL)
      && (OPENAI_TEMPERATURE in env ==> r.value.temperature == FromEnv(env[OPENAI_TEMPERATURE]))
      && (OPENAI_TEMPERATURE !in env ==> r.value.temperature == FromEnv(DEFAULT_TEMPERATURE))
      && (OPENAI_TIMEOUT in env ==> r.value.timeout == env[OPENAI_TIMEOUT])
      && (OPENAI_TIMEOUT !in env ==> r.value.timeout == DEFAULT_TIMEOUT)
  {
    var apiKey := Or(Get(env, GROQ_API_KEY), Get(env, OPENAI_API_KEY));
    if !Truthy(apiKey) then
      Failure(MISSING_KEY_MESSAGE)
    else if Truthy(Get(env, GROQ_API_KEY)) then
      Success(LlmConfig(
        [ConfigEntry(GetOr(env, GROQ_MODEL, DEFAULT_GROQ_MODEL), apiKey.value, Some(GROQ_BASE_URL))],
        FromEnv(GetOr(env, GROQ_TEMPERATURE, DEFAULT_TEMPERATURE)),
        GetOr(env, GROQ_TIMEOUT, DEFAULT_TIMEOUT)))
    else
      var baseUrl := if Truthy(Get(env, OPENAI_BASE_URL)) then Some(env[OPENAI_BASE_URL]) else None;
      Success(LlmConfig(
        [ConfigEntry(GetOr(env, OPENAI_MODEL, DEFAULT_OPENAI_MODEL), apiKey.value, baseUrl)],
        FromEnv(GetOr(env, OPENAI_TEMPERATURE, DEFAULT_TEMPERATURE)),
        GetOr(env, OPENAI_TIMEOUT, DEFAULT_TIMEOUT)))
  }

  /** The error raised for a missing key names both variables a user can set. */
  lemma MissingKeyMessageNamesBothKeys(env: Env)
    requires GetConfig(env).Failure?
    ensures Text.Contains(GetConfig(env).error, GROQ_API_KEY)
    ensures Text.Contains(GetConfig(env).error, OPENAI_API_KEY)
  {
    var m := MISSING_KEY_MESSAGE;
    var groqAt, openAiAt := |"Set "|, |"Set " + GROQ_API_KEY + " or "|;
    assert m[groqAt..groqAt + |GROQ_API_KEY|] == GROQ_API_KEY;
    assert m[openAiAt..openAiAt + |OPENAI_API_KEY|] == OPENAI_API_KEY;
    assert Text.OccursAt(m, GROQ_API_KEY, groqAt);
    assert Text.OccursAt(m, OPENAI_API_KEY, openAiAt);
    Text.ContainsIff(m, GROQ_API_KEY);
    Text.ContainsIff(m, OPENAI_API_KEY);
  }

  /** `get_workspace_dir()`: the variable's value when present, even if empty. */
  function GetWorkspaceDir(env: Env): (r: string)
    ensures COGNITIONFLOW_WORKSPACE in env ==> r == env[COGNITIONFLOW_WORKSPACE]
    ensures COGNITIONFLOW_WORKSPACE !in env ==> r == DEFAULT_WORKSPACE
  {
    GetOr(env, COGNITIONFLOW_WORKSPACE, DEFAULT_WORKSPACE)
  }

  /**
   * `get_config_with_overrides(model, temperature)`: build the configuration, then overwrite
   * the first entry's model when `model` is non-empty and the temperature when it is given.
   */
  method GetConfigWithOverrides(env: Env, model: Option<string>, temperature: Option<real>)
    returns (r: Result<LlmConfig, string>)
    ensures GetConfig(env).Failure? ==> r == Failure(MISSING_KEY_MESSAGE)
    ensures GetConfig(env).Success? ==> r.Success?
    ensures r.Success? ==>
      var base := GetConfig(env).value;
      && |r.value.configList| == 1
      && r.value.configList[0].apiKey == base.configList[0].apiKey
      && r.value.configList[0].baseUrl == base.configList[0].baseUrl
      && r.value.timeout == base.timeout
      && (Truthy(model) ==> r.value.configList[0].model == model.value)
      && (!Truthy(model) ==> r.value.configList[0].model == base.configList[0].model)
      && (temperature.Some? ==> r.value.temperature == Override(temperature.value))
      && (temperature.None? ==> r.value.temperature == base.temperature)
  {
    var baseConfig := GetConfig(env);
    if baseConfig.Failure? {
      return baseConfig;
    }
    var cfg := baseConfig.value;
    if Truthy(model) {
      cfg := cfg.(configList := cfg.configList[0 := cfg.configList[0].(model := model.value)]);
    }
    if temperature.Some? {
      cfg := cfg.(temperature := Override(temperature.value));
    }
    r := Success(cfg);
  }
}
