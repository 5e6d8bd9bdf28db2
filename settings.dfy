/**
 * `load_settings` (`config.py`): reads the process environment, validates it in a fixed order and
 * builds a `Settings` record. The environment is a map; `int()` and path resolution are inputs.
 */
module Config {
  import opened Wrappers
  import opened Text

  type Env = map<string, string>

  datatype Settings = Settings(
    discordToken: string,
    discordChannelId: int,
    backendMode: string,
    awsRegion: Option<string>,
    agentId: Option<string>,
    agentAliasId: Option<string>,
    knowledgeBaseId: Option<string>,
    ollamaModel: Option<string>,
    ollamaBaseUrl: string,
    maxResponseChars: int,
    memoryMaxMessages: int,
    systemPrompt: Option<string>,
    logLevel: string,
    promptProfile: string,
    promptRoot: string,
    promptUserRole: string)

  /** `RuntimeError(msg)` from a failed check, or the `ValueError` that `int()` raises on `text`. */
  datatype ConfigError = Runtime(msg: string) | BadInt(text: string)

  const RequiredBase: seq<string> := ["DISCORD_BOT_TOKEN", "DISCORD_CHANNEL_ID", "BACKEND_MODE"]

  /** `os.getenv(k)` */
  function Getenv(env: Env, k: string): (r: Option<string>)
    ensures r.Some? <==> k in env
    ensures r.Some? ==> r.value == env[k]
  {
    if k in env then Some(env[k]) else None
  }

  /** `os.getenv(k, default)`: the default only applies when the variable is unset. */
  function GetenvOr(env: Env, k: string, default: string): string {
    Getenv(env, k).GetOr(default)
  }

  /** `bool(os.getenv(k))`: set and not empty. */
  predicate IsSet(env: Env, k: string) {
    k in env && env[k] != ""
  }

  /** The names of `keys` that are unset or empty, in the order of `keys`. */
  function Missing(env: Env, keys: seq<string>): (r: seq<string>)
    ensures forall k :: k in r <==> k in keys && !IsSet(env, k)
    ensures |r| <= |keys|
  {
    if keys == [] then [] else
      (if IsSet(env, keys[0]) then [] else [keys[0]]) + Missing(env, keys[1..])
  }

  /** The backend checks of `config.py:47-61`, on an environment whose required keys are set. */
  function CheckBackend(env: Env): Option<string> {
    var mode := Lower(GetenvOr(env, "BACKEND_MODE", "agentcore"));
    if mode != "agentcore" && mode != "ollama" then Some("BACKEND_MODE must be 'agentcore' or 'ollama'")
    else if mode == "agentcore" && !IsSet(env, "AWS_REGION") then Some("AWS_REGION is required for AgentCore backend")
    else if mode == "agentcore" && (!IsSet(env, "AGENT_ID") || !IsSet(env, "AGENT_ALIAS_ID")) then
      Some("AGENT_ID and AGENT_ALIAS_ID are required for AgentCore backend")
    else if mode == "ollama" && !IsSet(env, "OLLAMA_MODEL") then Some("OLLAMA_MODEL is required for Ollama backend")
    else None
  }

  /** `int(os.getenv(k, default))`, with the literal default already an integer. */
  function IntOr(env: Env, k: string, default: int, parseInt: string -> Option<int>): Result<int, ConfigError> {
    if k in env then
      (match parseInt(env[k]) case Some(n) => Ok(n) case None => Err(BadInt(env[k])))
    else Ok(default)
  }

  /** The prompt root: `PROMPT_ROOT` resolved (relative to `cwd` when not absolute), else `cwd/agents`. */
  function PromptRoot(env: Env, cwd: string, resolve: string -> string): string {
    if IsSet(env, "PROMPT_ROOT") then
      (if StartsWith(env["PROMPT_ROOT"], "/") then resolve(env["PROMPT_ROOT"])
       else resolve(cwd + "/" + env["PROMPT_ROOT"]))
    else resolve(cwd + "/agents")
  }

  /** `load_settings`. */
  function LoadSettings(env: Env, parseInt: string -> Option<int>, cwd: string, resolve: string -> string)
    : (r: Result<Settings, ConfigError>)
    ensures Missing(env, RequiredBase) != [] ==> r.Err? && r.error.Runtime?
    ensures r.Ok? ==> Missing(env, RequiredBase) == [] && CheckBackend(env).None?
    ensures r.Err? && r.error.BadInt? ==>
              exists k :: k in ["DISCORD_CHANNEL_ID", "MAX_RESPONSE_CHARS", "MEMORY_MAX_MESSAGES"] && k in env
                && env[k] == r.error.text && parseInt(env[k]).None?
  {
    var missing := Missing(env, RequiredBase);
    if missing != [] then Err(Runtime("Missing required environment variables: " + Join(", ", missing)))
    else match CheckBackend(env)
      case Some(msg) => Err(Runtime(msg))
      case None =>
        match IntOr(env, "DISCORD_CHANNEL_ID", 0, parseInt)
        case Err(e) => Err(e)
        case Ok(channel) =>
        match IntOr(env, "MAX_RESPONSE_CHARS", 1800, parseInt)
        case Err(e) => Err(e)
        case Ok(maxChars) =>
        match IntOr(env, "MEMORY_MAX_MESSAGES", 50, parseInt)
        case Err(e) => Err(e)
        case Ok(maxMessages) =>
          Ok(Settings(
            discordToken := env["DISCORD_BOT_TOKEN"],
            discordChannelId := channel,
            backendMode := Lower(GetenvOr(env, "BACKEND_MODE", "agentcore")),
            awsRegion := Getenv(env, "AWS_REGION"),
            agentId := Getenv(env, "AGENT_ID"),
            agentAliasId := Getenv(env, "AGENT_ALIAS_ID"),
            knowledgeBaseId := Getenv(env, "KNOWLEDGE_BASE_ID"),
            ollamaModel := Getenv(env, "OLLAMA_MODEL"),
            ollamaBaseUrl := GetenvOr(env, "OLLAMA_BASE_URL", "http://localhost:11434"),
            maxResponseChars := maxChars,
            memoryMaxMessages := maxMessages,
            systemPrompt := Getenv(env, "SYSTEM_PROMPT"),
            logLevel := GetenvOr(env, "LOG_LEVEL", "INFO"),
            promptProfile := GetenvOr(env, "PROMPT_PROFILE", "default"),
            promptRoot := PromptRoot(env, cwd, resolve),
            promptUserRole := if IsSet(env, "PROMPT_USER_ROLE") then env["PROMPT_USER_ROLE"] else "user"))
  }

  /** What a usable environment is, stated check by check (reference for `LoadSettings`). */
  predicate ValidEnv(env: Env) {
    && IsSet(env, "DISCORD_BOT_TOKEN") && IsSet(env, "DISCORD_CHANNEL_ID") && IsSet(env, "BACKEND_MODE")
    && (Lower(env["BACKEND_MODE"]) == "agentcore" || Lower(env["BACKEND_MODE"]) == "ollama")
    && (Lower(env["BACKEND_MODE"]) == "agentcore" ==>
          IsSet(env, "AWS_REGION") && IsSet(env, "AGENT_ID") && IsSet(env, "AGENT_ALIAS_ID"))
    && (Lower(env["BACKEND_MODE"]) == "ollama" ==> IsSet(env, "OLLAMA_MODEL"))
  }

  /** A check raises exactly when the environment is not usable; otherwise only `int()` can fail. */
  lemma RuntimeErrorIffInvalid(env: Env, parseInt: string -> Option<int>, cwd: string, resolve: string -> string)
    ensures var r := LoadSettings(env, parseInt, cwd, resolve);
      (r.Err? && r.error.Runtime?) <==> !ValidEnv(env)
  {
    var missing := Missing(env, RequiredBase);
    if missing != [] {
      var k := missing[0];
      assert k in RequiredBase && !IsSet(env, k);
    } else {
      assert forall k :: k in RequiredBase ==> IsSet(env, k);
      assert IsSet(env, RequiredBase[0]) && IsSet(env, RequiredBase[1]) && IsSet(env, RequiredBase[2]);
    }
  }

  /** With the required keys set, the backend checks run in order and the first failing one decides
      the message: the mode, then for AgentCore the region before the two ids, then for Ollama the
      model. */
  lemma BackendCheckOrder(env: Env, parseInt: string -> Option<int>, cwd: string, resolve: string -> string)
    requires IsSet(env, "DISCORD_BOT_TOKEN") && IsSet(env, "DISCORD_CHANNEL_ID") && IsSet(env, "BACKEND_MODE")
    ensures var r := LoadSettings(env, parseInt, cwd, resolve); var mode := Lower(env["BACKEND_MODE"]);
      && (mode != "agentcore" && mode != "ollama" ==> r == Err(Runtime("BACKEND_MODE must be 'agentcore' or 'ollama'")))
      && (mode == "agentcore" && !IsSet(env, "AWS_REGION") ==> r == Err(Runtime("AWS_REGION is required for AgentCore backend")))
      && (mode == "agentcore" && IsSet(env, "AWS_REGION") && (!IsSet(env, "AGENT_ID") || !IsSet(env, "AGENT_ALIAS_ID")) ==>
            r == Err(Runtime("AGENT_ID and AGENT_ALIAS_ID are required for AgentCore backend")))
      && (mode == "ollama" && !IsSet(env, "OLLAMA_MODEL") ==> r == Err(Runtime("OLLAMA_MODEL is required for Ollama backend")))
  {
    NothingMissing(env, RequiredBase);
    assert GetenvOr(env, "BACKEND_MODE", "agentcore") == env["BACKEND_MODE"];
  }

  /** No key is reported missing when every key is set. */
  lemma {:induction false} NothingMissing(env: Env, keys: seq<string>)
    requires forall i :: 0 <= i < |keys| ==> IsSet(env, keys[i])
    ensures Missing(env, keys) == []
  {
    if keys != [] {
      assert forall i :: 0 <= i < |keys| - 1 ==> keys[1..][i] == keys[i + 1];
      NothingMissing(env, keys[1..]);
    }
  }

  /** The first failing check wins: missing keys are reported, all of them and in order, before the mode. */
  lemma MissingReportedFirst(env: Env, parseInt: string -> Option<int>, cwd: string, resolve: string -> string)
    requires !IsSet(env, "DISCORD_BOT_TOKEN") || !IsSet(env, "DISCORD_CHANNEL_ID") || !IsSet(env, "BACKEND_MODE")
    ensures LoadSettings(env, parseInt, cwd, resolve) ==
      Err(Runtime("Missing required environment variables: " + Join(", ", Missing(env, RequiredBase))))
    ensures !IsSet(env, "DISCORD_BOT_TOKEN") ==> Missing(env, RequiredBase)[0] == "DISCORD_BOT_TOKEN"
  {
    var missing := Missing(env, RequiredBase);
    assert IsSet(env, RequiredBase[0]) ==> RequiredBase[0] !in missing;
    if !IsSet(env, RequiredBase[0]) {
      assert RequiredBase[0] in missing;
    } else if !IsSet(env, RequiredBase[1]) {
      assert RequiredBase[1] in missing;
    } else {
      assert RequiredBase[2] in missing;
    }
  }

  /** With every check passed, the mode is stored lower-cased and is one of the two backends. */
  lemma AcceptedModes(env: Env, parseInt: string -> Option<int>, cwd: string, resolve: string -> string)
    requires LoadSettings(env, parseInt, cwd, resolve).Ok?
    ensures var s := LoadSettings(env, parseInt, cwd, resolve).value;
      && (s.backendMode == "agentcore" || s.backendMode == "ollama")
      && (s.backendMode == "agentcore" ==> s.awsRegion.Some? && s.agentId.Some? && s.agentAliasId.Some?)
      && (s.backendMode == "ollama" ==> s.ollamaModel.Some? && s.ollamaModel.value != "")
      && s.discordToken != ""
  {
    RuntimeErrorIffInvalid(env, parseInt, cwd, resolve);
  }

  /** The defaults apply to unset variables (an empty `PROMPT_USER_ROLE` falls back too). */
  lemma Defaults(env: Env, parseInt: string -> Option<int>, cwd: string, resolve: string -> string)
    requires LoadSettings(env, parseInt, cwd, resolve).Ok?
    ensures var s := LoadSettings(env, parseInt, cwd, resolve).value;
      && ("OLLAMA_BASE_URL" !in env ==> s.ollamaBaseUrl == "http://localhost:11434")
      && ("MAX_RESPONSE_CHARS" !in env ==> s.maxResponseChars == 1800)
      && ("MEMORY_MAX_MESSAGES" !in env ==> s.memoryMaxMessages == 50)
      && ("LOG_LEVEL" !in env ==> s.logLevel == "INFO")
      && ("PROMPT_PROFILE" !in env ==> s.promptProfile == "default")
      && ("SYSTEM_PROMPT" !in env ==> s.systemPrompt.None?)
      && (!IsSet(env, "PROMPT_USER_ROLE") ==> s.promptUserRole == "user")
      && s.promptUserRole != ""
  {
  }
}
