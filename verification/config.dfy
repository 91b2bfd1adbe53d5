/**
 * Application configuration: defaults, an optional parsed configuration
 * file, then environment overrides. The environment is a map from variable
 * name to value; an absent variable reads as "" as with `os.Getenv`.
 */
module Config {
  import opened Wrappers
  import opened Strings

  datatype ProviderSettings = ProviderSettings(apiKey: string)

  datatype Config = Config(
    defaultProvider: string,
    defaultModel: string,
    providers: map<string, ProviderSettings>)

  type Env = map<string, string>

  function Getenv(env: Env, name: string): string {
    if name in env then env[name] else ""
  }

  function DefaultConfig(): (c: Config)
    ensures c.defaultProvider == "openai" && c.defaultModel == "gpt-4o"
    ensures c.providers.Keys == {"openai", "anthropic"}
    ensures forall name :: GetApiKey(c, name) == ""
  {
    Config("openai", "gpt-4o", map["openai" := ProviderSettings(""), "anthropic" := ProviderSettings("")])
  }

  /** `Config.GetAPIKey`: the stored key, or "" for a provider the configuration does not know. */
  function GetApiKey(c: Config, name: string): (key: string)
    ensures name !in c.providers ==> key == ""
    ensures name in c.providers ==> key == c.providers[name].apiKey
  {
    if name in c.providers then c.providers[name].apiKey else ""
  }

  /** A key written `${NAME}` names an environment variable; it is replaced only by a non-empty value. */
  function ResolveReference(key: string, env: Env): string {
    if HasPrefix(key, "${") && HasSuffix(key, "}") then
      var v := Getenv(env, TrimSuffix(TrimPrefix(key, "${"), "}"));
      if v != "" then v else key
    else key
  }

  lemma ResolveReferenceOfName(name: string, env: Env)
    ensures ResolveReference("${" + name + "}", env)
      == (if Getenv(env, name) != "" then Getenv(env, name) else "${" + name + "}")
  {
    var key := "${" + name + "}";
    assert HasPrefix(key, "${") && TrimPrefix(key, "${") == name + "}";
    assert HasSuffix(name + "}", "}") && TrimSuffix(name + "}", "}") == name;
    assert key[|key| - 1..] == "}";
  }

  /** A key with no `${...}` shape is kept as written. */
  lemma PlainKeyKept(key: string, env: Env)
    requires !HasPrefix(key, "${")
    ensures ResolveReference(key, env) == key
  {
  }

  /** Whether the environment carries a key variable for provider `name`. */
  predicate KeyOverridden(env: Env, name: string) {
    || (name == "openai" && Getenv(env, "OPENAI_API_KEY") != "")
    || (name == "anthropic" && Getenv(env, "ANTHROPIC_API_KEY") != "")
  }

  /** `p := providers[name]; p.APIKey = v; providers[name] = p`: creates the entry when absent. */
  function OverrideKey(providers: map<string, ProviderSettings>, name: string, v: string): map<string, ProviderSettings> {
    if v != "" then providers[name := ProviderSettings(v)] else providers
  }

  /**
   * `applyEnvOverrides`. The `${NAME}` resolution runs last, over every
   * provider entry, including keys that came from OPENAI_API_KEY or
   * ANTHROPIC_API_KEY themselves.
   */
  function ApplyEnvOverrides(c: Config, env: Env): (r: Config)
    ensures Getenv(env, "ASK_PROVIDER") != "" ==> r.defaultProvider == Getenv(env, "ASK_PROVIDER")
    ensures Getenv(env, "ASK_PROVIDER") == "" ==> r.defaultProvider == c.defaultProvider
    ensures Getenv(env, "ASK_MODEL") != "" ==> r.defaultModel == Getenv(env, "ASK_MODEL")
    ensures Getenv(env, "ASK_MODEL") == "" ==> r.defaultModel == c.defaultModel
    ensures r.providers.Keys == c.providers.Keys
      + (if Getenv(env, "OPENAI_API_KEY") != "" then {"openai"} else {})
      + (if Getenv(env, "ANTHROPIC_API_KEY") != "" then {"anthropic"} else {})
    ensures Getenv(env, "OPENAI_API_KEY") != "" ==>
      GetApiKey(r, "openai") == ResolveReference(Getenv(env, "OPENAI_API_KEY"), env)
    ensures Getenv(env, "ANTHROPIC_API_KEY") != "" ==>
      GetApiKey(r, "anthropic") == ResolveReference(Getenv(env, "ANTHROPIC_API_KEY"), env)
    ensures forall name :: name in c.providers && !KeyOverridden(env, name) ==>
      GetApiKey(r, name) == ResolveReference(GetApiKey(c, name), env)
  {
    var provider := Getenv(env, "ASK_PROVIDER");
    var model := Getenv(env, "ASK_MODEL");
    var withProvider := if provider != "" then c.(defaultProvider := provider) else c;
    var withModel := if model != "" then withProvider.(defaultModel := model) else withProvider;
    var keyed := OverrideKey(OverrideKey(withModel.providers, "openai", Getenv(env, "OPENAI_API_KEY")),
                             "anthropic", Getenv(env, "ANTHROPIC_API_KEY"));
    withModel.(providers := map name | name in keyed :: ProviderSettings(ResolveReference(keyed[name].apiKey, env)))
  }

  /** The fields a configuration file sets; absent fields keep their defaults. */
  datatype FileSettings = FileSettings(
    defaultProvider: Option<string>,
    defaultModel: Option<string>,
    providers: map<string, ProviderSettings>)

  /** The configuration file as `Load` finds it: missing or unreadable, unparsable, or parsed. */
  datatype ConfigFile = NoFile | Unparsable | Parsed(settings: FileSettings)

  datatype LoadError = ParseError

  /** File settings written over `c`; an entry of the file replaces the entry of the same provider. */
  function Overlay(c: Config, f: FileSettings): Config {
    Config(
      if f.defaultProvider.Some? then f.defaultProvider.value else c.defaultProvider,
      if f.defaultModel.Some? then f.defaultModel.value else c.defaultModel,
      c.providers + f.providers)
  }

  /** `Load`: defaults, then the file, then the environment. */
  function Load(file: ConfigFile, env: Env): (r: Result<Config, LoadError>)
    ensures r.Err? <==> file.Unparsable?
  {
    match file
    case NoFile => Ok(ApplyEnvOverrides(DefaultConfig(), env))
    case Unparsable => Err(ParseError)
    case Parsed(f) => Ok(ApplyEnvOverrides(Overlay(DefaultConfig(), f), env))
  }

  /** Non-empty environment values win over whatever the file says. */
  lemma EnvironmentWinsOverFile(f: FileSettings, env: Env)
    ensures var r := Load(Parsed(f), env).value;
      && (Getenv(env, "ASK_PROVIDER") != "" ==> r.defaultProvider == Getenv(env, "ASK_PROVIDER"))
      && (Getenv(env, "ASK_MODEL") != "" ==> r.defaultModel == Getenv(env, "ASK_MODEL"))
      && (Getenv(env, "OPENAI_API_KEY") != "" ==>
            GetApiKey(r, "openai") == ResolveReference(Getenv(env, "OPENAI_API_KEY"), env))
      && (Getenv(env, "ANTHROPIC_API_KEY") != "" ==>
            GetApiKey(r, "anthropic") == ResolveReference(Getenv(env, "ANTHROPIC_API_KEY"), env))
  {
  }

  /**
   * With an empty environment the file's values stand, `${VAR}` keys
   * included: an unset variable leaves the reference as written.
   */
  lemma FileWinsOverDefaults(f: FileSettings)
    ensures var r := Load(Parsed(f), map[]).value;
      && (f.defaultModel.Some? ==> r.defaultModel == f.defaultModel.value)
      && (f.defaultProvider.Some? ==> r.defaultProvider == f.defaultProvider.value)
      && (forall name :: name in f.providers ==> GetApiKey(r, name) == f.providers[name].apiKey)
  {
  }
}
