/**
 * `GuardrailsConfig` (nemo_guardrails_cai/config.py): the server's settings, read
 * from the dictionary a YAML file holds and written back as one. The dataclass does
 * not check types, so each field holds whatever value the YAML gave it; only
 * `config_path` is converted, into a path.
 */
module Config {
  import opened Wrappers
  import opened JsonValue
  import PurePath

  datatype GuardrailsConfig = GuardrailsConfig(
    configPath: PurePath.Path,
    host: Json,
    port: Json,
    llmProvider: Json,
    llmModel: Json,
    llmApiKey: Json,
    llmApiBase: Json,
    streaming: Json,
    logLevel: Json,
    corsOrigins: Json,
    additionalConfig: Json,
    localModels: Json)

  /** The exceptions `from_yaml` can raise on a dictionary it reads. */
  datatype LoadError =
    | NotADict         // the YAML document is not a mapping (`None.get`, `[].get`)
    | BadConfigPath    // `Path(...)` of something that is not a string
    | SectionNotADict  // "server" or "llm" holds something other than a mapping

  /** The dataclass defaults. */
  function Defaults(): (c: GuardrailsConfig)
    ensures PurePath.Str(c.configPath) == "config"
    ensures c.host == JStr("0.0.0.0") && c.port == JInt(8080) && c.llmProvider == JStr("openai")
    ensures c.llmModel == JNull && c.llmApiKey == JNull && c.llmApiBase == JNull
    ensures c.streaming == JBool(true) && c.logLevel == JStr("INFO")
    ensures c.corsOrigins == JArr([JStr("*")])
    ensures c.additionalConfig == JObj(map[]) && c.localModels == JObj(map[])
  {
    GuardrailsConfig(PurePath.Path("", ["config"]), JStr("0.0.0.0"), JInt(8080), JStr("openai"),
                     JNull, JNull, JNull, JBool(true), JStr("INFO"), JArr([JStr("*")]),
                     JObj(map[]), JObj(map[]))
  }

  /** `from_yaml` after the file is read: each field from its section, with the
      dataclass default where the key is absent. */
  function FromDict(d: Json): (r: Result<GuardrailsConfig, LoadError>)
    ensures !d.JObj? ==> r == Err(NotADict)
    ensures r.Ok? <==>
      && d.JObj?
      && Get(d.fields, "config_path", JStr("config")).JStr?
      && Get(d.fields, "server", JObj(map[])).JObj?
      && Get(d.fields, "llm", JObj(map[])).JObj?
    ensures r.Ok? ==> r.value.localModels == Get(d.fields, "local_models", JObj(map[]))
    ensures r.Ok? ==> PurePath.Valid(r.value.configPath)
  {
    if !d.JObj? then Err(NotADict)
    else
      var configPath := Get(d.fields, "config_path", JStr("config"));
      var server := Get(d.fields, "server", JObj(map[]));
      var llm := Get(d.fields, "llm", JObj(map[]));
      if !configPath.JStr? then Err(BadConfigPath)
      else if !server.JObj? || !llm.JObj? then Err(SectionNotADict)
      else
        Ok(GuardrailsConfig(
          PurePath.Parse(configPath.s),
          Get(server.fields, "host", JStr("0.0.0.0")),
          Get(server.fields, "port", JInt(8080)),
          Get(llm.fields, "provider", JStr("openai")),
          Get(llm.fields, "model", JNull),
          Get(llm.fields, "api_key", JNull),
          Get(llm.fields, "api_base", JNull),
          Get(server.fields, "streaming", JBool(true)),
          Get(server.fields, "log_level", JStr("INFO")),
          Get(server.fields, "cors_origins", JArr([JStr("*")])),
          Get(d.fields, "additional_config", JObj(map[])),
          Get(d.fields, "local_models", JObj(map[]))))
  }

  /** `to_dict`: server settings under "server", model settings under "llm", the path
      as its string. */
  function ToDict(c: GuardrailsConfig): (d: Json)
    ensures d.JObj? && d.fields.Keys == {"config_path", "server", "llm", "additional_config", "local_models"}
    ensures d.fields["server"].JObj? && d.fields["server"].fields.Keys == {"host", "port", "streaming", "log_level", "cors_origins"}
    ensures d.fields["llm"].JObj? && d.fields["llm"].fields.Keys == {"provider", "model", "api_key", "api_base"}
  {
    JObj(map[
      "config_path" := JStr(PurePath.Str(c.configPath)),
      "server" := JObj(ServerSection(c)),
      "llm" := JObj(LlmSection(c)),
      "additional_config" := c.additionalConfig,
      "local_models" := c.localModels])
  }

  function ServerSection(c: GuardrailsConfig): Fields {
    map[
      "host" := c.host,
      "port" := c.port,
      "streaming" := c.streaming,
      "log_level" := c.logLevel,
      "cors_origins" := c.corsOrigins]
  }

  function LlmSection(c: GuardrailsConfig): Fields {
    map[
      "provider" := c.llmProvider,
      "model" := c.llmModel,
      "api_key" := c.llmApiKey,
      "api_base" := c.llmApiBase]
  }

  /** Each server setting is read back from the "server" section. */
  lemma ServerSectionReadBack(c: GuardrailsConfig)
    ensures var s := ServerSection(c);
      && Get(s, "host", JStr("0.0.0.0")) == c.host
      && Get(s, "port", JInt(8080)) == c.port
      && Get(s, "streaming", JBool(true)) == c.streaming
      && Get(s, "log_level", JStr("INFO")) == c.logLevel
      && Get(s, "cors_origins", JArr([JStr("*")])) == c.corsOrigins
  {
    assert "host" != "port" by { assert "host"[0] != "port"[0]; }
    assert "streaming" != "log_level" by { assert "streaming"[0] != "log_level"[0]; }
  }

  /** Each model setting is read back from the "llm" section. */
  lemma LlmSectionReadBack(c: GuardrailsConfig)
    ensures var s := LlmSection(c);
      && Get(s, "provider", JStr("openai")) == c.llmProvider
      && Get(s, "model", JNull) == c.llmModel
      && Get(s, "api_key", JNull) == c.llmApiKey
      && Get(s, "api_base", JNull) == c.llmApiBase
  {
    assert "provider" != "api_base" by { assert "provider"[0] != "api_base"[0]; }
  }

  /** An empty YAML mapping gives exactly the dataclass defaults. */
  lemma EmptyGivesDefaults()
    ensures FromDict(JObj(map[])) == Ok(Defaults())
  {
    DefaultPathParses();
  }

  /** `from_yaml` reads each setting from its section, and a key that is absent takes the
      dataclass default. */
  lemma FromDictKeyByKey(d: Json)
    requires FromDict(d).Ok?
    ensures var c := FromDict(d).value;
      var top := d.fields;
      var server := Get(top, "server", JObj(map[])).fields;
      var llm := Get(top, "llm", JObj(map[])).fields;
      var dflt := Defaults();
      && ("config_path" in top ==> c.configPath == PurePath.Parse(top["config_path"].s))
      && ("config_path" !in top ==> c.configPath == dflt.configPath)
      && c.host == Get(server, "host", dflt.host)
      && c.port == Get(server, "port", dflt.port)
      && c.streaming == Get(server, "streaming", dflt.streaming)
      && c.logLevel == Get(server, "log_level", dflt.logLevel)
      && c.corsOrigins == Get(server, "cors_origins", dflt.corsOrigins)
      && c.llmProvider == Get(llm, "provider", dflt.llmProvider)
      && c.llmModel == Get(llm, "model", dflt.llmModel)
      && c.llmApiKey == Get(llm, "api_key", dflt.llmApiKey)
      && c.llmApiBase == Get(llm, "api_base", dflt.llmApiBase)
      && c.additionalConfig == Get(top, "additional_config", dflt.additionalConfig)
      && c.localModels == Get(top, "local_models", dflt.localModels)
  {
    DefaultPathParses();
  }

  /** The default `config_path` string parses to the default path. */
  lemma DefaultPathParses()
    ensures PurePath.Parse("config") == Defaults().configPath
  {
    PurePath.SplitPart("config");
    assert PyText.LStrip("config", PyText.IsSlash) == "config";
  }

  /** Reading back what `to_dict` (and so `save`) writes reproduces the configuration,
      for every path `Path(...)` can produce. */
  lemma {:induction false} ToDictRoundTrip(c: GuardrailsConfig)
    requires PurePath.Valid(c.configPath)
    ensures FromDict(ToDict(c)) == Ok(c)
  {
    PurePath.ParseStr(c.configPath);
    ServerSectionReadBack(c);
    LlmSectionReadBack(c);
    TopLevelReadBack(c);
  }

  /** Each top-level entry is read back from the dictionary. */
  lemma TopLevelReadBack(c: GuardrailsConfig)
    ensures var d := ToDict(c).fields;
      && Get(d, "config_path", JStr("config")) == JStr(PurePath.Str(c.configPath))
      && Get(d, "server", JObj(map[])) == JObj(ServerSection(c))
      && Get(d, "llm", JObj(map[])) == JObj(LlmSection(c))
      && Get(d, "additional_config", JObj(map[])) == c.additionalConfig
      && Get(d, "local_models", JObj(map[])) == c.localModels
  {
  }

  /** Loading, saving and loading again gives the same configuration. */
  lemma ReloadStable(d: Json)
    requires FromDict(d).Ok?
    ensures FromDict(ToDict(FromDict(d).value)) == FromDict(d)
  {
    ToDictRoundTrip(FromDict(d).value);
  }
}
