/** The mixed-provider model factory: it resolves a stage's provider and model
    name from the shared configuration and the caller's overrides, and builds a
    Gemini model or a SiliconFlow model (an OpenAI-compatible endpoint), each of
    which needs its API key in the environment. Also the environment check of
    every provider in use and the per-stage model summaries. */
module ModelFactory {
  import opened Wrappers
  import opened PyText
  import opened SharedConfiguration

  datatype Provider = Gemini | SiliconFlow

  /** A model handle: its provider, model name, API key and endpoint. */
  datatype Model = Model(provider: Provider, modelName: string, apiKey: string, baseUrl: Option<string>)

  const GeminiKeyVar: string := "GEMINI_API_KEY"
  const SiliconflowKeyVar: string := "SILICONFLOW_API_KEY"
  const SiliconflowBaseUrl: string := "https://api.siliconflow.cn/v1"
  const GeminiKeyMissing: string := "GEMINI_API_KEY 环境变量未设置"
  const SiliconflowKeyMissing: string := "SILICONFLOW_API_KEY 环境变量未设置"
  const UnsupportedProvider: string := "不支持的模型提供商: "

  // ---------------------------------------------------------------------------
  // _create_gemini_model, _create_siliconflow_model
  // ---------------------------------------------------------------------------

  /** `_create_gemini_model`: refuses a missing or empty `GEMINI_API_KEY`. */
  function CreateGeminiModel(modelName: string, env: map<string, string>): (r: Result<Model>)
    ensures r.Err? <==> !EnvSet(env, GeminiKeyVar)
    ensures r.Err? ==> r.error == GeminiKeyMissing
    ensures r.Ok? ==> r.value == Model(Gemini, modelName, env[GeminiKeyVar], None)
  {
    if !EnvSet(env, GeminiKeyVar) then Err(GeminiKeyMissing)
    else Ok(Model(Gemini, modelName, env[GeminiKeyVar], None))
  }

  /** `_create_siliconflow_model`: refuses a missing or empty
      `SILICONFLOW_API_KEY`; the model talks to the SiliconFlow endpoint. */
  function CreateSiliconflowModel(modelName: string, env: map<string, string>): (r: Result<Model>)
    ensures r.Err? <==> !EnvSet(env, SiliconflowKeyVar)
    ensures r.Err? ==> r.error == SiliconflowKeyMissing
    ensures r.Ok? ==> r.value == Model(SiliconFlow, modelName, env[SiliconflowKeyVar], Some(SiliconflowBaseUrl))
  {
    if !EnvSet(env, SiliconflowKeyVar) then Err(SiliconflowKeyMissing)
    else Ok(Model(SiliconFlow, modelName, env[SiliconflowKeyVar], Some(SiliconflowBaseUrl)))
  }

  // ---------------------------------------------------------------------------
  // create_mixed_chat_model
  // ---------------------------------------------------------------------------

  /** A Python truth test of an optional string: present and not empty. */
  predicate Truthy(o: Option<string>) {
    o.Some? && o.value != ""
  }

  /** The provider and model name `create_mixed_chat_model` settles on: both overrides win outright; a provider override alone
      replaces the looked-up provider but keeps the model name looked up for
      the configured provider; a model override always sets the model name. */
  function ProviderAndModel(c: ChatConfiguration, stage: string, providerOverride: Option<string>, modelOverride: Option<string>)
    : (r: (string, string))
    ensures Truthy(providerOverride) ==> r.0 == providerOverride.value
    ensures !Truthy(providerOverride) ==> r.0 == GetModelForStage(c, stage).0
    ensures Truthy(modelOverride) ==> r.1 == modelOverride.value
    ensures !Truthy(modelOverride) ==> r.1 == GetModelForStage(c, stage).1
  {
    var (provider, modelName) :=
      if Truthy(providerOverride) && Truthy(modelOverride) then (providerOverride.value, modelOverride.value)
      else if Truthy(providerOverride) then (providerOverride.value, GetModelForStage(c, stage).1)
      else GetModelForStage(c, stage);
    (provider, if Truthy(modelOverride) then modelOverride.value else modelName)
  }

  /** The model name a provider override is evidently meant to get: the
      stage's model in the overriding provider's own table (the chat model for
      a stage name not in the table). */
  function ModelForProvider(c: ChatConfiguration, stage: string, provider: string): (m: string)
    ensures StageOf(stage).Some? && Lower(provider) == "siliconflow" ==>
              m == Get(c, SiliconflowModelField(StageOf(stage).value))
    ensures StageOf(stage).Some? && Lower(provider) != "siliconflow" ==>
              m == Get(c, GeminiModelField(StageOf(stage).value))
    ensures StageOf(stage).None? ==> m == c.chatModel
  {
    match StageOf(stage)
    case None => c.chatModel
    case Some(s) =>
      if Lower(provider) == "siliconflow" then Get(c, SiliconflowModelField(s)) else Get(c, GeminiModelField(s))
  }

  /** The provider and model name with the provider override corrected: a
      provider override alone takes the model name from the overriding
      provider's table, as `get_model_for_stage` does for a configured
      provider. */
  function ProviderAndModelCorrected(c: ChatConfiguration, stage: string, providerOverride: Option<string>, modelOverride: Option<string>)
    : (r: (string, string))
    ensures Truthy(providerOverride) ==> r.0 == providerOverride.value
    ensures !Truthy(providerOverride) ==> r.0 == GetModelForStage(c, stage).0
    ensures Truthy(modelOverride) ==> r.1 == modelOverride.value
    ensures !Truthy(modelOverride) && Truthy(providerOverride) ==> r.1 == ModelForProvider(c, stage, providerOverride.value)
    ensures !Truthy(modelOverride) && !Truthy(providerOverride) ==> r.1 == GetModelForStage(c, stage).1
  {
    if Truthy(modelOverride) then
      (if Truthy(providerOverride) then providerOverride.value else GetModelForStage(c, stage).0, modelOverride.value)
    else if Truthy(providerOverride) then
      (providerOverride.value, ModelForProvider(c, stage, providerOverride.value))
    else GetModelForStage(c, stage)
  }

  /** Without overrides, the model name a provider gets is the one its own
      table lists: the configured pair always agrees with `ModelForProvider`. */
  lemma ConfiguredPairUsesOwnTable(c: ChatConfiguration, stage: string)
    ensures GetModelForStage(c, stage).1 == ModelForProvider(c, stage, GetModelForStage(c, stage).0)
  {
  }

  /** The as-written and the corrected choice differ only for a provider
      override alone whose table is not the configured provider's. */
  lemma OverrideAgreesWithConfigured(c: ChatConfiguration, stage: string, providerOverride: Option<string>, modelOverride: Option<string>)
    requires Truthy(providerOverride) ==>
               (Lower(providerOverride.value) == "siliconflow" <==> Lower(GetModelForStage(c, stage).0) == "siliconflow")
    ensures ProviderAndModel(c, stage, providerOverride, modelOverride) == ProviderAndModelCorrected(c, stage, providerOverride, modelOverride)
  {
    ConfiguredPairUsesOwnTable(c, stage);
  }

  /** Case-mapping facts about the provider names. */
  lemma LowerProviderNames()
    ensures Lower("gemini") == "gemini" && Lower("siliconflow") == "siliconflow" && Lower("") == ""
  {
  }

  lemma UpperProviderNames()
    ensures Upper("gemini") == "GEMINI" && Upper("siliconflow") == "SILICONFLOW"
  {
  }

  /** With nothing configured, the as-written choice for a SiliconFlow
      override is Gemini's chat model name; the corrected one is SiliconFlow's
      own default chat model. */
  lemma ProviderOverrideMismatch(env: map<string, string>)
    requires forall f :: EnvName(f) !in env
    ensures ProviderAndModel(Defaults(env), "chat", Some("siliconflow"), None) == ("siliconflow", "gemini-2.0-flash")
    ensures ProviderAndModelCorrected(Defaults(env), "chat", Some("siliconflow"), None) == ("siliconflow", "Qwen/Qwen2.5-7B-Instruct")
  {
    UnsetDefaults(env);
    HardDefaultOverride(Defaults(env));
  }

  /** The same choice for any configuration holding the hard-coded
      defaults. */
  lemma HardDefaultOverride(c: ChatConfiguration)
    requires forall f :: Get(c, f) == HardDefault(f)
    ensures ProviderAndModel(c, "chat", Some("siliconflow"), None) == ("siliconflow", "gemini-2.0-flash")
    ensures ProviderAndModelCorrected(c, "chat", Some("siliconflow"), None) == ("siliconflow", "Qwen/Qwen2.5-7B-Instruct")
  {
    assert Get(c, ModelProvider) == "gemini" && Get(c, ChatProvider) == "";
    GeminiStage(c, ChatStage);
    assert Get(c, ChatModel) == "gemini-2.0-flash";
    assert StageOf("chat") == Some(ChatStage);
    LowerProviderNames();
    assert ModelForProvider(c, "chat", "siliconflow") == Get(c, SiliconflowChatModel);
    assert Get(c, SiliconflowChatModel) == "Qwen/Qwen2.5-7B-Instruct";
  }

  /** The provider dispatch of `create_mixed_chat_model`, on the lower-cased
      provider name. */
  function Dispatch(provider: string, modelName: string, env: map<string, string>): (r: Result<Model>)
    ensures Lower(provider) == "gemini" ==> r == CreateGeminiModel(modelName, env)
    ensures Lower(provider) == "siliconflow" ==> r == CreateSiliconflowModel(modelName, env)
    ensures Lower(provider) != "gemini" && Lower(provider) != "siliconflow" ==> r == Err(UnsupportedProvider + provider)
    ensures r.Ok? ==> r.value.modelName == modelName
  {
    if Lower(provider) == "gemini" then CreateGeminiModel(modelName, env)
    else if Lower(provider) == "siliconflow" then CreateSiliconflowModel(modelName, env)
    else Err(UnsupportedProvider + provider)
  }

  /** `create_mixed_chat_model(stage, config, provider_override=...,
      model_override=...)`; temperature and retries only pass through. */
  function CreateMixedChatModel(
    stage: string, config: Option<RunnableConfig>, env: map<string, string>,
    providerOverride: Option<string>, modelOverride: Option<string>): (r: Result<Model>)
    ensures FromRunnableConfig(config, env).Err? ==> r == Err(FromRunnableConfig(config, env).error)
    ensures FromRunnableConfig(config, env).Ok? ==>
              var pm := ProviderAndModel(FromRunnableConfig(config, env).value, stage, providerOverride, modelOverride);
              r == Dispatch(pm.0, pm.1, env)
  {
    match FromRunnableConfig(config, env)
    case Err(e) => Err(e)
    case Ok(c) =>
      var (provider, modelName) := ProviderAndModel(c, stage, providerOverride, modelOverride);
      Dispatch(provider, modelName, env)
  }

  /** `create_mixed_chat_model` with the provider override corrected. */
  function CreateMixedChatModelCorrected(
    stage: string, config: Option<RunnableConfig>, env: map<string, string>,
    providerOverride: Option<string>, modelOverride: Option<string>): (r: Result<Model>)
    ensures FromRunnableConfig(config, env).Err? ==> r == Err(FromRunnableConfig(config, env).error)
    ensures FromRunnableConfig(config, env).Ok? ==>
              var pm := ProviderAndModelCorrected(FromRunnableConfig(config, env).value, stage, providerOverride, modelOverride);
              r == Dispatch(pm.0, pm.1, env)
  {
    match FromRunnableConfig(config, env)
    case Err(e) => Err(e)
    case Ok(c) =>
      var (provider, modelName) := ProviderAndModelCorrected(c, stage, providerOverride, modelOverride);
      Dispatch(provider, modelName, env)
  }

  /** The keyword parameters `create_mixed_chat_model` accepts besides the
      stage and the config, which `create_chat_model` passes itself. */
  predicate IsFactoryKeyword(k: string) {
    k == "temperature" || k == "max_retries" || k == "provider_override" || k == "model_override"
  }

  /** An optional string keyword argument; a value that is not a string
      (`None`, say) counts as absent. */
  function OptionalString(kwargs: map<string, Value>, k: string): (o: Option<string>)
    ensures o.Some? <==> k in kwargs && kwargs[k].Str?
    ensures o.Some? ==> Str(o.value) == kwargs[k]
  {
    if k in kwargs && kwargs[k].Str? then Some(kwargs[k].s) else None
  }

  const UnexpectedKeyword: string := "create_mixed_chat_model() got an unexpected keyword argument"

  /** `create_chat_model(config, **kwargs)`: the chat stage. Every keyword
      argument is forwarded, so one that `create_mixed_chat_model` does not
      take raises a `TypeError`; of the rest only the overrides change the
      result. */
  function CreateChatModel(config: Option<RunnableConfig>, env: map<string, string>, kwargs: map<string, Value>)
    : (r: Result<Model>)
    ensures (exists k :: k in kwargs && !IsFactoryKeyword(k)) ==> r == Err(UnexpectedKeyword)
    ensures (forall k :: k in kwargs ==> IsFactoryKeyword(k)) ==>
              r == CreateMixedChatModel("chat", config, env, OptionalString(kwargs, "provider_override"), OptionalString(kwargs, "model_override"))
  {
    if exists k :: k in kwargs && !IsFactoryKeyword(k) then Err(UnexpectedKeyword)
    else CreateMixedChatModel("chat", config, env, OptionalString(kwargs, "provider_override"), OptionalString(kwargs, "model_override"))
  }

  /** `create_model(config, provider=..., model_name=...)`, the agent-side
      interface: the chat stage with the two arguments as overrides. */
  function CreateModel(config: Option<RunnableConfig>, env: map<string, string>, provider: Option<string>, modelName: Option<string>)
    : (r: Result<Model>)
    ensures FromRunnableConfig(config, env).Err? ==> r == Err(FromRunnableConfig(config, env).error)
    ensures FromRunnableConfig(config, env).Ok? ==>
              var pm := GetModelForStage(FromRunnableConfig(config, env).value, "chat");
              r == Dispatch(if Truthy(provider) then provider.value else pm.0,
                            if Truthy(modelName) then modelName.value else pm.1, env)
  {
    CreateMixedChatModel("chat", config, env, provider, modelName)
  }

  /** `get_mixed_model_provider`: the provider `get_model_for_stage` picks. */
  function GetMixedModelProvider(stage: string, config: Option<RunnableConfig>, env: map<string, string>): (r: Result<string>)
    ensures r.Err? <==> FromRunnableConfig(config, env).Err?
    ensures r.Ok? ==> FromRunnableConfig(config, env).Ok? && r.value == GetModelForStage(FromRunnableConfig(config, env).value, stage).0
  {
    match FromRunnableConfig(config, env)
    case Err(e) => Err(e)
    case Ok(c) => Ok(GetModelForStage(c, stage).0)
  }

  /** Without overrides, creation uses the provider that
      `get_mixed_model_provider` reports. */
  lemma ReportedProviderIsUsed(stage: string, config: Option<RunnableConfig>, env: map<string, string>)
    requires CreateMixedChatModel(stage, config, env, None, None).Ok?
    ensures GetMixedModelProvider(stage, config, env).Ok?
    ensures var p := Lower(GetMixedModelProvider(stage, config, env).value);
            (p == "gemini" <==> CreateMixedChatModel(stage, config, env, None, None).value.provider == Gemini) &&
            (p == "siliconflow" <==> CreateMixedChatModel(stage, config, env, None, None).value.provider == SiliconFlow)
  {
  }

  /** `create_gemini_model(config)`: the chat stage with the provider
      forced to Gemini; the model name stays the one looked up for the
      configured chat provider. */
  function CreateGeminiCompat(config: Option<RunnableConfig>, env: map<string, string>): (r: Result<Model>)
    ensures FromRunnableConfig(config, env).Err? ==> r.Err?
    ensures r.Ok? ==> r.value.provider == Gemini
    ensures r.Ok? ==> FromRunnableConfig(config, env).Ok? &&
                      r.value.modelName == GetModelForStage(FromRunnableConfig(config, env).value, "chat").1
    ensures FromRunnableConfig(config, env).Ok? ==>
              (r.Ok? <==> EnvSet(env, GeminiKeyVar))
  {
    LowerProviderNames();
    CreateMixedChatModel("chat", config, env, Some("gemini"), None)
  }

  /** `create_siliconflow_model(config)`: the chat stage with the provider
      forced to SiliconFlow; the model name stays the one looked up for the
      configured chat provider. */
  function CreateSiliconflowCompat(config: Option<RunnableConfig>, env: map<string, string>): (r: Result<Model>)
    ensures FromRunnableConfig(config, env).Err? ==> r.Err?
    ensures r.Ok? ==> r.value.provider == SiliconFlow && r.value.baseUrl == Some(SiliconflowBaseUrl)
    ensures r.Ok? ==> FromRunnableConfig(config, env).Ok? &&
                      r.value.modelName == GetModelForStage(FromRunnableConfig(config, env).value, "chat").1
    ensures FromRunnableConfig(config, env).Ok? ==>
              (r.Ok? <==> EnvSet(env, SiliconflowKeyVar))
  {
    LowerProviderNames();
    CreateMixedChatModel("chat", config, env, Some("siliconflow"), None)
  }

  /** `create_siliconflow_model(config)` with the corrected override: its
      model is the configured SiliconFlow chat model. */
  function CreateSiliconflowCompatCorrected(config: Option<RunnableConfig>, env: map<string, string>): (r: Result<Model>)
    ensures FromRunnableConfig(config, env).Err? ==> r.Err?
    ensures r.Ok? ==> r.value.provider == SiliconFlow && r.value.baseUrl == Some(SiliconflowBaseUrl)
    ensures r.Ok? ==> FromRunnableConfig(config, env).Ok? &&
                      r.value.modelName == FromRunnableConfig(config, env).value.siliconflowChatModel
    ensures FromRunnableConfig(config, env).Ok? ==>
              (r.Ok? <==> EnvSet(env, SiliconflowKeyVar))
  {
    LowerProviderNames();
    CreateMixedChatModelCorrected("chat", config, env, Some("siliconflow"), None)
  }

  /** With nothing configured, `create_siliconflow_model` as written asks the
      SiliconFlow endpoint for Gemini's chat model; the corrected wrapper asks
      for SiliconFlow's own default chat model. */
  lemma SiliconflowAsWrittenGetsGeminiName(env: map<string, string>)
    requires forall f :: EnvName(f) !in env
    requires EnvSet(env, SiliconflowKeyVar)
    ensures CreateSiliconflowCompat(None, env) ==
            Ok(Model(SiliconFlow, "gemini-2.0-flash", env[SiliconflowKeyVar], Some(SiliconflowBaseUrl)))
    ensures CreateSiliconflowCompatCorrected(None, env) ==
            Ok(Model(SiliconFlow, "Qwen/Qwen2.5-7B-Instruct", env[SiliconflowKeyVar], Some(SiliconflowBaseUrl)))
  {
    ProviderOverrideMismatch(env);
    LowerProviderNames();
  }

  // ---------------------------------------------------------------------------
  // validate_mixed_model_config
  // ---------------------------------------------------------------------------

  /** The stage provider variables, read with an empty default. */
  function StageProviders(env: map<string, string>): (ps: seq<string>)
    ensures |ps| == 4
  {
    [GetEnv(env, EnvName(QueryGeneratorProvider), ""),
     GetEnv(env, EnvName(ReflectionProvider), ""),
     GetEnv(env, EnvName(AnswerProvider), ""),
     GetEnv(env, EnvName(ChatProvider), "")]
  }

  /** The default provider as the checks read it: `MODEL_PROVIDER`, "gemini"
      when unset, lower-cased. */
  function DefaultProvider(env: map<string, string>): string {
    Lower(GetEnv(env, EnvName(ModelProvider), "gemini"))
  }

  /** The lower-cased default provider and every non-empty lower-cased stage
      provider. */
  function ProvidersInUse(env: map<string, string>): set<string> {
    {DefaultProvider(env)} + NamedProviders(StageProviders(env), 4)
  }

  /** The lower-cased non-empty names among the first `n` stage providers. */
  function NamedProviders(stageProviders: seq<string>, n: nat): set<string>
    requires n <= |stageProviders|
  {
    set j | 0 <= j < n && stageProviders[j] != "" :: Lower(stageProviders[j])
  }

  lemma NamedProvidersNext(stageProviders: seq<string>, n: nat)
    requires n < |stageProviders|
    ensures NamedProviders(stageProviders, n + 1) ==
            NamedProviders(stageProviders, n) + (if stageProviders[n] != "" then {Lower(stageProviders[n])} else {})
  {
  }

  /** A provider name passes the check: empty, or a supported provider whose
      key is set and not empty. */
  predicate ProviderReady(p: string, env: map<string, string>) {
    p == "" || (p == "gemini" && EnvSet(env, GeminiKeyVar)) || (p == "siliconflow" && EnvSet(env, SiliconflowKeyVar))
  }

  /** Every provider in use passes the check. */
  predicate MixedConfigValid(env: map<string, string>) {
    forall p :: p in ProvidersInUse(env) ==> ProviderReady(p, env)
  }

  /** `validate_mixed_model_config`: collects the providers in use, then
      checks each in turn, stopping at the first that fails. */
  method ValidateMixedModelConfig(env: map<string, string>) returns (ok: bool)
    ensures ok == MixedConfigValid(env)
  {
    var provider := DefaultProvider(env);
    var providersInUse := {provider};
    var stageProviders := StageProviders(env);
    for i := 0 to |stageProviders|
      invariant providersInUse == {provider} + NamedProviders(stageProviders, i)
    {
      NamedProvidersNext(stageProviders, i);
      if stageProviders[i] != "" {
        providersInUse := providersInUse + {Lower(stageProviders[i])};
      }
    }
    assert providersInUse == ProvidersInUse(env);
    var remaining := providersInUse;
    while remaining != {}
      invariant remaining <= providersInUse
      invariant forall p :: p in providersInUse && p !in remaining ==> ProviderReady(p, env)
      decreases |remaining|
    {
      var providerName :| providerName in remaining;
      if !ProviderReady(providerName, env) {
        assert providerName in ProvidersInUse(env);
      }
      if providerName == "gemini" {
        if !EnvSet(env, GeminiKeyVar) {
          return false;
        }
      } else if providerName == "siliconflow" {
        if !EnvSet(env, SiliconflowKeyVar) {
          return false;
        }
      } else if providerName != "" {
        return false;
      }
      remaining := remaining - {providerName};
    }
    return true;
  }

  /** The index of a stage's provider among the stage provider variables. */
  function StageIndex(s: Stage): (i: nat)
    ensures i < 4
  {
    match s
    case QueryGeneratorStage => 0
    case ReflectionStage => 1
    case AnswerStage => 2
    case ChatStage => 3
  }

  /** A runtime configuration that sets none of the provider fields. */
  predicate SetsNoProvider(config: Option<RunnableConfig>) {
    config.Some? && config.value.configurable.Has? ==>
      FieldName(ModelProvider) !in config.value.configurable.value &&
      forall s :: FieldName(ProviderField(s)) !in config.value.configurable.value
  }

  /** Such a configuration resolves every stage to the provider the
      environment alone gives it. */
  lemma ProviderFromEnvironment(config: Option<RunnableConfig>, env: map<string, string>, stage: string)
    requires FromRunnableConfig(config, env).Ok? && SetsNoProvider(config)
    ensures GetModelForStage(FromRunnableConfig(config, env).value, stage).0 == GetModelForStage(Defaults(env), stage).0
  {
    if config.Some? && config.value.configurable.Has? {
      var cf := config.value.configurable.value;
      SharedPrecedence(cf, env, ModelProvider);
      match StageOf(stage)
      case None =>
      case Some(s) => SharedPrecedence(cf, env, ProviderField(s));
    }
  }

  /** The configuration read from the environment alone gives every stage a
      provider that the check examined. */
  lemma DefaultsProviderInUse(env: map<string, string>, stage: string)
    ensures Lower(GetModelForStage(Defaults(env), stage).0) in ProvidersInUse(env)
  {
    var c := Defaults(env);
    var stageProviders := StageProviders(env);
    assert c.modelProvider == GetEnv(env, EnvName(ModelProvider), "gemini") by {
      assert Get(c, ModelProvider) == GetEnv(env, EnvName(ModelProvider), HardDefault(ModelProvider));
    }
    match StageOf(stage)
    case None =>
    case Some(s) =>
      var j := StageIndex(s);
      assert Get(c, ProviderField(s)) == stageProviders[j];
  }

  /** A readable configuration that sets no provider field gives every stage
      a provider that the check examined. */
  lemma StageProviderInUse(config: Option<RunnableConfig>, env: map<string, string>, stage: string)
    requires FromRunnableConfig(config, env).Ok? && SetsNoProvider(config)
    ensures Lower(GetModelForStage(FromRunnableConfig(config, env).value, stage).0) in ProvidersInUse(env)
  {
    ProviderFromEnvironment(config, env, stage);
    DefaultsProviderInUse(env, stage);
  }

  /** The check reads only the environment: with no provider variable set
      and the Gemini key present it passes, yet a runtime `chat_provider` of
      "openai", which it never saw, makes the chat model's creation raise. */
  lemma RuntimeProviderUnchecked(cf: map<string, Value>, env: map<string, string>)
    requires EnvName(ModelProvider) !in env && forall s :: EnvName(ProviderField(s)) !in env
    requires EnvSet(env, GeminiKeyVar)
    requires FieldName(ChatProvider) in cf && cf[FieldName(ChatProvider)] == Str("openai")
    requires FromRunnableConfig(Some(RunnableConfig(Has(cf))), env).Ok?
    ensures MixedConfigValid(env)
    ensures CreateMixedChatModel("chat", Some(RunnableConfig(Has(cf))), env, None, None) == Err(UnsupportedProvider + "openai")
  {
    SharedPrecedence(cf, env, ChatProvider);
    LowerProviderNames();
    assert Lower("openai") == "openai";
    var stageProviders := StageProviders(env);
    assert stageProviders == ["", "", "", ""] by {
      assert EnvName(ProviderField(QueryGeneratorStage)) !in env;
      assert EnvName(ProviderField(ReflectionStage)) !in env;
      assert EnvName(ProviderField(AnswerStage)) !in env;
      assert EnvName(ProviderField(ChatStage)) !in env;
    }
    assert NamedProviders(stageProviders, 4) == {};
    assert ProvidersInUse(env) == {"gemini"};
  }

  /** A passing check is enough for creation: with a readable configuration
      that sets no provider field, no provider override and a non-empty
      default provider, every stage's model can be built, whatever model
      override is given. */
  lemma ValidatedCreationSucceeds(config: Option<RunnableConfig>, env: map<string, string>, stage: string, modelOverride: Option<string>)
    requires MixedConfigValid(env)
    requires DefaultProvider(env) != ""
    requires FromRunnableConfig(config, env).Ok? && SetsNoProvider(config)
    ensures CreateMixedChatModel(stage, config, env, None, modelOverride).Ok?
  {
    var c := Defaults(env);
    var p := GetModelForStage(c, stage).0;
    ProviderFromEnvironment(config, env, stage);
    DefaultsProviderInUse(env, stage);
    assert ProviderReady(Lower(p), env);
    assert c.modelProvider == GetEnv(env, EnvName(ModelProvider), "gemini") by {
      assert Get(c, ModelProvider) == GetEnv(env, EnvName(ModelProvider), HardDefault(ModelProvider));
    }
    if Lower(p) == "" {
      assert |p| == 0;
      ProviderIsNotEmpty(c, stage);
      assert false;
    }
  }

  lemma ProviderIsNotEmpty(c: ChatConfiguration, stage: string)
    requires Lower(c.modelProvider) != ""
    ensures GetModelForStage(c, stage).0 != ""
  {
  }

  /** An empty `MODEL_PROVIDER` with no stage provider variable passes the
      check, and then no stage can build its model from a configuration that
      sets no provider field: the check skips empty names, the dispatch
      refuses them. */
  lemma EmptyProviderPassesButFails(config: Option<RunnableConfig>, env: map<string, string>, stage: string, modelOverride: Option<string>)
    requires EnvName(ModelProvider) in env && env[EnvName(ModelProvider)] == ""
    requires forall s :: EnvName(ProviderField(s)) !in env
    requires FromRunnableConfig(config, env).Ok? && SetsNoProvider(config)
    ensures MixedConfigValid(env)
    ensures CreateMixedChatModel(stage, config, env, None, modelOverride) == Err(UnsupportedProvider)
  {
    EmptyProviderPasses(env);
    EmptyProviderEverywhere(env, stage);
    ProviderFromEnvironment(config, env, stage);
    LowerProviderNames();
    assert UnsupportedProvider + "" == UnsupportedProvider;
  }

  /** The check with an empty `MODEL_PROVIDER` and no stage provider
      variable sees only the empty name, which it skips. */
  lemma EmptyProviderPasses(env: map<string, string>)
    requires EnvName(ModelProvider) in env && env[EnvName(ModelProvider)] == ""
    requires forall s :: EnvName(ProviderField(s)) !in env
    ensures ProvidersInUse(env) == {""}
    ensures MixedConfigValid(env)
  {
    var stageProviders := StageProviders(env);
    assert stageProviders[0] == "" && stageProviders[1] == "" && stageProviders[2] == "" && stageProviders[3] == "" by {
      assert EnvName(ProviderField(QueryGeneratorStage)) !in env;
      assert EnvName(ProviderField(ReflectionStage)) !in env;
      assert EnvName(ProviderField(AnswerStage)) !in env;
      assert EnvName(ProviderField(ChatStage)) !in env;
    }
    LowerProviderNames();
    assert NamedProviders(stageProviders, 4) == {};
  }

  /** In the same environment every stage resolves to the empty provider. */
  lemma EmptyProviderEverywhere(env: map<string, string>, stage: string)
    requires EnvName(ModelProvider) in env && env[EnvName(ModelProvider)] == ""
    requires forall s :: EnvName(ProviderField(s)) !in env
    ensures GetModelForStage(Defaults(env), stage).0 == ""
  {
    var c := Defaults(env);
    assert Get(c, ModelProvider) == "";
    match StageOf(stage)
    case None =>
    case Some(st) =>
      assert Get(c, ProviderField(st)) == "" by {
        assert EnvName(ProviderField(st)) !in env;
      }
  }

  // ---------------------------------------------------------------------------
  // get_model_info, list_all_model_info
  // ---------------------------------------------------------------------------

  /** The summary of one stage's model. */
  datatype ModelInfo = ModelInfo(stage: string, provider: string, modelName: string, apiKeySet: bool)

  /** `get_model_info`: the stage's provider and model, and whether the
      variable `PROVIDER_API_KEY`, with the provider upper-cased, is set and not
      empty. */
  function GetModelInfo(stage: string, config: Option<RunnableConfig>, env: map<string, string>): (r: Result<ModelInfo>)
    ensures r.Err? <==> FromRunnableConfig(config, env).Err?
    ensures r.Ok? ==>
              var pm := GetModelForStage(FromRunnableConfig(config, env).value, stage);
              r.value == ModelInfo(stage, pm.0, pm.1, EnvSet(env, Upper(pm.0) + "_API_KEY"))
  {
    match FromRunnableConfig(config, env)
    case Err(e) => Err(e)
    case Ok(c) => Ok(StageInfo(c, stage, env))
  }

  function StageInfo(c: ChatConfiguration, stage: string, env: map<string, string>): ModelInfo {
    var (provider, modelName) := GetModelForStage(c, stage);
    ModelInfo(stage, provider, modelName, EnvSet(env, Upper(provider) + "_API_KEY"))
  }

  /** `list_all_model_info`: the summary of each of the four stages, keyed by
      stage name. */
  function ListAllModelInfo(config: Option<RunnableConfig>, env: map<string, string>): (r: Result<map<string, ModelInfo>>)
    ensures r.Err? <==> FromRunnableConfig(config, env).Err?
    ensures r.Ok? ==> r.value.Keys == {"query_generator", "reflection", "answer", "chat"}
    ensures r.Ok? ==> forall s :: s in r.value ==> Ok(r.value[s]) == GetModelInfo(s, config, env)
  {
    match FromRunnableConfig(config, env)
    case Err(e) => Err(e)
    case Ok(c) =>
      var stages := {"query_generator", "reflection", "answer", "chat"};
      Ok(map s | s in stages :: StageInfo(c, s, env))
  }

  /** For a supported provider, the summary's key flag checks the very
      variable that model creation needs: the flag is set exactly when the
      stage's model can be built. */
  lemma ApiKeyFlagMatchesCreation(stage: string, config: Option<RunnableConfig>, env: map<string, string>)
    requires GetModelInfo(stage, config, env).Ok?
    requires var p := Lower(GetModelInfo(stage, config, env).value.provider); p == "gemini" || p == "siliconflow"
    ensures GetModelInfo(stage, config, env).value.apiKeySet <==> CreateMixedChatModel(stage, config, env, None, None).Ok?
  {
    var c := FromRunnableConfig(config, env).value;
    var (p, m) := GetModelForStage(c, stage);
    assert CreateMixedChatModel(stage, config, env, None, None) == Dispatch(p, m, env);
    UpperOfLower(p);
    UpperProviderNames();
    if Lower(p) == "gemini" {
      assert Upper(p) == "GEMINI";
      KeyVarName("GEMINI", GeminiKeyVar);
    } else {
      assert Upper(p) == "SILICONFLOW";
      KeyVarName("SILICONFLOW", SiliconflowKeyVar);
    }
  }

  lemma KeyVarName(upper: string, keyVar: string)
    requires (upper == "GEMINI" && keyVar == GeminiKeyVar) || (upper == "SILICONFLOW" && keyVar == SiliconflowKeyVar)
    ensures upper + "_API_KEY" == keyVar
  {
  }
}
