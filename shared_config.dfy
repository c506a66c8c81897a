/** The shared model configuration: which provider and which model name each
    stage of the research agent and of the chat uses, its defaults, how a
    runtime configuration and the environment override them, and the lookup of
    a stage's provider and model. */
module SharedConfiguration {
  import opened Wrappers
  import opened PyText

  /** The fields of `ChatConfiguration`. */
  datatype Field =
    | ModelProvider
    | QueryGeneratorProvider | ReflectionProvider | AnswerProvider | ChatProvider
    | QueryGeneratorModel | ReflectionModel | AnswerModel | ChatModel
    | SiliconflowQueryModel | SiliconflowReflectionModel | SiliconflowAnswerModel | SiliconflowChatModel

  /** Every field, in declaration order. */
  const AllFields: seq<Field> := [
    ModelProvider,
    QueryGeneratorProvider, ReflectionProvider, AnswerProvider, ChatProvider,
    QueryGeneratorModel, ReflectionModel, AnswerModel, ChatModel,
    SiliconflowQueryModel, SiliconflowReflectionModel, SiliconflowAnswerModel, SiliconflowChatModel]

  /** The field's name, the key of a runtime `configurable` dictionary. */
  function FieldName(f: Field): string {
    match f
    case ModelProvider => "model_provider"
    case QueryGeneratorProvider => "query_generator_provider"
    case ReflectionProvider => "reflection_provider"
    case AnswerProvider => "answer_provider"
    case ChatProvider => "chat_provider"
    case QueryGeneratorModel => "query_generator_model"
    case ReflectionModel => "reflection_model"
    case AnswerModel => "answer_model"
    case ChatModel => "chat_model"
    case SiliconflowQueryModel => "siliconflow_query_model"
    case SiliconflowReflectionModel => "siliconflow_reflection_model"
    case SiliconflowAnswerModel => "siliconflow_answer_model"
    case SiliconflowChatModel => "siliconflow_chat_model"
  }

  /** The environment variable read for the field: its name in upper case
      (`MODEL_PROVIDER`, `QUERY_GENERATOR_PROVIDER`, ...). */
  function EnvName(f: Field): string {
    Upper(FieldName(f))
  }

  /** The value a field takes when neither the runtime configuration nor the
      environment gives one. */
  function HardDefault(f: Field): string {
    match f
    case ModelProvider => "gemini"
    case QueryGeneratorProvider => ""
    case ReflectionProvider => ""
    case AnswerProvider => ""
    case ChatProvider => ""
    case QueryGeneratorModel => "gemini-2.0-flash"
    case ReflectionModel => "gemini-2.5-flash"
    case AnswerModel => "gemini-2.5-pro"
    case ChatModel => "gemini-2.0-flash"
    case SiliconflowQueryModel => "Qwen/Qwen2.5-7B-Instruct"
    case SiliconflowReflectionModel => "Qwen/Qwen2.5-14B-Instruct"
    case SiliconflowAnswerModel => "Qwen/Qwen2.5-72B-Instruct"
    case SiliconflowChatModel => "Qwen/Qwen2.5-7B-Instruct"
  }

  /** `ChatConfiguration` */
  datatype ChatConfiguration = ChatConfiguration(
    modelProvider: string,
    queryGeneratorProvider: string,
    reflectionProvider: string,
    answerProvider: string,
    chatProvider: string,
    queryGeneratorModel: string,
    reflectionModel: string,
    answerModel: string,
    chatModel: string,
    siliconflowQueryModel: string,
    siliconflowReflectionModel: string,
    siliconflowAnswerModel: string,
    siliconflowChatModel: string)

  /** The value of field `f`. */
  function Get(c: ChatConfiguration, f: Field): string {
    match f
    case ModelProvider => c.modelProvider
    case QueryGeneratorProvider => c.queryGeneratorProvider
    case ReflectionProvider => c.reflectionProvider
    case AnswerProvider => c.answerProvider
    case ChatProvider => c.chatProvider
    case QueryGeneratorModel => c.queryGeneratorModel
    case ReflectionModel => c.reflectionModel
    case AnswerModel => c.answerModel
    case ChatModel => c.chatModel
    case SiliconflowQueryModel => c.siliconflowQueryModel
    case SiliconflowReflectionModel => c.siliconflowReflectionModel
    case SiliconflowAnswerModel => c.siliconflowAnswerModel
    case SiliconflowChatModel => c.siliconflowChatModel
  }

  /** The configuration whose field `f` is `value(f)`. */
  function Make(value: Field -> string): (c: ChatConfiguration)
    ensures forall f :: Get(c, f) == value(f)
  {
    ChatConfiguration(
      value(ModelProvider),
      value(QueryGeneratorProvider), value(ReflectionProvider), value(AnswerProvider), value(ChatProvider),
      value(QueryGeneratorModel), value(ReflectionModel), value(AnswerModel), value(ChatModel),
      value(SiliconflowQueryModel), value(SiliconflowReflectionModel), value(SiliconflowAnswerModel),
      value(SiliconflowChatModel))
  }

  /** `ChatConfiguration()`: each default factory reads the field's
      environment variable and falls back to its hard-coded default. */
  function Defaults(env: map<string, string>): (c: ChatConfiguration)
    ensures forall f :: Get(c, f) == GetEnv(env, EnvName(f), HardDefault(f))
  {
    Make(f => GetEnv(env, EnvName(f), HardDefault(f)))
  }

  /** With no variable set, every field has its hard-coded default. */
  lemma UnsetDefaults(env: map<string, string>)
    requires forall f :: EnvName(f) !in env
    ensures forall f :: Get(Defaults(env), f) == HardDefault(f)
  {
  }

  /** A LangGraph runtime configuration: its `"configurable"` entry may be
      absent, `None` or a dictionary. */
  datatype RunnableConfig = RunnableConfig(configurable: Slot<map<string, Value>>)

  /** The value given to field `f`: the `configurable` entry when there is
      one, the environment variable otherwise, the hard-coded default last. */
  function Resolve(configurable: map<string, Value>, env: map<string, string>, f: Field): Value {
    if FieldName(f) in configurable then configurable[FieldName(f)]
    else Str(GetEnv(env, EnvName(f), HardDefault(f)))
  }

  /** Every field's resolved value is a string, as the model's validation
      demands. */
  predicate AllStrings(configurable: map<string, Value>, env: map<string, string>) {
    forall i :: 0 <= i < |AllFields| ==> Resolve(configurable, env, AllFields[i]).Str?
  }

  lemma AllFieldsListed(f: Field)
    ensures f in AllFields
  {
  }

  /** `ChatConfiguration.from_runnable_config`: no configuration gives the
      defaults; otherwise each field takes its `configurable` entry, else its
      environment variable, else its default. A `configurable` of `None`
      cannot be read, and a value that is not a string is refused. */
  function FromRunnableConfig(config: Option<RunnableConfig>, env: map<string, string>): (r: Result<ChatConfiguration>)
    ensures config.None? ==> r == Ok(Defaults(env))
    ensures config.Some? && config.value.configurable.Null? ==> r.Err?
    ensures config.Some? && config.value.configurable.Missing? ==> r == Ok(Defaults(env))
    ensures config.Some? && config.value.configurable.Has? ==>
              var cf := config.value.configurable.value;
              (r.Ok? <==> AllStrings(cf, env)) &&
              (r.Ok? ==> forall f :: Resolve(cf, env, f).Str? && Get(r.value, f) == Resolve(cf, env, f).s)
  {
    match config
    case None => Ok(Defaults(env))
    case Some(rc) =>
      match rc.configurable
      case Null => Err("'NoneType' object has no attribute 'get'")
      case Missing => Ok(Make(f => Resolve(map[], env, f).s))
      case Has(cf) =>
        if AllStrings(cf, env) then
          assert forall f :: Resolve(cf, env, f).Str? by {
            forall f ensures Resolve(cf, env, f).Str? {
              AllFieldsListed(f);
              var i :| 0 <= i < |AllFields| && AllFields[i] == f;
            }
          }
          Ok(Make(f requires Resolve(cf, env, f).Str? => Resolve(cf, env, f).s))
        else Err("validation error for ChatConfiguration")
  }

  /** The runtime entry beats the environment, which beats the default. */
  lemma SharedPrecedence(cf: map<string, Value>, env: map<string, string>, f: Field)
    requires FromRunnableConfig(Some(RunnableConfig(Has(cf))), env).Ok?
    ensures var c := FromRunnableConfig(Some(RunnableConfig(Has(cf))), env).value;
            (FieldName(f) in cf ==> Str(Get(c, f)) == cf[FieldName(f)]) &&
            (FieldName(f) !in cf && EnvName(f) in env ==> Get(c, f) == env[EnvName(f)]) &&
            (FieldName(f) !in cf && EnvName(f) !in env ==> Get(c, f) == HardDefault(f))
  {
    AllFieldsListed(f);
  }

  /** No configuration, no `configurable` entry and an empty `configurable`
      all give the same configuration. */
  lemma NoConfigIsEmptyConfigurable(env: map<string, string>)
    ensures FromRunnableConfig(None, env) == FromRunnableConfig(Some(RunnableConfig(Missing)), env)
    ensures FromRunnableConfig(None, env) == FromRunnableConfig(Some(RunnableConfig(Has(map[]))), env)
  {
    var a := FromRunnableConfig(Some(RunnableConfig(Has(map[]))), env);
    assert AllStrings(map[], env);
    assert a.Ok?;
    forall f ensures Get(a.value, f) == Get(Defaults(env), f) {
    }
    assert a.value == Defaults(env) by {
      assert Get(a.value, ModelProvider) == Get(Defaults(env), ModelProvider);
      assert Get(a.value, QueryGeneratorProvider) == Get(Defaults(env), QueryGeneratorProvider);
      assert Get(a.value, ReflectionProvider) == Get(Defaults(env), ReflectionProvider);
      assert Get(a.value, AnswerProvider) == Get(Defaults(env), AnswerProvider);
      assert Get(a.value, ChatProvider) == Get(Defaults(env), ChatProvider);
      assert Get(a.value, QueryGeneratorModel) == Get(Defaults(env), QueryGeneratorModel);
      assert Get(a.value, ReflectionModel) == Get(Defaults(env), ReflectionModel);
      assert Get(a.value, AnswerModel) == Get(Defaults(env), AnswerModel);
      assert Get(a.value, ChatModel) == Get(Defaults(env), ChatModel);
      assert Get(a.value, SiliconflowQueryModel) == Get(Defaults(env), SiliconflowQueryModel);
      assert Get(a.value, SiliconflowReflectionModel) == Get(Defaults(env), SiliconflowReflectionModel);
      assert Get(a.value, SiliconflowAnswerModel) == Get(Defaults(env), SiliconflowAnswerModel);
      assert Get(a.value, SiliconflowChatModel) == Get(Defaults(env), SiliconflowChatModel);
    }
  }

  // ---------------------------------------------------------------------------
  // get_model_for_stage
  // ---------------------------------------------------------------------------

  /** The stages named in the provider and model tables. */
  datatype Stage = QueryGeneratorStage | ReflectionStage | AnswerStage | ChatStage

  function StageName(s: Stage): string {
    match s
    case QueryGeneratorStage => "query_generator"
    case ReflectionStage => "reflection"
    case AnswerStage => "answer"
    case ChatStage => "chat"
  }

  /** The stage a name denotes, if any. */
  function StageOf(name: string): (r: Option<Stage>)
    ensures r.Some? ==> StageName(r.value) == name
    ensures r.None? ==> forall s :: StageName(s) != name
  {
    if name == "query_generator" then Some(QueryGeneratorStage)
    else if name == "reflection" then Some(ReflectionStage)
    else if name == "answer" then Some(AnswerStage)
    else if name == "chat" then Some(ChatStage)
    else None
  }

  /** The stage's own provider field. */
  function ProviderField(s: Stage): Field {
    match s
    case QueryGeneratorStage => QueryGeneratorProvider
    case ReflectionStage => ReflectionProvider
    case AnswerStage => AnswerProvider
    case ChatStage => ChatProvider
  }

  /** The stage's model field among the Gemini-named fields. */
  function GeminiModelField(s: Stage): Field {
    match s
    case QueryGeneratorStage => QueryGeneratorModel
    case ReflectionStage => ReflectionModel
    case AnswerStage => AnswerModel
    case ChatStage => ChatModel
  }

  /** The stage's model field among the SiliconFlow fields. */
  function SiliconflowModelField(s: Stage): Field {
    match s
    case QueryGeneratorStage => SiliconflowQueryModel
    case ReflectionStage => SiliconflowReflectionModel
    case AnswerStage => SiliconflowAnswerModel
    case ChatStage => SiliconflowChatModel
  }

  /** `a or b` on strings. */
  function Or(a: string, b: string): string {
    if a != "" then a else b
  }

  /** `get_model_for_stage`: the provider is the stage's own provider when it
      is not empty, the default provider otherwise (and for a stage name not
      in the table); the model name comes from the SiliconFlow fields when the
      provider is "siliconflow" in any casing, from the other fields
      otherwise, and a stage name not in the table gets the chat model. */
  function GetModelForStage(c: ChatConfiguration, stage: string): (r: (string, string))
    ensures StageOf(stage).Some? ==>
              var s := StageOf(stage).value;
              r.0 == (if Get(c, ProviderField(s)) != "" then Get(c, ProviderField(s)) else c.modelProvider) &&
              r.1 == (if Lower(r.0) == "siliconflow" then Get(c, SiliconflowModelField(s)) else Get(c, GeminiModelField(s)))
    ensures StageOf(stage).None? ==> r == (c.modelProvider, c.chatModel)
  {
    var providerMap := map[
      "query_generator" := Or(c.queryGeneratorProvider, c.modelProvider),
      "reflection" := Or(c.reflectionProvider, c.modelProvider),
      "answer" := Or(c.answerProvider, c.modelProvider),
      "chat" := Or(c.chatProvider, c.modelProvider)];
    var provider := if stage in providerMap then providerMap[stage] else c.modelProvider;
    var modelMap :=
      if Lower(provider) == "siliconflow" then
        map[
          "query_generator" := c.siliconflowQueryModel,
          "reflection" := c.siliconflowReflectionModel,
          "answer" := c.siliconflowAnswerModel,
          "chat" := c.siliconflowChatModel]
      else
        map[
          "query_generator" := c.queryGeneratorModel,
          "reflection" := c.reflectionModel,
          "answer" := c.answerModel,
          "chat" := c.chatModel];
    var modelName := if stage in modelMap then modelMap[stage] else c.chatModel;
    (provider, modelName)
  }

  /** The returned provider is one of the configuration's provider fields,
      exactly as written there: only the comparison is case-insensitive. */
  lemma ProviderKeepsCasing(c: ChatConfiguration, stage: string)
    ensures GetModelForStage(c, stage).0 == c.modelProvider ||
            exists s :: GetModelForStage(c, stage).0 == Get(c, ProviderField(s)) && Get(c, ProviderField(s)) != ""
  {
  }

  /** A stage without its own provider, under the default provider
      "gemini", uses its Gemini-named model. */
  lemma GeminiStage(c: ChatConfiguration, s: Stage)
    requires c.modelProvider == "gemini" && Get(c, ProviderField(s)) == ""
    ensures GetModelForStage(c, StageName(s)) == ("gemini", Get(c, GeminiModelField(s)))
  {
    assert StageOf(StageName(s)) == Some(s);
    assert Lower("gemini") != "siliconflow";
  }

  /** A configuration holding the hard-coded defaults uses Gemini, with the
      Gemini model of each stage. */
  lemma HardDefaultStageModels(c: ChatConfiguration)
    requires forall f :: Get(c, f) == HardDefault(f)
    ensures GetModelForStage(c, "query_generator") == ("gemini", "gemini-2.0-flash")
    ensures GetModelForStage(c, "reflection") == ("gemini", "gemini-2.5-flash")
    ensures GetModelForStage(c, "answer") == ("gemini", "gemini-2.5-pro")
    ensures GetModelForStage(c, "chat") == ("gemini", "gemini-2.0-flash")
  {
    assert Get(c, ModelProvider) == "gemini";
    GeminiStage(c, QueryGeneratorStage);
    GeminiStage(c, ReflectionStage);
    GeminiStage(c, AnswerStage);
    GeminiStage(c, ChatStage);
  }

  /** With every variable unset, each stage uses its Gemini model. */
  lemma DefaultStageModels(env: map<string, string>)
    requires forall f :: EnvName(f) !in env
    ensures GetModelForStage(Defaults(env), "query_generator") == ("gemini", "gemini-2.0-flash")
    ensures GetModelForStage(Defaults(env), "reflection") == ("gemini", "gemini-2.5-flash")
    ensures GetModelForStage(Defaults(env), "answer") == ("gemini", "gemini-2.5-pro")
    ensures GetModelForStage(Defaults(env), "chat") == ("gemini", "gemini-2.0-flash")
  {
    UnsetDefaults(env);
    HardDefaultStageModels(Defaults(env));
  }

  /** A mixed-case "SiliconFlow" still selects the SiliconFlow model names,
      and is returned as written; an unknown stage gets the chat model
      whatever the provider. */
  lemma SiliconflowAnyCasing(c: ChatConfiguration)
    requires c.modelProvider == "SiliconFlow" && c.reflectionProvider == ""
    ensures GetModelForStage(c, "reflection") == ("SiliconFlow", c.siliconflowReflectionModel)
    ensures GetModelForStage(c, "summary") == ("SiliconFlow", c.chatModel)
  {
    assert Lower("SiliconFlow") == "siliconflow";
  }
}
