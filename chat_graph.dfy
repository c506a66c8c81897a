/** The chat graphs: the single-model chat node in its mixed and its
    compatibility form, and the four nodes of the dual-model chat graph
    (initialisation, one node per provider, integration) with the routing
    check. Model calls go through an `invoke` function standing for
    `model.invoke(messages)`: it yields the reply's content or the text of the
    exception raised. A node result of `Err` is an exception escaping the
    node. */
module ChatGraph {
  import opened Wrappers
  import opened PyText
  import opened Messages
  import opened ChatState
  import opened SharedConfiguration
  import opened ModelFactory

  const ConfigErrorPrefix: string := "配置错误: "
  const NoMessageReply: string := "抱歉，我没有收到您的消息。"
  const GenericConfigError: string := "不支持的模型提供商或配置错误: "
  const ReplyErrorPrefix: string := "生成回复时出错: "
  const ApologyPrefix: string := "抱歉，我遇到了一个错误："
  const ApologySuffix: string := "。请稍后再试。"

  // ---------------------------------------------------------------------------
  // validate_chat_config
  // ---------------------------------------------------------------------------

  /** `validate_chat_config`: `None` when the mixed validation passes, else
      the message of the `ValueError` raised. */
  function ValidateChatConfig(env: map<string, string>): (r: Option<string>)
    ensures r.None? <==> MixedConfigValid(env)
    ensures !MixedConfigValid(env) && DefaultProvider(env) == "gemini" && !EnvSet(env, GeminiKeyVar) ==>
              r == Some(GeminiKeyMissing)
    ensures !MixedConfigValid(env) && DefaultProvider(env) == "siliconflow" && !EnvSet(env, SiliconflowKeyVar) ==>
              r == Some(SiliconflowKeyMissing)
    ensures !MixedConfigValid(env) &&
            !(DefaultProvider(env) == "gemini" && !EnvSet(env, GeminiKeyVar)) &&
            !(DefaultProvider(env) == "siliconflow" && !EnvSet(env, SiliconflowKeyVar)) ==>
              r == Some(GenericConfigError + DefaultProvider(env))
  {
    if MixedConfigValid(env) then None
    else
      var provider := DefaultProvider(env);
      if provider == "gemini" && !EnvSet(env, GeminiKeyVar) then Some(GeminiKeyMissing)
      else if provider == "siliconflow" && !EnvSet(env, SiliconflowKeyVar) then Some(SiliconflowKeyMissing)
      else Some(GenericConfigError + provider)
  }

  /** A missing key of the default provider is always reported by name. */
  lemma DefaultKeyMissingReported(env: map<string, string>)
    ensures DefaultProvider(env) == "gemini" && !EnvSet(env, GeminiKeyVar) ==>
              ValidateChatConfig(env) == Some(GeminiKeyMissing)
    ensures DefaultProvider(env) == "siliconflow" && !EnvSet(env, SiliconflowKeyVar) ==>
              ValidateChatConfig(env) == Some(SiliconflowKeyMissing)
  {
    assert DefaultProvider(env) in ProvidersInUse(env);
  }

  /** A stage provider without its key fails the check, yet the message
      names the (healthy) default provider rather than the missing key. */
  lemma StageKeyMissingReportedGenerically(env: map<string, string>)
    requires EnvName(ModelProvider) !in env && EnvSet(env, GeminiKeyVar)
    requires EnvName(ChatProvider) in env && env[EnvName(ChatProvider)] == "siliconflow"
    requires !EnvSet(env, SiliconflowKeyVar)
    ensures ValidateChatConfig(env) == Some(GenericConfigError + "gemini")
  {
    LowerProviderNames();
    var stageProviders := StageProviders(env);
    assert stageProviders[3] == "siliconflow";
    assert "siliconflow" in ProvidersInUse(env);
    assert DefaultProvider(env) == "gemini";
  }

  // ---------------------------------------------------------------------------
  // mixed_chat
  // ---------------------------------------------------------------------------

  /** `mixed_chat`: the new messages it returns. A configuration error and a
      missing user message are answered without a model; model creation sits
      outside the `try`, so its failure escapes; a failed model call is
      answered with its error. */
  function MixedChat(
    messages: seq<Message>, config: Option<RunnableConfig>, env: map<string, string>,
    invoke: (Model, seq<Message>) -> Result<string>): (r: Result<seq<Message>>)
    ensures ValidateChatConfig(env).Some? ==> r == Ok([AiMessage(ConfigErrorPrefix + ValidateChatConfig(env).value)])
    ensures ValidateChatConfig(env).None? && GetLastUserMessage(messages) == "" ==> r == Ok([AiMessage(NoMessageReply)])
    ensures r.Err? <==>
              ValidateChatConfig(env).None? && GetLastUserMessage(messages) != "" &&
              CreateMixedChatModel("chat", config, env, None, None).Err?
    ensures r.Ok? ==> |r.value| == 1 && r.value[0].kind == Ai
    ensures r.Ok? && CreateMixedChatModel("chat", config, env, None, None).Ok? &&
            ValidateChatConfig(env).None? && GetLastUserMessage(messages) != "" ==>
              var reply := invoke(CreateMixedChatModel("chat", config, env, None, None).value, messages);
              r.value[0].content == (if reply.Ok? then reply.value else ReplyErrorPrefix + reply.error)
  {
    match ValidateChatConfig(env)
    case Some(e) => Ok([AiMessage(ConfigErrorPrefix + e)])
    case None =>
      if GetLastUserMessage(messages) == "" then Ok([AiMessage(NoMessageReply)])
      else
        match CreateMixedChatModel("chat", config, env, None, None)
        case Err(e) => Err(e)
        case Ok(model) =>
          match invoke(model, messages)
          case Ok(content) => Ok([AiMessage(content)])
          case Err(e) => Ok([AiMessage(ReplyErrorPrefix + e)])
  }

  /** Without a model to call, the model cannot change the answer: on a
      configuration error or without a user message the result is the same
      whatever `invoke` does. */
  lemma MixedChatNoModelCall(
    messages: seq<Message>, config: Option<RunnableConfig>, env: map<string, string>,
    invoke1: (Model, seq<Message>) -> Result<string>, invoke2: (Model, seq<Message>) -> Result<string>)
    requires ValidateChatConfig(env).Some? || GetLastUserMessage(messages) == ""
    ensures MixedChat(messages, config, env, invoke1) == MixedChat(messages, config, env, invoke2)
  {
  }

  /** With a readable runtime configuration that sets no provider field, a
      passing check and a non-empty default provider, `mixed_chat` never
      raises. */
  lemma MixedChatRaisesOnlyOnCreation(
    messages: seq<Message>, config: Option<RunnableConfig>, env: map<string, string>,
    invoke: (Model, seq<Message>) -> Result<string>)
    requires DefaultProvider(env) != ""
    requires FromRunnableConfig(config, env).Ok? && SetsNoProvider(config)
    ensures MixedChat(messages, config, env, invoke).Ok?
  {
    if ValidateChatConfig(env).None? {
      ValidatedCreationSucceeds(config, env, "chat", None);
    }
  }

  // ---------------------------------------------------------------------------
  // get_chat_model and chat_node
  // ---------------------------------------------------------------------------

  /** The model name `get_chat_model` picks: the runtime `chat_model` entry
      when the configuration has a `"configurable"` dictionary, the
      configuration's chat model otherwise. */
  function ChatModelName(config: Option<RunnableConfig>, c: ChatConfiguration): (v: Value)
    ensures config.Some? && config.value.configurable.Has? && FieldName(ChatModel) in config.value.configurable.value ==>
              v == config.value.configurable.value[FieldName(ChatModel)]
    ensures !(config.Some? && config.value.configurable.Has? && FieldName(ChatModel) in config.value.configurable.value) ==>
              v == Str(c.chatModel)
  {
    match config
    case Some(RunnableConfig(Has(cf))) =>
      if FieldName(ChatModel) in cf then cf[FieldName(ChatModel)] else Str(c.chatModel)
    case _ => Str(c.chatModel)
  }

  /** The runtime entry has already been read into the configuration, so the
      selection always yields the configuration's chat model. */
  lemma ChatModelNameIsConfigured(config: Option<RunnableConfig>, env: map<string, string>)
    requires FromRunnableConfig(config, env).Ok?
    ensures ChatModelName(config, FromRunnableConfig(config, env).value) == Str(FromRunnableConfig(config, env).value.chatModel)
  {
    var c := FromRunnableConfig(config, env).value;
    if config.Some? && config.value.configurable.Has? && FieldName(ChatModel) in config.value.configurable.value {
      SharedPrecedence(config.value.configurable.value, env, ChatModel);
    }
  }

  /** `get_chat_model` as written: the name goes to `create_chat_model` as
      `model_name=`, which it forwards to `create_mixed_chat_model`. */
  function GetChatModel(config: Option<RunnableConfig>, env: map<string, string>): (r: Result<Model>)
    ensures FromRunnableConfig(config, env).Err? ==> r.Err?
  {
    match FromRunnableConfig(config, env)
    case Err(e) => Err(e)
    case Ok(c) =>
      CreateChatModel(config, env, NamedKwargs("model_name", ChatModelName(config, c)))
  }

  /** `create_mixed_chat_model` has no `model_name` parameter: as written,
      `get_chat_model` never returns a model. */
  lemma GetChatModelFails(config: Option<RunnableConfig>, env: map<string, string>)
    ensures GetChatModel(config, env).Err?
  {
    match FromRunnableConfig(config, env)
    case Err(_) =>
    case Ok(c) =>
      UnknownKeywordRejected(config, env, NamedKwargs("model_name", ChatModelName(config, c)));
  }

  /** The keyword arguments `get_chat_model` passes besides the config: the
      model name under `key`, a temperature and a retry count. */
  function NamedKwargs(key: string, name: Value): (kwargs: map<string, Value>)
    ensures key in kwargs && kwargs[key] == name
  {
    map["temperature" := Int(0), "max_retries" := Int(2)][key := name]
  }

  lemma UnknownKeywordRejected(config: Option<RunnableConfig>, env: map<string, string>, kwargs: map<string, Value>)
    requires "model_name" in kwargs
    ensures CreateChatModel(config, env, kwargs) == Err(UnexpectedKeyword)
  {
    assert !IsFactoryKeyword("model_name");
  }

  /** `get_chat_model` with the name passed as `model_override=`. */
  function GetChatModelCorrected(config: Option<RunnableConfig>, env: map<string, string>): (r: Result<Model>)
    ensures FromRunnableConfig(config, env).Err? ==> r.Err?
    ensures FromRunnableConfig(config, env).Ok? && FromRunnableConfig(config, env).value.chatModel != "" ==>
              var c := FromRunnableConfig(config, env).value;
              r == Dispatch(GetModelForStage(c, "chat").0, c.chatModel, env)
  {
    match FromRunnableConfig(config, env)
    case Err(e) => Err(e)
    case Ok(c) =>
      ChatModelNameIsConfigured(config, env);
      ModelOverrideKwargs(c.chatModel);
      CreateChatModel(config, env, NamedKwargs("model_override", ChatModelName(config, c)))
  }

  /** The corrected keywords are all accepted and carry only a model
      override. */
  lemma ModelOverrideKwargs(name: string)
    ensures var kwargs := NamedKwargs("model_override", Str(name));
            (forall k :: k in kwargs ==> IsFactoryKeyword(k)) &&
            OptionalString(kwargs, "provider_override") == None &&
            OptionalString(kwargs, "model_override") == Some(name)
  {
    var kwargs := NamedKwargs("model_override", Str(name));
    assert kwargs == map["temperature" := Int(0), "max_retries" := Int(2), "model_override" := Str(name)];
    assert kwargs.Keys == {"temperature", "max_retries", "model_override"};
  }

  /** For a provider other than SiliconFlow, the corrected `get_chat_model`
      builds the same model as `get_mixed_chat_model(config, stage="chat")`. */
  lemma GetChatModelCorrectedMatchesMixed(config: Option<RunnableConfig>, env: map<string, string>)
    requires FromRunnableConfig(config, env).Ok?
    requires var c := FromRunnableConfig(config, env).value;
             c.chatModel != "" && Lower(GetModelForStage(c, "chat").0) != "siliconflow"
    ensures GetChatModelCorrected(config, env) == CreateMixedChatModel("chat", config, env, None, None)
  {
  }

  /** `chat_node`: the new messages. A configuration error is answered
      without a model; model creation sits outside the `try`, so its failure
      escapes; a failed model call is answered with an apology carrying its
      error. */
  function ChatNode(
    messages: seq<Message>, config: Option<RunnableConfig>, env: map<string, string>,
    invoke: (Model, seq<Message>) -> Result<string>): (r: Result<seq<Message>>)
    ensures ValidateChatConfig(env).Some? ==> r == Ok([AiMessage(ConfigErrorPrefix + ValidateChatConfig(env).value)])
    ensures r.Err? <==> ValidateChatConfig(env).None? && GetChatModel(config, env).Err?
    ensures r.Ok? && ValidateChatConfig(env).None? ==>
              var reply := invoke(GetChatModel(config, env).value, messages);
              r.value == [AiMessage(if reply.Ok? then reply.value else ApologyPrefix + reply.error + ApologySuffix)]
  {
    match ValidateChatConfig(env)
    case Some(e) => Ok([AiMessage(ConfigErrorPrefix + e)])
    case None =>
      match GetChatModel(config, env)
      case Err(e) => Err(e)
      case Ok(model) =>
        match invoke(model, messages)
        case Ok(content) => Ok([AiMessage(content)])
        case Err(e) => Ok([AiMessage(ApologyPrefix + e + ApologySuffix)])
  }

  /** As written, `chat_node` answers only configuration errors: once the
      check passes, the `model_name=` keyword makes it raise, whatever the
      model would have said. */
  lemma ChatNodeRaises(
    messages: seq<Message>, config: Option<RunnableConfig>, env: map<string, string>,
    invoke: (Model, seq<Message>) -> Result<string>)
    ensures ChatNode(messages, config, env, invoke).Err? <==> ValidateChatConfig(env).None?
  {
    GetChatModelFails(config, env);
  }

  /** `chat_node` over the corrected `get_chat_model`. */
  function ChatNodeCorrected(
    messages: seq<Message>, config: Option<RunnableConfig>, env: map<string, string>,
    invoke: (Model, seq<Message>) -> Result<string>): (r: Result<seq<Message>>)
    ensures ValidateChatConfig(env).Some? ==> r == Ok([AiMessage(ConfigErrorPrefix + ValidateChatConfig(env).value)])
    ensures r.Err? <==> ValidateChatConfig(env).None? && GetChatModelCorrected(config, env).Err?
    ensures r.Ok? ==> |r.value| == 1 && r.value[0].kind == Ai
    ensures r.Ok? && ValidateChatConfig(env).None? ==>
              var reply := invoke(GetChatModelCorrected(config, env).value, messages);
              r.value[0].content == (if reply.Ok? then reply.value else ApologyPrefix + reply.error + ApologySuffix)
  {
    match ValidateChatConfig(env)
    case Some(e) => Ok([AiMessage(ConfigErrorPrefix + e)])
    case None =>
      match GetChatModelCorrected(config, env)
      case Err(e) => Err(e)
      case Ok(model) =>
        match invoke(model, messages)
        case Ok(content) => Ok([AiMessage(content)])
        case Err(e) => Ok([AiMessage(ApologyPrefix + e + ApologySuffix)])
  }

  /** With the corrected call, a readable runtime configuration that sets no
      provider field and a non-empty default provider, a passing check always
      leads to a model call: `chat_node` never raises. */
  lemma ChatNodeCorrectedAnswers(
    messages: seq<Message>, config: Option<RunnableConfig>, env: map<string, string>,
    invoke: (Model, seq<Message>) -> Result<string>)
    requires DefaultProvider(env) != ""
    requires FromRunnableConfig(config, env).Ok? && SetsNoProvider(config)
    ensures ChatNodeCorrected(messages, config, env, invoke).Ok?
  {
    if ValidateChatConfig(env).None? {
      var c := FromRunnableConfig(config, env).value;
      ValidatedCreationSucceeds(config, env, "chat", Some(c.chatModel));
      ChatModelNameIsConfigured(config, env);
      ModelOverrideKwargs(c.chatModel);
    }
  }

  // ---------------------------------------------------------------------------
  // The dual-model chat graph
  // ---------------------------------------------------------------------------

  /** The dual-model state, and equally a node's update of it: each key may
      be absent, `None` or a string. */
  datatype DualModelState = DualModelState(
    messages: seq<Message>,
    processingStage: Slot<string>,
    geminiResponse: Slot<string>,
    siliconflowResponse: Slot<string>,
    integratedResponse: Slot<string>)

  /** An update holding only new messages and possibly a stage. */
  function StageUpdate(messages: seq<Message>, stage: string): DualModelState {
    DualModelState(messages, Has(stage), Missing, Missing, Missing)
  }

  /** Applying a node's update: messages are appended, every other key the
      update holds replaces the old value. */
  function Merge(s: DualModelState, u: DualModelState): (t: DualModelState)
    ensures t.messages == s.messages + u.messages
    ensures u.processingStage.Missing? ==> t.processingStage == s.processingStage
    ensures !u.processingStage.Missing? ==> t.processingStage == u.processingStage
    ensures u.geminiResponse.Missing? ==> t.geminiResponse == s.geminiResponse
    ensures !u.geminiResponse.Missing? ==> t.geminiResponse == u.geminiResponse
    ensures u.siliconflowResponse.Missing? ==> t.siliconflowResponse == s.siliconflowResponse
    ensures !u.siliconflowResponse.Missing? ==> t.siliconflowResponse == u.siliconflowResponse
    ensures u.integratedResponse.Missing? ==> t.integratedResponse == s.integratedResponse
    ensures !u.integratedResponse.Missing? ==> t.integratedResponse == u.integratedResponse
  {
    DualModelState(
      s.messages + u.messages,
      if u.processingStage.Missing? then s.processingStage else u.processingStage,
      if u.geminiResponse.Missing? then s.geminiResponse else u.geminiResponse,
      if u.siliconflowResponse.Missing? then s.siliconflowResponse else u.siliconflowResponse,
      if u.integratedResponse.Missing? then s.integratedResponse else u.integratedResponse)
  }

  /** `dual_model_initial_node`: stage "error" with one message on a
      configuration error or a missing user message; otherwise stage
      "parallel_query" with the three response slots reset to `None`. */
  function DualModelInitialNode(s: DualModelState, env: map<string, string>): (u: DualModelState)
    ensures ValidateChatConfig(env).Some? ==>
              u == StageUpdate([AiMessage(ConfigErrorPrefix + ValidateChatConfig(env).value)], "error")
    ensures u.processingStage == Has("error") <==>
              ValidateChatConfig(env).Some? || GetLastUserMessage(s.messages) == ""
    ensures ValidateChatConfig(env).None? && GetLastUserMessage(s.messages) == "" ==>
              u == StageUpdate([AiMessage(NoMessageReply)], "error")
    ensures u.processingStage != Has("error") ==>
              u == DualModelState([], Has("parallel_query"), Null, Null, Null)
  {
    match ValidateChatConfig(env)
    case Some(e) => StageUpdate([AiMessage(ConfigErrorPrefix + e)], "error")
    case None =>
      if GetLastUserMessage(s.messages) == "" then StageUpdate([AiMessage(NoMessageReply)], "error")
      else DualModelState([], Has("parallel_query"), Null, Null, Null)
  }

  const GeminiAnswerFailed: string := "Gemini模型回答失败: "
  const SiliconflowAnswerFailed: string := "硅基流动模型回答失败: "
  const GeminiAnswerModel: string := "gemini-1.5-flash"

  /** The Gemini model of `gemini_response_node`: both overrides given. */
  function GeminiNodeModel(config: Option<RunnableConfig>, env: map<string, string>): (r: Result<Model>)
    ensures FromRunnableConfig(config, env).Ok? ==> r == CreateGeminiModel(GeminiAnswerModel, env)
  {
    LowerProviderNames();
    CreateMixedChatModel("chat", config, env, Some("gemini"), Some(GeminiAnswerModel))
  }

  /** The content a provider node writes into its slot: the reply, or a
      placeholder carrying the error of model creation or of the call. */
  function Answer(model: Result<Model>, messages: seq<Message>, invoke: (Model, seq<Message>) -> Result<string>, failedPrefix: string)
    : (a: string)
    ensures model.Err? ==> a == failedPrefix + model.error
    ensures model.Ok? && invoke(model.value, messages).Ok? ==> a == invoke(model.value, messages).value
    ensures model.Ok? && invoke(model.value, messages).Err? ==> a == failedPrefix + invoke(model.value, messages).error
  {
    match model
    case Err(e) => failedPrefix + e
    case Ok(m) =>
      match invoke(m, messages)
      case Ok(content) => content
      case Err(e) => failedPrefix + e
  }

  /** `gemini_response_node`: writes the Gemini slot, and only that, never
      raising. */
  function GeminiResponseNode(
    s: DualModelState, config: Option<RunnableConfig>, env: map<string, string>,
    invoke: (Model, seq<Message>) -> Result<string>): (u: DualModelState)
    ensures u == DualModelState([], Missing, Has(Answer(GeminiNodeModel(config, env), s.messages, invoke, GeminiAnswerFailed)), Missing, Missing)
  {
    DualModelState([], Missing, Has(Answer(GeminiNodeModel(config, env), s.messages, invoke, GeminiAnswerFailed)), Missing, Missing)
  }

  /** `siliconflow_response_node`: writes the SiliconFlow slot, and only
      that, never raising. */
  function SiliconflowResponseNode(
    s: DualModelState, config: Option<RunnableConfig>, env: map<string, string>,
    invoke: (Model, seq<Message>) -> Result<string>): (u: DualModelState)
    ensures u == DualModelState([], Missing, Missing, Has(Answer(CreateSiliconflowCompat(config, env), s.messages, invoke, SiliconflowAnswerFailed)), Missing)
  {
    DualModelState([], Missing, Missing, Has(Answer(CreateSiliconflowCompat(config, env), s.messages, invoke, SiliconflowAnswerFailed)), Missing)
  }

  /** `state.get(key, default)` interpolated into a string: an absent key
      gives the default, `None` prints as "None". */
  function ShownOr(slot: Slot<string>, default: string): (t: string)
    ensures slot.Has? ==> t == slot.value
    ensures slot.Missing? ==> t == default
    ensures slot.Null? ==> t == "None"
  {
    match slot
    case Missing => default
    case Null => "None"
    case Has(v) => v
  }

  const NoAnswer: string := "无回答"
  const PromptHead: string := "请基于以下两个AI模型的回答，生成一个综合、准确、有用的最终回答：\n\n**Gemini模型回答：**\n"
  const PromptMiddle: string := "\n\n**硅基流动模型回答：**\n"
  const PromptTail: string :=
    "\n\n**要求：**\n1. 综合两个回答的优点\n2. 如果有冲突，选择更准确的信息\n3. 保持回答的完整性和连贯性\n4. 如果两个回答都有错误，请指出并提供正确信息\n5. 最终回答应该简洁明了，直接回应用户的问题\n\n**最终综合回答：**"

  /** The integration prompt around the two answers. */
  function IntegrationPrompt(gemini: string, siliconflow: string): (p: string)
    ensures Contains(p, gemini) && Contains(p, siliconflow)
  {
    ContainsMiddle(PromptHead, gemini, PromptMiddle + siliconflow + PromptTail);
    assert PromptHead + gemini + (PromptMiddle + siliconflow + PromptTail) == PromptHead + gemini + PromptMiddle + siliconflow + PromptTail;
    ContainsMiddle(PromptHead + gemini + PromptMiddle, siliconflow, PromptTail);
    PromptHead + gemini + PromptMiddle + siliconflow + PromptTail
  }

  const IntegrationFailed: string := "回答整合失败: "

  /** `integration_node`: asks the chat-stage model to merge the two
      answers. Success: stage "completed", the integrated response is the
      reply and the one new message carries it. Failure of creation or of the
      call: stage "error", the integrated response is the error message and the
      one new message carries it. */
  function IntegrationNode(
    s: DualModelState, config: Option<RunnableConfig>, env: map<string, string>,
    invoke: (Model, seq<Message>) -> Result<string>): (u: DualModelState)
    ensures |u.messages| == 1 && u.messages[0].kind == Ai
    ensures u.integratedResponse == Has(u.messages[0].content)
    ensures u.geminiResponse.Missing? && u.siliconflowResponse.Missing?
    ensures u.processingStage == Has("completed") || u.processingStage == Has("error")
    ensures u.processingStage == Has("error") ==> StartsWith(u.integratedResponse.value, IntegrationFailed)
    ensures var model := CreateMixedChatModel("chat", config, env, None, None);
            var prompt := IntegrationPrompt(ShownOr(s.geminiResponse, NoAnswer), ShownOr(s.siliconflowResponse, NoAnswer));
            (model.Err? ==> u.integratedResponse == Has(IntegrationFailed + model.error)) &&
            (model.Ok? && invoke(model.value, [HumanMessage(prompt)]).Err? ==>
               u.integratedResponse == Has(IntegrationFailed + invoke(model.value, [HumanMessage(prompt)]).error))
    ensures var model := CreateMixedChatModel("chat", config, env, None, None);
            var prompt := IntegrationPrompt(ShownOr(s.geminiResponse, NoAnswer), ShownOr(s.siliconflowResponse, NoAnswer));
            u.processingStage == Has("completed") <==> model.Ok? && invoke(model.value, [HumanMessage(prompt)]).Ok?
    ensures var model := CreateMixedChatModel("chat", config, env, None, None);
            var prompt := IntegrationPrompt(ShownOr(s.geminiResponse, NoAnswer), ShownOr(s.siliconflowResponse, NoAnswer));
            u.processingStage == Has("completed") ==> u.integratedResponse == Has(invoke(model.value, [HumanMessage(prompt)]).value)
  {
    var prompt := IntegrationPrompt(ShownOr(s.geminiResponse, NoAnswer), ShownOr(s.siliconflowResponse, NoAnswer));
    var model := CreateMixedChatModel("chat", config, env, None, None);
    var outcome := if model.Err? then Err(model.error) else invoke(model.value, [HumanMessage(prompt)]);
    match outcome
    case Ok(content) => DualModelState([AiMessage(content)], Has("completed"), Missing, Missing, Has(content))
    case Err(e) =>
      var message := IntegrationFailed + e;
      assert StartsWith(message, IntegrationFailed);
      DualModelState([AiMessage(message)], Has("error"), Missing, Missing, Has(message))
  }

  /** `should_continue_to_integration`. */
  function ShouldContinueToIntegration(s: DualModelState): (next: string)
    ensures next == "integration" <==> s.geminiResponse.Has? && s.siliconflowResponse.Has?
    ensures next != "integration" ==> next == "wait"
  {
    if s.geminiResponse.Has? && s.siliconflowResponse.Has? then "integration" else "wait"
  }

  /** The two provider nodes write different keys, so applying their updates
      in either order gives the same state. */
  lemma ProviderNodesCommute(
    s: DualModelState, config: Option<RunnableConfig>, env: map<string, string>,
    invoke: (Model, seq<Message>) -> Result<string>)
    ensures var g := GeminiResponseNode(s, config, env, invoke);
            var f := SiliconflowResponseNode(s, config, env, invoke);
            Merge(Merge(s, g), f) == Merge(Merge(s, f), g)
  {
  }

  /** After a successful initialisation both slots are `None`, so the check
      says "wait"; once both provider nodes have run it says "integration",
      whatever the models did. */
  lemma DualFlowReachesIntegration(
    s: DualModelState, config: Option<RunnableConfig>, env: map<string, string>,
    invoke: (Model, seq<Message>) -> Result<string>)
    requires DualModelInitialNode(s, env).processingStage == Has("parallel_query")
    ensures var s1 := Merge(s, DualModelInitialNode(s, env));
            ShouldContinueToIntegration(s1) == "wait" &&
            ShouldContinueToIntegration(
              Merge(Merge(s1, GeminiResponseNode(s1, config, env, invoke)), SiliconflowResponseNode(s1, config, env, invoke))) == "integration"
  {
  }

  /** A failed initialisation leaves the slots as they were: from a state
      without answers, the check keeps saying "wait". */
  lemma FailedInitialWaits(s: DualModelState, env: map<string, string>)
    requires !s.geminiResponse.Has?
    requires DualModelInitialNode(s, env).processingStage == Has("error")
    ensures ShouldContinueToIntegration(Merge(s, DualModelInitialNode(s, env))) == "wait"
  {
  }
}
