/** The standalone dual-model graph: one node asks Gemini and SiliconFlow the
    same question side by side and collects the two answers by their tags; a
    second node has a SiliconFlow model merge them and shows the merged answer
    above both originals. */
module DualModelGraph {
  import opened Wrappers
  import opened PyText
  import opened Messages
  import opened ChatState
  import opened SharedConfiguration
  import opened ModelFactory
  import opened ChatGraph

  const GeminiKeyRequired: string := "GEMINI_API_KEY 环境变量未设置，双模型模式需要Gemini API密钥"
  const SiliconflowKeyRequired: string := "SILICONFLOW_API_KEY 环境变量未设置，双模型模式需要硅基流动API密钥"
  const CreationFailed: string := "模型创建失败: "
  const GeminiCallFailed: string := "Gemini模型调用失败: "
  const SiliconflowCallFailed: string := "硅基流动模型调用失败: "
  const GeminiRaised: string := "Gemini模型执行异常: "
  const SiliconflowRaised: string := "硅基流动模型执行异常: "

  // ---------------------------------------------------------------------------
  // validate_dual_model_config
  // ---------------------------------------------------------------------------

  /** `validate_dual_model_config`: `None` when both keys are set and not
      empty, else the message of the `ValueError`, the Gemini key checked
      first. */
  function ValidateDualModelConfig(env: map<string, string>): (r: Option<string>)
    ensures r.None? <==> EnvSet(env, GeminiKeyVar) && EnvSet(env, SiliconflowKeyVar)
    ensures !EnvSet(env, GeminiKeyVar) ==> r == Some(GeminiKeyRequired)
    ensures EnvSet(env, GeminiKeyVar) && !EnvSet(env, SiliconflowKeyVar) ==> r == Some(SiliconflowKeyRequired)
  {
    if !EnvSet(env, GeminiKeyVar) then Some(GeminiKeyRequired)
    else if !EnvSet(env, SiliconflowKeyVar) then Some(SiliconflowKeyRequired)
    else None
  }

  // ---------------------------------------------------------------------------
  // Collecting the two answers
  // ---------------------------------------------------------------------------

  /** What `future.result()` gives: a tagged answer, or the exception it
      raises. */
  datatype FutureOutcome = Done(tag: string, response: string) | Raised(error: string)

  /** The two answer variables of `parallel_query_node`. */
  datatype Slots = Slots(gemini: Option<string>, siliconflow: Option<string>)

  /** One pass of the loop over the completed futures: a tagged answer goes
      to its own variable; an exception fills each variable still `None`. */
  function Receive(slots: Slots, o: FutureOutcome): (next: Slots)
    ensures o.Done? && o.tag == "gemini" ==> next == slots.(gemini := Some(o.response))
    ensures o.Done? && o.tag == "siliconflow" ==> next == slots.(siliconflow := Some(o.response))
    ensures o.Done? && o.tag != "gemini" && o.tag != "siliconflow" ==> next == slots
    ensures o.Raised? ==> next.gemini.Some? && next.siliconflow.Some?
    ensures o.Raised? && slots.gemini.Some? ==> next.gemini == slots.gemini
    ensures o.Raised? && slots.siliconflow.Some? ==> next.siliconflow == slots.siliconflow
  {
    match o
    case Done(tag, response) =>
      if tag == "gemini" then slots.(gemini := Some(response))
      else if tag == "siliconflow" then slots.(siliconflow := Some(response))
      else slots
    case Raised(e) =>
      Slots(
        if slots.gemini.None? then Some(GeminiRaised + e) else slots.gemini,
        if slots.siliconflow.None? then Some(SiliconflowRaised + e) else slots.siliconflow)
  }

  /** The two variables after the loop has seen `outcomes` in that order. */
  function Collect(outcomes: seq<FutureOutcome>): Slots {
    if outcomes == [] then Slots(None, None)
    else Receive(Collect(outcomes[..|outcomes| - 1]), outcomes[|outcomes| - 1])
  }

  /** The completion order does not matter: two futures that do not both
      raise and do not share a tag fill the variables the same way in either
      order. */
  lemma CompletionOrderIrrelevant(a: FutureOutcome, b: FutureOutcome)
    requires !(a.Raised? && b.Raised?)
    requires !(a.Done? && b.Done? && a.tag == b.tag)
    ensures Collect([a, b]) == Collect([b, a])
  {
    assert [a, b][..1] == [a] && [b, a][..1] == [b];
    assert [a][..0] == [] && [b][..0] == [];
  }

  /** Each branch's tagged answer lands in its own variable. */
  lemma TaggedAnswersRouted(g: string, s: string)
    ensures Collect([Done("gemini", g), Done("siliconflow", s)]) == Slots(Some(g), Some(s))
  {
    assert [Done("gemini", g), Done("siliconflow", s)][..1] == [Done("gemini", g)];
    assert [Done("gemini", g)][..0] == [];
  }

  /** A future that raises is answered with an exception placeholder in the
      slot its branch would have filled, and the other answer survives. */
  lemma RaisedFutureGetsPlaceholder(g: string, e: string)
    ensures Collect([Done("gemini", g), Raised(e)]) == Slots(Some(g), Some(SiliconflowRaised + e))
    ensures Collect([Raised(e), Done("gemini", g)]) == Slots(Some(g), Some(SiliconflowRaised + e))
  {
    assert [Done("gemini", g), Raised(e)][..1] == [Done("gemini", g)];
    assert [Done("gemini", g)][..0] == [];
    assert Collect([Done("gemini", g)]) == Slots(Some(g), None);
    CompletionOrderIrrelevant(Done("gemini", g), Raised(e));
  }

  /** `None` stays `None`; an answer is a string. */
  function AsSlot(o: Option<string>): (slot: Slot<string>)
    ensures o.None? <==> slot.Null?
    ensures o.Some? ==> slot == Has(o.value)
  {
    match o
    case None => Null
    case Some(v) => Has(v)
  }

  // ---------------------------------------------------------------------------
  // parallel_query_node
  // ---------------------------------------------------------------------------

  /** The first model creation to fail, Gemini's checked first. */
  function CreationError(config: Option<RunnableConfig>, env: map<string, string>): (r: Option<string>)
    ensures r.None? <==> CreateGeminiCompat(config, env).Ok? && CreateSiliconflowCompat(config, env).Ok?
  {
    if CreateGeminiCompat(config, env).Err? then Some(CreateGeminiCompat(config, env).error)
    else if CreateSiliconflowCompat(config, env).Err? then Some(CreateSiliconflowCompat(config, env).error)
    else None
  }

  /** The update `parallel_query_node` returns. */
  function ParallelQueryUpdate(
    s: DualModelState, config: Option<RunnableConfig>, env: map<string, string>,
    invoke: (Model, seq<Message>) -> Result<string>): (u: DualModelState)
    ensures ValidateDualModelConfig(env).Some? ==>
              u == StageUpdate([AiMessage(ConfigErrorPrefix + ValidateDualModelConfig(env).value)], "error")
    ensures ValidateDualModelConfig(env).None? && GetLastUserMessage(s.messages) == "" ==>
              u == StageUpdate([AiMessage(NoMessageReply)], "error")
    ensures ValidateDualModelConfig(env).None? && GetLastUserMessage(s.messages) != "" && CreationError(config, env).Some? ==>
              u == StageUpdate([AiMessage(CreationFailed + CreationError(config, env).value)], "error")
    ensures u.processingStage == Has("error") || u.processingStage == Has("parallel_query")
    ensures u.processingStage == Has("error") ==> |u.messages| == 1 && u.geminiResponse.Missing? && u.siliconflowResponse.Missing?
    ensures u.processingStage == Has("parallel_query") ==>
              u == DualModelState([], Has("parallel_query"),
                     Has(Answer(CreateGeminiCompat(config, env), s.messages, invoke, GeminiCallFailed)),
                     Has(Answer(CreateSiliconflowCompat(config, env), s.messages, invoke, SiliconflowCallFailed)),
                     Missing)
  {
    match ValidateDualModelConfig(env)
    case Some(e) => StageUpdate([AiMessage(ConfigErrorPrefix + e)], "error")
    case None =>
      if GetLastUserMessage(s.messages) == "" then StageUpdate([AiMessage(NoMessageReply)], "error")
      else
        match CreationError(config, env)
        case Some(e) => StageUpdate([AiMessage(CreationFailed + e)], "error")
        case None =>
          var g := Answer(CreateGeminiCompat(config, env), s.messages, invoke, GeminiCallFailed);
          var f := Answer(CreateSiliconflowCompat(config, env), s.messages, invoke, SiliconflowCallFailed);
          TaggedAnswersRouted(g, f);
          var slots := Collect([Done("gemini", g), Done("siliconflow", f)]);
          DualModelState([], Has("parallel_query"), AsSlot(slots.gemini), AsSlot(slots.siliconflow), Missing)
  }

  /** The loop over `as_completed(futures)`: each outcome, in completion
      order, updates the two answer variables. */
  method CollectCompleted(completed: seq<FutureOutcome>) returns (geminiResponse: Option<string>, siliconflowResponse: Option<string>)
    ensures Slots(geminiResponse, siliconflowResponse) == Collect(completed)
  {
    geminiResponse := None;
    siliconflowResponse := None;
    for i := 0 to |completed|
      invariant Slots(geminiResponse, siliconflowResponse) == Collect(completed[..i])
    {
      assert completed[..i + 1][..i] == completed[..i];
      match completed[i]
      case Done(tag, response) =>
        if tag == "gemini" {
          geminiResponse := Some(response);
        } else if tag == "siliconflow" {
          siliconflowResponse := Some(response);
        }
      case Raised(e) =>
        if geminiResponse.None? {
          geminiResponse := Some(GeminiRaised + e);
        }
        if siliconflowResponse.None? {
          siliconflowResponse := Some(SiliconflowRaised + e);
        }
    }
    assert completed[..|completed|] == completed;
  }

  /** `parallel_query_node`: checks the keys and the user message, creates
      both models, then runs the two branches, each of which turns a failed
      call into a placeholder, and collects their tagged answers in the order
      they complete (`geminiFirst`). */
  method ParallelQueryNode(
    s: DualModelState, config: Option<RunnableConfig>, env: map<string, string>,
    invoke: (Model, seq<Message>) -> Result<string>, geminiFirst: bool) returns (u: DualModelState)
    ensures u == ParallelQueryUpdate(s, config, env, invoke)
  {
    var configError := ValidateDualModelConfig(env);
    if configError.Some? {
      return StageUpdate([AiMessage(ConfigErrorPrefix + configError.value)], "error");
    }
    if GetLastUserMessage(s.messages) == "" {
      return StageUpdate([AiMessage(NoMessageReply)], "error");
    }
    var creationError := CreationError(config, env);
    if creationError.Some? {
      return StageUpdate([AiMessage(CreationFailed + creationError.value)], "error");
    }
    var geminiModel, siliconflowModel := CreateGeminiCompat(config, env), CreateSiliconflowCompat(config, env);
    var geminiDone := Done("gemini", Answer(geminiModel, s.messages, invoke, GeminiCallFailed));
    var siliconflowDone := Done("siliconflow", Answer(siliconflowModel, s.messages, invoke, SiliconflowCallFailed));
    var completed := if geminiFirst then [geminiDone, siliconflowDone] else [siliconflowDone, geminiDone];
    var geminiResponse, siliconflowResponse := CollectCompleted(completed);
    CompletionOrderIrrelevant(geminiDone, siliconflowDone);
    return DualModelState([], Has("parallel_query"), AsSlot(geminiResponse), AsSlot(siliconflowResponse), Missing);
  }

  /** On every error path no model is called: the update is the same whatever
      `invoke` does. */
  lemma ParallelQueryErrorsCallNoModel(
    s: DualModelState, config: Option<RunnableConfig>, env: map<string, string>,
    invoke1: (Model, seq<Message>) -> Result<string>, invoke2: (Model, seq<Message>) -> Result<string>)
    requires ParallelQueryUpdate(s, config, env, invoke1).processingStage == Has("error")
    ensures ParallelQueryUpdate(s, config, env, invoke2) == ParallelQueryUpdate(s, config, env, invoke1)
  {
  }

  /** Once both keys are set, model creation fails only on a runtime
      configuration that cannot be read. */
  lemma CreationSucceedsWithKeys(config: Option<RunnableConfig>, env: map<string, string>)
    requires ValidateDualModelConfig(env).None?
    requires FromRunnableConfig(config, env).Ok?
    ensures CreationError(config, env).None?
  {
  }

  // ---------------------------------------------------------------------------
  // integration_node
  // ---------------------------------------------------------------------------

  const NoAnswers: string := "无法获取到两个模型的回答，整合失败。"
  const IntegrationModelFailed: string := "整合模型创建失败: "
  const MergeFailed: string := "答案整合失败: "

  /** `state.get(key)` is truthy: present, not `None`, not empty. */
  predicate Truthful(slot: Slot<string>) {
    slot.Has? && slot.value != ""
  }

  const QuestionHead: string := "请你作为一个智能助手，整合以下两个AI模型对同一问题的回答，生成一个更全面、准确的综合回答。\n\n原始问题："
  const GeminiHead: string := "\n\nGemini模型的回答：\n"
  const SiliconflowHead: string := "\n\n硅基流动模型的回答：\n"
  const QuestionTail: string :=
    "\n\n请整合这两个回答，提供一个综合的、更完整的答案。要求：\n1. 保留两个回答中的优点和准确信息\n2. 如果有冲突，请指出并给出你的判断\n3. 补充任何遗漏的重要信息\n4. 确保回答逻辑清晰、结构完整\n5. 用中文回答\n\n综合回答："

  /** The merge prompt: the original question and both answers. */
  function MergePrompt(question: string, gemini: string, siliconflow: string): (p: string)
    ensures Contains(p, question) && Contains(p, gemini) && Contains(p, siliconflow)
  {
    ContainsEachOfThree(QuestionHead, question, GeminiHead, gemini, SiliconflowHead, siliconflow, QuestionTail);
    QuestionHead + question + GeminiHead + gemini + SiliconflowHead + siliconflow + QuestionTail
  }

  const ShownHead: string := "🤖 **双模型智能整合回答**\n\n"
  const DetailsHead: string := "\n\n---\n📊 **模型回答详情**\n\n**Gemini模型回答：**\n"
  const SiliconflowShown: string := "\n\n**硅基流动模型回答：**\n"

  /** The final message: the merged answer under its heading, then both
      original answers. */
  function FinalContent(merged: string, gemini: string, siliconflow: string): (t: string)
    ensures StartsWith(t, ShownHead + merged)
    ensures Contains(t, gemini)
    ensures |siliconflow| <= |t| && t[|t| - |siliconflow|..] == siliconflow
  {
    var a := ShownHead + merged + DetailsHead;
    var b := a + gemini + SiliconflowShown;
    ContainsMiddle(a, gemini, SiliconflowShown + siliconflow);
    assert a + gemini + (SiliconflowShown + siliconflow) == b + siliconflow;
    assert (b + siliconflow)[..|ShownHead + merged|] == ShownHead + merged;
    b + siliconflow
  }

  /** `integration_node`: the update it returns. */
  function IntegrationUpdate(
    s: DualModelState, config: Option<RunnableConfig>, env: map<string, string>,
    invoke: (Model, seq<Message>) -> Result<string>): (u: DualModelState)
    ensures !Truthful(s.geminiResponse) || !Truthful(s.siliconflowResponse) ==>
              u == StageUpdate([AiMessage(NoAnswers)], "error")
    ensures Truthful(s.geminiResponse) && Truthful(s.siliconflowResponse) && CreateSiliconflowCompat(config, env).Err? ==>
              u == StageUpdate([AiMessage(IntegrationModelFailed + CreateSiliconflowCompat(config, env).error)], "error")
    ensures |u.messages| == 1 && u.messages[0].kind == Ai
    ensures u.geminiResponse.Missing? && u.siliconflowResponse.Missing?
    ensures u.processingStage == Has("completed") || u.processingStage == Has("error")
    ensures u.processingStage == Has("error") ==> u.integratedResponse.Missing?
    ensures u.processingStage == Has("completed") <==>
              Truthful(s.geminiResponse) && Truthful(s.siliconflowResponse) && CreateSiliconflowCompat(config, env).Ok? &&
              invoke(CreateSiliconflowCompat(config, env).value,
                     [HumanMessage(MergePrompt(GetLastUserMessage(s.messages), s.geminiResponse.value, s.siliconflowResponse.value))]).Ok?
    ensures u.processingStage == Has("completed") ==>
              u.integratedResponse.Has? &&
              u.messages[0].content == FinalContent(u.integratedResponse.value, s.geminiResponse.value, s.siliconflowResponse.value)
    ensures Truthful(s.geminiResponse) && Truthful(s.siliconflowResponse) && CreateSiliconflowCompat(config, env).Ok? ==>
              var reply := invoke(CreateSiliconflowCompat(config, env).value,
                                  [HumanMessage(MergePrompt(GetLastUserMessage(s.messages), s.geminiResponse.value, s.siliconflowResponse.value))]);
              (reply.Err? ==> u == StageUpdate([AiMessage(MergeFailed + reply.error)], "error")) &&
              (reply.Ok? ==> u.integratedResponse == Has(reply.value))
  {
    if !Truthful(s.geminiResponse) || !Truthful(s.siliconflowResponse) then StageUpdate([AiMessage(NoAnswers)], "error")
    else
      match CreateSiliconflowCompat(config, env)
      case Err(e) => StageUpdate([AiMessage(IntegrationModelFailed + e)], "error")
      case Ok(model) =>
        var g := s.geminiResponse.value;
        var f := s.siliconflowResponse.value;
        var prompt := MergePrompt(GetLastUserMessage(s.messages), g, f);
        match invoke(model, [HumanMessage(prompt)])
        case Ok(merged) => DualModelState([AiMessage(FinalContent(merged, g, f))], Has("completed"), Missing, Missing, Has(merged))
        case Err(e) => StageUpdate([AiMessage(MergeFailed + e)], "error")
  }

  /** The placeholders are never empty: after a successful parallel query in
      which both model calls failed, the integration guard lets the state
      through. */
  lemma PlaceholdersPassGuard(
    s: DualModelState, config: Option<RunnableConfig>, env: map<string, string>,
    invoke: (Model, seq<Message>) -> Result<string>)
    requires ParallelQueryUpdate(s, config, env, invoke).processingStage == Has("parallel_query")
    requires invoke(CreateGeminiCompat(config, env).value, s.messages).Err?
    requires invoke(CreateSiliconflowCompat(config, env).value, s.messages).Err?
    ensures var t := Merge(s, ParallelQueryUpdate(s, config, env, invoke));
            Truthful(t.geminiResponse) && Truthful(t.siliconflowResponse)
  {
  }

  /** An empty reply from either model stops the integration at the guard,
      without calling the merging model. */
  lemma EmptyReplyStopsIntegration(
    s: DualModelState, config: Option<RunnableConfig>, env: map<string, string>,
    invoke: (Model, seq<Message>) -> Result<string>)
    requires ParallelQueryUpdate(s, config, env, invoke).processingStage == Has("parallel_query")
    requires invoke(CreateGeminiCompat(config, env).value, s.messages) == Ok("")
    ensures IntegrationUpdate(Merge(s, ParallelQueryUpdate(s, config, env, invoke)), config, env, invoke) ==
            StageUpdate([AiMessage(NoAnswers)], "error")
  {
  }
}
