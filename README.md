# Research agent and dual-model chat: a Dafny model

The backend has two LangGraph applications. The first is a web-research
agent. It generates search queries and fans them out to `web_research`,
which calls Google Search grounding and turns the grounding metadata into
short-URL citations. It then reflects on whether the gathered material is
enough, loops up to a configured limit, and finally writes an answer in
which the short URLs are replaced by the real ones. The second is a chat
graph. Its nodes answer with one configurable model, or ask Gemini and
SiliconFlow in parallel and merge the two answers. Both applications take
their model choice from a shared configuration. It resolves a provider and
a model name per stage (query generator, reflection, answer, chat) from the
runtime configuration, the environment and hard-coded defaults. A model
factory then builds the provider's client, or fails when the API key is
missing.

The model keeps the deterministic core:

- the citation utilities: short-URL resolution, citation extraction, marker insertion and the research-topic transcript;
- the routing and state updates of the research graph;
- both configuration readings and the model factory's provider selection and validation;
- the chat state helpers;
- every node of the two chat graphs.

Model clients are values of the datatype `ModelFactory.Model`. Calls to a
model are an oracle parameter `invoke: (Model, seq<Message>) -> Result<string>`,
where `Err` stands for a raised exception. The environment is an immutable
`map<string, string>`, and a Python exception is a `Result.Err` carrying its
message. A dictionary key that may be absent, `None` or set is a
`Slot` (`Missing`, `Null`, `Has`); an `Any`-typed configuration value is a
`Value` (`NullValue`, `Str`, `Int`). Python's string builtins (`lower`,
`upper`, `in`, `replace`, `split`, `str(int)`, slice clamping) are defined
in the module `PyText`.

Loops that update variables in the source are methods proved against
specification functions:

- `get_research_topic`, `resolve_urls`, `get_citations` and `insert_citation_markers`;
- `finalize_answer`'s rewrite loop;
- `validate_mixed_model_config`;
- the future-collecting loop of `parallel_query_node`.

`reflection`, which writes into the graph state, is a method of the class
`ResearchGraph.OverallState`. Everything else is a function on values.

Members with plain names follow the source as written, including its two
bugs listed under "## Findings". The members whose names end in `Corrected`
carry the evidently intended behaviour instead: `ModelFactory.ProviderAndModelCorrected`,
`ModelFactory.CreateMixedChatModelCorrected`, `ModelFactory.CreateSiliconflowCompatCorrected`,
`ChatGraph.GetChatModelCorrected` and `ChatGraph.ChatNodeCorrected`.

## Model

| member | source | states |
|---|---|---|
| AgentUtils.GetResearchTopic | backend/src/agent/utils.py:18-44 | a single message gives its content; any other list gives the transcript of `User:`/`Assistant:` lines; an empty list gives "" |
| AgentUtils.TranscriptConcat | backend/src/agent/utils.py:38-43 | the transcript of two concatenated message lists is the concatenation of their transcripts |
| AgentUtils.TranscriptSkipsOtherKinds | backend/src/agent/utils.py:40-43 | a message that is neither human nor AI contributes nothing to the transcript |
| AgentUtils.ResolveUrls | backend/src/agent/utils.py:47-73 | raises exactly when some chunk's web part is `None`; otherwise the key set is exactly the set of distinct chunk URIs, and each URI maps to the prefix, the id and the URI's first index |
| AgentUtils.ShortenAll | backend/src/agent/utils.py:67-71 | the loop maps every distinct URI to the short form of its first position, and maps nothing else |
| AgentUtils.ResolvedMapInjective | backend/src/agent/utils.py:67-71 | distinct URLs get distinct short forms |
| AgentUtils.ResolvedMapSize | backend/src/agent/utils.py:67-71 | the map has no more entries than there are chunks |
| AgentUtils.RepeatedUrlKeepsFirstShortForm | backend/src/agent/utils.py:68-71 | a URI repeated later keeps the short form of its first occurrence |
| AgentUtils.ChunkAt | backend/src/agent/utils.py:190-192 | a chunk index is found exactly when Python indexing (negative indices included) lands inside the list |
| AgentUtils.Label | backend/src/agent/utils.py:199 | the label exists exactly when the title contains a dot, and is the text before the first dot |
| AgentUtils.CitationFor | backend/src/agent/utils.py:160-209 | a support yields a citation exactly when it has a segment with an end index; a missing start index becomes 0 |
| AgentUtils.GetCitations | backend/src/agent/utils.py:120-210 | the loop returns the same list, or raises the same error, as the specification function `Citations` |
| AgentUtils.CitationsRaise | backend/src/agent/utils.py:160-204 | with grounding metadata present, reading the citations raises exactly when the supports are `None`, or when the chunks are `None` and some support with an end index names a chunk; otherwise `None` chunks act as an empty list |
| AgentUtils.CitationsWithoutGrounding | backend/src/agent/utils.py:148-157 | no response, no candidates, no metadata or an empty list of supports gives no citations |
| AgentUtils.CitationsForConcat | backend/src/agent/utils.py:160-209 | citations are emitted per support, in input order |
| AgentUtils.CitationsForOne | backend/src/agent/utils.py:164-177 | one support gives one citation, or none when it lacks a segment or an end index |
| AgentUtils.SourcesComeFromChunks | backend/src/agent/utils.py:184-205 | every segment is built from a chunk with a web part and a title, and its label is that title's text before the first dot |
| AgentUtils.CitationsResolved | backend/src/agent/utils.py:190-201 | every segment's short URL is the resolved short form of its chunk's URI |
| CitationMarkers.SortDesc | backend/src/agent/utils.py:99-101 | the result is sorted by descending (end, start) and is a permutation of the input |
| CitationMarkers.InsertDesc | backend/src/agent/utils.py:99-101 | inserting one citation into a descending list keeps it descending and adds exactly that citation |
| CitationMarkers.SortDescStable | backend/src/agent/utils.py:99-101 | citations with equal keys keep their input order |
| CitationMarkers.InsertCitationMarkers | backend/src/agent/utils.py:76-117 | the loop inserts each citation's marker in sorted order; output length is the text length plus all marker lengths; no citations leaves the text unchanged; with end indices inside the text, the output is the reference weaving `Woven` |
| CitationMarkers.ApplyIsWoven | backend/src/agent/utils.py:103-115 | inserting in descending end order places every marker at its own end index in the original text |
| CitationMarkers.MarkersRemoved | backend/src/agent/utils.py:103-116 | deleting the markers recovers the original text |
| CitationMarkers.SameEndAscendingStart | backend/src/agent/utils.py:99-114 | for any two positions i < j of the sorted citations with the same end index: the later one starts no later, all between end there too, and the output holds their markers side by side from j back to i, that is in ascending start order, right after the text before the offset |
| CitationMarkers.SharedOffsetLayout | backend/src/agent/utils.py:103-115 | in the reference weaving, a run of citations ending at one offset puts its markers together, last first, between the text before the offset and the rest |
| CitationMarkers.WovenSplit | backend/src/agent/utils.py:103-115 | the reference weaving cut at an offset is the weaving of the text before it with the citations ending there or earlier, followed by the text after it with the others |
| CitationMarkers.AboveShared | backend/src/agent/utils.py:103-115 | above a shared offset, the markers of the citations ending there come first, in reverse list order |
| CitationMarkers.WovenOfSorted | backend/src/agent/utils.py:96-116 | sorting makes any in-range citation list satisfy what the weaving needs, so the output is the reference weaving |
| ResearchGraph.ContinueToWebResearch | backend/src/agent/graph.py:132-158 | one `web_research` send per query, in order, with the id equal to the query's position |
| ResearchGraph.RunSendsIdsIncrease | backend/src/agent/graph.py:372-382 | over all rounds of a run, with each follow-up round numbered from the length of the state's query list, there is one task per query in order, ids strictly increase (so none repeats) and stay below the list's length; the first follow-up id is twice the number of generated queries (with lines 121, 149-158, 231 and 308 of the same file) |
| ResearchGraph.FollowUpRoundOfRun | backend/src/agent/graph.py:365-382 | a round of the run after the first is exactly what `evaluate_research` sends after a reflection over the earlier rounds' query list |
| ResearchGraph.Flatten | backend/src/agent/graph.py:226 | a source is collected exactly when some citation has it as a segment |
| ResearchGraph.WebResearch | backend/src/agent/graph.py:170-233 | once the configuration has been read, fails exactly when there is no candidate, no grounding metadata, `None` chunks, a chunk whose web part is `None`, or `None` supports; otherwise the update's sources are the flattened segments of the resolved citations, all with short URLs, its text is the marked-up response and its query list is the single query |
| ResearchGraph.NextLoopCount | backend/src/agent/graph.py:274 | an absent count becomes 1, a count becomes itself plus 1, and `None` raises |
| ResearchGraph.ReflectionModelName | backend/src/agent/graph.py:278 | an absent reasoning model falls back to the reflection model; a present one, even "" or `None`, is used as it is |
| ResearchGraph.OverallState.Reflection | backend/src/agent/graph.py:245-309 | once the configuration has been read, the state's count becomes the next loop count; the result reports the verdict, the new count and the number of queries run |
| ResearchGraph.ReflectionCountsRounds | backend/src/agent/graph.py:274 | after k reflections from an unset count the count is k |
| ResearchGraph.MaxResearchLoops | backend/src/agent/graph.py:356-360 | the state's limit when present, else the configured one |
| ResearchGraph.EvaluateResearch | backend/src/agent/graph.py:321-382 | once the configuration has been read, finalize exactly when the answer is sufficient or the count has reached the limit; otherwise one send per follow-up query, numbered from the queries already run |
| ResearchGraph.FollowUpIdsFresh | backend/src/agent/graph.py:376-382 | follow-up ids never reuse an id below the number of queries already run |
| ResearchGraph.LoopEndsAtLimit | backend/src/agent/graph.py:365-367 | once k reflections reach the limit, the route is `finalize_answer` |
| ResearchGraph.AnswerModelName | backend/src/agent/graph.py:422 | a non-empty reasoning model wins, anything else falls back to the answer model |
| ResearchGraph.ReasoningModelFallbacksDiffer | backend/src/agent/graph.py:278 | reflection uses "" and `None` as given, where answering falls back to the configured model (with line 422 of the same file) |
| ResearchGraph.FinalizeAnswerStep | backend/src/agent/graph.py:394-463 | once the configuration has been read, the loop fails exactly when the reference rewrite fails; otherwise the message and the unique sources are the rewrite's |
| ResearchGraph.FailureSticks | backend/src/agent/graph.py:448-457 | once a prefix of the sources makes the rewrite raise, the whole rewrite raises |
| ResearchGraph.UniqueSourcesSubsequence | backend/src/agent/graph.py:448-457 | the unique sources are an order-preserving subsequence of the gathered ones |
| ResearchGraph.KeptIffFound | backend/src/agent/graph.py:448-457 | a source is kept exactly when its short URL occurs in the answer as rewritten so far, and its occurrences are replaced by its URL |
| ResearchGraph.NothingCitedUnchanged | backend/src/agent/graph.py:448-457 | when no short URL occurs, the content is unchanged and no source is kept |
| ResearchGraph.MissingShortUrlRaises | backend/src/agent/graph.py:451 | a source without a short URL makes the rewrite raise |
| ResearchGraph.GatheredSourcesRewrite | backend/src/agent/graph.py:212-233 | sources that all carry short URLs, as web research produces, never make the rewrite raise (with lines 448-457 of the same file) |
| SharedConfiguration.Defaults | backend/src/shared/configuration.py:46-160 | every field is its environment variable when set, else its hard-coded default |
| SharedConfiguration.FromRunnableConfig | backend/src/shared/configuration.py:167-208 | no configuration or no `configurable` gives the defaults; a `None` entry raises; otherwise each field takes the runtime entry, then the environment, then the default, and a non-string entry raises |
| SharedConfiguration.SharedPrecedence | backend/src/shared/configuration.py:180-207 | the runtime entry beats the environment variable, which beats the default |
| SharedConfiguration.NoConfigIsEmptyConfigurable | backend/src/shared/configuration.py:180-207 | no configuration, no `configurable` and an empty one read alike |
| SharedConfiguration.StageOf | backend/src/shared/configuration.py:222-247 | recognises exactly the four stage names |
| SharedConfiguration.GetModelForStage | backend/src/shared/configuration.py:210-249 | a known stage takes its own provider when non-empty, else `model_provider`, and the siliconflow table exactly when that provider lower-cases to "siliconflow"; an unknown stage gives `model_provider` and `chat_model` |
| SharedConfiguration.ProviderKeepsCasing | backend/src/shared/configuration.py:229-249 | the provider is returned as configured, not lower-cased |
| SharedConfiguration.DefaultStageModels | backend/src/shared/configuration.py:210-249 | with nothing set, the four stages use gemini with gemini-2.0-flash, gemini-2.5-flash, gemini-2.5-pro and gemini-2.0-flash (the defaults are at lines 46-160 of the same file) |
| SharedConfiguration.HardDefaultStageModels | backend/src/shared/configuration.py:210-249 | any configuration holding only the hard-coded defaults maps the four stages to gemini with those four model names (the defaults are at lines 46-160 of the same file) |
| SharedConfiguration.UnsetDefaults | backend/src/shared/configuration.py:46-160 | with no environment variable set, every field has its hard-coded default |
| SharedConfiguration.GeminiStage | backend/src/shared/configuration.py:210-249 | with the default provider gemini and no stage-specific provider, a stage uses gemini with its Gemini model field |
| SharedConfiguration.SiliconflowAnyCasing | backend/src/shared/configuration.py:232-247 | "SiliconFlow" selects the siliconflow table, but an unknown stage still gets `chat_model` |
| AgentConfiguration.AllAgentFields | backend/src/agent/configuration.py:23-39 | every field of the agent configuration is listed |
| AgentConfiguration.Configurable | backend/src/agent/configuration.py:46-48 | a missing configuration or entry reads as an empty dictionary; a `None` entry raises |
| AgentConfiguration.Values | backend/src/agent/configuration.py:50-56 | a field is passed exactly when its raw value is not `None`, and is passed that raw value |
| AgentConfiguration.Coerce | backend/src/agent/configuration.py:56 | pydantic's check of one keyword argument: a string field takes exactly strings; an integer field takes integers and integer literals, converted to integers |
| AgentConfiguration.Validate | backend/src/agent/configuration.py:56 | the constructed fields are exactly the passed keywords, each converted |
| AgentConfiguration.Construct | backend/src/agent/configuration.py:56 | `cls(**values)` raises exactly when some passed keyword fails validation; otherwise each field holds its converted keyword, else its default, integer fields holding integers and string fields strings |
| AgentConfiguration.ValidatedFields | backend/src/agent/configuration.py:56 | with every keyword valid, each constructed field is its converted keyword or its default, of the field's type (with lines 30-39 of the same file) |
| AgentConfiguration.FromRunnableConfig | backend/src/agent/configuration.py:42-56 | raises when `configurable` is `None`; otherwise raises exactly when some passed keyword fails validation; each field is its converted raw value, else its default; integer fields hold integers and string fields strings |
| AgentConfiguration.FieldOf | backend/src/agent/configuration.py:50-56 | a field's value is its converted raw value when that is not `None`, else its default |
| AgentConfiguration.AgentEnvWins | backend/src/agent/configuration.py:50-53 | the environment variable, converted, beats the runtime entry |
| AgentConfiguration.AgentConfigurableNext | backend/src/agent/configuration.py:50-53 | without the variable, a non-`None` runtime entry gives the value, converted |
| AgentConfiguration.AgentNoneDropped | backend/src/agent/configuration.py:55-56 | a `None` entry yields the field's default, and removing the entry leaves the reading valid with the same value |
| AgentConfiguration.SameRawSameValues | backend/src/agent/configuration.py:50-55 | the keyword arguments depend only on the raw values |
| AgentConfiguration.DropNoneSameRaw | backend/src/agent/configuration.py:50-52 | dropping a `None` runtime entry changes no raw value |
| AgentConfiguration.AgentMissingConfigurable | backend/src/agent/configuration.py:46-48 | no configuration, no `configurable` and an empty one read alike |
| AgentConfiguration.AgentDefaults | backend/src/agent/configuration.py:31-39 | with nothing set: 5 initial queries, 3 research loops, and the shared hard-coded defaults |
| AgentConfiguration.InvalidValueRaises | backend/src/agent/configuration.py:56 | a raw value that fails validation makes the reading raise |
| AgentConfiguration.NonNumericLimitRaises | backend/src/agent/configuration.py:56 | `max_research_loops` given as "many", or an integer `model_provider`, raises |
| AgentConfiguration.EnvIntegerRead | backend/src/agent/configuration.py:30-33 | an integer written to NUMBER_OF_INITIAL_QUERIES as `str` writes it is read back as that integer |
| AgentConfiguration.OppositePrecedence | backend/src/agent/configuration.py:50-53 | the shared and the agent readings resolve a field set in both places in opposite ways |
| ChatState.GetLastUserMessage | backend/src/chat/state.py:44-58 | the content of the last human message, or "" when there is none |
| ChatState.GetConversationHistory | backend/src/chat/state.py:61-73 | always a suffix; the whole list when short enough; `min(len, n)` messages for n at least 1; the whole list for 0 |
| Messages.TypeName | backend/src/chat/state.py:56 | the type name is "human" exactly for human messages |
| ModelFactory.CreateGeminiModel | backend/src/shared/model_factory.py:92-121 | fails with the missing-key message exactly when GEMINI_API_KEY is unset or empty; otherwise a Gemini client for the given model and key |
| ModelFactory.CreateSiliconflowModel | backend/src/shared/model_factory.py:124-154 | fails exactly when SILICONFLOW_API_KEY is unset or empty; otherwise a client for the SiliconFlow base URL |
| ModelFactory.ProviderAndModel | backend/src/shared/model_factory.py:62-73 | a truthy override wins for the provider and for the model name, each taken separately; without a model override the name is the one looked up for the configured provider |
| ModelFactory.ModelForProvider | backend/src/shared/configuration.py:232-247 | the stage's model name in the given provider's own table |
| ModelFactory.ProviderAndModelCorrected | backend/src/shared/model_factory.py:62-73 | corrected selection (see Findings): as written, except that a provider override alone takes the model name from the overriding provider's table |
| ModelFactory.ConfiguredPairUsesOwnTable | backend/src/shared/configuration.py:229-249 | the configured pair always draws its model name from its own provider's table |
| ModelFactory.OverrideAgreesWithConfigured | backend/src/shared/model_factory.py:62-73 | the two selections agree whenever the override chooses the same table as the configured provider |
| ModelFactory.ProviderOverrideMismatch | backend/src/shared/model_factory.py:65-67 | with defaults, overriding the chat provider with "siliconflow" as written sends the Gemini model name |
| ModelFactory.HardDefaultOverride | backend/src/shared/model_factory.py:65-67 | for a configuration holding only defaults, the as-written override sends the Gemini chat model name while the corrected one sends the SiliconFlow chat model |
| ModelFactory.Dispatch | backend/src/shared/model_factory.py:76-89 | "gemini" and "siliconflow" in any casing build their provider's model, and any other name raises the unsupported-provider error |
| ModelFactory.CreateMixedChatModel | backend/src/shared/model_factory.py:32-89 | a configuration error propagates; otherwise dispatch on the provider and model `ProviderAndModel` selects, as written (see Findings) |
| ModelFactory.CreateMixedChatModelCorrected | backend/src/shared/model_factory.py:32-89 | corrected factory (see Findings): the same with the corrected selection |
| ModelFactory.OptionalString | backend/src/shared/model_factory.py:194-202 | a keyword counts exactly when present as a string |
| ModelFactory.CreateChatModel | backend/src/shared/model_factory.py:194-202 | an unknown keyword raises; otherwise the mixed model for the "chat" stage with the given overrides |
| ModelFactory.CreateModel | backend/src/shared/model_factory.py:211-240 | a configuration error propagates; otherwise each truthy argument replaces the provider or the model name the "chat" stage looks up, the other kept |
| ModelFactory.GetMixedModelProvider | backend/src/shared/model_factory.py:287-301 | the stage's configured provider, or the configuration error |
| ModelFactory.ReportedProviderIsUsed | backend/src/shared/model_factory.py:287-301 | whenever creation succeeds, the reported provider names the client's provider |
| ModelFactory.CreateGeminiCompat | backend/src/shared/model_factory.py:361-375 | a configuration error raises; otherwise it succeeds exactly when GEMINI_API_KEY is set, with a Gemini client for the model name the "chat" stage looks up for the configured chat provider |
| ModelFactory.CreateSiliconflowCompat | backend/src/shared/model_factory.py:377-391 | a configuration error raises; otherwise it succeeds exactly when SILICONFLOW_API_KEY is set, with a client for the SiliconFlow endpoint and the model name the "chat" stage looks up for the configured chat provider |
| ModelFactory.CreateSiliconflowCompatCorrected | backend/src/shared/model_factory.py:377-391 | corrected wrapper (see Findings): the same, but for the configured SiliconFlow chat model |
| ModelFactory.SiliconflowAsWrittenGetsGeminiName | backend/src/shared/model_factory.py:65-67 | with defaults, the as-written SiliconFlow wrapper asks SiliconFlow for "gemini-2.0-flash", and the corrected one asks for "Qwen/Qwen2.5-7B-Instruct" (with lines 377-391 of the same file) |
| ModelFactory.StageProviders | backend/src/shared/model_factory.py:262-267 | the four stage providers, in order |
| ModelFactory.ValidateMixedModelConfig | backend/src/shared/model_factory.py:247-284 | true exactly when every non-empty lower-cased provider in use, the default and each stage's, is gemini or siliconflow with its key set |
| ModelFactory.ProviderFromEnvironment | backend/src/shared/configuration.py:167-208 | a readable runtime configuration that sets no provider field resolves every stage to the provider the environment alone gives it |
| ModelFactory.DefaultsProviderInUse | backend/src/shared/model_factory.py:256-271 | for the configuration read from the environment alone, the provider any stage resolves to, lower-cased, is among those validated |
| ModelFactory.StageProviderInUse | backend/src/shared/model_factory.py:256-271 | for any readable runtime configuration that sets no provider field, the provider any stage resolves to, lower-cased, is among those validated |
| ModelFactory.RuntimeProviderUnchecked | backend/src/shared/model_factory.py:247-284 | the check reads only the environment: with no provider variable and the Gemini key it passes, while a runtime `chat_provider` of "openai" makes the chat model's creation raise (with lines 76-89 of the same file) |
| ModelFactory.ValidatedCreationSucceeds | backend/src/shared/model_factory.py:247-284 | with a non-empty default provider, a readable runtime configuration that sets no provider field and no provider override, a passing validation guarantees that creating any stage's model succeeds, whatever the model override (with lines 32-89 of the same file) |
| ModelFactory.EmptyProviderPasses | backend/src/shared/model_factory.py:256-284 | with an empty `MODEL_PROVIDER` and no stage provider variable, the only provider in use is the empty name, and validation passes |
| ModelFactory.EmptyProviderEverywhere | backend/src/shared/configuration.py:210-249 | in that environment every stage resolves to the empty provider |
| ModelFactory.EmptyProviderPassesButFails | backend/src/shared/model_factory.py:261-284 | an empty `MODEL_PROVIDER` with no stage provider variable set passes validation, yet creating any stage's model without a provider override raises, for every readable runtime configuration that sets no provider field (with lines 76-89 of the same file) |
| ModelFactory.GetModelInfo | backend/src/shared/model_factory.py:308-328 | reports the stage's provider and model and whether `PROVIDER_API_KEY` is set |
| ModelFactory.ListAllModelInfo | backend/src/shared/model_factory.py:331-347 | exactly the four stage keys, each with that stage's information |
| ModelFactory.ApiKeyFlagMatchesCreation | backend/src/shared/model_factory.py:323-328 | for a known provider, the reported key flag holds exactly when creating the model succeeds (with lines 92-154 of the same file) |
| ChatGraph.ValidateChatConfig | backend/src/chat/graph.py:41-56 | raises exactly when mixed validation fails; it names the default provider's key variable when that provider's key is missing, and is generic otherwise |
| ChatGraph.DefaultKeyMissingReported | backend/src/chat/graph.py:48-56 | a missing key of the default provider is reported by name |
| ChatGraph.StageKeyMissingReportedGenerically | backend/src/chat/graph.py:48-56 | a missing key of a stage provider gets the generic message naming the default provider |
| ChatGraph.MixedChat | backend/src/chat/graph.py:127-161 | a configuration error gives the prefixed message; no user message gives the apology; it raises exactly when model creation fails; otherwise one AI message with the reply or the error text |
| ChatGraph.MixedChatNoModelCall | backend/src/chat/graph.py:139-147 | on a configuration error or with no user message, the model is not called |
| ChatGraph.MixedChatRaisesOnlyOnCreation | backend/src/chat/graph.py:127-161 | with a non-empty default provider and a readable runtime configuration that sets no provider field, mixed chat never raises |
| ChatGraph.ChatModelName | backend/src/chat/graph.py:112-116 | the runtime `chat_model` entry when present, else the configuration's |
| ChatGraph.ChatModelNameIsConfigured | backend/src/chat/graph.py:112-116 | both branches yield the configuration's `chat_model` |
| ChatGraph.GetChatModel | backend/src/chat/graph.py:98-124 | a configuration error propagates; otherwise the result of the `create_chat_model` call with `model_name=` |
| ChatGraph.GetChatModelFails | backend/src/chat/graph.py:119-124 | always raises |
| ChatGraph.UnknownKeywordRejected | backend/src/shared/model_factory.py:194-202 | a `model_name` keyword makes the factory raise |
| ChatGraph.GetChatModelCorrected | backend/src/chat/graph.py:98-124 | corrected call (see Findings): a configured chat model is passed as the model override |
| ChatGraph.ModelOverrideKwargs | backend/src/chat/graph.py:119-124 | the corrected keyword arguments are all accepted by the factory and carry the model as override with no provider override |
| ChatGraph.GetChatModelCorrectedMatchesMixed | backend/src/chat/graph.py:98-124 | for a provider other than SiliconFlow, the corrected model for the chat stage equals the mixed model |
| ChatGraph.ChatNode | backend/src/chat/graph.py:178-215 | a configuration error gives the prefixed message; it raises exactly when the check passes and `get_chat_model` raises; otherwise one AI message with the reply or the apology |
| ChatGraph.ChatNodeRaises | backend/src/chat/graph.py:194-195 | as written, the node raises exactly when the configuration check passes |
| ChatGraph.ChatNodeCorrected | backend/src/chat/graph.py:178-215 | corrected node (see Findings): the same over the corrected `get_chat_model` |
| ChatGraph.ChatNodeCorrectedAnswers | backend/src/chat/graph.py:178-215 | corrected node: with a non-empty default provider and a readable runtime configuration that sets no provider field it never raises |
| ChatGraph.Merge | backend/src/chat/graph.py:445-476 | messages are appended and each state key the update sets is overwritten, the others are kept |
| ChatGraph.DualModelInitialNode | backend/src/chat/graph.py:228-258 | "error" exactly on a configuration error or a missing user message, with the prefixed configuration error or the fixed apology as its one message and no response key set; otherwise "parallel_query" with all three response slots reset to `None` |
| ChatGraph.GeminiNodeModel | backend/src/chat/graph.py:272-280 | a Gemini client for "gemini-1.5-flash" |
| ChatGraph.Answer | backend/src/chat/graph.py:272-289 | the reply, or the fixed prefix followed by the creation or call error |
| ChatGraph.GeminiResponseNode | backend/src/chat/graph.py:261-289 | writes only the Gemini slot, with the answer or a placeholder, and never raises |
| ChatGraph.SiliconflowResponseNode | backend/src/chat/graph.py:292-314 | writes only the SiliconFlow slot, with the answer of the client `create_siliconflow_model` builds as written (see Findings) or a placeholder, and never raises |
| ChatGraph.ShownOr | backend/src/chat/graph.py:330-331 | `dict.get` with a default: a value, the default when absent, "None" when `None` |
| ChatGraph.IntegrationPrompt | backend/src/chat/graph.py:334-348 | the prompt contains both answers |
| ChatGraph.IntegrationNode | backend/src/chat/graph.py:317-376 | one AI message that is also the integrated response; "completed" exactly when creation and the merge call succeed, with the reply; otherwise "error", the prefix followed by the creation error or the call's error |
| ChatGraph.ShouldContinueToIntegration | backend/src/chat/graph.py:379-394 | "integration" exactly when both slots hold a value, else "wait" |
| ChatGraph.ProviderNodesCommute | backend/src/chat/graph.py:261-314 | the two provider nodes' updates merge to the same state in either order |
| ChatGraph.DualFlowReachesIntegration | backend/src/chat/graph.py:228-314 | after a successful initial node and both provider nodes, the router chooses integration (with lines 379-394 of the same file) |
| ChatGraph.FailedInitialWaits | backend/src/chat/graph.py:237-258 | after a failed initial node the router waits (with lines 379-394 of the same file) |
| DualModelGraph.ValidateDualModelConfig | backend/src/chat/dual_model_graph.py:37-51 | passes exactly when both keys are set; the Gemini error comes first |
| DualModelGraph.Receive | backend/src/chat/dual_model_graph.py:130-145 | a tagged result goes to its own slot; a raised future fills any empty slot with a placeholder |
| DualModelGraph.CompletionOrderIrrelevant | backend/src/chat/dual_model_graph.py:130-145 | two results with different tags give the same slots in either completion order |
| DualModelGraph.TaggedAnswersRouted | backend/src/chat/dual_model_graph.py:133-139 | each branch's answer lands in its own slot |
| DualModelGraph.RaisedFutureGetsPlaceholder | backend/src/chat/dual_model_graph.py:140-145 | a raised future leaves a placeholder, not an exception |
| DualModelGraph.CreationError | backend/src/chat/dual_model_graph.py:90-106 | no error exactly when both clients can be built |
| DualModelGraph.ParallelQueryUpdate | backend/src/chat/dual_model_graph.py:58-151 | "error" with one message on a configuration error, a missing message or a creation error; otherwise "parallel_query" with both slots filled by the answers of the clients `create_gemini_model` and `create_siliconflow_model` build as written (see Findings), or their placeholders |
| DualModelGraph.ParallelQueryNode | backend/src/chat/dual_model_graph.py:58-151 | the loop over completed futures, in either completion order, yields the specified update |
| DualModelGraph.CollectCompleted | backend/src/chat/dual_model_graph.py:133-145 | the two response slots after the loop are the fold `Collect` of the outcomes in completion order |
| DualModelGraph.ParallelQueryErrorsCallNoModel | backend/src/chat/dual_model_graph.py:70-106 | on the error paths the model is not called |
| DualModelGraph.CreationSucceedsWithKeys | backend/src/chat/dual_model_graph.py:44-51 | after validation passes, when the runtime configuration can be read, creating both clients succeeds (with lines 90-106 of the same file) |
| DualModelGraph.MergePrompt | backend/src/chat/dual_model_graph.py:190-207 | the prompt contains the question and both answers |
| DualModelGraph.FinalContent | backend/src/chat/dual_model_graph.py:216-229 | starts with the heading and the merged answer, contains the Gemini answer and ends with the SiliconFlow answer |
| DualModelGraph.IntegrationUpdate | backend/src/chat/dual_model_graph.py:154-241 | a falsy answer or a creation error gives "error" without a model call; "completed" exactly when the merge call, made with the client `create_siliconflow_model` builds as written (see Findings), succeeds, with the reply as the integrated response and the final content as the message; a failed merge call gives "error" with the prefix followed by the call's error |
| DualModelGraph.PlaceholdersPassGuard | backend/src/chat/dual_model_graph.py:115-127 | failed branch calls leave truthy placeholders, so integration is still attempted (with lines 166-170 of the same file) |
| DualModelGraph.EmptyReplyStopsIntegration | backend/src/chat/dual_model_graph.py:166-170 | an empty Gemini reply makes integration stop with the fixed error |

## Left out

- Model and search calls (Gemini, SiliconFlow over the OpenAI client, Google Search grounding, structured output) are oracle parameters. Their prompts are left out, except the two integration prompts.
- LangGraph itself is left out: graph construction, `compile`, `Send` dispatch, checkpointing and the `add_messages` reducer. `ChatGraph.Merge` (the merge of a node's returned keys into the state) only appends messages and does not deduplicate by id, and a `Send` is a plain record.
- The edges in chat/graph.py lines 445-476 do not use `should_continue_to_integration`; the function is modelled on its own.
- The `ThreadPoolExecutor` is left out. Its `as_completed` order becomes the `geminiFirst` parameter. Both branches catch every exception, so the node receives only tagged results; the raised-future path is modelled in `DualModelGraph.Collect` alone.
- `generate_query` is not modelled: it is an LLM call plus a prompt. The reflection verdict and the answer text are oracle results.
- Temperature, retry counts and other floats passed to the SDKs are not modelled. The keyword map of `create_chat_model` carries `Int(0)` in place of the temperature 0.7.
- `AgentConfiguration.Coerce`: an integer field accepts an integer or a string made of an optional sign and ASCII digits. Pydantic's other spellings (surrounding whitespace, underscores between digits, a zero fraction such as "5.0", a whole float) are treated as validation errors here, and so is a float value, which `Value` cannot hold.
- `evaluate_research` takes the configured loop limit as an integer; `AgentConfiguration.FromRunnableConfig` shows that a validated limit is one.
- Case mapping (`lower`, `upper`) is ASCII only.
- agent/state.py, which declares the reducer of the state's `search_query` list, is not part of this model. `ResearchGraph.QueryLog` and `ResearchGraph.RunSends` assume the appending reducer that the list's use as a record of the queries run implies: the generated list, then each task's one-element list.
- `AgentUtils.Web`: a chunk's URI is a string. A `None` URI, which `resolve_urls` would use as a key and `get_citations` would copy into a source, is not modelled; the web part and the title may be `None`.
- `AgentUtils.Response`: the response text is a string and `None` candidates are the empty list, which gives the same result in `get_citations` and the same raise in `web_research`.
- `ResearchGraph.WebResearch`, `ResearchGraph.OverallState.Reflection`, `ResearchGraph.EvaluateResearch` and `ResearchGraph.FinalizeAnswerStep` take the values the agent configuration gives as parameters. Each node first calls `Configuration.from_runnable_config` (agent/graph.py lines 190, 270, 352 and 418) and raises when that raises, as `AgentConfiguration.FromRunnableConfig` states. That raise is not modelled, nor is the fact that `reflection` raises before it increments the count.
- `ModelFactory.CreateChatModel`: an unaccepted keyword gives the abbreviated message `UnexpectedKeyword`, without the keyword's name. Python names the keyword. A `stage` or `config` keyword gives a different `TypeError` text, about multiple values for one argument. No member reads the text.
- `StageProviderInUse`, `ValidatedCreationSucceeds`, `EmptyProviderPassesButFails`, `MixedChatRaisesOnlyOnCreation` and `ChatNodeCorrectedAnswers` are stated for runtime configurations that set no provider field. `validate_mixed_model_config` reads only the environment, so a runtime provider escapes it. `ModelFactory.RuntimeProviderUnchecked` shows that the claims fail there.
- `load_dotenv` and changes to `os.environ` are left out: the environment is an immutable map.
- The stage aliases `create_query_generator_model`, `create_reflection_model` and `create_answer_model` (shared/model_factory.py lines 161-191) are `ModelFactory.CreateMixedChatModel` at a fixed stage. The same holds for the re-exports in agent/model_factory.py and chat/model_factory.py, and for `get_mixed_chat_model` and `get_chat_model_info` in chat/graph.py.
- chat/configuration.py is not part of this model. dual_model_graph.py builds a `ChatConfiguration` at line 87 but never uses it.
- chat/graph.py (line 24), dual_model_graph.py (line 24) and chat/__init__.py (line 17) import `DualModelState` from chat/state.py, which does not define it. The model supplies the state as `ChatGraph.DualModelState` with the five keys the nodes read and write.
- `ModelFactory.OptionalString`: an override that is not a string counts as absent. The source would pass it on to the SDK.
- `ChatGraph.IntegrationNode` and `DualModelGraph.IntegrationUpdate` do not model the `isinstance(response, AIMessage)` conversion: a reply is its text.
- The "未知问题" fallback in dual_model_graph.py line 187 is unreachable, because `get_last_user_message` always returns a string. The model keeps the question as that string.
- FastAPI app, tests, demos and `__init__` re-exports are left out: they are I/O or thin wrappers.

## Findings

| source | as written | input that shows it | evidently intended | confidence | as-written member | corrected member |
|---|---|---|---|---|---|---|
| backend/src/chat/graph.py:119-124 | `get_chat_model` passes `model_name=` to `create_chat_model`, which forwards its keywords to `create_mixed_chat_model`; that function has no such parameter, so the call raises `TypeError`, and `chat_node` calls it outside its `try` | any configuration that passes validation, e.g. GEMINI_API_KEY set and nothing else | pass the configured chat model as `model_override`, which builds the chat-stage model | high, not executed | ChatGraph.ChatNodeRaises | ChatGraph.ChatNodeCorrectedAnswers |
| backend/src/shared/model_factory.py:65-67 | with only `provider_override`, the model name still comes from the table of the configured provider, so `create_siliconflow_model` under default settings asks SiliconFlow for "gemini-2.0-flash" | default configuration with SILICONFLOW_API_KEY set, calling `create_siliconflow_model()` | take the model name from the overriding provider's table ("Qwen/Qwen2.5-7B-Instruct") | medium, not executed | ModelFactory.SiliconflowAsWrittenGetsGeminiName | ModelFactory.CreateSiliconflowCompatCorrected |
