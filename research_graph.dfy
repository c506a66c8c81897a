/** The deterministic parts of the research agent's graph: the fan-out of
    search queries to parallel web-research tasks, one web-research step over a
    search response, the loop-count bookkeeping of the reflection step, the
    routing rule that ends the research loop, and the rewriting of short URLs
    in the final answer. Every model and search call is a parameter. */
module ResearchGraph {
  import opened Wrappers
  import opened PyText
  import opened Messages
  import opened AgentUtils
  import opened CitationMarkers

  // ===========================================================================
  // Fan-out: continue_to_web_research and the follow-up branch of
  // evaluate_research
  // ===========================================================================

  /** `Send(node, {"search_query": q, "id": id})` */
  datatype Send = Send(node: string, searchQuery: string, id: int)

  const WebResearchNode: string := "web_research"

  /** One `web_research` task per query, numbered from `firstId`. */
  function FanOut(queries: seq<string>, firstId: int): (sends: seq<Send>)
    ensures |sends| == |queries|
    ensures forall i :: 0 <= i < |queries| ==>
              sends[i].node == WebResearchNode && sends[i].searchQuery == queries[i] && sends[i].id == firstId + i
  {
    seq(|queries|, i requires 0 <= i < |queries| => Send(WebResearchNode, queries[i], firstId + i))
  }

  /** `continue_to_web_research`: one task per generated query, in order, with
      the query's position as its id. */
  function ContinueToWebResearch(searchQuery: seq<string>): (sends: seq<Send>)
    ensures |sends| == |searchQuery|
    ensures forall i :: 0 <= i < |sends| ==> sends[i] == Send(WebResearchNode, searchQuery[i], i)
  {
    FanOut(searchQuery, 0)
  }

  function Concat(rounds: seq<seq<string>>): seq<string>
    decreases |rounds|
  {
    if rounds == [] then [] else Concat(rounds[..|rounds| - 1]) + rounds[|rounds| - 1]
  }

  /** The state's `search_query` list after the research rounds `rounds` of a
      run, the first of them the generated queries, when the list's reducer
      appends: the generated list that `generate_query` returns, then the
      one-element list of every `web_research` task run. */
  function QueryLog(rounds: seq<seq<string>>): seq<string>
    requires rounds != []
  {
    rounds[0] + Concat(rounds)
  }

  /** The tasks of every research round of a run: the first round is the
      fan-out of the generated queries; each later one is the follow-up
      fan-out of `evaluate_research`, numbered from the `number_of_ran_queries`
      that `reflection` read off the state, which is the length of the query
      log of the rounds before it. */
  function RunSends(rounds: seq<seq<string>>): seq<Send>
    decreases |rounds|
  {
    if rounds == [] then []
    else if |rounds| == 1 then ContinueToWebResearch(rounds[0])
    else
      var earlier := rounds[..|rounds| - 1];
      RunSends(earlier) + FanOut(rounds[|rounds| - 1], |QueryLog(earlier)|)
  }

  /** Across all rounds of a run there is one task per query, in order, and
      the task ids strictly increase, so no id is handed out twice; every id
      is below the length of the query log. The ids are not consecutive: the
      log holds the generated queries twice (once from `generate_query`, once
      from their tasks), so the first follow-up id is twice the number of
      generated queries. */
  lemma {:induction false} RunSendsIdsIncrease(rounds: seq<seq<string>>)
    ensures |RunSends(rounds)| == |Concat(rounds)|
    ensures forall i :: 0 <= i < |RunSends(rounds)| ==> RunSends(rounds)[i].searchQuery == Concat(rounds)[i]
    ensures forall i, j :: 0 <= i < j < |RunSends(rounds)| ==> RunSends(rounds)[i].id < RunSends(rounds)[j].id
    ensures rounds != [] ==> forall i :: 0 <= i < |RunSends(rounds)| ==> 0 <= RunSends(rounds)[i].id < |QueryLog(rounds)|
    ensures |rounds| >= 2 && |RunSends(rounds)| > |rounds[0]| ==> RunSends(rounds)[|rounds[0]|].id == 2 * |rounds[0]|
    decreases |rounds|
  {
    if |rounds| == 1 {
      assert rounds[..0] == [];
      assert Concat(rounds) == rounds[0];
    } else if |rounds| >= 2 {
      var earlier := rounds[..|rounds| - 1];
      var last := rounds[|rounds| - 1];
      RunSendsIdsIncrease(earlier);
      assert earlier[0] == rounds[0];
      if |rounds| == 2 {
        assert earlier[..0] == [];
        assert Concat(earlier) == rounds[0];
      }
    }
  }

  // ===========================================================================
  // web_research
  // ===========================================================================

  /** The state update of one web-research task. */
  datatype WebResearchUpdate = WebResearchUpdate(
    sourcesGathered: seq<Source>,
    searchQuery: seq<string>,
    webResearchResult: seq<string>)

  /** The sources of all citations, citation by citation. */
  function Flatten(citations: seq<Citation>): (r: seq<Source>)
    ensures forall s :: s in r <==> exists c :: c in citations && s in c.segments
    decreases |citations|
  {
    if citations == [] then []
    else
      var prefix := citations[..|citations| - 1];
      var last := citations[|citations| - 1];
      var r := Flatten(prefix) + last.segments;
      assert forall c :: c in citations <==> c in prefix || c == last;
      r
  }

  /** `web_research` after the search call, which is the `response`
      parameter: resolve the grounding chunks' URLs, read the citations, insert
      their markers into the response text, and gather their sources. It
      raises on a response without candidates or without grounding metadata,
      on `None` chunks (`resolve_urls` iterates them), on a chunk whose web
      part is `None` (`resolve_urls` reads its URI) and on `None` supports
      (`get_citations` iterates them). */
  method WebResearch(searchQuery: string, id: int, response: Response) returns (r: Result<WebResearchUpdate>)
    ensures r.Err? <==>
              response.candidates == [] || response.candidates[0].metadata.None? ||
              response.candidates[0].metadata.value.chunks.None? ||
              !AllWeb(response.candidates[0].metadata.value.chunks.value) ||
              response.candidates[0].metadata.value.supports.None?
    ensures r.Ok? ==>
              var md := response.candidates[0].metadata.value;
              var citations := Citations(Some(response), ResolvedMap(md.chunks.value, id));
              citations.Ok? &&
              r.value.sourcesGathered == Flatten(citations.value) &&
              r.value.searchQuery == [searchQuery] &&
              r.value.webResearchResult == [ApplyMarkers(response.text, SortDesc(citations.value))]
    ensures r.Ok? ==> forall s :: s in r.value.sourcesGathered ==> s.shortUrl.Some?
  {
    if response.candidates == [] {
      return Err("list index out of range");
    }
    var metadata := response.candidates[0].metadata;
    if metadata.None? {
      return Err("'NoneType' object has no attribute 'grounding_chunks'");
    }
    var md := metadata.value;
    if md.chunks.None? {
      return Err(NotIterable);
    }
    var resolvedUrls := ResolveUrls(md.chunks.value, id);
    if resolvedUrls.Err? {
      return Err(resolvedUrls.error);
    }
    var citations := GetCitations(Some(response), resolvedUrls.value);
    if citations.Err? {
      return Err(citations.error);
    }
    var modifiedText := InsertCitationMarkers(response.text, citations.value);
    CitationsResolved(md.chunks.value, id, md.supports.value);
    r := Ok(WebResearchUpdate(Flatten(citations.value), [searchQuery], [modifiedText]));
  }

  // ===========================================================================
  // reflection
  // ===========================================================================

  /** What the reflection model answers, through its structured output. */
  datatype ReflectionVerdict = ReflectionVerdict(isSufficient: bool, knowledgeGap: string, followUpQueries: seq<string>)

  /** The state update of the reflection step. */
  datatype ReflectionUpdate = ReflectionUpdate(
    isSufficient: bool,
    knowledgeGap: string,
    followUpQueries: seq<string>,
    researchLoopCount: int,
    numberOfRanQueries: nat)

  /** `state.get("research_loop_count", 0) + 1`: an absent count reads as 0;
      a count of `None` cannot be incremented. */
  function NextLoopCount(count: Slot<int>): (r: Result<int>)
    ensures count.Missing? ==> r == Ok(1)
    ensures count.Has? ==> r == Ok(count.value + 1)
    ensures count.Null? ==> r.Err?
  {
    match count
    case Missing => Ok(1)
    case Null => Err("unsupported operand type(s) for +: 'NoneType' and 'int'")
    case Has(n) => Ok(n + 1)
  }

  /** `state.get("reasoning_model", reflection_model)`: the configured
      reflection model is used only when the key is absent; a key holding
      `None` or `""` is used as it stands. */
  function ReflectionModelName(reasoningModel: Slot<string>, reflectionModel: string): (m: Option<string>)
    ensures reasoningModel.Missing? ==> m == Some(reflectionModel)
    ensures reasoningModel.Null? ==> m == None
    ensures reasoningModel.Has? ==> m == Some(reasoningModel.value)
  {
    match reasoningModel
    case Missing => Some(reflectionModel)
    case Null => None
    case Has(v) => Some(v)
  }

  /** The agent's graph state, as far as the reflection step reads and writes
      it. */
  class OverallState {
    var searchQuery: seq<string>
    var researchLoopCount: Slot<int>
    var reasoningModel: Slot<string>

    constructor (searchQuery: seq<string>, researchLoopCount: Slot<int>, reasoningModel: Slot<string>)
      ensures this.searchQuery == searchQuery
      ensures this.researchLoopCount == researchLoopCount
      ensures this.reasoningModel == reasoningModel
    {
      this.searchQuery := searchQuery;
      this.researchLoopCount := researchLoopCount;
      this.reasoningModel := reasoningModel;
    }

    /** `reflection`: increments the loop count in the state itself, then
        asks the reflection model (`reflect`, given the chosen model name) and
        reports its verdict with the new count and the number of queries run
        so far. The count is written before the model is called, so it stays
        incremented when the call raises. */
    method Reflection(reflectionModel: string, reflect: Option<string> -> Result<ReflectionVerdict>)
      returns (r: Result<ReflectionUpdate>)
      modifies this
      ensures searchQuery == old(searchQuery) && reasoningModel == old(reasoningModel)
      ensures NextLoopCount(old(researchLoopCount)).Err? ==>
                researchLoopCount == old(researchLoopCount) && r.Err?
      ensures NextLoopCount(old(researchLoopCount)).Ok? ==>
                researchLoopCount == Has(NextLoopCount(old(researchLoopCount)).value)
      ensures r.Ok? <==>
                NextLoopCount(old(researchLoopCount)).Ok? &&
                reflect(ReflectionModelName(reasoningModel, reflectionModel)).Ok?
      ensures r.Ok? ==>
                var v := reflect(ReflectionModelName(reasoningModel, reflectionModel)).value;
                r.value == ReflectionUpdate(v.isSufficient, v.knowledgeGap, v.followUpQueries,
                                            NextLoopCount(old(researchLoopCount)).value, |searchQuery|)
    {
      var next := NextLoopCount(researchLoopCount);
      if next.Err? {
        return Err(next.error);
      }
      researchLoopCount := Has(next.value);
      var model := ReflectionModelName(reasoningModel, reflectionModel);
      var verdict := reflect(model);
      if verdict.Err? {
        return Err(verdict.error);
      }
      r := Ok(ReflectionUpdate(verdict.value.isSufficient, verdict.value.knowledgeGap,
                               verdict.value.followUpQueries, next.value, |searchQuery|));
    }
  }

  /** The loop count after `k` reflection steps of a run that starts without
      one. */
  function CountAfter(k: nat): Slot<int> {
    if k == 0 then Missing else Has(NextLoopCount(CountAfter(k - 1)).value)
  }

  /** The `k`-th reflection of a run reports `k` as the loop count. */
  lemma {:induction false} ReflectionCountsRounds(k: nat)
    requires k >= 1
    ensures NextLoopCount(CountAfter(k - 1)) == Ok(k)
    decreases k
  {
    if k > 1 {
      ReflectionCountsRounds(k - 1);
    }
  }

  // ===========================================================================
  // evaluate_research
  // ===========================================================================

  /** The state `evaluate_research` reads: the reflection's update and the
      optional loop limit of the state. */
  datatype ReflectionState = ReflectionState(
    isSufficient: bool,
    followUpQueries: seq<string>,
    researchLoopCount: int,
    numberOfRanQueries: nat,
    maxResearchLoops: Option<int>)

  /** Where the graph goes after reflection. */
  datatype Route = FinalizeAnswer | ContinueResearch(sends: seq<Send>)

  /** The state's loop limit when it has one, the configured one otherwise. */
  function MaxResearchLoops(state: ReflectionState, configuredMax: int): (m: int)
    ensures state.maxResearchLoops.Some? ==> m == state.maxResearchLoops.value
    ensures state.maxResearchLoops.None? ==> m == configuredMax
  {
    if state.maxResearchLoops.Some? then state.maxResearchLoops.value else configuredMax
  }

  /** `evaluate_research`: finish when the research is sufficient or the loop
      limit is reached; otherwise one task per follow-up query, numbered after
      the queries already run. */
  function EvaluateResearch(state: ReflectionState, configuredMax: int): (r: Route)
    ensures r == FinalizeAnswer <==>
              state.isSufficient || state.researchLoopCount >= MaxResearchLoops(state, configuredMax)
    ensures r.ContinueResearch? ==>
              |r.sends| == |state.followUpQueries| &&
              forall i :: 0 <= i < |r.sends| ==>
                r.sends[i] == Send(WebResearchNode, state.followUpQueries[i], state.numberOfRanQueries + i)
  {
    if state.isSufficient || state.researchLoopCount >= MaxResearchLoops(state, configuredMax) then FinalizeAnswer
    else ContinueResearch(FanOut(state.followUpQueries, state.numberOfRanQueries))
  }

  /** Follow-up ids never collide with the ids of the queries already run. */
  lemma FollowUpIdsFresh(state: ReflectionState, configuredMax: int, i: int)
    requires EvaluateResearch(state, configuredMax).ContinueResearch?
    requires 0 <= i < |EvaluateResearch(state, configuredMax).sends|
    ensures EvaluateResearch(state, configuredMax).sends[i].id >= state.numberOfRanQueries
  {
  }

  /** The later rounds of `RunSends` are the routes the graph takes: when a
      reflection over the query log of the earlier rounds finds the research
      insufficient below the loop limit, `evaluate_research` sends exactly the
      last round's tasks. */
  lemma FollowUpRoundOfRun(rounds: seq<seq<string>>, loopCount: int, maxLoops: Option<int>, configuredMax: int)
    requires |rounds| >= 2
    requires var earlier := rounds[..|rounds| - 1];
             loopCount < MaxResearchLoops(ReflectionState(false, rounds[|rounds| - 1], loopCount, |QueryLog(earlier)|, maxLoops), configuredMax)
    ensures var earlier := rounds[..|rounds| - 1];
            var route := EvaluateResearch(ReflectionState(false, rounds[|rounds| - 1], loopCount, |QueryLog(earlier)|, maxLoops), configuredMax);
            route.ContinueResearch? && RunSends(rounds) == RunSends(earlier) + route.sends
  {
  }

  /** The research loop ends at the latest with the reflection whose count
      reaches the limit: with `k` reflections behind it, the route is the
      final answer once `k` is at least the limit, whatever the verdict. */
  lemma LoopEndsAtLimit(state: ReflectionState, configuredMax: int, k: nat)
    requires k >= 1 && Ok(state.researchLoopCount) == NextLoopCount(CountAfter(k - 1))
    requires k >= MaxResearchLoops(state, configuredMax)
    ensures EvaluateResearch(state, configuredMax) == FinalizeAnswer
  {
    ReflectionCountsRounds(k);
  }

  // ===========================================================================
  // finalize_answer
  // ===========================================================================

  /** The answer text being rewritten and the sources kept so far. */
  datatype Answer = Answer(content: string, uniqueSources: seq<Source>)

  /** One iteration of the source loop: a source whose short URL occurs in the
      answer is kept and all occurrences of its short URL are replaced by its
      original URL. A short URL of `None` cannot be searched for. */
  function RewriteStep(a: Answer, s: Source): Result<Answer> {
    match s.shortUrl
    case None => Err("'in <string>' requires string as left operand, not NoneType")
    case Some(u) =>
      if Contains(a.content, u) then Ok(Answer(ReplaceAll(a.content, u, s.value), a.uniqueSources + [s]))
      else Ok(a)
  }

  /** The source loop over `sources`, from the model's answer `content`. */
  function Rewrite(sources: seq<Source>, content: string): Result<Answer>
    decreases |sources|
  {
    if sources == [] then Ok(Answer(content, []))
    else
      match Rewrite(sources[..|sources| - 1], content)
      case Err(e) => Err(e)
      case Ok(a) => RewriteStep(a, sources[|sources| - 1])
  }

  /** The state update of `finalize_answer`. */
  datatype FinalUpdate = FinalUpdate(messages: seq<Message>, sourcesGathered: seq<Source>)

  /** `state.get("reasoning_model") or answer_model`: an absent, `None` or
      empty reasoning model falls back to the configured answer model. */
  function AnswerModelName(reasoningModel: Slot<string>, answerModel: string): (m: string)
    ensures reasoningModel.Has? && reasoningModel.value != "" ==> m == reasoningModel.value
    ensures !(reasoningModel.Has? && reasoningModel.value != "") ==> m == answerModel
  {
    if reasoningModel.Has? && reasoningModel.value != "" then reasoningModel.value else answerModel
  }

  /** The two steps read the reasoning model differently: a state holding an
      empty name, or `None`, sends the reflection step to that name while the
      answer step falls back to the answer model. */
  lemma ReasoningModelFallbacksDiffer(reflectionModel: string, answerModel: string)
    ensures ReflectionModelName(Has(""), reflectionModel) == Some("")
    ensures AnswerModelName(Has(""), answerModel) == answerModel
    ensures ReflectionModelName(Null, reflectionModel) == None
    ensures AnswerModelName(Null, answerModel) == answerModel
  {
  }

  /** `finalize_answer` after the answer model's call, whose reply is
      `content`: rewrite the short URLs of the gathered sources in order and
      keep the sources that were found. */
  method FinalizeAnswerStep(sourcesGathered: seq<Source>, content: string) returns (r: Result<FinalUpdate>)
    ensures Rewrite(sourcesGathered, content).Err? <==> r.Err?
    ensures r.Ok? ==>
              var a := Rewrite(sourcesGathered, content).value;
              r.value == FinalUpdate([AiMessage(a.content)], a.uniqueSources)
  {
    var text := content;
    var uniqueSources: seq<Source> := [];
    for i := 0 to |sourcesGathered|
      invariant Rewrite(sourcesGathered[..i], content) == Ok(Answer(text, uniqueSources))
    {
      var source := sourcesGathered[i];
      assert sourcesGathered[..i + 1][..i] == sourcesGathered[..i];
      if source.shortUrl.None? {
        FailureSticks(sourcesGathered, content, i + 1);
        assert sourcesGathered[..|sourcesGathered|] == sourcesGathered;
        return Err("'in <string>' requires string as left operand, not NoneType");
      }
      if Contains(text, source.shortUrl.value) {
        text := ReplaceAll(text, source.shortUrl.value, source.value);
        uniqueSources := uniqueSources + [source];
      }
    }
    assert sourcesGathered[..|sourcesGathered|] == sourcesGathered;
    r := Ok(FinalUpdate([AiMessage(text)], uniqueSources));
  }

  /** Once the loop has raised, it stays raised. */
  lemma {:induction false} FailureSticks(sources: seq<Source>, content: string, k: nat)
    requires k <= |sources| && Rewrite(sources[..k], content).Err?
    ensures Rewrite(sources, content).Err?
    decreases |sources| - k
  {
    if k < |sources| {
      assert sources[..k + 1][..k] == sources[..k];
      FailureSticks(sources, content, k + 1);
    } else {
      assert sources[..k] == sources;
    }
  }

  /** `xs` is a subsequence of `ys`: its elements occur in `ys` in the same
      order. */
  predicate IsSubsequence(xs: seq<Source>, ys: seq<Source>)
    decreases |ys|
  {
    if xs == [] then true
    else if ys == [] then false
    else if xs[|xs| - 1] == ys[|ys| - 1] then IsSubsequence(xs[..|xs| - 1], ys[..|ys| - 1])
    else IsSubsequence(xs, ys[..|ys| - 1])
  }

  lemma {:induction false} SubsequenceDropLast(xs: seq<Source>, ys: seq<Source>)
    requires xs != [] && IsSubsequence(xs, ys)
    ensures IsSubsequence(xs[..|xs| - 1], ys)
    decreases |ys|, 0
  {
    var init := xs[..|xs| - 1];
    if init != [] && ys != [] {
      var ys' := ys[..|ys| - 1];
      if xs[|xs| - 1] == ys[|ys| - 1] {
        SubsequenceExtend(init, ys', ys[|ys| - 1]);
        assert ys' + [ys[|ys| - 1]] == ys;
      } else {
        SubsequenceDropLast(xs, ys');
        SubsequenceExtend(init, ys', ys[|ys| - 1]);
        assert ys' + [ys[|ys| - 1]] == ys;
      }
    }
  }

  /** A subsequence of `ys` is a subsequence of any extension of `ys`. */
  lemma {:induction false} SubsequenceExtend(xs: seq<Source>, ys: seq<Source>, y: Source)
    requires IsSubsequence(xs, ys)
    ensures IsSubsequence(xs, ys + [y])
    decreases |ys|, 1
  {
    var zs := ys + [y];
    assert zs[..|zs| - 1] == ys;
    if xs != [] && xs[|xs| - 1] == y {
      SubsequenceDropLast(xs, ys);
    }
  }

  /** The kept sources are the gathered sources that survive, in the gathered
      order. */
  lemma {:induction false} UniqueSourcesSubsequence(sources: seq<Source>, content: string)
    requires Rewrite(sources, content).Ok?
    ensures IsSubsequence(Rewrite(sources, content).value.uniqueSources, sources)
    decreases |sources|
  {
    if sources != [] {
      var init, s := sources[..|sources| - 1], sources[|sources| - 1];
      UniqueSourcesSubsequence(init, content);
      var a := Rewrite(init, content).value;
      assert sources == init + [s];
      SubsequenceExtend(a.uniqueSources, init, s);
      var kept := a.uniqueSources + [s];
      assert kept[..|kept| - 1] == a.uniqueSources;
    }
  }

  /** Every gathered source is either kept, after its short URL was found in
      the answer as rewritten so far, or dropped, with the answer unchanged by
      it. */
  lemma KeptIffFound(sources: seq<Source>, s: Source, content: string)
    requires Rewrite(sources, content).Ok? && s.shortUrl.Some?
    ensures var a := Rewrite(sources, content).value;
            var b := Rewrite(sources + [s], content);
            b.Ok? &&
            (Contains(a.content, s.shortUrl.value) ==> b.value.uniqueSources == a.uniqueSources + [s]) &&
            (Contains(a.content, s.shortUrl.value) && s.shortUrl.value != [] ==>
               b.value.content == Join(Split(a.content, s.shortUrl.value), s.value)) &&
            (!Contains(a.content, s.shortUrl.value) ==> b.value == a)
  {
    var ss := sources + [s];
    assert ss[..|ss| - 1] == sources;
    var a := Rewrite(sources, content).value;
    if s.shortUrl.value != [] {
      ReplaceIsJoinOfSplit(a.content, s.shortUrl.value, s.value);
    } else {
      assert OccursAt(a.content, s.shortUrl.value, 0);
    }
  }

  /** An answer that cites none of the sources is returned as the model wrote
      it, with no sources kept. */
  lemma {:induction false} NothingCitedUnchanged(sources: seq<Source>, content: string)
    requires forall s :: s in sources ==> s.shortUrl.Some? && !Contains(content, s.shortUrl.value)
    ensures Rewrite(sources, content) == Ok(Answer(content, []))
    decreases |sources|
  {
    if sources != [] {
      var init := sources[..|sources| - 1];
      assert forall s :: s in init ==> s in sources;
      NothingCitedUnchanged(init, content);
    }
  }

  /** A source without a short URL makes the loop raise. */
  lemma MissingShortUrlRaises(sources: seq<Source>, content: string, k: nat)
    requires k < |sources| && sources[k].shortUrl.None?
    ensures Rewrite(sources, content).Err?
  {
    var pre := sources[..k + 1];
    assert pre[..k] == sources[..k];
    FailureSticks(sources, content, k + 1);
  }

  /** The sources of a web-research step always carry short URLs, so the
      answer step never raises on the sources a run gathers. */
  lemma GatheredSourcesRewrite(sources: seq<Source>, content: string)
    requires forall s :: s in sources ==> s.shortUrl.Some?
    ensures Rewrite(sources, content).Ok?
    decreases |sources|
  {
    if sources != [] {
      var init := sources[..|sources| - 1];
      assert forall s :: s in init ==> s in sources;
      GatheredSourcesRewrite(init, content);
    }
  }
}
