/** The research agent's text utilities: the research topic taken from a
    conversation, the short-URL map of one search's grounding sources, and the
    citation records read from a search response's grounding metadata. */
module AgentUtils {
  import opened Wrappers
  import opened PyText
  import opened Messages

  // ===========================================================================
  // get_research_topic
  // ===========================================================================

  /** The line a message contributes to a transcript: user and assistant
      messages are tagged with their role, other message types add nothing. */
  function TranscriptLine(m: Message): string {
    match m.kind
    case Human => "User: " + m.content + "\n"
    case Ai => "Assistant: " + m.content + "\n"
    case _ => ""
  }

  /** The role-tagged transcript of a conversation, in message order. */
  function Transcript(messages: seq<Message>): string
    decreases |messages|
  {
    if messages == [] then ""
    else Transcript(messages[..|messages| - 1]) + TranscriptLine(messages[|messages| - 1])
  }

  /** `get_research_topic`: a single message is the topic as it stands; any
      other history, the empty one included, becomes its transcript. */
  method GetResearchTopic(messages: seq<Message>) returns (topic: string)
    ensures |messages| == 1 ==> topic == messages[0].content
    ensures |messages| != 1 ==> topic == Transcript(messages)
    ensures messages == [] ==> topic == ""
  {
    if |messages| == 1 {
      topic := messages[|messages| - 1].content;
    } else {
      topic := "";
      for i := 0 to |messages|
        invariant topic == Transcript(messages[..i])
      {
        var message := messages[i];
        assert messages[..i + 1] == messages[..i] + [message];
        TranscriptSnoc(messages[..i], message);
        if message.kind == Human {
          topic := topic + ("User: " + message.content + "\n");
        } else if message.kind == Ai {
          topic := topic + ("Assistant: " + message.content + "\n");
        }
      }
      assert messages[..|messages|] == messages;
    }
  }

  lemma TranscriptSnoc(ms: seq<Message>, m: Message)
    ensures Transcript(ms + [m]) == Transcript(ms) + TranscriptLine(m)
  {
    assert (ms + [m])[..|ms|] == ms;
  }

  /** The transcript of two histories one after the other is the two
      transcripts one after the other: lines keep the order of their messages. */
  lemma {:induction false} TranscriptConcat(a: seq<Message>, b: seq<Message>)
    ensures Transcript(a + b) == Transcript(a) + Transcript(b)
    decreases |b|
  {
    if b == [] {
      assert a + b == a;
    } else {
      var b', m := b[..|b| - 1], b[|b| - 1];
      assert b == b' + [m];
      assert a + b == (a + b') + [m];
      TranscriptConcat(a, b');
      calc {
        Transcript(a + b);
        { TranscriptSnoc(a + b', m); }
        Transcript(a + b') + TranscriptLine(m);
        (Transcript(a) + Transcript(b')) + TranscriptLine(m);
        { ConcatAssoc(Transcript(a), Transcript(b'), TranscriptLine(m)); }
        Transcript(a) + (Transcript(b') + TranscriptLine(m));
        { TranscriptSnoc(b', m); }
        Transcript(a) + Transcript(b);
      }
    }
  }

  /** System and tool messages leave no trace in a transcript. */
  lemma TranscriptSkipsOtherKinds(a: seq<Message>, m: Message, b: seq<Message>)
    requires m.kind != Human && m.kind != Ai
    ensures Transcript(a + [m] + b) == Transcript(a + b)
  {
    TranscriptConcat(a + [m], b);
    TranscriptSnoc(a, m);
    TranscriptConcat(a, b);
    assert TranscriptLine(m) == "";
    assert Transcript(a) + TranscriptLine(m) == Transcript(a);
  }

  // ===========================================================================
  // Grounding metadata of a search response
  // ===========================================================================

  /** The web part of a grounding chunk: its URI and its title, which may be
      `None`. */
  datatype Web = Web(uri: string, title: Option<string>)

  /** A grounding chunk: `chunk.web`, which may be `None`. */
  datatype Chunk = Chunk(web: Option<Web>)

  /** The text span a grounding support covers; either index may be absent. */
  datatype SupportSegment = SupportSegment(startIndex: Option<int>, endIndex: Option<int>)

  /** A grounding support: its span and the indices of the chunks that
      support it, either of which may be `None`. */
  datatype Support = Support(segment: Option<SupportSegment>, chunkIndices: Option<seq<int>>)

  /** The grounding metadata of a candidate: its supports and its chunks,
      either of which may be `None`. */
  datatype Metadata = Metadata(supports: Option<seq<Support>>, chunks: Option<seq<Chunk>>)

  /** A response candidate, with or without grounding metadata. */
  datatype Candidate = Candidate(metadata: Option<Metadata>)

  /** A search response: its text and its candidates. */
  datatype Response = Response(text: string, candidates: seq<Candidate>)

  /** A source link of a citation: the label shown, the short URL (`None` when
      the chunk's URI is not in the resolved map) and the original URI. */
  datatype Source = Source(title: string, shortUrl: Option<string>, value: string)

  /** A citation record: a span of the response text and its source links. */
  datatype Citation = Citation(startIndex: int, endIndex: int, segments: seq<Source>)

  /** The messages of the errors Python raises on a `None` where these
      functions expect a list or an object. */
  const NotIterable: string := "'NoneType' object is not iterable"
  const NotSubscriptable: string := "'NoneType' object is not subscriptable"
  const NoUriAttribute: string := "'NoneType' object has no attribute 'uri'"

  // ===========================================================================
  // resolve_urls
  // ===========================================================================

  const ShortUrlPrefix: string := "https://vertexaisearch.cloud.google.com/id/"

  /** The short form of the source first seen at position `idx` of search
      `id`. */
  function ShortUrl(id: int, idx: nat): string {
    ShortUrlPrefix + IntToStr(id) + "-" + NatToStr(idx)
  }

  /** Every chunk has its web part, so `site.web.uri` can be read. */
  predicate AllWeb(chunks: seq<Chunk>) {
    forall i :: 0 <= i < |chunks| ==> chunks[i].web.Some?
  }

  function Uris(chunks: seq<Chunk>): (urls: seq<string>)
    requires AllWeb(chunks)
    ensures |urls| == |chunks|
    ensures forall i :: 0 <= i < |chunks| ==> urls[i] == chunks[i].web.value.uri
  {
    seq(|chunks|, i requires 0 <= i < |chunks| => chunks[i].web.value.uri)
  }

  /** The position of the first occurrence of `u` in `urls`. */
  function FirstIndex(urls: seq<string>, u: string): (k: nat)
    requires u in urls
    ensures k < |urls| && urls[k] == u && u !in urls[..k]
  {
    if urls[0] == u then 0
    else
      var k := 1 + FirstIndex(urls[1..], u);
      assert urls[..k] == [urls[0]] + urls[1..][..k - 1];
      k
  }

  /** The map `resolve_urls` is meant to build: every distinct URI of the
      chunks, mapped to the short form of its first position. */
  function ResolvedMap(chunks: seq<Chunk>, id: int): map<string, string>
    requires AllWeb(chunks)
  {
    map u | u in Uris(chunks) :: ShortUrl(id, FirstIndex(Uris(chunks), u))
  }

  /** `resolve_urls`: the chunk URIs read in one comprehension, which raises
      `AttributeError` on a chunk whose web part is `None`, then one pass over
      them that gives each URI not yet in the map the short form of its own
      position. */
  method ResolveUrls(chunks: seq<Chunk>, id: int) returns (resolved: Result<map<string, string>>)
    ensures resolved.Err? <==> !AllWeb(chunks)
    ensures resolved.Ok? ==> resolved.value.Keys == set u | u in Uris(chunks)
    ensures resolved.Ok? ==>
              forall u :: u in resolved.value ==> resolved.value[u] == ShortUrl(id, FirstIndex(Uris(chunks), u))
    ensures resolved.Ok? ==> resolved.value == ResolvedMap(chunks, id)
  {
    if !AllWeb(chunks) {
      return Err(NoUriAttribute);
    }
    var urls := Uris(chunks);
    var m := ShortenAll(urls, id);
    resolved := Ok(m);
  }

  /** The loop of `resolve_urls`: one pass over the URIs that gives each URI
      not yet in the map the short form of its own position. */
  method ShortenAll(urls: seq<string>, id: int) returns (m: map<string, string>)
    ensures m.Keys == set u | u in urls
    ensures forall u :: u in m ==> m[u] == ShortUrl(id, FirstIndex(urls, u))
  {
    m := map[];
    for idx := 0 to |urls|
      invariant m.Keys == set u | u in urls[..idx]
      invariant forall u :: u in m ==> u in urls && m[u] == ShortUrl(id, FirstIndex(urls, u))
    {
      var url := urls[idx];
      assert urls[..idx + 1] == urls[..idx] + [url];
      ElementsSnoc(urls[..idx], url);
      if url !in m {
        FirstIndexAt(urls, idx);
        m := m[url := ShortUrl(id, idx)];
      }
    }
    assert urls[..|urls|] == urls;
  }

  /** An element not seen before its position is first seen there. */
  lemma FirstIndexAt(urls: seq<string>, i: nat)
    requires i < |urls| && urls[i] !in urls[..i]
    ensures FirstIndex(urls, urls[i]) == i
  {
  }

  lemma ElementsSnoc(s: seq<string>, x: string)
    ensures (set u | u in s + [x]) == (set u | u in s) + {x}
  {
  }

  /** Short forms of one search differ when their positions differ. */
  lemma ShortUrlInjective(id: int, a: nat, b: nat)
    requires ShortUrl(id, a) == ShortUrl(id, b)
    ensures a == b
  {
    var p := ShortUrlPrefix + IntToStr(id) + "-";
    assert ShortUrl(id, a) == p + NatToStr(a);
    assert ShortUrl(id, b) == p + NatToStr(b);
    assert NatToStr(a) == (p + NatToStr(a))[|p|..];
    assert NatToStr(b) == (p + NatToStr(b))[|p|..];
    NatToStrInjective(a, b);
  }

  /** Distinct URIs get distinct short forms. */
  lemma ResolvedMapInjective(chunks: seq<Chunk>, id: int, u: string, v: string)
    requires AllWeb(chunks)
    requires u in ResolvedMap(chunks, id) && v in ResolvedMap(chunks, id) && u != v
    ensures ResolvedMap(chunks, id)[u] != ResolvedMap(chunks, id)[v]
  {
    var urls := Uris(chunks);
    var a, b := FirstIndex(urls, u), FirstIndex(urls, v);
    if ShortUrl(id, a) == ShortUrl(id, b) {
      ShortUrlInjective(id, a, b);
    }
  }

  lemma {:induction false} DistinctElementsBound(s: seq<string>)
    ensures |set x | x in s| <= |s|
    decreases |s|
  {
    if s != [] {
      var t := s[..|s| - 1];
      DistinctElementsBound(t);
      assert s == t + [s[|s| - 1]];
      assert (set x | x in s) == (set x | x in t) + {s[|s| - 1]};
    }
  }

  /** The map has at most one entry per chunk. */
  lemma ResolvedMapSize(chunks: seq<Chunk>, id: int)
    requires AllWeb(chunks)
    ensures |ResolvedMap(chunks, id)| <= |chunks|
  {
    var m := ResolvedMap(chunks, id);
    assert m.Keys == set u | u in Uris(chunks);
    DistinctElementsBound(Uris(chunks));
  }

  /** Every occurrence of a URI, the repeated ones included, resolves to the
      short form of the URI's first position, which is at or before it. */
  lemma RepeatedUrlKeepsFirstShortForm(chunks: seq<Chunk>, id: int, j: nat)
    requires AllWeb(chunks) && j < |chunks|
    ensures chunks[j].web.value.uri in ResolvedMap(chunks, id)
    ensures exists k :: 0 <= k <= j && chunks[k].web.value.uri == chunks[j].web.value.uri &&
              ResolvedMap(chunks, id)[chunks[j].web.value.uri] == ShortUrl(id, k) &&
              (forall i :: 0 <= i < k ==> chunks[i].web.value.uri != chunks[j].web.value.uri)
  {
    var urls := Uris(chunks);
    var u := chunks[j].web.value.uri;
    assert urls[j] == u;
    var k := FirstIndex(urls, u);
    forall i | 0 <= i < k ensures chunks[i].web.value.uri != u {
      assert urls[..k][i] == chunks[i].web.value.uri;
    }
  }

  // ===========================================================================
  // get_citations
  // ===========================================================================

  /** `chunks[ind]` with Python indexing: negative indices count from the end
      and an index out of range is an `IndexError`. */
  function ChunkAt(chunks: seq<Chunk>, ind: int): (r: Option<Chunk>)
    ensures r.Some? <==> -|chunks| <= ind < |chunks|
    ensures r.Some? ==> r.value in chunks
  {
    if 0 <= ind < |chunks| then Some(chunks[ind])
    else if -|chunks| <= ind < 0 then Some(chunks[|chunks| + ind])
    else None
  }

  /** `title.split(".")[:-1][0]`: the text before the first dot; a title
      without a dot is an `IndexError`. */
  function Label(title: string): (r: Option<string>)
    ensures r.Some? <==> '.' in title
    ensures r.Some? ==> |r.value| < |title| && r.value == title[..|r.value|] &&
                        title[|r.value|] == '.' && '.' !in r.value
  {
    if title == [] then None
    else if title[0] == '.' then Some([])
    else
      match Label(title[1..])
      case None => None
      case Some(rest) =>
        assert title[1..][..|rest|] == title[1..|rest| + 1];
        Some([title[0]] + rest)
  }

  /** The source link for one chunk index, or `None` when building it raises
      one of the errors the loop swallows: an index out of range, a chunk
      whose web part is `None`, a `None` title or a title without a dot. */
  function SourceFor(chunks: seq<Chunk>, resolved: map<string, string>, ind: int): Option<Source> {
    match ChunkAt(chunks, ind)
    case None => None
    case Some(chunk) =>
      match chunk.web
      case None => None
      case Some(web) =>
        match web.title
        case None => None
        case Some(title) =>
          match Label(title)
          case None => None
          case Some(shown) =>
            Some(Source(shown, if web.uri in resolved then Some(resolved[web.uri]) else None, web.uri))
  }

  /** The source links of a support, in chunk-index order. */
  function SourcesFor(chunks: seq<Chunk>, resolved: map<string, string>, inds: seq<int>): seq<Source>
    decreases |inds|
  {
    if inds == [] then []
    else
      SourcesFor(chunks, resolved, inds[..|inds| - 1]) +
      (match SourceFor(chunks, resolved, inds[|inds| - 1]) case Some(s) => [s] case None => [])
  }

  /** The chunk indices of a support; `None` is falsy and names no chunk. */
  function Indices(support: Support): seq<int> {
    support.chunkIndices.GetOr([])
  }

  /** The citation a support yields: none without a segment or without an end
      index; a missing start index reads as 0. */
  function CitationFor(chunks: seq<Chunk>, resolved: map<string, string>, support: Support): (r: Option<Citation>)
    ensures r.Some? <==> support.segment.Some? && support.segment.value.endIndex.Some?
    ensures r.Some? ==> r.value.endIndex == support.segment.value.endIndex.value
    ensures r.Some? && support.segment.value.startIndex.None? ==> r.value.startIndex == 0
    ensures r.Some? && support.segment.value.startIndex.Some? ==>
              r.value.startIndex == support.segment.value.startIndex.value
  {
    match support.segment
    case None => None
    case Some(seg) =>
      match seg.endIndex
      case None => None
      case Some(end) =>
        Some(Citation(seg.startIndex.GetOr(0), end, SourcesFor(chunks, resolved, Indices(support))))
  }

  /** The citations of a run of supports, in support order. */
  function CitationsFor(chunks: seq<Chunk>, resolved: map<string, string>, supports: seq<Support>): seq<Citation>
    decreases |supports|
  {
    if supports == [] then []
    else
      CitationsFor(chunks, resolved, supports[..|supports| - 1]) +
      (match CitationFor(chunks, resolved, supports[|supports| - 1]) case Some(c) => [c] case None => [])
  }

  /** A support whose citation indexes the chunk list: it has a segment with
      an end index and names at least one chunk. */
  predicate ReadsChunks(support: Support) {
    support.segment.Some? && support.segment.value.endIndex.Some? && Indices(support) != []
  }

  /** What `get_citations` returns or raises for a response. Iterating `None`
      supports raises `TypeError`, and so does indexing `None` chunks, which
      the loop's `except` clause does not catch. */
  function Citations(response: Option<Response>, resolved: map<string, string>): Result<seq<Citation>> {
    if response.None? || response.value.candidates == [] then Ok([])
    else
      match response.value.candidates[0].metadata
      case None => Ok([])
      case Some(md) =>
        match md.supports
        case None => Err(NotIterable)
        case Some(supports) =>
          if md.chunks.None? && exists k :: 0 <= k < |supports| && ReadsChunks(supports[k]) then Err(NotSubscriptable)
          else Ok(CitationsFor(md.chunks.GetOr([]), resolved, supports))
  }

  /** `get_citations`: a loop over the first candidate's grounding supports
      that appends one citation per usable support, its source links collected
      by an inner loop over the support's chunk indices. */
  method GetCitations(response: Option<Response>, resolved: map<string, string>) returns (citations: Result<seq<Citation>>)
    ensures citations == Citations(response, resolved)
  {
    if response.None? || response.value.candidates == [] {
      return Ok([]);
    }
    var candidate := response.value.candidates[0];
    if candidate.metadata.None? {
      return Ok([]);
    }
    var md := candidate.metadata.value;
    if md.supports.None? {
      return Err(NotIterable);
    }
    var supports := md.supports.value;
    var chunks := md.chunks.GetOr([]);
    var found: seq<Citation> := [];
    for i := 0 to |supports|
      invariant found == CitationsFor(chunks, resolved, supports[..i])
      invariant md.chunks.None? ==> forall k :: 0 <= k < i ==> !ReadsChunks(supports[k])
    {
      var support := supports[i];
      assert supports[..i + 1][..i] == supports[..i];
      if support.segment.None? {
        continue;
      }
      var startIndex := if support.segment.value.startIndex.Some? then support.segment.value.startIndex.value else 0;
      if support.segment.value.endIndex.None? {
        continue;
      }
      var segments: seq<Source> := [];
      var inds := Indices(support);
      for j := 0 to |inds|
        invariant segments == SourcesFor(chunks, resolved, inds[..j])
        invariant md.chunks.None? ==> j == 0
      {
        if md.chunks.None? {
          assert ReadsChunks(supports[i]);
          return Err(NotSubscriptable);
        }
        assert inds[..j + 1][..j] == inds[..j];
        var chunk := ChunkAt(chunks, inds[j]);
        if chunk.Some? && chunk.value.web.Some? {
          var web := chunk.value.web.value;
          var resolvedUrl := if web.uri in resolved then Some(resolved[web.uri]) else None;
          if web.title.Some? {
            var shown := Label(web.title.value);
            if shown.Some? {
              segments := segments + [Source(shown.value, resolvedUrl, web.uri)];
            }
          }
        }
      }
      assert inds[..|inds|] == inds;
      assert md.chunks.None? ==> !ReadsChunks(supports[i]);
      found := found + [Citation(startIndex, support.segment.value.endIndex.value, segments)];
    }
    assert supports[..|supports|] == supports;
    return Ok(found);
  }

  /** No response, no candidate, no grounding metadata or an empty list of
      supports: no citations. */
  lemma CitationsWithoutGrounding(response: Option<Response>, resolved: map<string, string>)
    requires response.None? || response.value.candidates == [] ||
             response.value.candidates[0].metadata.None? ||
             response.value.candidates[0].metadata.value.supports == Some([])
    ensures Citations(response, resolved) == Ok([])
  {
  }

  /** `get_citations` raises exactly when the supports are `None`, or when the
      chunks are `None` and some support would index them; `None` chunks are
      harmless to the other supports. */
  lemma CitationsRaise(response: Response, resolved: map<string, string>)
    requires response.candidates != [] && response.candidates[0].metadata.Some?
    ensures var md := response.candidates[0].metadata.value;
            Citations(Some(response), resolved).Err? <==>
              md.supports.None? ||
              (md.chunks.None? && exists k :: 0 <= k < |md.supports.value| && ReadsChunks(md.supports.value[k]))
    ensures var md := response.candidates[0].metadata.value;
            md.supports.Some? && md.chunks.None? && Citations(Some(response), resolved).Ok? ==>
              Citations(Some(response), resolved).value == CitationsFor([], resolved, md.supports.value)
  {
  }

  /** The citations of two runs of supports are the two lists one after the
      other: citations come out in support order. */
  lemma {:induction false} CitationsForConcat(chunks: seq<Chunk>, resolved: map<string, string>, a: seq<Support>, b: seq<Support>)
    ensures CitationsFor(chunks, resolved, a + b) == CitationsFor(chunks, resolved, a) + CitationsFor(chunks, resolved, b)
    decreases |b|
  {
    if b == [] {
      assert a + b == a;
    } else {
      var b' := b[..|b| - 1];
      assert (a + b)[..|a + b| - 1] == a + b';
      CitationsForConcat(chunks, resolved, a, b');
    }
  }

  /** A single support yields exactly one citation when it has a segment with
      an end index, and none otherwise. */
  lemma CitationsForOne(chunks: seq<Chunk>, resolved: map<string, string>, s: Support)
    ensures |CitationsFor(chunks, resolved, [s])| == (if s.segment.Some? && s.segment.value.endIndex.Some? then 1 else 0)
    ensures CitationFor(chunks, resolved, s).Some? ==> CitationsFor(chunks, resolved, [s]) == [CitationFor(chunks, resolved, s).value]
  {
    assert [s][..0] == [];
  }

  /** Every source link points at one of the response's chunks, and its label
      is the part of that chunk's title before the first dot. */
  lemma {:induction false} SourcesComeFromChunks(chunks: seq<Chunk>, resolved: map<string, string>, inds: seq<int>)
    ensures |SourcesFor(chunks, resolved, inds)| <= |inds|
    ensures forall s :: s in SourcesFor(chunks, resolved, inds) ==>
              exists c :: c in chunks && c.web.Some? && c.web.value.uri == s.value &&
                c.web.value.title.Some? && Label(c.web.value.title.value) == Some(s.title)
    decreases |inds|
  {
    if inds != [] {
      SourcesComeFromChunks(chunks, resolved, inds[..|inds| - 1]);
    }
  }

  /** With the map resolved from the same chunks, every source link has a
      short URL, and it is the one the map gives its URI. */
  lemma {:induction false} SourcesResolved(chunks: seq<Chunk>, id: int, inds: seq<int>)
    requires AllWeb(chunks)
    ensures forall s :: s in SourcesFor(chunks, ResolvedMap(chunks, id), inds) ==>
              s.value in ResolvedMap(chunks, id) && s.shortUrl == Some(ResolvedMap(chunks, id)[s.value])
    decreases |inds|
  {
    if inds != [] {
      SourcesResolved(chunks, id, inds[..|inds| - 1]);
      match ChunkAt(chunks, inds[|inds| - 1])
      case None =>
      case Some(chunk) =>
        var k :| 0 <= k < |chunks| && chunks[k] == chunk;
        assert Uris(chunks)[k] == chunk.web.value.uri;
    }
  }

  /** With the map resolved from the same chunks, every source link of every
      citation has a short URL. */
  lemma {:induction false} CitationsResolved(chunks: seq<Chunk>, id: int, supports: seq<Support>)
    requires AllWeb(chunks)
    ensures forall c, s :: c in CitationsFor(chunks, ResolvedMap(chunks, id), supports) && s in c.segments ==>
              s.shortUrl.Some? && s.value in ResolvedMap(chunks, id)
    decreases |supports|
  {
    if supports != [] {
      var last := supports[|supports| - 1];
      CitationsResolved(chunks, id, supports[..|supports| - 1]);
      SourcesResolved(chunks, id, Indices(last));
    }
  }
}
