/**
 * The `search_bhl` entrypoint: generate parameters, query the BHL
 * publication search API, interpret its envelope, and report through the
 * response context (process logs, an artifact, a reply).
 *
 * The language-model call, the HTTP exchange and JSON decoding are inputs;
 * what `run` makes visible is recorded, in order, in a `Session`.
 */
module Pipeline {
  import opened Wrappers
  import opened Formatting
  import opened Schema
  import opened ParameterMapping
  import opened Query

  const ApiUrl: string := "https://www.biodiversitylibrary.org/api3"

  const ProcessSummary: string := "Searching BHL"
  const GeneratingMessage: string := "Generating search parameters for BHL API"
  const GeneratedMessage: string := "Generated search parameters"
  const SendingMessage: string := "Sending a GET request to the BHL publication search API"
  const HttpErrorMessage: string := "An error occurred while querying BHL"
  const ApiFailurePrefix: string := "Something went wrong! Message from the BHL API: "
  const WarningPrefix: string := "API returned an error message: "
  const ArtifactMimetype: string := "application/json"
  const ArtifactDescription: string := "BHL search results"

  /** The two replies `run` can send: a summary of a page of results, or "no matches". */
  datatype ReplyText =
    | ResultsSummary(count: int, page: int, pageSize: int)
    | NoMatchingPublications

  /** The fixed pieces of the summary reply, around its three numbers. */
  const SummaryLead: string := "The BHL API returned "
  const SummaryPageLead: string := " publications in page "
  const SummarySizeLead: string := " (page size "
  const SummaryTail: string :=
    "). The API URL I provided will not work directly, because it requires an access token parameter. To get" +
    " around this, I have provided the API response in an artifact."
  const NoMatchesTail: string := "no matching publications."

  /** The text of a reply, as the f-strings of lines 99-101 and 104 render it. */
  function Render(r: ReplyText): string {
    match r
    case ResultsSummary(count, page, pageSize) =>
      SummaryLead + Decimal(count) + SummaryPageLead + Decimal(page) + SummarySizeLead + Decimal(pageSize) + SummaryTail
    case NoMatchingPublications =>
      SummaryLead + NoMatchesTail
  }

  /** The metadata attached to the results artifact. */
  datatype ArtifactMetadata = ArtifactMetadata(dataSource: string, apiUrl: string, apiParameters: map<string, Value>)

  /** Something a run makes visible: through the response context, or the outbound search request. */
  datatype Event =
    | BeginProcess(summary: string)
    | Log(message: string, data: Option<map<string, Value>>)
    | Get(url: string, query: map<string, Value>)
    | Artifact(mimetype: string, description: string, content: seq<bv8>, metadata: ArtifactMetadata)
    | Reply(text: ReplyText)

  /** How the HTTP exchange ended: a 2xx response (with its body decoded, if it was JSON), or `HTTPError`. */
  datatype HttpOutcome =
    | HttpResponse(content: seq<bv8>, json: Option<Json>)
    | HttpError

  /** Exceptions that escape `run`. */
  datatype Uncaught =
    | TermsNotAList    // `" OR ".join(None)`
    | MalformedJson    // `api_response.json()` raised
    | InvalidEnvelope  // `PublicationSearchResponse(**body)` raised

  /** How a run ends. */
  datatype Exit =
    | GenerationFailed
    | TransportFailed
    | ApiFailed(message: string)
    | NoResults
    | Published(count: nat)
    | Raised(error: Uncaught)

  /** Whether the outbound search request was made. */
  predicate SearchIssued(e: Exit) {
    e != GenerationFailed && e != Raised(TermsNotAList)
  }

  /** How the pipeline ends once a well-formed envelope has come back. */
  function EnvelopeOutcome(resp: SearchResponse): Exit {
    if resp.status != Some("ok") then ApiFailed(OptionalText(resp.errorMessage))
    else if |resp.result| == 0 then NoResults
    else Published(|resp.result|)
  }

  /** How the pipeline ends once the search request has been made. */
  function SearchOutcome(http: HttpOutcome): Exit {
    match http
    case HttpError => TransportFailed
    case HttpResponse(_, json) =>
      if json.None? then Raised(MalformedJson)
      else
        var parsed := ParseSearchResponse(json.value);
        if parsed.Err? then Raised(InvalidEnvelope) else EnvelopeOutcome(parsed.value)
  }

  /** How the pipeline ends for the given outcomes of its external calls. */
  function Outcome(gen: Generation, http: HttpOutcome): Exit {
    match GenerateSearchParameters(gen)
    case Err(AIGenerationError(_)) => GenerationFailed
    case Err(TermsNotIterable) => Raised(TermsNotAList)
    case Ok(_) => SearchOutcome(http)
  }

  /** The warning logged when an "ok" envelope still carries an error message. */
  function WarningEvents(resp: SearchResponse): seq<Event> {
    if resp.errorMessage.Some? && resp.errorMessage.value != "" then
      [Log(WarningPrefix + resp.errorMessage.value, None)]
    else
      []
  }

  /** The artifact and reply for the results of an "ok" envelope. */
  function ResultEvents(p: SimpleParams, token: Option<string>, content: seq<bv8>, resp: SearchResponse): seq<Event> {
    if |resp.result| > 0 then
      [Artifact(ArtifactMimetype, ArtifactDescription, content, ArtifactMetadata("BHL", ApiUrl, SentQuery(p, token))),
       Reply(ResultsSummary(|resp.result|, p.page, p.pageSize))]
    else
      [Reply(NoMatchingPublications)]
  }

  /** The events that interpret a well-formed envelope. */
  function EnvelopeEvents(p: SimpleParams, token: Option<string>, content: seq<bv8>, resp: SearchResponse): seq<Event> {
    if resp.status != Some("ok") then
      [Log(ApiFailurePrefix + OptionalText(resp.errorMessage), None)]
    else
      WarningEvents(resp) + ResultEvents(p, token, content, resp)
  }

  /** The events after the search request, given the parameters it was made with. */
  function AfterSearch(p: SimpleParams, token: Option<string>, http: HttpOutcome): seq<Event> {
    match http
    case HttpError => [Log(HttpErrorMessage, None)]
    case HttpResponse(content, json) =>
      if json.None? then []
      else
        var parsed := ParseSearchResponse(json.value);
        if parsed.Err? then [] else EnvelopeEvents(p, token, content, parsed.value)
  }

  /** The events from the logged parameters on, once generation has succeeded. */
  function SearchEvents(p: SimpleParams, token: Option<string>, http: HttpOutcome): seq<Event> {
    [Log(GeneratedMessage, Some(ExcludeNone(Dump(p))))] +
    ([Log(SendingMessage, Some(Pruned(OutboundQuery(p)))), Get(ApiUrl, SentQuery(p, token))] +
     AfterSearch(p, token, http))
  }

  /** The events every run begins with. */
  const Prelude: seq<Event> := [BeginProcess(ProcessSummary), Log(GeneratingMessage, None)]

  /** The events after the prelude, given what parameter generation ended with. */
  function AfterGeneration(generated: Result<SimpleParams, GenerationError>, token: Option<string>, http: HttpOutcome)
    : seq<Event>
  {
    match generated
    case Ok(p) => SearchEvents(p, token, http)
    case Err(AIGenerationError(message)) => [Log(message, None)]
    case Err(TermsNotIterable) => []
  }

  /** Everything a run makes visible, in order. */
  function Trace(gen: Generation, token: Option<string>, http: HttpOutcome): seq<Event> {
    Prelude + AfterGeneration(GenerateSearchParameters(gen), token, http)
  }

  /** The response context of one request, plus the outbound requests made for it. */
  class Session {
    var events: seq<Event>

    constructor ()
      ensures events == []
    {
      events := [];
    }

    method Begin(summary: string)
      modifies this
      ensures events == old(events) + [BeginProcess(summary)]
    {
      events := events + [BeginProcess(summary)];
    }

    method LogLine(message: string, data: Option<map<string, Value>>)
      modifies this
      ensures events == old(events) + [Log(message, data)]
    {
      events := events + [Log(message, data)];
    }

    method SendGet(url: string, query: map<string, Value>)
      modifies this
      ensures events == old(events) + [Get(url, query)]
    {
      events := events + [Get(url, query)];
    }

    method CreateArtifact(mimetype: string, description: string, content: seq<bv8>, metadata: ArtifactMetadata)
      modifies this
      ensures events == old(events) + [Artifact(mimetype, description, content, metadata)]
    {
      events := events + [Artifact(mimetype, description, content, metadata)];
    }

    method SendReply(text: ReplyText)
      modifies this
      ensures events == old(events) + [Reply(text)]
    {
      events := events + [Reply(text)];
    }
  }

  /**
   * `_pub_search`: adds the credential to the caller's dictionary in place,
   * then sends it. `raise_for_status` turns a non-2xx status into `HttpError`,
   * which `http` already reports.
   */
  method PubSearch(session: Session, apiParams: QueryMap, token: Option<string>, http: HttpOutcome)
    returns (response: HttpOutcome)
    modifies session, apiParams
    ensures apiParams.entries == old(apiParams.entries) + map["apikey" := TokenValue(token)]
    ensures session.events == old(session.events) + [Get(ApiUrl, apiParams.entries)]
    ensures response == http
  {
    apiParams.Update(map["apikey" := TokenValue(token)]);
    session.SendGet(ApiUrl, apiParams.entries);
    response := http;
  }

  /** Concatenation regroups; used to line up the events a method appends step by step. */
  lemma AppendAssociative(a: seq<Event>, b: seq<Event>, c: seq<Event>)
    ensures (a + b) + c == a + (b + c)
  {
  }

  /** `run`, lines 77-104: report a well-formed envelope. */
  method Interpret(session: Session, params: SimpleParams, apiParams: QueryMap, token: Option<string>,
                   content: seq<bv8>, searchResults: SearchResponse)
    returns (exit: Exit)
    requires apiParams.entries == SentQuery(params, token)
    modifies session
    ensures session.events == old(session.events) + EnvelopeEvents(params, token, content, searchResults)
    ensures exit == EnvelopeOutcome(searchResults)
  {
    if searchResults.status != Some("ok") {
      session.LogLine(ApiFailurePrefix + OptionalText(searchResults.errorMessage), None);
      return ApiFailed(OptionalText(searchResults.errorMessage));
    }
    ghost var start := session.events;
    if searchResults.errorMessage.Some? && searchResults.errorMessage.value != "" {
      session.LogLine(WarningPrefix + searchResults.errorMessage.value, None);
    }
    ghost var warned := session.events;
    assert warned == start + WarningEvents(searchResults);

    var numPubs := |searchResults.result|;
    if numPubs > 0 {
      session.CreateArtifact(ArtifactMimetype, ArtifactDescription, content,
        ArtifactMetadata("BHL", ApiUrl, apiParams.entries));
      session.SendReply(ResultsSummary(numPubs, params.page, params.pageSize));
      exit := Published(numPubs);
    } else {
      session.SendReply(NoMatchingPublications);
      exit := NoResults;
    }
    assert session.events == warned + ResultEvents(params, token, content, searchResults);
    AppendAssociative(start, WarningEvents(searchResults), ResultEvents(params, token, content, searchResults));
  }

  /** `run`, lines 71-104: the response to the request sent as `apiParams`. */
  method HandleResponse(session: Session, params: SimpleParams, apiParams: QueryMap, token: Option<string>, response: HttpOutcome)
    returns (exit: Exit)
    requires apiParams.entries == SentQuery(params, token)
    modifies session
    ensures session.events == old(session.events) + AfterSearch(params, token, response)
    ensures exit == SearchOutcome(response)
  {
    if response.HttpError? {
      session.LogLine(HttpErrorMessage, None);
      return TransportFailed;
    }
    if response.json.None? {
      return Raised(MalformedJson);
    }
    var parsed := ParseSearchResponse(response.json.value);
    if parsed.Err? {
      return Raised(InvalidEnvelope);
    }
    exit := Interpret(session, params, apiParams, token, response.content, parsed.value);
  }

  /**
   * `run`, lines 60-74: build the query dictionary, log its truthy entries,
   * and send it; the returned dictionary is the one `_pub_search` updated.
   */
  method SendQuery(session: Session, params: SimpleParams, token: Option<string>, http: HttpOutcome)
    returns (apiParams: QueryMap, response: HttpOutcome)
    modifies session
    ensures fresh(apiParams)
    ensures apiParams.entries == SentQuery(params, token)
    ensures session.events == old(session.events) +
      [Log(SendingMessage, Some(Pruned(OutboundQuery(params)))), Get(ApiUrl, SentQuery(params, token))]
    ensures response == http
  {
    apiParams := new QueryMap.FromDump(Dump(params));
    apiParams.Update(Markers + apiParams.entries);
    DoubleMergeIsOverlay(FalsyAsEmpty(Dump(params)), Markers);
    assert apiParams.entries == OutboundQuery(params);

    var cleaned := Pruned(apiParams.entries);
    session.LogLine(SendingMessage, Some(cleaned));

    response := PubSearch(session, apiParams, token, http);
  }

  /** `run`, lines 58-104: everything after the parameters have been generated. */
  method Search(session: Session, params: SimpleParams, token: Option<string>, http: HttpOutcome) returns (exit: Exit)
    modifies session
    ensures session.events == old(session.events) + SearchEvents(params, token, http)
    ensures exit == SearchOutcome(http)
  {
    ghost var start := session.events;
    var generatedLog := Log(GeneratedMessage, Some(ExcludeNone(Dump(params))));
    session.LogLine(generatedLog.message, generatedLog.data);

    var apiParams, response := SendQuery(session, params, token, http);
    ghost var request := [Log(SendingMessage, Some(Pruned(OutboundQuery(params)))), Get(ApiUrl, SentQuery(params, token))];
    exit := HandleResponse(session, params, apiParams, token, response);

    ghost var after := AfterSearch(params, token, http);
    AppendAssociative(start + [generatedLog], request, after);
    AppendAssociative(start, [generatedLog], request + after);
  }

  /** `run`: one request, from generated parameters to the reply. */
  method Run(session: Session, gen: Generation, token: Option<string>, http: HttpOutcome) returns (exit: Exit)
    modifies session
    ensures session.events == old(session.events) + Trace(gen, token, http)
    ensures exit == Outcome(gen, http)
  {
    ghost var start := session.events;
    session.Begin(ProcessSummary);
    session.LogLine(GeneratingMessage, None);
    ghost var prelude := Prelude;
    assert session.events == start + prelude;

    var generated := GenerateSearchParameters(gen);
    if generated.Err? {
      match generated.error
      case AIGenerationError(message) =>
        session.LogLine(message, None);
        AppendAssociative(start, prelude, [Log(message, None)]);
        return GenerationFailed;
      case TermsNotIterable =>
        return Raised(TermsNotAList);
    }
    exit := Search(session, generated.value, token, http);
    AppendAssociative(start, prelude, SearchEvents(generated.value, token, http));
  }
}

/** What can be proved about the events of a run, for all outcomes of its external calls. */
module PipelineProperties {
  import opened Wrappers
  import opened Formatting
  import opened Schema
  import opened ParameterMapping
  import opened Query
  import opened Pipeline

  datatype EventKind = KBegin | KLog | KGet | KArtifact | KReply

  function KindOf(e: Event): EventKind {
    match e
    case BeginProcess(_) => KBegin
    case Log(_, _) => KLog
    case Get(_, _) => KGet
    case Artifact(_, _, _, _) => KArtifact
    case Reply(_) => KReply
  }

  /** How many events of the given kind a trace holds. */
  function Count(trace: seq<Event>, k: EventKind): nat {
    if trace == [] then 0 else (if KindOf(trace[0]) == k then 1 else 0) + Count(trace[1..], k)
  }

  lemma {:induction false} CountAppend(a: seq<Event>, b: seq<Event>, k: EventKind)
    ensures Count(a + b, k) == Count(a, k) + Count(b, k)
    decreases |a|
  {
    if a == [] {
      assert a + b == b;
    } else {
      assert (a + b)[1..] == a[1..] + b;
      CountAppend(a[1..], b, k);
    }
  }

  lemma CountSingle(e: Event, k: EventKind)
    ensures Count([e], k) == if KindOf(e) == k then 1 else 0
  {
    assert [e][1..] == [];
  }

  lemma CountPair(e: Event, f: Event, k: EventKind)
    ensures Count([e, f], k) == (if KindOf(e) == k then 1 else 0) + (if KindOf(f) == k then 1 else 0)
  {
    assert [e, f] == [e] + [f];
    CountAppend([e], [f], k);
    CountSingle(e, k);
    CountSingle(f, k);
  }

  /** Interpreting an envelope: one artifact exactly when results are published, one reply unless the status failed. */
  lemma {:induction false} EnvelopeCounts(p: SimpleParams, token: Option<string>, content: seq<bv8>, resp: SearchResponse, k: EventKind)
    ensures Count(EnvelopeEvents(p, token, content, resp), k) ==
      match k
      case KArtifact => if EnvelopeOutcome(resp).Published? then 1 else 0
      case KReply => if resp.status == Some("ok") then 1 else 0
      case KLog => if resp.status != Some("ok") then 1 else |WarningEvents(resp)|
      case _ => 0
  {
    if resp.status != Some("ok") {
      CountSingle(Log(ApiFailurePrefix + OptionalText(resp.errorMessage), None), k);
    } else {
      var w, r := WarningEvents(resp), ResultEvents(p, token, content, resp);
      CountAppend(w, r, k);
      if w != [] {
        CountSingle(w[0], k);
      }
      if |resp.result| > 0 {
        CountPair(r[0], r[1], k);
      } else {
        CountSingle(r[0], k);
      }
    }
  }

  /** After the request: at most one artifact and one reply, and no second request. */
  lemma {:induction false} AfterSearchCounts(p: SimpleParams, token: Option<string>, http: HttpOutcome)
    ensures Count(AfterSearch(p, token, http), KArtifact) == if SearchOutcome(http).Published? then 1 else 0
    ensures Count(AfterSearch(p, token, http), KReply) ==
      if SearchOutcome(http).Published? || SearchOutcome(http) == NoResults then 1 else 0
    ensures Count(AfterSearch(p, token, http), KGet) == 0
    ensures Count(AfterSearch(p, token, http), KBegin) == 0
  {
    match http
    case HttpError =>
      CountSingle(Log(HttpErrorMessage, None), KArtifact);
      CountSingle(Log(HttpErrorMessage, None), KReply);
      CountSingle(Log(HttpErrorMessage, None), KGet);
      CountSingle(Log(HttpErrorMessage, None), KBegin);
    case HttpResponse(content, json) =>
      if json.Some? && ParseSearchResponse(json.value).Ok? {
        var resp := ParseSearchResponse(json.value).value;
        EnvelopeCounts(p, token, content, resp, KArtifact);
        EnvelopeCounts(p, token, content, resp, KReply);
        EnvelopeCounts(p, token, content, resp, KGet);
        EnvelopeCounts(p, token, content, resp, KBegin);
      }
  }

  /** Once parameters are generated: one request, then whatever the response brings. */
  lemma {:induction false} SearchEventsCounts(p: SimpleParams, token: Option<string>, http: HttpOutcome, k: EventKind)
    ensures Count(SearchEvents(p, token, http), k) ==
      (match k
       case KLog => 2
       case KGet => 1
       case _ => 0) + Count(AfterSearch(p, token, http), k)
  {
    var first := [Log(GeneratedMessage, Some(ExcludeNone(Dump(p))))];
    var sent := [Log(SendingMessage, Some(Pruned(OutboundQuery(p)))), Get(ApiUrl, SentQuery(p, token))];
    var after := AfterSearch(p, token, http);
    CountAppend(first, sent + after, k);
    CountAppend(sent, after, k);
    CountSingle(first[0], k);
    CountPair(sent[0], sent[1], k);
  }

  /** After parameter generation: counts by how generation and the search ended. */
  lemma {:induction false} AfterGenerationCounts(generated: Result<SimpleParams, GenerationError>, token: Option<string>,
                                                 http: HttpOutcome, k: EventKind)
    requires k != KLog
    ensures Count(AfterGeneration(generated, token, http), k) ==
      if generated.Err? then 0
      else match k
        case KGet => 1
        case KArtifact => if SearchOutcome(http).Published? then 1 else 0
        case KReply => if SearchOutcome(http).Published? || SearchOutcome(http) == NoResults then 1 else 0
        case _ => 0
  {
    match generated
    case Ok(p) =>
      SearchEventsCounts(p, token, http, k);
      AfterSearchCounts(p, token, http);
    case Err(AIGenerationError(message)) =>
      CountSingle(Log(message, None), k);
    case Err(TermsNotIterable) =>
  }

  /**
   * Over a whole run: one process, one request to the API exactly when
   * parameters were generated, one artifact exactly when results were
   * published, and one reply exactly when results (or their absence) were
   * reported.
   */
  lemma {:induction false} TraceCounts(gen: Generation, token: Option<string>, http: HttpOutcome)
    ensures Count(Trace(gen, token, http), KBegin) == 1
    ensures Count(Trace(gen, token, http), KGet) == if SearchIssued(Outcome(gen, http)) then 1 else 0
    ensures Count(Trace(gen, token, http), KArtifact) == if Outcome(gen, http).Published? then 1 else 0
    ensures Count(Trace(gen, token, http), KReply) ==
      if Outcome(gen, http).Published? || Outcome(gen, http) == NoResults then 1 else 0
  {
    var generated := GenerateSearchParameters(gen);
    var rest := AfterGeneration(generated, token, http);
    assert generated.Ok? ==> Outcome(gen, http) == SearchOutcome(http);
    assert generated.Err? ==> !Outcome(gen, http).Published? && Outcome(gen, http) != NoResults && !SearchIssued(Outcome(gen, http));
    assert generated.Ok? ==> SearchIssued(Outcome(gen, http));
    CountPair(Prelude[0], Prelude[1], KBegin);
    CountPair(Prelude[0], Prelude[1], KGet);
    CountPair(Prelude[0], Prelude[1], KArtifact);
    CountPair(Prelude[0], Prelude[1], KReply);
    CountAppend(Prelude, rest, KBegin);
    CountAppend(Prelude, rest, KGet);
    CountAppend(Prelude, rest, KArtifact);
    CountAppend(Prelude, rest, KReply);
    AfterGenerationCounts(generated, token, http, KBegin);
    AfterGenerationCounts(generated, token, http, KGet);
    AfterGenerationCounts(generated, token, http, KArtifact);
    AfterGenerationCounts(generated, token, http, KReply);
  }

  /** The last event of a trace. */
  function Last(trace: seq<Event>): Event
    requires trace != []
  {
    trace[|trace| - 1]
  }

  /** A trace that ends with `tail` after anything else. */
  predicate EndsWith(trace: seq<Event>, tail: seq<Event>) {
    |tail| <= |trace| && trace[|trace| - |tail|..] == tail
  }

  /** Prefixing events keeps the ending of a trace. */
  lemma EndsWithAfterPrefix(prefix: seq<Event>, trace: seq<Event>, tail: seq<Event>)
    requires EndsWith(trace, tail)
    ensures EndsWith(prefix + trace, tail)
  {
    assert (prefix + trace)[|prefix + trace| - |tail|..] == trace[|trace| - |tail|..];
  }

  /** Once parameters are generated, the run is the prelude followed by the search. */
  lemma TraceWhenGenerated(gen: Generation, token: Option<string>, http: HttpOutcome)
    requires GenerateSearchParameters(gen).Ok?
    ensures Trace(gen, token, http) == Prelude + SearchEvents(GenerateSearchParameters(gen).value, token, http)
    ensures Outcome(gen, http) == SearchOutcome(http)
  {
  }

  /** Generation failed: exactly one log of the failure follows, and nothing else happens. */
  lemma GenerationFailureAborts(message: string, token: Option<string>, http: HttpOutcome)
    ensures Trace(RetriesExhausted(message), token, http) ==
      [BeginProcess(ProcessSummary), Log(GeneratingMessage, None), Log(message, None)]
    ensures Outcome(RetriesExhausted(message), http) == GenerationFailed
  {
  }

  /** The model left out `search_terms`: joining None raises, before anything is logged or sent. */
  lemma MissingTermsRaise(p: LLMSimpleSearchParameters, token: Option<string>, http: HttpOutcome)
    requires p.searchTerms.None?
    ensures Trace(Generated(p), token, http) == Prelude
    ensures Outcome(Generated(p), http) == Raised(TermsNotAList)
  {
  }

  /**
   * The request failed: the run ends right after the request with the fixed
   * message, which carries no data, and produces no artifact and no reply.
   */
  lemma TransportFailureIsGeneric(gen: Generation, token: Option<string>)
    requires GenerateSearchParameters(gen).Ok?
    ensures Outcome(gen, HttpError) == TransportFailed
    ensures EndsWith(Trace(gen, token, HttpError),
      [Get(ApiUrl, SentQuery(GenerateSearchParameters(gen).value, token)), Log(HttpErrorMessage, None)])
    ensures Count(Trace(gen, token, HttpError), KArtifact) == 0 && Count(Trace(gen, token, HttpError), KReply) == 0
  {
    var p := GenerateSearchParameters(gen).value;
    TraceWhenGenerated(gen, token, HttpError);
    var first := [Log(GeneratedMessage, Some(ExcludeNone(Dump(p))))];
    var rest := [Log(SendingMessage, Some(Pruned(OutboundQuery(p)))), Get(ApiUrl, SentQuery(p, token)), Log(HttpErrorMessage, None)];
    assert SearchEvents(p, token, HttpError) == first + rest;
    assert EndsWith(rest, rest[1..]);
    EndsWithAfterPrefix(first, rest, rest[1..]);
    EndsWithAfterPrefix(Prelude, first + rest, rest[1..]);
    TraceCounts(gen, token, HttpError);
  }

  /**
   * A status other than "ok" (a missing one included) ends the run with the
   * API's message logged, and no artifact and no reply, even when the
   * envelope holds results.
   */
  lemma NonOkStatusAborts(gen: Generation, token: Option<string>, content: seq<bv8>, body: Json)
    requires GenerateSearchParameters(gen).Ok?
    requires ParseSearchResponse(body).Ok? && ParseSearchResponse(body).value.status != Some("ok")
    ensures Outcome(gen, HttpResponse(content, Some(body))) ==
      ApiFailed(OptionalText(ParseSearchResponse(body).value.errorMessage))
    ensures Last(Trace(gen, token, HttpResponse(content, Some(body)))) ==
      Log(ApiFailurePrefix + OptionalText(ParseSearchResponse(body).value.errorMessage), None)
    ensures Count(Trace(gen, token, HttpResponse(content, Some(body))), KArtifact) == 0
    ensures Count(Trace(gen, token, HttpResponse(content, Some(body))), KReply) == 0
  {
    TraceWhenGenerated(gen, token, HttpResponse(content, Some(body)));
    TraceCounts(gen, token, HttpResponse(content, Some(body)));
  }

  /** An "ok" envelope with an error message only adds a warning log; the run goes on to report. */
  lemma OkStatusWithMessageWarns(gen: Generation, token: Option<string>, content: seq<bv8>, body: Json)
    requires GenerateSearchParameters(gen).Ok?
    requires ParseSearchResponse(body).Ok? && ParseSearchResponse(body).value.status == Some("ok")
    requires ParseSearchResponse(body).value.errorMessage.Some? && ParseSearchResponse(body).value.errorMessage.value != ""
    ensures Log(WarningPrefix + ParseSearchResponse(body).value.errorMessage.value, None) in
      Trace(gen, token, HttpResponse(content, Some(body)))
    ensures Outcome(gen, HttpResponse(content, Some(body))) in {NoResults, Published(|ParseSearchResponse(body).value.result|)}
    ensures Count(Trace(gen, token, HttpResponse(content, Some(body))), KReply) == 1
  {
    var http := HttpResponse(content, Some(body));
    var p := GenerateSearchParameters(gen).value;
    var resp := ParseSearchResponse(body).value;
    TraceWhenGenerated(gen, token, http);
    var warning := Log(WarningPrefix + resp.errorMessage.value, None);
    assert AfterSearch(p, token, http) == [warning] + ResultEvents(p, token, content, resp);
    assert warning in AfterSearch(p, token, http);
    TraceCounts(gen, token, http);
  }

  /**
   * Results were found: the run ends with one `application/json` artifact
   * described as "BHL search results", holding the raw response and, as
   * its parameters, the very dictionary that was sent (credential included),
   * followed by one reply with the count, page and page size.
   */
  lemma ResultsPublished(gen: Generation, token: Option<string>, content: seq<bv8>, body: Json)
    requires GenerateSearchParameters(gen).Ok?
    requires ParseSearchResponse(body).Ok? && ParseSearchResponse(body).value.status == Some("ok")
    requires |ParseSearchResponse(body).value.result| > 0
    ensures var p, n := GenerateSearchParameters(gen).value, |ParseSearchResponse(body).value.result|;
      var trace := Trace(gen, token, HttpResponse(content, Some(body)));
      && Outcome(gen, HttpResponse(content, Some(body))) == Published(n)
      && EndsWith(trace, [
           Artifact(ArtifactMimetype, ArtifactDescription, content, ArtifactMetadata("BHL", ApiUrl, SentQuery(p, token))),
           Reply(ResultsSummary(n, p.page, p.pageSize))])
      && Get(ApiUrl, SentQuery(p, token)) in trace
      && "apikey" in SentQuery(p, token) && SentQuery(p, token)["apikey"] == TokenValue(token)
      && Count(trace, KArtifact) == 1 && Count(trace, KReply) == 1
  {
    var http := HttpResponse(content, Some(body));
    var p := GenerateSearchParameters(gen).value;
    var resp := ParseSearchResponse(body).value;
    TraceWhenGenerated(gen, token, http);
    var results := ResultEvents(p, token, content, resp);
    var searchStart := [Log(GeneratedMessage, Some(ExcludeNone(Dump(p))))];
    var sent := [Log(SendingMessage, Some(Pruned(OutboundQuery(p)))), Get(ApiUrl, SentQuery(p, token))];
    assert AfterSearch(p, token, http) == WarningEvents(resp) + results;
    assert EndsWith(results, results);
    EndsWithAfterPrefix(WarningEvents(resp), results, results);
    EndsWithAfterPrefix(sent, AfterSearch(p, token, http), results);
    EndsWithAfterPrefix(searchStart, sent + AfterSearch(p, token, http), results);
    EndsWithAfterPrefix(Prelude, SearchEvents(p, token, http), results);
    assert Get(ApiUrl, SentQuery(p, token)) in SearchEvents(p, token, http);
    TraceCounts(gen, token, http);
  }

  /** No results: the run ends with the "no matching publications" reply and creates no artifact. */
  lemma EmptyResultRepliesOnly(gen: Generation, token: Option<string>, content: seq<bv8>, body: Json)
    requires GenerateSearchParameters(gen).Ok?
    requires ParseSearchResponse(body).Ok? && ParseSearchResponse(body).value.status == Some("ok")
    requires |ParseSearchResponse(body).value.result| == 0
    ensures Outcome(gen, HttpResponse(content, Some(body))) == NoResults
    ensures Last(Trace(gen, token, HttpResponse(content, Some(body)))) == Reply(NoMatchingPublications)
    ensures Count(Trace(gen, token, HttpResponse(content, Some(body))), KArtifact) == 0
    ensures Count(Trace(gen, token, HttpResponse(content, Some(body))), KReply) == 1
  {
    TraceWhenGenerated(gen, token, HttpResponse(content, Some(body)));
    TraceCounts(gen, token, HttpResponse(content, Some(body)));
  }

  /** A slice that lies within the first part of a concatenation is a slice of that part. */
  lemma SliceOfPrefix(a: string, b: string, i: nat, j: nat)
    requires i <= j <= |a|
    ensures (a + b)[i..j] == a[i..j]
  {
  }

  /** Three parts interleaved with four others can each be cut back out at their offsets. */
  lemma SlicesOfSeven(l: string, x: string, m: string, y: string, n: string, z: string, t: string)
    ensures var text := l + x + m + y + n + z + t;
      var j := |l| + |x| + |m|;
      var k := j + |y| + |n|;
      && |text| >= k + |z|
      && text[..|l|] == l
      && text[|l|..|l| + |x|] == x
      && text[j..j + |y|] == y
      && text[k..k + |z|] == z
  {
    var a := l + x;
    var b := a + m + y;
    var d := b + n + z;
    var j := |l| + |x| + |m|;
    var k := j + |y| + |n|;
    SliceOfPrefix(d, t, 0, |l|);
    SliceOfPrefix(d, t, |l|, |l| + |x|);
    SliceOfPrefix(d, t, j, j + |y|);
    SliceOfPrefix(b + n, z, |l|, |l| + |x|);
    SliceOfPrefix(b + n, z, j, j + |y|);
    SliceOfPrefix(b, n, |l|, |l| + |x|);
    SliceOfPrefix(a + m, y, |l|, |l| + |x|);
    SliceOfPrefix(a, m, |l|, |l| + |x|);
  }

  /** `text` begins with `prefix`. */
  predicate StartsWith(text: string, prefix: string) {
    |prefix| <= |text| && text[..|prefix|] == prefix
  }

  /** At offset `from`, `text` holds the rendering of `n`, which reads back as `n`. */
  predicate NumberAt(text: string, from: nat, n: int) {
    var d := Decimal(n);
    from + |d| <= |text| && text[from..from + |d|] == d && DecimalValue(text[from..from + |d|]) == n
  }

  /**
   * The summary reply states its three numbers exactly: after the lead text
   * come the count, the page and the page size, each of which reads back.
   */
  lemma SummaryStatesNumbers(count: int, page: int, pageSize: int)
    ensures var text := Render(ResultsSummary(count, page, pageSize));
      var i := |SummaryLead|;
      var j := i + |Decimal(count)| + |SummaryPageLead|;
      var k := j + |Decimal(page)| + |SummarySizeLead|;
      StartsWith(text, SummaryLead) && NumberAt(text, i, count) && NumberAt(text, j, page) && NumberAt(text, k, pageSize)
  {
    SlicesOfSeven(SummaryLead, Decimal(count), SummaryPageLead, Decimal(page), SummarySizeLead, Decimal(pageSize), SummaryTail);
    DecimalRoundTrip(count);
    DecimalRoundTrip(page);
    DecimalRoundTrip(pageSize);
  }

  /** Parameter generation succeeds: the model gave search terms. */
  predicate Generates(gen: Generation) {
    gen.Generated? && gen.params.searchTerms.Some?
  }

  /** The envelope a response carries, when its body is JSON that validates. */
  function Envelope(http: HttpOutcome): Option<SearchResponse> {
    if http.HttpResponse? && http.json.Some? && ParseSearchResponse(http.json.value).Ok? then
      Some(ParseSearchResponse(http.json.value).value)
    else
      None
  }

  /** Each way a run can end, characterised by the outcomes of its external calls. */
  lemma OutcomeByInputs(gen: Generation, http: HttpOutcome)
    ensures Outcome(gen, http) == GenerationFailed <==> gen.RetriesExhausted?
    ensures Outcome(gen, http) == Raised(TermsNotAList) <==> gen.Generated? && gen.params.searchTerms.None?
    ensures Outcome(gen, http) == TransportFailed <==> Generates(gen) && http.HttpError?
    ensures Outcome(gen, http) == Raised(MalformedJson) <==> Generates(gen) && http.HttpResponse? && http.json.None?
    ensures Outcome(gen, http) == Raised(InvalidEnvelope) <==>
      Generates(gen) && http.HttpResponse? && http.json.Some? && ParseSearchResponse(http.json.value).Err?
    ensures Outcome(gen, http).ApiFailed? <==> Generates(gen) && Envelope(http).Some? && Envelope(http).value.status != Some("ok")
    ensures Outcome(gen, http) == NoResults <==>
      Generates(gen) && Envelope(http).Some? && Envelope(http).value.status == Some("ok") && Envelope(http).value.result == []
    ensures Outcome(gen, http).Published? <==>
      Generates(gen) && Envelope(http).Some? && Envelope(http).value.status == Some("ok") && Envelope(http).value.result != []
    ensures Outcome(gen, http).Published? ==> Outcome(gen, http).count == |Envelope(http).value.result| >= 1
  {
  }

  /**
   * A failed status with no error message (absent or null) is logged with
   * the text "None", as Python formats a missing value.
   */
  lemma MissingMessageLoggedAsNone(gen: Generation, token: Option<string>, content: seq<bv8>, body: Json)
    requires Generates(gen)
    requires ParseSearchResponse(body).Ok? && ParseSearchResponse(body).value.status != Some("ok")
    requires Lookup(body.fields, "ErrorMessage").None? || Lookup(body.fields, "ErrorMessage").value.JNull?
    ensures Last(Trace(gen, token, HttpResponse(content, Some(body)))) == Log(ApiFailurePrefix + "None", None)
  {
    NonOkStatusAborts(gen, token, content, body);
  }

  /** The two replies can be told apart: after the common lead, one has a number and the other a letter. */
  lemma RepliesAreDistinct(count: int, page: int, pageSize: int)
    ensures Render(ResultsSummary(count, page, pageSize)) != Render(NoMatchingPublications)
  {
    var i := |SummaryLead|;
    var c := Decimal(count);
    assert Render(ResultsSummary(count, page, pageSize))[i] == c[0];
    assert Render(NoMatchingPublications)[i] == 'n';
    assert c[0] == '-' || IsDigit(c[0]);
  }
}
