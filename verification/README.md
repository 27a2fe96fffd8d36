# BHL literature search entrypoint — a Dafny model

This project models the `search_bhl` entrypoint of the iChatBio BHL agent. The
entrypoint turns a free-text literature request into search parameters for the
Biodiversity Heritage Library (BHL) publication search API (version 3), sends the
search, reads the API's response envelope and reports back through the agent's
response context. It can report in three ways: a results artifact plus a summary
reply, a "no matching publications" reply, or a logged failure with no artifact
and no reply.

The model has seven modules in six files:

- `Wrappers` (`wrappers.dfy`): `Option` (Python's `Optional`) and `Result` (a value, or the exception raised).
- `Formatting` (`formatting.dfy`): how f-strings render an `int` (`Decimal`, with its read-back `DecimalValue`) and an `Optional[str]` (`None` renders as "None").
- `Schema` (`schema.dfy`): `SimplePublicationSearchParameters` with its literal constraint and defaults, `Publication` with its two required discriminators and nineteen optional attributes, and `PublicationSearchResponse`. It also models the validation pydantic performs when an envelope is built from the decoded JSON body.
- `ParameterMapping` (`parameter_mapping.dfy`, for `search_bhl.py` lines 112-117 and 143-167): the generated `LLMSimpleSearchParameters` and the mapping of `_generate_search_parameters` into the API's parameters.
- `Query` (`query.dfy`, for `search_bhl.py` lines 58-66 and 207-209): the query dictionary. A `QueryMap` class holds the Python `dict` as a heap object, so that `_pub_search`'s in-place `|=` on the caller's dictionary is visible.
- `Pipeline` and `PipelineProperties` (`pipeline.dfy`): `run`.
  - A `Session` object records, in order, everything the run makes visible: process start, logs, the outbound GET, the artifact and the reply.
  - `Run` and its step methods are proved to append exactly `Trace(gen, token, http)` and to end with `Outcome(gen, http)`.
  - The lemmas state what those traces hold for every outcome of the external calls.

External calls become parameters of `Run`:

- The language-model call becomes `gen: Generation`: the generated structure, or exhaustion of retries.
- The `BHL_API_KEY` environment read becomes `token: Option<string>`.
- The HTTP exchange becomes `http: HttpOutcome`: a 2xx response with its raw content, or `HTTPError`.
- JSON decoding of the body becomes part of the response: `json: Option<Json>`, where `None` means `.json()` raised.

Exceptions that `run` does not catch end the run with `Exit.Raised`. There are three:

- `" OR ".join(None)` when the model left out `search_terms`;
- a body that is not JSON;
- an envelope that fails validation.

Four behaviours of the code are easy to miss, and the model keeps them:

- The outbound dictionary is not pruned before it is sent. Only the logged copy is pruned, so falsy parameters are sent as empty strings (`page = 0` is sent as `page=""`).
- The credential is not kept out of the artifact. `_pub_search` adds `apikey` to the caller's dictionary in place, and that same dictionary becomes the artifact's `api_parameters` metadata (`ResultsPublished`).
- The declared default of `search_type` is `"C"`. That is not one of the field's literal values, so when the model leaves the field out, the search is a full-text search (`"F"`), not a catalog search (`DefaultSearchTypeMeansFullText`).
- A missing `search_terms` is not a generation failure. It defaults to None, and joining None raises a `TypeError` that escapes `run` (`MissingTermsRaise`).

## Model

| member | source | states |
|---|---|---|
| `Formatting.Decimal` | src/entrypoints/search_bhl.py:99 | `str(n)` of an int: non-empty, a leading '-' exactly for negatives, digits otherwise |
| `Formatting.NatDigits` | src/entrypoints/search_bhl.py:99 | the digits of a natural number: non-empty, all decimal digits, no leading zero unless the number is 0 |
| `Formatting.NatDigitsRoundTrip` | src/entrypoints/search_bhl.py:99 | the digits of a natural number read back to that number |
| `Formatting.DecimalRoundTrip` | src/entrypoints/search_bhl.py:99 | the rendered integer reads back to the same integer, so a reply states its numbers exactly |
| `Schema.SearchTypeFromCode` | src/schema.py:32-33 | `searchtype` accepts exactly "C" and "F", and the accepted search type renders back to that code |
| `Schema.SearchTypeCodeRoundTrip` | src/schema.py:32-33 | each search type has one of the two codes, and that code reads back to it |
| `Schema.NewSimpleParams` | src/schema.py:30-35 | construction succeeds exactly when `searchtype` is omitted or one of "C"/"F"; the search term is kept; a given search type, page and page size are kept, and an omitted one takes its default (catalog, 1, 100) |
| `Schema.SimpleParamsDefaults` | src/schema.py:31-35 | omitting everything but `searchterm` gives searchtype "C", page 1 and pageSize 100 |
| `Schema.BhlTypeFrom` | src/schema.py:59 | each of "Title", "Item", "Part" yields its own variant, and any other value (or none) is rejected |
| `Schema.FoundInFrom` | src/schema.py:60 | each of "Metadata", "Text", "Both" yields its own variant, and any other value (or none) is rejected |
| `Schema.ParsePublication` | src/schema.py:58-93 | a record is valid iff it is an object with valid `BHLType` and `FoundIn` and every optional attribute absent, null or a string; the result's type and found-in are the record's own, each optional attribute equals the given string or None, and no other attribute is kept |
| `Schema.MissingAttributeIsNone` | src/schema.py:61-93 | an optional attribute missing from the record defaults to None |
| `Schema.ParsePublications` | src/schema.py:100 | the list is valid iff every record is, and the result has the same length with each record's validation at the same index |
| `Schema.ParseSearchResponse` | src/schema.py:97-100 | the envelope is valid iff it is an object whose `Status` and `ErrorMessage` are absent, null or strings and whose `Result` is a list of valid records; status and message are then carried over |
| `Schema.ResultKeepsOrder` | src/schema.py:100 | the envelope's result list holds the supplied records in the supplied order, none dropped or re-sorted |
| `Schema.ResultIsRequired` | src/schema.py:100 | an envelope without `Result` fails to construct |
| `Schema.StatusAndMessageDefaultToNone` | src/schema.py:98-99 | `Status` and `ErrorMessage` left out of the body are None |
| `ParameterMapping.ScopeFor` | src/entrypoints/search_bhl.py:160 | the code sent is "C" exactly when `search_type == "catalog"`, and it is always a code the schema's literal accepts, reading back to the same search type |
| `ParameterMapping.Join` | src/entrypoints/search_bhl.py:159 | `" OR ".join(terms)` of a non-empty list is exactly as long as the terms together plus four characters for each of the one-fewer separators |
| `ParameterMapping.GenerateSearchParameters` | src/entrypoints/search_bhl.py:143-167 | exhausted retries become an `AIGenerationException` with the same message; generated parameters map successfully iff `search_terms` is present; page and page size pass through; the code is "C" iff the scope was "catalog" |
| `ParameterMapping.MappedParametersValidate` | src/entrypoints/search_bhl.py:158-163 | the mapped parameters are exactly what the schema's own constructor builds from the joined terms, the code, the page and the page size |
| `ParameterMapping.SearchTermIsJoin` | src/entrypoints/search_bhl.py:159 | one term is kept unchanged; `t` followed by more terms gives `t + " OR " + join(rest)` |
| `ParameterMapping.JoinAppend` | src/entrypoints/search_bhl.py:159 | joining two non-empty term lists puts exactly one separator between their joins |
| `ParameterMapping.JoinEnds` | src/entrypoints/search_bhl.py:159 | the joined string starts with the first term and ends with the last, so the join adds no leading or trailing separator |
| `ParameterMapping.DefaultSearchTypeMeansFullText` | src/entrypoints/search_bhl.py:114-115 | the declared default "C" of `search_type` maps to the full-text code "F" |
| `Query.OrEmpty` | src/entrypoints/search_bhl.py:60 | `v or ""` keeps truthiness, never leaves None, leaves a truthy value untouched, and turns every falsy value into the empty string |
| `Query.DumpIsLossless` | src/entrypoints/search_bhl.py:60 | `model_dump()` (`Dump`) holds the four fields, and the schema's constructor rebuilds the very same parameters from its values |
| `Query.ExcludeNoneKeepsNoneFree` | src/entrypoints/search_bhl.py:58 | `exclude_none=True` (`ExcludeNone`) gives a sub-dictionary without None, and returns a dictionary that holds no None unchanged |
| `Query.FalsyAsEmptyKeepsTruthyPart` | src/entrypoints/search_bhl.py:60 | the comprehension `v or ""` (`FalsyAsEmpty`) keeps every key, removes None, and leaves the truthy part unchanged: pruning after it is pruning the original |
| `Query.PrunedIsLargestTruthySubMap` | src/entrypoints/search_bhl.py:66 | the cleaned copy (`Pruned`) is a sub-dictionary with only truthy values, and contains every other such sub-dictionary |
| `Query.LoggedDumpIsFullDump` | src/entrypoints/search_bhl.py:58 | the logged parameters are the full dump, as no field of the simple parameters is optional |
| `Query.DoubleMergeIsOverlay` | src/entrypoints/search_bhl.py:61-64 | `d \|= {markers} \| d` equals the markers overridden by `d`: no entry of `d` changes and the missing markers are added |
| `Query.OutboundQueryContents` | src/entrypoints/search_bhl.py:60-64 | the query before the credential (`OutboundQuery`) has exactly the four parameter keys plus `op` and `format`; each parameter is its value or "" when falsy; truthy values are unchanged; `op` and `format` are "PublicationSearch" and "json" |
| `Query.ZeroPageSentAsEmpty` | src/entrypoints/search_bhl.py:60-66 | page 0 is sent as "" and is absent from the logged copy |
| `Query.LoggedCopyDropsOnlyFalsy` | src/entrypoints/search_bhl.py:66-70 | the logged copy is the truthy part of the query (search type and markers always in it), while the sent dictionary keeps every entry with its value |
| `Query.SentQueryAddsKey` | src/entrypoints/search_bhl.py:208-209 | the sent dictionary (`SentQuery`) gains `apikey` holding the token, or None when unset (`TokenValue`), and no other key; the logged copy never has it |
| `Query.QueryMap.FromDump` | src/entrypoints/search_bhl.py:60 | the new dictionary maps each dumped key to its value or "" |
| `Query.QueryMap.Update` | src/entrypoints/search_bhl.py:61-64 | `\|=` in place: the new entries are the old ones overridden by the argument |
| `Pipeline.PubSearch` | src/entrypoints/search_bhl.py:207-214 | the caller's dictionary gains `apikey`, the GET is recorded with that same updated dictionary, and the HTTP outcome is passed on |
| `Pipeline.SendQuery` | src/entrypoints/search_bhl.py:60-70 | builds the query, logs exactly its truthy entries, sends it with the credential; the dictionary left behind is the one that was sent |
| `Pipeline.Interpret` | src/entrypoints/search_bhl.py:77-104 | appends exactly the events of the envelope interpretation and returns its outcome |
| `Pipeline.HandleResponse` | src/entrypoints/search_bhl.py:71-104 | on `HTTPError` appends the generic log; on undecodable or invalid bodies appends nothing and raises; otherwise interprets the envelope |
| `Pipeline.Search` | src/entrypoints/search_bhl.py:58-104 | appends the parameter log, the request and the response's events, and ends as the search outcome says |
| `Pipeline.Run` | src/entrypoints/search_bhl.py:42-104 | the session gains exactly `Trace(gen, token, http)` and the run ends with `Outcome(gen, http)` |
| `PipelineProperties.CountAppend` | src/entrypoints/search_bhl.py:42-104 | counting events of a kind distributes over concatenation of traces |
| `PipelineProperties.EnvelopeCounts` | src/entrypoints/search_bhl.py:77-104 | interpreting an envelope yields one artifact iff results are published, one reply iff the status is "ok", and one log on failure or per warning |
| `PipelineProperties.TraceCounts` | src/entrypoints/search_bhl.py:42-104 | every run (`Trace`): one process; one GET iff parameters were generated; one artifact iff results were published; one reply iff results or their absence were reported |
| `PipelineProperties.GenerationFailureAborts` | src/entrypoints/search_bhl.py:52-56 | after a generation failure exactly one log of its message follows the prelude: no request, no artifact, no reply |
| `PipelineProperties.MissingTermsRaise` | src/entrypoints/search_bhl.py:158-167 | missing `search_terms` raise out of `run` before anything beyond the prelude is logged or sent |
| `PipelineProperties.TransportFailureIsGeneric` | src/entrypoints/search_bhl.py:69-74 | an HTTP error ends the run right after the GET with the fixed message and no data; no artifact and no reply |
| `PipelineProperties.NonOkStatusAborts` | src/entrypoints/search_bhl.py:77-79 | a status other than "ok", missing included, ends with the API's message logged and no artifact or reply, even when results are present |
| `PipelineProperties.OkStatusWithMessageWarns` | src/entrypoints/search_bhl.py:81-82 | an "ok" envelope with a non-empty error message adds the warning log, and the run still replies |
| `PipelineProperties.ResultsPublished` | src/entrypoints/search_bhl.py:84-102 | non-empty results end the run with one `application/json` "BHL search results" artifact, whose content is the raw response and whose `api_parameters` is the dictionary sent (with `apikey`), followed by one reply with count, page and page size |
| `PipelineProperties.EmptyResultRepliesOnly` | src/entrypoints/search_bhl.py:103-104 | empty results end the run with the "no matching publications" reply only, no artifact |
| `PipelineProperties.OutcomeByInputs` | src/entrypoints/search_bhl.py:52-104 | each exit of `run` (`Outcome`, through `SearchOutcome` and `EnvelopeOutcome`) happens exactly under its own condition on the generation and HTTP outcomes; a publication count is the envelope's result length and at least 1 |
| `PipelineProperties.MissingMessageLoggedAsNone` | src/entrypoints/search_bhl.py:78 | a failed status with no error message is logged as the prefix followed by "None" (`OptionalText`) |
| `PipelineProperties.SummaryStatesNumbers` | src/entrypoints/search_bhl.py:98-102 | the summary reply (`Render`) begins with the lead text and holds the count, the page and the page size at their places, each reading back exactly |
| `PipelineProperties.RepliesAreDistinct` | src/entrypoints/search_bhl.py:98-104 | the summary reply and the no-match reply are different texts, whatever the numbers |

## Left out

- The language-model call: client creation, the model name and `OPENAI_API_KEY`, the prompt, temperature, and the retry policy `StopOnTerminalErrorOrMaxAttempts(3)`. Its outcome is the `Generation` input. The policy lives in `util`, which is not part of this model.
- Other exceptions from the language-model client are not modelled. Only `InstructorRetryException` is caught, and it is modelled as `RetriesExhausted`.
- The HTTP request itself: `httpx`, the 30-second timeout, redirect following, and how `None` or `""` values are encoded in the URL. The outcome is the `HttpOutcome` input.
- JSON decoding, and JSON floating-point numbers. The decoded body (or its absence) is part of the input, and numbers are integers.
- The text of `AIGenerationException` comes from `util`, which is not part of this model. It is taken as the message of `RetriesExhausted`.
- The `request` text only reaches the language-model call, so it is folded into the `Generation` input.
- The `min_length=1` and literal constraints on `LLMSimpleSearchParameters` are checked inside the language-model call, whose result is an input; the mapping is modelled for every value that call could return.
- Environment reads (`AGENTS_LLM`, `OPENAI_API_KEY`, `BHL_API_KEY`) are parameters. `BHL_API_KEY` is the `token` argument.
- Key insertion order of Python dictionaries is not modelled: query dictionaries are maps.
- pydantic's lax coercions (for example numeric strings accepted for `int` fields) are not modelled. The model checks only the shapes the code produces or receives.
- Extra envelope keys and field names given instead of aliases are ignored, as pydantic does by default. The model does not record them.
- The advanced search: `LLMAdvancedSearchParameters`, `ExactOrFuzzySearch`, `_generate_advanced_search_parameters` and `AdvancedPublicationSearchParameters`. Nothing calls it; its validator reads fields that do not exist, and it passes `pageSize` where the schema declares `pagesize`.
- The unused schema classes `Author` and `BadResponse`.
- Agent wiring in `src/agent.py` (agent card, entrypoint dispatch, app creation) and the closing of the process context after `run`.
- Replies are recorded as their content (`ResultsSummary` or `NoMatchingPublications`), and `Render` gives the text that is sent. Of that text, the model proves where the three numbers sit and that they read back, not the wording around them.
- `PipelineProperties.TransportFailureIsGeneric`: states that the logged message is the fixed text with no data attached. It does not state that the message never contains the token as a substring; a token such as "BHL" occurs in it.
