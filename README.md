# YaSchat conversational backend, modelled in Dafny

This project models the decision logic of the YaSchat conversational backend
(`StatecHackathon2025/YaSchat/backend_conversational.py`). The backend forwards a user's
statistics question to a remote planning and execution workflow, and then does four things:

- **Extraction** (`extract_actual_data`). It walks the workflow's execution result (steps, items,
  JSON text). It decodes every payload and sums it up in a record
  `{has_data, dataflows, observations, summary}`:
  - an SDMX data message adds a dataflow and, when it has data sets, an observation summary;
  - a non-empty JSON list (a dataflow discovery result) extends the dataflows.
- **Clarification** (`should_ask_clarification`). From that record it decides whether to ask the
  user to pick a dataflow, to refine the query, or nothing.
- **Session history** (`conversation_history`). A process-wide map from session id to the turns of
  that conversation. A query appends a turn; a reset drops the session.
- **Request shaping** (`execute_mcp_query`). A request may be prefixed with the previous turn's
  query. A failing remote call becomes a `success: false` result instead of an error.

Modules:

- `Json` (`json.dfy`): decoded JSON values and the Python operations the backend applies to them.
  These are truthiness, `len`, `dict.get`, the `in` operator and `str` of a count. Each operation
  returns `None` exactly where Python raises.
- `Extraction` (`extraction.dfy`): the extractor, in two forms.
  - A specification, `Extract`: the record is a fold (`ApplyAll`) of per-payload effects over the
    trace of payloads the loops reach (`Trace`).
  - The imperative method `ExtractActualData`, with the nested loops over steps, items and series.
    It is proved equal to `Extract`.
- `ExtractionProperties` (`extraction_properties.dfy`): what the record holds for any input. It
  describes the record without the fold, and covers the contribution and abort rules, single
  payloads and worked examples.
- `Clarification` (`clarification.dfy`): the two-rule advisor and its decision table.
- `Conversation` (`conversation.dfy`):
  - the class `SessionStore`, holding the history map, with the `Query` and `Reset` handlers;
  - the context rewrite (`Outgoing`);
  - the fail-soft mapping (`FailSoft`).

Inside the extractor's `try` (lines 58-111), Python's run-time behaviour is modelled exactly:

- `'data' in x` means key membership on a dict, element equality on a list and substring search on
  a string. On a number, a boolean or `null` it raises.
- `.get` exists only on dicts, and `len` only on dicts, lists and strings.
- When one of these raises, the rest of that step's items is abandoned. Whatever the payload had
  already changed is kept: `has_data` is set at line 71 and the dataflow is appended at line 75
  before the later lookups can raise. The classification `SdmxFault` records this.

The code is followed where a simpler reading would differ:

- `has_data` is not equivalent to "`dataflows` is non-empty". An SDMX message whose `structure` is
  `null` sets `has_data`, then raises before it appends a dataflow (`HasDataWithoutDataflows`).
- What holds instead is proved in `ExtractInvariants`:
  - `has_data` is set exactly when an SDMX-shaped or discovery payload was reached;
  - a dataflow implies `has_data`;
  - `has_data` without dataflows happens only through such a structure fault.
- Python adds up the observation counts in the series' key order. The model's maps carry no order,
  so `TotalPick` proves that the sum does not depend on the order.

## Model

| member | source | states |
|---|---|---|
| Json.Truthy | StatecHackathon2025/YaSchat/backend_conversational.py:40-54 | Python truthiness of a decoded value (`if x:`/`not x` at lines 40, 44, 54, 82, 121, 130-131, 246): `null`, `false`, zero, and empty strings, lists and dicts are false |
| Json.Len | StatecHackathon2025/YaSchat/backend_conversational.py:82-90 | where `len` is defined, a value is truthy iff its length is positive; so `datasets and len(datasets) > 0` at line 82 is truthiness alone |
| Json.SubstringAtOffset | StatecHackathon2025/YaSchat/backend_conversational.py:70 | the prefix-by-prefix substring search succeeds iff the pattern occurs at some offset of the string |
| Json.Contains | StatecHackathon2025/YaSchat/backend_conversational.py:70 | `'data' in x` on a string is true iff "data" occurs at some offset of it (on a dict it is key membership, on a list element membership, and it raises on numbers, booleans and `null`) |
| Json.NatToString | StatecHackathon2025/YaSchat/backend_conversational.py:99 | the printed count is non-empty, all decimal digits, with no leading zero |
| Json.DecimalRoundTrip | StatecHackathon2025/YaSchat/backend_conversational.py:99 | reading the printed count back gives the count |
| Json.NatToStringInjective | StatecHackathon2025/YaSchat/backend_conversational.py:105 | distinct counts print differently, so the summaries lose no information |
| Extraction.TotalPick | StatecHackathon2025/YaSchat/backend_conversational.py:88-90 | the total of the counts does not depend on the order in which the series are visited |
| Extraction.SumCounts | StatecHackathon2025/YaSchat/backend_conversational.py:87-90 | the loop computes the total of all counts; when it completes, every count was defined and none exceeds the total |
| Extraction.CountObservations | StatecHackathon2025/YaSchat/backend_conversational.py:83-90 | the observation total of a dataset's series, or a raise when one series is not countable |
| Extraction.ReadPayload | StatecHackathon2025/YaSchat/backend_conversational.py:69-105 | the in-place updates for one decoded payload equal its specified effect; it reports a raise exactly when the payload aborts its step |
| Extraction.ExtractActualData | StatecHackathon2025/YaSchat/backend_conversational.py:30-113 | the nested loops return `Extract`. A falsy `success` gives the zero record; no execution gives the zero record with the "no data was fetched" summary |
| Extraction.ClassifyPayload | StatecHackathon2025/YaSchat/backend_conversational.py:69-105 | What one decoded payload does, branch by branch. A discovery list is the payload itself, non-empty and without the string "data". An SDMX outcome only comes from a dict whose `data` holds `dataSets`. A complete observation keeps the whole payload as `raw_data` |
| Extraction.ClassifySdmx | StatecHackathon2025/YaSchat/backend_conversational.py:70-99 | The SDMX branch after `'data' in data`. A handled message has a dict `data` and a structured dataflow, and adds an observation iff `dataSets` is truthy. A raise after the dataflow was appended only happens with a truthy `dataSets` |
| Extraction.ClassifyItem | StatecHackathon2025/YaSchat/backend_conversational.py:59-67 | an item without text is skipped; any effect other than a skip or a raise comes from an item whose text is a string that decodes, and is the effect of the decoded payload |
| Extraction.Extract | StatecHackathon2025/YaSchat/backend_conversational.py:30-113 | the specification of the whole extractor: the zero record for a falsy `success`, the "no data was fetched" record without execution, else the fold of the payload effects over the trace the loops reach; its properties are proved in `ExtractionProperties.ExtractInvariants` |
| Extraction.ApplyAllAppend | StatecHackathon2025/YaSchat/backend_conversational.py:49-111 | processing two runs of payloads in sequence is processing their concatenation |
| ExtractionProperties.ApplyAllContents | StatecHackathon2025/YaSchat/backend_conversational.py:75-105 | the dataflows and observations are exactly the payloads' contributions, in order, after what was there before |
| ExtractionProperties.ApplyAllHasData | StatecHackathon2025/YaSchat/backend_conversational.py:71-103 | `has_data` is set iff it was already set or some payload was SDMX-shaped or a discovery list |
| ExtractionProperties.ApplyAllSummary | StatecHackathon2025/YaSchat/backend_conversational.py:99-105 | the summary is last-write-wins: the one written by the last payload that writes one |
| ExtractionProperties.ObservationsBounded | StatecHackathon2025/YaSchat/backend_conversational.py:75-96 | there are no more observations than dataflows, and no more than SDMX-shaped payloads |
| ExtractionProperties.FlowsComeFromMarkedPayloads | StatecHackathon2025/YaSchat/backend_conversational.py:71-104 | any dataflow comes from a payload that also set `has_data` |
| ExtractionProperties.NoFlowsOnlyStructureFaults | StatecHackathon2025/YaSchat/backend_conversational.py:71-78 | with no dataflows, every payload that set `has_data` raised at the `structure` lookup |
| ExtractionProperties.ItemsTraceShape | StatecHackathon2025/YaSchat/backend_conversational.py:58-111 | the items of a step are classified in order; only the last one reached may abort; when fewer than all are reached, the last one aborted |
| ExtractionProperties.TextlessItemIsInvisible | StatecHackathon2025/YaSchat/backend_conversational.py:60-65 | an item without a `text` attribute or key changes nothing, wherever it stands |
| ExtractionProperties.RaiseAbandonsRestOfStep | StatecHackathon2025/YaSchat/backend_conversational.py:58-111 | after an item that raises, the rest of the step's items is never looked at |
| ExtractionProperties.StepsTraceAppend | StatecHackathon2025/YaSchat/backend_conversational.py:49-111 | steps are independent: a raise in one step does not stop the following steps |
| ExtractionProperties.SkippedStepIsInvisible | StatecHackathon2025/YaSchat/backend_conversational.py:50-55 | a step whose status is not `"success"` or whose result is empty contributes nothing |
| ExtractionProperties.ItemsTraceFlowListsNonEmpty | StatecHackathon2025/YaSchat/backend_conversational.py:102 | every discovery list the items of a step produce is non-empty |
| ExtractionProperties.StepsTraceFlowListsNonEmpty | StatecHackathon2025/YaSchat/backend_conversational.py:102-104 | every discovery list reached in any step is non-empty |
| ExtractionProperties.ExtractInvariants | StatecHackathon2025/YaSchat/backend_conversational.py:30-113 | The output holds exactly the contributions of the reached payloads. Observations are at most the dataflows and at most the SDMX payloads. `has_data` holds iff a marking payload was reached, and a dataflow implies `has_data`. `has_data` with no dataflow only comes from a structure fault |
| ExtractionProperties.TotalDefined | StatecHackathon2025/YaSchat/backend_conversational.py:88-90 | the observation total exists exactly when every series is countable |
| ExtractionProperties.SdmxPayloadEffect | StatecHackathon2025/YaSchat/backend_conversational.py:70-99 | a complete SDMX message sets `has_data` and appends exactly one dataflow and one observation. The observation has `len(series)` series and the sum of observations, each series' count at most the total. The summary becomes "Retrieved S data series with O observations" |
| ExtractionProperties.EmptyDataSetsAddsOnlyFlow | StatecHackathon2025/YaSchat/backend_conversational.py:70-82 | an empty `dataSets` sets `has_data` and appends the dataflow, with no observation and an unchanged summary |
| ExtractionProperties.DiscoveryListPayload | StatecHackathon2025/YaSchat/backend_conversational.py:70-105 | a non-empty list extends the dataflows with all its elements and writes "Found N dataflows"; a list holding the string "data" raises instead |
| ExtractionProperties.ScalarPayloads | StatecHackathon2025/YaSchat/backend_conversational.py:70 | `null`, booleans and numbers raise; a string raises iff it contains "data", and is ignored otherwise |
| ExtractionProperties.ObservationsDefaults | StatecHackathon2025/YaSchat/backend_conversational.py:89-90 | a series without `observations` counts 0, and a series that is not a dict raises |
| ExtractionProperties.ExampleSeriesCounts | StatecHackathon2025/YaSchat/backend_conversational.py:83-90 | two series, with two observations and with none, count 2 series and 2 observations |
| ExtractionProperties.ScenarioSummaryText | StatecHackathon2025/YaSchat/backend_conversational.py:99 | one series with one observation is summarised as "Retrieved 1 data series with 1 observations" |
| ExtractionProperties.ScenarioExtraction | StatecHackathon2025/YaSchat/backend_conversational.py:30-113 | a full result with one SDMX message of one series and one observation extracts to the expected record |
| ExtractionProperties.HasDataWithoutDataflows | StatecHackathon2025/YaSchat/backend_conversational.py:71-78 | an SDMX message with a `null` structure sets `has_data` but yields no dataflow |
| Clarification.Advise | StatecHackathon2025/YaSchat/backend_conversational.py:116-142 | the two-rule decision over the result and the extracted record; its decision table is proved in `AdviseDecision` and its contents in `AdviseContents` |
| Clarification.AdviseDecision | StatecHackathon2025/YaSchat/backend_conversational.py:120-142 | Selection is asked iff there are more than 3 dataflows and no observation. Otherwise refinement is asked iff success, no data and a plan. Otherwise nothing. With 3 or fewer dataflows there is never a selection |
| Clarification.AdviseContents | StatecHackathon2025/YaSchat/backend_conversational.py:122-140 | A selection offers the first min(5, N) dataflows in order, a message naming N and the fixed prompt. A refinement carries the three fixed suggestions |
| Clarification.SelectMessageInjective | StatecHackathon2025/YaSchat/backend_conversational.py:124 | the selection message determines the number of dataflows it reports |
| Clarification.FailedRequestsNeverClarify | StatecHackathon2025/YaSchat/backend_conversational.py:130 | a request with a falsy `success` gets no clarifying question |
| Clarification.PlannedWithoutExecutionRefines | StatecHackathon2025/YaSchat/backend_conversational.py:129-140 | a successful, planned request without execution steps is asked to be refined |
| Clarification.NoObservationsMeansNoCompleteSdmx | StatecHackathon2025/YaSchat/backend_conversational.py:92-96 | an empty observation list means no SDMX message was handled to the end with data sets |
| Clarification.SelectionMeansNoFetchedData | StatecHackathon2025/YaSchat/backend_conversational.py:120-127 | a selection is offered only for a successful, executed request with more than 3 dataflows and no SDMX data handled to the end |
| Clarification.RefinementMeansNothingFound | StatecHackathon2025/YaSchat/backend_conversational.py:130-140 | a refinement is suggested only when the request succeeded and was planned, and no SDMX or discovery payload was reached |
| Clarification.ScenarioNoClarification | StatecHackathon2025/YaSchat/backend_conversational.py:116-142 | a request that fetched data gets no clarifying question |
| Conversation.Outgoing | StatecHackathon2025/YaSchat/backend_conversational.py:243-247 | the request sent to the workflow engine: the request itself, or "Context: " + the last turn's query + "\nNew request: " + the request; characterised by `RewriteIff` and `ContextNeverNests` |
| Conversation.FailSoft | StatecHackathon2025/YaSchat/backend_conversational.py:268-273 | the result the handler works with: the remote result, or `{success: false, error, error_type}` for an exception; characterised by `RemoteFailureIsSoft` |
| Conversation.RewriteIff | StatecHackathon2025/YaSchat/backend_conversational.py:243-247 | The request is rewritten iff the session has a turn and `use_context` is truthy. The outgoing text always ends with the request, and a rewrite starts with "Context: " and the last turn's query |
| Conversation.ContextNeverNests | StatecHackathon2025/YaSchat/backend_conversational.py:243-247 | a rewrite holds only the last recorded query and the new request, so its length does not grow with the number of turns |
| Conversation.RemoteFailureIsSoft | StatecHackathon2025/YaSchat/backend_conversational.py:268-273 | A remote failure gives `success: false` with the error and its type. It extracts to the zero record and gets no clarification |
| Conversation.SessionStore.constructor | StatecHackathon2025/YaSchat/backend_conversational.py:27 | the history starts empty |
| Conversation.SessionStore.Turns | StatecHackathon2025/YaSchat/backend_conversational.py:243 | `conversation_history.get(session_id, [])`: the session's turns, or none for an unknown session |
| Conversation.SessionStore.ExecuteQuery | StatecHackathon2025/YaSchat/backend_conversational.py:243-273 | The workflow engine receives the outgoing request computed from this session's history. An exception becomes the fail-soft result |
| Conversation.SessionStore.Query | StatecHackathon2025/YaSchat/backend_conversational.py:163-207 | An empty request is rejected with 400 and the history is unchanged. Otherwise one turn holding the original request is appended to this session, and the other sessions are unchanged. The response carries `success`, the result, the extraction, the advice and the session id |
| Conversation.SessionStore.Reset | StatecHackathon2025/YaSchat/backend_conversational.py:220-232 | the session's entry is removed if present, and nothing else changes; the reset is always acknowledged as successful |

## Left out

- HTTP plumbing is left out: CORS preflight, request routing, reading `Content-Length` and the body, writing JSON responses and headers, logging and the server loop. It is I/O without decisions. `Response` holds the fields of the body that is sent.
- Request bodies are taken as already decoded.
  - The "Invalid JSON" 400 response is left out.
  - So is the 500 response for any other exception in `handle_query` and `handle_reset`.
  - `QueryBody` has a string or absent `user_request` and `session_id`, and a dict or absent `context`.
  - Non-string values are not modelled. This includes a `null` `session_id`, which Python would use as the dict key `None`.
  - A non-dict `context` is not modelled either. It would raise at line 246 once the session has a turn.
- The fastmcp client call, `asyncio.run` and the decoding of the tool's reply (lines 249-266) are a foreign network call. They are the parameter `remote`. A reply that does not decode is one of its `Failed` outcomes.
- `json.loads` is the parameter `parse`, which gives `None` for text that does not decode. A decode error and any other exception take the same `continue` path at lines 107-111, so the model does not tell them apart.
- Results of a shape the extractor cannot walk raise out of `extract_actual_data` into the 500 response. In Python these are a top level that is not a dict, an `execution` that is not a list, and a step that is not a dict. `ExecutionResult` and `Step` have the dict shapes. A step's `result` is a list of items: a dict, a string or a number there contributes nothing in the source either.
- Python's `hasattr(item, 'text')` on arbitrary objects is modelled as the item kind `WithTextAttr`. Items decoded from JSON are always plain values.
- `raw_data` is carried as an opaque `Json` value. JSON numbers are reals, and only their truthiness matters.
- The models' maps carry no key order. Python dicts keep insertion order, which affects only the order of the observation sum (proved irrelevant) and how `raw_data` would be printed.
- The `print` calls at lines 110 and 209 are left out.
- `StatecHackathon2025/YaSchat/serve_chat.py` is not part of this model: it is a static-file server.
- Concurrency, timeouts and history eviction are left out. The server is single-threaded and the history is unbounded.
