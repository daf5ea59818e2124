/** The conversation layer of the backend: the per-session turn history (`conversation_history`),
    the query and reset handlers that update it, the optional rewriting of a request with the
    previous turn's query, and the fail-soft wrapping of the remote workflow call. */
module Conversation {
  import opened Json
  import opened Extraction
  import opened Clarification

  /** One recorded exchange: the user's own request (never the rewritten one), the execution
      result and what was extracted from it. */
  datatype Turn = Turn(query: string, result: ExecutionResult, extracted: Extracted)

  /** What the remote workflow call produced: a decoded execution result, or an exception (a
      transport or protocol failure, or a reply that does not decode) with its message and type. */
  datatype RemoteOutcome = Returned(result: ExecutionResult) | Failed(error: string, errorType: string)

  /** The decoded body of a query request. Absent members are `None`; a null `user_request` is
      treated as absent (both are rejected), and null `session_id` or `context` values are not
      modelled. */
  datatype QueryBody = QueryBody(userRequest: Option<string>, sessionId: Option<string>,
                                 context: Option<map<string, Json>>)

  datatype Response =
    | Rejected(status: nat, error: string)
    | Answered(success: Json, originalResult: ExecutionResult, extractedData: Extracted,
               clarification: Option<Clarification>, conversationId: string)

  datatype ResetAck = ResetAck(success: bool, message: string)

  const DefaultSession: string := "default"
  const MissingRequest: string := "Missing user_request"
  const ResetMessage: string := "Conversation reset"
  const ContextLead: string := "Context: "
  const NewRequestLead: string := "\nNew request: "

  function RequestOf(body: QueryBody): string {
    body.userRequest.GetOr("")
  }

  function SessionOf(body: QueryBody): string {
    body.sessionId.GetOr(DefaultSession)
  }

  function ContextOf(body: QueryBody): map<string, Json> {
    body.context.GetOr(map[])
  }

  /** `context.get('use_context')` is truthy. */
  predicate UsesContext(context: map<string, Json>) {
    "use_context" in context && Truthy(context["use_context"])
  }

  /** `result.get('success', False)`. */
  function SuccessOf(r: ExecutionResult): Json {
    r.success.GetOr(JBool(false))
  }

  /** The request actually sent to the workflow engine (lines 243-247 of the source). */
  function Outgoing(history: seq<Turn>, request: string, useContext: bool): string {
    if |history| > 0 && useContext then
      ContextLead + history[|history| - 1].query + NewRequestLead + request
    else
      request
  }

  /** The result the handler works with: the remote one, or for an exception the record
      `{success: false, error, error_type}` (lines 268-273 of the source). */
  function FailSoft(o: RemoteOutcome): ExecutionResult {
    match o
    case Returned(r) => r
    case Failed(e, t) => ExecutionResult(Some(JBool(false)), None, None, Some(e), Some(t))
  }

  /** The request is rewritten exactly when there is a previous turn and `use_context` is
      truthy; the new request always ends the outgoing text, after the previous turn's query. */
  lemma RewriteIff(history: seq<Turn>, request: string, useContext: bool)
    ensures Outgoing(history, request, useContext) != request <==> |history| > 0 && useContext
    ensures |Outgoing(history, request, useContext)| >= |request|
    ensures Outgoing(history, request, useContext)[|Outgoing(history, request, useContext)| - |request|..] == request
    ensures |history| > 0 && useContext ==>
              Outgoing(history, request, useContext)[..|ContextLead| + |history[|history| - 1].query|]
              == ContextLead + history[|history| - 1].query
  {
    var out := Outgoing(history, request, useContext);
    if |history| > 0 && useContext {
      var q := history[|history| - 1].query;
      assert |out| == |ContextLead| + |q| + |NewRequestLead| + |request|;
      assert out[|out| - |request|..] == request;
      assert out[..|ContextLead| + |q|] == ContextLead + q;
    }
  }

  /** The context never nests: once a turn is recorded, the next rewritten request carries that
      turn's query and the new request and nothing older, so its length does not grow with the
      number of turns. */
  lemma ContextNeverNests(earlier: seq<Turn>, last: Turn, request: string)
    ensures Outgoing(earlier + [last], request, true) == ContextLead + last.query + NewRequestLead + request
    ensures |Outgoing(earlier + [last], request, true)| == |last.query| + |request| + |ContextLead| + |NewRequestLead|
  {
  }

  /** A remote failure becomes a failed result: it keeps the error and its type, extracts to the
      zero record and asks no clarifying question. */
  lemma RemoteFailureIsSoft(parse: string -> Option<Json>, error: string, errorType: string)
    ensures !Succeeded(FailSoft(Failed(error, errorType)))
    ensures SuccessOf(FailSoft(Failed(error, errorType))) == JBool(false)
    ensures FailSoft(Failed(error, errorType)).error == Some(error)
    ensures FailSoft(Failed(error, errorType)).errorType == Some(errorType)
    ensures Extract(parse, FailSoft(Failed(error, errorType))) == Extracted(false, [], [], "")
    ensures Advise(FailSoft(Failed(error, errorType)), Extract(parse, FailSoft(Failed(error, errorType)))) == None
  {
    FailedRequestsNeverClarify(parse, FailSoft(Failed(error, errorType)));
  }

  /** The process-wide conversation history: session id to the turns recorded under it. */
  class SessionStore {
    var history: map<string, seq<Turn>>

    constructor ()
      ensures history == map[]
    {
      history := map[];
    }

    /** `conversation_history.get(session_id, [])`. */
    function Turns(sessionId: string): seq<Turn>
      reads this
    {
      if sessionId in history then history[sessionId] else []
    }

    /** `execute_mcp_query` without its transport: rewrite the request with the last turn's query
        when asked to, call the workflow engine, and turn an exception into a failed result. */
    method ExecuteQuery(request: string, sessionId: string, context: map<string, Json>,
                        remote: string -> RemoteOutcome)
      returns (result: ExecutionResult)
      ensures result == FailSoft(remote(Outgoing(Turns(sessionId), request, UsesContext(context))))
    {
      var outgoing := Outgoing(Turns(sessionId), request, UsesContext(context));
      var outcome := remote(outgoing);
      result := FailSoft(outcome);
    }

    /** `handle_query`: reject an empty request without touching the history; otherwise run the
        request, extract, advise, and append exactly one turn holding the original request to
        this session, leaving every other session alone. */
    method Query(body: QueryBody, remote: string -> RemoteOutcome, parse: string -> Option<Json>)
      returns (response: Response)
      modifies this
      ensures RequestOf(body) == "" ==> response == Rejected(400, MissingRequest) && history == old(history)
      ensures RequestOf(body) != "" ==>
                var sid := SessionOf(body);
                var result := FailSoft(remote(Outgoing(old(Turns(sid)), RequestOf(body), UsesContext(ContextOf(body)))));
                var extracted := Extract(parse, result);
                response == Answered(SuccessOf(result), result, extracted, Advise(result, extracted), sid) &&
                history == old(history)[sid := old(Turns(sid)) + [Turn(RequestOf(body), result, extracted)]]
      ensures forall s :: s != SessionOf(body) ==> (s in history <==> s in old(history)) && Turns(s) == old(Turns(s))
    {
      var request := RequestOf(body);
      var sid := SessionOf(body);
      var context := ContextOf(body);
      if request == "" {
        response := Rejected(400, MissingRequest);
        return;
      }
      if sid !in history {
        history := history[sid := []];
      }
      var result := ExecuteQuery(request, sid, context, remote);
      var extracted := ExtractActualData(parse, result);
      var clarification := Advise(result, extracted);
      response := Answered(SuccessOf(result), result, extracted, clarification, sid);
      history := history[sid := history[sid] + [Turn(request, result, extracted)]];
    }

    /** `handle_reset`: drop the session's history if there is one; always acknowledge. */
    method Reset(sessionId: Option<string>) returns (ack: ResetAck)
      modifies this
      ensures history == old(history) - {sessionId.GetOr(DefaultSession)}
      ensures sessionId.GetOr(DefaultSession) !in old(history) ==> history == old(history)
      ensures Turns(sessionId.GetOr(DefaultSession)) == []
      ensures ack == ResetAck(true, ResetMessage)
    {
      var sid := sessionId.GetOr(DefaultSession);
      if sid in history {
        history := history - {sid};
      }
      ack := ResetAck(true, ResetMessage);
    }
  }
}
