/** The direct gateway of `microserver/main2.py`: the session graph holds only the predict0 agent,
    which receives the request itself and the result tool; the gateway waits for its callback. It
    shares the JSON builders and the pending-result table of the orchestrating gateway. */
module MicroserverDirect {
  import opened Common
  import opened Json
  import opened Microserver
  import PredictAgent

  const DIRECT_TOOL_DESCRIPTION := "Send the final prediction result back."
  const DIRECT_TIMEOUT := "Prediction request timed out. The agent never called back."
  const NO_PENDING := "No pending request for this session."

  /** The predict0 agent, given the model key, the request and the result tool. */
  function DirectAgentConfig(query: string, env: Environment): Json
  {
    AgentConfig("predict0", "1.0.0",
      map["MODEL_API_KEY" := StringOption(Nullable(env.mistralKey)), "USER_REQUEST" := StringOption(JStr(query))],
      [RESULT_TOOL])
  }

  /** `create_app_graph_request` of the direct gateway. */
  function DirectGraph(query: string, env: Environment): Json
  {
    JObj(map[
      "agents" := JArr([DirectAgentConfig(query, env)]),
      "groups" := JArr([]),
      "customTools" := CustomTools(Host(env), DIRECT_TOOL_DESCRIPTION)])
  }

  /** The graph is one agent, predict0, with no groups; it alone gets the request text and the result
      tool, whose callback is addressed to this host. */
  lemma DirectGraphLayout(query: string, env: Environment)
    ensures var g := DirectGraph(query, env);
            var agents := Field(g, "agents");
            && agents.JArr? && |agents.items| == 1
            && Field(agents.items[0], "name") == JStr("predict0")
            && Field(g, "groups") == JArr([])
            && Field(agents.items[0], "options").JObj?
            && Field(agents.items[0], "options").fields.Keys == {"MODEL_API_KEY", "USER_REQUEST"}
            && Field(Field(agents.items[0], "options"), "USER_REQUEST") == StringOption(JStr(query))
            && Field(agents.items[0], "customToolAccess") == Strings([RESULT_TOOL])
            && Field(Field(Field(Field(g, "customTools"), RESULT_TOOL), "transport"), "url") == JStr(Host(env) + "/mcp/prediction-result")
  {
    AgentFields("predict0", "1.0.0",
      map["MODEL_API_KEY" := StringOption(Nullable(env.mistralKey)), "USER_REQUEST" := StringOption(JStr(query))], [RESULT_TOOL]);
    CallbackUrl(Host(env), DIRECT_TOOL_DESCRIPTION);
  }

  /** `PredictionRequest.model_dump()`: sources are `{"url", "name"}` records. */
  function PredictionRequest(title: string, markets: seq<string>, sources: seq<(string, string)>): Json
  {
    JObj(map[
      "title" := JStr(title),
      "markets" := Strings(markets),
      "sources" := JArr(seq(|sources|, i requires 0 <= i < |sources| =>
                     JObj(map["url" := JStr(sources[i].0), "name" := JStr(sources[i].1)])))])
  }

  /** When the agent decodes the request text back to the request, predict0 refuses an empty title,
      then an empty market list, and otherwise builds the model on the request. */
  lemma DirectRequestValidation(title: string, markets: seq<string>, sources: seq<(string, string)>,
                                f: PredictAgent.Foreign, raisedText: string, predict: Json -> string)
    requires f.loads(f.dumps(PredictionRequest(title, markets, sources))) == Ok(PredictionRequest(title, markets, sources))
    ensures var request := PredictionRequest(title, markets, sources);
            var job := PredictAgent.Predict0Job(f.dumps(request), true, f, raisedText, predict);
            && (job.modelBuilt <==> title != "" && |markets| > 0)
            && (title == "" ==> job.sent == Some(f.dumps(ErrorJson(PredictAgent.INVALID_REQUEST + PredictAgent.MISSING_TITLE))))
            && (title != "" && |markets| == 0 ==> job.sent == Some(f.dumps(ErrorJson(PredictAgent.INVALID_REQUEST + PredictAgent.MISSING_MARKETS))))
            && (title != "" && |markets| > 0 ==> job.sent == Some(predict(request)))
  {
    var request := PredictionRequest(title, markets, sources);
    assert PredictAgent.MessageContent(f.dumps(request), f.loads) == request;
    assert GetOr(request, "title", JNull) == JStr(title);
    assert GetOr(request, "markets", JNull) == Strings(markets);
    PredictAgent.ValidateCases(request);
  }

  /** What the direct request answers once its wait ends: the raw result, or the timeout. */
  function DirectAnswer(result: Option<string>): Response
  {
    if result.None? then HttpError(504, DIRECT_TIMEOUT) else Body(JObj(map["result" := JStr(result.value)]))
  }

  class DirectGateway {
    var pending: Pending

    constructor()
      ensures pending == map[]
    {
      pending := map[];
    }

    /** `mcp_prediction_result`: an unknown session is answered 404. */
    method Callback(session: string, result: string) returns (response: Response)
      modifies this
      ensures pending == SetOnce(old(pending), session, result)
      ensures response == if session in old(pending) then Body(JObj(map["status" := JStr("success")])) else HttpError(404, NO_PENDING)
    {
      if session !in pending {
        return HttpError(404, NO_PENDING);
      }
      if pending[session].None? {
        pending := pending[session := Some(result)];
      }
      return Body(JObj(map["status" := JStr("success")]));
    }

    /** `predict`: create the session (a refused request is not caught and answers 500), register
        it, take the callbacks that arrive during the wait, then drop the entry whatever the outcome. */
    method Predict(title: string, markets: seq<string>, sources: seq<(string, string)>, env: Environment,
                   dumps: Json -> string, post: Json -> SessionReply, callbacks: seq<(string, string)>)
      returns (response: Response)
      modifies this
      ensures var graph := DirectGraph(dumps(PredictionRequest(title, markets, sources)), env);
              var id := SessionId(post(SessionPayload(graph)), false);
              && (id.Err? ==> response == id.error && pending == old(pending))
              && (id.Ok? && id.value.None? ==> response == DirectAnswer(None) && pending == Deliver(old(pending), callbacks))
              && (id.Ok? && id.value.Some? ==>
                    var delivered := Deliver(old(pending)[id.value.value := None], callbacks);
                    && pending == delivered - {id.value.value}
                    && response == DirectAnswer(delivered[id.value.value]))
    {
      var graph := DirectGraph(dumps(PredictionRequest(title, markets, sources)), env);
      var id := SessionId(post(SessionPayload(graph)), false);
      if id.Err? {
        return id.error;
      }
      if id.value.Some? {
        pending := pending[id.value.value := None];
      }
      ghost var start := pending;
      for i := 0 to |callbacks|
        invariant Deliver(start, callbacks) == Deliver(pending, callbacks[i..])
      {
        assert callbacks[i..][1..] == callbacks[i + 1..];
        var _ := Callback(callbacks[i].0, callbacks[i].1);
      }
      if id.value.None? {
        return DirectAnswer(None);
      }
      var session := id.value.value;
      var result := pending[session];
      pending := pending - {session};
      response := DirectAnswer(result);
    }
  }

  /** A refused session request is not handled here: it answers 500 rather than its status code. */
  lemma RefusedSessionIsInternalError(code: int, text: string)
    ensures SessionId(Refused(code, text), false) == Err(HttpError(500, INTERNAL_ERROR))
    ensures SessionId(Refused(code, text), true) == Err(HttpError(code, "Coral Server Error: " + text))
  {
  }

  /** The direct request answers with the first result delivered for its session, or times out. */
  lemma DirectAnswerIsFirstResult(pending: Pending, session: string, callbacks: seq<(string, string)>)
    ensures var delivered := Deliver(pending[session := None], callbacks);
            DirectAnswer(delivered[session]) ==
              if FirstResult(callbacks, session).Some? then Body(JObj(map["result" := JStr(FirstResult(callbacks, session).value)]))
              else HttpError(504, DIRECT_TIMEOUT)
  {
    FirstResultWins(pending[session := None], callbacks, session);
  }
}
