/** The HTTP gateway of `microserver/main.py`: it builds the agent graph of a session (the interface
    agent, the firecrawl agent and the workers), creates the session on the Coral server, and waits
    for the interface agent to call back with the result. The HTTP exchange with the Coral server,
    `json.dumps`/`json.loads` and the 300-second wait are parameters: the callbacks that arrive
    while the request waits are given in order. */
module Microserver {
  import opened Common
  import opened Text
  import opened Json
  import InterfaceAgent

  /** The environment read at start-up; an unset variable is `None`. */
  datatype Environment = Environment(mistralKey: Option<string>, firecrawlKey: Option<string>, thisHost: Option<string>)

  const THIS_HOST_DEFAULT := "http://localhost:8000"
  const RESULT_TOOL := "prediction-result"
  const TOOL_DESCRIPTION := "Send the final, aggregated prediction result back."

  function Host(env: Environment): string
  {
    if env.thisHost.Some? then env.thisHost.value else THIS_HOST_DEFAULT
  }

  /** A possibly unset value: `None` becomes JSON `null`. */
  function Nullable(v: Option<string>): Json
  {
    if v.Some? then JStr(v.value) else JNull
  }

  function Strings(s: seq<string>): (r: Json)
    ensures r.JArr? && |r.items| == |s| && forall i | 0 <= i < |s| :: r.items[i] == JStr(s[i])
  {
    JArr(seq(|s|, i requires 0 <= i < |s| => JStr(s[i])))
  }

  /** `{"type": "string", "value": value}`. */
  function StringOption(value: Json): Json
  {
    JObj(map["type" := JStr("string"), "value" := value])
  }

  /** The `customTools` dictionary: the result callback of this service. */
  function CustomTools(host: string, description: string): Json
  {
    JObj(map[RESULT_TOOL := JObj(map[
      "transport" := JObj(map["type" := JStr("http"), "url" := JStr(host + "/mcp/prediction-result")]),
      "toolSchema" := JObj(map[
        "name" := JStr("send_prediction_result"),
        "description" := JStr(description),
        "inputSchema" := JObj(map[
          "type" := JStr("object"),
          "properties" := JObj(map["result" := JObj(map["type" := JStr("string")])]),
          "required" := Strings(["result"])])])])])
  }

  /** The result tool calls back to `/mcp/prediction-result` on the given host. */
  lemma CallbackUrl(host: string, description: string)
    ensures Field(Field(Field(CustomTools(host, description), RESULT_TOOL), "transport"), "url") == JStr(host + "/mcp/prediction-result")
  {
  }

  /** One agent of the graph, a local executable. */
  function AgentConfig(name: string, version: string, options: map<string, Json>, toolAccess: seq<string>): Json
  {
    JObj(map[
      "id" := JObj(map["name" := JStr(name), "version" := JStr(version)]),
      "name" := JStr(name),
      "provider" := JObj(map["type" := JStr("local"), "runtime" := JStr("executable")]),
      "coralPlugins" := JArr([]),
      "blocking" := JBool(true),
      "options" := JObj(options),
      "customToolAccess" := Strings(toolAccess)])
  }

  function InterfaceConfig(userRequest: string): Json
  {
    AgentConfig("interface", "0.0.1", map["USER_REQUEST" := StringOption(JStr(userRequest))], [RESULT_TOOL])
  }

  function WorkerConfig(name: string, env: Environment): Json
  {
    AgentConfig(name, "1.0.0", map["MODEL_API_KEY" := StringOption(Nullable(env.mistralKey))], [])
  }

  function FirecrawlConfig(env: Environment): Json
  {
    AgentConfig("firecrawl", "0.0.1",
      map["FIRECRAWL_API_KEY" := StringOption(Nullable(env.firecrawlKey)), "MODEL_API_KEY" := StringOption(Nullable(env.mistralKey))], [])
  }

  function WorkerConfigs(names: seq<string>, env: Environment): (r: seq<Json>)
    ensures |r| == |names| && forall i | 0 <= i < |names| :: r[i] == WorkerConfig(names[i], env)
  {
    seq(|names|, i requires 0 <= i < |names| => WorkerConfig(names[i], env))
  }

  /** The loop that builds `worker_agent_configs`. */
  method BuildWorkerConfigs(names: seq<string>, env: Environment) returns (configs: seq<Json>)
    ensures configs == WorkerConfigs(names, env)
  {
    configs := [];
    for i := 0 to |names|
      invariant configs == WorkerConfigs(names[..i], env)
    {
      configs := configs + [WorkerConfig(names[i], env)];
    }
    assert names[..|names|] == names;
  }

  /** `create_app_graph_request`. */
  function AppGraph(userRequest: string, workers: seq<string>, env: Environment): Json
  {
    JObj(map[
      "agents" := JArr([InterfaceConfig(userRequest), FirecrawlConfig(env)] + WorkerConfigs(workers, env)),
      "groups" := JArr([Strings(["interface", "firecrawl"] + workers)]),
      "customTools" := CustomTools(Host(env), TOOL_DESCRIPTION)])
  }

  /** `config[key]` of a dictionary, `null` when absent. */
  function Field(j: Json, key: string): Json
  {
    GetOr(j, key, JNull)
  }

  /** The graph lists the interface, the firecrawl agent and then one agent per worker in order, all
      in one group; only the interface receives the user request and the result tool, and every
      worker receives the model key. */
  lemma AppGraphLayout(userRequest: string, workers: seq<string>, env: Environment)
    ensures var g := AppGraph(userRequest, workers, env);
            var agents := Field(g, "agents");
            && agents.JArr? && |agents.items| == 2 + |workers|
            && Field(agents.items[0], "name") == JStr("interface")
            && Field(agents.items[1], "name") == JStr("firecrawl")
            && (forall i | 0 <= i < |workers| :: Field(agents.items[2 + i], "name") == JStr(workers[i]))
            && Field(g, "groups") == JArr([Strings(["interface", "firecrawl"] + workers)])
            && (forall i | 0 <= i < |agents.items| ::
                  && Field(agents.items[i], "options").JObj?
                  && ("USER_REQUEST" in Field(agents.items[i], "options").fields <==> i == 0)
                  && (Field(agents.items[i], "customToolAccess") == Strings([RESULT_TOOL]) <==> i == 0)
                  && (i >= 2 ==> Field(agents.items[i], "options").fields.Keys == {"MODEL_API_KEY"}))
            && Field(Field(agents.items[0], "options"), "USER_REQUEST") == StringOption(JStr(userRequest))
  {
    AppGraphFields(userRequest, workers, env);
    forall i | 0 <= i < 2 + |workers| {
      AgentRow(userRequest, workers, env, i);
    }
    AgentRow(userRequest, workers, env, 0);
    AgentRow(userRequest, workers, env, 1);
  }

  /** The `i`-th agent of the graph: its name, and what of the request, the result tool and the model
      key it receives. */
  lemma AgentRow(userRequest: string, workers: seq<string>, env: Environment, i: nat)
    requires i < 2 + |workers|
    ensures var a := ([InterfaceConfig(userRequest), FirecrawlConfig(env)] + WorkerConfigs(workers, env))[i];
            && Field(a, "name") == (if i == 0 then JStr("interface") else if i == 1 then JStr("firecrawl") else JStr(workers[i - 2]))
            && Field(a, "options").JObj?
            && ("USER_REQUEST" in Field(a, "options").fields <==> i == 0)
            && (Field(a, "customToolAccess") == Strings([RESULT_TOOL]) <==> i == 0)
            && (i >= 2 ==> Field(a, "options").fields.Keys == {"MODEL_API_KEY"})
            && (i == 0 ==> Field(Field(a, "options"), "USER_REQUEST") == StringOption(JStr(userRequest)))
  {
    assert Strings([]) != Strings([RESULT_TOOL]) by {
      assert |Strings([]).items| == 0;
    }
    if i == 0 {
      AgentFields("interface", "0.0.1", map["USER_REQUEST" := StringOption(JStr(userRequest))], [RESULT_TOOL]);
    } else if i == 1 {
      AgentFields("firecrawl", "0.0.1",
        map["FIRECRAWL_API_KEY" := StringOption(Nullable(env.firecrawlKey)), "MODEL_API_KEY" := StringOption(Nullable(env.mistralKey))], []);
    } else {
      assert ([InterfaceConfig(userRequest), FirecrawlConfig(env)] + WorkerConfigs(workers, env))[i] == WorkerConfig(workers[i - 2], env);
      AgentFields(workers[i - 2], "1.0.0", map["MODEL_API_KEY" := StringOption(Nullable(env.mistralKey))], []);
    }
  }

  /** The agents and groups entries of the graph. */
  lemma AppGraphFields(userRequest: string, workers: seq<string>, env: Environment)
    ensures Field(AppGraph(userRequest, workers, env), "agents") ==
              JArr([InterfaceConfig(userRequest), FirecrawlConfig(env)] + WorkerConfigs(workers, env))
    ensures Field(AppGraph(userRequest, workers, env), "groups") == JArr([Strings(["interface", "firecrawl"] + workers)])
  {
  }

  /** The name, options and tool access of one agent's configuration. */
  lemma AgentFields(name: string, version: string, options: map<string, Json>, toolAccess: seq<string>)
    ensures Field(AgentConfig(name, version, options, toolAccess), "name") == JStr(name)
    ensures Field(AgentConfig(name, version, options, toolAccess), "options") == JObj(options)
    ensures Field(AgentConfig(name, version, options, toolAccess), "customToolAccess") == Strings(toolAccess)
  {
  }

  // ---------------------------------------------------------------------------------------------
  // Request payloads.

  /** The validated request body, `PredictionData.model_dump()`. */
  function PredictionData(title: string, markets: seq<string>): Json
  {
    JObj(map["title" := JStr(title), "markets" := Strings(markets)])
  }

  /** The `USER_REQUEST` of `/predict/single/{agent_name}`. */
  function SingleRequest(agentName: string, requestData: Json): Json
  {
    JObj(map["task" := JStr("single"), "payload" := JObj(map["agent_name" := JStr(agentName), "request_data" := requestData])])
  }

  /** The `USER_REQUEST` of `/predict/benchmark`. */
  function BenchmarkRequest(requestData: Json): Json
  {
    JObj(map["task" := JStr("benchmark"), "payload" := JObj(map["agent_prefix" := JStr("predict"), "request_data" := requestData])])
  }

  const BENCHMARK_AGENTS: seq<string> := ["predict0", "predict1"]

  function SingleGraph(agentName: string, title: string, markets: seq<string>, dumps: Json -> string, env: Environment): Json
  {
    AppGraph(dumps(SingleRequest(agentName, PredictionData(title, markets))), [agentName], env)
  }

  function BenchmarkGraph(title: string, markets: seq<string>, dumps: Json -> string, env: Environment): Json
  {
    AppGraph(dumps(BenchmarkRequest(PredictionData(title, markets))), BENCHMARK_AGENTS, env)
  }

  /** A single request reaches the interface agent as a `single` task for that agent with the request
      data, when decoding its text gives the request back. */
  lemma SingleRequestRoutes(agentName: string, requestData: Json, tools: InterfaceAgent.Tools)
    ensures var outcome := InterfaceAgent.Single(tools.agents, JStr(agentName), requestData, tools.delegation, tools.loads, tools.show);
            InterfaceAgent.FinalResult(SingleRequest(agentName, requestData), tools) ==
              (if outcome.Err? then ErrorJson(outcome.error) else outcome.value)
  {
  }

  /** In a benchmark graph the interface's prefix `predict` selects exactly the two benchmark
      workers, in order, from the graph's agents. */
  lemma BenchmarkWorkersSelected()
    ensures InterfaceAgent.Workers(["interface", "firecrawl"] + BENCHMARK_AGENTS, "predict") == BENCHMARK_AGENTS
  {
    var all := ["interface", "firecrawl"] + BENCHMARK_AGENTS;
    assert !StartsWith("interface", "predict") by { assert "interface"[0] != "predict"[0]; }
    assert !StartsWith("firecrawl", "predict") by { assert "firecrawl"[0] != "predict"[0]; }
    assert StartsWith("predict0", "predict") && StartsWith("predict1", "predict");
    assert all[..1][..0] == [];
    assert InterfaceAgent.Workers(all[..1], "predict") == [];
    assert all[..2][..1] == all[..1];
    assert InterfaceAgent.Workers(all[..2], "predict") == [];
    assert all[..3][..2] == all[..2];
    assert InterfaceAgent.Workers(all[..3], "predict") == ["predict0"];
    assert all[..3] == all[..|all| - 1];
  }

  // ---------------------------------------------------------------------------------------------
  // Sessions and the pending-result table.

  /** The gateway's HTTP answer. */
  datatype Response = Body(body: Json) | HttpError(status: int, detail: string)

  /** What the Coral server's session endpoint gave: a decoded body, a connection failure, or a
      non-success status with its text. */
  datatype SessionReply = Created(data: Json) | Unreachable(error: string) | Refused(status: int, text: string)

  const INTERNAL_ERROR := "Internal Server Error"

  /** The body posted to the Coral server's session endpoint. */
  function SessionPayload(graph: Json): Json
  {
    JObj(map["privacyKey" := JStr("privkey"), "applicationId" := JStr("predictionApp"), "agentGraphRequest" := graph])
  }

  /** The session id, or the HTTP error the endpoint answers with. A truthy id that is not a string
      is registered under a key no callback path can name: it is `None` here; a list or dictionary
      cannot be a key at all. `handlesStatus` says
      whether the endpoint turns a refused request into its status code. */
  function SessionId(reply: SessionReply, handlesStatus: bool): (r: Result<Option<string>, Response>)
    ensures r.Err? ==> r.error.HttpError?
    ensures r.Ok? <==> reply.Created? && reply.data.JObj? && var id := GetOr(reply.data, "sessionId", JNull);
                       Truthy(id) && !id.JArr? && !id.JObj?
    ensures r.Ok? && r.value.Some? ==> GetOr(reply.data, "sessionId", JNull) == JStr(r.value.value)
  {
    match reply
    case Unreachable(e) => Err(HttpError(502, "Could not connect to Coral Server: " + e))
    case Refused(code, text) => if handlesStatus then Err(HttpError(code, "Coral Server Error: " + text)) else Err(HttpError(500, INTERNAL_ERROR))
    case Created(data) =>
      if !data.JObj? then Err(HttpError(500, INTERNAL_ERROR))
      else
        var id := GetOr(data, "sessionId", JNull);
        if !Truthy(id) then Err(HttpError(500, "Failed to create Coral session"))
        else if id.JStr? then Ok(Some(id.s))
        else if id.JArr? || id.JObj? then Err(HttpError(500, INTERNAL_ERROR))
        else Ok(None)
  }

  /** `pending_predictions` as its futures stand: `None` while waiting, the result once set. */
  type Pending = map<string, Option<string>>

  /** A callback sets a waiting session's result; a set result, or an unknown session, is left alone. */
  function SetOnce(pending: Pending, session: string, result: string): (r: Pending)
    ensures r.Keys == pending.Keys
    ensures forall s | s in pending && s != session :: r[s] == pending[s]
  {
    if session in pending && pending[session].None? then pending[session := Some(result)] else pending
  }

  /** The callbacks, as (session, result) pairs, in their order of arrival. */
  function Deliver(pending: Pending, callbacks: seq<(string, string)>): (r: Pending)
    ensures r.Keys == pending.Keys
    decreases |callbacks|
  {
    if |callbacks| == 0 then pending
    else Deliver(SetOnce(pending, callbacks[0].0, callbacks[0].1), callbacks[1..])
  }

  /** The result of the first callback for `session`. */
  function FirstResult(callbacks: seq<(string, string)>, session: string): Option<string>
    decreases |callbacks|
  {
    if |callbacks| == 0 then None
    else if callbacks[0].0 == session then Some(callbacks[0].1)
    else FirstResult(callbacks[1..], session)
  }

  /** `FirstResult` is the result of the earliest callback naming the session, and there is none
      exactly when no callback names it. */
  lemma {:induction false} FirstResultSpec(callbacks: seq<(string, string)>, session: string)
    ensures FirstResult(callbacks, session).None? <==> forall i | 0 <= i < |callbacks| :: callbacks[i].0 != session
    ensures FirstResult(callbacks, session).Some? ==> exists i | 0 <= i < |callbacks| ::
              callbacks[i] == (session, FirstResult(callbacks, session).value) && forall j | 0 <= j < i :: callbacks[j].0 != session
    decreases |callbacks|
  {
    if |callbacks| > 0 && callbacks[0].0 != session {
      var tail := callbacks[1..];
      FirstResultSpec(tail, session);
      assert forall i | 1 <= i < |callbacks| :: callbacks[i] == tail[i - 1];
      var r := FirstResult(tail, session);
      if r.Some? {
        var i :| 0 <= i < |tail| && tail[i] == (session, r.value) && forall j | 0 <= j < i :: tail[j].0 != session;
        assert callbacks[i + 1] == (session, r.value);
        forall j | 0 <= j < i + 1 ensures callbacks[j].0 != session {
          if j > 0 {
            assert callbacks[j] == tail[j - 1];
          }
        }
      }
    } else if |callbacks| > 0 {
      assert callbacks[0] == (session, callbacks[0].1);
    }
  }

  /** Set once, a result is never replaced: a session that was waiting holds the first delivered
      result, and one that already had a result keeps it. */
  lemma {:induction false} FirstResultWins(pending: Pending, callbacks: seq<(string, string)>, session: string)
    requires session in pending
    ensures pending[session].Some? ==> Deliver(pending, callbacks)[session] == pending[session]
    ensures pending[session].None? ==> Deliver(pending, callbacks)[session] == FirstResult(callbacks, session)
    decreases |callbacks|
  {
    if |callbacks| > 0 {
      FirstResultWins(SetOnce(pending, callbacks[0].0, callbacks[0].1), callbacks[1..], session);
    }
  }

  /** A callback for a session no request waits for changes nothing. */
  lemma UnknownSessionIgnored(pending: Pending, session: string, result: string)
    requires session !in pending
    ensures SetOnce(pending, session, result) == pending
  {
  }

  /** What a request answers once its wait ends: the decoded result, or the timeout. */
  function Answer(result: Option<string>, loads: string -> Result<Json, string>): Response
  {
    if result.None? then HttpError(504, "The agent orchestration timed out.")
    else
      var decoded := loads(result.value);
      if decoded.Err? then HttpError(500, INTERNAL_ERROR) else Body(decoded.value)
  }

  class Gateway {
    var pending: Pending

    constructor()
      ensures pending == map[]
    {
      pending := map[];
    }

    /** `mcp_prediction_result`. */
    method Callback(session: string, result: string) returns (status: Json)
      modifies this
      ensures pending == SetOnce(old(pending), session, result)
      ensures status == JObj(map["status" := JStr(if session in old(pending) then "success" else "ignored")])
    {
      if session !in pending {
        return JObj(map["status" := JStr("ignored")]);
      }
      if pending[session].None? {
        pending := pending[session := Some(result)];
      }
      return JObj(map["status" := JStr("success")]);
    }

    /** `start_session_and_wait_for_result`: create the session, register it, take the callbacks
        that arrive during the wait, then drop the entry whatever the outcome. */
    method StartSessionAndWait(graph: Json, post: Json -> SessionReply, callbacks: seq<(string, string)>, loads: string -> Result<Json, string>)
      returns (response: Response)
      modifies this
      ensures var id := SessionId(post(SessionPayload(graph)), true);
              && (id.Err? ==> response == id.error && pending == old(pending))
              && (id.Ok? && id.value.None? ==> response == Answer(None, loads) && pending == Deliver(old(pending), callbacks))
              && (id.Ok? && id.value.Some? ==>
                    var delivered := Deliver(old(pending)[id.value.value := None], callbacks);
                    && pending == delivered - {id.value.value}
                    && response == Answer(delivered[id.value.value], loads))
    {
      var id := SessionId(post(SessionPayload(graph)), true);
      if id.Err? {
        return id.error;
      }
      if id.value.Some? {
        pending := pending[id.value.value := None];
      }
      ghost var start := pending;
      for i := 0 to |callbacks|
        invariant Deliver(start, callbacks) == Deliver(pending, callbacks[i..])
      {
        assert callbacks[i..][1..] == callbacks[i + 1..];
        var _ := Callback(callbacks[i].0, callbacks[i].1);
      }
      if id.value.None? {
        return Answer(None, loads);
      }
      var session := id.value.value;
      var result := pending[session];
      pending := pending - {session};
      response := Answer(result, loads);
    }
  }

  /** A request whose session was created answers with the first result delivered for it, or times
      out when no callback named it; its entry is gone afterwards. */
  lemma AnswerIsFirstResult(pending: Pending, session: string, callbacks: seq<(string, string)>, loads: string -> Result<Json, string>)
    ensures var delivered := Deliver(pending[session := None], callbacks);
            && delivered[session] == FirstResult(callbacks, session)
            && session !in delivered - {session}
            && (FirstResult(callbacks, session).None? ==> Answer(delivered[session], loads) == HttpError(504, "The agent orchestration timed out."))
  {
    FirstResultWins(pending[session := None], callbacks, session);
  }
}
