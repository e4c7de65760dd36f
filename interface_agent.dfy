/** The interface agent (`agents/interface/main.py`), which orchestrates one request: a `single`
    task goes to one prediction agent and then to the scoring agent, and a `benchmark` task goes to
    every agent whose id starts with a prefix, collecting the first reply of each. The Coral tools
    (thread creation, sending, waiting for mentions), `json.loads` and the clock are parameters: the
    replies that arrive before the 60-second deadline are given as a sequence of message batches. */
module InterfaceAgent {
  import opened Common
  import opened Text
  import opened Json

  /** A message as `wait_for_mentions` reports it; a missing field is `None`. */
  datatype Message = Message(threadId: Option<string>, senderId: Option<string>, content: Option<string>)

  const NO_MESSAGES := "wait_for_mentions succeeded but returned no messages."
  const NO_MATCH := "Received messages, but none matched the expected reply in thread "
  const NO_THREAD := "Could not get a valid threadId: "
  /** `str(KeyError('content'))`. */
  const CONTENT_MISSING := "'content'"
  const TIMEOUT_ERROR := "Agent did not reply within the timeout."
  const DEFAULT_PREFIX := "predict"

  // ---------------------------------------------------------------------------------------------
  // `delegate_task_in_new_thread`: reply selection.

  predicate IsReply(m: Message, threadId: string, agentId: string)
  {
    m.threadId == Some(threadId) && m.senderId == Some(agentId)
  }

  /** The index of the first reply in `messages`. */
  function FirstReply(messages: seq<Message>, threadId: string, agentId: string): (r: Option<nat>)
    ensures r.Some? ==> r.value < |messages| && IsReply(messages[r.value], threadId, agentId)
    ensures r.Some? ==> forall i | 0 <= i < r.value :: !IsReply(messages[i], threadId, agentId)
    ensures r.None? <==> forall i | 0 <= i < |messages| :: !IsReply(messages[i], threadId, agentId)
  {
    if |messages| == 0 then None
    else if IsReply(messages[0], threadId, agentId) then Some(0)
    else
      var rest := FirstReply(messages[1..], threadId, agentId);
      assert forall i | 1 <= i < |messages| :: messages[i] == messages[1..][i - 1];
      if rest.None? then None else Some(rest.value + 1)
  }

  /** The content of the reply the delegation returns, or the text of the error it raises;
      `threadShown` is how the thread-creation result prints. */
  function DelegateReply(threadId: Option<string>, agentId: string, messages: seq<Message>, threadShown: string): Result<string, string>
  {
    if threadId.None? || threadId.value == "" then Err(NO_THREAD + threadShown)
    else if |messages| == 0 then Err(NO_MESSAGES)
    else
      match FirstReply(messages, threadId.value, agentId)
      case None => Err(NO_MATCH + threadId.value)
      case Some(i) => if messages[i].content.Some? then Ok(messages[i].content.value) else Err(CONTENT_MISSING)
  }

  /** The search loop of the delegation over an existing thread. */
  method SearchReply(messages: seq<Message>, threadId: string, agentId: string) returns (r: Result<string, string>)
    requires threadId != "" && |messages| > 0
    ensures r == DelegateReply(Some(threadId), agentId, messages, "")
  {
    for i := 0 to |messages|
      invariant forall k | 0 <= k < i :: !IsReply(messages[k], threadId, agentId)
    {
      var message := messages[i];
      if message.threadId == Some(threadId) && message.senderId == Some(agentId) {
        if message.content.None? {
          return Err(CONTENT_MISSING);
        }
        return Ok(message.content.value);
      }
    }
    return Err(NO_MATCH + threadId);
  }

  /** The delegation returns the content of a message from the agent in its thread, and only fails to
      find one when no message is such a reply. */
  lemma DelegateReplySpec(threadId: string, agentId: string, messages: seq<Message>, threadShown: string)
    requires threadId != ""
    ensures var r := DelegateReply(Some(threadId), agentId, messages, threadShown);
            && (r.Ok? ==> exists i | 0 <= i < |messages| :: IsReply(messages[i], threadId, agentId) && messages[i].content == Some(r.value))
            && (r == Err(NO_MATCH + threadId) <==>
                  |messages| > 0 && forall i | 0 <= i < |messages| :: !IsReply(messages[i], threadId, agentId))
  {
    var r := DelegateReply(Some(threadId), agentId, messages, threadShown);
    if |messages| > 0 && FirstReply(messages, threadId, agentId).Some? {
      var i := FirstReply(messages, threadId, agentId).value;
      assert r == Err(CONTENT_MISSING) || r == Ok(messages[i].content.value);
      assert CONTENT_MISSING != NO_MATCH + threadId by {
        assert |CONTENT_MISSING| < |NO_MATCH|;
      }
    }
    if |messages| == 0 {
      assert NO_MESSAGES != NO_MATCH + threadId by {
        assert |NO_MESSAGES| == 53 && |NO_MATCH + threadId| >= 65;
      }
    }
  }

  // ---------------------------------------------------------------------------------------------
  // Benchmark: workers, dispatch, listening loop, formatting.

  /** `[a for a in agents if a['id'].startswith(prefix)]`, over the listed agent ids. */
  function Workers(agents: seq<string>, prefix: string): (r: seq<string>)
    ensures forall x :: x in r <==> x in agents && StartsWith(x, prefix)
    ensures |r| <= |agents|
  {
    if |agents| == 0 then []
    else
      var rest := Workers(agents[..|agents| - 1], prefix);
      var a := agents[|agents| - 1];
      assert agents == agents[..|agents| - 1] + [a];
      if StartsWith(a, prefix) then rest + [a] else rest
  }

  /** `thread_to_agent_map` after the dispatch: each worker whose thread was created (with a
      non-empty id), under that thread id. */
  function ThreadMap(workers: seq<string>, dispatch: string -> Option<string>): (m: map<string, string>)
    ensures forall t | t in m :: m[t] in workers && dispatch(m[t]) == Some(t)
    ensures forall i | 0 <= i < |workers| :: dispatch(workers[i]).Some? && dispatch(workers[i]).value != "" ==> dispatch(workers[i]).value in m
  {
    if |workers| == 0 then map[]
    else
      var m := ThreadMap(workers[..|workers| - 1], dispatch);
      var w := workers[|workers| - 1];
      assert workers == workers[..|workers| - 1] + [w];
      var t := dispatch(w);
      if t.Some? && t.value != "" then m[t.value := w] else m
  }

  /** `{"source": agent, "response": response}`. */
  function Entry(agentId: string, response: Json): Json
  {
    JObj(map["source" := JStr(agentId), "response" := response])
  }

  /** Every recorded result is the entry of its own agent. */
  predicate WellFormed(results: map<string, Json>)
  {
    forall id | id in results ::
      results[id].JObj? && results[id].fields.Keys == {"source", "response"} && results[id].fields["source"] == JStr(id)
  }

  /** A message is recorded when its thread belongs to a worker, that worker sent it, and the worker
      has no result yet. */
  predicate Accepts(results: map<string, Json>, threads: map<string, string>, m: Message)
  {
    && m.threadId.Some? && m.threadId.value in threads
    && threads[m.threadId.value] != ""
    && m.senderId == Some(threads[m.threadId.value])
    && threads[m.threadId.value] !in results
  }

  /** One message of the inner loop: decoding a recorded reply can raise, which ends the task. */
  function RecordMessage(results: map<string, Json>, threads: map<string, string>, m: Message, loads: string -> Result<Json, string>): Result<map<string, Json>, string>
  {
    if !Accepts(results, threads, m) then Ok(results)
    else if m.content.None? then Err(CONTENT_MISSING)
    else
      var agentId := threads[m.threadId.value];
      var decoded := loads(m.content.value);
      if decoded.Err? then Err(decoded.error) else Ok(results[agentId := Entry(agentId, decoded.value)])
  }

  /** The results after the first `k` messages of a batch. */
  function BatchUpTo(results: map<string, Json>, threads: map<string, string>, batch: seq<Message>, k: nat, loads: string -> Result<Json, string>): Result<map<string, Json>, string>
    requires k <= |batch|
  {
    if k == 0 then Ok(results)
    else
      var before := BatchUpTo(results, threads, batch, k - 1, loads);
      if before.Err? then before else RecordMessage(before.value, threads, batch[k - 1], loads)
  }

  /** The listening loop: it stops once `workerCount` agents have a result, or when no batch arrives
      before the deadline. */
  function Listen(results: map<string, Json>, threads: map<string, string>, batches: seq<seq<Message>>, workerCount: nat, loads: string -> Result<Json, string>): Result<map<string, Json>, string>
    decreases |batches|
  {
    if |results| >= workerCount || |batches| == 0 then Ok(results)
    else
      var next := BatchUpTo(results, threads, batches[0], |batches[0]|, loads);
      if next.Err? then next else Listen(next.value, threads, batches[1..], workerCount, loads)
  }

  method RecordBatch(results: map<string, Json>, threads: map<string, string>, batch: seq<Message>, loads: string -> Result<Json, string>)
    returns (outcome: Result<map<string, Json>, string>)
    ensures outcome == BatchUpTo(results, threads, batch, |batch|, loads)
  {
    var current := results;
    for i := 0 to |batch|
      invariant BatchUpTo(results, threads, batch, i, loads) == Ok(current)
    {
      var message := batch[i];
      if message.threadId.Some? && message.threadId.value in threads {
        var agentId := threads[message.threadId.value];
        if agentId != "" && message.senderId == Some(agentId) && agentId !in current {
          if message.content.None? {
            BatchErrorPersists(results, threads, batch, i + 1, loads);
            return Err(CONTENT_MISSING);
          }
          var decoded := loads(message.content.value);
          if decoded.Err? {
            BatchErrorPersists(results, threads, batch, i + 1, loads);
            return Err(decoded.error);
          }
          current := current[agentId := Entry(agentId, decoded.value)];
        }
      }
    }
    return Ok(current);
  }

  /** Once a message raised, the rest of the batch is not looked at. */
  lemma {:induction false} BatchErrorPersists(results: map<string, Json>, threads: map<string, string>, batch: seq<Message>, k: nat, loads: string -> Result<Json, string>)
    requires k <= |batch| && BatchUpTo(results, threads, batch, k, loads).Err?
    ensures BatchUpTo(results, threads, batch, |batch|, loads) == BatchUpTo(results, threads, batch, k, loads)
    decreases |batch| - k
  {
    if k < |batch| {
      BatchErrorPersists(results, threads, batch, k + 1, loads);
    }
  }

  /** The central loop of the benchmark. */
  method ListenForReplies(threads: map<string, string>, batches: seq<seq<Message>>, workerCount: nat, loads: string -> Result<Json, string>)
    returns (outcome: Result<map<string, Json>, string>)
    ensures outcome == Listen(map[], threads, batches, workerCount, loads)
  {
    var results: map<string, Json> := map[];
    var k := 0;
    while k < |batches| && |results| < workerCount
      invariant 0 <= k <= |batches|
      invariant Listen(results, threads, batches[k..], workerCount, loads) == Listen(map[], threads, batches, workerCount, loads)
    {
      assert batches[k..][1..] == batches[k + 1..];
      var next := RecordBatch(results, threads, batches[k], loads);
      if next.Err? {
        return next;
      }
      results := next.value;
      k := k + 1;
    }
    return Ok(results);
  }

  /** One message never changes a result already recorded, records only a worker's own reply, and
      keeps every result the entry of its agent. */
  lemma RecordKeeps(results: map<string, Json>, threads: map<string, string>, m: Message, loads: string -> Result<Json, string>)
    requires WellFormed(results)
    requires RecordMessage(results, threads, m, loads).Ok?
    ensures var after := RecordMessage(results, threads, m, loads).value;
            && (forall id | id in results :: id in after && after[id] == results[id])
            && (forall id | id in after && id !in results :: exists t | t in threads :: threads[t] == id)
            && WellFormed(after)
  {
    var after := RecordMessage(results, threads, m, loads).value;
    if Accepts(results, threads, m) {
      var t := m.threadId.value;
      forall id | id in after && id !in results ensures exists t | t in threads :: threads[t] == id {
        assert threads[t] == id;
      }
    }
  }

  lemma {:induction false} BatchKeeps(results: map<string, Json>, threads: map<string, string>, batch: seq<Message>, k: nat, loads: string -> Result<Json, string>)
    requires WellFormed(results) && k <= |batch|
    requires BatchUpTo(results, threads, batch, k, loads).Ok?
    ensures var after := BatchUpTo(results, threads, batch, k, loads).value;
            && (forall id | id in results :: id in after && after[id] == results[id])
            && (forall id | id in after && id !in results :: exists t | t in threads :: threads[t] == id)
            && WellFormed(after)
  {
    if k > 0 {
      BatchKeeps(results, threads, batch, k - 1, loads);
      RecordKeeps(BatchUpTo(results, threads, batch, k - 1, loads).value, threads, batch[k - 1], loads);
    }
  }

  /** The first reply wins: across the whole loop a recorded result is never replaced, every result
      belongs to an agent with a thread, and each is that agent's entry. */
  lemma {:induction false} FirstReplyWins(results: map<string, Json>, threads: map<string, string>, batches: seq<seq<Message>>, workerCount: nat, loads: string -> Result<Json, string>)
    requires WellFormed(results)
    requires Listen(results, threads, batches, workerCount, loads).Ok?
    ensures var after := Listen(results, threads, batches, workerCount, loads).value;
            && (forall id | id in results :: id in after && after[id] == results[id])
            && (forall id | id in after && id !in results :: exists t | t in threads :: threads[t] == id)
            && WellFormed(after)
    decreases |batches|
  {
    if |results| < workerCount && |batches| > 0 {
      var next := BatchUpTo(results, threads, batches[0], |batches[0]|, loads);
      BatchKeeps(results, threads, batches[0], |batches[0]|, loads);
      FirstReplyWins(next.value, threads, batches[1..], workerCount, loads);
    }
  }

  /** One entry per worker, in worker order: its recorded result, or the timeout error. */
  function Responses(workers: seq<string>, results: map<string, Json>): (r: seq<Json>)
    ensures |r| == |workers|
  {
    seq(|workers|, i requires 0 <= i < |workers| =>
      if workers[i] in results then results[workers[i]]
      else JObj(map["source" := JStr(workers[i]), "error" := JStr(TIMEOUT_ERROR)]))
  }

  method FormatResponses(workers: seq<string>, results: map<string, Json>) returns (responses: seq<Json>)
    ensures responses == Responses(workers, results)
  {
    responses := [];
    for i := 0 to |workers|
      invariant responses == Responses(workers[..i], results)
    {
      var agentId := workers[i];
      if agentId in results {
        responses := responses + [results[agentId]];
      } else {
        responses := responses + [JObj(map["source" := JStr(agentId), "error" := JStr(TIMEOUT_ERROR)])];
      }
    }
    assert workers[..|workers|] == workers;
  }

  /** `Received k of n expected responses.` */
  function Summary(received: nat, expected: nat): string
  {
    "Received " + NatToString(received) + " of " + NatToString(expected) + " expected responses."
  }

  function BenchmarkResult(workers: seq<string>, results: map<string, Json>): Json
  {
    JObj(map["benchmark_summary" := JStr(Summary(|results|, |workers|)), "responses" := JArr(Responses(workers, results))])
  }

  /** Each worker's entry names it as its source, and holds a response exactly when it replied. */
  lemma ResponsesShape(workers: seq<string>, results: map<string, Json>, i: nat)
    requires WellFormed(results) && i < |workers|
    ensures var r := Responses(workers, results)[i];
            && r.JObj? && "source" in r.fields && r.fields["source"] == JStr(workers[i])
            && ("response" in r.fields <==> workers[i] in results)
            && ("error" in r.fields <==> workers[i] !in results)
            && (workers[i] !in results ==> r.fields["error"] == JStr(TIMEOUT_ERROR))
  {
  }

  /** The error of a benchmark without workers; `shown` is how the prefix prints. */
  function NoWorkers(shown: string): string
  {
    "No worker agents found with prefix '" + shown + "'."
  }

  /** The benchmark of `workers` with the given thread creation and replies. */
  function Benchmark(agents: seq<string>, prefix: string, dispatch: string -> Option<string>, batches: seq<seq<Message>>, loads: string -> Result<Json, string>): Result<Json, string>
  {
    var workers := Workers(agents, prefix);
    if |workers| == 0 then Err(NoWorkers(prefix))
    else
      var threads := ThreadMap(workers, dispatch);
      var outcome := Listen(map[], threads, batches, |workers|, loads);
      if outcome.Err? then Err(outcome.error) else Ok(BenchmarkResult(workers, outcome.value))
  }

  /** A benchmark result lists one entry per worker in order and counts replies only from workers. */
  lemma BenchmarkShape(agents: seq<string>, prefix: string, dispatch: string -> Option<string>, batches: seq<seq<Message>>, loads: string -> Result<Json, string>)
    requires Benchmark(agents, prefix, dispatch, batches, loads).Ok?
    ensures var workers := Workers(agents, prefix);
            var threads := ThreadMap(workers, dispatch);
            var results := Listen(map[], threads, batches, |workers|, loads).value;
            && |workers| > 0
            && Benchmark(agents, prefix, dispatch, batches, loads).value == BenchmarkResult(workers, results)
            && (forall id | id in results :: id in workers && StartsWith(id, prefix))
            && |results| <= |workers|
            && WellFormed(results)
  {
    var workers := Workers(agents, prefix);
    var threads := ThreadMap(workers, dispatch);
    FirstReplyWins(map[], threads, batches, |workers|, loads);
    var results := Listen(map[], threads, batches, |workers|, loads).value;
    KeysBound(results.Keys, workers);
  }

  /** A set of workers is no larger than the worker list. */
  lemma {:induction false} KeysBound(keys: set<string>, workers: seq<string>)
    requires forall k | k in keys :: k in workers
    ensures |keys| <= |workers|
  {
    if |workers| == 0 {
      assert keys == {};
    } else {
      var w := workers[|workers| - 1];
      var prefix := workers[..|workers| - 1];
      var rest := keys - {w};
      forall k | k in rest ensures k in prefix {
        var j :| 0 <= j < |workers| && workers[j] == k;
        assert j < |workers| - 1 && prefix[j] == k;
      }
      KeysBound(rest, prefix);
      assert keys <= rest + {w};
      assert |keys| <= |rest + {w}| <= |rest| + 1;
    }
  }

  // ---------------------------------------------------------------------------------------------
  // Single task and the top level.

  /** `prediction_obj['scoring'] = score_obj`: a `TypeError` for anything but a dictionary. */
  function SetScoring(prediction: Json, score: Json): Result<Json, string>
  {
    if prediction.JObj? then Ok(JObj(prediction.fields["scoring" := score]))
    else if prediction.JArr? then Err("list indices must be integers or slices, not str")
    else Err("'" + TypeName(prediction) + "' object does not support item assignment")
  }

  /** The score lands under `scoring` and every other key of the prediction keeps its value. */
  lemma SetScoringMerge(prediction: map<string, Json>, score: Json)
    ensures var r := SetScoring(JObj(prediction), score);
            && r.Ok? && r.value.JObj?
            && r.value.fields.Keys == prediction.Keys + {"scoring"}
            && r.value.fields["scoring"] == score
            && forall k | k in prediction && k != "scoring" :: r.value.fields[k] == prediction[k]
  {
  }

  /** What one delegation to an agent produced: the thread id read from the thread-creation result
      (shown as `threadShown` in the error text), and the messages `wait_for_mentions` returned. */
  datatype Delegation = Delegation(threadId: Option<string>, threadShown: string, messages: seq<Message>)

  /** `delegate_task_in_new_thread(agent, data)`: the reply chosen from what the delegation produced. */
  function Delegate(delegation: (string, Json) -> Delegation, agentId: string, data: Json): Result<string, string>
  {
    var d := delegation(agentId, data);
    DelegateReply(d.threadId, agentId, d.messages, d.threadShown)
  }

  /** The single task: the named agent's prediction, decoded, with the scoring agent's score merged in. */
  function Single(agents: seq<string>, agentName: Json, requestData: Json, delegation: (string, Json) -> Delegation,
                  loads: string -> Result<Json, string>, show: Json -> string): Result<Json, string>
  {
    if !(agentName.JStr? && agentName.s in agents) then Err("Predict agent '" + show(agentName) + "' not found.")
    else if "scoring" !in agents then Err("Scoring agent 'scoring' not found.")
    else
      var predictionText := Delegate(delegation, agentName.s, requestData);
      if predictionText.Err? then Err(predictionText.error)
      else
        var prediction := loads(predictionText.value);
        if prediction.Err? then Err(prediction.error)
        else
          var scoreText := Delegate(delegation, "scoring", prediction.value);
          if scoreText.Err? then Err(scoreText.error)
          else
            var score := loads(scoreText.value);
            if score.Err? then Err(score.error) else SetScoring(prediction.value, score.value)
  }

  /** A successful single task returns the decoded prediction object with the decoded score under
      `scoring`, having asked the scoring agent about exactly that prediction; each of the two texts
      is the first reply of its agent in the thread created for it. */
  lemma SingleResult(agents: seq<string>, name: string, requestData: Json, delegation: (string, Json) -> Delegation,
                     loads: string -> Result<Json, string>, show: Json -> string)
    requires Single(agents, JStr(name), requestData, delegation, loads, show).Ok?
    ensures var predictionText := Delegate(delegation, name, requestData).value;
            var prediction := loads(predictionText).value;
            var scoreText := Delegate(delegation, "scoring", prediction).value;
            var score := loads(scoreText).value;
            var dp := delegation(name, requestData);
            var ds := delegation("scoring", prediction);
            && name in agents && "scoring" in agents
            && prediction.JObj?
            && Single(agents, JStr(name), requestData, delegation, loads, show) == Ok(JObj(prediction.fields["scoring" := score]))
            && dp.threadId.Some? && dp.threadId.value != ""
            && FirstReply(dp.messages, dp.threadId.value, name).Some?
            && dp.messages[FirstReply(dp.messages, dp.threadId.value, name).value].content == Some(predictionText)
            && ds.threadId.Some? && ds.threadId.value != ""
            && FirstReply(ds.messages, ds.threadId.value, "scoring").Some?
            && ds.messages[FirstReply(ds.messages, ds.threadId.value, "scoring").value].content == Some(scoreText)
  {
  }

  /** The parts of the request the interface reads, and the outcomes of its tools. */
  datatype Tools = Tools(
    agents: seq<string>,                            // ids from `list_agents`
    delegation: (string, Json) -> Delegation,        // thread and replies of a single-task delegation
    dispatch: string -> Option<string>,             // thread created for a benchmark worker
    batches: seq<seq<Message>>,                     // benchmark replies before the deadline
    loads: string -> Result<Json, string>,
    show: Json -> string)

  /** `final_result`: the task's outcome, `{}` for an unknown task type, or `{"error": str(e)}`. */
  function FinalResult(request: Json, tools: Tools): Json
  {
    if !request.JObj? then ErrorJson("'" + TypeName(request) + "' object has no attribute 'get'")
    else
      var task := GetOr(request, "task", JNull);
      var payload := GetOr(request, "payload", JObj(map[]));
      if !payload.JObj? then ErrorJson("'" + TypeName(payload) + "' object has no attribute 'get'")
      else
        var outcome :=
          if task == JStr("single") then
            Single(tools.agents, GetOr(payload, "agent_name", JNull), GetOr(payload, "request_data", JObj(map[])),
                   tools.delegation, tools.loads, tools.show)
          else if task == JStr("benchmark") then
            var prefix := GetOr(payload, "agent_prefix", JStr(DEFAULT_PREFIX));
            if prefix.JStr? then Benchmark(tools.agents, prefix.s, tools.dispatch, tools.batches, tools.loads)
            else if |tools.agents| == 0 then Err(NoWorkers(tools.show(prefix)))
            else Err("startswith first arg must be str or a tuple of str, not " + TypeName(prefix))
          else Ok(JObj(map[]));
        if outcome.Err? then ErrorJson(outcome.error) else outcome.value
  }

  /** The benchmark prefix defaults to `predict`, and a request without a task type produces the
      empty dictionary (a payload that is not a dictionary raises before the task type is looked at). */
  lemma FinalResultCases(request: map<string, Json>, tools: Tools)
    ensures "task" !in request && ("payload" !in request || request["payload"].JObj?) ==>
              FinalResult(JObj(request), tools) == JObj(map[])
    ensures "task" in request && request["task"] == JStr("benchmark") && "payload" in request && request["payload"].JObj?
            && "agent_prefix" !in request["payload"].fields ==>
              var outcome := Benchmark(tools.agents, DEFAULT_PREFIX, tools.dispatch, tools.batches, tools.loads);
              FinalResult(JObj(request), tools) == (if outcome.Err? then ErrorJson(outcome.error) else outcome.value)
    ensures "task" in request && request["task"] == JStr("benchmark") && "payload" in request && request["payload"].JObj?
            && "agent_prefix" in request["payload"].fields && !request["payload"].fields["agent_prefix"].JStr? ==>
              var prefix := request["payload"].fields["agent_prefix"];
              FinalResult(JObj(request), tools) ==
                if |tools.agents| == 0 then ErrorJson(NoWorkers(tools.show(prefix)))
                else ErrorJson("startswith first arg must be str or a tuple of str, not " + TypeName(prefix))
  {
  }
}
