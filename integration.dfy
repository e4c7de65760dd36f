/** The bridge from the Prophet Arena trust scores to the TrustSwarm database: the latest snapshots
    are copied into `prophet_arena_trust_scores`, the model ranking is written into
    `agent_trust_scores` under agent ids derived from model names, and a run chains the pipeline's
    metric step, the copy and the update, stopping at the first failure. Both TrustSwarm tables are
    written with `INSERT OR REPLACE` under a UNIQUE key, modelled as keyed sequences. */
module Integration {
  import opened Common
  import opened Text
  import opened Tables
  import opened Ranking
  import opened Leaderboard

  /** The model names with a fixed agent id. */
  const LISTED_MODELS: seq<string> := ["GPT-4", "GPT-5", "Claude", "o3", "Gemini"]

  const AGENT_SUFFIX: string := "-agent"

  /** The mapping table's value for a listed name. */
  function ListedAgentId(name: string): Option<string>
  {
    if name == "GPT-4" then Some("gpt-4-agent")
    else if name == "GPT-5" then Some("gpt-5-agent")
    else if name == "Claude" then Some("claude-agent")
    else if name == "o3" then Some("o3-agent")
    else if name == "Gemini" then Some("gemini-agent")
    else None
  }

  /** The TrustSwarm agent id of a model: the table's id for a listed name, otherwise the name
      lower-cased with every blank turned into '-', followed by "-agent". */
  function AgentId(name: string): (id: string)
    ensures EndsWith(id, AGENT_SUFFIX)
  {
    match ListedAgentId(name)
    case Some(id) => id
    case None => ReplaceChar(Lower(name), ' ', "-") + AGENT_SUFFIX
  }

  /** The listed names get their fixed ids, and every other name is mangled: its id has no blank
      before the suffix and is as long as the name plus the suffix. */
  lemma AgentIdCases(name: string)
    ensures ListedAgentId(name).Some? <==> name in LISTED_MODELS
    ensures name == "GPT-4" ==> AgentId(name) == "gpt-4-agent"
    ensures name == "GPT-5" ==> AgentId(name) == "gpt-5-agent"
    ensures name == "Claude" ==> AgentId(name) == "claude-agent"
    ensures name == "o3" ==> AgentId(name) == "o3-agent"
    ensures name == "Gemini" ==> AgentId(name) == "gemini-agent"
    ensures name !in LISTED_MODELS ==>
              var id := AgentId(name);
              && id[..|id| - |AGENT_SUFFIX|] == ReplaceChar(Lower(name), ' ', "-")
              && ' ' !in id
              && |id| == |name| + |AGENT_SUFFIX|
  {
    if name !in LISTED_MODELS {
      var stem := ReplaceChar(Lower(name), ' ', "-");
      ReplaceCharLength(Lower(name), ' ', '-');
      assert AgentId(name) == stem + AGENT_SUFFIX;
      assert (stem + AGENT_SUFFIX)[..|stem|] == stem;
      assert ' ' !in AGENT_SUFFIX;
    }
  }

  /** Replacing a character by a one-character string keeps the length. */
  lemma {:induction false} ReplaceCharLength(s: string, from: char, to: char)
    ensures |ReplaceChar(s, from, [to])| == |s|
  {
    if |s| > 0 {
      ReplaceCharLength(s[1..], from, to);
    }
  }

  /** Key and row of `prophet_arena_trust_scores`, UNIQUE(model_name, category, calculation_date). */
  datatype SnapshotKey = SnapshotKey(modelName: string, category: Option<string>, calculationDate: int)
  datatype SnapshotValue = SnapshotValue(trustScore: real, metadata: string)

  /** Key and row of `agent_trust_scores`, UNIQUE(agent_id, source, category); the metadata is the
      JSON object of the ranking's performance figures, kept here as its fields. */
  datatype AgentKey = AgentKey(agentId: string, source: string, category: Option<string>)
  datatype AgentMetadata = AgentMetadata(totalPredictions: int, accuracy: real, averageConfidence: real, calculationDate: int)
  datatype AgentValue = AgentValue(trustScore: real, metadata: AgentMetadata)

  const SOURCE: string := "prophet_arena"

  function SnapshotEntry(r: ScoreRow): Entry<SnapshotKey, SnapshotValue>
  {
    Entry(SnapshotKey(r.modelName, r.category, r.calculationDate), SnapshotValue(r.trustScore, r.metadata))
  }

  /** The rows the copy writes, one per latest snapshot, in order. */
  function SnapshotEntries(s: seq<ScoreRow>): (r: seq<Entry<SnapshotKey, SnapshotValue>>)
    ensures |r| == |s| && forall i | 0 <= i < |s| :: r[i] == SnapshotEntry(s[i])
  {
    seq(|s|, i requires 0 <= i < |s| => SnapshotEntry(s[i]))
  }

  function AgentEntry(x: RankedRow): Entry<AgentKey, AgentValue>
  {
    Entry(AgentKey(AgentId(x.score.modelName), SOURCE, x.score.category),
          AgentValue(x.score.trustScore,
                     AgentMetadata(x.performance.totalPredictions, x.performance.accuracy,
                                   x.performance.averageConfidence, x.score.calculationDate)))
  }

  /** The rows the update writes, one per ranking row, in ranking order. */
  function AgentEntries(s: seq<RankedRow>): (r: seq<Entry<AgentKey, AgentValue>>)
    ensures |r| == |s| && forall i | 0 <= i < |s| :: r[i] == AgentEntry(s[i])
  {
    seq(|s|, i requires 0 <= i < |s| => AgentEntry(s[i]))
  }

  /** After the copy every latest snapshot is stored under its key, a key written twice holds the
      later snapshot, and keys the copy did not write keep their old rows. */
  lemma SyncedTable(t: seq<Entry<SnapshotKey, SnapshotValue>>, latest: seq<ScoreRow>, i: int, k: SnapshotKey)
    requires UniqueKeys(t)
    ensures UniqueKeys(UpsertAll(t, SnapshotEntries(latest)))
    ensures 0 <= i < |latest| && SnapshotEntry(latest[i]).key == k &&
            (forall j | i < j < |latest| :: SnapshotEntry(latest[j]).key != k) ==>
              Lookup(UpsertAll(t, SnapshotEntries(latest)), k) == Some(SnapshotEntry(latest[i]).value)
    ensures (forall j | 0 <= j < |latest| :: SnapshotEntry(latest[j]).key != k) ==>
              Lookup(UpsertAll(t, SnapshotEntries(latest)), k) == Lookup(t, k)
  {
    var rows := SnapshotEntries(latest);
    UpsertAllLastWriteWins(t, rows, k);
    if 0 <= i < |latest| && SnapshotEntry(latest[i]).key == k &&
       (forall j | i < j < |latest| :: SnapshotEntry(latest[j]).key != k) {
      LookupLast(rows, k, i);
    }
  }

  /** The agent table behaves as a map keyed by (agent id, source, category): a model's row is
      stored under its agent id, a later ranking row with the same key replaces the earlier one,
      and other keys keep their old rows. */
  lemma UpdatedAgentTable(t: seq<Entry<AgentKey, AgentValue>>, ranking: seq<RankedRow>, i: int, k: AgentKey)
    requires UniqueKeys(t)
    ensures UniqueKeys(UpsertAll(t, AgentEntries(ranking)))
    ensures 0 <= i < |ranking| && AgentEntry(ranking[i]).key == k &&
            (forall j | i < j < |ranking| :: AgentEntry(ranking[j]).key != k) ==>
              Lookup(UpsertAll(t, AgentEntries(ranking)), k) == Some(AgentEntry(ranking[i]).value)
    ensures (forall j | 0 <= j < |ranking| :: AgentEntry(ranking[j]).key != k) ==>
              Lookup(UpsertAll(t, AgentEntries(ranking)), k) == Lookup(t, k)
  {
    var rows := AgentEntries(ranking);
    UpsertAllLastWriteWins(t, rows, k);
    if 0 <= i < |ranking| && AgentEntry(ranking[i]).key == k &&
       (forall j | i < j < |ranking| :: AgentEntry(ranking[j]).key != k) {
      LookupLast(rows, k, i);
    }
  }

  /** The update counts writes, not agents: two ranking rows of one model and category leave one row
      in an empty table while the count is two. */
  lemma UpdateCountsWrites(x: RankedRow)
    ensures |UpsertAll([], AgentEntries([x, x]))| == 1 < |[x, x]|
  {
    var e := AgentEntry(x);
    assert AgentEntries([x, x]) == [e, e];
    assert [e, e][..1] == [e] && [e][..0] == [];
    assert UpsertAll([], [e]) == [e];
  }

  /** `get_trustswarm_agent_recommendations`: the Prophet Arena rows of the agent table, narrowed to
      the category (or uncategorised rows) when one is given, by trust score descending, cut at
      `limit`. */
  function Recommendations(t: seq<Entry<AgentKey, AgentValue>>, category: Option<string>, limit: int): seq<Entry<AgentKey, AgentValue>>
  {
    Limit(SortDesc(KeepAgents(t, category), AgentTrust), limit)
  }

  function AgentTrust(e: Entry<AgentKey, AgentValue>): real
  {
    e.value.trustScore
  }

  function KeepAgents(t: seq<Entry<AgentKey, AgentValue>>, category: Option<string>): (r: seq<Entry<AgentKey, AgentValue>>)
    ensures forall e :: e in r <==> e in t && e.key.source == SOURCE && CategoryKept(category, e.key.category)
  {
    if |t| == 0 then []
    else
      var rest := KeepAgents(t[..|t| - 1], category);
      var e := t[|t| - 1];
      assert t == t[..|t| - 1] + [e];
      if e.key.source == SOURCE && CategoryKept(category, e.key.category) then rest + [e] else rest
  }

  /** Recommendations are Prophet Arena rows of the table that pass the category filter, at most
      `limit` of them for a non-negative limit, highest trust first. */
  lemma RecommendationsAreTop(t: seq<Entry<AgentKey, AgentValue>>, category: Option<string>, limit: int, e: Entry<AgentKey, AgentValue>)
    ensures limit >= 0 ==> |Recommendations(t, category, limit)| <= limit
    ensures SortedDesc(Recommendations(t, category, limit), AgentTrust)
    ensures e in Recommendations(t, category, limit) ==>
              e in t && e.key.source == SOURCE && CategoryKept(category, e.key.category)
  {
    var sorted := SortDesc(KeepAgents(t, category), AgentTrust);
    var r := Recommendations(t, category, limit);
    assert r == sorted[..|r|];
    forall i, j | 0 <= i < j < |r| ensures AgentTrust(r[i]) >= AgentTrust(r[j]) {
      assert r[i] == sorted[i] && r[j] == sorted[j];
    }
    if e in r {
      assert e in sorted;
      assert e in multiset(sorted);
    }
  }

  /** The integration report, without its date. */
  datatype IntegrationReport = IntegrationReport(
    totalModelsRanked: nat,
    totalAgentsUpdated: nat,
    topModels: seq<RankedRow>,
    topAgents: seq<Entry<AgentKey, AgentValue>>,
    categoriesCovered: set<string>)

  /** `categories_covered`: the distinct non-empty categories of the ranking. */
  function CategoriesCovered(ranking: seq<RankedRow>): set<string>
  {
    set i | 0 <= i < |ranking| && ranking[i].score.category.Some? && |ranking[i].score.category.value| > 0 :: ranking[i].score.category.value
  }

  /** `generate_integration_report` over the ranking and the recommendations it reads. */
  function Report(ranking: seq<RankedRow>, recommendations: seq<Entry<AgentKey, AgentValue>>): IntegrationReport
  {
    IntegrationReport(|ranking|, |recommendations|, Take(ranking, 5), Take(recommendations, 5), CategoriesCovered(ranking))
  }

  /** The report's top models are the first five (or fewer) of the ranking, its top agents the first
      five recommendations, its categories exactly the non-empty categories of the ranking, and,
      since the recommendations are read with their default limit of ten, it never reports more than
      ten agents however many rows the update wrote. */
  lemma ReportSummary(ranking: seq<RankedRow>, t: seq<Entry<AgentKey, AgentValue>>, c: string)
    ensures var r := Report(ranking, Recommendations(t, None, 10));
            && r.totalModelsRanked == |ranking|
            && |r.topModels| == Min(5, |ranking|) && r.topModels == ranking[..|r.topModels|]
            && r.totalAgentsUpdated <= 10
            && |r.topAgents| <= 5
            && (c in r.categoriesCovered <==> |c| > 0 && exists x | x in ranking :: x.score.category == Some(c))
  {
    var r := Report(ranking, Recommendations(t, None, 10));
    RecommendationsAreTop(t, None, 10, Entry(AgentKey("", "", None), AgentValue(0.0, AgentMetadata(0, 0.0, 0.0, 0))));
    if c in r.categoriesCovered {
      var i :| 0 <= i < |ranking| && ranking[i].score.category.Some? && |ranking[i].score.category.value| > 0 && ranking[i].score.category.value == c;
      assert ranking[i] in ranking;
    }
    if |c| > 0 && exists x | x in ranking :: x.score.category == Some(c) {
      var x :| x in ranking && x.score.category == Some(c);
      var i :| 0 <= i < |ranking| && ranking[i] == x;
      assert c in CategoriesCovered(ranking);
    }
  }

  /** The TrustSwarm side of the integration: its two tables. The Prophet Arena tables (`trust_scores`
      and `model_performance`) are read, never written, so they are passed to each operation. */
  class TrustSwarmIntegration {
    var prophetArenaTrustScores: seq<Entry<SnapshotKey, SnapshotValue>>
    var agentTrustScores: seq<Entry<AgentKey, AgentValue>>

    ghost predicate Valid()
      reads this
    {
      UniqueKeys(prophetArenaTrustScores) && UniqueKeys(agentTrustScores)
    }

    /** Opens an existing TrustSwarm database. */
    constructor(snapshots: seq<Entry<SnapshotKey, SnapshotValue>>, agents: seq<Entry<AgentKey, AgentValue>>)
      requires UniqueKeys(snapshots) && UniqueKeys(agents)
      ensures Valid()
      ensures prophetArenaTrustScores == snapshots && agentTrustScores == agents
    {
      prophetArenaTrustScores := snapshots;
      agentTrustScores := agents;
    }

    /** `sync_trust_scores_to_trustswarm`: without latest snapshots it fails before writing;
        otherwise it writes every latest snapshot in order and succeeds. */
    method SyncTrustScores(scores: seq<ScoreRow>) returns (ok: bool)
      modifies this
      ensures ok <==> |LatestSnapshots(scores)| > 0
      ensures prophetArenaTrustScores ==
                if ok then UpsertAll(old(prophetArenaTrustScores), SnapshotEntries(LatestSnapshots(scores)))
                else old(prophetArenaTrustScores)
      ensures agentTrustScores == old(agentTrustScores)
      ensures old(Valid()) ==> Valid()
    {
      var latest := LatestSnapshots(scores);
      if |latest| == 0 {
        return false;
      }
      ghost var before := prophetArenaTrustScores;
      for i := 0 to |latest|
        invariant prophetArenaTrustScores == UpsertAll(before, SnapshotEntries(latest[..i]))
        invariant agentTrustScores == old(agentTrustScores)
      {
        var e := SnapshotEntry(latest[i]);
        assert SnapshotEntries(latest[..i + 1])[..i] == SnapshotEntries(latest[..i]);
        prophetArenaTrustScores := Upsert(prophetArenaTrustScores, e.key, e.value);
      }
      assert latest[..|latest|] == latest;
      if UniqueKeys(before) {
        UpsertAllLastWriteWins(before, SnapshotEntries(latest), SnapshotEntry(latest[0]).key);
      }
      return true;
    }

    /** `update_trustswarm_agent_trust_scores`: without ranking rows it fails before writing;
        otherwise it writes one agent row per ranking row, in ranking order, and counts the writes. */
    method UpdateAgentTrustScores(scores: seq<ScoreRow>, perf: seq<PerformanceRow>) returns (ok: bool, updated: nat)
      modifies this
      ensures ok <==> |ModelTrustRanking(scores, perf, None)| > 0
      ensures updated == if ok then |ModelTrustRanking(scores, perf, None)| else 0
      ensures agentTrustScores ==
                if ok then UpsertAll(old(agentTrustScores), AgentEntries(ModelTrustRanking(scores, perf, None)))
                else old(agentTrustScores)
      ensures prophetArenaTrustScores == old(prophetArenaTrustScores)
      ensures old(Valid()) ==> Valid()
    {
      var ranking := ModelTrustRanking(scores, perf, None);
      if |ranking| == 0 {
        return false, 0;
      }
      ghost var before := agentTrustScores;
      updated := 0;
      for i := 0 to |ranking|
        invariant agentTrustScores == UpsertAll(before, AgentEntries(ranking[..i]))
        invariant updated == i
        invariant prophetArenaTrustScores == old(prophetArenaTrustScores)
      {
        var e := AgentEntry(ranking[i]);
        assert AgentEntries(ranking[..i + 1])[..i] == AgentEntries(ranking[..i]);
        agentTrustScores := Upsert(agentTrustScores, e.key, e.value);
        updated := updated + 1;
      }
      assert ranking[..|ranking|] == ranking;
      if UniqueKeys(before) {
        UpsertAllLastWriteWins(before, AgentEntries(ranking), AgentEntry(ranking[0]).key);
      }
      return true, updated;
    }

    /** `run_full_integration`. The scrape and the metric step belong to the pipeline and are given
        as their outcomes, with `scores` and `perf` the Prophet Arena tables after them. A failed
        scrape only raises a warning; the run succeeds exactly when the metric step, the copy and the
        update succeed, in that order; a failed step stops the run, so nothing later is written, and
        the report is produced only after all three succeed. */
    method RunFullIntegration(scrapeNewData: bool, scrapeOk: bool, metricsOk: bool, scores: seq<ScoreRow>, perf: seq<PerformanceRow>)
      returns (ok: bool, scrapeWarning: bool, report: Option<IntegrationReport>)
      modifies this
      ensures scrapeWarning <==> scrapeNewData && !scrapeOk
      ensures ok <==> metricsOk && |LatestSnapshots(scores)| > 0 && |ModelTrustRanking(scores, perf, None)| > 0
      ensures prophetArenaTrustScores ==
                if metricsOk && |LatestSnapshots(scores)| > 0
                then UpsertAll(old(prophetArenaTrustScores), SnapshotEntries(LatestSnapshots(scores)))
                else old(prophetArenaTrustScores)
      ensures agentTrustScores ==
                if ok then UpsertAll(old(agentTrustScores), AgentEntries(ModelTrustRanking(scores, perf, None)))
                else old(agentTrustScores)
      ensures report.Some? <==> ok
      ensures ok ==> report == Some(Report(ModelTrustRanking(scores, perf, None), Recommendations(agentTrustScores, None, 10)))
      ensures old(Valid()) ==> Valid()
    {
      scrapeWarning := scrapeNewData && !scrapeOk;
      report := None;
      if !metricsOk {
        return false, scrapeWarning, None;
      }
      var synced := SyncTrustScores(scores);
      if !synced {
        return false, scrapeWarning, None;
      }
      var updated, _ := UpdateAgentTrustScores(scores, perf);
      if !updated {
        return false, scrapeWarning, None;
      }
      report := Some(Report(ModelTrustRanking(scores, perf, None), Recommendations(agentTrustScores, None, 10)));
      ok := true;
    }
  }
}
