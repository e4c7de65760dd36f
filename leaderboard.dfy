/** The leaderboard queries over the `trust_scores` snapshots: keep each model's latest snapshot
    (overall, or per category), optionally narrow to one category, join the model's performance
    row, order by trust score, highest first, and cut at a limit. */
module Leaderboard {
  import opened Common
  import opened Ranking

  /** A row of `trust_scores`; `calculationDate` is the save time in microseconds. */
  datatype ScoreRow = ScoreRow(modelName: string, category: Option<string>, trustScore: real, calculationDate: int, metadata: string)

  /** A row of `model_performance`. */
  datatype PerformanceRow = PerformanceRow(modelName: string, totalPredictions: int, accuracy: real, averageConfidence: real)

  /** A joined row: the snapshot and the performance row of its model. */
  datatype RankedRow = RankedRow(score: ScoreRow, performance: PerformanceRow)

  /** The rows the correlated sub-query takes the maximum over: the same model and, for a row with a
      category, the same category; a row without a category is compared with all of its model's rows. */
  predicate Peer(r: ScoreRow, s: ScoreRow)
  {
    s.modelName == r.modelName && (r.category.None? || s.category == r.category)
  }

  /** `calculation_date = MAX(calculation_date)` over the peers in the table. */
  predicate IsLatest(rows: seq<ScoreRow>, r: ScoreRow)
  {
    forall s | s in rows && Peer(r, s) :: s.calculationDate <= r.calculationDate
  }

  /** The rows of `s` that are latest within `rows`, in order. */
  function KeepLatest(rows: seq<ScoreRow>, s: seq<ScoreRow>): (r: seq<ScoreRow>)
    ensures forall x :: x in r <==> x in s && IsLatest(rows, x)
    ensures multiset(r) <= multiset(s)
  {
    if |s| == 0 then []
    else
      var rest := KeepLatest(rows, s[..|s| - 1]);
      assert s == s[..|s| - 1] + [s[|s| - 1]];
      if IsLatest(rows, s[|s| - 1]) then rest + [s[|s| - 1]] else rest
  }

  /** The filter keeps every latest row as often as `s` holds it, and no other row. */
  lemma {:induction false} KeepLatestMultiplicity(rows: seq<ScoreRow>, s: seq<ScoreRow>)
    ensures forall x :: multiset(KeepLatest(rows, s))[x] == if IsLatest(rows, x) then multiset(s)[x] else 0
  {
    if |s| > 0 {
      var last := s[|s| - 1];
      KeepLatestMultiplicity(rows, s[..|s| - 1]);
      assert s == s[..|s| - 1] + [last];
      assert multiset(s) == multiset(s[..|s| - 1]) + multiset{last};
    }
  }

  /** The filter keeps the table's order: filtering rows made of two parts is filtering each part. */
  lemma {:induction false} KeepLatestAppend(rows: seq<ScoreRow>, a: seq<ScoreRow>, b: seq<ScoreRow>)
    ensures KeepLatest(rows, a + b) == KeepLatest(rows, a) + KeepLatest(rows, b)
  {
    if |b| > 0 {
      var b0 := b[..|b| - 1];
      assert (a + b)[..|a + b| - 1] == a + b0;
      assert (a + b)[|a + b| - 1] == b[|b| - 1];
      KeepLatestAppend(rows, a, b0);
    } else {
      assert a + b == a;
    }
  }

  /** The latest-snapshot filter over the whole table. */
  function LatestSnapshots(rows: seq<ScoreRow>): seq<ScoreRow>
  {
    KeepLatest(rows, rows)
  }

  /** A model's latest overall snapshot is at least as recent as every one of its snapshots, while a
      category snapshot only has to be the latest of its own category: so when a model has any
      snapshots its overall or category snapshots of the greatest date survive. */
  lemma LatestSnapshotExists(rows: seq<ScoreRow>, r: ScoreRow)
    requires r in rows
    ensures exists x | x in LatestSnapshots(rows) :: Peer(r, x) && x.calculationDate >= r.calculationDate
  {
    var peers := PeersOf(rows, r);
    var best := Latest(peers);
    assert Peer(r, best) && best in rows;
    forall s | s in rows && Peer(best, s) ensures s.calculationDate <= best.calculationDate {
      assert Peer(r, s);
      assert s in peers;
    }
    assert best in LatestSnapshots(rows);
  }

  /** The rows of `rows` that are peers of `r`. */
  function PeersOf(rows: seq<ScoreRow>, r: ScoreRow): (p: seq<ScoreRow>)
    ensures forall x :: x in p <==> x in rows && Peer(r, x)
  {
    if |rows| == 0 then []
    else
      var rest := PeersOf(rows[..|rows| - 1], r);
      assert rows == rows[..|rows| - 1] + [rows[|rows| - 1]];
      if Peer(r, rows[|rows| - 1]) then rest + [rows[|rows| - 1]] else rest
  }

  /** A row of greatest date. */
  function Latest(s: seq<ScoreRow>): (r: ScoreRow)
    requires |s| > 0
    ensures r in s && forall x | x in s :: x.calculationDate <= r.calculationDate
  {
    if |s| == 1 then s[0]
    else
      var rest := Latest(s[1..]);
      assert forall x | x in s :: x == s[0] || x in s[1..];
      if s[0].calculationDate >= rest.calculationDate then s[0] else rest
  }

  /** `if category: ... AND (ts.category = ? OR ts.category IS NULL)`. */
  predicate CategoryKept(category: Option<string>, rowCategory: Option<string>)
  {
    !(category.Some? && |category.value| > 0) || rowCategory == category || rowCategory.None?
  }

  function KeepCategory(category: Option<string>, s: seq<ScoreRow>): (r: seq<ScoreRow>)
    ensures forall x :: x in r <==> x in s && CategoryKept(category, x.category)
    ensures multiset(r) <= multiset(s)
  {
    if |s| == 0 then []
    else
      var rest := KeepCategory(category, s[..|s| - 1]);
      assert s == s[..|s| - 1] + [s[|s| - 1]];
      if CategoryKept(category, s[|s| - 1].category) then rest + [s[|s| - 1]] else rest
  }

  /** The join of one snapshot with every performance row of its model. */
  function JoinOne(r: ScoreRow, perf: seq<PerformanceRow>): (j: seq<RankedRow>)
    ensures forall x :: x in j <==> x.score == r && x.performance in perf && x.performance.modelName == r.modelName
  {
    if |perf| == 0 then []
    else
      var rest := JoinOne(r, perf[..|perf| - 1]);
      var p := perf[|perf| - 1];
      assert perf == perf[..|perf| - 1] + [p];
      if p.modelName == r.modelName then rest + [RankedRow(r, p)] else rest
  }

  /** `JOIN model_performance mp ON ts.model_name = mp.model_name`. */
  function Join(s: seq<ScoreRow>, perf: seq<PerformanceRow>): (j: seq<RankedRow>)
    ensures forall x :: x in j <==> x.score in s && x.performance in perf && x.performance.modelName == x.score.modelName
  {
    if |s| == 0 then []
    else
      var rest := Join(s[..|s| - 1], perf);
      assert s == s[..|s| - 1] + [s[|s| - 1]];
      rest + JoinOne(s[|s| - 1], perf)
  }

  function TrustKey(r: RankedRow): real
  {
    r.score.trustScore
  }

  /** `get_model_trust_ranking`: the latest snapshots, narrowed to the category when one is given,
      joined with performance, ordered by trust score descending, with no limit. */
  function ModelTrustRanking(scores: seq<ScoreRow>, perf: seq<PerformanceRow>, category: Option<string>): seq<RankedRow>
  {
    SortDesc(Join(KeepCategory(category, LatestSnapshots(scores)), perf), TrustKey)
  }

  /** `get_trust_leaderboard`: the same ranking cut at `limit` (SQLite keeps every row for a
      negative limit). */
  function TrustLeaderboard(scores: seq<ScoreRow>, perf: seq<PerformanceRow>, category: Option<string>, limit: int): seq<RankedRow>
  {
    Limit(ModelTrustRanking(scores, perf, category), limit)
  }

  /** The ranking holds exactly the joined latest snapshots that pass the category filter, each as
      often as the join produces it, ordered by trust score. */
  lemma RankingContents(scores: seq<ScoreRow>, perf: seq<PerformanceRow>, category: Option<string>, x: RankedRow)
    ensures SortedDesc(ModelTrustRanking(scores, perf, category), TrustKey)
    ensures multiset(ModelTrustRanking(scores, perf, category)) ==
              multiset(Join(KeepCategory(category, LatestSnapshots(scores)), perf))
    ensures x in ModelTrustRanking(scores, perf, category) <==>
              && x.score in scores
              && IsLatest(scores, x.score)
              && CategoryKept(category, x.score.category)
              && x.performance in perf
              && x.performance.modelName == x.score.modelName
  {
    var joined := Join(KeepCategory(category, LatestSnapshots(scores)), perf);
    var ranked := ModelTrustRanking(scores, perf, category);
    assert x in ranked <==> x in multiset(ranked);
    assert x in joined <==> x in multiset(joined);
  }

  /** The leaderboard is the top of the ranking: at most `limit` rows when the limit is not negative,
      ordered by trust score, and no row left out scores higher than a row kept. */
  lemma LeaderboardIsTop(scores: seq<ScoreRow>, perf: seq<PerformanceRow>, category: Option<string>, limit: int)
    ensures var full := ModelTrustRanking(scores, perf, category);
            var top := TrustLeaderboard(scores, perf, category, limit);
            && (limit >= 0 ==> |top| <= limit)
            && top == full[..|top|]
            && SortedDesc(top, TrustKey)
            && forall i, j | 0 <= i < |top| <= j < |full| :: TrustKey(top[i]) >= TrustKey(full[j])
  {
    var full := ModelTrustRanking(scores, perf, category);
    var top := TrustLeaderboard(scores, perf, category, limit);
    forall i, j | 0 <= i < |top| <= j < |full| ensures TrustKey(top[i]) >= TrustKey(full[j]) {
      assert top[i] == full[i];
    }
    forall i, j | 0 <= i < j < |top| ensures TrustKey(top[i]) >= TrustKey(top[j]) {
      assert top[i] == full[i] && top[j] == full[j];
    }
  }

  /** A category filter only admits that category's snapshots and the overall ones. */
  lemma CategoryLeaderboardRows(scores: seq<ScoreRow>, perf: seq<PerformanceRow>, c: string, limit: int, x: RankedRow)
    requires |c| > 0 && x in TrustLeaderboard(scores, perf, Some(c), limit)
    ensures x.score.category == Some(c) || x.score.category.None?
  {
    RankingContents(scores, perf, Some(c), x);
  }
}
