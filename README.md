# TrustSwarm trust metrics and prediction agents, modelled in Dafny

TrustSwarm scores forecasting models on resolved Prophet Arena events. It then serves predictions through
a small set of cooperating agents. This project models the core of both halves and proves properties of
the model.

- **Trust-metrics engine** (`TrustMetrics`, `Calculator`, `Leaderboard`).
  - Sub-scores over a batch of resolved predictions:
    - the Brier score;
    - the log-loss sentinel;
    - a ten-bin reliability-diagram calibration score;
    - a recency score over a 30-day window.
  - These are combined into a weighted composite trust score.
  - The calculator holds the weight map: `update_weights` checks only the sum of its argument and then
    merges it.
  - Records are produced in a fixed order: one overall record per model, then one per category.
  - The leaderboard keeps the latest snapshot per model, filters by category, orders by trust score and
    cuts at a limit.
- **Pipeline and integration** (`Pipeline`, `Integration`, `Tables`).
  - The configuration is the defaults updated with `dict.update` by the file: a shallow merge of an
    object, or key/value pairs applied in order.
  - A run is a sequence of steps that stops at the first failure.
  - Model names become agent ids.
  - The TrustSwarm tables are written with `INSERT OR REPLACE`. They are modelled as keyed sequences,
    which are proved to behave as maps.
  - The integration report is summarised.
- **Scraper record rules** (`Scraper`).
  - The event id comes from a URL.
  - Prediction records are read off a predictions table: correctness is equality with the resolved
    outcome, and confidence is `|p − 0.5|·2`.
  - Event URLs are collected up to a limit.
  - Events are flattened into CSV rows.
- **Agents** (`PredictAgent`, `Scoring`, `InterfaceAgent`).
  - The prediction agents parse, validate and format requests, build prompts, and extract the JSON
    answer. The helpers are the same text in predict0 and predict2, so they are modelled once.
  - predict0 refuses an invalid request before it builds a model.
  - The scoring agent applies a fixed rule: 95, 60 or 0.
  - The interface agent matches replies and runs benchmarks. In a benchmark the first reply wins, and
    there is one entry per worker, in order.
- **Gateways** (`Microserver`, `MicroserverDirect`).
  - Each builds its agent graph and request payloads.
  - Each keeps a set-once table of pending results, which callbacks fill and which a request drops once
    its wait ends.

How the model is written:

- Floats are modelled as `real`.
- The natural logarithm, the exponential decay weight, timestamp parsing, `json.loads` and `json.dumps`,
  `str()` of a value, the language model and the Coral tools are parameters.
- The current time is a single `now` argument.
- Mutable objects are classes whose methods are proved against specification functions:
  - `TrustMetricsCalculator`;
  - `TrustSwarmIntegration`, over its two tables;
  - `ProphetArenaDataPipeline`;
  - the gateways' pending-result tables.
- Loops in the source are methods with loop invariants:
  - the calibration bins;
  - the recency update of the caller's `created_at` column, on an `array`;
  - table extraction, URL collection and CSV flattening;
  - the message-line parser and the source formatter;
  - reply search, the listening loop and response formatting;
  - the worker-configuration loop.

Where the code and its accompanying documentation differ, the model follows the code:

- The leaderboard orders only by trust score, with no tie-break on prediction count or model name.
- `update_weights` checks only that its argument sums to 1. It does not reject negative weights or
  missing keys.
- The recency decay uses whole days: the age of a prediction is floored.
- Composite scores are not clipped. Only log loss clips its probabilities.

## Model

| member | source | states |
|---|---|---|
| TrustMetrics.BrierScore | data/scraped-data/prophet-arena/trust_metrics.py:57-74 | empty input gives 1.0; otherwise the score times the count is the sum of squared errors `(p − o)²` with o = 1 for a correct prediction |
| TrustMetrics.BrierBounds | data/scraped-data/prophet-arena/trust_metrics.py:67-74 | with every probability in [0, 1] the Brier score lies in [0, 1] |
| TrustMetrics.SquaredErrorsBounds | data/scraped-data/prophet-arena/trust_metrics.py:71-73 | the squared-error sum is non-negative, and at most the count for valid probabilities |
| TrustMetrics.BrierOfExact | data/scraped-data/prophet-arena/trust_metrics.py:67-74 | predictions of exactly 1 for correct and 0 for incorrect outcomes give Brier score 0 |
| TrustMetrics.BrierOfOpposite | data/scraped-data/prophet-arena/trust_metrics.py:67-74 | predictions that are exactly wrong give Brier score 1 |
| TrustMetrics.Clip | data/scraped-data/prophet-arena/trust_metrics.py:93 | log loss clips probabilities into [1e-15, 1 − 1e-15], leaving values inside unchanged |
| TrustMetrics.LogLoss | data/scraped-data/prophet-arena/trust_metrics.py:76-96 | log loss is infinite exactly on empty input; otherwise it times the count is minus the sum of log terms |
| TrustMetrics.BinIndexInBin | data/scraped-data/prophet-arena/trust_metrics.py:118-127 | every probability in [0, 1] falls in a bin `[i/B, (i+1)/B)`, the last bin closed at 1 |
| TrustMetrics.InBinUnique | data/scraped-data/prophet-arena/trust_metrics.py:118-127 | no probability falls in two bins |
| TrustMetrics.NoBinOutside | data/scraped-data/prophet-arena/trust_metrics.py:118-127 | a probability outside [0, 1] falls in no bin |
| TrustMetrics.FloorBin | data/scraped-data/prophet-arena/trust_metrics.py:118-127 | for p in [0, 1) the bin holding p is `floor(p·B)` |
| TrustMetrics.CalculateCalibrationScore | data/scraped-data/prophet-arena/trust_metrics.py:98-152 | the bin loop computes the calibration score `max(0, 1 − Σ error·size / Σ size)` of the rows, which lies in [0, 1] |
| TrustMetrics.CalibrationBounds | data/scraped-data/prophet-arena/trust_metrics.py:144-152 | the calibration score lies in [0, 1] |
| TrustMetrics.CalibrationErrorsNonNegative | data/scraped-data/prophet-arena/trust_metrics.py:136-141 | each weighted bin error is non-negative |
| TrustMetrics.CalibrationWeightCountsInRange | data/scraped-data/prophet-arena/trust_metrics.py:119-142 | the total bin weight is the number of probabilities in [0, 1] |
| TrustMetrics.BinsHoldingCount | data/scraped-data/prophet-arena/trust_metrics.py:118-127 | a probability is counted by exactly one bin when it is in range, and by none otherwise |
| TrustMetrics.CalibrationOfOutOfRange | data/scraped-data/prophet-arena/trust_metrics.py:144-145 | rows whose probabilities are all outside [0, 1] have zero weight and score 0 |
| TrustMetrics.ZeroWeightOfEmpty | data/scraped-data/prophet-arena/trust_metrics.py:109-110 | empty input has zero bin weight |
| TrustMetrics.ZeroInFirstBin | data/scraped-data/prophet-arena/trust_metrics.py:118-127 | probability 0 lies in the first bin and in no other |
| TrustMetrics.CalibrationOfZeroMisses | data/scraped-data/prophet-arena/trust_metrics.py:109-152 | all predictions at probability 0 and all incorrect give calibration score 1 |
| TrustMetrics.DaysAgo | data/scraped-data/prophet-arena/trust_metrics.py:185-186 | the age in days is the floor of the elapsed time divided by a day |
| TrustMetrics.Recent | data/scraped-data/prophet-arena/trust_metrics.py:175-176 | the recent rows are exactly the rows at or after the cutoff |
| TrustMetrics.RecentMultiplicity | data/scraped-data/prophet-arena/trust_metrics.py:175-176 | each row at or after the cutoff is kept as often as the frame holds it, and no other row is kept |
| TrustMetrics.RecentAppend | data/scraped-data/prophet-arena/trust_metrics.py:175-176 | the filter keeps the frame's order: filtering two concatenated parts is concatenating their filters |
| TrustMetrics.DecayTotal | data/scraped-data/prophet-arena/trust_metrics.py:181-189 | the total decay weight is non-negative, and positive when a row exists |
| TrustMetrics.DecayHits | data/scraped-data/prophet-arena/trust_metrics.py:181-189 | the weight on correct rows lies between 0 and the total weight |
| TrustMetrics.RecencyBounds | data/scraped-data/prophet-arena/trust_metrics.py:154-189 | the recency score lies in [0, 1] |
| TrustMetrics.RecencyOfNoneRecent | data/scraped-data/prophet-arena/trust_metrics.py:178-179 | no row within the window gives recency 0 |
| TrustMetrics.RecencyOfAllCorrect | data/scraped-data/prophet-arena/trust_metrics.py:181-189 | when every recent row is correct the recency score is 1 |
| TrustMetrics.DecayOfAllCorrect | data/scraped-data/prophet-arena/trust_metrics.py:181-189 | when every row is correct its decay weight equals the total weight |
| TrustMetrics.Instants | data/scraped-data/prophet-arena/trust_metrics.py:169-170 | the conversion succeeds iff every row's timestamp parses, and then gives one instant per row, each the parse of that row's timestamp |
| TrustMetrics.InstantsFailExtends | data/scraped-data/prophet-arena/trust_metrics.py:169-170 | one unparseable timestamp makes the whole conversion fail |
| TrustMetrics.WithInstants | data/scraped-data/prophet-arena/trust_metrics.py:170 | the converted frame differs from the old one only in each row's parsed `created_at` |
| TrustMetrics.FrameAfterRecencyParsed | data/scraped-data/prophet-arena/trust_metrics.py:165-176 | a successful recency computation has parsed every timestamp and left the converted column in the caller's frame |
| TrustMetrics.CalculateRecencyScore | data/scraped-data/prophet-arena/trust_metrics.py:154-189 | on the caller's array, the method returns the recency score or error of the old rows and overwrites `created_at` with the parsed instants |
| TrustMetrics.CorrectCount | data/scraped-data/prophet-arena/trust_metrics.py:240 | the number of correct predictions is at most the number of predictions |
| TrustMetrics.HitsIsCorrectCount | data/scraped-data/prophet-arena/trust_metrics.py:238-240 | the sum of `is_correct` is the count of correct rows |
| TrustMetrics.ComputeMetrics | data/scraped-data/prophet-arena/trust_metrics.py:220-280 | no rows give the sentinel record; zero confidences and unparseable timestamps are the only errors, the zero-confidence check coming first; a record always names its model and category |
| TrustMetrics.ComputeMetricsFields | data/scraped-data/prophet-arena/trust_metrics.py:237-280 | a record computed from rows counts them; its accuracy is correct / total; it carries their Brier, calibration and log-loss scores; its confidence is the mean confidence; its weighted accuracy is confidence on correct rows over total confidence; its date is `now`; its trust score is the weighted composite of its sub-scores |
| TrustMetrics.AccuracyIsShareCorrect | data/scraped-data/prophet-arena/trust_metrics.py:238-240 | correct ≤ total, and accuracy is correct / total |
| TrustMetrics.ConfidenceTotalBounds | data/scraped-data/prophet-arena/trust_metrics.py:254 | confidences in [0, 1] sum to between 0 and the count |
| TrustMetrics.CompositeBounds | data/scraped-data/prophet-arena/trust_metrics.py:260-265 | non-negative weights summing to 1 over sub-scores in [0, 1] give a composite in [0, 1] |
| TrustMetrics.TrustScoreBounds | data/scraped-data/prophet-arena/trust_metrics.py:237-265 | with such weights and valid confidences, every computed trust score lies in [0, 1] |
| TrustMetrics.MergedWeightsExceedOne | data/scraped-data/prophet-arena/trust_metrics.py:488-498 | merging `{accuracy: 1.0}` into the defaults gives weights summing to 1.6 and a trust score of 1.6 when every sub-score is 1 |
| TrustMetrics.ExampleCalibration | data/scraped-data/prophet-arena/test_system.py:98-107 | the GPT-4 test rows, 0.7 correct and 0.3 wrong, have calibration score 0.7 |
| TrustMetrics.GptFourExample | data/scraped-data/prophet-arena/test_system.py:98-120 | the GPT-4 test rows give 2 predictions, 1 correct, accuracy 0.5, confidence 0.4 and a positive trust score |
| Calculator.Select | data/scraped-data/prophet-arena/trust_metrics.py:206-218 | a row is read iff it is the row of one of the model's predictions that joins an event, and of that category when one is given; there are at most as many rows as predictions |
| Calculator.SelectAppend | data/scraped-data/prophet-arena/trust_metrics.py:206-218 | the rows read keep the table's order and multiplicity: selecting from two concatenated parts concatenates their selections, and one stored prediction gives its row once when selected and nothing otherwise |
| Calculator.EmptyCategoryReadsAll | data/scraped-data/prophet-arena/trust_metrics.py:214-216 | an empty category string reads the same rows as no category |
| Calculator.CategoryNarrows | data/scraped-data/prophet-arena/trust_metrics.py:214-216 | a category reads a sub-multiset of the model's rows |
| Calculator.DistinctModelsChosen | data/scraped-data/prophet-arena/trust_metrics.py:299-310 | the model list has no duplicates and holds exactly the eligible models with predictions |
| Calculator.ModelJobs | data/scraped-data/prophet-arena/trust_metrics.py:316-324 | each model contributes its overall record and then one record per category, in the given order |
| Calculator.JobsLength | data/scraped-data/prophet-arena/trust_metrics.py:312-324 | there are models × (1 + categories) records |
| Calculator.JobIndex | data/scraped-data/prophet-arena/trust_metrics.py:312-324 | call j of model q comes right after the calls of the first q models: the overall call when j = 0, else that of category j − 1 |
| Calculator.AllTrustScoresCount | data/scraped-data/prophet-arena/trust_metrics.py:285-326 | a successful run gives models × (1 + categories) records |
| Calculator.AllTrustScoresLayout | data/scraped-data/prophet-arena/trust_metrics.py:312-326 | in a successful run, the j-th record after those of the first q models carries model q's name and, for j > 0, category j − 1 (none for j = 0) |
| Calculator.ScoreStopsModels | data/scraped-data/prophet-arena/trust_metrics.py:312-326 | the first failing record ends the run with that error |
| Calculator.UpdatedWeights | data/scraped-data/prophet-arena/trust_metrics.py:488-498 | an update fails iff its argument's sum is more than 1e-6 from 1; otherwise supplied keys are overwritten and all others keep their values |
| Calculator.UpdateKeepsWeightKeys | data/scraped-data/prophet-arena/trust_metrics.py:498 | a successful update keeps all four composite keys |
| Calculator.DefaultWeightsAccepted | data/scraped-data/prophet-arena/trust_metrics.py:50-55 | the default weights sum to 1 and are accepted as an update |
| Calculator.SingleWeightAccepted | data/scraped-data/prophet-arena/trust_metrics.py:495-498 | `{accuracy: 1.0}` alone is accepted and merged |
| Calculator.TrustMetricsCalculator.constructor | data/scraped-data/prophet-arena/trust_metrics.py:42-55 | a new calculator holds the default weights |
| Calculator.TrustMetricsCalculator.UpdateWeights | data/scraped-data/prophet-arena/trust_metrics.py:488-498 | it raises iff the sum check fails, leaving the weights unchanged; otherwise the weights become the merge |
| Calculator.TrustMetricsCalculator.CalculateTrustScore | data/scraped-data/prophet-arena/trust_metrics.py:191-283 | the record is the metrics of the model's selected rows under the current weights |
| Calculator.TrustMetricsCalculator.CalculateAllTrustScores | data/scraped-data/prophet-arena/trust_metrics.py:285-329 | the nested loops produce exactly the records in model-then-category order, or the first error |
| Ranking.SortDesc | data/scraped-data/prophet-arena/trust_metrics.py:415 | `ORDER BY trust_score DESC`: the result is sorted descending and a permutation of the input |
| Ranking.Limit | data/scraped-data/prophet-arena/trust_metrics.py:416 | `LIMIT n` keeps a prefix of min(n, length) rows, and every row for a negative n |
| Leaderboard.KeepLatest | data/scraped-data/prophet-arena/trust_metrics.py:403-410 | a snapshot is kept iff its date is the maximum among its peers: the same model and category, or all of the model's rows when its category is null |
| Leaderboard.KeepLatestMultiplicity | data/scraped-data/prophet-arena/trust_metrics.py:403-410 | each latest snapshot is kept as often as the table holds it, and no other row is kept |
| Leaderboard.KeepLatestAppend | data/scraped-data/prophet-arena/trust_metrics.py:403-410 | the filter keeps the table's order: filtering two concatenated parts is concatenating their filters |
| Leaderboard.LatestSnapshotExists | data/scraped-data/prophet-arena/trust_metrics.py:403-410 | for every snapshot, a peer at least as recent is kept |
| Leaderboard.KeepCategory | data/scraped-data/prophet-arena/trust_metrics.py:411-413 | a category argument keeps rows of that category or null |
| Leaderboard.Join | data/scraped-data/prophet-arena/trust_metrics.py:400-401 | the join pairs each snapshot with each performance row of its model |
| Leaderboard.RankingContents | data/scraped-data/prophet-arena/trust_metrics.py:391-418 | the ranking is sorted by trust, is a permutation of the filtered join, and holds a row iff it is a latest snapshot passing the category filter joined with its model's performance |
| Leaderboard.LeaderboardIsTop | data/scraped-data/prophet-arena/trust_metrics.py:377-418 | the leaderboard has at most `limit` rows, is a sorted prefix of the ranking, and no row left out scores higher than a kept one |
| Leaderboard.CategoryLeaderboardRows | data/scraped-data/prophet-arena/trust_metrics.py:411-413 | with a category, every row is of that category or null |
| Tables.Lookup | data/scraped-data/prophet-arena/integrate_with_trustswarm.py:204 | a lookup finds an entry of the key, or none exists |
| Tables.UpsertIsMapUpdate | data/scraped-data/prophet-arena/integrate_with_trustswarm.py:223-238 | `INSERT OR REPLACE` keeps keys unique, maps the key to the new row, leaves other keys alone, and grows the table only for a new key |
| Tables.UpsertAllLastWriteWins | data/scraped-data/prophet-arena/integrate_with_trustswarm.py:219-239 | after a sequence of upserts each key holds the last row written for it, or its old value |
| Integration.AgentId | data/scraped-data/prophet-arena/integrate_with_trustswarm.py:210-221 | every agent id ends in `-agent` |
| Integration.AgentIdCases | data/scraped-data/prophet-arena/integrate_with_trustswarm.py:210-221 | the five listed names map to their fixed ids; any other name becomes lower-cased with spaces as dashes, plus `-agent` |
| Integration.SyncedTable | data/scraped-data/prophet-arena/integrate_with_trustswarm.py:103-114 | after the sync each snapshot key holds its last latest snapshot, and keys not written keep their rows |
| Integration.UpdatedAgentTable | data/scraped-data/prophet-arena/integrate_with_trustswarm.py:219-239 | after the update each (agent, source, category) key holds its last ranking row, and other keys keep theirs |
| Integration.UpdateCountsWrites | data/scraped-data/prophet-arena/integrate_with_trustswarm.py:218-239 | `updated_count` counts writes: two rows with one key leave one entry |
| Integration.KeepAgents | data/scraped-data/prophet-arena/integrate_with_trustswarm.py:265-279 | recommendations draw only Prophet Arena rows passing the category filter |
| Integration.RecommendationsAreTop | data/scraped-data/prophet-arena/integrate_with_trustswarm.py:251-291 | recommendations are at most `limit` rows, sorted by trust, drawn from the table's matching rows |
| Integration.ReportSummary | data/scraped-data/prophet-arena/integrate_with_trustswarm.py:338-352 | the report counts the rankings, takes the first ≤ 5 of them, and covers exactly the truthy categories among them |
| Integration.TrustSwarmIntegration.SyncTrustScores | data/scraped-data/prophet-arena/integrate_with_trustswarm.py:51-124 | no latest snapshot returns False and writes nothing; otherwise every latest snapshot is upserted |
| Integration.TrustSwarmIntegration.UpdateAgentTrustScores | data/scraped-data/prophet-arena/integrate_with_trustswarm.py:174-249 | an empty ranking returns False and writes nothing; otherwise each ranking row is upserted under its agent id and counted |
| Integration.TrustSwarmIntegration.RunFullIntegration | data/scraped-data/prophet-arena/integrate_with_trustswarm.py:293-336 | a scrape failure only warns; it succeeds iff metrics, sync and update succeed in order, later steps writing nothing after a failure, and reports only then |
| Pipeline.LoadConfigMerge | data/scraped-data/prophet-arena/data_pipeline.py:81-85 | each top-level user key replaces the default wholesale, and default keys absent from the file survive |
| Pipeline.UpdateWithPairs | data/scraped-data/prophet-arena/data_pipeline.py:85 | `dict.update` with a list succeeds iff every element is a valid pair, and never loses a key |
| Pipeline.PairListUpdate | data/scraped-data/prophet-arena/data_pipeline.py:85 | a list of string-keyed pairs adds exactly its keys; each key gets the value of its last pair, and every key no pair names keeps its value |
| Pipeline.LoadConfigCases | data/scraped-data/prophet-arena/data_pipeline.py:81-92 | a missing file gives the defaults; an object or a pair list overriding `database_path` takes effect; an empty list or empty string changes nothing; a non-empty string, a number, null, a non-pair element or a one-item pair raises |
| Pipeline.DefaultConfigWeightsAccepted | data/scraped-data/prophet-arena/data_pipeline.py:64-69 | the default configuration's weights sum to 1 within the calculator's tolerance |
| Pipeline.ScrapeArguments | data/scraped-data/prophet-arena/data_pipeline.py:132-135 | given categories and limits are used as given; missing ones are the configured values, passed unchecked; reading a missing configured value raises iff it is needed |
| Pipeline.ScrapeArgumentDefaults | data/scraped-data/prophet-arena/data_pipeline.py:132-135 | the defaults are `['sports', 'economics', 'crypto']` and 50 per category; a scraping section replaced without a limit raises `KeyError` |
| Pipeline.ScrapeData | data/scraped-data/prophet-arena/data_pipeline.py:119-172 | the step raises iff resolving its arguments raises; it succeeds iff `headless` and an iterable `delay_range` can be read, the scraper returns at least one event, and each write asked for has its path and succeeds; everything else is a failure |
| Pipeline.ScrapeDataCases | data/scraped-data/prophet-arena/data_pipeline.py:119-172 | with the defaults the step succeeds iff events are found and both writes succeed; a user scraping section without `headless` fails; a non-list configured category value reaches the scraper unchanged |
| Pipeline.ConfigWeights | data/scraped-data/prophet-arena/data_pipeline.py:185-186 | weights are applied only when the membership test for `weights` is true; then they are the numeric values (booleans as 1 and 0) of `section['weights']` |
| Pipeline.ConfigWeightsCases | data/scraped-data/prophet-arena/data_pipeline.py:185-186 | a list or string section without `weights` leaves the weights; a list naming `weights` or a number section raises `TypeError`; boolean weights count as 1 and 0; list weights raise `AttributeError` |
| Pipeline.WeightsAfterUpdate | data/scraped-data/prophet-arena/data_pipeline.py:185-188 | absent weights leave the calculator's weights; present ones go through `update_weights` |
| Pipeline.ConfigCategories | data/scraped-data/prophet-arena/data_pipeline.py:189-191 | a missing setting raises; a falsy value means no categories; a list of strings is used as it is |
| Pipeline.Characters | data/scraped-data/prophet-arena/trust_metrics.py:320-324 | iterating a string gives its one-character strings, in order |
| Pipeline.NullCategoriesScoreOverall | data/scraped-data/prophet-arena/data_pipeline.py:189-201 | null categories are no categories: the step succeeds iff there is a model, every overall score succeeds and the save succeeds |
| Pipeline.Setting | data/scraped-data/prophet-arena/data_pipeline.py:133-135 | `config[section][key]` succeeds iff the section exists and is a dictionary holding the key, giving its value |
| Pipeline.StringsJson | data/scraped-data/prophet-arena/data_pipeline.py:132 | a list of strings passed as categories reads back as that list |
| Pipeline.Plan | data/scraped-data/prophet-arena/data_pipeline.py:271-289 | the plan starts with setup, scrape and metrics |
| Pipeline.TraceStopsAtFirstFailure | data/scraped-data/prophet-arena/data_pipeline.py:257-293 | the steps run are a prefix of the plan, all but the last succeeded, and the run succeeds iff the whole plan ran and its last step succeeded |
| Pipeline.ProphetArenaDataPipeline.constructor | data/scraped-data/prophet-arena/data_pipeline.py:40-49 | the pipeline holds the loaded configuration and a calculator with default weights |
| Pipeline.ProphetArenaDataPipeline.CalculateTrustMetrics | data/scraped-data/prophet-arena/data_pipeline.py:174-205 | the weights become those `update_weights` leaves; it returns True iff the weights are accepted, the categories can be read, there are records, and the save succeeds; the records are the calculator's records for the configured categories |
| Pipeline.ProphetArenaDataPipeline.RunFullPipeline | data/scraped-data/prophet-arena/data_pipeline.py:257-293 | the run is the traced sequence setup → scrape → metrics → reports (only if enabled), stopping at the first failure |
| Scraper.EventIdIsLastSegment | data/scraped-data/prophet-arena/prophet_arena_scraper.py:111-116 | the id is the last `/`-segment of the slash-stripped path, and an empty path gives "" |
| Scraper.Confidence | data/scraped-data/prophet-arena/prophet_arena_scraper.py:324 | `|p − 0.5|·2` lies in [0, 1] for p in [0, 1] and is 0 exactly at 0.5 |
| Scraper.MakeRecord | data/scraped-data/prophet-arena/prophet_arena_scraper.py:316-326 | a record is correct iff its option is the resolved outcome |
| Scraper.ModelNames | data/scraped-data/prophet-arena/prophet_arena_scraper.py:297-298 | model names are the headers after the first |
| Scraper.RowRecordsBound | data/scraped-data/prophet-arena/prophet_arena_scraper.py:313-328 | a row yields at most one record per model column after the label cell |
| Scraper.RowRecordsCharacterised | data/scraped-data/prophet-arena/prophet_arena_scraper.py:313-328 | a record comes from a row exactly when some cell i ≥ 1 has a model name i − 1 and a parseable percentage |
| Scraper.TableRecordsFromRows | data/scraped-data/prophet-arena/prophet_arena_scraper.py:301-328 | every record comes from a non-header row of at least two cells whose option is listed, and is correct iff it names the resolved outcome |
| Scraper.CellLoop | data/scraped-data/prophet-arena/prophet_arena_scraper.py:313-328 | the cell loop appends exactly the row's records |
| Scraper.ExtractPredictionsTable | data/scraped-data/prophet-arena/prophet_arena_scraper.py:288-333 | the nested loops yield exactly the table's records, and none without a table |
| Scraper.Extend | data/scraped-data/prophet-arena/prophet_arena_scraper.py:162-164 | a pass keeps the URLs already collected and adds only new links |
| Scraper.EventUrlsBounded | data/scraped-data/prophet-arena/prophet_arena_scraper.py:158-180 | at most `limit` URLs are returned, each a link seen on some pass |
| Scraper.GetHistoricalEvents | data/scraped-data/prophet-arena/prophet_arena_scraper.py:118-184 | the while loop returns exactly the collected URLs |
| Scraper.Scraped | data/scraped-data/prophet-arena/prophet_arena_scraper.py:378-381 | only events that scraped successfully are kept |
| Scraper.AllEventsFromSearches | data/scraped-data/prophet-arena/prophet_arena_scraper.py:369-381 | every event comes from a URL of a searched category |
| Scraper.ScrapeAllHistoricalEvents | data/scraped-data/prophet-arena/prophet_arena_scraper.py:358-385 | with the default categories when none are given, the loop returns exactly the scraped events in order |
| Scraper.EventRows | data/scraped-data/prophet-arena/prophet_arena_scraper.py:392-409 | one row per prediction, each with the event's fields copied in |
| Scraper.CsvRowsLayout | data/scraped-data/prophet-arena/prophet_arena_scraper.py:392-410 | the rows are event-then-prediction order: prediction j of event n is row Offset(n) + j |
| Scraper.SaveToCsvRows | data/scraped-data/prophet-arena/prophet_arena_scraper.py:387-410 | the nested loops build exactly the CSV rows |
| PredictAgent.MarketsText | agents/predict2-agent/main.py:103 | the markets text is the stripped remainder after the first `:` |
| PredictAgent.CommaMarkets | agents/predict2-agent/main.py:108-110 | comma splitting gives #commas + 1 entries, each a stripped piece |
| PredictAgent.ParseMessageContent | agents/predict2-agent/main.py:88-112 | the line loop computes the parse: decoded JSON when the content is JSON, else the text reading |
| PredictAgent.MarketsLineIsNotTitleLine | agents/predict2-agent/main.py:100-102 | a markets line is never taken as a title line |
| PredictAgent.TitleOfLastTitleLine | agents/predict2-agent/main.py:98-101 | the title is the stripped remainder of the last title line |
| PredictAgent.TitleWithoutTitleLine | agents/predict0-agent/main.py:96-113 | without a title line the title stays "" |
| PredictAgent.MarketsOfLastMarketsLine | agents/predict2-agent/main.py:102-110 | the markets come from the last markets or answers line |
| PredictAgent.MarketsWithoutMarketsLine | agents/predict0-agent/main.py:96-113 | without a markets line the markets stay `[]` |
| PredictAgent.ValidateCases | agents/predict2-agent/main.py:115-121 | the title is checked first ("Missing title"), then the markets ("Missing or empty markets"); everything else is accepted |
| PredictAgent.ValidateTextRequest | agents/predict0-agent/main.py:116-122 | on a text reading the validator looks only at the title and the markets |
| PredictAgent.TextRequestWithoutTitle | agents/predict0-agent/main.py:89-122 | non-JSON content with no title line is refused for its title |
| PredictAgent.TextRequestWithCommaMarkets | agents/predict0-agent/main.py:89-122 | a non-empty title and a comma-separated markets line are accepted |
| PredictAgent.SourceBlocks | agents/predict2-agent/main.py:79-83 | one block per source, in order |
| PredictAgent.FormatSources | agents/predict0-agent/main.py:74-86 | the append loop computes the formatted sources |
| PredictAgent.SourcesTextShape | agents/predict2-agent/main.py:73-85 | the empty-list message appears iff there are no sources; otherwise appending a source adds `\n---\n` and its block |
| PredictAgent.MarketLines | agents/predict2-agent/main.py:15-19 | one `- market` line per market, in order |
| PredictAgent.ExampleEntries | agents/predict2-agent/main.py:17-18 | one example probability entry per market, in order |
| PredictAgent.TaskPromptLayout | agents/predict2-agent/main.py:15-51 | the stripped task prompt is the fixed text around the title, market lines and example entries |
| PredictAgent.MarketListLines | agents/predict2-agent/main.py:15-19 | the market list splits back into exactly its `- market` lines |
| PredictAgent.UserPromptWithStats | agents/predict2-agent/main.py:53-70 | truthy market stats add the trading-data section around their JSON |
| PredictAgent.UserPromptWithoutStats | agents/predict2-agent/main.py:55-70 | without stats the prompt is the opening and the sources, right-stripped |
| PredictAgent.ExtractJsonFound | agents/predict2-agent/main.py:145-147 | the extraction succeeds iff a `}` follows the first `{` |
| PredictAgent.ExtractJsonBounds | agents/predict0-agent/main.py:146-154 | the extract runs from the first `{` through the last `}` |
| PredictAgent.MakePredictionCases | agents/predict2-agent/main.py:124-156 | a model failure gives "Prediction failed: …"; no braces give the no-JSON error; otherwise the re-encoded extract |
| PredictAgent.Predict0ShortCircuit | agents/predict0-agent/main.py:196-228 | an invalid request sends `{"error": "Invalid request: …"}` and builds no model; a model is built only for an accepted request |
| Json.Number | agents/scoring/main.py:34 | booleans, integers and floats are numbers, and nothing else is |
| Json.NumberMap | data/scraped-data/prophet-arena/trust_metrics.py:495 | a dictionary sums as numbers iff all its values are numbers, and then every key keeps its numeric value |
| Json.Subscript | data/scraped-data/prophet-arena/data_pipeline.py:133 | `obj[key]` succeeds iff obj is a dictionary holding the key, giving its value; otherwise `KeyError` on a dictionary and `TypeError` on anything else |
| Scoring.StringGreaterStrict | agents/scoring/main.py:34 | string `>` is a strict order |
| Scoring.ScoreValues | agents/scoring/main.py:26-48 | the score is one of 95, 60 and 0, each with its fixed comment, and 0 exactly when reading or comparing raises |
| Scoring.NumericRule | agents/scoring/main.py:34-43 | Anthropic above OpenAI scores 95; a tie or OpenAI higher scores 60 |
| Scoring.MissingProbabilitiesScoreSixty | agents/scoring/main.py:30-43 | missing `response` or `probabilities` defaults both to 0.0, giving 60 |
| Scoring.NonObjectScoresZero | agents/scoring/main.py:44-48 | a non-dictionary prediction scores 0 with the attribute-error text |
| InterfaceAgent.FirstReply | agents/interface/main.py:40-43 | the index found is the first message whose thread and sender match, and none exists when nothing matches |
| InterfaceAgent.SearchReply | agents/interface/main.py:36-45 | the search loop returns the delegation's reply or error |
| InterfaceAgent.DelegateReplySpec | agents/interface/main.py:10-45 | the reply is the content of a matching message, and "none matched" is returned exactly when messages exist but none match |
| InterfaceAgent.Workers | agents/interface/main.py:125-126 | the workers are exactly the agents whose id starts with the prefix |
| InterfaceAgent.ThreadMap | agents/interface/main.py:132-152 | each created thread maps to the worker it was created for, and every worker with a thread id is mapped |
| InterfaceAgent.RecordBatch | agents/interface/main.py:170-178 | the message loop records the batch's replies |
| InterfaceAgent.BatchErrorPersists | agents/interface/main.py:170-178 | an error in a batch ends the batch |
| InterfaceAgent.ListenForReplies | agents/interface/main.py:156-178 | the listening loop computes the replies received until every worker has one or the batches end |
| InterfaceAgent.RecordKeeps | agents/interface/main.py:174-178 | a recorded result is never replaced, and new results come only from mapped threads |
| InterfaceAgent.FirstReplyWins | agents/interface/main.py:160-178 | the first reply of each worker wins across all batches, and results stay well formed |
| InterfaceAgent.Responses | agents/interface/main.py:181-187 | one response per worker |
| InterfaceAgent.FormatResponses | agents/interface/main.py:181-187 | the formatting loop computes the responses |
| InterfaceAgent.ResponsesShape | agents/interface/main.py:181-187 | entry i names worker i and holds its response if it replied, else the timeout error |
| InterfaceAgent.BenchmarkShape | agents/interface/main.py:122-192 | a benchmark has workers, reports "Received k of n", and records at most one result per worker, all from prefixed workers |
| InterfaceAgent.SetScoringMerge | agents/interface/main.py:117 | `prediction['scoring'] = score` adds or replaces only `scoring` |
| InterfaceAgent.SingleResult | agents/interface/main.py:83-118 | a successful single task returns the prediction with its score under `scoring`; each text is the content of its agent's first reply in a freshly created non-empty thread |
| InterfaceAgent.FinalResultCases | agents/interface/main.py:54-196 | an unknown task gives `{}`; a benchmark without a prefix uses `predict`; a non-string prefix reports no workers when there are no agents, and the `startswith` type error otherwise |
| Microserver.BuildWorkerConfigs | microserver/main.py:56-70 | the loop builds one worker configuration per name, in order |
| Microserver.AppGraphLayout | microserver/main.py:38-98 | the agents are interface, firecrawl, then the workers in order (length 2 + n); there is one group; only the interface gets USER_REQUEST and the result tool; each worker gets only MODEL_API_KEY |
| Microserver.SingleRequestRoutes | microserver/main.py:156-171 | a single request reaches the interface agent as a single task for that agent |
| Microserver.BenchmarkWorkersSelected | microserver/main.py:174-191 | the prefix `predict` selects exactly predict0 and predict1 from the benchmark graph |
| Microserver.SessionId | microserver/main.py:126-141 | connection failures give 502, refused requests their status code, a missing id 500; a string id is registered |
| Microserver.SetOnce | microserver/main.py:202-211 | a callback changes no session but its own, and sets a result only once |
| Microserver.FirstResultSpec | microserver/main.py:198-211 | the result delivered is that of the earliest callback naming the session |
| Microserver.FirstResultWins | microserver/main.py:208-209 | a set result is never replaced; a waiting session holds its first delivered result |
| Microserver.UnknownSessionIgnored | microserver/main.py:202-206 | a callback for an unknown session changes nothing |
| Microserver.Gateway.Callback | microserver/main.py:198-211 | unknown sessions answer `ignored`, known ones `success`, and the table is set once |
| Microserver.Gateway.StartSessionAndWait | microserver/main.py:115-151 | session errors are answered unchanged; otherwise the session is registered, callbacks arrive, and the entry is dropped; the answer is the decoded result or 504 |
| Microserver.AnswerIsFirstResult | microserver/main.py:141-151 | the answer is the first result delivered, or the timeout when none arrives, and the entry is gone |
| MicroserverDirect.DirectGraphLayout | microserver/main2.py:36-63 | one agent, predict0, with MODEL_API_KEY, USER_REQUEST and the result tool, and no groups |
| MicroserverDirect.DirectRequestValidation | microserver/main2.py:81-90 | predict0 refuses an empty title, then empty markets, and otherwise predicts on the request |
| MicroserverDirect.DirectGateway.Callback | microserver/main2.py:121-129 | an unknown session answers 404; a known one is set once, then answers success |
| MicroserverDirect.DirectGateway.Predict | microserver/main2.py:81-118 | the entry is registered and dropped after the wait in every outcome; the answer is `{"result": …}` or 504 |
| MicroserverDirect.RefusedSessionIsInternalError | microserver/main2.py:94-103 | a refused session request answers 500 here, its status code in main.py |
| MicroserverDirect.DirectAnswerIsFirstResult | microserver/main2.py:105-118 | the answer is the first result delivered for the session, or 504 |

## Left out

- SQLite and pandas I/O are not modelled: connections, table creation, inserts, `read_sql_query`.
  - The tables are passed in as sequences of rows.
  - `get_model_performance_analysis` and `get_pipeline_status` are left out: they only read back from
    storage.
  - `save_trust_scores`, `setup_database`, `save_to_csv` and `save_to_database` are file or database
    writes. Only their outcomes are modelled, as the inputs `saveOk`, `setupOk` and `Saves`.
- The NULL-in-UNIQUE rule of SQLite is left out: two rows with a null category count as one key here.
- The SQL order among rows of equal trust score is left out: the model's sort is stable, SQLite's order is
  unspecified.
- Natural logarithm and the exponential decay are abstract: the log of a clipped probability and a
  positive weight per whole day of age are parameters.
- Floats are reals: rounding and NaN are not modelled.
- `datetime.now()` is a single `now` argument, and timestamp parsing is a parameter.
- The `created_at` KeyError on frames without that column is not modelled.
- `str.lower()` lowers ASCII letters and the Kelvin sign only; other non-ASCII letters stay unchanged.
- The language model, the MCP/Coral client, the firecrawl agent, asyncio tasks, futures and timeouts are
  left out.
  - Their results are inputs: replies are given as message batches, and callbacks as a sequence in
    arrival order.
- `json.loads`, `json.dumps`, `model_dump_json` and `str()` of a value are parameters.
- Browser pages are left out: the scraper reads pages given as text and links.
- The exceptions raised inside the integration's sync and update (database errors) are left out.
- predict2's `main` loop is not modelled: it waits for mentions, which is I/O. predict0's result-tool
  lookup is an input.
- predict0's busy-wait for `USER_REQUEST` is left out: the request is given.
- `make_prediction` on sources or markets that are not lists is left out: both are typed as lists here.
- Thread ids returned by the Coral tools are strings here. Dispatch exceptions and the concurrent order
  of inserts into the thread map are left out.
- Python's `>` on two lists is a parameter of the scoring rule.
- The gateways' HTTP exchange with the Coral server is a parameter.
  - The 300- and 45-second waits are not modelled: the callbacks that arrive before the wait ends are
    given.
  - Two concurrent requests that receive the same session id are not modelled.
- Microserver.SessionId: when the Coral server returns a truthy session id that is not a string, the
  model does not register it, and the request can only time out. In the source it is registered under a
  key no string callback path matches, so the outcome is the same.
- Calculator.Distinct: `SELECT DISTINCT` returns the model names in an order SQL leaves unspecified. The
  model fixes first-occurrence order, so the order of the records across models is one possible order.
- Pipeline.LoadConfig: a two-entry JSON object used as an element of a pair list would set its first key
  to its second key. Decoded objects carry no key order here, so the model raises `ValueError` for it.
- Pipeline.LoadConfig: a pair whose key is null, a boolean or a number is added under a key that is not a
  string. The model drops that pair, since no lookup of the pipeline can name such a key.
- Pipeline.ConfigCategories: a list of categories holding a number or null is treated as a failure. The
  source binds such values to the SQL query, and SQLite's comparison of them with category text is not
  modelled.
- Pipeline.ScrapeData: the scraper's construction and `scrape_all_historical_events` are one parameter,
  `scrapeAll`. `close()` in the `finally` block is left out, because it does not change the step's result.
