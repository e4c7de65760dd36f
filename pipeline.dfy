/** The Prophet Arena data pipeline: a configuration merged over built-in defaults, a scrape step,
    a metric step that feeds the configured weights and categories to the calculator, and a full run
    that chains setup, scrape, metrics and reports, stopping at the first failure. */
module Pipeline {
  import opened Common
  import opened Json
  import opened TrustMetrics
  import opened Calculator
  import opened Text

  /** The built-in configuration. */
  const DEFAULT_CONFIG: map<string, Json> := map[
    "database_path" := JStr("prophet_arena.db"),
    "output_dir" := JStr("output"),
    "scraping" := JObj(map[
      "headless" := JBool(true),
      "delay_range" := JArr([JInt(2), JInt(5)]),
      "categories" := JArr([JStr("sports"), JStr("economics"), JStr("crypto")]),
      "limit_per_category" := JInt(50),
      "max_retries" := JInt(3)]),
    "trust_metrics" := JObj(map[
      "weights" := JObj(map[
        "accuracy" := JNum(0.4),
        "calibration" := JNum(0.3),
        "confidence" := JNum(0.2),
        "recency" := JNum(0.1)]),
      "recent_days" := JInt(30),
      "calibration_bins" := JInt(10)]),
    "output" := JObj(map[
      "save_csv" := JBool(true),
      "save_json" := JBool(true),
      "save_database" := JBool(true),
      "generate_reports" := JBool(true)])]

  /** How `dict.update` reads one element of the sequence it is given: an element of exactly two
      items is a key and its value, and anything else raises. A two-character string is the pair of
      its characters. A key that is hashable but not a string (null, a boolean or a number) is added
      under a key that no lookup of the pipeline names, so it changes nothing here (`None`); a list or
      dictionary key is unhashable. */
  function UpdatePair(item: Json): Result<Option<(string, Json)>, string>
  {
    match item
    case JArr(xs) =>
      if |xs| != 2 then Err("ValueError")
      else if xs[0].JStr? then Ok(Some((xs[0].s, xs[1])))
      else if xs[0].JArr? || xs[0].JObj? then Err("TypeError")
      else Ok(None)
    case JStr(s) => if |s| == 2 then Ok(Some(([s[0]], JStr([s[1]])))) else Err("ValueError")
    case JObj(_) => Err("ValueError")
    case _ => Err("TypeError")
  }

  /** `config.update(items)` for a list: the pairs applied in order, so a later pair overrides an
      earlier one; it raises exactly when some element is not a pair. */
  function UpdateWithPairs(config: map<string, Json>, items: seq<Json>): (r: Result<map<string, Json>, string>)
    ensures r.Ok? <==> forall i | 0 <= i < |items| :: UpdatePair(items[i]).Ok?
    ensures r.Ok? ==> config.Keys <= r.value.Keys
    decreases |items|
  {
    if |items| == 0 then Ok(config)
    else
      assert forall i | 1 <= i < |items| :: items[1..][i - 1] == items[i];
      match UpdatePair(items[0])
      case Err(e) => Err(e)
      case Ok(None) => UpdateWithPairs(config, items[1..])
      case Ok(Some(kv)) => UpdateWithPairs(config[kv.0 := kv.1], items[1..])
  }

  /** `_load_config`: with no file the defaults; otherwise the defaults updated by the file's value
      with `dict.update`, which takes a JSON object's entries, or a list of key/value pairs (an empty
      string is an empty sequence of pairs), and raises on anything else. */
  function LoadConfig(file: Option<Json>): (r: Result<map<string, Json>, string>)
  {
    match file
    case None => Ok(DEFAULT_CONFIG)
    case Some(JObj(user)) => Ok(DEFAULT_CONFIG + user)
    case Some(JArr(items)) => UpdateWithPairs(DEFAULT_CONFIG, items)
    case Some(JStr(s)) => if |s| == 0 then Ok(DEFAULT_CONFIG) else Err("ValueError")
    case Some(_) => Err("TypeError")
  }

  /** The merge is shallow: every key of the file replaces the default's value wholesale, nested
      sections included, and default keys the file does not mention survive. */
  lemma LoadConfigMerge(user: map<string, Json>, k: string)
    ensures LoadConfig(Some(JObj(user))).Ok?
    ensures LoadConfig(Some(JObj(user))).value.Keys == DEFAULT_CONFIG.Keys + user.Keys
    ensures k in user ==> LoadConfig(Some(JObj(user))).value[k] == user[k]
    ensures k !in user && k in DEFAULT_CONFIG ==> LoadConfig(Some(JObj(user))).value[k] == DEFAULT_CONFIG[k]
  {
  }

  /** A list element that sets a string key: two items, the first a string. */
  predicate StringPair(item: Json)
  {
    item.JArr? && |item.items| == 2 && item.items[0].JStr?
  }

  /** The key a string pair sets. */
  function PairKey(item: Json): string
  {
    if StringPair(item) then item.items[0].s else ""
  }

  /** The value a string pair sets. */
  function PairValue(item: Json): Json
  {
    if StringPair(item) then item.items[1] else JNull
  }

  /** A list of string-keyed pairs is a sequence of map updates: the keys it names are added, each
      gets the value of its last pair, and every other key keeps its value. */
  lemma {:induction false} PairListUpdate(config: map<string, Json>, items: seq<Json>, k: string)
    requires forall i | 0 <= i < |items| :: StringPair(items[i])
    ensures UpdateWithPairs(config, items).Ok?
    ensures var r := UpdateWithPairs(config, items).value;
            && r.Keys == config.Keys + (set i | 0 <= i < |items| :: PairKey(items[i]))
            && (forall i | 0 <= i < |items| && PairKey(items[i]) == k &&
                  (forall j | i < j < |items| :: PairKey(items[j]) != k) :: r[k] == PairValue(items[i]))
            && ((forall i | 0 <= i < |items| :: PairKey(items[i]) != k) && k in config ==> r[k] == config[k])
    decreases |items|
  {
    if |items| > 0 {
      var rest := items[1..];
      assert forall i | 1 <= i < |items| :: rest[i - 1] == items[i];
      var key, value := PairKey(items[0]), PairValue(items[0]);
      var updated := config[key := value];
      PairListUpdate(updated, rest, k);
      assert UpdateWithPairs(config, items) == UpdateWithPairs(updated, rest);
      var r := UpdateWithPairs(config, items).value;
      var keysRest := set i | 0 <= i < |rest| :: PairKey(rest[i]);
      var keysAll := set i | 0 <= i < |items| :: PairKey(items[i]);
      assert keysAll == {key} + keysRest by {
        forall x | x in keysAll ensures x in {key} + keysRest {
          var i :| 0 <= i < |items| && PairKey(items[i]) == x;
          if i > 0 {
            assert PairKey(rest[i - 1]) == x;
          }
        }
        forall x | x in keysRest ensures x in keysAll {
          var i :| 0 <= i < |rest| && PairKey(rest[i]) == x;
          assert PairKey(items[i + 1]) == x;
        }
      }
      forall i | 0 <= i < |items| && PairKey(items[i]) == k &&
                 (forall j | i < j < |items| :: PairKey(items[j]) != k)
        ensures r[k] == PairValue(items[i])
      {
        if i == 0 {
          assert forall j | 0 <= j < |rest| :: PairKey(rest[j]) != k by {
            forall j | 0 <= j < |rest| ensures PairKey(rest[j]) != k {
              assert rest[j] == items[j + 1];
            }
          }
        } else {
          assert rest[i - 1] == items[i];
          assert forall j | i - 1 < j < |rest| :: PairKey(rest[j]) != k by {
            forall j | i - 1 < j < |rest| ensures PairKey(rest[j]) != k {
              assert rest[j] == items[j + 1];
            }
          }
        }
      }
      if (forall i | 0 <= i < |items| :: PairKey(items[i]) != k) && k in config {
        assert key != k;
        assert forall j | 0 <= j < |rest| :: PairKey(rest[j]) != k by {
          forall j | 0 <= j < |rest| ensures PairKey(rest[j]) != k {
            assert rest[j] == items[j + 1];
          }
        }
      }
    }
  }

  /** A missing file leaves the defaults unchanged; an object or a pair list overriding
      `database_path` takes effect; an empty list or an empty string changes nothing; a non-empty
      string, a number, null, or a list holding anything but pairs raises. */
  lemma LoadConfigCases(path: string, s: string, n: int)
    ensures LoadConfig(None) == Ok(DEFAULT_CONFIG)
    ensures LoadConfig(Some(JObj(map["database_path" := JStr(path)]))).value["database_path"] == JStr(path)
    ensures LoadConfig(Some(JArr([]))) == Ok(DEFAULT_CONFIG)
    ensures LoadConfig(Some(JStr(""))) == Ok(DEFAULT_CONFIG)
    ensures LoadConfig(Some(JArr([JArr([JStr("database_path"), JStr(path)])]))) == Ok(DEFAULT_CONFIG["database_path" := JStr(path)])
    ensures |s| > 0 ==> LoadConfig(Some(JStr(s))).Err?
    ensures LoadConfig(Some(JInt(n))).Err? && LoadConfig(Some(JNull)).Err?
    ensures LoadConfig(Some(JArr([JInt(n)]))).Err?
    ensures LoadConfig(Some(JArr([JArr([JStr("database_path")])]))).Err?
  {
    var items := [JArr([JStr("database_path"), JStr(path)])];
    assert UpdatePair(items[0]) == Ok(Some(("database_path", JStr(path))));
    assert items[1..] == [];
    assert UpdateWithPairs(DEFAULT_CONFIG, items) == UpdateWithPairs(DEFAULT_CONFIG["database_path" := JStr(path)], []);
    assert [JInt(n)][1..] == [];
  }

  /** The default weights sum to one within the calculator's tolerance, so the metric step accepts
      them. */
  lemma DefaultConfigWeightsAccepted(weights: map<string, real>)
    ensures ConfigWeights(DEFAULT_CONFIG) == Ok(Some(DEFAULT_WEIGHTS))
    ensures UpdatedWeights(weights, DEFAULT_WEIGHTS).Ok?
  {
    var j := DEFAULT_CONFIG["trust_metrics"].fields["weights"];
    assert j.fields.Keys == DEFAULT_WEIGHTS.Keys;
    assert forall k | k in j.fields :: Number(j.fields[k]) == Some(DEFAULT_WEIGHTS[k]);
    assert NumberMap(j).value == DEFAULT_WEIGHTS;
    DefaultWeightsAccepted(weights);
  }

  /** `config[section][key]`: a missing section or key raises `KeyError`, a section that is not a
      dictionary `TypeError`. */
  function Setting(config: map<string, Json>, section: string, key: string): (r: Result<Json, string>)
    ensures r.Ok? <==> section in config && Get(config[section], key).Some?
    ensures r.Ok? ==> r.value == config[section].fields[key]
  {
    if section in config then Subscript(config[section], key) else Err("KeyError")
  }

  /** A list of strings as a decoded value. */
  function StringsJson(s: seq<string>): (j: Json)
    ensures AsStrings(j) == Some(s)
  {
    var j := JArr(seq(|s|, i requires 0 <= i < |s| => JStr(s[i])));
    assert AsStrings(j).value == s;
    j
  }

  /** The categories and per-category limit passed to the scraper: the given ones, or the configured
      values, unchecked, for those left as `None`; reading a configured value that is missing raises,
      outside the step's `try`. */
  function ScrapeArguments(config: map<string, Json>, categories: Option<seq<string>>, limit: Option<int>): (r: Result<(Json, Json), string>)
    ensures r.Ok? && categories.Some? ==> r.value.0 == StringsJson(categories.value)
    ensures r.Ok? && limit.Some? ==> r.value.1 == JInt(limit.value)
    ensures r.Ok? && categories.None? ==> Setting(config, "scraping", "categories") == Ok(r.value.0)
    ensures r.Ok? && limit.None? ==> Setting(config, "scraping", "limit_per_category") == Ok(r.value.1)
    ensures r.Err? <==> (categories.None? && Setting(config, "scraping", "categories").Err?)
                        || (limit.None? && Setting(config, "scraping", "limit_per_category").Err?)
  {
    var cats := if categories.Some? then Ok(StringsJson(categories.value)) else Setting(config, "scraping", "categories");
    var lim := if limit.Some? then Ok(JInt(limit.value)) else Setting(config, "scraping", "limit_per_category");
    if cats.Err? then Err(cats.error)
    else if lim.Err? then Err(lim.error)
    else Ok((cats.value, lim.value))
  }

  /** The defaults scrape the three default categories, fifty events each; replacing the scraping
      section wholesale with one that only names categories loses the default limit, so the same
      call raises. */
  lemma ScrapeArgumentDefaults(cats: seq<string>)
    ensures ScrapeArguments(DEFAULT_CONFIG, None, None) == Ok((StringsJson(["sports", "economics", "crypto"]), JInt(50)))
    ensures ScrapeArguments(LoadConfig(Some(JObj(map["scraping" := JObj(map["categories" := JArr([])])]))).value, None, None) == Err("KeyError")
  {
    var j := StringsJson(["sports", "economics", "crypto"]);
    assert j.items == [JStr("sports"), JStr("economics"), JStr("crypto")];
  }

  /** The outcome of a pipeline step: success, a handled failure (`False`), or an exception that
      escapes the step. */
  datatype StepResult = Success | Failure | Raised(error: string)

  /** `tuple(x)` accepts the iterable decoded values: lists, strings and dictionaries. */
  predicate Iterable(j: Json)
  {
    j.JArr? || j.JStr? || j.JObj?
  }

  /** The outcomes of the writes after a scrape, `false` when the write raises: the CSV file (the
      directory creation included) and the database. */
  datatype Saves = Saves(csvOk: bool, databaseOk: bool)

  /** The writes after a scrape succeed: both output flags can be read; a CSV write, when asked for,
      has a string `output_dir` and succeeds; a database write, when asked for, has a string
      `database_path` and succeeds. */
  predicate SavesSucceed(config: map<string, Json>, saves: Saves)
  {
    && Setting(config, "output", "save_csv").Ok?
    && (Truthy(Setting(config, "output", "save_csv").value) ==>
          "output_dir" in config && config["output_dir"].JStr? && saves.csvOk)
    && Setting(config, "output", "save_database").Ok?
    && (Truthy(Setting(config, "output", "save_database").value) ==>
          "database_path" in config && config["database_path"].JStr? && saves.databaseOk)
  }

  /** `scrape_data`: once the arguments are resolved, everything runs inside the `try`, where any
      error is a failure: reading `headless` and `delay_range` (which must be iterable), starting the
      scraper and scraping (`scrapeAll`, given the arguments as they are), finding at least one event,
      then the writes. */
  function ScrapeData<E>(config: map<string, Json>, categories: Option<seq<string>>, limit: Option<int>,
                         scrapeAll: (Json, Json) -> Result<seq<E>, string>, saves: Saves): (r: StepResult)
    ensures r.Raised? <==> ScrapeArguments(config, categories, limit).Err?
    ensures r == Success <==>
              && ScrapeArguments(config, categories, limit).Ok?
              && Setting(config, "scraping", "headless").Ok?
              && Setting(config, "scraping", "delay_range").Ok?
              && Iterable(Setting(config, "scraping", "delay_range").value)
              && var args := ScrapeArguments(config, categories, limit).value;
                 && scrapeAll(args.0, args.1).Ok? && |scrapeAll(args.0, args.1).value| > 0
                 && SavesSucceed(config, saves)
  {
    match ScrapeArguments(config, categories, limit)
    case Err(e) => Raised(e)
    case Ok((cats, lim)) =>
      var delay := Setting(config, "scraping", "delay_range");
      if Setting(config, "scraping", "headless").Err? || delay.Err? || !Iterable(delay.value) then Failure
      else
        match scrapeAll(cats, lim)
        case Err(_) => Failure
        case Ok(events) => if |events| == 0 || !SavesSucceed(config, saves) then Failure else Success
  }

  /** With the default configuration the step succeeds exactly when the scraper finds events and
      both writes succeed. A user scraping section that names only categories and a limit replaces
      the default section, dropping `headless`: the step then fails, whatever the scraper finds. A
      configured category value that is not a list reaches the scraper unchanged. */
  lemma ScrapeDataCases<E>(cats: seq<string>, n: int, scrapeAll: (Json, Json) -> Result<seq<E>, string>, saves: Saves, other: Json)
    ensures ScrapeData(DEFAULT_CONFIG, Some(cats), Some(n), scrapeAll, saves) == Success <==>
              scrapeAll(StringsJson(cats), JInt(n)).Ok? && |scrapeAll(StringsJson(cats), JInt(n)).value| > 0
              && saves.csvOk && saves.databaseOk
    ensures var config := LoadConfig(Some(JObj(map["scraping" := JObj(map["categories" := StringsJson(cats), "limit_per_category" := JInt(n)])]))).value;
            ScrapeData(config, None, None, scrapeAll, saves) == Failure
    ensures var config := DEFAULT_CONFIG["scraping" := JObj(DEFAULT_CONFIG["scraping"].fields["categories" := other])];
            ScrapeArguments(config, None, None) == Ok((other, JInt(50)))
  {
  }

  /** The weights the metric step passes to `update_weights`: `None` when the membership test for
      `weights` is false; an error when there is no trust-metrics section, when the membership test or
      `section['weights']` raises, when the weights are not a dictionary (`values()` is missing), or
      when a weight is not a number, so that `sum` raises. Booleans are numbers. */
  function ConfigWeights(config: map<string, Json>): (r: Result<Option<map<string, real>>, string>)
    ensures r == Ok(None) <==> "trust_metrics" in config && HasWeightsEntry(config["trust_metrics"]) == Ok(false)
    ensures r.Ok? && r.value.Some? ==> "trust_metrics" in config && Get(config["trust_metrics"], "weights").Some?
                                        && NumberMap(config["trust_metrics"].fields["weights"]) == r.value
  {
    if "trust_metrics" !in config then Err("KeyError")
    else
      var section := config["trust_metrics"];
      match HasWeightsEntry(section)
      case Err(e) => Err(e)
      case Ok(false) => Ok(None)
      case Ok(true) =>
        match Subscript(section, "weights")
        case Err(e) => Err(e)
        case Ok(j) =>
          if !j.JObj? then Err("AttributeError")
          else match NumberMap(j) case Some(w) => Ok(Some(w)) case None => Err("TypeError")
  }

  /** `'weights' in section`: key membership for a dictionary, element membership for a list,
      substring search for a string; any other value raises `TypeError`. */
  function HasWeightsEntry(section: Json): Result<bool, string>
  {
    match section
    case JObj(fields) => Ok("weights" in fields)
    case JArr(items) => Ok(JStr("weights") in items)
    case JStr(s) => Ok(HasFactor(s, "weights"))
    case _ => Err("TypeError")
  }

  /** A trust-metrics section that is a list or a string without `weights` leaves the weights alone;
      with `weights` the indexing raises; a number raises; boolean weights count as 1 and 0. */
  lemma ConfigWeightsCases(config: map<string, Json>, n: int)
    ensures ConfigWeights(config["trust_metrics" := JArr([JStr("recent_days")])]) == Ok(None)
    ensures ConfigWeights(config["trust_metrics" := JArr([JStr("weights")])]) == Err("TypeError")
    ensures ConfigWeights(config["trust_metrics" := JStr("")]) == Ok(None)
    ensures ConfigWeights(config["trust_metrics" := JInt(n)]) == Err("TypeError")
    ensures ConfigWeights(config["trust_metrics" := JObj(map["weights" := JObj(map["accuracy" := JBool(true), "recency" := JBool(false)])])])
              == Ok(Some(map["accuracy" := 1.0, "recency" := 0.0]))
    ensures ConfigWeights(config["trust_metrics" := JObj(map["weights" := JArr([])])]) == Err("AttributeError")
  {
    var w := JObj(map["accuracy" := JBool(true), "recency" := JBool(false)]);
    assert NumberMap(w).value == map["accuracy" := 1.0, "recency" := 0.0];
  }

  /** The weight map after the metric step's `update_weights`, an error when it raises. */
  ghost function WeightsAfterUpdate(config: map<string, Json>, weights: map<string, real>): (r: Result<map<string, real>, string>)
    ensures ConfigWeights(config).Err? ==> r.Err?
    ensures ConfigWeights(config) == Ok(None) ==> r == Ok(weights)
    ensures ConfigWeights(config).Ok? && ConfigWeights(config).value.Some? ==> r == UpdatedWeights(weights, ConfigWeights(config).value.value)
  {
    match ConfigWeights(config)
    case Err(e) => Err(e)
    case Ok(None) => Ok(weights)
    case Ok(Some(w)) => UpdatedWeights(weights, w)
  }

  /** The categories `calculate_all_trust_scores` iterates, from `config['scraping']['categories']`:
      a falsy value (null included) means no categories; a list of strings is itself; a string is the
      list of its characters. Iterating a truthy number raises, and so does binding a dictionary to
      the query's positional parameters. */
  function ConfigCategories(config: map<string, Json>): (r: Result<seq<string>, string>)
    ensures Setting(config, "scraping", "categories").Err? ==> r.Err?
    ensures Setting(config, "scraping", "categories").Ok? && !Truthy(Setting(config, "scraping", "categories").value) ==> r == Ok([])
    ensures Setting(config, "scraping", "categories").Ok? && AsStrings(Setting(config, "scraping", "categories").value).Some? ==>
              r == Ok(AsStrings(Setting(config, "scraping", "categories").value).value)
  {
    match Setting(config, "scraping", "categories")
    case Err(e) => Err(e)
    case Ok(j) =>
      if !Truthy(j) then Ok([])
      else
        match j
        case JArr(_) => (match AsStrings(j) case Some(s) => Ok(s) case None => Err("unsupported category value"))
        case JStr(s) => Ok(Characters(s))
        case JObj(_) => Err("ProgrammingError")
        case _ => Err("TypeError")
  }

  /** A string as the list of its one-character strings, as iterating it gives them. */
  function Characters(s: string): (r: seq<string>)
    ensures |r| == |s| && forall i | 0 <= i < |s| :: r[i] == [s[i]]
  {
    if |s| == 0 then [] else [[s[0]]] + Characters(s[1..])
  }

  /** Whether the metric step succeeds from weight map `weights`: the configured weights are
      accepted, the categories are readable, scoring gives at least one record, and saving the
      records (given as `saveOk`) succeeds. */
  ghost predicate MetricsSucceed(config: map<string, Json>, weights: map<string, real>, store: Store, env: Env, saveOk: bool)
  {
    && HasWeightKeys(weights)
    && WeightsAfterUpdate(config, weights).Ok?
    && ConfigCategories(config).Ok?
    && var w := WeightsAfterUpdate(config, weights).value;
       (HasWeightKeys(w) &&
        var all := AllTrustScores(store, ConfigCategories(config).value, w, env);
        all.Ok? && |all.value| > 0 && saveOk)
  }

  /** Null categories are no categories: the step then scores each model overall only, and succeeds
      when there is a model and every score and the save succeed. */
  lemma NullCategoriesScoreOverall(config: map<string, Json>, weights: map<string, real>, store: Store, env: Env, saveOk: bool)
    requires "scraping" in config && config["scraping"].JObj? && "categories" in config["scraping"].fields
    requires config["scraping"].fields["categories"] == JNull
    requires HasWeightKeys(weights) && ConfigWeights(config) == Ok(None)
    ensures ConfigCategories(config) == Ok([])
    ensures MetricsSucceed(config, weights, store, env, saveOk) <==>
              AllTrustScores(store, [], weights, env).Ok? && |DistinctModels(store, [])| > 0 && saveOk
  {
    if AllTrustScores(store, [], weights, env).Ok? {
      AllTrustScoresCount(store, [], weights, env);
    }
  }

  /** Whether the output section asks for reports; `None` when reading the flag raises. */
  function ReportsWanted(config: map<string, Json>): Option<bool>
  {
    if "output" in config then
      match Get(config["output"], "generate_reports")
      case Some(j) => Some(Truthy(j))
      case None => None
    else None
  }

  /** A pipeline step, for the trace of what ran. */
  datatype Step = Setup | Scrape | Metrics | Reports

  /** How each step would end if it ran. Reading the report flag belongs to the report step: a
      flag that cannot be read makes that step raise. */
  datatype Outcomes = Outcomes(setup: bool, scrape: bool, metrics: bool, reportsFlag: Option<bool>, reports: bool)

  predicate Succeeded(o: Outcomes, s: Step)
  {
    match s
    case Setup => o.setup
    case Scrape => o.scrape
    case Metrics => o.metrics
    case Reports => o.reportsFlag == Some(true) && o.reports
  }

  /** The steps a full run attempts: reports unless the flag reads false. */
  function Plan(o: Outcomes): (r: seq<Step>)
    ensures |r| >= 3 && r[..3] == [Setup, Scrape, Metrics]
  {
    [Setup, Scrape, Metrics] + (if o.reportsFlag == Some(false) then [] else [Reports])
  }

  /** The run of the steps in order, ending at the first that does not succeed: whether the run
      succeeds, and the steps that ran. */
  function Trace(o: Outcomes): (bool, seq<Step>)
  {
    if !o.setup then (false, [Setup])
    else if !o.scrape then (false, [Setup, Scrape])
    else if !o.metrics then (false, [Setup, Scrape, Metrics])
    else if o.reportsFlag == Some(false) then (true, [Setup, Scrape, Metrics])
    else (Succeeded(o, Reports), [Setup, Scrape, Metrics, Reports])
  }

  /** The trace runs a prefix of the plan; every step before the last succeeded; the run succeeds
      exactly when the whole plan ran and its last step succeeded, and a failed run ends with the
      step that failed. */
  lemma TraceStopsAtFirstFailure(o: Outcomes)
    ensures var (ok, ran) := Trace(o);
            && 1 <= |ran| <= |Plan(o)| && ran == Plan(o)[..|ran|]
            && (forall i | 0 <= i < |ran| - 1 :: Succeeded(o, ran[i]))
            && (ok <==> ran == Plan(o) && Succeeded(o, ran[|ran| - 1]))
            && (!ok ==> !Succeeded(o, ran[|ran| - 1]))
  {
  }

  /** The pipeline: its configuration and the calculator it drives. */
  class ProphetArenaDataPipeline {
    var config: map<string, Json>
    var calculator: TrustMetricsCalculator

    ghost predicate Valid()
      reads this, calculator
    {
      calculator.Valid()
    }

    /** Loads the configuration and opens a calculator on its database path. */
    constructor(file: Option<Json>)
      requires LoadConfig(file).Ok?
      ensures config == LoadConfig(file).value
      ensures fresh(calculator) && calculator.weights == DEFAULT_WEIGHTS
      ensures Valid()
    {
      var c := LoadConfig(file).value;
      assert "database_path" in c;
      config := c;
      calculator := new TrustMetricsCalculator(match c["database_path"] case JStr(p) => p case _ => "");
    }

    /** `calculate_trust_metrics`: applies the configured weights (when the section has them), then
        scores every model over the configured categories and saves the records (the save's outcome
        is `saveOk`). An error anywhere, invalid weights included, or no records, is a failure; the
        weights stay as `update_weights` left them. */
    method CalculateTrustMetrics(store: Store, env: Env, saveOk: bool) returns (ok: bool, metrics: seq<TrustMetrics>)
      requires Valid()
      modifies calculator
      ensures Valid() && calculator.dbPath == old(calculator.dbPath)
      ensures WeightsAfterUpdate(config, old(calculator.weights)).Ok? ==> calculator.weights == WeightsAfterUpdate(config, old(calculator.weights)).value
      ensures WeightsAfterUpdate(config, old(calculator.weights)).Err? ==> calculator.weights == old(calculator.weights)
      ensures ok <==> MetricsSucceed(config, old(calculator.weights), store, env, saveOk)
      ensures ok ==> metrics == AllTrustScores(store, ConfigCategories(config).value, calculator.weights, env).value
    {
      metrics := [];
      var w := ConfigWeights(config);
      if w.Err? {
        return false, [];
      }
      if w.value.Some? {
        var o := calculator.UpdateWeights(w.value.value);
        if o.Fail? {
          return false, [];
        }
      }
      var cats := ConfigCategories(config);
      if cats.Err? {
        return false, [];
      }
      var all := calculator.CalculateAllTrustScores(store, cats.value, env);
      if all.Err? || |all.value| == 0 || !saveOk {
        return false, [];
      }
      return true, all.value;
    }

    /** `run_full_pipeline`: setup, scrape, metrics, then reports unless the output section turns
        them off, run as `Trace` describes (see `TraceStopsAtFirstFailure`). Setup, the writes and
        report writing are file I/O, given as their outcomes; the scraper is given as a function. */
    method RunFullPipeline<E>(categories: Option<seq<string>>, limit: Option<int>, setupOk: bool,
                              scrapeAll: (Json, Json) -> Result<seq<E>, string>, saves: Saves,
                              store: Store, env: Env, metricsSaveOk: bool, reportsOk: bool)
      returns (ok: bool, ran: seq<Step>)
      requires Valid()
      modifies calculator
      ensures Valid()
      ensures (ok, ran) == Trace(Outcomes(setupOk, ScrapeData(config, categories, limit, scrapeAll, saves) == Success,
                                          MetricsSucceed(config, old(calculator.weights), store, env, metricsSaveOk),
                                          ReportsWanted(config), reportsOk))
      ensures Metrics !in ran ==> calculator.weights == old(calculator.weights)
    {
      ghost var o := Outcomes(setupOk, ScrapeData(config, categories, limit, scrapeAll, saves) == Success,
                              MetricsSucceed(config, calculator.weights, store, env, metricsSaveOk), ReportsWanted(config), reportsOk);
      ran := [Setup];
      if !setupOk {
        return false, ran;
      }
      ran := [Setup, Scrape];
      if ScrapeData(config, categories, limit, scrapeAll, saves) != Success {
        return false, ran;
      }
      ran := [Setup, Scrape, Metrics];
      var metricsOk, _ := CalculateTrustMetrics(store, env, metricsSaveOk);
      assert metricsOk == o.metrics;
      if !metricsOk {
        return false, ran;
      }
      var wanted := ReportsWanted(config);
      if wanted == Some(false) {
        return true, ran;
      }
      ran := [Setup, Scrape, Metrics, Reports];
      return wanted == Some(true) && reportsOk, ran;
    }
  }
}
