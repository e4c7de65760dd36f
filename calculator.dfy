/** `TrustMetricsCalculator`: the weight map it holds and updates, the rows it reads for one model,
    and the order in which `calculate_all_trust_scores` produces records. */
module Calculator {
  import opened Common
  import opened Tables
  import opened TrustMetrics

  // ---------------------------------------------------------------- the rows of one model

  /** A row of the predictions table: the model that made it, its event, and the frame columns. */
  datatype StoredPrediction = StoredPrediction(modelName: string, eventId: string, row: Prediction)

  /** The two tables the calculator reads: the predictions, and the events keyed by `event_id`
      (the primary key) with their possibly `NULL` category. */
  datatype Store = Store(predictions: seq<StoredPrediction>, events: seq<Entry<string, Option<string>>>)

  /** Python truthiness of an optional string: present and not empty. */
  predicate CategoryGiven(s: Option<string>)
  {
    s.Some? && |s.value| > 0
  }

  /** The query of `calculate_trust_score`: the prediction is the model's, it joins an event, and
      when the category argument is truthy the event has that category (a `NULL` category never
      equals it). */
  predicate Selected(events: seq<Entry<string, Option<string>>>, p: StoredPrediction, name: string, category: Option<string>)
  {
    && p.modelName == name
    && Lookup(events, p.eventId).Some?
    && (CategoryGiven(category) ==> Lookup(events, p.eventId).value == category)
  }

  /** The selected rows, in table order. */
  function Select(preds: seq<StoredPrediction>, events: seq<Entry<string, Option<string>>>, name: string, category: Option<string>)
    : (r: seq<Prediction>)
    ensures |r| <= |preds|
    ensures forall p | p in preds && Selected(events, p, name, category) :: p.row in r
    ensures forall x | x in r :: exists p | p in preds :: Selected(events, p, name, category) && p.row == x
  {
    if |preds| == 0 then []
    else
      var last := preds[|preds| - 1];
      var rest := Select(preds[..|preds| - 1], events, name, category);
      assert preds == preds[..|preds| - 1] + [last];
      if Selected(events, last, name, category) then rest + [last.row] else rest
  }

  /** The selection keeps the table's order and each row's multiplicity: selecting from two
      concatenated parts is concatenating their selections, and one stored prediction contributes
      its row once when it is selected and nothing otherwise. */
  lemma {:induction false} SelectAppend(a: seq<StoredPrediction>, b: seq<StoredPrediction>,
                                        events: seq<Entry<string, Option<string>>>, name: string, category: Option<string>)
    ensures Select(a + b, events, name, category) == Select(a, events, name, category) + Select(b, events, name, category)
    ensures |b| == 1 ==> Select(b, events, name, category) == if Selected(events, b[0], name, category) then [b[0].row] else []
  {
    if |b| > 0 {
      var b0 := b[..|b| - 1];
      assert (a + b)[..|a + b| - 1] == a + b0;
      assert (a + b)[|a + b| - 1] == b[|b| - 1];
      SelectAppend(a, b0, events, name, category);
      if |b| == 1 {
        assert b0 == [];
      }
    } else {
      assert a + b == a;
    }
  }

  /** The frame `calculate_trust_score` reads for a model and an optional category. */
  function Fetch(store: Store, name: string, category: Option<string>): seq<Prediction>
  {
    Select(store.predictions, store.events, name, category)
  }

  /** An empty category string adds no filter: it reads the same rows as no category at all. */
  lemma {:induction false} EmptyCategoryReadsAll(preds: seq<StoredPrediction>, events: seq<Entry<string, Option<string>>>, name: string)
    ensures Select(preds, events, name, Some("")) == Select(preds, events, name, None)
  {
    if |preds| > 0 {
      EmptyCategoryReadsAll(preds[..|preds| - 1], events, name);
    }
  }

  /** A category only narrows the selection: the category's rows are a sub-multiset of the model's
      overall rows. */
  lemma {:induction false} CategoryNarrows(preds: seq<StoredPrediction>, events: seq<Entry<string, Option<string>>>, name: string, c: string)
    ensures multiset(Select(preds, events, name, Some(c))) <= multiset(Select(preds, events, name, None))
  {
    if |preds| > 0 {
      CategoryNarrows(preds[..|preds| - 1], events, name, c);
    }
  }

  // ---------------------------------------------------------------- which models, in which order

  /** The model names of the predictions, in table order. */
  function Names(preds: seq<StoredPrediction>): (r: seq<string>)
    ensures |r| == |preds| && forall i | 0 <= i < |r| :: r[i] == preds[i].modelName
  {
    seq(|preds|, i requires 0 <= i < |preds| => preds[i].modelName)
  }

  /** `SELECT DISTINCT`: the first occurrence of each value, in order. */
  function Distinct(s: seq<string>): (r: seq<string>)
    ensures forall i, j | 0 <= i < j < |r| :: r[i] != r[j]
    ensures forall x :: x in r <==> x in s
  {
    if |s| == 0 then []
    else
      var rest := Distinct(s[..|s| - 1]);
      assert s == s[..|s| - 1] + [s[|s| - 1]];
      if s[|s| - 1] in rest then rest else rest + [s[|s| - 1]]
  }

  /** The sub-query of `calculate_all_trust_scores`: with categories given, the model has a
      prediction on an event of one of them. */
  predicate Eligible(store: Store, m: string, cats: seq<string>)
  {
    || |cats| == 0
    || exists p | p in store.predictions ::
         && p.modelName == m
         && Lookup(store.events, p.eventId).Some?
         && Lookup(store.events, p.eventId).value.Some?
         && Lookup(store.events, p.eventId).value.value in cats
  }

  /** The elements of `s` that are eligible, in order. */
  function KeepEligible(s: seq<string>, store: Store, cats: seq<string>): (r: seq<string>)
    ensures forall x :: x in r <==> x in s && Eligible(store, x, cats)
    ensures (forall i, j | 0 <= i < j < |s| :: s[i] != s[j]) ==> forall i, j | 0 <= i < j < |r| :: r[i] != r[j]
  {
    if |s| == 0 then []
    else
      var rest := KeepEligible(s[..|s| - 1], store, cats);
      assert s == s[..|s| - 1] + [s[|s| - 1]];
      if Eligible(store, s[|s| - 1], cats) then rest + [s[|s| - 1]] else rest
  }

  /** The models `calculate_all_trust_scores` visits: each model name once, in first-occurrence
      order, and with categories given only the models that predicted in one of them. */
  function DistinctModels(store: Store, cats: seq<string>): seq<string>
  {
    KeepEligible(Distinct(Names(store.predictions)), store, cats)
  }

  /** No model is visited twice, and a model is visited exactly when it has a prediction and is
      eligible. */
  lemma DistinctModelsChosen(store: Store, cats: seq<string>, m: string)
    ensures var ms := DistinctModels(store, cats);
            (forall i, j | 0 <= i < j < |ms| :: ms[i] != ms[j])
            && (m in ms <==> (exists p | p in store.predictions :: p.modelName == m) && Eligible(store, m, cats))
  {
    var names := Names(store.predictions);
    if m in names {
      var i :| 0 <= i < |names| && names[i] == m;
      assert store.predictions[i] in store.predictions;
    }
    if exists p | p in store.predictions :: p.modelName == m {
      var p :| p in store.predictions && p.modelName == m;
      var i :| 0 <= i < |store.predictions| && store.predictions[i] == p;
      assert names[i] == m;
    }
  }

  // ---------------------------------------------------------------- the records, in order

  /** One call of `calculate_trust_score`: a model and an optional category. */
  datatype Job = Job(model: string, category: Option<string>)

  /** The calls made for one model: overall first, then one per category in the given order. */
  function ModelJobs(m: string, cats: seq<string>): (r: seq<Job>)
    ensures |r| == 1 + |cats| && r[0] == Job(m, None)
    ensures forall j | 0 <= j < |cats| :: r[j + 1] == Job(m, Some(cats[j]))
  {
    [Job(m, None)] + seq(|cats|, j requires 0 <= j < |cats| => Job(m, Some(cats[j])))
  }

  /** All calls, model after model. */
  function Jobs(models: seq<string>, cats: seq<string>): seq<Job>
  {
    if |models| == 0 then [] else Jobs(models[..|models| - 1], cats) + ModelJobs(models[|models| - 1], cats)
  }

  lemma {:induction false} JobsAppend(a: seq<string>, b: seq<string>, cats: seq<string>)
    ensures Jobs(a + b, cats) == Jobs(a, cats) + Jobs(b, cats)
  {
    if |b| > 0 {
      var b0, m := b[..|b| - 1], b[|b| - 1];
      assert b == b0 + [m] && a + b == (a + b0) + [m];
      JobsSnoc(a + b0, m, cats);
      JobsSnoc(b0, m, cats);
      JobsAppend(a, b0, cats);
      Assoc(Jobs(a, cats), Jobs(b0, cats), ModelJobs(m, cats));
    } else {
      assert a + b == a;
    }
  }

  /** The call of model `q`: its overall call when `j == 0`, else that of category `j - 1`. */
  function JobOf(models: seq<string>, cats: seq<string>, q: nat, j: nat): Job
    requires q < |models| && j < 1 + |cats|
  {
    Job(models[q], if j == 0 then None else Some(cats[j - 1]))
  }

  lemma {:induction false} JobsLength(models: seq<string>, cats: seq<string>)
    ensures |Jobs(models, cats)| == |models| * (1 + |cats|)
  {
    if |models| > 0 {
      JobsLength(models[..|models| - 1], cats);
      assert |models| * (1 + |cats|) == (|models| - 1) * (1 + |cats|) + (1 + |cats|);
    }
  }

  /** Every position belongs to one of the models. */
  /** Call `j` of model `q` comes right after the calls of the models before it, whose number
      `JobsLength` gives as `q * (1 + |cats|)`. */
  lemma JobIndex(models: seq<string>, cats: seq<string>, q: nat, j: nat)
    requires q < |models| && j < 1 + |cats|
    ensures |Jobs(models[..q], cats)| + j < |Jobs(models, cats)|
    ensures Jobs(models, cats)[|Jobs(models[..q], cats)| + j] == JobOf(models, cats, q, j)
  {
    JobsAround(models, cats, q);
    var mj := ModelJobs(models[q], cats);
    assert Jobs(models, cats)[|Jobs(models[..q], cats)| + j] == mj[j];
    if j > 0 {
      assert mj[(j - 1) + 1] == Job(models[q], Some(cats[j - 1]));
    }
  }

  /** The calls of the models before `q`, then those of model `q`, then those of the models after. */
  lemma JobsAround(models: seq<string>, cats: seq<string>, q: nat)
    requires q < |models|
    ensures Jobs(models, cats) == (Jobs(models[..q], cats) + ModelJobs(models[q], cats)) + Jobs(models[q + 1..], cats)
  {
    var front, m, back := models[..q], models[q], models[q + 1..];
    assert models == front + [m] + back;
    JobsAppend(front + [m], back, cats);
    JobsSnoc(front, m, cats);
  }

  /** `calculate_trust_score` for one call. */
  function Score(store: Store, job: Job, w: map<string, real>, env: Env): Result<TrustMetrics, MetricsError>
    requires HasWeightKeys(w)
  {
    ComputeMetrics(job.model, job.category, Fetch(store, job.model, job.category), w, env)
  }

  /** The outcome of every call, in order. */
  function Scores(store: Store, jobs: seq<Job>, w: map<string, real>, env: Env): (r: seq<Result<TrustMetrics, MetricsError>>)
    requires HasWeightKeys(w)
    ensures |r| == |jobs|
  {
    seq(|jobs|, i requires 0 <= i < |jobs| => Score(store, jobs[i], w, env))
  }

  lemma ScoresAppend(store: Store, a: seq<Job>, b: seq<Job>, w: map<string, real>, env: Env)
    requires HasWeightKeys(w)
    ensures Scores(store, a + b, w, env) == Scores(store, a, w, env) + Scores(store, b, w, env)
  {
    var l, r := Scores(store, a + b, w, env), Scores(store, a, w, env) + Scores(store, b, w, env);
    forall i | 0 <= i < |l| ensures l[i] == r[i] {
      if i < |a| {
        assert (a + b)[i] == a[i];
      } else {
        assert (a + b)[i] == b[i - |a|];
      }
    }
  }

  /** `calculate_all_trust_scores`: the calls are made in order and the first that raises ends it. */
  function AllTrustScores(store: Store, cats: seq<string>, w: map<string, real>, env: Env): Result<seq<TrustMetrics>, MetricsError>
    requires HasWeightKeys(w)
  {
    Collect(Scores(store, Jobs(DistinctModels(store, cats), cats), w, env))
  }

  /** When no call raises, there is one record per call: `|models| * (1 + |cats|)` of them. */
  lemma AllTrustScoresCount(store: Store, cats: seq<string>, w: map<string, real>, env: Env)
    requires HasWeightKeys(w) && AllTrustScores(store, cats, w, env).Ok?
    ensures |AllTrustScores(store, cats, w, env).value| == |DistinctModels(store, cats)| * (1 + |cats|)
  {
    JobsLength(DistinctModels(store, cats), cats);
  }

  /** When no call raises, the `j`-th record after those of the first `q` models (of which there are
      `q * (1 + |cats|)`, by `JobsLength`) belongs to model `q` and its call `j`: overall first,
      then the categories. */
  lemma AllTrustScoresLayout(store: Store, cats: seq<string>, w: map<string, real>, env: Env, q: nat, j: nat)
    requires HasWeightKeys(w) && AllTrustScores(store, cats, w, env).Ok?
    requires q < |DistinctModels(store, cats)| && j < 1 + |cats|
    ensures var ms := DistinctModels(store, cats);
            var r := AllTrustScores(store, cats, w, env).value;
            && |Jobs(ms[..q], cats)| + j < |r|
            && r[|Jobs(ms[..q], cats)| + j].modelName == JobOf(ms, cats, q, j).model
            && r[|Jobs(ms[..q], cats)| + j].category == JobOf(ms, cats, q, j).category
  {
    ScoresLayout(store, DistinctModels(store, cats), cats, w, env, q, j);
  }

  /** The layout of a successful run of the calls for any list of models. */
  lemma ScoresLayout(store: Store, ms: seq<string>, cats: seq<string>, w: map<string, real>, env: Env, q: nat, j: nat)
    requires HasWeightKeys(w) && Collect(Scores(store, Jobs(ms, cats), w, env)).Ok?
    requires q < |ms| && j < 1 + |cats|
    ensures var r := Collect(Scores(store, Jobs(ms, cats), w, env)).value;
            && |Jobs(ms[..q], cats)| + j < |r|
            && r[|Jobs(ms[..q], cats)| + j].modelName == JobOf(ms, cats, q, j).model
            && r[|Jobs(ms[..q], cats)| + j].category == JobOf(ms, cats, q, j).category
  {
    ScoresNamed(store, Jobs(ms, cats), w, env);
    RunLayout(ms, cats, Scores(store, Jobs(ms, cats), w, env), q, j);
  }

  /** Every successful outcome names the model and category of its call. */
  predicate Named(rs: seq<Result<TrustMetrics, MetricsError>>, jobs: seq<Job>)
  {
    && |rs| == |jobs|
    && forall n | 0 <= n < |rs| && rs[n].Ok? :: rs[n].value.modelName == jobs[n].model && rs[n].value.category == jobs[n].category
  }

  /** The layout of a successful run over any list of models whose outcomes name their calls. */
  lemma RunLayout(ms: seq<string>, cats: seq<string>, rs: seq<Result<TrustMetrics, MetricsError>>, q: nat, j: nat)
    requires Collect(rs).Ok? && Named(rs, Jobs(ms, cats))
    requires q < |ms| && j < 1 + |cats|
    ensures var r := Collect(rs).value;
            && |Jobs(ms[..q], cats)| + j < |r|
            && r[|Jobs(ms[..q], cats)| + j].modelName == JobOf(ms, cats, q, j).model
            && r[|Jobs(ms[..q], cats)| + j].category == JobOf(ms, cats, q, j).category
  {
    JobIndex(ms, cats, q, j);
    CollectNamed(rs, Jobs(ms, cats), |Jobs(ms[..q], cats)| + j);
  }

  /** In a successful collection, the record at a position whose outcome names its call names it too. */
  lemma CollectNamed(rs: seq<Result<TrustMetrics, MetricsError>>, jobs: seq<Job>, n: nat)
    requires Collect(rs).Ok? && |rs| == |jobs| && n < |jobs|
    requires rs[n].Ok? ==> rs[n].value.modelName == jobs[n].model && rs[n].value.category == jobs[n].category
    ensures n < |Collect(rs).value|
    ensures Collect(rs).value[n].modelName == jobs[n].model && Collect(rs).value[n].category == jobs[n].category
  {
    CollectAt(rs, n);
  }

  /** A successful collection holds the value of each outcome at its position. */
  lemma CollectAt<T, E>(rs: seq<Result<T, E>>, n: nat)
    requires Collect(rs).Ok? && n < |rs|
    ensures rs[n].Ok? && |Collect(rs).value| == |rs| && Collect(rs).value[n] == rs[n].value
  {
  }

  /** Every call names the model and category it was made for. */
  lemma ScoresNamed(store: Store, jobs: seq<Job>, w: map<string, real>, env: Env)
    requires HasWeightKeys(w)
    ensures Named(Scores(store, jobs, w, env), jobs)
  {
    forall n | 0 <= n < |jobs| {
      ScoreNamed(store, jobs, w, env, n);
    }
  }

  /** A successful call names the model and category it was made for. */
  lemma ScoreNamed(store: Store, jobs: seq<Job>, w: map<string, real>, env: Env, n: nat)
    requires HasWeightKeys(w) && n < |jobs|
    ensures Scores(store, jobs, w, env)[n].Ok? ==>
              && Scores(store, jobs, w, env)[n].value.modelName == jobs[n].model
              && Scores(store, jobs, w, env)[n].value.category == jobs[n].category
  {
    assert Scores(store, jobs, w, env)[n] == Score(store, jobs[n], w, env);
  }

  /** One more call after calls that all succeeded. */
  lemma ScoreStep(store: Store, done: seq<Job>, mj: seq<Job>, j: nat, result: Result<TrustMetrics, MetricsError>,
                  w: map<string, real>, env: Env)
    requires HasWeightKeys(w) && j < |mj|
    requires Collect(Scores(store, done + mj[..j], w, env)).Ok?
    requires result == Score(store, mj[j], w, env)
    ensures Collect(Scores(store, done + mj[..j + 1], w, env)) ==
              match result
              case Err(e) => Err(e)
              case Ok(m) => Ok(Collect(Scores(store, done + mj[..j], w, env)).value + [m])
  {
    ScoresNext(store, done, mj, j, w, env);
    CollectStep(Scores(store, done + mj[..j + 1], w, env), Scores(store, done + mj[..j], w, env), result);
  }

  /** The outcomes up to call `j + 1` of a model extend those up to call `j` by that call's. */
  lemma ScoresNext(store: Store, done: seq<Job>, mj: seq<Job>, j: nat, w: map<string, real>, env: Env)
    requires HasWeightKeys(w) && j < |mj|
    ensures Scores(store, done + mj[..j + 1], w, env) == Scores(store, done + mj[..j], w, env) + [Score(store, mj[j], w, env)]
  {
    var xs := done + mj[..j];
    assert done + mj[..j + 1] == xs + [mj[j]];
    ScoresSnoc(store, xs, mj[j], w, env);
  }

  lemma ScoresSnoc(store: Store, xs: seq<Job>, x: Job, w: map<string, real>, env: Env)
    requires HasWeightKeys(w)
    ensures Scores(store, xs + [x], w, env) == Scores(store, xs, w, env) + [Score(store, x, w, env)]
  {
    ScoresAppend(store, xs, [x], w, env);
    assert Scores(store, [x], w, env)[0] == Score(store, x, w, env);
  }

  /** `CollectSnoc`, for a sequence already known to be one step longer. */
  lemma CollectStep<T, E>(after: seq<Result<T, E>>, before: seq<Result<T, E>>, x: Result<T, E>)
    requires Collect(before).Ok? && after == before + [x]
    ensures Collect(after) == match x case Err(e) => Err(e) case Ok(v) => Ok(Collect(before).value + [v])
  {
    CollectSnoc(before, x);
  }

  /** The calls of a model, appended to those of the models before it. */
  lemma JobsNext(models: seq<string>, cats: seq<string>, i: nat)
    requires i < |models|
    ensures Jobs(models[..i + 1], cats) == Jobs(models[..i], cats) + ModelJobs(models[i], cats)[..|cats| + 1]
  {
    assert models[..i + 1][..i] == models[..i];
    assert ModelJobs(models[i], cats)[..|cats| + 1] == ModelJobs(models[i], cats);
  }

  /** The calls of all models around the `j`-th call of model `m`. */
  lemma JobsSplit(front: seq<string>, m: string, back: seq<string>, cats: seq<string>, j: nat)
    requires j <= |cats|
    ensures Jobs(front + [m] + back, cats) ==
              (Jobs(front, cats) + ModelJobs(m, cats)[..j + 1]) + (ModelJobs(m, cats)[j + 1..] + Jobs(back, cats))
  {
    JobsAppend(front + [m], back, cats);
    JobsSnoc(front, m, cats);
    Regroup(Jobs(front, cats), ModelJobs(m, cats), j + 1, Jobs(back, cats));
  }

  lemma JobsSnoc(front: seq<string>, m: string, cats: seq<string>)
    ensures Jobs(front + [m], cats) == Jobs(front, cats) + ModelJobs(m, cats)
  {
    assert (front + [m])[..|front|] == front;
  }

  lemma Regroup<T>(a: seq<T>, x: seq<T>, n: nat, b: seq<T>)
    requires n <= |x|
    ensures (a + x) + b == (a + x[..n]) + (x[n..] + b)
  {
    assert x == x[..n] + x[n..];
  }

  lemma Assoc<T>(x: seq<T>, y: seq<T>, z: seq<T>)
    ensures (x + y) + z == x + (y + z)
  {
  }

  lemma NoneTaken<T>(a: seq<T>, x: seq<T>)
    ensures a + x[..0] == a
  {
  }

  lemma Around<T>(s: seq<T>, i: nat)
    requires i < |s|
    ensures s == s[..i] + [s[i]] + s[i + 1..]
  {
  }

  /** A call that raises ends the whole computation with its error. */
  lemma ScoreStopsModels(store: Store, models: seq<string>, cats: seq<string>, i: nat, j: nat, w: map<string, real>, env: Env)
    requires HasWeightKeys(w) && i < |models| && j <= |cats|
    requires Collect(Scores(store, Jobs(models[..i], cats) + ModelJobs(models[i], cats)[..j + 1], w, env)).Err?
    ensures Collect(Scores(store, Jobs(models, cats), w, env)) ==
              Collect(Scores(store, Jobs(models[..i], cats) + ModelJobs(models[i], cats)[..j + 1], w, env))
  {
    var mj := ModelJobs(models[i], cats);
    var done := Jobs(models[..i], cats) + mj[..j + 1];
    var later := mj[j + 1..] + Jobs(models[i + 1..], cats);
    Around(models, i);
    JobsSplit(models[..i], models[i], models[i + 1..], cats, j);
    ScoresAppend(store, done, later, w, env);
    CollectErrExtends(Scores(store, done, w, env), Scores(store, later, w, env));
  }

  // ---------------------------------------------------------------- the calculator object

  /** The sum of a map's values (`sum(weights.values())`); the order of the terms does not matter. */
  ghost function SumValues(m: map<string, real>): real
    decreases |m.Keys|
  {
    if m == map[] then 0.0
    else
      var k :| k in m.Keys;
      m[k] + SumValues(m - {k})
  }

  /** Any key can be taken out of the sum first. */
  lemma {:induction false} SumValuesRemove(m: map<string, real>, k: string)
    requires k in m
    ensures SumValues(m) == m[k] + SumValues(m - {k})
    decreases |m.Keys|
  {
    var k' :| k' in m.Keys && SumValues(m) == m[k'] + SumValues(m - {k'});
    if k' != k {
      assert (m - {k'}).Keys == m.Keys - {k'};
      assert (m - {k}).Keys == m.Keys - {k};
      SumValuesRemove(m - {k'}, k);
      SumValuesRemove(m - {k}, k');
      assert m - {k'} - {k} == m - {k} - {k'};
    }
  }

  /** The weights after `update_weights(w)`: the argument is rejected when its own values do not sum
      to 1 within the tolerance; otherwise it is merged in (`dict.update`), without looking at the
      sign of a weight, at missing keys or at the sum of the merged map. */
  ghost function UpdatedWeights(weights: map<string, real>, w: map<string, real>): (r: Result<map<string, real>, string>)
    ensures r.Err? <==> Abs(SumValues(w) - 1.0) > TOLERANCE
    ensures r.Err? ==> r.error == "Weights must sum to 1.0"
    ensures r.Ok? ==> r.value.Keys == weights.Keys + w.Keys
    ensures r.Ok? ==> forall k | k in r.value :: r.value[k] == if k in w then w[k] else weights[k]
  {
    if Abs(SumValues(w) - 1.0) > TOLERANCE then Err("Weights must sum to 1.0") else Ok(weights + w)
  }

  /** A successful update never loses a key, so the composite score stays defined. */
  lemma UpdateKeepsWeightKeys(weights: map<string, real>, w: map<string, real>)
    requires HasWeightKeys(weights) && UpdatedWeights(weights, w).Ok?
    ensures HasWeightKeys(UpdatedWeights(weights, w).value)
  {
  }

  lemma SumValuesOfDefaults()
    ensures SumValues(DEFAULT_WEIGHTS) == 1.0
  {
    var d := DEFAULT_WEIGHTS;
    SumValuesRemove(d, "accuracy");
    var d1 := d - {"accuracy"};
    assert d1 == map["calibration" := 0.3, "confidence" := 0.2, "recency" := 0.1];
    SumValuesRemove(d1, "calibration");
    var d2 := d1 - {"calibration"};
    assert d2 == map["confidence" := 0.2, "recency" := 0.1];
    SumValuesRemove(d2, "confidence");
    var d3 := d2 - {"confidence"};
    assert d3 == map["recency" := 0.1];
    SumValuesRemove(d3, "recency");
    assert d3 - {"recency"} == map[];
  }

  /** The default weights pass the check of `update_weights`. */
  lemma DefaultWeightsAccepted(weights: map<string, real>)
    ensures UpdatedWeights(weights, DEFAULT_WEIGHTS) == Ok(weights + DEFAULT_WEIGHTS)
  {
    SumValuesOfDefaults();
  }

  /** An argument like `{accuracy: 1.0}` passes the check although the merged map then sums to 1.6. */
  lemma SingleWeightAccepted(weights: map<string, real>)
    ensures UpdatedWeights(weights, map["accuracy" := 1.0]) == Ok(weights + map["accuracy" := 1.0])
  {
    var w := map["accuracy" := 1.0];
    SumValuesRemove(w, "accuracy");
    assert w - {"accuracy"} == map[];
  }

  class TrustMetricsCalculator {
    /** The path of the SQLite file; the tables it holds are passed to each query as a `Store`. */
    var dbPath: string
    var weights: map<string, real>

    /** The composite score can always read its four weights. */
    ghost predicate Valid()
      reads this
    {
      HasWeightKeys(weights)
    }

    constructor(dbPath: string)
      ensures Valid()
      ensures this.dbPath == dbPath && weights == DEFAULT_WEIGHTS
    {
      this.dbPath := dbPath;
      weights := DEFAULT_WEIGHTS;
    }

    /** `update_weights`. */
    method UpdateWeights(w: map<string, real>) returns (o: Outcome<string>)
      modifies this
      ensures dbPath == old(dbPath)
      ensures o.Fail? <==> UpdatedWeights(old(weights), w).Err?
      ensures o.Fail? ==> o.error == UpdatedWeights(old(weights), w).error && weights == old(weights)
      ensures o.Pass? ==> weights == UpdatedWeights(old(weights), w).value
      ensures old(Valid()) ==> Valid()
    {
      var rest := w;
      var total := 0.0;
      while rest != map[]
        invariant total + SumValues(rest) == SumValues(w)
        invariant weights == old(weights) && dbPath == old(dbPath)
        decreases |rest.Keys|
      {
        var k :| k in rest;
        SumValuesRemove(rest, k);
        total := total + rest[k];
        rest := rest - {k};
      }
      if Abs(total - 1.0) > TOLERANCE {
        return Fail("Weights must sum to 1.0");
      }
      weights := weights + w;
      return Pass;
    }

    /** `calculate_trust_score`: the metrics of the rows of the model (and category), computed with
        the calibration and recency procedures on a frame of its own. */
    method CalculateTrustScore(store: Store, name: string, category: Option<string>, env: Env)
      returns (r: Result<TrustMetrics, MetricsError>)
      requires Valid()
      ensures r == ComputeMetrics(name, category, Fetch(store, name, category), weights, env)
    {
      var rows := Fetch(store, name, category);
      if |rows| == 0 {
        return Ok(Sentinel(name, category, env.now));
      }
      var n := |rows| as real;
      var accuracy := Hits(rows) / n;
      var confidenceTotal := ConfidenceTotal(rows);
      if confidenceTotal == 0.0 {
        return Err(ZeroConfidenceWeights);
      }
      var weightedAccuracy := ConfidenceHits(rows) / confidenceTotal;
      var brier := BrierScore(rows);
      var logLoss := LogLoss(rows, env.ln);
      var calibration := CalculateCalibrationScore(rows, CALIBRATION_BINS);
      var confidence := confidenceTotal / n;
      var frame := new Prediction[|rows|](i requires 0 <= i < |rows| => rows[i]);
      assert frame[..] == rows;
      var recency := CalculateRecencyScore(frame, RECENCY_DAYS, env);
      if recency.Err? {
        return Err(recency.error);
      }
      var trust := Composite(weights, accuracy, calibration, confidence, recency.value);
      return Ok(TrustMetrics(name, category, trust, accuracy, calibration, confidence, |rows|, CorrectCount(rows),
                             brier, logLoss, weightedAccuracy, env.now));
    }

    /** `calculate_all_trust_scores`: for each model its overall record, then one record per
        category; the first calculation that raises ends the whole call. */
    method CalculateAllTrustScores(store: Store, cats: seq<string>, env: Env)
      returns (r: Result<seq<TrustMetrics>, MetricsError>)
      requires Valid()
      ensures r == AllTrustScores(store, cats, weights, env)
    {
      var models := DistinctModels(store, cats);
      var out: seq<TrustMetrics> := [];
      for i := 0 to |models|
        invariant Collect(Scores(store, Jobs(models[..i], cats), weights, env)) == Ok(out)
      {
        ghost var done := Jobs(models[..i], cats);
        ghost var mj := ModelJobs(models[i], cats);
        NoneTaken(done, mj);
        for j := 0 to |cats| + 1
          invariant Collect(Scores(store, done + mj[..j], weights, env)) == Ok(out)
        {
          var result: Result<TrustMetrics, MetricsError>;
          if j == 0 {
            result := CalculateTrustScore(store, models[i], None, env);
          } else {
            result := CalculateTrustScore(store, models[i], Some(cats[j - 1]), env);
          }
          ScoreStep(store, done, mj, j, result, weights, env);
          if result.Err? {
            ScoreStopsModels(store, models, cats, i, j, weights, env);
            return Err(result.error);
          }
          out := out + [result.value];
        }
        JobsNext(models, cats, i);
      }
      assert models[..|models|] == models;
      return Ok(out);
    }
  }
}
