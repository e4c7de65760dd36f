/** The record rules of the Prophet Arena scraper: the event id taken from a URL path, the
    prediction records read off an event's predictions table, the collection of event URLs over
    successive scrolls of the market list, the scrape over categories, and the flattening of events
    into CSV rows. The browser is abstracted: what it shows is passed in as text. */
module Scraper {
  import opened Common
  import opened Text
  import opened Json

  /** One model's prediction for one option of an event. */
  datatype PredictionData = PredictionData(modelName: string, option: string, probability: real, isCorrect: bool, confidenceScore: real)

  /** A scraped event. */
  datatype EventData = EventData(
    eventId: string,
    eventTitle: string,
    category: string,
    eventDate: string,
    resolvedDate: string,
    resolvedOutcome: string,
    options: seq<string>,
    predictions: seq<PredictionData>,
    metadata: map<string, Json>)

  predicate IsSlash(c: char)
  {
    c == '/'
  }

  /** `_extract_event_id` on the path of the URL: strip the slashes at both ends, split on '/', and
      take the last piece. Splitting always yields a piece, so the "unknown" fallback is never
      taken. */
  function ExtractEventId(path: string): string
  {
    var parts := Split(Trim(path, IsSlash), '/');
    if |parts| > 0 then parts[|parts| - 1] else "unknown"
  }

  /** The id is the last segment of the stripped path: it holds no '/', ends the stripped path,
      and is either all of it or preceded by a '/'. An empty path gives the empty id. */
  lemma EventIdIsLastSegment(path: string)
    ensures var stripped := Trim(path, IsSlash);
            var id := ExtractEventId(path);
            && '/' !in id
            && EndsWith(stripped, id)
            && (id == stripped || stripped[|stripped| - |id| - 1] == '/')
    ensures path == "" ==> ExtractEventId(path) == ""
  {
    var stripped := Trim(path, IsSlash);
    var parts := Split(stripped, '/');
    var id := parts[|parts| - 1];
    if |parts| >= 2 {
      JoinLast(parts, "/");
      var front := Join(parts[..|parts| - 1], "/");
      assert stripped == front + "/" + id;
      assert stripped[|stripped| - |id|..] == id;
      assert stripped[|stripped| - |id| - 1] == '/';
    } else {
      assert stripped == id;
    }
    if path == "" {
      assert Split("", '/') == [""];
    }
  }

  /** `abs(probability - 0.5) * 2`: the distance from an even chance, scaled so that a probability
      in [0, 1] gives a confidence in [0, 1], zero exactly at an even chance. */
  function Confidence(p: real): (c: real)
    ensures 0.0 <= p <= 1.0 ==> 0.0 <= c <= 1.0
    ensures c == 0.0 <==> p == 0.5
    ensures c >= 0.0
  {
    Abs(p - 0.5) * 2.0
  }

  /** The record for a cell of probability `percent` (a percentage): `is_correct` is whether the
      row's option is the resolved outcome. */
  function MakeRecord(model: string, option: string, percent: real, resolvedOutcome: string): (r: PredictionData)
    ensures r.modelName == model && r.option == option
    ensures r.isCorrect <==> option == resolvedOutcome
  {
    var p := percent / 100.0;
    PredictionData(model, option, p, option == resolvedOutcome, Confidence(p))
  }

  /** The text a cell's number is parsed from: stripped, with every '%' removed. */
  function CellNumber(cell: string): string
  {
    ReplaceChar(Strip(cell), '%', "")
  }

  /** The predictions table as the page shows it: header cell texts and, per row, its cell texts
      (the header row included, as the first row). */
  datatype Table = Table(headers: seq<string>, rows: seq<seq<string>>)

  /** The model names: the stripped header texts after the first (option) column. */
  function ModelNames(headers: seq<string>): (r: seq<string>)
    ensures |r| == if |headers| == 0 then 0 else |headers| - 1
  {
    if |headers| == 0 then []
    else seq(|headers| - 1, i requires 0 <= i < |headers| - 1 => Strip(headers[i + 1]))
  }

  /** The record cell `i` gives, if any: it needs a model name and a number `float` accepts. */
  function CellRecords(names: seq<string>, cells: seq<string>, option: string, resolvedOutcome: string,
                       parse: string -> Option<real>, i: nat): seq<PredictionData>
    requires i < |cells|
  {
    if 1 <= i && i - 1 < |names| then
      match parse(CellNumber(cells[i]))
      case Some(v) => [MakeRecord(names[i - 1], option, v, resolvedOutcome)]
      case None => []
    else []
  }

  /** The records of cells 1 .. n-1 of a row, in cell order. */
  function RecordsUpTo(names: seq<string>, cells: seq<string>, option: string, resolvedOutcome: string,
                       parse: string -> Option<real>, n: nat): seq<PredictionData>
    requires n <= |cells|
  {
    if n <= 1 then []
    else RecordsUpTo(names, cells, option, resolvedOutcome, parse, n - 1) + CellRecords(names, cells, option, resolvedOutcome, parse, n - 1)
  }

  /** Record `x` is the one cell `i` of the row gives. */
  predicate FromCell(names: seq<string>, cells: seq<string>, option: string, resolvedOutcome: string,
                     parse: string -> Option<real>, i: int, x: PredictionData)
  {
    && 1 <= i < |cells| && i - 1 < |names|
    && parse(CellNumber(cells[i])).Some?
    && x == MakeRecord(names[i - 1], option, parse(CellNumber(cells[i])).value, resolvedOutcome)
  }

  /** A row gives at most one record per cell after the first and at most one per model: cells
      beyond the header count give nothing. */
  lemma {:induction false} RowRecordsBound(names: seq<string>, cells: seq<string>, option: string,
                                           resolvedOutcome: string, parse: string -> Option<real>, n: nat)
    requires n <= |cells|
    ensures |RecordsUpTo(names, cells, option, resolvedOutcome, parse, n)| <= Min(if n == 0 then 0 else n - 1, |names|)
  {
    if n > 1 {
      RowRecordsBound(names, cells, option, resolvedOutcome, parse, n - 1);
    }
  }

  /** A record of a row comes from a cell `i >= 1` with a model name `names[i - 1]` and a parseable
      number, and each such cell gives its record. */
  lemma {:induction false} RowRecordsCharacterised(names: seq<string>, cells: seq<string>, option: string,
                                                   resolvedOutcome: string, parse: string -> Option<real>, n: nat, x: PredictionData)
    requires n <= |cells|
    ensures x in RecordsUpTo(names, cells, option, resolvedOutcome, parse, n) <==>
              exists i | 1 <= i < n :: FromCell(names, cells, option, resolvedOutcome, parse, i, x)
  {
    if n > 1 {
      RowRecordsCharacterised(names, cells, option, resolvedOutcome, parse, n - 1, x);
      var prev := RecordsUpTo(names, cells, option, resolvedOutcome, parse, n - 1);
      var here := CellRecords(names, cells, option, resolvedOutcome, parse, n - 1);
      assert x in here <==> FromCell(names, cells, option, resolvedOutcome, parse, n - 1, x);
      if x in prev {
        var i :| 1 <= i < n - 1 && FromCell(names, cells, option, resolvedOutcome, parse, i, x);
        assert 1 <= i < n;
      }
      if exists i | 1 <= i < n :: FromCell(names, cells, option, resolvedOutcome, parse, i, x) {
        var i :| 1 <= i < n && FromCell(names, cells, option, resolvedOutcome, parse, i, x);
        if i < n - 1 {
          assert x in prev;
        }
      }
    }
  }

  /** The records of one table row: none for a row of fewer than two cells or whose stripped first
      cell is not one of the event's options. */
  function RowRecords(names: seq<string>, cells: seq<string>, options: seq<string>, resolvedOutcome: string,
                      parse: string -> Option<real>): seq<PredictionData>
  {
    if |cells| < 2 || Strip(cells[0]) !in options then []
    else RecordsUpTo(names, cells, Strip(cells[0]), resolvedOutcome, parse, |cells|)
  }

  /** The records of rows 1 .. m-1, row after row. */
  function TableUpTo(names: seq<string>, rows: seq<seq<string>>, options: seq<string>, resolvedOutcome: string,
                     parse: string -> Option<real>, m: nat): seq<PredictionData>
    requires m <= |rows|
  {
    if m <= 1 then []
    else TableUpTo(names, rows, options, resolvedOutcome, parse, m - 1) + RowRecords(names, rows[m - 1], options, resolvedOutcome, parse)
  }

  /** `_extract_predictions_table`'s result; a page without a table gives no records. */
  function TableRecords(table: Option<Table>, resolvedOutcome: string, options: seq<string>, parse: string -> Option<real>): seq<PredictionData>
  {
    match table
    case None => []
    case Some(t) => TableUpTo(ModelNames(t.headers), t.rows, options, resolvedOutcome, parse, |t.rows|)
  }

  /** Row `r` is a data row whose stripped first cell is `option`, one of the event's options. */
  predicate OptionRow(rows: seq<seq<string>>, options: seq<string>, r: int, option: string)
  {
    1 <= r < |rows| && |rows[r]| >= 2 && Strip(rows[r][0]) == option && option in options
  }

  /** Every record of the table comes from a data row (not the header row) whose stripped first cell
      is one of the options, names that option, and is correct exactly when that option won. */
  lemma {:induction false} TableRecordsFromRows(names: seq<string>, rows: seq<seq<string>>, options: seq<string>,
                                                resolvedOutcome: string, parse: string -> Option<real>, m: nat, x: PredictionData)
    requires m <= |rows| && x in TableUpTo(names, rows, options, resolvedOutcome, parse, m)
    ensures exists r | 1 <= r < m :: OptionRow(rows, options, r, x.option)
    ensures x.isCorrect <==> x.option == resolvedOutcome
  {
    var prev := TableUpTo(names, rows, options, resolvedOutcome, parse, m - 1);
    var cells := rows[m - 1];
    if x in prev {
      TableRecordsFromRows(names, rows, options, resolvedOutcome, parse, m - 1, x);
      var r :| 1 <= r < m - 1 && OptionRow(rows, options, r, x.option);
      assert 1 <= r < m;
    } else {
      var option := Strip(cells[0]);
      assert |cells| >= 2 && option in options;
      assert x in RecordsUpTo(names, cells, option, resolvedOutcome, parse, |cells|);
      RowRecordsCharacterised(names, cells, option, resolvedOutcome, parse, |cells|, x);
      var i :| 1 <= i < |cells| && FromCell(names, cells, option, resolvedOutcome, parse, i, x);
      assert x.option == option;
      assert OptionRow(rows, options, m - 1, x.option);
    }
  }

  /** The inner loop of `_extract_predictions_table`: the records of one row's cells, in order. */
  method CellLoop(names: seq<string>, cells: seq<string>, option: string, resolvedOutcome: string, parse: string -> Option<real>)
    returns (records: seq<PredictionData>)
    ensures records == RecordsUpTo(names, cells, option, resolvedOutcome, parse, |cells|)
  {
    records := [];
    if |cells| == 0 {
      return;
    }
    for i := 1 to |cells|
      invariant records == RecordsUpTo(names, cells, option, resolvedOutcome, parse, i)
    {
      if i - 1 < |names| {
        var v := parse(CellNumber(cells[i]));
        if v.Some? {
          records := records + [MakeRecord(names[i - 1], option, v.value, resolvedOutcome)];
        }
      }
    }
  }

  /** `_extract_predictions_table`: for each data row with an option, for each cell paired with a
      model, append the cell's record. */
  method ExtractPredictionsTable(table: Option<Table>, resolvedOutcome: string, options: seq<string>, parse: string -> Option<real>)
    returns (predictions: seq<PredictionData>)
    ensures predictions == TableRecords(table, resolvedOutcome, options, parse)
  {
    predictions := [];
    if table.None? {
      return;
    }
    var names := ModelNames(table.value.headers);
    var rows := table.value.rows;
    if |rows| == 0 {
      return;
    }
    for r := 1 to |rows|
      invariant predictions == TableUpTo(names, rows, options, resolvedOutcome, parse, r)
    {
      var cells := rows[r];
      if |cells| >= 2 && Strip(cells[0]) in options {
        var records := CellLoop(names, cells, Strip(cells[0]), resolvedOutcome, parse);
        predictions := predictions + records;
      }
    }
  }

  /** What the market list shows at one scroll position: the event links and the page height. */
  datatype Page = Page(links: seq<string>, height: int)

  /** One pass: every link of the page that was not collected before is appended, in page order
      (a link listed twice on the same page is appended twice). */
  function Extend(collected: seq<string>, links: seq<string>): (r: seq<string>)
    ensures |r| >= |collected| && r[..|collected|] == collected
    ensures forall i | |collected| <= i < |r| :: r[i] !in collected && r[i] in links
    ensures forall u | u in links && u !in collected :: u in r
  {
    if |links| == 0 then collected
    else
      var prev := Extend(collected, links[..|links| - 1]);
      var u := links[|links| - 1];
      assert links == links[..|links| - 1] + [u];
      if u in collected then prev else prev + [u]
  }

  /** The passes of the collection loop from pass `k` on, starting from `collected`: it stops once
      `limit` links are collected, or when scrolling leaves the height unchanged (past the last
      page the height no longer changes). */
  function Passes(pages: seq<Page>, limit: int, k: nat, collected: seq<string>): seq<string>
    requires k < |pages|
    decreases |pages| - k
  {
    if |collected| >= limit then collected
    else
      var next := Extend(collected, pages[k].links);
      if |next| >= limit || k + 1 == |pages| || pages[k + 1].height == pages[k].height then next
      else Passes(pages, limit, k + 1, next)
  }

  /** `get_historical_events`' result: the collected links cut at `limit`. */
  function EventUrls(pages: seq<Page>, limit: int): (r: seq<string>)
    requires |pages| > 0
  {
    var all := Passes(pages, limit, 0, []);
    if limit <= 0 then [] else Take(all, limit)
  }

  /** Each pass only adds links of the pages it reads and never re-adds a link collected in an
      earlier pass. */
  lemma {:induction false} PassesExtend(pages: seq<Page>, limit: int, k: nat, collected: seq<string>)
    requires k < |pages|
    ensures var r := Passes(pages, limit, k, collected);
            |r| >= |collected| && r[..|collected|] == collected &&
            forall i | |collected| <= i < |r| :: exists j | k <= j < |pages| :: r[i] in pages[j].links
    decreases |pages| - k
  {
    if |collected| < limit {
      var next := Extend(collected, pages[k].links);
      if !(|next| >= limit || k + 1 == |pages| || pages[k + 1].height == pages[k].height) {
        PassesExtend(pages, limit, k + 1, next);
        var r := Passes(pages, limit, k + 1, next);
        forall i | |collected| <= i < |r| ensures exists j | k <= j < |pages| :: r[i] in pages[j].links {
          if i < |next| {
            assert r[i] == next[i];
            assert r[i] in pages[k].links;
          }
        }
      }
    }
  }

  /** The result holds at most `limit` links, each shown on some page. */
  lemma EventUrlsBounded(pages: seq<Page>, limit: int)
    requires |pages| > 0
    ensures limit >= 0 ==> |EventUrls(pages, limit)| <= limit
    ensures limit <= 0 ==> EventUrls(pages, limit) == []
    ensures forall u | u in EventUrls(pages, limit) :: exists j | 0 <= j < |pages| :: u in pages[j].links
  {
    PassesExtend(pages, limit, 0, []);
    var all := Passes(pages, limit, 0, []);
    var r := EventUrls(pages, limit);
    forall u | u in r ensures exists j | 0 <= j < |pages| :: u in pages[j].links {
      var i :| 0 <= i < |r| && r[i] == u;
      assert r[i] == all[i];
    }
  }

  /** The collection loop of `get_historical_events`. */
  method GetHistoricalEvents(pages: seq<Page>, limit: int) returns (urls: seq<string>)
    requires |pages| > 0
    ensures urls == EventUrls(pages, limit)
  {
    var collected: seq<string> := [];
    var k := 0;
    var lastHeight := pages[0].height;
    while |collected| < limit
      invariant k < |pages| && lastHeight == pages[k].height
      invariant Passes(pages, limit, k, collected) == Passes(pages, limit, 0, [])
      decreases |pages| - k
    {
      collected := Extend(collected, pages[k].links);
      if |collected| >= limit {
        break;
      }
      var newHeight := if k + 1 < |pages| then pages[k + 1].height else lastHeight;
      if newHeight == lastHeight {
        break;
      }
      k := k + 1;
      lastHeight := newHeight;
    }
    if limit <= 0 {
      return [];
    }
    return Take(collected, limit);
  }

  /** The default categories. */
  const DEFAULT_CATEGORIES: seq<string> := ["sports", "economics", "crypto"]

  /** The events scraped from `urls`, keeping only those that scraped successfully, in order. */
  function Scraped(urls: seq<string>, scrape: string -> Option<EventData>): (r: seq<EventData>)
    ensures |r| <= |urls|
    ensures forall e | e in r :: exists u | u in urls :: scrape(u) == Some(e)
  {
    if |urls| == 0 then []
    else
      var u := urls[|urls| - 1];
      assert urls == urls[..|urls| - 1] + [u];
      Scraped(urls[..|urls| - 1], scrape) + (match scrape(u) case Some(e) => [e] case None => [])
  }

  /** `scrape_all_historical_events` over categories[..n]: category by category, the URLs the
      search gives, scraped in order. */
  function AllEventsUpTo(categories: seq<string>, limit: int, search: (string, int) -> seq<string>,
                         scrape: string -> Option<EventData>, n: nat): seq<EventData>
    requires n <= |categories|
  {
    if n == 0 then []
    else AllEventsUpTo(categories, limit, search, scrape, n - 1) + Scraped(search(categories[n - 1], limit), scrape)
  }

  /** The categories a scrape covers: the given ones, or the three defaults. */
  function ScrapeCategories(categories: Option<seq<string>>): seq<string>
  {
    match categories
    case Some(c) => c
    case None => DEFAULT_CATEGORIES
  }

  /** Every event kept was scraped from a URL a category search returned; an unsuccessful scrape
      leaves nothing. */
  lemma {:induction false} AllEventsFromSearches(categories: seq<string>, limit: int, search: (string, int) -> seq<string>,
                                                 scrape: string -> Option<EventData>, n: nat, e: EventData)
    requires n <= |categories| && e in AllEventsUpTo(categories, limit, search, scrape, n)
    ensures exists c, u | c in categories[..n] && u in search(c, limit) :: scrape(u) == Some(e)
  {
    var prev := AllEventsUpTo(categories, limit, search, scrape, n - 1);
    if e in prev {
      AllEventsFromSearches(categories, limit, search, scrape, n - 1, e);
      var c, u :| c in categories[..n - 1] && u in search(c, limit) && scrape(u) == Some(e);
      assert c in categories[..n];
    } else {
      var u :| u in search(categories[n - 1], limit) && scrape(u) == Some(e);
      assert categories[n - 1] in categories[..n];
    }
  }

  /** `scrape_all_historical_events`: the search and the single-event scrape are the browser's. */
  method ScrapeAllHistoricalEvents(categories: Option<seq<string>>, limit: int, search: (string, int) -> seq<string>,
                                   scrape: string -> Option<EventData>) returns (events: seq<EventData>)
    ensures var cats := ScrapeCategories(categories);
            events == AllEventsUpTo(cats, limit, search, scrape, |cats|)
  {
    var cats := ScrapeCategories(categories);
    events := [];
    for n := 0 to |cats|
      invariant events == AllEventsUpTo(cats, limit, search, scrape, n)
    {
      var urls := search(cats[n], limit);
      ghost var before := events;
      for j := 0 to |urls|
        invariant events == before + Scraped(urls[..j], scrape)
      {
        assert urls[..j + 1][..j] == urls[..j];
        var e := scrape(urls[j]);
        if e.Some? {
          events := events + [e.value];
        }
      }
      assert urls[..|urls|] == urls;
    }
  }

  /** A row of the CSV export. */
  datatype CsvRow = CsvRow(
    eventId: string,
    eventTitle: string,
    category: string,
    eventDate: string,
    resolvedDate: string,
    resolvedOutcome: string,
    modelName: string,
    predictedOption: string,
    probability: real,
    isCorrect: bool,
    confidenceScore: real,
    scrapedAt: Json,
    eventUrl: Json)

  /** The row of one prediction, with its event's fields copied in; missing metadata gives ''. */
  function CsvRowOf(e: EventData, p: PredictionData): CsvRow
  {
    CsvRow(e.eventId, e.eventTitle, e.category, e.eventDate, e.resolvedDate, e.resolvedOutcome,
           p.modelName, p.option, p.probability, p.isCorrect, p.confidenceScore,
           if "scraped_at" in e.metadata then e.metadata["scraped_at"] else JStr(""),
           if "event_url" in e.metadata then e.metadata["event_url"] else JStr(""))
  }

  function EventRows(e: EventData): (r: seq<CsvRow>)
    ensures |r| == |e.predictions| && forall j | 0 <= j < |r| :: r[j] == CsvRowOf(e, e.predictions[j])
  {
    seq(|e.predictions|, j requires 0 <= j < |e.predictions| => CsvRowOf(e, e.predictions[j]))
  }

  /** The rows of `save_to_csv`: event after event, prediction after prediction. */
  function CsvRows(events: seq<EventData>): seq<CsvRow>
  {
    if |events| == 0 then [] else CsvRows(events[..|events| - 1]) + EventRows(events[|events| - 1])
  }

  /** The number of predictions of the events before index `n`. */
  function Offset(events: seq<EventData>, n: nat): nat
    requires n <= |events|
  {
    if n == 0 then 0 else Offset(events, n - 1) + |events[n - 1].predictions|
  }

  /** Exactly one row per (event, prediction): the export has as many rows as predictions, and the
      row at the event's offset plus the prediction's index is that prediction's row, carrying
      its event's fields. */
  lemma {:induction false} CsvRowsLayout(events: seq<EventData>, n: nat, j: nat)
    ensures |CsvRows(events)| == Offset(events, |events|)
    ensures n < |events| && j < |events[n].predictions| ==>
              Offset(events, n) + j < |CsvRows(events)| &&
              CsvRows(events)[Offset(events, n) + j] == CsvRowOf(events[n], events[n].predictions[j])
  {
    if |events| > 0 {
      var init := events[..|events| - 1];
      CsvRowsLayout(init, n, j);
      assert forall m: nat | m <= |init| :: Offset(init, m) == Offset(events, m) by {
        forall m: nat | m <= |init| ensures Offset(init, m) == Offset(events, m) {
          OffsetPrefix(events, |init|, m);
        }
      }
      if n < |events| && j < |events[n].predictions| && n < |init| {
        assert init[n] == events[n];
        OffsetGrows(init, n + 1, |init|);
      }
    }
  }

  /** Offsets only look at the events before them. */
  lemma {:induction false} OffsetPrefix(events: seq<EventData>, k: nat, m: nat)
    requires m <= k <= |events|
    ensures Offset(events[..k], m) == Offset(events, m)
  {
    if m > 0 {
      OffsetPrefix(events, k, m - 1);
      assert events[..k][m - 1] == events[m - 1];
    }
  }

  /** Offsets never decrease. */
  lemma {:induction false} OffsetGrows(events: seq<EventData>, m: nat, k: nat)
    requires m <= k <= |events|
    ensures Offset(events, m) <= Offset(events, k)
  {
    if m < k {
      OffsetGrows(events, m, k - 1);
    }
  }

  /** The row-building loop of `save_to_csv`. */
  method SaveToCsvRows(events: seq<EventData>) returns (rows: seq<CsvRow>)
    ensures rows == CsvRows(events)
  {
    rows := [];
    for n := 0 to |events|
      invariant rows == CsvRows(events[..n])
    {
      var e := events[n];
      ghost var before := rows;
      for j := 0 to |e.predictions|
        invariant rows == before + EventRows(e)[..j]
      {
        rows := rows + [CsvRowOf(e, e.predictions[j])];
      }
      assert EventRows(e)[..|e.predictions|] == EventRows(e);
      assert events[..n + 1][..n] == events[..n];
    }
    assert events[..|events|] == events;
  }
}
