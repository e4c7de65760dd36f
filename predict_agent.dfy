/** The helpers shared by the two prediction agents, whose helper functions are the same text in
    `agents/predict0-agent/main.py` and `agents/predict2-agent/main.py`: the plain-text request
    parser, the request validator, the prompt builders, the extraction of the JSON answer from the
    model's reply, and predict0's handling of one request. The language model, `json.loads`,
    `json.dumps` and `str()` of a JSON value are parameters. */
module PredictAgent {
  import opened Common
  import opened Text
  import opened Json

  /** The calls the agents make into code this model does not see. */
  datatype Foreign = Foreign(
    invoke: (string, string) -> Result<string, string>, // the model on (system, user) prompts: reply text, or the exception text
    loads: string -> Result<Json, string>,               // `json.loads`: the value, or the exception text
    dumps: Json -> string,                               // `json.dumps`
    dumpsIndented: Json -> string,                       // `json.dumps(..., indent=2)`
    show: Json -> string)                                // `str(value)` as an f-string prints it

  // ---------------------------------------------------------------------------------------------
  // Request parsing: the text fallback of `parse_message_content`.

  /** The fields the text parser fills in; `markets` is a JSON value because a bracketed markets line
      goes through `json.loads`. `sources` always stays the empty list. */
  datatype TextRequest = TextRequest(title: string, markets: Json)

  const INITIAL_REQUEST: TextRequest := TextRequest("", JArr([]))

  predicate IsTitleLine(line: string)
  {
    StartsWith(Lower(line), "title:")
  }

  predicate IsMarketsLine(line: string)
  {
    StartsWith(Lower(line), "markets:") || StartsWith(Lower(line), "answers:")
  }

  /** `line.split(':', 1)[1].strip()`: the first colon of a markets line is the one ending its label. */
  function MarketsText(line: string): (r: string)
    requires IsMarketsLine(line)
    ensures r == Strip(line[8..])
  {
    assert LowerChar(line[7]) == ':';
    assert forall k | 0 <= k < 7 :: LowerChar(line[k]) != ':';
    assert ':' !in line[..7];
    var i := Find(line, ':');
    assert i == 7;
    Strip(line[i + 1..])
  }

  /** `[m.strip() for m in text.split(',')]`: one entry more than there are commas. */
  function CommaMarkets(text: string): (r: Json)
    ensures r.JArr? && |r.items| == Occurrences(text, ',') + 1
    ensures forall i | 0 <= i < |r.items| :: r.items[i] == JStr(Strip(Split(text, ',')[i]))
  {
    var parts := Split(text, ',');
    JArr(seq(|parts|, i requires 0 <= i < |parts| => JStr(Strip(parts[i]))))
  }

  /** A bracketed markets text is read as JSON and falls back to the comma split when that fails. */
  function MarketsValue(text: string, loads: string -> Result<Json, string>): Json
  {
    if '[' in text && loads(text).Ok? then loads(text).value else CommaMarkets(text)
  }

  /** One pass of the line loop over a raw line. */
  function ParseLine(acc: TextRequest, raw: string, loads: string -> Result<Json, string>): TextRequest
  {
    var line := Strip(raw);
    if IsTitleLine(line) then acc.(title := Strip(line[6..]))
    else if IsMarketsLine(line) then acc.(markets := MarketsValue(MarketsText(line), loads))
    else acc
  }

  /** The fields after the first `k` lines. */
  function ParsedUpTo(lines: seq<string>, k: nat, loads: string -> Result<Json, string>): TextRequest
    requires k <= |lines|
  {
    if k == 0 then INITIAL_REQUEST else ParseLine(ParsedUpTo(lines, k - 1, loads), lines[k - 1], loads)
  }

  /** `content.strip().split('\n')`. */
  function ContentLines(content: string): seq<string>
  {
    Split(Strip(content), '\n')
  }

  function RequestObject(t: TextRequest): Json
  {
    JObj(map["title" := JStr(t.title), "markets" := t.markets, "sources" := JArr([])])
  }

  /** `parse_message_content`: the decoded JSON when the whole content is JSON, else the text reading. */
  function MessageContent(content: string, loads: string -> Result<Json, string>): Json
  {
    if loads(content).Ok? then loads(content).value
    else
      var lines := ContentLines(content);
      RequestObject(ParsedUpTo(lines, |lines|, loads))
  }

  method ParseMessageContent(content: string, loads: string -> Result<Json, string>) returns (data: Json)
    ensures data == MessageContent(content, loads)
  {
    var decoded := loads(content);
    if decoded.Ok? {
      return decoded.value;
    }
    var lines := ContentLines(content);
    var result := INITIAL_REQUEST;
    var i := 0;
    while i < |lines|
      invariant 0 <= i <= |lines|
      invariant result == ParsedUpTo(lines, i, loads)
    {
      ParsedNext(lines, i, loads);
      var line := Strip(lines[i]);
      if IsTitleLine(line) {
        TitleLineLength(line);
        result := result.(title := Strip(line[6..]));
      } else if IsMarketsLine(line) {
        result := result.(markets := MarketsValue(MarketsText(line), loads));
      }
      i := i + 1;
    }
    data := RequestObject(result);
  }

  /** One more line is one more pass of the loop. */
  lemma ParsedNext(lines: seq<string>, i: nat, loads: string -> Result<Json, string>)
    requires i < |lines|
    ensures ParsedUpTo(lines, i + 1, loads) == ParseLine(ParsedUpTo(lines, i, loads), lines[i], loads)
  {
  }

  lemma TitleLineLength(line: string)
    requires IsTitleLine(line)
    ensures |line| >= 6
  {
    assert |Lower(line)| == |line|;
  }

  /** A line that is not a markets line leaves the markets as they were. */
  lemma LineKeepsMarkets(acc: TextRequest, raw: string, loads: string -> Result<Json, string>)
    requires !IsMarketsLine(Strip(raw))
    ensures ParseLine(acc, raw, loads).markets == acc.markets
  {
  }

  /** A markets line sets the markets from its text. */
  lemma LineSetsMarkets(acc: TextRequest, raw: string, loads: string -> Result<Json, string>)
    requires IsMarketsLine(Strip(raw))
    ensures ParseLine(acc, raw, loads).markets == MarketsValue(MarketsText(Strip(raw)), loads)
  {
    MarketsLineIsNotTitleLine(Strip(raw));
  }

  /** A markets line is never a title line, so the title branch cannot shadow it. */
  lemma MarketsLineIsNotTitleLine(line: string)
    requires IsMarketsLine(line)
    ensures !IsTitleLine(line)
  {
    assert Lower(line)[0] != 't';
  }

  /** Later title lines overwrite earlier ones: the title is the rest of the last title line. */
  lemma {:induction false} TitleOfLastTitleLine(lines: seq<string>, k: nat, loads: string -> Result<Json, string>, i: nat)
    requires i < k <= |lines| && IsTitleLine(Strip(lines[i]))
    requires forall j | i < j < k :: !IsTitleLine(Strip(lines[j]))
    ensures ParsedUpTo(lines, k, loads).title == Strip(Strip(lines[i])[6..])
  {
    if k - 1 > i {
      TitleOfLastTitleLine(lines, k - 1, loads, i);
    }
  }

  /** Without a title line the title stays empty. */
  lemma {:induction false} TitleWithoutTitleLine(lines: seq<string>, k: nat, loads: string -> Result<Json, string>)
    requires k <= |lines|
    requires forall j | 0 <= j < k :: !IsTitleLine(Strip(lines[j]))
    ensures ParsedUpTo(lines, k, loads).title == ""
  {
    if k > 0 {
      TitleWithoutTitleLine(lines, k - 1, loads);
    }
  }

  /** Later markets lines overwrite earlier ones: the markets come from the last markets line. */
  lemma {:induction false} MarketsOfLastMarketsLine(lines: seq<string>, k: nat, loads: string -> Result<Json, string>, i: nat)
    requires i < k <= |lines| && IsMarketsLine(Strip(lines[i]))
    requires forall j | i < j < k :: !IsMarketsLine(Strip(lines[j]))
    ensures ParsedUpTo(lines, k, loads).markets == MarketsValue(MarketsText(Strip(lines[i])), loads)
  {
    ParsedNext(lines, k - 1, loads);
    if k - 1 > i {
      MarketsOfLastMarketsLine(lines, k - 1, loads, i);
      LineKeepsMarkets(ParsedUpTo(lines, k - 1, loads), lines[k - 1], loads);
    } else {
      LineSetsMarkets(ParsedUpTo(lines, k - 1, loads), lines[k - 1], loads);
    }
  }

  /** Without a markets line the markets stay the empty list. */
  lemma {:induction false} MarketsWithoutMarketsLine(lines: seq<string>, k: nat, loads: string -> Result<Json, string>)
    requires k <= |lines|
    requires forall j | 0 <= j < k :: !IsMarketsLine(Strip(lines[j]))
    ensures ParsedUpTo(lines, k, loads).markets == JArr([])
  {
    if k > 0 {
      MarketsWithoutMarketsLine(lines, k - 1, loads);
    }
  }

  // ---------------------------------------------------------------------------------------------
  // `validate_request`.

  const MISSING_TITLE := "Missing title"
  const MISSING_MARKETS := "Missing or empty markets"

  /** The outcome of `validate_request`: `(True, "")`, `(False, message)`, or an exception (`.get` on a
      value that is not a dictionary, `len` of a number or a boolean). */
  datatype Validation = Accepted | Rejected(message: string) | Raised

  /** The values `len` accepts. */
  predicate HasLength(j: Json)
  {
    j.JStr? || j.JArr? || j.JObj?
  }

  function Validate(data: Json): Validation
  {
    if !data.JObj? then Raised
    else if !Truthy(GetOr(data, "title", JNull)) then Rejected(MISSING_TITLE)
    else if !Truthy(GetOr(data, "markets", JNull)) then Rejected(MISSING_MARKETS)
    else if !HasLength(GetOr(data, "markets", JNull)) then Raised
    else Accepted
  }

  /** The title is checked first; a request passes only with a truthy title and a non-empty string,
      list or dictionary of markets. */
  lemma ValidateCases(data: Json)
    ensures Validate(data) == Rejected(MISSING_TITLE) <==> data.JObj? && !Truthy(GetOr(data, "title", JNull))
    ensures Validate(data) == Rejected(MISSING_MARKETS) <==>
              data.JObj? && Truthy(GetOr(data, "title", JNull)) && !Truthy(GetOr(data, "markets", JNull))
    ensures Validate(data) == Accepted <==>
              && data.JObj? && Truthy(GetOr(data, "title", JNull))
              && var m := GetOr(data, "markets", JNull);
                 (m.JStr? && |m.s| > 0) || (m.JArr? && |m.items| > 0) || (m.JObj? && |m.fields| > 0)
    ensures Validate(data).Rejected? ==> Validate(data).message in {MISSING_TITLE, MISSING_MARKETS}
  {
  }

  /** The validator on the text reading looks only at its title and markets. */
  lemma ValidateTextRequest(t: TextRequest)
    ensures Validate(RequestObject(t)) ==
              if t.title == "" then Rejected(MISSING_TITLE)
              else if !Truthy(t.markets) then Rejected(MISSING_MARKETS)
              else if !HasLength(t.markets) then Raised
              else Accepted
  {
    assert GetOr(RequestObject(t), "title", JNull) == JStr(t.title);
    assert GetOr(RequestObject(t), "markets", JNull) == t.markets;
  }

  /** A text request with no title line is refused for its title. */
  lemma TextRequestWithoutTitle(content: string, loads: string -> Result<Json, string>)
    requires loads(content).Err?
    requires forall j | 0 <= j < |ContentLines(content)| :: !IsTitleLine(Strip(ContentLines(content)[j]))
    ensures Validate(MessageContent(content, loads)) == Rejected(MISSING_TITLE)
  {
    var lines := ContentLines(content);
    TitleWithoutTitleLine(lines, |lines|, loads);
    ValidateTextRequest(ParsedUpTo(lines, |lines|, loads));
  }

  /** A text request whose last title line has a non-empty title and whose last markets line is a
      comma list is accepted: the comma split never gives an empty list. */
  lemma TextRequestWithCommaMarkets(content: string, loads: string -> Result<Json, string>, t: nat, m: nat)
    requires loads(content).Err?
    requires var lines := ContentLines(content);
             && t < |lines| && IsTitleLine(Strip(lines[t])) && Strip(Strip(lines[t])[6..]) != ""
             && (forall j | t < j < |lines| :: !IsTitleLine(Strip(lines[j])))
             && m < |lines| && IsMarketsLine(Strip(lines[m])) && '[' !in MarketsText(Strip(lines[m]))
             && (forall j | m < j < |lines| :: !IsMarketsLine(Strip(lines[j])))
    ensures Validate(MessageContent(content, loads)) == Accepted
  {
    var lines := ContentLines(content);
    var parsed := ParsedUpTo(lines, |lines|, loads);
    TitleOfLastTitleLine(lines, |lines|, loads, t);
    MarketsOfLastMarketsLine(lines, |lines|, loads, m);
    var markets := CommaMarkets(MarketsText(Strip(lines[m])));
    assert parsed.markets == markets;
    assert Truthy(markets) && HasLength(markets);
    ValidateTextRequest(parsed);
  }

  // ---------------------------------------------------------------------------------------------
  // Prompts.

  const NO_SOURCES := "No sources available for this event."
  const SOURCE_SEPARATOR := "\n---\n"

  /** `source.get(key, default)` printed into the prompt. */
  function FieldText(source: map<string, Json>, key: string, default: string, show: Json -> string): string
  {
    if key in source then show(source[key]) else default
  }

  /** One source block. */
  function SourceBlock(source: map<string, Json>, show: Json -> string): string
  {
    "Source " + FieldText(source, "ranking", "N/A", show) + ": " + FieldText(source, "title", "No title", show) + "\n"
    + "URL: " + FieldText(source, "url", "No URL", show) + "\n"
    + "Summary: " + FieldText(source, "summary", "No summary", show) + "\n"
  }

  function SourceBlocks(sources: seq<map<string, Json>>, show: Json -> string): (r: seq<string>)
    ensures |r| == |sources| && forall i | 0 <= i < |sources| :: r[i] == SourceBlock(sources[i], show)
  {
    seq(|sources|, i requires 0 <= i < |sources| => SourceBlock(sources[i], show))
  }

  /** `format_sources`. */
  function SourcesText(sources: seq<map<string, Json>>, show: Json -> string): string
  {
    if |sources| == 0 then NO_SOURCES else Join(SourceBlocks(sources, show), SOURCE_SEPARATOR)
  }

  method FormatSources(sources: seq<map<string, Json>>, show: Json -> string) returns (text: string)
    ensures text == SourcesText(sources, show)
  {
    if |sources| == 0 {
      return NO_SOURCES;
    }
    var formatted: seq<string> := [];
    for i := 0 to |sources|
      invariant formatted == SourceBlocks(sources[..i], show)
    {
      var sourceText := "Source " + FieldText(sources[i], "ranking", "N/A", show) + ": "
        + FieldText(sources[i], "title", "No title", show) + "\n";
      sourceText := sourceText + "URL: " + FieldText(sources[i], "url", "No URL", show) + "\n";
      sourceText := sourceText + "Summary: " + FieldText(sources[i], "summary", "No summary", show) + "\n";
      formatted := formatted + [sourceText];
    }
    assert sources[..|sources|] == sources;
    text := Join(formatted, SOURCE_SEPARATOR);
  }

  /** The empty-list message appears exactly when there are no sources; otherwise the text starts with
      the first block, and each further source adds the separator and its block. */
  lemma SourcesTextShape(sources: seq<map<string, Json>>, show: Json -> string, x: map<string, Json>)
    ensures SourcesText(sources, show) == NO_SOURCES <==> |sources| == 0
    ensures |sources| > 0 ==> StartsWith(SourcesText(sources, show), SourceBlock(sources[0], show))
    ensures |sources| > 0 ==>
              SourcesText(sources + [x], show) == SourcesText(sources, show) + SOURCE_SEPARATOR + SourceBlock(x, show)
  {
    if |sources| > 0 {
      var blocks := SourceBlocks(sources, show);
      var text := SourcesText(sources, show);
      JoinFirst(blocks, SOURCE_SEPARATOR);
      var last := blocks[|blocks| - 1];
      if |blocks| >= 2 {
        JoinLast(blocks, SOURCE_SEPARATOR);
      }
      assert text[|text| - 1] == last[|last| - 1] == '\n';
      var more := SourceBlocks(sources + [x], show);
      JoinLast(more, SOURCE_SEPARATOR);
      assert more[..|more| - 1] == blocks;
    }
  }

  // Long texts are written as a short head plus the rest, so that proofs read their first
  // characters without unfolding the whole literal.
  const TASK_OPENING := "\nYou" + " are an AI assistant specialized in analyzing and predicting real-world events. \nYou have deep expertise in predicting the outcome of the event: \""
  const TASK_OUTCOMES := "\"\n\nNote that this event occurs in the future. You will be given a list of sources with their summaries, rankings, and expert comments.\nBased on these collected sources, your goal is to extract meaningful insights and provide well-reasoned predictions based on the given data.\nYou will be predicting the probability (as a float value from 0 to 1) of ONLY the following possible outcomes:\n"
  const TASK_FORMAT := "\n\nIMPORTANT CONSTRAINTS:\n1. You MUST ONLY provide probabilities for the exact possible outcomes listed above\n2. Do NOT create or invent any additional outcomes\n3. Use exactly the same outcome names as provided (case-sensitive)\n4. Ensure all probabilities are between 0 and 1\n\nYour response MUST be in JSON format with the following structure:\n```json\n{\n    \"rationale\": \"<text_explaining_your_rationale>\",\n    \"probabilities\": {\n        "
  const TASK_CLOSING := "\n    }\n}\n```\n\nIn the rationale section of your response, please provide a short, concise, 3 sentence rationale that explains:\n- How you weighed different pieces of information\n- Your reasoning for the probability distribution you assigned\n- Any key factors or uncertainties you considered\n"
  const EXAMPLE_SEPARATOR := ",\n                "

  /** One `- market` line per market, in order. */
  function MarketLines(markets: seq<string>): (r: seq<string>)
    ensures |r| == |markets| && forall i | 0 <= i < |markets| :: r[i] == "- " + markets[i]
  {
    seq(|markets|, i requires 0 <= i < |markets| => "- " + markets[i])
  }

  function ExampleEntries(markets: seq<string>): (r: seq<string>)
    ensures |r| == |markets| && forall i | 0 <= i < |markets| :: r[i] == "\"" + markets[i] + "\": <probability_value_from_0_to_1>"
  {
    seq(|markets|, i requires 0 <= i < |markets| => "\"" + markets[i] + "\": <probability_value_from_0_to_1>")
  }

  /** The part of the task prompt between the fixed opening and closing texts. */
  function TaskBody(title: string, markets: seq<string>): string
  {
    title + TASK_OUTCOMES + Join(MarketLines(markets), "\n") + TASK_FORMAT + Join(ExampleEntries(markets), EXAMPLE_SEPARATOR)
  }

  /** `create_task_prompt`. */
  function TaskPrompt(title: string, markets: seq<string>): string
  {
    Strip(TASK_OPENING + TaskBody(title, markets) + TASK_CLOSING)
  }

  /** `strip()` takes exactly the leading newline off the opening text. */
  lemma TaskOpeningStrip()
    ensures exists i | 0 <= i < |TASK_OPENING| :: !IsSpace(TASK_OPENING[i])
    ensures TrimLeft(TASK_OPENING, IsSpace) == TASK_OPENING[1..]
  {
    assert !IsSpace(TASK_OPENING[1]);
  }

  /** `strip()` takes exactly the trailing newline off the closing text. */
  lemma TaskClosingStrip()
    ensures exists i | 0 <= i < |TASK_CLOSING| :: !IsSpace(TASK_CLOSING[i])
    ensures TrimRight(TASK_CLOSING, IsSpace) == TASK_CLOSING[..|TASK_CLOSING| - 1]
  {
    assert !IsSpace(TASK_CLOSING[|TASK_CLOSING| - 2]);
  }

  /** The stripped prompt loses only the outer newlines, so the title and the market list appear
      verbatim. */
  lemma TaskPromptLayout(title: string, markets: seq<string>)
    ensures TaskPrompt(title, markets) == TASK_OPENING[1..] + TaskBody(title, markets) + TASK_CLOSING[..|TASK_CLOSING| - 1]
  {
    TaskOpeningStrip();
    TaskClosingStrip();
    StripAround(TASK_OPENING, TaskBody(title, markets), TASK_CLOSING);
  }

  /** The market list splits back into one `- market` line per market when no market holds a newline. */
  lemma MarketListLines(markets: seq<string>)
    requires |markets| > 0 && forall i | 0 <= i < |markets| :: '\n' !in markets[i]
    ensures Split(Join(MarketLines(markets), "\n"), '\n') == MarketLines(markets)
  {
    var lines := MarketLines(markets);
    forall i | 0 <= i < |lines| ensures '\n' !in lines[i] {
      assert lines[i] == "- " + markets[i];
    }
    SplitJoin(lines, '\n');
  }

  // A short head plus the rest, as with TASK_OPENING.
  const USER_OPENING := "\nHERE" + " IS THE GIVEN DATA: it is a list of sources with their summaries, rankings, and user comments. \nThe smaller the ranking number, the more you should weight the source in your prediction. \n"
  const STATS_OPENING := "\nCURRENT ONLINE TRADING DATA:\nYou also have access to the predicted outcome probability (last trading price of each outcome turned out to be yes) from a popular prediction market at the moment of your prediction:\n"
  const STATS_CLOSING := "\n\nNote: Market data can provide insights into the current consensus of the market influenced by traders of various beliefs and private information. However, you should not rely on market data alone to make your prediction.\nPlease consider both the market data and the information sources to help you make a well-calibrated prediction. \n"

  /** The trading-data section, present only for truthy market statistics. */
  function StatsSection(stats: Json, dumpsIndented: Json -> string): string
  {
    if Truthy(stats) then STATS_OPENING + dumpsIndented(stats) + STATS_CLOSING else ""
  }

  /** `create_user_prompt`. */
  function UserPrompt(sources: string, stats: Json, dumpsIndented: Json -> string): string
  {
    Strip(USER_OPENING + sources + " \n" + StatsSection(stats, dumpsIndented) + "\n")
  }

  /** `strip()` takes exactly the leading newline off the user prompt's opening. */
  lemma UserOpeningStrip()
    ensures exists i | 0 <= i < |USER_OPENING| :: !IsSpace(USER_OPENING[i])
    ensures TrimLeft(USER_OPENING, IsSpace) == USER_OPENING[1..]
  {
    assert !IsSpace(USER_OPENING[1]);
  }

  /** `strip()` takes the final space and the two newlines off the end of the trading-data section. */
  lemma StatsClosingStrip()
    ensures exists i | 0 <= i < |STATS_CLOSING + "\n"| :: !IsSpace((STATS_CLOSING + "\n")[i])
    ensures TrimRight(STATS_CLOSING + "\n", IsSpace) == STATS_CLOSING[..|STATS_CLOSING| - 2]
  {
    var closing := STATS_CLOSING + "\n";
    assert !IsSpace(closing[|closing| - 4]);
    var kept := STATS_CLOSING[..|STATS_CLOSING| - 2];
    assert closing == kept + " \n\n";
    TrimRightDropped(kept, " \n\n", IsSpace);
    assert !IsSpace(kept[|kept| - 1]);
    assert TrimRight(kept, IsSpace) == kept;
  }

  lemma Regroup(a: string, s: string, sp: string, o: string, d: string, c: string, n: string)
    ensures a + s + sp + (o + d + c) + n == a + (s + sp + o + d) + (c + n)
  {
  }

  /** With truthy statistics the prompt holds the sources and the indented statistics verbatim. */
  lemma UserPromptWithStats(sources: string, stats: Json, dumpsIndented: Json -> string)
    requires Truthy(stats)
    ensures UserPrompt(sources, stats, dumpsIndented) ==
              USER_OPENING[1..] + (sources + " \n" + STATS_OPENING + dumpsIndented(stats)) + STATS_CLOSING[..|STATS_CLOSING| - 2]
  {
    var middle := sources + " \n" + STATS_OPENING + dumpsIndented(stats);
    Regroup(USER_OPENING, sources, " \n", STATS_OPENING, dumpsIndented(stats), STATS_CLOSING, "\n");
    UserOpeningStrip();
    StatsClosingStrip();
    StripAround(USER_OPENING, middle, STATS_CLOSING + "\n");
  }

  /** Without statistics the prompt is the opening and the sources, right-stripped. */
  lemma UserPromptWithoutStats(sources: string, stats: Json, dumpsIndented: Json -> string)
    requires !Truthy(stats)
    ensures UserPrompt(sources, stats, dumpsIndented) == TrimRight(USER_OPENING[1..] + sources, IsSpace)
  {
    assert USER_OPENING + sources + " \n" + StatsSection(stats, dumpsIndented) + "\n" == USER_OPENING + (sources + " \n\n");
    UserOpeningStrip();
    TrimLeftAppend(USER_OPENING, sources + " \n\n", IsSpace);
    assert USER_OPENING[1..] + (sources + " \n\n") == (USER_OPENING[1..] + sources) + " \n\n";
    TrimRightDropped(USER_OPENING[1..] + sources, " \n\n", IsSpace);
  }

  // ---------------------------------------------------------------------------------------------
  // `make_prediction`.

  const NO_JSON := "Could not extract valid JSON from prediction"
  const PREDICTION_FAILED := "Prediction failed: "

  /** `content[content.find('{'):content.rfind('}') + 1]` when that is a non-empty slice. */
  function ExtractJson(content: string): Option<string>
  {
    var start := Find(content, '{');
    var end := RFind(content, '}') + 1;
    if start >= 0 && end > start then Some(content[start..end]) else None
  }

  /** There is no extracted text exactly when the reply has no `{`, or no `}` after its first `{`. */
  lemma ExtractJsonFound(content: string)
    ensures ExtractJson(content).Some? <==> '{' in content && '}' in content[Find(content, '{')..]
  {
    var start := Find(content, '{');
    var last := RFind(content, '}');
    if '{' in content && '}' in content[start..] {
      var k :| 0 <= k < |content[start..]| && content[start..][k] == '}';
      assert content[start + k] == '}';
    }
    if ExtractJson(content).Some? {
      assert content[last] in content[start..];
    }
  }

  /** The extracted text runs from the first `{` through the last `}` of the reply. */
  lemma ExtractJsonBounds(content: string)
    requires ExtractJson(content).Some?
    ensures var start := Find(content, '{');
            var r := ExtractJson(content).value;
            && FactorAt(content, r, start)
            && |r| >= 1 && r[0] == '{' && r[|r| - 1] == '}'
            && '{' !in content[..start]
            && '}' !in content[start + |r|..]
  {
  }

  /** `make_prediction` on a list of source dictionaries and a list of markets: the model's reply, the
      extracted JSON re-encoded, or an error object. */
  function MakePrediction(title: string, markets: seq<string>, sources: seq<map<string, Json>>, stats: Json, f: Foreign): string
  {
    Answer(f.invoke(TaskPrompt(title, markets), UserPrompt(SourcesText(sources, f.show), stats, f.dumpsIndented)), f)
  }

  /** What `make_prediction` returns for the model's reply, or for the exception the call raised. */
  function Answer(reply: Result<string, string>, f: Foreign): string
  {
    if reply.Err? then f.dumps(ErrorJson(PREDICTION_FAILED + reply.error))
    else
      match ExtractJson(reply.value)
      case None => f.dumps(ErrorJson(NO_JSON))
      case Some(text) =>
        var parsed := f.loads(text);
        if parsed.Err? then f.dumps(ErrorJson(PREDICTION_FAILED + parsed.error)) else f.dumps(parsed.value)
  }

  /** A reply without a brace pair is reported as the extraction error, and a reply whose braced part
      decodes is passed on re-encoded. */
  lemma MakePredictionCases(title: string, markets: seq<string>, sources: seq<map<string, Json>>, stats: Json, f: Foreign)
    ensures var reply := f.invoke(TaskPrompt(title, markets), UserPrompt(SourcesText(sources, f.show), stats, f.dumpsIndented));
            && (reply.Err? ==> MakePrediction(title, markets, sources, stats, f) == f.dumps(ErrorJson(PREDICTION_FAILED + reply.error)))
            && (reply.Ok? && !('{' in reply.value && '}' in reply.value[Find(reply.value, '{')..]) ==>
                  MakePrediction(title, markets, sources, stats, f) == f.dumps(ErrorJson(NO_JSON)))
            && (reply.Ok? && ExtractJson(reply.value).Some? && f.loads(ExtractJson(reply.value).value).Ok? ==>
                  MakePrediction(title, markets, sources, stats, f) == f.dumps(f.loads(ExtractJson(reply.value).value).value))
  {
    AnswerCases(f.invoke(TaskPrompt(title, markets), UserPrompt(SourcesText(sources, f.show), stats, f.dumpsIndented)), f);
  }

  lemma AnswerCases(reply: Result<string, string>, f: Foreign)
    ensures reply.Err? ==> Answer(reply, f) == f.dumps(ErrorJson(PREDICTION_FAILED + reply.error))
    ensures reply.Ok? && !('{' in reply.value && '}' in reply.value[Find(reply.value, '{')..]) ==> Answer(reply, f) == f.dumps(ErrorJson(NO_JSON))
    ensures reply.Ok? && ExtractJson(reply.value).Some? && f.loads(ExtractJson(reply.value).value).Ok? ==>
              Answer(reply, f) == f.dumps(f.loads(ExtractJson(reply.value).value).value)
  {
    if reply.Ok? {
      ExtractJsonFound(reply.value);
    }
  }

  // ---------------------------------------------------------------------------------------------
  // predict0's `main` on its one request.

  const INVALID_REQUEST := "Invalid request: "

  /** What the job sends back through the result tool, and whether it built the model. */
  datatype Job = Job(sent: Option<string>, modelBuilt: bool)

  /** predict0 after its `USER_REQUEST` has arrived. Without the result tool it returns silently; a
      refused request is answered with `{"error": "Invalid request: ..."}` before any model exists; a
      validator exception is answered with `{"error": str(e)}`. `predict` is `make_prediction` on the
      request's fields. */
  function Predict0Job(request: string, toolFound: bool, f: Foreign, raisedText: string, predict: Json -> string): Job
  {
    if !toolFound then Job(None, false)
    else
      var data := MessageContent(request, f.loads);
      match Validate(data)
      case Raised => Job(Some(f.dumps(ErrorJson(raisedText))), false)
      case Rejected(message) => Job(Some(f.dumps(ErrorJson(INVALID_REQUEST + message))), false)
      case Accepted => Job(Some(predict(data)), true)
  }

  /** The model is built only for an accepted request; a refused one is answered with the prefixed
      validator message and nothing else happens. */
  lemma Predict0ShortCircuit(request: string, toolFound: bool, f: Foreign, raisedText: string, predict: Json -> string)
    ensures var job := Predict0Job(request, toolFound, f, raisedText, predict);
            var v := Validate(MessageContent(request, f.loads));
            && (job.modelBuilt <==> toolFound && v == Accepted)
            && (job.sent.Some? <==> toolFound)
            && (toolFound && v.Rejected? ==>
                  job.sent == Some(f.dumps(ErrorJson(INVALID_REQUEST + v.message))) && v.message in {MISSING_TITLE, MISSING_MARKETS})
            && (toolFound && v == Accepted ==> job.sent == Some(predict(MessageContent(request, f.loads))))
  {
    ValidateCases(MessageContent(request, f.loads));
  }
}
