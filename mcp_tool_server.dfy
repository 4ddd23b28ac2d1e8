/** The MCP tool server's two handlers, `analyze_data` and `generate_summary`,
    as functions from the decoded request body to the reply. The handlers'
    own timing is the `durationMs` input. */
module McpToolServer {
  import opened Wrappers
  import opened Json
  import opened PyText
  import opened Http
  import opened Analysis

  const InvalidStatsError := "Missing or invalid 'stats' in args"

  /** `payload.get("args", {}).get("numbers", [])`: AttributeError when the
      body or its `args` is not a dict; a missing `args` or `numbers` gives `[]`. */
  function RequestedNumbers(payload: Json): (r: Result<Json>)
    ensures r.Failure? <==>
      !payload.JObj? || (Lookup(payload.fields, "args").Some? && !Lookup(payload.fields, "args").value.JObj?)
    ensures payload.JObj? && Lookup(payload.fields, "args").None? ==> r == Success(JArr([]))
    ensures payload.JObj? && Lookup(payload.fields, "args").Some? && Lookup(payload.fields, "args").value.JObj? ==>
      var args := Lookup(payload.fields, "args").value.fields;
      r == Success(if Lookup(args, "numbers").Some? then Lookup(args, "numbers").value else JArr([]))
  {
    var args :- Get(payload, "args", JObj([]));
    Get(args, "numbers", JArr([]))
  }

  /** `payload.get("args", {}).get("stats")`: AttributeError when the body or
      its `args` is not a dict; a missing `args` or `stats` gives None. */
  function RequestedStats(payload: Json): (r: Result<Json>)
    ensures r.Failure? <==>
      !payload.JObj? || (Lookup(payload.fields, "args").Some? && !Lookup(payload.fields, "args").value.JObj?)
    ensures payload.JObj? && Lookup(payload.fields, "args").None? ==> r == Success(JNull)
    ensures payload.JObj? && Lookup(payload.fields, "args").Some? && Lookup(payload.fields, "args").value.JObj? ==>
      var args := Lookup(payload.fields, "args").value.fields;
      r == Success(if Lookup(args, "stats").Some? then Lookup(args, "stats").value else JNull)
  {
    var args :- Get(payload, "args", JObj([]));
    Get(args, "stats", JNull)
  }

  /** What the try-block of `analyze_data` ends with: the stats, or the text
      of the exception it raised. */
  function AnalyzeOutcome(payload: Json): (r: Result<Stats>)
    ensures RequestedNumbers(payload).Failure? ==> r == Failure(RequestedNumbers(payload).error)
    ensures r.Success? <==>
      && RequestedNumbers(payload).Success? && RequestedNumbers(payload).value.JArr?
      && |RequestedNumbers(payload).value.items| > 0 && AllNumbers(RequestedNumbers(payload).value.items)
    ensures r.Success? ==> Describes(r.value, RequestedNumbers(payload).value.items)
  {
    var numbers :- RequestedNumbers(payload);
    ComputeStats(numbers)
  }

  /** What the try-block of `generate_summary` ends with. */
  function SummaryOutcome(payload: Json, fmt: FloatFormat): (r: Result<string>)
    ensures RequestedStats(payload).Failure? ==> r == Failure(RequestedStats(payload).error)
    ensures RequestedStats(payload).Success? && !RequestedStats(payload).value.JObj? ==>
      r == Failure(InvalidStatsError)
    ensures r.Success? <==>
      && RequestedStats(payload).Success? && RequestedStats(payload).value.JObj?
      && GenerateSummary(RequestedStats(payload).value.fields, fmt).Success?
    ensures r.Success? ==> |r.value| > 0 && r.value == GenerateSummary(RequestedStats(payload).value.fields, fmt).value
  {
    var stats :- RequestedStats(payload);
    if !stats.JObj? then Failure(InvalidStatsError) else GenerateSummary(stats.fields, fmt)
  }

  /** The body of a tool's success reply, carrying the result under `key`. */
  function SuccessBody(requestId: Json, tool: string, key: string, v: Json, durationMs: real): (body: Json)
    requires key == "stats" || key == "summary"
    ensures body.JObj?
    ensures Field(body, "request_id") == requestId && Field(body, "tool") == JStr(tool)
    ensures Field(body, "status") == JStr("success") && Field(body, key) == v
  {
    var body := JObj([("request_id", requestId), ("tool", JStr(tool)), ("status", JStr("success")),
                      (key, v), ("duration_ms", JFloat(durationMs))]);
    LookupFive("request_id", requestId, "tool", JStr(tool), "status", JStr("success"), key, v,
               "duration_ms", JFloat(durationMs));
    body
  }

  /** The body of a tool's error reply. */
  function ErrorBody(requestId: Json, tool: string, error: string): (body: Json)
    ensures body.JObj?
    ensures Field(body, "request_id") == requestId && Field(body, "tool") == JStr(tool)
    ensures Field(body, "status") == JStr("error") && Field(body, "error") == JStr(error)
  {
    var body := JObj([("request_id", requestId), ("tool", JStr(tool)), ("status", JStr("error")),
                      ("error", JStr(error))]);
    LookupFour("request_id", requestId, "tool", JStr(tool), "status", JStr("error"), "error", JStr(error));
    body
  }

  /** The JSON reply both tools build: 200 with a success body carrying the
      result under `key`, or 400 with an error body; both echo the request id. */
  function ToolReply(requestId: Json, tool: string, key: string, outcome: Result<Json>, durationMs: real)
    : (r: HttpReply)
    requires key == "stats" || key == "summary"
    ensures r.JsonReply? && r.body.JObj?
    ensures Field(r.body, "request_id") == requestId && Field(r.body, "tool") == JStr(tool)
    ensures r.code == (if outcome.Success? then 200 else 400)
    ensures Field(r.body, "status") == JStr(if outcome.Success? then "success" else "error")
    ensures outcome.Success? ==> Field(r.body, key) == outcome.value
    ensures outcome.Failure? ==> Field(r.body, "error") == JStr(outcome.error)
  {
    match outcome
    case Success(v) => JsonReply(200, SuccessBody(requestId, tool, key, v, durationMs))
    case Failure(e) => JsonReply(400, ErrorBody(requestId, tool, e))
  }

  /** The `analyze_data` tool: 200 with the stats of `args.numbers`, or 400
      with the error text; the reply echoes the request id. A body that is not
      a dict makes the except-branch's own `payload.get` raise, so Flask
      answers 500. */
  function AnalyzeData(payload: Json, durationMs: real): (r: HttpReply)
    ensures r.ServerError? <==> !payload.JObj?
    ensures r.JsonReply? ==>
      && r.body.JObj?
      && Field(r.body, "request_id") == Field(payload, "request_id")
      && Field(r.body, "tool") == JStr("analyze_data")
      && r.code == (if AnalyzeOutcome(payload).Success? then 200 else 400)
      && Field(r.body, "status") == JStr(if r.code == 200 then "success" else "error")
    ensures r.JsonReply? && r.code == 200 ==> Field(r.body, "stats") == StatsJson(AnalyzeOutcome(payload).value)
    ensures r.JsonReply? && r.code == 400 ==> Field(r.body, "error") == JStr(AnalyzeOutcome(payload).error)
  {
    if !payload.JObj? then ServerError
    else
      var outcome := match AnalyzeOutcome(payload)
        case Success(stats) => Success(StatsJson(stats))
        case Failure(e) => Failure(e);
      ToolReply(Field(payload, "request_id"), "analyze_data", "stats", outcome, durationMs)
  }

  /** The `generate_summary` tool: 400 "Missing or invalid 'stats' in args"
      unless `args.stats` is a dict, 400 with the KeyError or format error if
      the dict lacks a field, otherwise 200 with the summary sentence. */
  function Summary(payload: Json, durationMs: real, fmt: FloatFormat): (r: HttpReply)
    ensures r.ServerError? <==> !payload.JObj?
    ensures r.JsonReply? ==>
      && r.body.JObj?
      && Field(r.body, "request_id") == Field(payload, "request_id")
      && Field(r.body, "tool") == JStr("generate_summary")
      && r.code == (if SummaryOutcome(payload, fmt).Success? then 200 else 400)
      && Field(r.body, "status") == JStr(if r.code == 200 then "success" else "error")
    ensures r.JsonReply? && r.code == 200 ==> Field(r.body, "summary") == JStr(SummaryOutcome(payload, fmt).value)
    ensures r.JsonReply? && r.code == 400 ==> Field(r.body, "error") == JStr(SummaryOutcome(payload, fmt).error)
  {
    if !payload.JObj? then ServerError
    else
      var outcome := match SummaryOutcome(payload, fmt)
        case Success(text) => Success(JStr(text))
        case Failure(e) => Failure(e);
      ToolReply(Field(payload, "request_id"), "generate_summary", "summary", outcome, durationMs)
  }

  /** An empty `numbers`, and a missing one (the default is `[]`), are
      rejected with "Empty input list". */
  lemma AnalyzeRejectsEmpty(requestId: Json, args: seq<(string, Json)>, d: real)
    requires Lookup(args, "numbers").None? || Lookup(args, "numbers") == Some(JArr([]))
    ensures var r := AnalyzeData(JObj([("request_id", requestId), ("args", JObj(args))]), d);
      && r == JsonReply(400, r.body)
      && Field(r.body, "status") == JStr("error")
      && Field(r.body, "error") == JStr(EmptyInputError)
      && Field(r.body, "request_id") == requestId
  {
    var payload := JObj([("request_id", requestId), ("args", JObj(args))]);
    LookupTwo("request_id", requestId, "args", JObj(args));
    assert RequestedNumbers(payload) == Success(JArr([]));
    assert AnalyzeOutcome(payload) == Failure(EmptyInputError);
  }

  /** A non-dict `stats` (missing, null, a list, ...) is rejected with
      "Missing or invalid 'stats' in args"; a dict with all four fields gets a
      non-empty summary that shows the count, min and max. */
  lemma SummaryValidation(requestId: Json, stats: Json, d: real, fmt: FloatFormat)
    ensures var r := Summary(JObj([("request_id", requestId), ("args", JObj([("stats", stats)]))]), d, fmt);
      && r.JsonReply? && Field(r.body, "request_id") == requestId
      && (!stats.JObj? ==> r.code == 400 && Field(r.body, "error") == JStr(InvalidStatsError))
      && (stats.JObj? && GenerateSummary(stats.fields, fmt).Success? ==>
            var f := stats.fields;
            && r.code == 200 && Field(r.body, "status") == JStr("success")
            && Field(r.body, "summary") == JStr(GenerateSummary(f, fmt).value) && |Field(r.body, "summary").s| > 0
            && Contains(Field(r.body, "summary").s, Str(Lookup(f, "count").value, fmt))
            && Contains(Field(r.body, "summary").s, Str(Lookup(f, "min").value, fmt))
            && Contains(Field(r.body, "summary").s, Str(Lookup(f, "max").value, fmt)))
  {
    var payload := JObj([("request_id", requestId), ("args", JObj([("stats", stats)]))]);
    LookupTwo("request_id", requestId, "args", JObj([("stats", stats)]));
    LookupFirst([("stats", stats)], "stats", 0);
  }

  /** Whatever the request carries under `args.stats`, a value that is not a
      dict is rejected with 400 "Missing or invalid 'stats' in args". */
  lemma SummaryRejectsInvalid(payload: Json, d: real, fmt: FloatFormat)
    requires payload.JObj?
    requires RequestedStats(payload).Success? && !RequestedStats(payload).value.JObj?
    ensures var r := Summary(payload, d, fmt);
      && r == JsonReply(400, r.body)
      && Field(r.body, "status") == JStr("error")
      && Field(r.body, "error") == JStr(InvalidStatsError)
      && Field(r.body, "request_id") == Field(payload, "request_id")
  {
    assert SummaryOutcome(payload, fmt) == Failure(InvalidStatsError);
  }

  /** A request without `args`, or whose `args` dict has no `stats`, is the
      "Missing" case of the same rejection. */
  lemma SummaryRejectsMissing(payload: Json, d: real, fmt: FloatFormat)
    requires payload.JObj?
    requires Lookup(payload.fields, "args").None?
      || (Lookup(payload.fields, "args").value.JObj? && Lookup(Lookup(payload.fields, "args").value.fields, "stats").None?)
    ensures var r := Summary(payload, d, fmt);
      r == JsonReply(400, r.body) && Field(r.body, "error") == JStr(InvalidStatsError)
  {
    assert RequestedStats(payload) == Success(JNull);
    SummaryRejectsInvalid(payload, d, fmt);
  }
}
