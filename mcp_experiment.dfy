/** The MCP driver `run_mcp_experiment`: for every dataset item, two chained
    tool calls, analyze then summarize, classified into one record each. The
    tool server is an oracle from request to response; the request ids
    (`uuid4`) and the measured durations are per-item inputs. */
module McpExperiment {
  import opened Wrappers
  import opened Json
  import opened PyText
  import opened Http
  import opened Metrics
  import opened Analysis
  import opened Seqs
  import McpToolServer

  /** A POST to one tool endpoint with its JSON payload. */
  datatype ToolRequest = ToolRequest(endpoint: string, payload: Json)

  const AnalyzeFailedPrefix := "analyze_data failed: "
  const SummaryFailedPrefix := "generate_summary failed: "
  const EmptySummaryError := "Empty summary returned"

  /** The payload `call_tool` posts. */
  function ToolPayload(requestId: string, args: Json): Json {
    JObj([("request_id", JStr(requestId)), ("args", args)])
  }

  /** The first call: `analyze_data` with the item's numbers as `args`. */
  function AnalyzeRequest(requestId: string, numbers: seq<int>): ToolRequest {
    ToolRequest("analyze_data", ToolPayload(requestId, JObj([("numbers", IntsJson(numbers))])))
  }

  /** The second call: `generate_summary` with the given stats as `args`. */
  function SummaryRequest(requestId: string, stats: Json): ToolRequest {
    ToolRequest("generate_summary", ToolPayload(requestId, JObj([("stats", stats)])))
  }

  /** Every payload is a dict carrying the request id and the arguments. */
  lemma ToolPayloadFields(requestId: string, args: Json)
    ensures var p := ToolPayload(requestId, args);
      p.JObj? && Field(p, "request_id") == JStr(requestId) && Field(p, "args") == args
  {
    LookupTwo("request_id", JStr(requestId), "args", args);
  }

  /** The analyze call posts to `analyze_data` with the item's numbers
      under `args.numbers`. */
  lemma AnalyzeRequestFields(requestId: string, numbers: seq<int>)
    ensures var q := AnalyzeRequest(requestId, numbers);
      && q.endpoint == "analyze_data"
      && Field(q.payload, "request_id") == JStr(requestId)
      && Field(Field(q.payload, "args"), "numbers") == IntsJson(numbers)
  {
    ToolPayloadFields(requestId, JObj([("numbers", IntsJson(numbers))]));
  }

  /** The summary call posts to `generate_summary` with the given stats
      under `args.stats`. */
  lemma SummaryRequestFields(requestId: string, stats: Json)
    ensures var q := SummaryRequest(requestId, stats);
      && q.endpoint == "generate_summary"
      && Field(q.payload, "request_id") == JStr(requestId)
      && Field(Field(q.payload, "args"), "stats") == stats
  {
    ToolPayloadFields(requestId, JObj([("stats", stats)]));
  }

  /** One item's chained exchange: the error it ends with (None for success)
      and the calls it issued, in order. */
  datatype Exchange = Exchange(error: Option<string>, calls: seq<ToolRequest>)

  /** The try-block of one iteration: analyze, check the reply, summarize
      with the first reply's stats, check again. */
  function McpExchange(requestId: string, numbers: seq<int>, callTool: ToolRequest -> Response, fmt: FloatFormat)
    : (x: Exchange)
    ensures 1 <= |x.calls| <= 2
    ensures x.calls[0] == AnalyzeRequest(requestId, numbers)
  {
    var first := AnalyzeRequest(requestId, numbers);
    var resp1 := callTool(first);
    match CheckReply(resp1, AnalyzeFailedPrefix, fmt)
    case Failure(e) => Exchange(Some(e), [first])
    case Success(_) =>
      var second := SummaryRequest(requestId, Field(resp1.body, "stats"));
      var resp2 := callTool(second);
      var error := match CheckReply(resp2, SummaryFailedPrefix, fmt)
        case Failure(e) => Some(e)
        case Success(_) => if HasSummary(resp2) then None else Some(EmptySummaryError);
      Exchange(error, [first, second])
  }

  /** The calls short-circuit: the second is issued only after the first
      reply passed the check, carries that reply's "stats", and reuses the
      request id; the item succeeds exactly when both replies pass and the
      second holds a non-empty summary, and each failure is reported with
      the text of the step that failed. */
  lemma McpExchangeSteps(requestId: string, numbers: seq<int>, callTool: ToolRequest -> Response, fmt: FloatFormat)
    ensures var x := McpExchange(requestId, numbers, callTool, fmt);
      |x.calls| == 2 <==> Succeeded(callTool(x.calls[0]))
    ensures var x := McpExchange(requestId, numbers, callTool, fmt);
      |x.calls| == 2 ==>
        x.calls[1] == SummaryRequest(requestId, Field(callTool(x.calls[0]).body, "stats"))
    ensures var x := McpExchange(requestId, numbers, callTool, fmt);
      x.error.None? <==>
        Succeeded(callTool(x.calls[0])) && Succeeded(callTool(x.calls[1])) && HasSummary(callTool(x.calls[1]))
    ensures var x := McpExchange(requestId, numbers, callTool, fmt);
      |x.calls| == 1 ==> x.error == Some(CheckReply(callTool(x.calls[0]), AnalyzeFailedPrefix, fmt).error)
    ensures var x := McpExchange(requestId, numbers, callTool, fmt);
      |x.calls| == 2 && !Succeeded(callTool(x.calls[1])) ==>
        x.error == Some(CheckReply(callTool(x.calls[1]), SummaryFailedPrefix, fmt).error)
    ensures var x := McpExchange(requestId, numbers, callTool, fmt);
      |x.calls| == 2 && Succeeded(callTool(x.calls[1])) && !HasSummary(callTool(x.calls[1])) ==>
        x.error == Some(EmptySummaryError)
  {
  }

  /** The record appended for the item at 1-based position `index`. */
  function McpRecord(index: nat, requestId: string, numbers: seq<int>, durationMs: real,
                     callTool: ToolRequest -> Response, fmt: FloatFormat): (r: Record)
    ensures r.protocol == "MCP" && r.requestIndex == index && r.durationMs == durationMs
    ensures r.messagesOrCalls == 2
    ensures r.success <==> r.error.None?
    ensures r.error == McpExchange(requestId, numbers, callTool, fmt).error
  {
    var x := McpExchange(requestId, numbers, callTool, fmt);
    Record("MCP", index, durationMs, x.error.None?, x.error, 2)
  }

  /** The records of a whole run, in dataset order. */
  function McpRecords(data: seq<seq<int>>, ids: seq<string>, durations: seq<real>,
                      callTool: ToolRequest -> Response, fmt: FloatFormat): (rs: seq<Record>)
    requires |ids| == |data| && |durations| == |data|
    ensures |rs| == |data|
    ensures forall k :: 0 <= k < |data| ==> rs[k] == McpRecord(k + 1, ids[k], data[k], durations[k], callTool, fmt)
  {
    seq(|data|, k requires 0 <= k < |data| => McpRecord(k + 1, ids[k], data[k], durations[k], callTool, fmt))
  }

  /** The try-block of one iteration, as the loop runs it: analyze, check,
      then summarize with the stats of the first reply, and check again. */
  method RunExchange(requestId: string, numbers: seq<int>, callTool: ToolRequest -> Response, fmt: FloatFormat)
    returns (success: bool, errorMsg: Option<string>, calls: seq<ToolRequest>)
    ensures Exchange(errorMsg, calls) == McpExchange(requestId, numbers, callTool, fmt)
    ensures success <==> errorMsg.None?
  {
    success, errorMsg := true, None;
    var first := AnalyzeRequest(requestId, numbers);
    calls := [first];
    var resp1 := callTool(first);
    var check1 := CheckReply(resp1, AnalyzeFailedPrefix, fmt);
    if check1.Failure? {
      success, errorMsg := false, Some(check1.error);
    } else {
      var stats := Field(resp1.body, "stats");
      var second := SummaryRequest(requestId, stats);
      calls := calls + [second];
      var resp2 := callTool(second);
      var check2 := CheckReply(resp2, SummaryFailedPrefix, fmt);
      if check2.Failure? {
        success, errorMsg := false, Some(check2.error);
      } else if !HasSummary(resp2) {
        success, errorMsg := false, Some(EmptySummaryError);
      }
    }
  }

  /** `run_mcp_experiment` after loading the dataset: one record per item,
      each with its 1-based index, protocol "MCP" and two calls, success
      without error or failure with the error text; the calls issued per
      item; and the run's aggregate. */
  method RunMcpExperiment(data: seq<seq<int>>, ids: seq<string>, durations: seq<real>,
                          callTool: ToolRequest -> Response, fmt: FloatFormat)
    returns (results: seq<Record>, issued: seq<seq<ToolRequest>>, summary: Summary)
    requires |ids| == |data| && |durations| == |data|
    ensures results == McpRecords(data, ids, durations, callTool, fmt)
    ensures |results| == |data| && |issued| == |data|
    ensures forall k :: 0 <= k < |data| ==>
      && results[k].requestIndex == k + 1
      && results[k].protocol == "MCP"
      && results[k].messagesOrCalls == 2
      && results[k].durationMs == durations[k]
      && (results[k].success <==> results[k].error.None?)
    ensures forall k :: 0 <= k < |data| ==> issued[k] == McpExchange(ids[k], data[k], callTool, fmt).calls
    ensures summary == Aggregate(results)
  {
    ghost var records := McpRecords(data, ids, durations, callTool, fmt);
    ghost var exchanges := seq(|data|, k requires 0 <= k < |data| => McpExchange(ids[k], data[k], callTool, fmt).calls);
    results, issued := [], [];
    var idx := 0;
    while idx < |data|
      invariant 0 <= idx <= |data|
      invariant results == records[..idx] && issued == exchanges[..idx]
    {
      var success, errorMsg, calls := RunExchange(ids[idx], data[idx], callTool, fmt);
      assert Record("MCP", idx + 1, durations[idx], success, errorMsg, 2) == records[idx];
      TakeSnoc(records, idx);
      TakeSnoc(exchanges, idx);
      results := results + [Record("MCP", idx + 1, durations[idx], success, errorMsg, 2)];
      issued := issued + [calls];
      idx := idx + 1;
    }
    assert records[..idx] == records && exchanges[..idx] == exchanges;
    summary := Aggregate(results);
  }

  // ---- the driver against the tool server of McpToolServer ----------------

  /** The tool server behind its two routes, with a fixed handler duration;
      any other path gets Flask's 404 HTML page, which is not JSON. */
  function ToolServer(durationMs: real, fmt: FloatFormat): ToolRequest -> Response {
    (req: ToolRequest) =>
      if req.endpoint == "analyze_data" then Deliver(McpToolServer.AnalyzeData(req.payload, durationMs))
      else if req.endpoint == "generate_summary" then Deliver(McpToolServer.Summary(req.payload, durationMs, fmt))
      else TransportError(NotJsonMessage)
  }

  /** The analyze call of a non-empty item gets a 200 "success" reply
      carrying the item's stats. */
  lemma AnalyzeReplyOfItem(requestId: string, numbers: seq<int>, d: real, fmt: FloatFormat)
    requires |numbers| > 0
    ensures var r1 := ToolServer(d, fmt)(AnalyzeRequest(requestId, numbers));
      && Succeeded(r1)
      && ComputeStats(IntsJson(numbers)).Success?
      && Field(r1.body, "stats") == StatsJson(ComputeStats(IntsJson(numbers)).value)
  {
    var payload := AnalyzeRequest(requestId, numbers).payload;
    LookupTwo("request_id", JStr(requestId), "args", JObj([("numbers", IntsJson(numbers))]));
    LookupFirst([("numbers", IntsJson(numbers))], "numbers", 0);
    assert McpToolServer.RequestedNumbers(payload) == Success(IntsJson(numbers));
    StatsOfInts(numbers);
    var r1 := ToolServer(d, fmt)(AnalyzeRequest(requestId, numbers));
    assert Field(r1.body, "status") == JStr("success");
  }

  /** The summary call for stats that `compute_stats` built gets a 200
      "success" reply whose summary is the one `generate_summary` writes. */
  lemma SummaryReplyOfStats(requestId: string, s: Stats, d: real, fmt: FloatFormat)
    ensures var r2 := ToolServer(d, fmt)(SummaryRequest(requestId, StatsJson(s)));
      && Succeeded(r2) && HasSummary(r2)
      && Field(r2.body, "summary") == JStr(GenerateSummary(StatsJson(s).fields, fmt).value)
  {
    var payload := JObj([("request_id", JStr(requestId)), ("args", JObj([("stats", StatsJson(s))]))]);
    assert SummaryRequest(requestId, StatsJson(s)) == ToolRequest("generate_summary", payload);
    SummaryOfStats(s, fmt);
    McpToolServer.SummaryValidation(JStr(requestId), StatsJson(s), d, fmt);
    var h := McpToolServer.Summary(payload, d, fmt);
    DeliverSucceeds(h);
    DeliverHasSummary(h);
    assert ToolServer(d, fmt)(SummaryRequest(requestId, StatsJson(s))) == Deliver(h);
  }

  /** Against the tool server, a non-empty item succeeds after exactly two
      calls; an empty one fails after one call, and the record's error shows
      the server's "Empty input list" reply. */
  lemma McpAgainstToolServer(requestId: string, numbers: seq<int>, d: real, fmt: FloatFormat)
    ensures var x := McpExchange(requestId, numbers, ToolServer(d, fmt), fmt);
      && (|numbers| > 0 ==> x.error.None? && |x.calls| == 2)
      && (|numbers| == 0 ==>
            && |x.calls| == 1
            && x.error == Some(AnalyzeFailedPrefix + Str(McpToolServer.ErrorBody(JStr(requestId), "analyze_data", EmptyInputError), fmt)))
  {
    var server := ToolServer(d, fmt);
    if |numbers| > 0 {
      AnalyzeReplyOfItem(requestId, numbers, d, fmt);
      SummaryReplyOfStats(requestId, ComputeStats(IntsJson(numbers)).value, d, fmt);
    } else {
      var payload := AnalyzeRequest(requestId, numbers).payload;
      LookupTwo("request_id", JStr(requestId), "args", JObj([("numbers", IntsJson(numbers))]));
      LookupFirst([("numbers", IntsJson(numbers))], "numbers", 0);
      assert McpToolServer.RequestedNumbers(payload) == Success(IntsJson(numbers));
      assert McpToolServer.AnalyzeOutcome(payload) == Failure(EmptyInputError);
      var r1 := server(AnalyzeRequest(requestId, numbers));
      assert r1 == Reply(400, McpToolServer.ErrorBody(JStr(requestId), "analyze_data", EmptyInputError));
    }
  }

  lemma RecordAgainstToolServer(k: nat, data: seq<seq<int>>, ids: seq<string>, durations: seq<real>, d: real, fmt: FloatFormat)
    requires |ids| == |data| && |durations| == |data| && k < |data| && |data[k]| > 0
    ensures var r := McpRecords(data, ids, durations, ToolServer(d, fmt), fmt)[k];
      r.success && r.error.None?
  {
    var server := ToolServer(d, fmt);
    var rs := McpRecords(data, ids, durations, server, fmt);
    var x := McpExchange(ids[k], data[k], server, fmt);
    McpAgainstToolServer(ids[k], data[k], d, fmt);
    assert x.error.None?;
    assert rs[k] == McpRecord(k + 1, ids[k], data[k], durations[k], server, fmt);
  }

  /** Over a dataset of non-empty items the tool server answers every request:
      every record succeeds and the success rate of a non-empty run is 100. */
  lemma McpRunAgainstToolServer(data: seq<seq<int>>, ids: seq<string>, durations: seq<real>, d: real, fmt: FloatFormat)
    requires |ids| == |data| && |durations| == |data|
    requires forall k :: 0 <= k < |data| ==> |data[k]| > 0
    ensures var rs := McpRecords(data, ids, durations, ToolServer(d, fmt), fmt);
      && (forall k :: 0 <= k < |rs| ==> rs[k].success && rs[k].error.None?)
      && (|data| > 0 ==> Aggregate(rs).successful == |data| && Aggregate(rs).successRate == 100.0)
  {
    var rs := McpRecords(data, ids, durations, ToolServer(d, fmt), fmt);
    forall k | 0 <= k < |rs| ensures rs[k].success && rs[k].error.None? {
      RecordAgainstToolServer(k, data, ids, durations, d, fmt);
    }
    if |data| > 0 {
      AllSucceeded(rs);
    }
  }
}
