/** The comparison the two drivers are run for: both load the same seeded
    dataset and process it against the real services. */
module Comparison {
  import opened Wrappers
  import opened Reals
  import opened Metrics
  import opened DatasetGenerator
  import opened PyText
  import opened Json
  import opened Http
  import opened Analysis
  import McpExperiment
  import A2AExperiment
  import A2AWorkerAgent
  import McpToolServer

  /** On the default dataset, whatever the generator's draws, every MCP and
      every A2A record succeeds: both runs have 30 records and a success
      rate of 100. */
  lemma DefaultRunsSucceed(draw: (RngState, int, int) -> (int, RngState), seeding: int -> RngState,
                           mcpIds: seq<string>, mcpDurations: seq<real>,
                           a2aIds: seq<string>, a2aDurations: seq<real>, d: real, fmt: FloatFormat)
    requires DrawContract(draw)
    requires |mcpIds| == 30 && |mcpDurations| == 30 && |a2aIds| == 30 && |a2aDurations| == 30
    ensures var data := Dataset(draw, seeding, 30, 5, 20, 1, 500);
      && |data| == 30
      && var mcp := Aggregate(McpExperiment.McpRecords(data, mcpIds, mcpDurations, McpExperiment.ToolServer(d, fmt), fmt));
      && var a2a := Aggregate(A2AExperiment.A2ARecords(data, a2aIds, a2aDurations, A2AExperiment.Worker(d, fmt), fmt));
      && mcp.total == 30 && a2a.total == 30
      && mcp.successful == 30 && a2a.successful == 30
      && mcp.successRate == 100.0 && a2a.successRate == 100.0
  {
    var data := Dataset(draw, seeding, 30, 5, 20, 1, 500);
    DefaultDataset(draw, seeding);
    McpExperiment.McpRunAgainstToolServer(data, mcpIds, mcpDurations, d, fmt);
    A2AExperiment.A2ARunAgainstWorker(data, a2aIds, a2aDurations, d, fmt);
  }

  /** The list `[1, 2, 3]` has count 3, min 1, max 3 and mean 2. */
  lemma StatsOfOneTwoThree()
    ensures var s := ComputeStats(IntsJson([1, 2, 3])).value;
      && ComputeStats(IntsJson([1, 2, 3])).Success?
      && s.count == 3 && s.min == JInt(1) && s.max == JInt(3) && s.mean == 2.0
  {
    var xs := [1, 2, 3];
    StatsOfInts(xs);
    var s := ComputeStats(IntsJson(xs)).value;
    assert s.min.i <= xs[0] && s.max.i >= xs[2];
    var vs := Values(IntsJson(xs).items);
    assert vs == [1.0, 2.0, 3.0];
    assert [1.0][..0] == [] && [1.0, 2.0][..1] == [1.0] && vs[..2] == [1.0, 2.0];
    assert Sum([1.0]) == 1.0;
    assert Sum([1.0, 2.0]) == 3.0;
    assert Sum(vs) == 6.0;
    assert s.mean == Mean(vs);
  }

  /** The sentence `generate_summary` writes for the stats of `[1, 2, 3]`. */
  function OneTwoThreeSummary(fmt: FloatFormat): string {
    SummaryText("3", "1", "3", fmt.fixed2(2.0))
  }

  lemma SummaryOfOneTwoThree(fmt: FloatFormat)
    ensures var s := ComputeStats(IntsJson([1, 2, 3])).value;
      GenerateSummary(StatsJson(s).fields, fmt) == Success(OneTwoThreeSummary(fmt))
  {
    StatsOfOneTwoThree();
    var s := ComputeStats(IntsJson([1, 2, 3])).value;
    SummaryOfStatsText(s, fmt);
    assert IntText(3) == "3" && IntText(1) == "1";
    assert Str(JInt(3), fmt) == "3" && Str(JInt(1), fmt) == "1";
  }

  /** For the item `[1, 2, 3]` the reply the A2A driver receives carries the
      summary "The dataset contains 3 values. The minimum value is 1, the
      maximum value is 3, and the average value is 2.00." (the mean as
      `format(2.0, '.2f')` renders it). */
  lemma A2ASummaryOfOneTwoThree(id: string, d: real, fmt: FloatFormat)
    ensures var r := A2AExperiment.Worker(d, fmt)(A2AExperiment.TaskPayload(id, [1, 2, 3]));
      && Succeeded(r) && HasSummary(r)
      && Field(r.body, "summary") == JStr(OneTwoThreeSummary(fmt))
  {
    A2AExperiment.WorkerReplyOfItem(id, [1, 2, 3], d, fmt);
    SummaryOfOneTwoThree(fmt);
  }

  /** For the item `[1, 2, 3]` the MCP driver's summary call, made with the
      stats of the analyze reply, gets the same sentence. */
  lemma McpSummaryOfOneTwoThree(id: string, d: real, fmt: FloatFormat)
    ensures var server := McpExperiment.ToolServer(d, fmt);
      var r1 := server(McpExperiment.AnalyzeRequest(id, [1, 2, 3]));
      var r2 := server(McpExperiment.SummaryRequest(id, Field(r1.body, "stats")));
      && Succeeded(r1) && Succeeded(r2) && HasSummary(r2)
      && Field(r2.body, "summary") == JStr(OneTwoThreeSummary(fmt))
  {
    var xs := [1, 2, 3];
    var s := ComputeStats(IntsJson(xs)).value;
    McpExperiment.AnalyzeReplyOfItem(id, xs, d, fmt);
    McpExperiment.SummaryReplyOfStats(id, s, d, fmt);
    SummaryOfOneTwoThree(fmt);
  }
}
