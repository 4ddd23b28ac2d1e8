/** The A2A worker agent's `process_task` handler, as a function from the
    decoded request body to the reply. Its `compute_stats` and
    `generate_summary` are the shared ones in `Analysis`; the handler's own
    timing is the `durationMs` input. */
module A2AWorkerAgent {
  import opened Wrappers
  import opened Json
  import opened PyText
  import opened Http
  import opened Analysis

  const SupportedOperation := "analyze_and_summarize"

  /** The stats and summary text the task asks for. */
  datatype TaskResult = TaskResult(stats: Stats, summary: string)

  /** `payload.get("data", [])` for a dict payload. */
  function RequestedData(payload: Json): (r: Json)
    requires payload.JObj?
    ensures Get(payload, "data", JArr([])) == Success(r)
    ensures Lookup(payload.fields, "data").None? ==> r == JArr([])
  {
    match Lookup(payload.fields, "data")
    case Some(v) => v
    case None => JArr([])
  }

  /** What the try-block of `process_task` ends with. The operation is checked
      before anything is computed; then `compute_stats` rejects empty or
      missing data; the summary of stats it built always succeeds. */
  function TaskOutcome(payload: Json, fmt: FloatFormat): (r: Result<TaskResult>)
    requires payload.JObj?
    ensures Field(payload, "operation") != JStr(SupportedOperation) ==>
      r == Failure("Unsupported operation: " + Str(Field(payload, "operation"), fmt))
    ensures Field(payload, "operation") == JStr(SupportedOperation) ==>
      && (r.Success? <==> ComputeStats(RequestedData(payload)).Success?)
      && (IsFalsy(RequestedData(payload)) ==> r == Failure(EmptyInputError))
    ensures r.Success? ==>
      && var data := RequestedData(payload).items;
      && Describes(r.value.stats, data)
      && |r.value.summary| > 0
      && Contains(r.value.summary, IntText(r.value.stats.count))
      && Contains(r.value.summary, Str(r.value.stats.min, fmt))
      && Contains(r.value.summary, Str(r.value.stats.max, fmt))
  {
    var operation := Field(payload, "operation");
    if operation != JStr(SupportedOperation) then
      Failure("Unsupported operation: " + Str(operation, fmt))
    else
      match ComputeStats(RequestedData(payload))
      case Failure(e) => Failure(e)
      case Success(stats) =>
        SummaryOfStats(stats, fmt);
        Success(TaskResult(stats, GenerateSummary(StatsJson(stats).fields, fmt).value))
  }

  function SuccessBody(taskId: Json, t: TaskResult, durationMs: real): (body: Json)
    ensures body.JObj?
    ensures Field(body, "task_id") == taskId && Field(body, "status") == JStr("success")
    ensures Field(body, "stats") == StatsJson(t.stats) && Field(body, "summary") == JStr(t.summary)
  {
    var body := JObj([("task_id", taskId), ("status", JStr("success")), ("stats", StatsJson(t.stats)),
                      ("summary", JStr(t.summary)), ("duration_ms", JFloat(durationMs))]);
    LookupFive("task_id", taskId, "status", JStr("success"), "stats", StatsJson(t.stats),
               "summary", JStr(t.summary), "duration_ms", JFloat(durationMs));
    body
  }

  function ErrorBody(taskId: Json, error: string): (body: Json)
    ensures body.JObj?
    ensures Field(body, "task_id") == taskId && Field(body, "status") == JStr("error")
    ensures Field(body, "error") == JStr(error)
  {
    var body := JObj([("task_id", taskId), ("status", JStr("error")), ("error", JStr(error))]);
    LookupThree("task_id", taskId, "status", JStr("error"), "error", JStr(error));
    body
  }

  /** `process_task`: 200 with stats and summary, or 400 with the error text;
      both echo the task id. A body that is not a dict makes the
      except-branch's own `payload.get` raise, so Flask answers 500. */
  function ProcessTask(payload: Json, durationMs: real, fmt: FloatFormat): (r: HttpReply)
    ensures r.ServerError? <==> !payload.JObj?
    ensures r.JsonReply? ==>
      && r.body.JObj?
      && Field(r.body, "task_id") == Field(payload, "task_id")
      && r.code == (if TaskOutcome(payload, fmt).Success? then 200 else 400)
      && Field(r.body, "status") == JStr(if r.code == 200 then "success" else "error")
    ensures r.JsonReply? && r.code == 200 ==>
      && Field(r.body, "stats") == StatsJson(TaskOutcome(payload, fmt).value.stats)
      && Field(r.body, "summary") == JStr(TaskOutcome(payload, fmt).value.summary)
    ensures r.JsonReply? && r.code == 400 ==>
      Field(r.body, "error") == JStr(TaskOutcome(payload, fmt).error)
  {
    if !payload.JObj? then ServerError
    else
      var taskId := Field(payload, "task_id");
      match TaskOutcome(payload, fmt)
      case Success(t) => JsonReply(200, SuccessBody(taskId, t, durationMs))
      case Failure(e) => JsonReply(400, ErrorBody(taskId, e))
  }

  /** A task of the supported operation whose data is a non-empty list of
      ints succeeds: 200, "success", the stats of that list (count = its
      length, min and max members bounding every element), and a non-empty summary
      naming count, min and max; with empty data it is 400 "Empty input list". */
  lemma ProcessIntsTask(taskId: Json, xs: seq<int>, d: real, fmt: FloatFormat)
    ensures var payload := JObj([("task_id", taskId), ("operation", JStr(SupportedOperation)), ("data", IntsJson(xs))]);
      var r := ProcessTask(payload, d, fmt);
      && r.JsonReply? && Field(r.body, "task_id") == taskId
      && (|xs| == 0 ==> r.code == 400 && Field(r.body, "error") == JStr(EmptyInputError))
      && (|xs| > 0 ==>
            TaskOutcome(payload, fmt).Success? &&
            var s := TaskOutcome(payload, fmt).value.stats;
            && r.code == 200 && Field(r.body, "status") == JStr("success")
            && Field(r.body, "stats") == StatsJson(s)
            && s.count == |xs| && s.min.JInt? && s.max.JInt?
            && s.min.i in xs && s.max.i in xs
            && (forall i :: 0 <= i < |xs| ==> s.min.i <= xs[i] <= s.max.i)
            && var summary := Field(r.body, "summary");
            && summary.JStr? && |summary.s| > 0
            && Contains(summary.s, IntText(|xs|))
            && Contains(summary.s, IntText(s.min.i)) && Contains(summary.s, IntText(s.max.i)))
  {
    var payload := JObj([("task_id", taskId), ("operation", JStr(SupportedOperation)), ("data", IntsJson(xs))]);
    LookupThree("task_id", taskId, "operation", JStr(SupportedOperation), "data", IntsJson(xs));
    assert RequestedData(payload) == IntsJson(xs);
    var o := TaskOutcome(payload, fmt);
    if |xs| == 0 {
      assert o == Failure(EmptyInputError);
    } else {
      StatsOfInts(xs);
      var st := ComputeStats(IntsJson(xs)).value;
      SummaryOfIntStats(st, fmt);
      var summary := GenerateSummary(StatsJson(st).fields, fmt).value;
      assert o == Success(TaskResult(st, summary));
      var r := ProcessTask(payload, d, fmt);
      assert r == JsonReply(200, SuccessBody(taskId, TaskResult(st, summary), d));
    }
  }
}
