/** The A2A driver `run_a2a_experiment`: for every dataset item, one task
    sent to the worker agent, classified into one record. The worker is an
    oracle from request payload to response; the task ids (`uuid4`) and the
    measured durations are per-item inputs. */
module A2AExperiment {
  import opened Wrappers
  import opened Json
  import opened PyText
  import opened Http
  import opened Metrics
  import opened Analysis
  import A2AWorkerAgent

  const WorkerFailedPrefix := "Worker failed: "
  const EmptySummaryError := "Empty summary returned from worker"

  /** The payload `send_task_to_worker` posts. */
  function TaskPayload(taskId: string, numbers: seq<int>): Json {
    JObj([("task_id", JStr(taskId)), ("operation", JStr(A2AWorkerAgent.SupportedOperation)),
          ("data", IntsJson(numbers))])
  }

  /** Every task names the one supported operation and carries the item's
      numbers under "data". */
  lemma TaskPayloadFields(taskId: string, numbers: seq<int>)
    ensures var p := TaskPayload(taskId, numbers);
      && p.JObj?
      && Field(p, "task_id") == JStr(taskId)
      && Field(p, "operation") == JStr("analyze_and_summarize")
      && Field(p, "data") == IntsJson(numbers)
  {
    LookupThree("task_id", JStr(taskId), "operation", JStr(A2AWorkerAgent.SupportedOperation), "data", IntsJson(numbers));
  }

  /** The try-block of one iteration: the error it ends with, None for success. */
  function A2AOutcome(resp: Response, fmt: FloatFormat): (error: Option<string>)
    ensures error.None? <==> Succeeded(resp) && HasSummary(resp)
    ensures !Succeeded(resp) ==> error == Some(CheckReply(resp, WorkerFailedPrefix, fmt).error)
    ensures Succeeded(resp) && !HasSummary(resp) ==> error == Some(EmptySummaryError)
  {
    match CheckReply(resp, WorkerFailedPrefix, fmt)
    case Failure(e) => Some(e)
    case Success(_) => if HasSummary(resp) then None else Some(EmptySummaryError)
  }

  /** The record appended for the item at 1-based position `index`. */
  function A2ARecord(index: nat, taskId: string, numbers: seq<int>, durationMs: real,
                     sendTask: Json -> Response, fmt: FloatFormat): (r: Record)
    ensures r.protocol == "A2A" && r.requestIndex == index && r.durationMs == durationMs
    ensures r.messagesOrCalls == 2
    ensures r.success <==> r.error.None?
    ensures r.success <==> Succeeded(sendTask(TaskPayload(taskId, numbers))) && HasSummary(sendTask(TaskPayload(taskId, numbers)))
  {
    var error := A2AOutcome(sendTask(TaskPayload(taskId, numbers)), fmt);
    Record("A2A", index, durationMs, error.None?, error, 2)
  }

  /** The records of a whole run, in dataset order. */
  function A2ARecords(data: seq<seq<int>>, ids: seq<string>, durations: seq<real>,
                      sendTask: Json -> Response, fmt: FloatFormat): (rs: seq<Record>)
    requires |ids| == |data| && |durations| == |data|
    ensures |rs| == |data|
    ensures forall k :: 0 <= k < |data| ==> rs[k] == A2ARecord(k + 1, ids[k], data[k], durations[k], sendTask, fmt)
  {
    seq(|data|, k requires 0 <= k < |data| => A2ARecord(k + 1, ids[k], data[k], durations[k], sendTask, fmt))
  }

  /** `run_a2a_experiment` after loading the dataset: exactly one task per
      item, carrying the item's numbers and the "analyze_and_summarize"
      operation; one record per item with its 1-based index, protocol "A2A"
      and two messages, success without error or failure with the error text;
      and the run's aggregate. */
  method RunA2AExperiment(data: seq<seq<int>>, ids: seq<string>, durations: seq<real>,
                          sendTask: Json -> Response, fmt: FloatFormat)
    returns (results: seq<Record>, sent: seq<Json>, summary: Summary)
    requires |ids| == |data| && |durations| == |data|
    ensures results == A2ARecords(data, ids, durations, sendTask, fmt)
    ensures |results| == |data| && |sent| == |data|
    ensures forall k :: 0 <= k < |data| ==>
      && results[k].requestIndex == k + 1
      && results[k].protocol == "A2A"
      && results[k].messagesOrCalls == 2
      && results[k].durationMs == durations[k]
      && (results[k].success <==> results[k].error.None?)
      && (results[k].success <==> Succeeded(sendTask(sent[k])) && HasSummary(sendTask(sent[k])))
    ensures forall k :: 0 <= k < |data| ==> sent[k] == TaskPayload(ids[k], data[k])
    ensures summary == Aggregate(results)
  {
    results, sent := [], [];
    var idx := 0;
    while idx < |data|
      invariant 0 <= idx <= |data|
      invariant |results| == idx && |sent| == idx
      invariant forall k :: 0 <= k < idx ==>
        results[k] == A2ARecord(k + 1, ids[k], data[k], durations[k], sendTask, fmt)
      invariant forall k :: 0 <= k < idx ==> sent[k] == TaskPayload(ids[k], data[k])
    {
      var numbers, taskId := data[idx], ids[idx];
      var success := true;
      var errorMsg: Option<string> := None;
      var payload := TaskPayload(taskId, numbers);
      var resp := sendTask(payload);
      var check := CheckReply(resp, WorkerFailedPrefix, fmt);
      if check.Failure? {
        success, errorMsg := false, Some(check.error);
      } else if !HasSummary(resp) {
        success, errorMsg := false, Some(EmptySummaryError);
      }
      assert errorMsg == A2AOutcome(resp, fmt);
      results := results + [Record("A2A", idx + 1, durations[idx], success, errorMsg, 2)];
      sent := sent + [payload];
      idx := idx + 1;
    }
    summary := Aggregate(results);
  }

  // ---- the driver against the worker agent of A2AWorkerAgent --------------

  /** The worker agent behind its route, with a fixed handler duration. */
  function Worker(durationMs: real, fmt: FloatFormat): Json -> Response {
    (payload: Json) => Deliver(A2AWorkerAgent.ProcessTask(payload, durationMs, fmt))
  }

  /** Against the worker agent, a non-empty item gets a 200 "success" reply
      whose summary is the one `generate_summary` writes for the item's stats. */
  lemma WorkerReplyOfItem(taskId: string, numbers: seq<int>, d: real, fmt: FloatFormat)
    requires |numbers| > 0
    ensures var r := Worker(d, fmt)(TaskPayload(taskId, numbers));
      && Succeeded(r)
      && ComputeStats(IntsJson(numbers)).Success?
      && var st := ComputeStats(IntsJson(numbers)).value;
      && GenerateSummary(StatsJson(st).fields, fmt).Success?
      && Field(r.body, "summary") == JStr(GenerateSummary(StatsJson(st).fields, fmt).value)
  {
    var payload := TaskPayload(taskId, numbers);
    TaskPayloadFields(taskId, numbers);
    assert A2AWorkerAgent.RequestedData(payload) == IntsJson(numbers);
    StatsOfInts(numbers);
    var st := ComputeStats(IntsJson(numbers)).value;
    SummaryOfStats(st, fmt);
    var t := A2AWorkerAgent.TaskResult(st, GenerateSummary(StatsJson(st).fields, fmt).value);
    assert A2AWorkerAgent.TaskOutcome(payload, fmt) == Success(t);
    var h := A2AWorkerAgent.ProcessTask(payload, d, fmt);
    assert h == JsonReply(200, A2AWorkerAgent.SuccessBody(JStr(taskId), t, d));
    DeliverSucceeds(h);
    assert Worker(d, fmt)(payload) == Deliver(h);
  }

  /** Against the worker agent, a non-empty item succeeds. */
  lemma A2AAcceptsItem(taskId: string, numbers: seq<int>, d: real, fmt: FloatFormat)
    requires |numbers| > 0
    ensures A2AOutcome(Worker(d, fmt)(TaskPayload(taskId, numbers)), fmt).None?
  {
    WorkerReplyOfItem(taskId, numbers, d, fmt);
    SummaryOfStats(ComputeStats(IntsJson(numbers)).value, fmt);
  }

  /** Against the worker agent, an empty item fails, and the record's error
      shows the worker's 400 "Empty input list" reply. */
  lemma A2ARejectsEmpty(taskId: string, d: real, fmt: FloatFormat)
    ensures A2AOutcome(Worker(d, fmt)(TaskPayload(taskId, [])), fmt)
      == Some(WorkerFailedPrefix + Str(A2AWorkerAgent.ErrorBody(JStr(taskId), EmptyInputError), fmt))
  {
    var payload := TaskPayload(taskId, []);
    TaskPayloadFields(taskId, []);
    assert A2AWorkerAgent.RequestedData(payload) == IntsJson([]);
    assert A2AWorkerAgent.TaskOutcome(payload, fmt) == Failure(EmptyInputError);
    var r := Worker(d, fmt)(payload);
    assert r == Reply(400, A2AWorkerAgent.ErrorBody(JStr(taskId), EmptyInputError));
  }

  lemma RecordAgainstWorker(k: nat, data: seq<seq<int>>, ids: seq<string>, durations: seq<real>, d: real, fmt: FloatFormat)
    requires |ids| == |data| && |durations| == |data| && k < |data| && |data[k]| > 0
    ensures var r := A2ARecords(data, ids, durations, Worker(d, fmt), fmt)[k];
      r.success && r.error.None?
  {
    A2AAcceptsItem(ids[k], data[k], d, fmt);
  }

  /** Over a dataset of non-empty items the worker answers every task: every
      record succeeds and the success rate of a non-empty run is 100. */
  lemma A2ARunAgainstWorker(data: seq<seq<int>>, ids: seq<string>, durations: seq<real>, d: real, fmt: FloatFormat)
    requires |ids| == |data| && |durations| == |data|
    requires forall k :: 0 <= k < |data| ==> |data[k]| > 0
    ensures var rs := A2ARecords(data, ids, durations, Worker(d, fmt), fmt);
      && (forall k :: 0 <= k < |rs| ==> rs[k].success && rs[k].error.None?)
      && (|data| > 0 ==> Aggregate(rs).successful == |data| && Aggregate(rs).successRate == 100.0)
  {
    var rs := A2ARecords(data, ids, durations, Worker(d, fmt), fmt);
    forall k | 0 <= k < |rs| ensures rs[k].success && rs[k].error.None? {
      RecordAgainstWorker(k, data, ids, durations, d, fmt);
    }
    if |data| > 0 {
      AllSucceeded(rs);
    }
  }
}
