# MCP vs A2A comparison: a Dafny model

The repository benchmarks two ways of splitting a small analytics job
between services:

- **MCP style.** A driver calls two tools on a tool server, one after the other:
  - `analyze_data` returns the count, min, max and mean of a list.
  - `generate_summary` turns those stats into a sentence.
- **A2A style.** A driver sends one task, `analyze_and_summarize`, to a worker agent. The worker does both steps itself.

Both drivers run over the same seeded dataset, one exchange per item. Each item yields one result record: 1-based index, protocol, measured duration, success and error. After the loop the driver computes the success rate and the mean, min and max duration of the successful requests.

This project models that core:

- **The shared helpers** `compute_stats` and `generate_summary` are module `Analysis`. Both services carry identical copies of them, so they are defined once.
- **The three HTTP handlers** are modules `McpToolServer` and `A2AWorkerAgent`. Each is a function from the decoded request body to the reply: a JSON body with a status code, or an exception escaping the handler, which Flask answers with 500.
- **The two drivers** are modules `McpExperiment` and `A2AExperiment`. Each is a method with a loop, proved against a per-item specification function. The remote side is an oracle, a function from request to response. The `uuid4` ids and the measured durations are per-item inputs.
- **The aggregate after both loops** is module `Metrics`.
- **`generate_dataset`** is module `DatasetGenerator`:
  - a `Random` class holds the generator state;
  - two loops draw the lengths and the values;
  - the generator's draw function is abstract and promises only `randint`'s contract.
- **Python's text rendering** is module `PyText`: `str` of an int, `repr` of a str, and `str` of a decoded JSON value. It is needed because failures carry `str(e)` of exceptions whose text embeds the reply dict.
- **Module `Comparison`** ties the pieces together. Whatever the generator draws, on the default dataset both drivers, run against the real services, report 30 of 30 successful requests.

Decoded JSON is the datatype `Json.Json`:

- A dict is its bindings in insertion order, and `d[key]` finds the first binding.
- Floats are reals.
- `x.get(k, default)` raises AttributeError on anything that is not a dict. This matters in the handlers:
  - a body that is not a dict makes their except-branch's own `payload.get` raise, so Flask answers 500;
  - the drivers then fail to decode the HTML page.

The drivers' `try`/`except` becomes `Result` values. Each step's exception text is reproduced:

- `"analyze_data failed: " + str(resp1)`;
- the AttributeError text when a 200 reply is not a dict;
- "Empty summary returned" / "Empty summary returned from worker".

The short circuit of the MCP exchange is stated in `McpExchangeSteps`:

- the summary call is issued exactly when the first reply passed its check;
- it carries that reply's `stats` and reuses the request id;
- a failure reports the text of the step that failed.

The record's `messages_or_calls` is the constant 2 in both drivers. In the MCP driver that holds even when the short circuit skipped the second call. The model keeps the source's constant, and how many calls were really issued is recorded separately, in `RunMcpExperiment`'s `issued`.

The code has no range check: `random.randint` raises ValueError on an empty range, so the ranges are preconditions. `GenerateDataset` requires:

- a non-empty length range whenever a case is drawn;
- a non-empty value range whenever a value can be drawn.

## Model

| member | source | states |
|---|---|---|
| Json.Lookup | mcp_tool_server.py:21-23 | `d[key]` finds a value exactly when some binding has the key, and the value found is bound to it |
| Json.LookupFirst | mcp_tool_server.py:21-23 | the binding found is the first one with the key |
| Json.Get | mcp_tool_server.py:41-43 | `obj.get(key, default)`: AttributeError text exactly for a non-dict; the bound value when present, the default when absent |
| PyText.IntText | mcp_tool_server.py:21 | `str(n)` of an int is non-empty and starts with a minus sign exactly for a negative `n` |
| PyText.IntTextRoundTrip | mcp_tool_server.py:21 | `str(n)` of an int, as the f-string writes the count, reads back to `n` |
| PyText.IntTextInjective | mcp_tool_server.py:21 | different ints render to different texts, so a summary that shows `str(n)` determines `n` |
| PyText.QuoteRoundTrip | mcp_experiment.py:43 | `repr` of a str inside an error text loses nothing: unquoting it gives the string back |
| PyText.Quote | mcp_experiment.py:43 | `repr` of a str is delimited by the quote character Python chooses: double quotes only for a text with a single quote and no double quote |
| PyText.Repr | mcp_experiment.py:43 | `repr` of a decoded list is bracketed, of a dict braced, of anything but a float non-empty, and of a str unquotes back to the str |
| PyText.Str | mcp_experiment.py:43 | what an f-string inserts: a str itself, an int its decimal text, anything else its `repr` |
| PyText.QuotePlain | mcp_tool_server.py:21 | the KeyError text of a plain key such as `count` is the key in single quotes |
| Http.Succeeded | mcp_experiment.py:42 | a reply is accepted exactly when its code is 200 and `resp.get("status")` succeeds with "success" |
| Http.HasSummary | mcp_experiment.py:58 | `resp.get("summary")` is a str and truthy, that is non-empty |
| Http.CheckReply | mcp_experiment.py:42-43 | the driver's check passes exactly for code 200 with a dict whose status is "success"; otherwise the error is the transport text, the AttributeError text for a non-dict 200 body, or the prefix followed by `str(resp)` |
| Reals.ArgMin | mcp_tool_server.py:13 | `min` picks the first element no greater than all others |
| Reals.ArgMax | mcp_tool_server.py:14 | `max` picks the first element no smaller than all others |
| Reals.MeanBetween | mcp_tool_server.py:15 | the mean of a non-empty list lies between its minimum and maximum |
| Analysis.StatsOf | mcp_tool_server.py:11-16 | the stats of a non-empty list have its length as count, and min and max taken from its elements |
| Analysis.ComputeStats | mcp_tool_server.py:7-16 | "Empty input list" exactly for a falsy argument; success exactly for a non-empty list of numbers, with stats that describe it (count = length, min and max members bounding every element, mean = arithmetic mean between them); min and max are the first least and first greatest elements, as `min` and `max` pick them |
| Analysis.StatsOfExtrema | mcp_tool_server.py:13-14 | the stats' min and max are members of the list equal to its least and greatest values, bounding every element |
| Analysis.StatsOfMean | mcp_tool_server.py:15 | the stats' mean lies between the list's least and greatest values |
| Analysis.StatsOfDescribes | a2a_worker_agent.py:7-15 | the stats built from a non-empty list of numbers describe that list |
| Analysis.StatsOfInts | mcp_tool_server.py:9-16 | a non-empty list of ints is accepted; count is its length, and min and max are int members bounding every element |
| Analysis.Key | mcp_tool_server.py:21-23 | `stats[key]` succeeds exactly when the key is bound; otherwise KeyError whose text is the key's repr |
| Analysis.Fixed2 | mcp_tool_server.py:23 | `format(v, '.2f')` succeeds exactly for a number (int, float or bool) |
| Analysis.SummaryText | mcp_tool_server.py:20-24 | the sentence is non-empty and contains the count, the min and the max texts |
| Analysis.SummaryFields | mcp_tool_server.py:21-23 | the four lookups succeed exactly when count, min, max and mean are all bound, a missing count raises KeyError 'count' first, and success yields the bound values in order |
| Analysis.GenerateSummary | mcp_tool_server.py:18-24 | succeeds exactly when the four keys are bound and the mean is a number; the summary is non-empty and shows `str` of count, min and max; a missing count is KeyError 'count' |
| Analysis.StatsJson | mcp_tool_server.py:11-16 | the stats dict binds count, min, max and mean to the computed values |
| Analysis.SummaryFieldsOfStats | mcp_tool_server.py:21-23 | the four lookups on a computed stats dict yield the computed values |
| Analysis.SummaryOfStatsText | a2a_worker_agent.py:17-22 | the summary of a computed stats dict is the sentence with the count as an int text and the mean formatted with `.2f` |
| Analysis.SummaryOfStats | a2a_worker_agent.py:45-46 | summarizing stats that `compute_stats` built never fails, and the text names count, min and max |
| Analysis.SummaryOfIntStats | mcp_tool_server.py:18-24 | for int extrema the summary contains the decimal texts of count, min and max |
| Analysis.SummaryMentionsInts | a2a_worker_agent.py:45-46 | for a non-empty int list, the summary of its stats names its length and its int min and max |
| McpToolServer.RequestedNumbers | mcp_tool_server.py:41-43 | AttributeError exactly when the body, or a present `args`, is not a dict; a missing `args` or `numbers` gives `[]`, otherwise the bound list |
| McpToolServer.RequestedStats | mcp_tool_server.py:78-80 | AttributeError exactly when the body, or a present `args`, is not a dict; a missing `args` or `stats` gives None, otherwise the bound value |
| McpToolServer.AnalyzeOutcome | mcp_tool_server.py:39-45 | the analyze step passes on the `args` error, and succeeds exactly for a non-empty list of numbers under `args.numbers`, with stats that describe it |
| McpToolServer.SummaryOutcome | mcp_tool_server.py:76-85 | the summary step passes on the `args` error, rejects a `stats` that is not a dict with "Missing or invalid 'stats' in args", and succeeds exactly when `generate_summary` does on the dict, with its non-empty text |
| McpToolServer.SuccessBody | mcp_tool_server.py:48-54 | the success body echoes the request id and the tool name, has status "success", and carries the result under its key |
| McpToolServer.ErrorBody | mcp_tool_server.py:56-61 | the error body echoes the request id and the tool name, has status "error", and carries the error text |
| McpToolServer.ToolReply | mcp_tool_server.py:48-61 | the reply is 200 with "success" and the result, or 400 with "error" and the exception text, matching the outcome |
| McpToolServer.AnalyzeData | mcp_tool_server.py:26-61 | 500 exactly for a non-dict body; otherwise the reply echoes the request id, has code 200 exactly when the numbers are accepted, and carries their stats, or else the error text |
| McpToolServer.Summary | mcp_tool_server.py:63-101 | 500 exactly for a non-dict body; otherwise the reply echoes the request id, has code 200 exactly when the summary is produced, and carries it, or else the error text |
| McpToolServer.AnalyzeRejectsEmpty | mcp_tool_server.py:42-61 | an empty or missing `numbers` gets 400 "Empty input list" with the request id echoed |
| McpToolServer.SummaryValidation | mcp_tool_server.py:80-94 | a non-dict `stats` gets 400 "Missing or invalid 'stats' in args"; a complete dict gets 200 with the summary `generate_summary` writes, non-empty and naming count, min and max |
| McpToolServer.SummaryRejectsInvalid | mcp_tool_server.py:78-83 | any dict body whose `args.stats` is present but not a dict gets 400 "error" with "Missing or invalid 'stats' in args" and the request id echoed |
| McpToolServer.SummaryRejectsMissing | mcp_tool_server.py:79-83 | a body without `args`, or whose `args` has no `stats`, gets the same 400 rejection |
| A2AWorkerAgent.RequestedData | a2a_worker_agent.py:40 | `payload.get("data", [])`: the bound value, or `[]` when absent |
| A2AWorkerAgent.TaskOutcome | a2a_worker_agent.py:38-46 | an operation other than "analyze_and_summarize" is rejected by name before anything is computed; otherwise success exactly when `compute_stats` accepts the data, with stats describing it and a summary naming count, min and max |
| A2AWorkerAgent.SuccessBody | a2a_worker_agent.py:49-55 | the success body echoes the task id, has status "success", and carries the stats dict and the summary |
| A2AWorkerAgent.ErrorBody | a2a_worker_agent.py:57-61 | the error body echoes the task id, has status "error", and carries the error text |
| A2AWorkerAgent.ProcessTask | a2a_worker_agent.py:24-61 | 500 exactly for a non-dict body; otherwise the reply echoes the task id, has code 200 exactly when the task succeeds, and carries stats and summary, or else the error text |
| A2AWorkerAgent.ProcessIntsTask | a2a_worker_agent.py:36-61 | a task over an int list: empty data gets 400 "Empty input list"; non-empty data gets 200 with the list's stats (count = length, min and max members bounding it) and a summary naming them |
| Metrics.Successful | mcp_experiment.py:81 | the filter keeps at most all records, and only successful ones |
| Metrics.Durations | mcp_experiment.py:82 | the durations list matches the successful records position by position |
| Metrics.SuccessfulAppend | mcp_experiment.py:81 | the success filter keeps order: filtering a concatenation concatenates the filtered parts |
| Metrics.SuccessfulMembers | mcp_experiment.py:81 | a record survives the filter exactly when it is in the run and succeeded |
| Metrics.SuccessfulCount | mcp_experiment.py:81 | the filter keeps everything exactly when all succeeded, and nothing exactly when none did |
| Metrics.DurationsOfSuccessful | mcp_experiment.py:81-82 | each duration is that of a successful record of the run, and every successful record contributes its duration |
| Metrics.Rate | mcp_experiment.py:87 | 0 for an empty run; otherwise rate times total is successful times 100, within 0 to 100, 0 exactly when nothing succeeded and 100 exactly when everything did |
| Metrics.Aggregate | mcp_experiment.py:81-87 | the total and successful counts, and the rate computed from them; average, min and max absent exactly when nothing succeeded, and otherwise the mean, min and max of the successful durations, with the average between min and max |
| Metrics.AggregateTiming | a2a_experiment.py:67-72 | the reported min and max bound every successful record's duration and are each the duration of one of them |
| Metrics.SuccessRate | a2a_experiment.py:73 | the rate is a percentage: 0 for an empty run, equal to successful/total*100 otherwise, 0 exactly when nothing succeeded, 100 exactly when a non-empty run fully succeeded |
| Metrics.AllFailed | mcp_experiment.py:81-87 | an all-failed run has rate 0 and no timing figures |
| Metrics.AllSucceeded | mcp_experiment.py:81-87 | a fully successful non-empty run has every record counted as successful, rate 100 and an average |
| Metrics.ThreeSuccesses | a2a_experiment.py:67-73 | three successes of 10, 20 and 30 ms give average 20, min 10, max 30 and rate 100 |
| McpExperiment.ToolPayloadFields | mcp_experiment.py:15-20 | every tool payload is a dict carrying the request id and the arguments |
| McpExperiment.AnalyzeRequestFields | mcp_experiment.py:37-41 | the first call goes to `analyze_data` with the request id and the item's numbers under `args.numbers` |
| McpExperiment.SummaryRequestFields | mcp_experiment.py:48-52 | the second call goes to `generate_summary` with the request id and the given stats under `args.stats` |
| McpExperiment.McpExchange | mcp_experiment.py:36-63 | one item's exchange issues one or two calls, the first always the analyze call with the item's numbers |
| McpExperiment.McpExchangeSteps | mcp_experiment.py:36-63 | the second call is issued exactly when the first reply passed, and carries that reply's stats and the same request id; the item succeeds exactly when both replies pass and the summary is a non-empty str; each failure carries its step's error text |
| McpExperiment.McpRecord | mcp_experiment.py:68-75 | the record has protocol "MCP", the 1-based index, the measured duration and 2 calls, success exactly without error, and the exchange's error |
| McpExperiment.McpRecords | mcp_experiment.py:68-75 | one record per item, in dataset order, each built from that item's exchange |
| McpExperiment.RunExchange | mcp_experiment.py:36-63 | the loop body's try-block computes exactly the exchange's error and calls; success holds exactly when there is no error |
| McpExperiment.RunMcpExperiment | mcp_experiment.py:30-87 | one record per item with 1-based index, protocol "MCP", two calls and the measured duration, success exactly without error; the calls issued per item; and the aggregate of those records |
| McpExperiment.AnalyzeReplyOfItem | mcp_tool_server.py:40-54 | the analyze call for a non-empty item gets a passing reply that carries the item's stats |
| McpExperiment.SummaryReplyOfStats | mcp_tool_server.py:77-94 | the summary call with computed stats gets a passing reply whose non-empty summary is the one `generate_summary` writes for them |
| McpExperiment.McpAgainstToolServer | mcp_experiment.py:36-63 | against the tool server, a non-empty item succeeds after two calls, and an empty one fails after one call with the server's "Empty input list" reply in its error |
| McpExperiment.RecordAgainstToolServer | mcp_experiment.py:68-75 | against the tool server, the record of a non-empty item is successful without error |
| McpExperiment.McpRunAgainstToolServer | mcp_experiment.py:30-87 | over non-empty items every record succeeds, and a non-empty run counts every record as successful at rate 100 |
| A2AExperiment.TaskPayloadFields | a2a_experiment.py:15-20 | every task carries its id, the operation "analyze_and_summarize" and the item's numbers |
| A2AExperiment.A2AOutcome | a2a_experiment.py:36-48 | the item succeeds exactly when the reply passes the check and has a non-empty summary; otherwise the check's error, or "Empty summary returned from worker" |
| A2AExperiment.A2ARecord | a2a_experiment.py:55-62 | the record has protocol "A2A", the 1-based index, the measured duration and 2 messages, success exactly without error, and success exactly when the reply passed with a non-empty summary |
| A2AExperiment.A2ARecords | a2a_experiment.py:55-62 | one record per item, in dataset order, each built from that item's reply |
| A2AExperiment.RunA2AExperiment | a2a_experiment.py:30-73 | exactly one task per item, carrying the item's numbers; one record per item with 1-based index, protocol "A2A", two messages and the measured duration, success exactly when the reply passed with a non-empty summary; and the aggregate |
| A2AExperiment.WorkerReplyOfItem | a2a_experiment.py:37-42 | against the worker agent, a non-empty item gets a passing reply whose summary is the one written for the item's stats |
| A2AExperiment.A2AAcceptsItem | a2a_experiment.py:36-44 | against the worker agent, a non-empty item succeeds |
| A2AExperiment.A2ARejectsEmpty | a2a_experiment.py:37-40 | against the worker agent, an empty item fails with "Worker failed: " followed by the worker's 400 "Empty input list" body |
| A2AExperiment.RecordAgainstWorker | a2a_experiment.py:55-62 | against the worker agent, the record of a non-empty item is successful without error |
| A2AExperiment.A2ARunAgainstWorker | a2a_experiment.py:30-73 | over non-empty items every record succeeds, and a non-empty run counts every record as successful at rate 100 |
| DatasetGenerator.Random.SeedWith | dataset_generator.py:16 | after seeding, the state depends on the seed alone |
| DatasetGenerator.Random.RandInt | dataset_generator.py:20 | one draw from the generator: it advances the state and returns a value in the inclusive range |
| DatasetGenerator.Draws | dataset_generator.py:21 | `n` successive draws give `n` values |
| DatasetGenerator.Cases | dataset_generator.py:19-22 | `n` cases give `n` arrays |
| DatasetGenerator.Dataset | dataset_generator.py:5-24 | `num_cases` arrays for a non-negative count, none for a negative one (`range` of a negative number is empty) |
| DatasetGenerator.DrawNumbers | dataset_generator.py:21 | the comprehension makes `length` successive draws from the value range, in draw order, and none for a negative length |
| DatasetGenerator.GenerateDataset | dataset_generator.py:5-24 | seeds with 42, then for each case draws a length and that many values; the result is a function of the parameters and the generator's functions alone, whatever the state before the call |
| DatasetGenerator.DrawsInRange | dataset_generator.py:21 | `n` draws from a non-empty range give `n` values, each within it |
| DatasetGenerator.CasesShape | dataset_generator.py:19-22 | each array's length lies between the length bounds, and each value between the value bounds |
| DatasetGenerator.DatasetShape | dataset_generator.py:5-24 | `num_cases` arrays (none for a negative count), lengths between `min_length` and `max_length`, values between `min_value` and `max_value` |
| DatasetGenerator.DatasetAccepted | dataset_generator.py:7 | with a positive minimum length every array is non-empty and `compute_stats` accepts it |
| DatasetGenerator.DefaultDataset | dataset_generator.py:5-11 | the default parameters give 30 arrays of 5 to 20 values from 1 to 500, each accepted by `compute_stats` |
| Comparison.DefaultRunsSucceed | dataset_generator.py:16 | on the shared default dataset, against the real services, both runs have 30 records, all successful, rate 100 |
| Comparison.StatsOfOneTwoThree | mcp_tool_server.py:7-16 | `[1, 2, 3]` has count 3, min 1, max 3 and mean 2 |
| Comparison.SummaryOfOneTwoThree | mcp_tool_server.py:18-24 | the summary of those stats is "The dataset contains 3 values. The minimum value is 1, the maximum value is 3, and the average value is " followed by `format(2.0, '.2f')` and a full stop |
| Comparison.A2ASummaryOfOneTwoThree | a2a_worker_agent.py:45-55 | for `[1, 2, 3]` the worker's reply succeeds, and its summary is exactly that sentence |
| Comparison.McpSummaryOfOneTwoThree | mcp_tool_server.py:85-94 | for `[1, 2, 3]`, the MCP driver's chained calls succeed, and the second reply's summary is exactly that sentence |

## Left out

- Loading and writing files, and printing, are not part of this model:
  - `load_dataset`, `json.dump` of the results and of the dataset, and `main`;
  - the per-request progress lines and the summary report.

  The drivers start from the loaded dataset, and the report's figures are `Metrics.Aggregate`.
- Network, clocks and ids are inputs. The oracle behind `requests.post` includes timeouts and connection errors as `TransportError` texts. The `time.time()` durations of each exchange and handler, and the `uuid4` ids, are given as inputs. Against the real services one handler duration is used for every call; the drivers never read it.
- Flask's `jsonify` sorts keys, and the model keeps insertion order. This changes only the order of fields inside the `str(resp)` error texts.
- Floats are not modelled bit for bit:
  - floats are reals, and `statistics.fmean` is the exact mean;
  - `repr(x)` and `format(x, '.2f')` of a float are the parameters of `PyText.FloatFormat`, so every property holds for any choice of them.
- `request.get_json(force=True)` on a body that is not JSON is not modelled: both drivers always post JSON.
- Analysis.ComputeStats: for a non-empty value that is not a list of numbers, the model only says a TypeError is raised. Its text is a fixed placeholder, because Python's wording depends on the value.
- PyText.Repr: `repr` of a str escapes ASCII control characters and quotes, as Python does. It does not model Python's escaping of non-printable non-ASCII characters.
- The Mersenne Twister inside `random` is not modelled. The generator is abstract: a draw function that promises a value in the inclusive range, and a seeding function. The dataset is therefore proved to be determined by the seed 42 and the parameters, but its concrete values are not computed.
- DatasetGenerator.GenerateDataset: the code has no range check, so the ranges are preconditions: the length range must be non-empty when a case is drawn, and the value range when a positive length can be drawn. These exclude every call on which `randint` could raise ValueError. The second is stronger than the code needs when every drawn length happens to be zero or negative.
