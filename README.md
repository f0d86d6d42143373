# SKT Payment Guardian — a verified model of the incident-response workflow

This project models the incident-response core of the payment-network
monitoring demo:

- **The workflow graph.** A log enters at `triage`. The keyword router then
  sends it to `diagnosis` or ends the run. `diagnosis` goes to `tools` when its
  reply requests tools and to `alert_gen` otherwise. `tools` always returns to
  `diagnosis`, and `alert_gen` ends the run.
- **The shared state.** `messages` is merged by list concatenation, and the
  other keys are overwritten when a stage writes them.
- **The stage nodes.** Triage appends one router message. The report stage
  stores the extracted report, or a fixed fallback report.
- **The two tools.** These are the simulated latency probe and the SOP search,
  with its citation formatting and its build-once index.
- **The scenario controller.** It holds the node-health map and the scenario
  trigger, the status snapshot, and the background job. The job runs the
  graph and turns each streamed event into log lines.

The language model, the structured-output extractors, the embedding
retriever and the tool executor are *ports*: total functions passed in as
parameters. A `Failure` result stands for an exception raised by the port.
Building the chat client (`get_azure_chat_model()` and
`with_structured_output`) happens before the `try` of the triage and report
nodes, so its failure is a port of its own (`Ports.clientError`) that makes
those nodes raise. The SOP index build calls the embedding service too: its
exception is the parameter `buildError` of `InitializeVectorStore` and
`SearchSopManual`, and the retriever's ranking is a `Result` whose `Failure`
is the exception of `retriever.invoke`.
The graph is a value (`IncidentWorkflow.Graph`). It holds an entry stage, a
node function and an edge function, and `BuildIncidentGraph(ports)` builds
the one the repository compiles. The driver (`Drive`, `Run`, and the loop
`RunGraph`) is generic in the graph. Facts about the incident graph
(`IncidentGraphFacts`) feed the generic lemmas about runs.

Modules, one file each:

- `wrappers.dfy`: `Option` and `Result`.
- `text.dfy`: the Python string operations used: `in`, `join`, `strip`, slicing, and `str(int)`.
- `incident_state.dfy`: the state record and its reducer.
- `triage_router.dfy`: the triage node and the keyword router.
- `alert_generator.dfy`: the report stage.
- `infrastructure_tools.dfy`: the SOP corpus, the index guard, the SOP search and the latency probe.
- `incident_workflow.dfy`: the graph, its driver and the properties of runs.
- `scenario_api.dfy`: the controller state and its operations.

Where what the code says of itself and what it does differ, the model
follows what it does:

- **`tool_steps`.** The comment on the key (backend/utils/incident_state.py:12)
  says it accumulates the tool results as evidence. No node ever returns that
  key, so it keeps the `[]` the job starts with (`ToolStepsStayEmpty`).
- **The fallback notification.** The 80-character limit on the notification
  text is only asked of the model in a prompt. The fallback text embeds the
  error message and is unbounded (`FallbackMmsUnbounded`).
- **Latin "Shinhan".** The latency probe matches the Korean bank names.
  `"Shinhan"` in Latin letters is reported healthy (`LatinShinhanIsHealthy`).
- **Keywords.** "Connection Refused" is a keyword of the triage prompt only.
  The router ignores it, as it ignores the unknown-scenario log
  `"General Error"`.
- **The triage result.** The triage extractor's result is a `Result`, not an
  optional value, because the fallback message carries the exception text.

## Model

| member | source | states |
|---|---|---|
| IncidentState.AddMessages | backend/utils/incident_state.py:7 | the `operator.add` merge keeps the earlier history untouched as a prefix, followed by exactly the node's messages; the length is the sum |
| IncidentState.Apply | backend/utils/incident_state.py:5-21 | merging an update appends its messages, replaces each other key the node wrote, keeps every key it did not write, and never changes `raw_log` |
| IncidentState.AddNothing | backend/utils/incident_state.py:7 | an update with no messages leaves the history unchanged |
| IncidentState.AddMessagesAssociative | backend/utils/incident_state.py:7 | two merges in a row equal one merge of the concatenated updates |
| IncidentState.ApplyExtendsHistory | backend/utils/incident_state.py:7 | after a merge the old history is a prefix of the new one, and the length grows by the update's length |
| TriageRouter.TriageLogNode | backend/agents/triage_router.py:10-45 | the triage node appends exactly one message on both paths |
| TriageRouter.TriageLogNodeSpec | backend/agents/triage_router.py:31-45 | one human message and never `tool_steps` or the report keys. On success: severity "Unknown", and a message that opens with the router tag and carries the category and reason. On failure: severity unset, and a message that carries the error and ends with "Defaulting to Incident." |
| TriageRouter.RouterMessageMentions | backend/agents/triage_router.py:40 | the success message starts with the router tag and contains the category and the reason |
| TriageRouter.RouterErrorMessageMentions | backend/agents/triage_router.py:45 | the fallback message contains the error text and ends with the escalation notice |
| TriageRouter.RouteNext | backend/agents/triage_router.py:47-58 | the route is always "diagnosis" or "end" |
| TriageRouter.RouteNextSpec | backend/agents/triage_router.py:55-58 | the route is "diagnosis" if and only if "ERROR", "CRITICAL" or "Timeout" occurs in the raw log at some offset |
| TriageRouter.RouteDependsOnlyOnRawLog | backend/agents/triage_router.py:47-58 | two states with the same raw log get the same route, whatever their messages or severity |
| TriageRouter.MissingLogEnds | backend/agents/triage_router.py:55 | a state without `raw_log` is scanned as "" and ends the run |
| TriageRouter.MissingLettersEnd | backend/agents/triage_router.py:56-58 | a log lacking one letter of each keyword routes to "end" |
| TriageRouter.LowerCaseKeywordsEnd | backend/agents/triage_router.py:56 | matching is case-sensitive: "error", "critical" and "timeout" route to "end" |
| TriageRouter.ConnectionRefusedEnds | backend/agents/triage_router.py:25 | "Connection Refused", a trigger word of the triage prompt, routes to "end" |
| TriageRouter.GeneralErrorEnds | backend/agents/triage_router.py:56-58 | the log "General Error" routes to "end" |
| TriageRouter.KeywordAtRoutesToDiagnosis | backend/agents/triage_router.py:56-57 | any log containing a keyword at some offset routes to "diagnosis" |
| AlertGenerator.ActionPlan | backend/agents/alert_generator.py:40 | the one-line action plan built from a report; what it contains is stated by `ActionPlanMentions` |
| AlertGenerator.FallbackMms | backend/agents/alert_generator.py:52 | the fallback notification text: the tag, a fixed notice and the error; stated by `FallbackReportSpec` and `FallbackMmsUnbounded` |
| AlertGenerator.FallbackReport | backend/agents/alert_generator.py:47-54 | the report built when extraction fails; its fields are stated by `FallbackReportSpec` |
| AlertGenerator.FallbackReportSpec | backend/agents/alert_generator.py:47-54 | the fallback report has severity and location "Unknown", root cause "Analysis Failed", the one action "Manual Check Required" and evidence "N/A"; its notification starts with "[SKT 장애알림]" and contains the error |
| AlertGenerator.ActionPlanMentions | backend/agents/alert_generator.py:40 | the action plan opens with "[severity] " and mentions the location, the root cause and every action item |
| AlertGenerator.AlertGenerationNode | backend/agents/alert_generator.py:14-60 | on both paths one message is appended, the report, plan and severity are set, and `tool_steps` is not written |
| AlertGenerator.AlertGenerationNodeSpec | backend/agents/alert_generator.py:33-60 | on success the report is stored as extracted, severity is the report's, the plan is the formatted plan, and the message is the completion prefix plus the notification text. On failure: the fallback report, severity "Unknown", the fixed plan and the fixed error message |
| AlertGenerator.FallbackMmsUnbounded | backend/agents/alert_generator.py:52 | an error text longer than 80 characters makes the fallback notification longer than 80 characters |
| Text.Contains | backend/agents/triage_router.py:56 | Python's `in` on strings, as a scan from the left; characterised by `ContainsIffOccurs` |
| Text.Join | backend/agents/alert_generator.py:40 | `sep.join(items)`; every item occurs in the result (`JoinContainsEach`) |
| Text.NatToString | backend/tools/infrastructure_tools.py:106 | the decimal rendering of the passage number `i+1`; never empty |
| Text.ContainsIffOccurs | backend/agents/triage_router.py:56 | Python's `in` on strings holds exactly when the needle occurs at some offset |
| Text.JoinContainsEach | backend/agents/alert_generator.py:40 | `", ".join(items)` contains every item |
| Text.Strip | backend/tools/infrastructure_tools.py:106 | `strip()` returns a slice of its argument starting after the leading whitespace |
| Text.StripCutsSpaces | backend/tools/infrastructure_tools.py:106 | everything `strip()` cuts away on either side is whitespace |
| Text.StripKeepsNoEdgeSpace | backend/tools/infrastructure_tools.py:106 | what `strip()` keeps neither starts nor ends with whitespace |
| Text.Take | main.py:113 | `s[:30]` has length min(len(s), 30) and is a prefix of `s` |
| InfrastructureTools.Retrieve | backend/tools/infrastructure_tools.py:96-97 | the retriever returns at most k = 3 passages, the best-ranked ones, in rank order |
| InfrastructureTools.SopBlock | backend/tools/infrastructure_tools.py:106 | the citation block of passage i; what it carries is stated by `SopBlockCites` |
| InfrastructureTools.SearchResult | backend/tools/infrastructure_tools.py:99-108 | what the search returns for the retrieved passages; the loop `FormatSearchResult` computes it, and `SearchResultNotFoundIff` and `RenderHitsHasBlock` state its properties |
| InfrastructureTools.Blocks | backend/tools/infrastructure_tools.py:104-106 | there is one citation block per retrieved passage, block i being passage i's |
| InfrastructureTools.FormatSearchResult | backend/tools/infrastructure_tools.py:99-108 | the formatting loop returns the not-found text for no passages, else the concatenation of the blocks in retrieval order |
| InfrastructureTools.SearchResultNotFoundIff | backend/tools/infrastructure_tools.py:99-100 | the not-found text is returned if and only if nothing was retrieved |
| InfrastructureTools.RenderHitsHasBlock | backend/tools/infrastructure_tools.py:103-106 | the result contains the block of every retrieved passage |
| InfrastructureTools.SopBlockCites | backend/tools/infrastructure_tools.py:106 | each block opens a new line with "[문서 i+1] 출처: source" and contains the section and the stripped passage text |
| InfrastructureTools.ToolRuntime.constructor | backend/tools/infrastructure_tools.py:54 | the index starts absent and has been built zero times |
| InfrastructureTools.ToolRuntime.InitializeVectorStore | backend/tools/infrastructure_tools.py:56-81 | a call with the index present changes nothing and succeeds. Otherwise the index is built from the corpus unless the embedding service raises; then the call fails with that error, the index stays unset and the next call builds again. Afterwards the index exists exactly when it existed before or the build succeeded, and a successful build happens at most once over the object's life |
| InfrastructureTools.ToolRuntime.SearchSopManual | backend/tools/infrastructure_tools.py:88-108 | the search first makes sure the index exists. If the build raises, the tool fails with that error and the index stays unset. Otherwise it returns the formatted result of the best k passages, or fails with the retriever's error |
| InfrastructureTools.CheckNetworkLatency | backend/tools/infrastructure_tools.py:111-121 | the target is always echoed. A target naming 신한 gets 3500ms/Critical/15%. Otherwise one naming KIS or 삼성 gets Timeout/Down/100%. Any other gets 25ms/Healthy with no packet loss |
| InfrastructureTools.LatencyStatusShape | backend/tools/infrastructure_tools.py:116-121 | the packet-loss figure is absent exactly for healthy targets; the status is one of the three simulated ones |
| InfrastructureTools.ShinhanTakesPrecedence | backend/tools/infrastructure_tools.py:116-119 | a target naming 신한 is critical even when it also names KIS or 삼성 |
| InfrastructureTools.LatinShinhanIsHealthy | backend/tools/infrastructure_tools.py:120-121 | "Shinhan" in Latin letters is reported healthy at 25ms |
| IncidentWorkflow.ShouldContinue | backend/incident_workflow.py:42-47 | "tools" if and only if the last message carries tool calls, else "alert_gen" |
| IncidentWorkflow.DiagnosisNode | backend/agents/diagnosis_agent.py:41-43 | the diagnosis node appends the model's reply, with its tool calls, and writes no other key |
| IncidentWorkflow.ToolsNode | backend/incident_workflow.py:22-24 | the tool node writes only messages |
| IncidentWorkflow.ToolsNodeSpec | backend/incident_workflow.py:22-24 | the tool node appends one tool result per requested call, in the order requested, each answering its call's id |
| IncidentWorkflow.Route | backend/incident_workflow.py:29-62 | after triage: diagnosis if and only if the route is "diagnosis", otherwise END. After diagnosis: tools if and only if the last message has tool calls, otherwise alert_gen; failure if the history does not end with an assistant turn. After tools: diagnosis. After alert_gen: END |
| IncidentWorkflow.BuildIncidentGraph | backend/incident_workflow.py:11-67 | the compiled graph's entry point is triage |
| IncidentWorkflow.RunGraph | main.py:104 | the streaming loop produces exactly the run `Run(g, init, fuel)`: the events in order, the final state, where it stopped and the error that stopped it |
| IncidentWorkflow.Step | backend/incident_workflow.py:19-26 | the node bound to each stage. Triage and alert_gen raise if and only if the chat client cannot be built, with that error. Diagnosis raises if and only if its model raises, with that error. The tool node raises if and only if the history does not end with an assistant turn |
| IncidentWorkflow.Drive | main.py:104 | `graph.stream` from a given stage: a run streams at most `fuel` events. It stops with fewer only at END or because a node or router raised, and an error never leaves it at END |
| IncidentWorkflow.Run | main.py:104 | `graph.stream` from the entry stage: at most `fuel` events, and fewer only when the run reached END or raised |
| IncidentWorkflow.IncidentGraphFacts | backend/incident_workflow.py:16-62 | the compiled graph has the drawn edges. Triage and alert_gen never raise exactly when the chat client can be built. No node writes `tool_steps`, and only alert_gen writes the report and plan, always with the severity |
| IncidentWorkflow.IncidentGraphRoutes | backend/incident_workflow.py:42-59 | no router of the compiled graph raises after its node succeeded; the tool stage is entered only on a history ending with an assistant turn, where the tool node cannot raise |
| IncidentWorkflow.DriveErrsOnlyInNodes | backend/incident_workflow.py:42-59 | in such a graph a run that errs stopped at a stage other than END and tools, whose node raised on the state reached, with that node's error |
| IncidentWorkflow.DriveErrsOnlyAtPorts | backend/incident_workflow.py:42-47 | every error that stops a run of the compiled graph comes from a port: the diagnosis model raised on the history reached, or the chat client could not be built at triage or alert_gen. `should_continue` reads `messages[-1]` only after a diagnosis turn, so its own failure and the tool node's never happen |
| IncidentWorkflow.RunErrsOnlyAtPorts | backend/incident_workflow.py:42-47 | the same for a run from the entry stage |
| IncidentWorkflow.CompletedRunShape | backend/incident_workflow.py:29-62 | every completed run's trace is `triage` alone or `triage (diagnosis tools)* diagnosis alert_gen` |
| IncidentWorkflow.CompletedShapeOf | backend/incident_workflow.py:29-62 | the same trace shape for any graph with the incident graph's edges |
| IncidentWorkflow.CompletedFromDiagnosis | backend/incident_workflow.py:41-62 | a completed run from diagnosis has the trace `(diagnosis tools)* diagnosis alert_gen` |
| IncidentWorkflow.AlertGenAtMostOnce | backend/incident_workflow.py:49-62 | in a completed trace alert_gen occurs at most once, as the last stage and right after diagnosis |
| IncidentWorkflow.TriageDecides | backend/incident_workflow.py:29-39 | every run starts at triage. If the chat client cannot be built, the run stops there with that error and streams nothing. Otherwise triage runs first, and the run completes with the trace `triage` alone if and only if the route is "end" |
| IncidentWorkflow.ToolCallingLoops | backend/incident_workflow.py:42-59 | a diagnosis model that always requests tools makes diagnosis and tools alternate forever |
| IncidentWorkflow.EndlessLoop | backend/incident_workflow.py:42-59 | in such a graph a run from diagnosis never errs, never leaves diagnosis/tools, starts with diagnosis and alternates |
| IncidentWorkflow.LoopNeverReportsOf | backend/incident_workflow.py:42-62 | in such a graph alert_gen never runs, and only runs that triage ends complete |
| IncidentWorkflow.ToolLoopNeverReports | backend/incident_workflow.py:42-59 | with no iteration cap and a diagnosis model that always requests tools, the report stage is never reached, whatever the fuel |
| IncidentWorkflow.DrivePreservesHistory | backend/utils/incident_state.py:7 | during a run the history only grows, `raw_log` is never rewritten, and `tool_steps` keeps its value when no node writes it |
| IncidentWorkflow.RunPreservesHistory | backend/incident_workflow.py:19-26 | in every run of the incident graph the starting history stays a prefix, the raw log is unchanged and `tool_steps` is never written |
| IncidentWorkflow.NoReportWithoutAlertGen | backend/agents/alert_generator.py:38-59 | a run that never reached alert_gen leaves the report and the plan as they were |
| IncidentWorkflow.ReportAfterAlertGen | backend/agents/alert_generator.py:38-59 | a run whose last stage was alert_gen ends with the report, plan and severity all set |
| IncidentWorkflow.CompletedRunReports | backend/incident_workflow.py:29-62 | a completed run either stopped after triage with the report fields untouched, or set all three |
| ScenarioApi.InitialInputs | main.py:97-102 | a run starts with one request message, the scenario log, an empty `tool_steps` and no report, plan or severity |
| ScenarioApi.SimulationLines | main.py:65-86 | the simulation path writes eight canned lines after the start line |
| ScenarioApi.FailedNodes | main.py:152-159 | the nodes each scenario marks "error"; counted by `FailedNodeCounts` |
| ScenarioApi.ScenarioLog | main.py:151-159 | the raw log each scenario queues; where it routes is stated by `ScenarioLogRoutes` |
| ScenarioApi.HealthSpec | main.py:149-159 | a health map covers exactly the 13 monitored nodes, holds only "normal"/"error" and marks exactly the failed nodes |
| ScenarioApi.MarkFailed | main.py:153 | marking a monitored node "error" adds it to the failed set |
| ScenarioApi.FailedNodeCounts | main.py:152-159 | "single_failure" fails one node, "triple_failure" three, every other scenario none, all of them monitored nodes |
| ScenarioApi.SingleFailureLogCarriesError | main.py:154 | the single-failure log carries "ERROR" at offset 1 |
| ScenarioApi.TripleFailureLogCarriesCritical | main.py:159 | the triple-failure log carries "CRITICAL" at offset 1 |
| ScenarioApi.ScenarioLogRoutes | main.py:151-159 | the two failure logs route to diagnosis; the log of every other scenario routes to "end" |
| ScenarioApi.UnknownScenarioStopsAfterTriage | main.py:151 | an unknown scenario's run never produces a report or plan. With a working chat client it completes right after triage, whatever the models answer. Without one it stops at triage with the client's error |
| ScenarioApi.ToolStepsStayEmpty | main.py:100 | `tool_steps` is still `[]` at the end of every run, and the request message is still first |
| ScenarioApi.EventLines | main.py:106-124 | the lines the job logs for one streamed event; their number per stage is stated by `EventLinesCount` |
| ScenarioApi.ToolLinesCount | main.py:110-114 | a tools event logs one line per tool-result message, each stamped and tagged "[도구 결과]" |
| ScenarioApi.EventLinesCount | main.py:106-124 | triage logs one line; tools one per tool result; diagnosis one exactly when its last message requests no tools; alert_gen two exactly when the report is non-empty |
| ScenarioApi.ToolEventLinesMatchCalls | main.py:109-114 | the tool node's event logs as many lines as the diagnosis turn requested tool calls |
| ScenarioApi.EventLogSnoc | main.py:104-106 | the log of one more event is the log so far followed by that event's lines |
| ScenarioApi.SystemState.constructor | main.py:37-42 | the initial state has every node "normal", no logs, scenario "normal" and is idle |
| ScenarioApi.SystemState.GetStatus | main.py:134-142 | the snapshot returns nodes, logs, scenario and flag exactly as stored, with the given time |
| ScenarioApi.SystemState.StatusDiffersOnlyInTimestamp | main.py:134-142 | two polls with no change in between differ only in their timestamp |
| ScenarioApi.SystemState.ResetNodes | main.py:149 | the reset loop leaves every monitored node "normal" and nothing else changed |
| ScenarioApi.SystemState.MarkScenarioNodes | main.py:151-159 | after the reset, exactly the scenario's failed nodes are "error", and the scenario's log is chosen |
| ScenarioApi.SystemState.SetScenario | main.py:144-165 | the scenario is recorded and exactly its failed nodes are "error". "normal" replaces the logs with one line, returns "ok" and queues nothing. Every other scenario keeps the logs, returns "accepted" and queues one run on its log |
| ScenarioApi.SystemState.AppendEventLog | main.py:104-124 | the event loop appends each event's lines, in stream order, and nothing else |
| ScenarioApi.SystemState.Simulate | main.py:65-89 | the simulation path appends the canned lines and lowers the flag |
| ScenarioApi.SystemState.RunWorkflow | main.py:91-129 | the real path logs every streamed event's lines, then the error line if a node raised; it lowers the flag unless the run was cut off by the fuel bound |
| ScenarioApi.SystemState.RunAiBackground | main.py:57-129 | the log is restarted with the start line followed by the simulation lines or the run's lines; nodes and scenario are untouched; the flag is down afterwards except while a real run is still looping |

## Left out

- The language model, the structured-output extractors and the embedding retriever are parameters (`Ports`, and the ranking passed to `SearchSopManual`). The prompts they are given are not modelled, and neither is anything they promise only because a prompt asks for it: the three severities and the "[SKT 장애알림]" prefix on the success path.
- `initialize_vector_store`: chunking, embedding and indexing are not modelled. The index is identified with the corpus it was built from, and the build count is ghost state.
- The prebuilt tool node is modelled by what it returns: one result per call, with a tool result computed by the `runTool` port. Which of the two tools runs, and its argument parsing, is not modelled.
- IncidentWorkflow.Step: the error texts used when a node or router raises are stand-ins. They are not the exact exception messages of the graph library.
- IncidentWorkflow.RunGraph: the source sets no iteration bound. The driver takes `fuel`, a number of stages, and a run that exhausts it reports the stage it stopped at. The graph library's own step limit is not part of this model: by default LangGraph stops a run after 25 supersteps by raising `GraphRecursionError`. A tool-calling loop therefore ends, in the source, with the job's error line and the flag lowered, not in the still-running state a fuel cut-off stands for.
- ScenarioApi.SystemState.RunAiBackground: the flag is lowered on every path that returns. A real run cut off by the fuel bound stands for a job that has not returned yet, so there the flag stays raised.
- ScenarioApi.SystemState.RunAiBackground: `graph` is a parameter. The statement that it is `BuildIncidentGraph(ports)` is documented, not enforced.
- ScenarioApi.EventLines: a diagnosis event whose last message is not an assistant turn logs nothing. The source would raise there (it reads `tool_calls` of that message) and end the job with the error line. The compiled graph's diagnosis node always appends an assistant turn, so this arises only for a `graph` other than `BuildIncidentGraph(ports)`.
- The chat client of the diagnosis stage is not a separate port: any exception of that stage, including a failure to build the client, is a `Failure` of `diagnose`.
- Wall-clock timestamps are parameters. Every line of one job carries the same stamp `ts`, while the source reads the clock per line or per event.
- `time.sleep` calls, the thread id and the checkpointer are not modelled.
- Background-task scheduling and concurrency between the job and the status endpoint are not modelled. A queued job is returned as a `BackgroundTask` value.
- Module loading is not modelled: whether the AI modules loaded is the flag `aiAvailable`. As the repository stands, the three agent modules import `get_azure_chat_model` from backend/utils/system_config.py, which defines only `SystemConfig`. The import at main.py:17 then fails, `REAL_AI_AVAILABLE` stays False, and only the simulation path runs: `aiAvailable == false` in this model.
- HTTP transport and the dashboard are not modelled. `GetStatus` takes the time as an argument.
- The `print` lines that report the index build are not modelled.
